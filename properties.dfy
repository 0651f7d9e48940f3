/** What the prefetch trigger promises, stated over one input (Step) and over
    any sequence of inputs (Run). */
module PrefetchProperties {
  import opened Geometry
  import opened PrefetchKit

  // ---------------------------------------------------------------------
  // Counting

  function ScrollCount(inputs: seq<Input>): nat {
    if inputs == [] then 0
    else (if inputs[0].Scrolled? then 1 else 0) + ScrollCount(inputs[1..])
  }

  function NativeCount(inputs: seq<Input>): nat {
    if inputs == [] then 0
    else (if IsNative(inputs[0]) then 1 else 0) + NativeCount(inputs[1..])
  }

  /** Inputs that write `state` directly: completion and the public setter. */
  predicate WritesState(i: Input) {
    i.Complete? || i.AssignState?
  }

  lemma {:induction false} OccurrencesAppend(a: seq<Effect>, b: seq<Effect>, kind: EffectKind)
    ensures Occurrences(a + b, kind) == Occurrences(a, kind) + Occurrences(b, kind)
  {
    if a == [] {
      assert a + b == b;
    } else {
      assert (a + b)[1..] == a[1..] + b;
      OccurrencesAppend(a[1..], b, kind);
    }
  }

  // ---------------------------------------------------------------------
  // One content-offset notification

  /** While fetching, a notification keeps the state, calls no fetch action
      and logs exactly one message. */
  lemma FetchingNotificationOnlyLogs(c: Context, g: ScrollGeometry)
    requires c.state == Fetching
    ensures Step(c, Scrolled(g)) == Transition(c, [Logged(c.logHandler, AlreadyFetching)])
  {
  }

  /** A non-positive multiplier never fires and never changes the context. */
  lemma NonPositiveLeadingScreensNeverFires(c: Context, g: ScrollGeometry)
    requires c.leadingScreens <= 0.0
    ensures Step(c, Scrolled(g)).next == c
    ensures |Step(c, Scrolled(g)).effects| == 1 && Step(c, Scrolled(g)).effects[0].Logged?
  {
  }

  /** Zero bounds never fire and never change the context. */
  lemma ZeroBoundsNeverFires(c: Context, g: ScrollGeometry)
    requires IsZero(g.bounds)
    ensures Step(c, Scrolled(g)).next == c
    ensures |Step(c, Scrolled(g)).effects| == 1 && Step(c, Scrolled(g)).effects[0].Logged?
  {
  }

  /** Bounds of zero width and height never fire, whatever their origin:
      a view with a non-zero origin passes the zero-bounds guard, but its
      view length is zero, so the trigger distance is zero and the window
      is empty. */
  lemma ZeroSizeNeverFires(c: Context, g: ScrollGeometry)
    requires Width(g.bounds) == 0.0 && Height(g.bounds) == 0.0
    ensures Decide(c.state, c.leadingScreens, g) != Fire
    ensures Step(c, Scrolled(g)).next == c
    ensures |Step(c, Scrolled(g)).effects| == 1 && Step(c, Scrolled(g)).effects[0].Logged?
  {
  }

  /** Once the three guards pass, the notification fires exactly when the
      remaining distance is strictly positive and at most the trigger
      distance; firing moves the state to Fetching and calls the action
      once, and not firing leaves the context alone and logs once. */
  lemma FiresIffInWindow(c: Context, g: ScrollGeometry)
    requires c.state != Fetching && c.leadingScreens > 0.0 && !IsZero(g.bounds)
    ensures var t := Step(c, Scrolled(g));
      var s := Measure(g);
      (t.effects == [FetchCalled(Fetching)] && t.next == c.(state := Fetching))
      <==> (0.0 < s.contentLength - s.viewLength - s.offset <= s.viewLength * c.leadingScreens)
    ensures var t := Step(c, Scrolled(g));
      var s := Measure(g);
      !(0.0 < s.contentLength - s.viewLength - s.offset <= s.viewLength * c.leadingScreens)
      ==> t == Transition(c, [Logged(c.logHandler, OutsideWindow)])
  {
  }

  /** The window read as a range of offsets: [C - V - V*L, C - V). */
  lemma WindowAsOffsetRange(s: Span, leadingScreens: real)
    ensures InWindow(s, leadingScreens) <==>
      s.contentLength - s.viewLength - s.viewLength * leadingScreens <= s.offset < s.contentLength - s.viewLength
  {
  }

  /** A vertical list with an 800-high viewport over 3000 of content,
      scrolled to `y`. */
  function VerticalList(y: real): ScrollGeometry {
    ScrollGeometry(Rect(Point(0.0, y), Size(375.0, 800.0)), Size(375.0, 3000.0), Point(0.0, y))
  }

  /** With one leading screen the trigger window of VerticalList is offsets
      1400 up to, not including, 2200. */
  lemma WorkedWindow()
    ensures Decide(Idle, 1.0, VerticalList(1400.0)) == Fire
    ensures Decide(Idle, 1.0, VerticalList(2199.0)) == Fire
    ensures Decide(Idle, 1.0, VerticalList(1399.0)) == Suppress(OutsideWindow)
    ensures Decide(Idle, 1.0, VerticalList(2200.0)) == Suppress(OutsideWindow)
    ensures Decide(Completed, 1.0, VerticalList(1500.0)) == Fire
    ensures Decide(Fetching, 1.0, VerticalList(1500.0)) == Suppress(AlreadyFetching)
    ensures Decide(Idle, 0.0, VerticalList(1500.0)) == Suppress(NonPositiveLeadingScreens)
  {
  }

  /** Axis selection on two concrete views: equal widths measure heights and
      the y offset; differing widths measure widths and the x offset. */
  lemma AxisSelectionExamples()
    ensures Measure(ScrollGeometry(Rect(Point(0.0, 0.0), Size(375.0, 800.0)), Size(375.0, 5000.0), Point(10.0, 20.0)))
      == Span(800.0, 20.0, 5000.0)
    ensures Measure(ScrollGeometry(Rect(Point(0.0, 0.0), Size(800.0, 300.0)), Size(3000.0, 300.0), Point(10.0, 20.0)))
      == Span(800.0, 10.0, 3000.0)
  {
  }

  /** Measured vertically, the decision does not depend on the x offset. */
  lemma VerticalIgnoresOffsetX(st: State, leadingScreens: real, g: ScrollGeometry, x: real)
    requires Width(g.bounds) == g.contentSize.width
    ensures Decide(st, leadingScreens, g)
      == Decide(st, leadingScreens, g.(contentOffset := Point(x, g.contentOffset.y)))
  {
  }

  /** Measured horizontally, the decision does not depend on the y offset. */
  lemma HorizontalIgnoresOffsetY(st: State, leadingScreens: real, g: ScrollGeometry, y: real)
    requires Width(g.bounds) != g.contentSize.width
    ensures Decide(st, leadingScreens, g)
      == Decide(st, leadingScreens, g.(contentOffset := Point(g.contentOffset.x, y)))
  {
  }

  /** Content no longer than the viewport, on whichever axis is measured,
      never fires while the offset is not negative: the remaining distance
      is then at most zero. */
  lemma ShortContentNeverFires(c: Context, g: ScrollGeometry)
    requires Measure(g).contentLength <= Measure(g).viewLength
    requires Measure(g).offset >= 0.0
    ensures Decide(c.state, c.leadingScreens, g) != Fire
  {
  }

  /** A negative offset (a bounce or a content inset) can still fire over
      short content: an 800-high viewport over 700 of content, pulled down
      to y = -150, has 50 remaining, inside a trigger distance of 800. */
  lemma ShortContentFiresAtNegativeOffset()
    ensures Decide(Idle, 1.0,
      ScrollGeometry(Rect(Point(0.0, -150.0), Size(375.0, 800.0)), Size(375.0, 700.0), Point(0.0, -150.0)))
      == Fire
  {
  }

  /** A consequence of the axis heuristic: a view whose content is narrower
      than its bounds is measured horizontally, and with a non-negative x
      offset it never fires, however far it has scrolled vertically. */
  lemma NarrowContentNeverFires(c: Context, g: ScrollGeometry)
    requires 0.0 <= g.contentSize.width < Width(g.bounds)
    requires g.contentOffset.x >= 0.0
    ensures Decide(c.state, c.leadingScreens, g) != Fire
  {
  }

  // ---------------------------------------------------------------------
  // The lifecycle

  /** completeFetching sets Completed from any state and touches nothing
      else. */
  lemma CompleteFromAnyState(c: Context)
    ensures Step(c, Complete) == Transition(c.(state := Completed), [])
  {
  }

  /** Completed does not block: a notification inside the window moves a
      completed context back to Fetching. */
  lemma CompletedDoesNotBlock(c: Context, g: ScrollGeometry)
    requires c.state == Completed && c.leadingScreens > 0.0 && !IsZero(g.bounds)
    requires InWindow(Measure(g), c.leadingScreens)
    ensures Step(c, Scrolled(g)) == Transition(c.(state := Fetching), [FetchCalled(Fetching)])
  {
  }

  /** idle --notification--> fetching --completeFetching--> completed
      --notification--> fetching, with the action called twice. */
  lemma LifecycleRoundTrip()
    ensures var r := Run(Initial, [Scrolled(VerticalList(1500.0)), Complete, Scrolled(VerticalList(1500.0))]);
      r.next.state == Fetching && r.effects == [FetchCalled(Fetching), FetchCalled(Fetching)]
  {
  }

  /** A fresh context has the no-op action handler, so each of the four
      native callbacks, before enabling, reaches the no-op
      handler with its index list unchanged. */
  lemma InitialForwardsToNoOp(i: Input)
    requires IsNative(i)
    ensures Step(Initial, i) == Transition(Initial, [ActionSent(NoOp, Forwarded(i))])
  {
  }

  /** Enabling installs the given handler and disabling installs the no-op,
      whatever was installed before, for each of the four native callbacks. */
  lemma DisableInstallsNoOp(c: Context, h: Callback, i: Input)
    requires IsNative(i)
    ensures Step(Step(c, Enable(h)).next, i).effects == [ActionSent(h, Forwarded(i))]
    ensures Step(Step(c, Disable).next, i).effects == [ActionSent(NoOp, Forwarded(i))]
  {
  }

  // ---------------------------------------------------------------------
  // Sequences of inputs

  /** Until completion or the state setter, at most one fetch action is
      called, none at all if the context was already fetching, and after a
      fetch the context stays in Fetching. */
  lemma {:induction false} NoSecondFetchWithoutCompletion(c: Context, inputs: seq<Input>)
    requires forall k :: 0 <= k < |inputs| ==> !WritesState(inputs[k])
    ensures Occurrences(Run(c, inputs).effects, FetchKind) <= 1
    ensures c.state == Fetching ==> Occurrences(Run(c, inputs).effects, FetchKind) == 0
    ensures c.state == Fetching || Occurrences(Run(c, inputs).effects, FetchKind) == 1 ==>
      Run(c, inputs).next.state == Fetching
    decreases |inputs|
  {
    if inputs != [] {
      var first := Step(c, inputs[0]);
      var rest := Run(first.next, inputs[1..]);
      assert !WritesState(inputs[0]);
      NoSecondFetchWithoutCompletion(first.next, inputs[1..]);
      OccurrencesAppend(first.effects, rest.effects, FetchKind);
      if Occurrences(first.effects, FetchKind) > 0 {
        assert first.effects == [FetchCalled(Fetching)];
        assert first.next.state == Fetching;
      }
      if c.state == Fetching {
        assert first.next.state == Fetching;
        assert Occurrences(first.effects, FetchKind) == 0;
      }
    }
  }

  /** Every notification calls the fetch action or logs, exactly once; every
      native callback calls the action handler exactly once; nothing else
      calls any closure. So notifications never reach `uiAction` and native
      callbacks never reach the fetch action. */
  lemma {:induction false} EffectsPerInput(c: Context, inputs: seq<Input>)
    ensures Occurrences(Run(c, inputs).effects, FetchKind) + Occurrences(Run(c, inputs).effects, LogKind)
      == ScrollCount(inputs)
    ensures Occurrences(Run(c, inputs).effects, ActionKind) == NativeCount(inputs)
    ensures |Run(c, inputs).effects| == ScrollCount(inputs) + NativeCount(inputs)
    decreases |inputs|
  {
    if inputs != [] {
      var first := Step(c, inputs[0]);
      var rest := Run(first.next, inputs[1..]);
      EffectsPerInput(first.next, inputs[1..]);
      OccurrencesAppend(first.effects, rest.effects, FetchKind);
      OccurrencesAppend(first.effects, rest.effects, LogKind);
      OccurrencesAppend(first.effects, rest.effects, ActionKind);
    }
  }

  /** Native callbacks, in any number, leave the context unchanged and
      forward each index list, unchanged and in order, to the handler that
      was installed. */
  lemma {:induction false} NativeCallbacksForwardVerbatim(c: Context, inputs: seq<Input>)
    requires forall k :: 0 <= k < |inputs| ==> IsNative(inputs[k])
    ensures Run(c, inputs).next == c
    ensures |Run(c, inputs).effects| == |inputs|
    ensures forall k :: 0 <= k < |inputs| ==>
      Run(c, inputs).effects[k] == ActionSent(c.uiAction, Forwarded(inputs[k]))
  {
    if inputs != [] {
      assert IsNative(inputs[0]);
      NativeCallbacksForwardVerbatim(c, inputs[1..]);
      var r := Run(c, inputs);
      forall k | 0 <= k < |inputs|
        ensures r.effects[k] == ActionSent(c.uiAction, Forwarded(inputs[k]))
      {
        if k > 0 {
          assert inputs[1..][k - 1] == inputs[k];
        }
      }
    }
  }
}
