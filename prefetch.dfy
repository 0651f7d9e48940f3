/** The prefetch trigger of PrefetchKit: a PrefetchContext watches the content
    offset of a scroll view and calls the caller's fetch action once the
    remaining content falls inside a window ahead of the viewport. It also
    forwards the platform's native prefetch and cancel notifications to a
    replaceable action handler. */
module PrefetchKit {
  import opened Geometry

  /** PrefetchContext.State */
  datatype State = Idle | Fetching | Completed

  /** IndexPath: an opaque path of indices (section, row or item, ...). */
  datatype IndexPath = IndexPath(indexes: seq<int>)

  /** PrefetchContext.Action, what the native callbacks forward. */
  datatype Action =
    | Prefetch(paths: seq<IndexPath>)
    | CancelPrefetching(paths: seq<IndexPath>)

  /** A closure supplied by the caller, known only by its identity. `NoOp` is
      the `{ _ in }` closure the context starts with and falls back to. */
  datatype Callback = NoOp | Client(id: nat)

  /** Why a content-offset notification did not trigger a fetch: one per
      guard of the observer, each of which logs one message. */
  datatype Suppression =
    | AlreadyFetching
    | NonPositiveLeadingScreens
    | ZeroBounds
    | OutsideWindow

  datatype Decision = Fire | Suppress(reason: Suppression)

  /** A closure invocation that an observer of the context can see. */
  datatype Effect =
    | Logged(sink: Callback, reason: Suppression)  // logHandler(message)
    | FetchCalled(observed: State)                 // action(sc, self); `observed` is self.state at the call
    | ActionSent(handler: Callback, action: Action) // uiAction(action)

  datatype EffectKind = LogKind | FetchKind | ActionKind

  function KindOf(e: Effect): EffectKind {
    match e
    case Logged(_, _) => LogKind
    case FetchCalled(_) => FetchKind
    case ActionSent(_, _) => ActionKind
  }

  /** Number of effects of the given kind. */
  function Occurrences(es: seq<Effect>, kind: EffectKind): nat {
    if es == [] then 0
    else (if KindOf(es[0]) == kind then 1 else 0) + Occurrences(es[1..], kind)
  }

  // ---------------------------------------------------------------------
  // The threshold rule

  datatype Axis = Vertical | Horizontal

  /** The three lengths the rule compares, projected onto the scroll axis. */
  datatype Span = Span(viewLength: real, offset: real, contentLength: real)

  /** The axis heuristic: equal bounds and content widths mean the view
      scrolls vertically, anything else means horizontally. */
  function ScrollAxis(bounds: Rect, contentSize: Size): Axis {
    if Width(bounds) == contentSize.width then Vertical else Horizontal
  }

  /** The geometry projected onto the chosen axis. */
  function Measure(g: ScrollGeometry): (s: Span)
    ensures Width(g.bounds) == g.contentSize.width ==>
      s == Span(Height(g.bounds), g.contentOffset.y, g.contentSize.height)
    ensures Width(g.bounds) != g.contentSize.width ==>
      s == Span(Width(g.bounds), g.contentOffset.x, g.contentSize.width)
  {
    match ScrollAxis(g.bounds, g.contentSize)
    case Vertical => Span(Height(g.bounds), g.contentOffset.y, g.contentSize.height)
    case Horizontal => Span(Width(g.bounds), g.contentOffset.x, g.contentSize.width)
  }

  /** Distance from the trailing edge of the viewport to the end of content. */
  function RemainingDistance(s: Span): real {
    s.contentLength - s.viewLength - s.offset
  }

  /** How far ahead of the end of content the fetch is triggered. */
  function TriggerDistance(s: Span, leadingScreens: real): real {
    s.viewLength * leadingScreens
  }

  /** The trigger window: strictly positive remaining distance, no more than
      the trigger distance. */
  predicate InWindow(s: Span, leadingScreens: real) {
    0.0 < RemainingDistance(s) <= TriggerDistance(s, leadingScreens)
  }

  /** The observer's guard chain, in order: already fetching, non-positive
      leading screens, zero bounds, outside the trigger window. */
  function Decide(state: State, leadingScreens: real, g: ScrollGeometry): (d: Decision)
    ensures d == Fire <==>
      state != Fetching && leadingScreens > 0.0 && !IsZero(g.bounds)
      && 0.0 < RemainingDistance(Measure(g)) <= TriggerDistance(Measure(g), leadingScreens)
    ensures state == Fetching ==> d == Suppress(AlreadyFetching)
  {
    if state == Fetching then Suppress(AlreadyFetching)
    else if !(leadingScreens > 0.0) then Suppress(NonPositiveLeadingScreens)
    else if IsZero(g.bounds) then Suppress(ZeroBounds)
    else if !InWindow(Measure(g), leadingScreens) then Suppress(OutsideWindow)
    else Fire
  }

  // ---------------------------------------------------------------------
  // The context as a value, and the calls it accepts

  /** The fields of a PrefetchContext that its operations read or write. */
  datatype Context = Context(state: State, leadingScreens: real, uiAction: Callback, logHandler: Callback)

  /** A fresh context: idle, one leading screen, both handlers no-ops. */
  const Initial: Context := Context(Idle, 1.0, NoOp, NoOp)

  /** One call made on, or notification delivered to, a context. */
  datatype Input =
    | Scrolled(g: ScrollGeometry)             // content-offset observer
    | AssignState(newState: State)            // `state` setter
    | AssignLeadingScreens(newValue: real)    // `leadingScreensForPrefetch` setter
    | Enable(handler: Callback)               // enablePrefetchingDataSource(action:)
    | Disable                                 // disablePrefetchingDataSource()
    | SetLogSink(sink: Callback)              // logPipeline(_:)
    | Complete                                // completeFetching()
    | RowsPrefetched(paths: seq<IndexPath>)   // tableView(_:prefetchRowsAt:)
    | RowsCancelled(paths: seq<IndexPath>)    // tableView(_:cancelPrefetchingForRowsAt:)
    | ItemsPrefetched(paths: seq<IndexPath>)  // collectionView(_:prefetchItemsAt:)
    | ItemsCancelled(paths: seq<IndexPath>)   // collectionView(_:cancelPrefetchingForItemsAt:)

  /** The native prefetching-datasource callbacks. */
  predicate IsNative(i: Input) {
    i.RowsPrefetched? || i.RowsCancelled? || i.ItemsPrefetched? || i.ItemsCancelled?
  }

  /** The action a native callback forwards. */
  function Forwarded(i: Input): Action
    requires IsNative(i)
  {
    if i.RowsPrefetched? || i.ItemsPrefetched? then Prefetch(i.paths) else CancelPrefetching(i.paths)
  }

  datatype Transition = Transition(next: Context, effects: seq<Effect>)

  /** What one input does to a context and which closures it calls. */
  function Step(c: Context, i: Input): (t: Transition)
    // the state moves only to Fetching on a notification that was not
    // blocked, to Completed on completion, or through the public setter
    ensures t.next.state != c.state ==>
      (i.Scrolled? && c.state != Fetching && t.next.state == Fetching)
      || (i.Complete? && t.next.state == Completed)
      || i.AssignState?
    // the fetch action is called only from a notification, and then sees
    // the context already in Fetching
    ensures forall k :: 0 <= k < |t.effects| && t.effects[k].FetchCalled? ==>
      i.Scrolled? && t.next.state == Fetching && t.effects[k].observed == Fetching
    // native callbacks leave every field alone
    ensures IsNative(i) ==> t.next == c
  {
    match i
    case Scrolled(g) =>
      (match Decide(c.state, c.leadingScreens, g)
       case Fire => Transition(c.(state := Fetching), [FetchCalled(Fetching)])
       case Suppress(why) => Transition(c, [Logged(c.logHandler, why)]))
    case AssignState(s) => Transition(c.(state := s), [])
    case AssignLeadingScreens(v) => Transition(c.(leadingScreens := v), [])
    case Enable(h) => Transition(c.(uiAction := h), [])
    case Disable => Transition(c.(uiAction := NoOp), [])
    case SetLogSink(h) => Transition(c.(logHandler := h), [])
    case Complete => Transition(c.(state := Completed), [])
    case RowsPrefetched(p) => Transition(c, [ActionSent(c.uiAction, Prefetch(p))])
    case RowsCancelled(p) => Transition(c, [ActionSent(c.uiAction, CancelPrefetching(p))])
    case ItemsPrefetched(p) => Transition(c, [ActionSent(c.uiAction, Prefetch(p))])
    case ItemsCancelled(p) => Transition(c, [ActionSent(c.uiAction, CancelPrefetching(p))])
  }

  /** A sequence of inputs applied in order, with all the effects they cause. */
  function Run(c: Context, inputs: seq<Input>): Transition
    decreases |inputs|
  {
    if inputs == [] then Transition(c, [])
    else
      var first := Step(c, inputs[0]);
      var rest := Run(first.next, inputs[1..]);
      Transition(rest.next, first.effects + rest.effects)
  }

  // ---------------------------------------------------------------------
  // The object

  /** PrefetchContext. The lock around `state` and `leadingScreensForPrefetch`
      is not modelled: both are plain fields. `trace` records, in order,
      every call the context makes into a caller-supplied closure. */
  class PrefetchContext {
    var state: State
    var leadingScreensForPrefetch: real
    var uiAction: Callback
    var logHandler: Callback
    ghost var trace: seq<Effect>

    function Value(): Context
      reads this
    {
      Context(state, leadingScreensForPrefetch, uiAction, logHandler)
    }

    /** `init(scrollView:prefetch:)`; the observer it installs is OnScroll. */
    constructor ()
      ensures Value() == Initial
      ensures state == Idle && leadingScreensForPrefetch == 1.0
      ensures uiAction == NoOp && logHandler == NoOp
      ensures trace == []
    {
      state := Idle;
      leadingScreensForPrefetch := 1.0;
      uiAction := NoOp;
      logHandler := NoOp;
      trace := [];
    }

    /** The content-offset observer. */
    method OnScroll(bounds: Rect, contentSize: Size, contentOffset: Point)
      modifies this
      ensures Value() == Step(old(Value()), Scrolled(ScrollGeometry(bounds, contentSize, contentOffset))).next
      ensures trace == old(trace) + Step(old(Value()), Scrolled(ScrollGeometry(bounds, contentSize, contentOffset))).effects
      ensures old(state) == Fetching ==>
        state == Fetching && trace == old(trace) + [Logged(logHandler, AlreadyFetching)]
    {
      if state == Fetching {
        trace := trace + [Logged(logHandler, AlreadyFetching)];
        return;
      }
      if !(leadingScreensForPrefetch > 0.0) {
        trace := trace + [Logged(logHandler, NonPositiveLeadingScreens)];
        return;
      }
      if IsZero(bounds) {
        trace := trace + [Logged(logHandler, ZeroBounds)];
        return;
      }

      var leadingScreens := leadingScreensForPrefetch;
      var isVertical := Width(bounds) == contentSize.width;

      var viewLength: real := 0.0;
      var offset: real := 0.0;
      var contentLength: real := 0.0;

      if isVertical {
        viewLength := Height(bounds);
        offset := contentOffset.y;
        contentLength := contentSize.height;
      } else {
        viewLength := Width(bounds);
        offset := contentOffset.x;
        contentLength := contentSize.width;
      }

      var triggerDistance := viewLength * leadingScreens;
      var remainingDistance := contentLength - viewLength - offset;
      if !(remainingDistance <= triggerDistance && remainingDistance > 0.0) {
        trace := trace + [Logged(logHandler, OutsideWindow)];
        return;
      }
      BeginPrefetching();
      trace := trace + [FetchCalled(state)];
    }

    /** The public `state` setter. */
    method SetState(newValue: State)
      modifies this`state
      ensures state == newValue
      ensures Value() == Step(old(Value()), AssignState(newValue)).next
    {
      state := newValue;
    }

    /** The public `leadingScreensForPrefetch` setter. */
    method SetLeadingScreensForPrefetch(newValue: real)
      modifies this`leadingScreensForPrefetch
      ensures leadingScreensForPrefetch == newValue
      ensures Value() == Step(old(Value()), AssignLeadingScreens(newValue)).next
    {
      leadingScreensForPrefetch := newValue;
    }

    method EnablePrefetchingDataSource(action: Callback)
      modifies this`uiAction
      ensures uiAction == action
      ensures Value() == Step(old(Value()), Enable(action)).next
    {
      AsPrefetchingDataSource(true, action);
    }

    method DisablePrefetchingDataSource()
      modifies this`uiAction
      ensures uiAction == NoOp
      ensures Value() == Step(old(Value()), Disable).next
    {
      AsPrefetchingDataSource(false, NoOp);
    }

    /** `enable` only chooses whether the host's prefetchDataSource is set to
        this context or cleared, which is UIKit and not modelled here; the
        handler is replaced either way. */
    method AsPrefetchingDataSource(enable: bool, action: Callback)
      modifies this`uiAction
      ensures uiAction == action
    {
      uiAction := action;
    }

    method LogPipeline(handler: Callback)
      modifies this`logHandler
      ensures logHandler == handler
      ensures Value() == Step(old(Value()), SetLogSink(handler)).next
    {
      logHandler := handler;
    }

    method CompleteFetching()
      modifies this`state
      ensures state == Completed
      ensures Value() == Step(old(Value()), Complete).next
    {
      state := Completed;
    }

    method BeginPrefetching()
      modifies this`state
      ensures state == Fetching
    {
      state := Fetching;
    }

    method TableViewPrefetchRowsAt(indexPaths: seq<IndexPath>)
      modifies this`trace
      ensures trace == old(trace) + [ActionSent(uiAction, Prefetch(indexPaths))]
      ensures trace == old(trace) + Step(old(Value()), RowsPrefetched(indexPaths)).effects
    {
      trace := trace + [ActionSent(uiAction, Prefetch(indexPaths))];
    }

    method TableViewCancelPrefetchingForRowsAt(indexPaths: seq<IndexPath>)
      modifies this`trace
      ensures trace == old(trace) + [ActionSent(uiAction, CancelPrefetching(indexPaths))]
      ensures trace == old(trace) + Step(old(Value()), RowsCancelled(indexPaths)).effects
    {
      trace := trace + [ActionSent(uiAction, CancelPrefetching(indexPaths))];
    }

    method CollectionViewPrefetchItemsAt(indexPaths: seq<IndexPath>)
      modifies this`trace
      ensures trace == old(trace) + [ActionSent(uiAction, Prefetch(indexPaths))]
      ensures trace == old(trace) + Step(old(Value()), ItemsPrefetched(indexPaths)).effects
    {
      trace := trace + [ActionSent(uiAction, Prefetch(indexPaths))];
    }

    method CollectionViewCancelPrefetchingForItemsAt(indexPaths: seq<IndexPath>)
      modifies this`trace
      ensures trace == old(trace) + [ActionSent(uiAction, CancelPrefetching(indexPaths))]
      ensures trace == old(trace) + Step(old(Value()), ItemsCancelled(indexPaths)).effects
    {
      trace := trace + [ActionSent(uiAction, CancelPrefetching(indexPaths))];
    }
  }
}
