# PrefetchKit prefetch trigger, in Dafny

`PrefetchContext` watches the content offset of a `UIScrollView`. When the
content left past the viewport drops into a window ahead of the end, it
calls the caller's fetch action. It keeps a three-state lifecycle (`idle`,
`fetching`, `completed`) so that only one fetch runs at a time. It can also
act as the table or collection view's prefetching data source. In that role
it forwards the native "prefetch" and "cancel prefetching" callbacks to a
replaceable action handler.

The model has three modules:

- `Geometry` (geometry.dfy): `CGPoint`, `CGSize` and `CGRect` over exact
  reals. `CGRect.width`/`height` are standardized (never negative).
  `equalTo(.zero)` is modelled as `IsZero`.
- `PrefetchKit` (prefetch.dfy): the `State` and `Action` enums, and the
  observer's guard chain as the specification function `Decide`. `Step`
  specifies what each call or notification does to the context's fields and
  which closures it calls. `PrefetchContext` is a class with the source's
  mutable fields. Its methods are written imperatively, the way the Swift
  is. The observer and each public method are proved against `Step`; the
  two private helpers `BeginPrefetching` and `AsPrefetchingDataSource`,
  which have no input of their own, are specified by their own
  postconditions. A caller's closure is modelled as a
  `Callback` identity (`NoOp` is the `{ _ in }` default). The ghost field
  `trace` records every closure call the context makes, in order:
  `Logged`, `FetchCalled` (with the state the action sees) and
  `ActionSent`.
- `PrefetchProperties` (properties.dfy): what the trigger promises, over one
  input and over any sequence of inputs (`Run` folds `Step`).

Points of the source worth stating explicitly:

- `state` has a public setter (lines 14-18), so callers can write it
  directly. It is modelled as `SetState`, and `NoSecondFetchWithoutCompletion`
  excludes both that setter and completion.
- The zero-bounds guard is `bounds.equalTo(CGRect.zero)` (line 65), which
  also needs a zero origin. `IsZero` follows it. A view of zero width and
  height with a non-zero origin passes the guard, but it still never fires,
  because its view length and so its trigger distance are zero and the
  window is empty (`ZeroSizeNeverFires`). It is suppressed as outside the
  window rather than as zero bounds.
- The `leadingScreensForPrefetch` setter accepts any value. A non-positive
  value suppresses the trigger (lines 58-61).

A consequence of the axis heuristic, proved as `NarrowContentNeverFires`: a
view whose content is narrower than its bounds is measured along x. With a
non-negative x offset it can then never fire, however far it scrolls
vertically.

More generally, content no longer than the viewport on the measured axis
never fires while the offset is not negative (`ShortContentNeverFires`), as
the comment at line 89 says. A negative offset, from a bounce or a content
inset, is not excluded: an 800-high viewport over 700 of content at y = -150
fires (`ShortContentFiresAtNegativeOffset`).

## Model

| member | source | states |
|---|---|---|
| `Geometry.Width` | Sources/PrefetchKit/PrefetchKit.swift:73-84 | the bounds width the rule reads is non-negative and equals the stored width or its negation (the stored width when that is non-negative) |
| `Geometry.Height` | Sources/PrefetchKit/PrefetchKit.swift:80 | the same for the bounds height |
| `PrefetchKit.Measure` | Sources/PrefetchKit/PrefetchKit.swift:73-87 | equal bounds and content widths project onto bounds height, offset y and content height; otherwise onto bounds width, offset x and content width |
| `PrefetchKit.Decide` | Sources/PrefetchKit/PrefetchKit.swift:54-95 | fires iff not fetching, leading screens > 0, bounds not zero and 0 < remaining <= trigger distance; while fetching the reason is "already fetching" |
| `PrefetchKit.Step` | Sources/PrefetchKit/PrefetchKit.swift:14-161 | the state changes only to fetching on an unblocked notification, to completed on completion, or through the setter; the fetch action is called only by a notification and sees state fetching; native callbacks change no field |
| `PrefetchKit.PrefetchContext.constructor` | Sources/PrefetchKit/PrefetchKit.swift:21-51 | a new context is idle with one leading screen, no-op handlers and no closure called |
| `PrefetchKit.PrefetchContext.OnScroll` | Sources/PrefetchKit/PrefetchKit.swift:52-98 | the observer's new fields and closure calls are `Step` of a notification; from fetching it keeps fetching and logs one message |
| `PrefetchKit.PrefetchContext.SetState` | Sources/PrefetchKit/PrefetchKit.swift:14-18 | the setter writes `state` and nothing else |
| `PrefetchKit.PrefetchContext.SetLeadingScreensForPrefetch` | Sources/PrefetchKit/PrefetchKit.swift:32-36 | the setter writes the multiplier and nothing else |
| `PrefetchKit.PrefetchContext.EnablePrefetchingDataSource` | Sources/PrefetchKit/PrefetchKit.swift:106-108 | installs the given action handler and changes nothing else |
| `PrefetchKit.PrefetchContext.DisablePrefetchingDataSource` | Sources/PrefetchKit/PrefetchKit.swift:111-113 | installs the no-op handler and changes nothing else |
| `PrefetchKit.PrefetchContext.AsPrefetchingDataSource` | Sources/PrefetchKit/PrefetchKit.swift:115-125 | replaces `uiAction` with the given handler, whether enabling or not |
| `PrefetchKit.PrefetchContext.LogPipeline` | Sources/PrefetchKit/PrefetchKit.swift:131-133 | replaces the log sink and nothing else |
| `PrefetchKit.PrefetchContext.CompleteFetching` | Sources/PrefetchKit/PrefetchKit.swift:135 | sets the state to completed from any state, nothing else |
| `PrefetchKit.PrefetchContext.BeginPrefetching` | Sources/PrefetchKit/PrefetchKit.swift:137 | sets the state to fetching, nothing else |
| `PrefetchKit.PrefetchContext.TableViewPrefetchRowsAt` | Sources/PrefetchKit/PrefetchKit.swift:143-145 | sends `.prefetch` of the same index paths to the current handler; no field changes |
| `PrefetchKit.PrefetchContext.TableViewCancelPrefetchingForRowsAt` | Sources/PrefetchKit/PrefetchKit.swift:147-149 | sends `.cancelPrefetching` of the same index paths to the current handler; no field changes |
| `PrefetchKit.PrefetchContext.CollectionViewPrefetchItemsAt` | Sources/PrefetchKit/PrefetchKit.swift:154-156 | as for table rows, for collection items |
| `PrefetchKit.PrefetchContext.CollectionViewCancelPrefetchingForItemsAt` | Sources/PrefetchKit/PrefetchKit.swift:158-160 | as for table rows, for collection items |
| `PrefetchProperties.FetchingNotificationOnlyLogs` | Sources/PrefetchKit/PrefetchKit.swift:54-57 | while fetching, a notification leaves the context as it was, calls no fetch action and logs exactly one message |
| `PrefetchProperties.NonPositiveLeadingScreensNeverFires` | Sources/PrefetchKit/PrefetchKit.swift:58-61 | with leading screens <= 0 a notification changes nothing and only logs, whatever the geometry |
| `PrefetchProperties.ZeroBoundsNeverFires` | Sources/PrefetchKit/PrefetchKit.swift:63-68 | with zero bounds a notification changes nothing and only logs, whatever the state |
| `PrefetchProperties.ZeroSizeNeverFires` | Sources/PrefetchKit/PrefetchKit.swift:63-95 | bounds of zero width and height never fire and leave the context unchanged with one log, whatever their origin: the guard or the empty window suppresses them |
| `PrefetchProperties.FiresIffInWindow` | Sources/PrefetchKit/PrefetchKit.swift:90-97 | past the guards, a notification moves to fetching and calls the action once iff 0 < C - V - O <= V * L; otherwise it changes nothing and logs "outside window" |
| `PrefetchProperties.WindowAsOffsetRange` | Sources/PrefetchKit/PrefetchKit.swift:90-92 | the window is the offset range C - V - V*L <= O < C - V |
| `PrefetchProperties.WorkedWindow` | Sources/PrefetchKit/PrefetchKit.swift:54-95 | V=800, C=3000, L=1: offsets 1400 and 2199 fire, 1399 and 2200 do not; completed fires, fetching and L=0 do not |
| `PrefetchProperties.AxisSelectionExamples` | Sources/PrefetchKit/PrefetchKit.swift:73-87 | a vertical list (heights 800/5000) is measured along y; a horizontal one (widths 800/3000) along x |
| `PrefetchProperties.VerticalIgnoresOffsetX` | Sources/PrefetchKit/PrefetchKit.swift:73-95 | with equal bounds and content widths the decision is the same for every x offset |
| `PrefetchProperties.HorizontalIgnoresOffsetY` | Sources/PrefetchKit/PrefetchKit.swift:73-95 | with different widths the decision is the same for every y offset |
| `PrefetchProperties.ShortContentNeverFires` | Sources/PrefetchKit/PrefetchKit.swift:89-95 | on either axis, content no longer than the viewport with a non-negative offset never fires |
| `PrefetchProperties.ShortContentFiresAtNegativeOffset` | Sources/PrefetchKit/PrefetchKit.swift:89-95 | V=800, C=700, y=-150, L=1 fires: a negative offset lets short content fire |
| `PrefetchProperties.NarrowContentNeverFires` | Sources/PrefetchKit/PrefetchKit.swift:73-95 | content narrower than the bounds, with a non-negative x offset, never fires |
| `PrefetchProperties.CompleteFromAnyState` | Sources/PrefetchKit/PrefetchKit.swift:135 | completion sets completed from any state, changes nothing else and calls no closure |
| `PrefetchProperties.CompletedDoesNotBlock` | Sources/PrefetchKit/PrefetchKit.swift:54-97 | from completed, a notification inside the window moves back to fetching and calls the action |
| `PrefetchProperties.LifecycleRoundTrip` | Sources/PrefetchKit/PrefetchKit.swift:21-137 | idle, notification, completion, notification ends in fetching with the action called twice |
| `PrefetchProperties.InitialForwardsToNoOp` | Sources/PrefetchKit/PrefetchKit.swift:21-44 | for a new context, each of the four native callbacks leaves it unchanged and sends its action, with the same index list, to the no-op handler |
| `PrefetchProperties.DisableInstallsNoOp` | Sources/PrefetchKit/PrefetchKit.swift:106-125 | for each of the four native callbacks: after enabling with a handler it reaches that handler, after disabling it reaches the no-op |
| `PrefetchProperties.NoSecondFetchWithoutCompletion` | Sources/PrefetchKit/PrefetchKit.swift:54-97 | over any inputs without completion or the state setter: at most one fetch call, none when starting in fetching, and fetching afterwards once one happened |
| `PrefetchProperties.EffectsPerInput` | Sources/PrefetchKit/PrefetchKit.swift:52-160 | over any inputs: fetch calls plus log messages equal the notifications; handler calls equal the native callbacks; nothing else calls a closure |
| `PrefetchProperties.NativeCallbacksForwardVerbatim` | Sources/PrefetchKit/PrefetchKit.swift:142-161 | any run of native callbacks leaves the context unchanged and forwards each index list, unchanged and in order, to the installed handler |

## Left out

- The `os_unfair_lock` around `state` and `leadingScreensForPrefetch`: concurrency. Both are plain fields, and every call is one atomic step.
- The KVO observation, the stored `observer` and the weak references to the scroll view and to `self`: framework lifetime. The observer's geometry is a method argument, and a released context or scroll view is not modelled.
- The `prefetchDataSource` assignment on `UITableView`/`UICollectionView`, the `as?` casts and the `#available` check: UIKit calls. Only the `uiAction` replacement is modelled, so `AsPrefetchingDataSource` ignores `enable`.
- `CGFloat` floating point (NaN, infinities, rounding): the geometry is exact reals.
- The text of log messages: each suppressed path records one `Logged` effect carrying its reason.
- `stateChangedHandler`: it is declared but never called.
- The scroll view and context arguments passed to the fetch action, and what the caller's closures do: closures are identities.
- `UIScrollView.prefetch(handler:)`: it only calls the initializer, which is the constructor.
- Sources/PrefetchKit/Demo.swift and PrefetchDemo/ViewController.swift: demo view controllers.
