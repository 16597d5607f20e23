# RefreshableView gesture state machine, in Dafny

`RefreshableView` is an Android pull-to-refresh container. A header with an
arrow and a progress bar sits hidden above a `ListView`. When the list is at
its top, dragging down scrolls the container up to reveal the header. The
widget switches between the PULL (0), RELEASE (1), REFRESHING (2) and
FINISHED (3) statuses. Releasing in RELEASE starts a refresh and calls the
registered `PullToRefreshListener`. `finishRefresh()` scrolls the header
closed again.

This project models the deterministic core of that widget: the touch
handling in `onTouch` and `isAbleToPull`, `finishRefresh`, the target of
`smoothScrollBy`, `onRefresh` as a callback counter, the change guard of
`updateHeaderView`, the degree pair chosen by `rotateArrow`, and the one-time
set-up in `onLayout`.

- `gesture.dfy` (module `Gesture`) holds the widget's fields as a value,
  `ViewState`, and one pure transition function per operation. The
  single-event properties are the `ensures` clauses of those functions.
- `runs.dfy` (module `GestureRuns`) feeds sequences of inputs to the state
  machine. An input is a touch, a `finishRefresh()` call, or the end of the
  closing scroll. Its lemmas are proved by induction over the sequence:
  - an invariant that every reachable state keeps;
  - the exact number of listener calls;
  - a list away from its top leaves the widget untouched;
  - a downward drag reveals the header by at most the finger's travel.
  It also proves concrete scenarios from a laid-out widget.
- `refreshable_view.dfy` (module `Widget`) is the class `RefreshableView`
  with the Java fields. Its methods update the fields in place, as the Java
  methods do. Each method is proved to leave the fields equal to the
  matching `Gesture` function applied to the old fields.

Y coordinates are `real`s, standing for Java's `float`. The `(int)` cast of
the finger movement in `scrollBy` is `TruncateToInt`, which truncates toward
zero. The touch slop is a constructor parameter. `MotionEvent` actions are
`Down`, `Move` and `Up`. `Up` covers `ACTION_UP` and every other action code,
which all take the `default` arm of the switch.

## Behaviour of the code worth knowing

- The PULL/RELEASE choice on a move reads the scroll offset *before* that
  move's `scrollBy`, so the status lags the offset by one move. With a
  100-unit header and a slop of 10, a touch-down at 500 and moves to 520 and
  620 end in PULL at offset -120, and a release there only closes the
  header. One more move switches to RELEASE, and only then does a release
  start a refresh (`GestureRuns.PullStatusLagsOneMove`).
- The slop test is signed (`rawY - yDown < touchSlop`). It does not test the
  absolute distance.
- Releasing in PULL starts the closing scroll but leaves the status at PULL,
  not FINISHED. While the status stays PULL, the next touch-down is consumed
  as well (`GestureRuns.ReleaseInPullClosesHeaderKeepsPull`).
- `isAbleToPull` resets the drag origin on a false-to-true change only when
  the list has a first child. On an empty list it sets `ableToPull` and
  leaves `yDown` alone.
- `updateHeaderView` compares against `lastStatus`, and `lastStatus` is
  written only in the PULL/RELEASE block at the end of `onTouch`. So the
  header can show the progress bar while the status is RELEASE: after a
  refresh and `finishRefresh()`, a new gesture that drags before the closing
  scroll ends re-enters RELEASE without redrawing the header
  (`GestureRuns.ProgressShownWhileRelease`).
- A drag during REFRESHING, before `finishRefresh()`, leaves REFRESHING. With
  the header still open past its height, a touch-down and a move re-enter
  RELEASE, and the next release calls the listener a second time while the
  first refresh is still running (`GestureRuns.SecondRefreshWhileRefreshing`).

## Model

| member | source | states |
|---|---|---|
| `Gesture.Initial` | app/src/main/java/com/example/administrator/myapplication/RefreshableView.java:88-125 | a new widget is FINISHED with FINISHED last shown, not scrolled, not pullable, not laid out, with no listener and no scroll running |
| `Gesture.TruncateToInt` | app/src/main/java/com/example/administrator/myapplication/RefreshableView.java:184 | the `(int)` cast truncates toward zero: the result has the sign of the input and lies within one unit of it, on the zero side |
| `Gesture.OnLayout` | app/src/main/java/com/example/administrator/myapplication/RefreshableView.java:142-152 | only the first changed layout sets `hideHeaderHeight` to minus the header height and sets `loadOnce`; every other layout changes nothing; once laid out the hidden offset is not positive |
| `Gesture.IsAbleToPull` | app/src/main/java/com/example/administrator/myapplication/RefreshableView.java:267-283 | `ableToPull` becomes true exactly when the list has no first child or shows position 0 with top 0; `yDown` becomes the raw Y only when a list with a first child turns pullable; nothing else changes |
| `Gesture.ArrowRotation` | app/src/main/java/com/example/administrator/myapplication/RefreshableView.java:248-264 | PULL turns the arrow 180 to 360 and RELEASE 0 to 180, each a half turn; other statuses get 0 to 0 |
| `Gesture.UpdateHeaderView` | app/src/main/java/com/example/administrator/myapplication/RefreshableView.java:227-243 | a no-op when the status equals the one last shown, or is FINISHED; otherwise PULL and RELEASE show the arrow with that status's rotation and REFRESHING shows only the progress bar; only the header changes |
| `Gesture.SmoothScrollBy` | app/src/main/java/com/example/administrator/myapplication/RefreshableView.java:298-301 | starts a scroll of `SCROLL_TIME` from the current offset that ends at offset 0; nothing else changes |
| `Gesture.ComputeScroll` | app/src/main/java/com/example/administrator/myapplication/RefreshableView.java:303-310 | at the end of a running scroll the offset is the scroll's final Y and the scroller is idle; with no scroll running nothing changes |
| `Gesture.OnRefresh` | app/src/main/java/com/example/administrator/myapplication/RefreshableView.java:291-296 | the callback count grows by one exactly when a listener is registered; nothing else changes |
| `Gesture.FinishRefresh` | app/src/main/java/com/example/administrator/myapplication/RefreshableView.java:219-222 | the status becomes FINISHED and a scroll starts from the current offset towards 0; nothing else changes |
| `Gesture.AfterAction` | app/src/main/java/com/example/administrator/myapplication/RefreshableView.java:203-215 | the event is consumed exactly in PULL or RELEASE, and then the header is updated and `lastStatus` becomes the status; otherwise the state is untouched |
| `Gesture.TouchDown` | app/src/main/java/com/example/administrator/myapplication/RefreshableView.java:159-162 | `yDown` and `mLastY` become the raw Y; offset, status, callbacks and scroll are unchanged; consumed exactly when the status is already PULL or RELEASE |
| `Gesture.TouchMove` | app/src/main/java/com/example/administrator/myapplication/RefreshableView.java:163-187 | a move with `rawY - yDown <= 0` at offset 0, or with `rawY - yDown < touchSlop`, is declined and changes only `mLastY`; a dragging move sets RELEASE if the pre-move offset is below `hideHeaderHeight` and PULL otherwise, lowers the offset by the truncated `rawY - mLastY`, is consumed and records the status as last shown |
| `Gesture.TouchUp` | app/src/main/java/com/example/administrator/myapplication/RefreshableView.java:188-200 | in RELEASE the status becomes REFRESHING, the listener count grows by one if a listener is registered, the progress bar shows and the event is not consumed; in PULL the header scrolls towards 0, the status stays PULL and the event is consumed; in other statuses nothing changes |
| `Gesture.OnTouch` | app/src/main/java/com/example/administrator/myapplication/RefreshableView.java:154-216 | with the list away from its top the event is declined and only `ableToPull` changes; a consumed event leaves a PULL or RELEASE status equal to `lastStatus`; the callback count grows by one exactly on a release in RELEASE with a listener; the status enters REFRESHING exactly on a release in RELEASE; layout, slop and listener are unchanged |
| `GestureRuns.Run` | app/src/main/java/com/example/administrator/myapplication/RefreshableView.java:154-222 | a run gives one consumed flag per input and never changes the hidden offset, the slop, `loadOnce` or the listener |
| `GestureRuns.InitialConsistent` | app/src/main/java/com/example/administrator/myapplication/RefreshableView.java:94-99 | a new widget, laid out or not, satisfies the invariant `Consistent` |
| `GestureRuns.StepKeepsConsistent` | app/src/main/java/com/example/administrator/myapplication/RefreshableView.java:188-213 | every touch, `finishRefresh` and scroll end keeps `Consistent`: PULL/RELEASE equal `lastStatus`, `lastStatus` is never REFRESHING, REFRESHING shows the progress bar, a running scroll ends at 0 |
| `GestureRuns.RunKeepsConsistent` | app/src/main/java/com/example/administrator/myapplication/RefreshableView.java:203-213 | every state reachable from a consistent state satisfies `Consistent` |
| `GestureRuns.RefreshCallbacksMatchEntries` | app/src/main/java/com/example/administrator/myapplication/RefreshableView.java:194-199 | over any run, a registered listener is called exactly as many times as the status enters REFRESHING, and an absent listener never |
| `GestureRuns.AwayFromTopChangesNothing` | app/src/main/java/com/example/administrator/myapplication/RefreshableView.java:156-157 | touches on a list that is never at its top are all declined, and the whole run changes nothing but `ableToPull`, which ends false |
| `GestureRuns.DragRevealsAtMostFingerTravel` | app/src/main/java/com/example/administrator/myapplication/RefreshableView.java:177-186 | moves at the list top with a never-rising finger, from an offset not above 0, never raise the offset, and reveal at most the finger's travel since the last recorded Y |
| `GestureRuns.FinishRefreshIdempotent` | app/src/main/java/com/example/administrator/myapplication/RefreshableView.java:219-222 | calling `finishRefresh` twice ends in the same state as calling it once |
| `GestureRuns.FinishRefreshClosesHeader` | app/src/main/java/com/example/administrator/myapplication/RefreshableView.java:298-310 | after `finishRefresh`, once the scroll ends the offset is 0 and the status FINISHED, whatever the offset was |
| `GestureRuns.ReleaseInPullClosesHeaderKeepsPull` | app/src/main/java/com/example/administrator/myapplication/RefreshableView.java:190-193 | a release in PULL closes the header to offset 0 but the status stays PULL, so the next touch-down is consumed |
| `GestureRuns.PullStatusLagsOneMove` | app/src/main/java/com/example/administrator/myapplication/RefreshableView.java:179-184 | down 500, move 520, move 620 with header 100 and slop 10 ends at offset -120 in PULL, and a release there starts no refresh; one more move gives RELEASE, and a release then refreshes once |
| `GestureRuns.RefreshedReachable` | app/src/main/java/com/example/administrator/myapplication/RefreshableView.java:177-199 | with header 100 and slop 10, down 500, moves 520, 640 and 650 and a release reach REFRESHING at offset -150 with one callback, the progress bar shown and RELEASE last shown |
| `GestureRuns.ProgressShownWhileRelease` | app/src/main/java/com/example/administrator/myapplication/RefreshableView.java:228 | from that refresh, `finishRefresh`, then a new gesture (down 660, move 680) before the scroll ends, reaches RELEASE while the header still shows the progress bar |
| `GestureRuns.SecondRefreshWhileRefreshing` | app/src/main/java/com/example/administrator/myapplication/RefreshableView.java:177-198 | from that refresh, with no `finishRefresh`, down 700, move 720 and a release enter REFRESHING again and call the listener a second time; only the move is consumed |
| `Widget.RefreshableView.constructor` | app/src/main/java/com/example/administrator/myapplication/RefreshableView.java:127-139 | the fields start as `Gesture.Initial` with the given slop and header |
| `Widget.RefreshableView.OnLayout` | app/src/main/java/com/example/administrator/myapplication/RefreshableView.java:142-152 | the fields change as `Gesture.OnLayout` says |
| `Widget.RefreshableView.SetRefreshListener` | app/src/main/java/com/example/administrator/myapplication/RefreshableView.java:286-288 | only whether a listener is registered changes |
| `Widget.RefreshableView.IsAbleToPull` | app/src/main/java/com/example/administrator/myapplication/RefreshableView.java:267-283 | the fields change as `Gesture.IsAbleToPull` says |
| `Widget.RefreshableView.OnTouch` | app/src/main/java/com/example/administrator/myapplication/RefreshableView.java:154-216 | the new fields and the returned flag are those of `Gesture.OnTouch` |
| `Widget.RefreshableView.FinishRefresh` | app/src/main/java/com/example/administrator/myapplication/RefreshableView.java:219-222 | the fields change as `Gesture.FinishRefresh` says |
| `Widget.RefreshableView.UpdateHeaderView` | app/src/main/java/com/example/administrator/myapplication/RefreshableView.java:227-243 | the fields change as `Gesture.UpdateHeaderView` says |
| `Widget.RefreshableView.RotateArrow` | app/src/main/java/com/example/administrator/myapplication/RefreshableView.java:248-264 | only the arrow's rotation changes, to `Gesture.ArrowRotation` of the status |
| `Widget.RefreshableView.OnRefresh` | app/src/main/java/com/example/administrator/myapplication/RefreshableView.java:291-296 | the fields change as `Gesture.OnRefresh` says |
| `Widget.RefreshableView.SmoothScrollBy` | app/src/main/java/com/example/administrator/myapplication/RefreshableView.java:298-301 | the fields change as `Gesture.SmoothScrollBy` says |
| `Widget.RefreshableView.ComputeScroll` | app/src/main/java/com/example/administrator/myapplication/RefreshableView.java:303-310 | the fields change as `Gesture.ComputeScroll` says |

## Left out

- View inflation, `addView`, the header's top margin and finding the list
  as child 1 are Android layout plumbing. They are reduced to the header
  height passed to `OnLayout` and to a `ListTop` snapshot passed with each
  touch.
- `Log.e` calls are diagnostics only.
- `RotateAnimation` is a platform effect. Its pivots (floats), its 100 ms
  duration and `setFillAfter` are left out. Only the chosen integer degree
  pair is kept, as the header's last started rotation.
- Visibility is kept as two booleans in `Header`. The initial visibilities
  come from the layout resource, which is not part of this model, so they are
  constructor parameters.
- `setPressed` and `setFocusable`/`setFocusableInTouchMode` on the list are
  platform UI effects and are left out.
- The `Scroller` is left out: its interpolation over `SCROLL_TIME`, its
  intermediate frames, and the `invalidate`/`postInvalidate` render loop are
  time-based and platform-driven. A running scroll is a start offset and a
  distance. `ComputeScroll` is collapsed to the last frame, which lands on
  the final offset. In the source, every `computeScroll` frame overwrites
  the offset with the interpolated value. In the model, moves made while a
  scroll runs change the offset directly, and nothing overwrites it until
  the last frame. `GestureRuns.ProgressShownWhileRelease` and
  `GestureRuns.FinishRefreshClosesHeader` rest on this abstraction.
- The listener's own `onRefresh` body is foreign code. It is a counter
  increment.
- `touchSlop` comes from `ViewConfiguration` on the platform. Here it is a
  constructor parameter.
- Java `float` arithmetic is modelled with exact reals. Rounding, and the
  `(int)` cast's saturation and NaN cases, are not modelled.
- The `View` argument of `onTouch` is unused by the source and is not
  modelled.
- Runs in `GestureRuns` do not include `onLayout` or `setRefreshListener`.
  Both are set-up calls made before touches arrive.
- Widget.RefreshableView.IsAbleToPull and Widget.RefreshableView.OnTouch
  require `loadOnce`. Before `onLayout`, the list reference is still null and
  `isAbleToPull` would throw a `NullPointerException`. The model does not
  cover that exception. The source only attaches its touch listener in
  `onLayout`, so its own call path never reaches it.
- Java's 32-bit `int` for the scroll offset and the header height is
  modelled as an unbounded integer. Overflow is not modelled.
