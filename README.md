# SimpleSwipeRefreshLayout: the drag, offset and trigger state machine

`SimpleSwipeRefreshLayout` is a pull-to-refresh container. It has two children: a header
that holds the refresh indicator, and the content. The user can pull the indicator down in
two ways: by dragging on content that is at its top, or by over-scrolling a nested
scrolling child. Releasing starts a roll-back animation. If the indicator was pulled past
the trigger offset, the roll-back ends in the refreshing state, resting at the trigger offset,
and the trigger (refresh) listeners are called. Setting `isRefreshing` to false rolls the
indicator back to the top.

The model is in four modules:

- `Offsets` (offsets.dfy) holds the arithmetic as functions: configuration normalisation,
  the damped drag offset, the pull fraction, `coerceIn`, the values an animation captures,
  the layout's share of a nested pre-scroll, and the steal-the-gesture test.
- `Listeners` (listeners.dfy) holds the listener lists. A listener is an id, and each call
  it would receive is recorded in a log.
- `SimpleSwipeRefresh` (layout.dfy) holds the class `SimpleSwipeRefreshLayout`. It has
  the source's fields and one method per callback. Each method keeps the object invariant
  `Valid()`: the trigger offset is between 0 and the maximum offset, the offset is within
  `[0, maxOffSetTop]`, TRIGGERING implies `isRefreshing`, and every animation in flight
  captured values in range. Each method's `ensures` gives its new state in terms of the
  `Offsets` functions.
- `Gestures` (gestures.dfy) drives a freshly initialised layout through whole gestures and
  proves what the user sees at the end.

Animations are records. Starting one appends the values it captured to `pending`.
`AnimationEnd(i)` ends any one of them: it applies the animator's last frame (the children
are positioned at the end value) and then the end listener. Ending them in any order is
allowed, so no property depends on timing. Environment answers are method parameters:
whether the view is enabled, whether the content can scroll up, the touch coordinates, and
what the nested-scrolling parent consumed or how far it moved the layout. Float offsets are
reals. `toInt()` of a positive offset is its floor. A pull fraction divided by a zero
trigger offset is the float result `NegInfinity`.

The cycle is sometimes summarised as IDLE, then ROLLING, then TRIGGERING, then IDLE; the
model follows the code, where leaving
TRIGGERING goes through ROLLING: the setter `isRefreshing = false` enters ROLLING, and the
roll-back then ends in IDLE.

## Model

| member | source | states |
|---|---|---|
| `Offsets.NormalisedMax` | LottieSwipeRefreshLayout/src/main/java/com/nabilmh/lottieswiperefreshlayout/SimpleSwipeRefreshLayout.kt:90-94 | a configured maximum at or below the trigger offset becomes twice the trigger offset, a larger one is kept; so for a non-negative trigger the maximum is at least the trigger, and strictly above it when the trigger is positive |
| `Offsets.Clamp` | LottieSwipeRefreshLayout/src/main/java/com/nabilmh/lottieswiperefreshlayout/SimpleSwipeRefreshLayout.kt:262 | `coerceIn`: the result lies in `[lo, hi]`, equals the value inside the range and the nearer bound outside it |
| `Offsets.DampedOffset` | LottieSwipeRefreshLayout/src/main/java/com/nabilmh/lottieswiperefreshlayout/SimpleSwipeRefreshLayout.kt:227 | the touch offset has the sign of the finger's travel below the DOWN point, is zero only with no travel, and is strictly smaller in magnitude than the travel (factor 1 - 0.66 * 0.75) |
| `Offsets.PullFraction` | LottieSwipeRefreshLayout/src/main/java/com/nabilmh/lottieswiperefreshlayout/SimpleSwipeRefreshLayout.kt:261 | 0 at offset 0; 1 at or past the trigger offset; below a positive trigger offset, the offset's share of it (fraction times trigger gives back the offset, also for a negative offset), strictly inside (0, 1) for a positive offset; within [0, 1] for every non-negative offset and positive trigger; negative for a negative offset; negative infinity exactly for a negative offset with a zero trigger |
| `Offsets.PullFractionMonotone` | LottieSwipeRefreshLayout/src/main/java/com/nabilmh/lottieswiperefreshlayout/SimpleSwipeRefreshLayout.kt:261 | for a positive trigger, the reported fraction never decreases as the non-negative offset grows |
| `Offsets.RefreshTarget` | LottieSwipeRefreshLayout/src/main/java/com/nabilmh/lottieswiperefreshlayout/SimpleSwipeRefreshLayout.kt:243 | a refresh rises to the larger of the current offset and the trigger offset |
| `Offsets.RollBackCapture` | LottieSwipeRefreshLayout/src/main/java/com/nabilmh/lottieswiperefreshlayout/SimpleSwipeRefreshLayout.kt:271-272 | the roll-back starts at the current offset (`triggerOffset + rollBackOffset`), rests at either 0 or the trigger offset, and rests at the trigger offset exactly when the offset passed a non-zero trigger offset; `rollBackOffset` is non-negative for a non-negative offset |
| `Offsets.RollBackTriggersWhenPastTrigger` | LottieSwipeRefreshLayout/src/main/java/com/nabilmh/lottieswiperefreshlayout/SimpleSwipeRefreshLayout.kt:282 | a roll-back's end enters TRIGGERING exactly when `notify` is set, the state is still ROLLING, and the offset at its start passed a non-zero trigger offset |
| `Offsets.PreScrollShare` | LottieSwipeRefreshLayout/src/main/java/com/nabilmh/lottieswiperefreshlayout/SimpleSwipeRefreshLayout.kt:374-381 | with dy > 0 and the indicator out, the consumed distance lies in (0, dy], the offset stays non-negative and strictly decreases, and the indicator retracts by min(dy, offset); dy is consumed whole when it does not exceed the offset, otherwise the offset becomes 0 and `dy - trunc(offset)` is reported consumed, as written, although the indicator absorbed only `offset` of the scroll |
| `Offsets.ShouldStealTouch` | LottieSwipeRefreshLayout/src/main/java/com/nabilmh/lottieswiperefreshlayout/SimpleSwipeRefreshLayout.kt:185-190 | a MOVE is stolen exactly when the content cannot scroll up and the finger moved down by more than it moved sideways |
| `Listeners.ProgressCalls` | LottieSwipeRefreshLayout/src/main/java/com/nabilmh/lottieswiperefreshlayout/SimpleSwipeRefreshLayout.kt:264 | every progress listener is called once with the fraction, in registration order |
| `Listeners.RemoveFirst` | LottieSwipeRefreshLayout/src/main/java/com/nabilmh/lottieswiperefreshlayout/SimpleSwipeRefreshLayout.kt:323-325 | removing a listener drops its first registration and keeps the others in order; an unregistered listener leaves the list unchanged |
| `Listeners.RemoveFirstDropsOne` | LottieSwipeRefreshLayout/src/main/java/com/nabilmh/lottieswiperefreshlayout/SimpleSwipeRefreshLayout.kt:323-325 | removing a registered listener shortens the list by one and takes exactly one occurrence out of its multiset |
| `SimpleSwipeRefresh.SimpleSwipeRefreshLayout.constructor` | LottieSwipeRefreshLayout/src/main/java/com/nabilmh/lottieswiperefreshlayout/SimpleSwipeRefreshLayout.kt:86-98 | starts valid and IDLE, not refreshing, with `notify` set, the offset and fraction 0, no listeners, no animation in flight, and the normalised maximum |
| `SimpleSwipeRefresh.SimpleSwipeRefreshLayout.SetRefreshing` | LottieSwipeRefreshLayout/src/main/java/com/nabilmh/lottieswiperefreshlayout/SimpleSwipeRefreshLayout.kt:28-42 | an unchanged value changes nothing. Switching on starts a refresh towards `RefreshTarget`. Switching off clears `notify`, enters ROLLING and starts a roll-back from the current offset. The invariant is kept |
| `SimpleSwipeRefresh.SimpleSwipeRefreshLayout.OnInterceptTouchEvent` | LottieSwipeRefreshLayout/src/main/java/com/nabilmh/lottieswiperefreshlayout/SimpleSwipeRefreshLayout.kt:180-211 | a guarded event (disabled, refreshing, ROLLING, nested scroll, child can scroll up) returns false and changes nothing. DOWN records the point. MOVE steals exactly when `ShouldStealTouch` holds. A stolen gesture is only ever taken in IDLE and moving down |
| `SimpleSwipeRefresh.SimpleSwipeRefreshLayout.OnTouchEvent` | LottieSwipeRefreshLayout/src/main/java/com/nabilmh/lottieswiperefreshlayout/SimpleSwipeRefreshLayout.kt:213-240 | a guarded event returns false and changes nothing; otherwise the layout is IDLE and the event is handled; MOVE sets `notify` and moves the indicator to the clamped damped offset, reporting the unclamped fraction; UP and CANCEL enter ROLLING and start a roll-back from the current offset; other actions change nothing |
| `SimpleSwipeRefresh.SimpleSwipeRefreshLayout.StartRefreshing` | LottieSwipeRefreshLayout/src/main/java/com/nabilmh/lottieswiperefreshlayout/SimpleSwipeRefreshLayout.kt:242-258 | appends a refresh animation towards `RefreshTarget` of the current offset |
| `SimpleSwipeRefresh.SimpleSwipeRefreshLayout.Move` | LottieSwipeRefreshLayout/src/main/java/com/nabilmh/lottieswiperefreshlayout/SimpleSwipeRefreshLayout.kt:260-268 | from any offset, leaves it in `[0, maxOffSetTop]` (the clamp of the old offset), reports the fraction of the old offset to every progress listener and stores it, and positions the children at the new offset |
| `SimpleSwipeRefresh.SimpleSwipeRefreshLayout.StopRefreshing` | LottieSwipeRefreshLayout/src/main/java/com/nabilmh/lottieswiperefreshlayout/SimpleSwipeRefreshLayout.kt:270-272 | appends a roll-back carrying `RollBackCapture` of the current offset |
| `SimpleSwipeRefresh.SimpleSwipeRefreshLayout.AnimationEnd` | LottieSwipeRefreshLayout/src/main/java/com/nabilmh/lottieswiperefreshlayout/SimpleSwipeRefreshLayout.kt:251-291 | the ended animation leaves `pending`. A refresh sets the offset to its target. A roll-back positions the children at its resting offset. If `notify` is set, it captured a non-zero trigger offset and the state is ROLLING, the roll-back enters TRIGGERING, sets `isRefreshing`, rests at the trigger offset and calls every trigger listener once. Otherwise it enters IDLE at offset 0 and calls no listener |
| `SimpleSwipeRefresh.SimpleSwipeRefreshLayout.PositionChildren` | LottieSwipeRefreshLayout/src/main/java/com/nabilmh/lottieswiperefreshlayout/SimpleSwipeRefreshLayout.kt:297-304 | the header moves by the offset; the content moves with it only without `overlay` |
| `SimpleSwipeRefresh.SimpleSwipeRefreshLayout.NotifyProgress` | LottieSwipeRefreshLayout/src/main/java/com/nabilmh/lottieswiperefreshlayout/SimpleSwipeRefreshLayout.kt:264 | appends one call per progress listener, in order, with the given fraction |
| `SimpleSwipeRefresh.SimpleSwipeRefreshLayout.NotifyTrigger` | LottieSwipeRefreshLayout/src/main/java/com/nabilmh/lottieswiperefreshlayout/SimpleSwipeRefreshLayout.kt:286 | appends one call per trigger listener, in order |
| `SimpleSwipeRefresh.SimpleSwipeRefreshLayout.AddProgressListener` | LottieSwipeRefreshLayout/src/main/java/com/nabilmh/lottieswiperefreshlayout/SimpleSwipeRefreshLayout.kt:307-309 | appends the listener to the progress listeners |
| `SimpleSwipeRefresh.SimpleSwipeRefreshLayout.SetOnRefreshListener` | LottieSwipeRefreshLayout/src/main/java/com/nabilmh/lottieswiperefreshlayout/SimpleSwipeRefreshLayout.kt:315-317 | appends the listener to the trigger listeners |
| `SimpleSwipeRefresh.SimpleSwipeRefreshLayout.AddTriggerListener` | LottieSwipeRefreshLayout/src/main/java/com/nabilmh/lottieswiperefreshlayout/SimpleSwipeRefreshLayout.kt:319-321 | appends the listener to the trigger listeners |
| `SimpleSwipeRefresh.SimpleSwipeRefreshLayout.RemoveOnTriggerListener` | LottieSwipeRefreshLayout/src/main/java/com/nabilmh/lottieswiperefreshlayout/SimpleSwipeRefreshLayout.kt:323-325 | removes the first registration of the listener |
| `SimpleSwipeRefresh.SimpleSwipeRefreshLayout.OnStartNestedScroll` | LottieSwipeRefreshLayout/src/main/java/com/nabilmh/lottieswiperefreshlayout/SimpleSwipeRefreshLayout.kt:357-360 | accepts exactly a vertical nested scroll while enabled, not ROLLING and not refreshing, which happens only in IDLE |
| `SimpleSwipeRefresh.SimpleSwipeRefreshLayout.OnNestedScrollAccepted` | LottieSwipeRefreshLayout/src/main/java/com/nabilmh/lottieswiperefreshlayout/SimpleSwipeRefreshLayout.kt:362-369 | resets the offset to 0 and marks a nested scroll in progress |
| `SimpleSwipeRefresh.SimpleSwipeRefreshLayout.OnNestedPreScroll` | LottieSwipeRefreshLayout/src/main/java/com/nabilmh/lottieswiperefreshlayout/SimpleSwipeRefreshLayout.kt:371-391 | only for dy > 0 with the indicator out does the layout take `PreScrollShare` and move the indicator; otherwise nothing it owns changes; `consumed[0]` changes only by the parent's share, `consumed[1]` is the layout's share (or the caller's value) plus the parent's, and the parent is asked for exactly the remainder |
| `SimpleSwipeRefresh.SimpleSwipeRefreshLayout.OnStopNestedScroll` | LottieSwipeRefreshLayout/src/main/java/com/nabilmh/lottieswiperefreshlayout/SimpleSwipeRefreshLayout.kt:397-409 | ends the nested scroll. If the indicator is out, it sets `notify`, enters ROLLING, starts a roll-back captured from the offset before it is reset, and then resets the offset to 0. Otherwise nothing else changes |
| `SimpleSwipeRefresh.SimpleSwipeRefreshLayout.OnNestedScroll` | LottieSwipeRefreshLayout/src/main/java/com/nabilmh/lottieswiperefreshlayout/SimpleSwipeRefreshLayout.kt:411-429 | a leftover upward scroll (plus the window shift) on content at its top pulls the indicator down by its size, through `move`; otherwise nothing changes |
| `Gestures.PullToRefresh` | LottieSwipeRefreshLayout/src/main/java/com/nabilmh/lottieswiperefreshlayout/SimpleSwipeRefreshLayout.kt:180-295 | DOWN, MOVE and UP on content at its top, then the roll-back's end: the layout refreshes and the refresh listener is called once exactly when the damped drag exceeded a non-zero trigger offset; after `isRefreshing = false` and that roll-back's end, the layout is IDLE at offset 0 and no further listener call was made |
| `Gestures.NestedOverscroll` | LottieSwipeRefreshLayout/src/main/java/com/nabilmh/lottieswiperefreshlayout/SimpleSwipeRefreshLayout.kt:357-429 | an overscroll of d pixels by a nested child, then stop and the roll-back's end: a refresh (one listener call, resting at the trigger offset) exactly when 0 < trigger < d, otherwise IDLE at 0 |

## Left out

- Measurement and layout are left out: `onFinishInflate`'s check for exactly two children, `onMeasure`, `onLayout`, `layoutTopView`, `layoutContentView` and the layout-params overrides. `headerShift` and `contentShift` give the children's shift from their laid-out positions, not absolute `view.y` values. `bringToFront` is a drawing-order call.
- `ValueAnimator` timing, the decelerate interpolator and intermediate frames are left out; only the captured values, the last frame and the end listener are modelled. An animation cancelled before its last frame is not modelled.
- The nested-scrolling child helper (`startNestedScroll`, `stopNestedScroll`, `dispatchNestedPreScroll`, `dispatchNestedScroll`, the fling methods, `isNestedScrollingEnabled`, `getNestedScrollAxes`) and the parent helper are foreign calls. Their answers are parameters: `parentConsumes`, `parentDx`, `parentDy`, `windowShiftY`.
- `canChildScrollUp` and `canScrollVertically` query the platform view; they are boolean parameters.
- `parent.requestDisallowInterceptTouchEvent(true)` is a platform call with no effect on the layout's own state.
- The attribute defaults (64 dp converted with the display density) are not modelled; the constructor takes resolved pixel values.
- SimpleSwipeRefresh.SimpleSwipeRefreshLayout.constructor: requires a non-negative trigger offset, so the whole negative range is excluded. With a negative trigger offset and a configured maximum at or below it, the normalised maximum is negative and `coerceIn` in `move` throws; the model does not carry that exception. With a negative trigger offset and a larger maximum, the source runs without throwing and every roll-back captures that negative trigger offset, so any release reaching `onTouchEvent` triggers a refresh; the model does not cover that configuration either.
- SimpleSwipeRefresh.SimpleSwipeRefreshLayout.OnNestedScroll: takes only `dyUnconsumed`; the consumed amounts and `dxUnconsumed` are only forwarded to the parent.
- Float rounding and 32-bit overflow are not modelled (`trigger * 2`, `dy - consumed[1]`, `Math.abs(Int.MIN_VALUE)`). Offsets are reals and pixel counts are unbounded integers.
- Listeners are recorded, not run. A listener that re-enters the layout, or that changes a listener list during `forEach`, is not modelled. Kotlin lambdas are told apart by identity, modelled as ids.
- LottieSwipeRefreshLayout.kt is not part of this model. It builds the Lottie indicator view and resumes or pauses its animation around `startRefreshing` and `stopRefreshing`.
- LottieRefreshIndicator.kt (a Compose composable) and the demo MainActivity.kt are not part of this model.
