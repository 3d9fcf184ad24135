/** The drag, offset and trigger state machine of `SimpleSwipeRefreshLayout`, a
    pull-to-refresh container with a header (the indicator) and a content view.

    Touch events and nested-scroll callbacks move the indicator; releasing it starts a
    roll-back animation, and a roll-back that ends past the trigger offset enters the
    refreshing state and calls the trigger listeners. Animations are not run: starting
    one appends the values it captured to `pending`, and `AnimationEnd` applies its last
    frame and its end-of-animation effects. What the platform answers (whether the view is
    enabled, whether the content can scroll up, what a nested-scrolling parent consumed)
    arrives as method parameters. */
module SimpleSwipeRefresh {
  import opened Offsets
  import opened Listeners

  /** The layout's drag state. */
  datatype State = Idle | Rolling | Triggering

  /** The `MotionEvent` actions the handlers distinguish; any other action is `ActionOther`. */
  datatype MotionAction = ActionDown | ActionMove | ActionUp | ActionCancel | ActionOther

  /** `ViewCompat.SCROLL_AXIS_VERTICAL`. */
  const ScrollAxisVertical: bv32 := 2

  class SimpleSwipeRefreshLayout {
    /** Configuration, fixed at initialisation (pixels). */
    const triggerOffSetTop: int
    const maxOffSetTop: int
    const overlay: bool

    /** Whether the next roll-back may trigger a refresh. */
    var notify: bool
    var isRefreshing: bool
    /** Where the last DOWN seen by `onInterceptTouchEvent` happened. */
    var downX: real
    var downY: real
    /** How far the indicator is pulled down. */
    var offsetY: real
    var lastPullFraction: Fraction
    var currentState: State
    var nestedScrollInProgress: bool

    var progressListeners: seq<ListenerId>
    var triggerListeners: seq<ListenerId>
    /** Every call made to a progress listener, and to a trigger listener, in order. */
    var progressLog: seq<ProgressCall<Fraction>>
    var triggerLog: seq<ListenerId>

    /** The animations started and not yet ended. */
    var pending: seq<Animation>

    /** How far `positionChildren` last moved the header and the content view from
        their laid-out positions. */
    var headerShift: real
    var contentShift: real

    /** The invariant every callback keeps, except for the offset bound. */
    ghost predicate Consistent()
      reads this
    {
      && 0 <= triggerOffSetTop <= maxOffSetTop
      && (currentState == Triggering ==> isRefreshing)
      && forall a :: a in pending ==> a.Within(triggerOffSetTop, maxOffSetTop)
    }

    /** The object invariant: between callbacks the indicator stays within its range. */
    ghost predicate Valid()
      reads this
    {
      Consistent() && 0.0 <= offsetY <= maxOffSetTop as real
    }

    /** The guard both touch handlers start with. */
    predicate IgnoresTouch(enabled: bool, childCanScrollUp: bool)
      reads this
    {
      !enabled || isRefreshing || currentState == Rolling || nestedScrollInProgress || childCanScrollUp
    }

    /** The effects of `move()` on an offset that was `raw` before it was clamped. */
    twostate predicate Moved(raw: real)
      reads this
    {
      && 0 <= maxOffSetTop
      && offsetY == Clamp(raw, 0.0, maxOffSetTop as real)
      && lastPullFraction == PullFraction(raw, triggerOffSetTop)
      && progressLog == old(progressLog) + ProgressCalls(progressListeners, lastPullFraction)
      && headerShift == offsetY
      && contentShift == (if overlay then old(contentShift) else offsetY)
    }

    /** Nothing that `move()` changes has changed. */
    twostate predicate Unmoved()
      reads this
    {
      && offsetY == old(offsetY)
      && lastPullFraction == old(lastPullFraction)
      && progressLog == old(progressLog)
      && headerShift == old(headerShift)
      && contentShift == old(contentShift)
    }

    /** Initialisation from the view's attributes (their defaults already resolved):
        a maximum offset not above the trigger offset is replaced by twice the trigger. */
    constructor (trigger: int, configuredMax: int, overlayAttr: bool)
      requires 0 <= trigger
      ensures Valid()
      ensures triggerOffSetTop == trigger && overlay == overlayAttr
      ensures maxOffSetTop == NormalisedMax(trigger, configuredMax)
      ensures notify && !isRefreshing && currentState == Idle && !nestedScrollInProgress
      ensures offsetY == 0.0 && downX == 0.0 && downY == 0.0 && lastPullFraction == Finite(0.0)
      ensures progressListeners == [] && triggerListeners == []
      ensures progressLog == [] && triggerLog == []
      ensures pending == [] && headerShift == 0.0 && contentShift == 0.0
    {
      triggerOffSetTop := trigger;
      maxOffSetTop := NormalisedMax(trigger, configuredMax);
      overlay := overlayAttr;
      notify := true;
      isRefreshing := false;
      downX, downY := 0.0, 0.0;
      offsetY := 0.0;
      lastPullFraction := Finite(0.0);
      currentState := Idle;
      nestedScrollInProgress := false;
      progressListeners, triggerListeners := [], [];
      progressLog, triggerLog := [], [];
      pending := [];
      headerShift, contentShift := 0.0, 0.0;
    }

    /** The `isRefreshing` setter. */
    method SetRefreshing(refreshing: bool)
      requires Valid()
      modifies this`isRefreshing, this`notify, this`currentState, this`pending
      ensures Valid()
      ensures refreshing == old(isRefreshing) ==> unchanged(this)
      ensures refreshing != old(isRefreshing) ==> isRefreshing == refreshing
      ensures refreshing && !old(isRefreshing) ==>
                && notify == old(notify) && currentState == old(currentState)
                && pending == old(pending) + [Refresh(RefreshTarget(offsetY, triggerOffSetTop))]
      ensures !refreshing && old(isRefreshing) ==>
                && !notify && currentState == Rolling
                && pending == old(pending) + [RollBackCapture(offsetY, triggerOffSetTop)]
    {
      if isRefreshing != refreshing {
        isRefreshing := refreshing;
        if refreshing {
          // a layout that is not refreshing is never TRIGGERING, so this always starts
          if currentState != Triggering {
            StartRefreshing();
          }
        } else {
          notify := false;
          currentState := Rolling;
          StopRefreshing();
        }
      }
    }

    method OnInterceptTouchEvent(action: MotionAction, x: real, y: real, enabled: bool,
                                 childCanScrollUp: bool, contentCanScrollUp: bool)
      returns (steal: bool)
      requires Valid()
      modifies this`downX, this`downY
      ensures Valid()
      ensures old(IgnoresTouch(enabled, childCanScrollUp)) ==> !steal && unchanged(this)
      ensures !old(IgnoresTouch(enabled, childCanScrollUp)) ==>
                && (action == ActionDown ==> downX == x && downY == y)
                && (action != ActionDown ==> downX == old(downX) && downY == old(downY))
                && (steal <==> action == ActionMove && ShouldStealTouch(contentCanScrollUp, downX, downY, x, y))
      ensures steal ==> currentState == Idle && y > downY
    {
      if IgnoresTouch(enabled, childCanScrollUp) {
        return false;
      }
      // the source's `if (currentState != State.IDLE)` only sets the flag to its initial false
      steal := false;
      match action {
        case ActionDown =>
          downX, downY := x, y;
        case ActionMove =>
          steal := ShouldStealTouch(contentCanScrollUp, downX, downY, x, y);
        case _ =>
      }
    }

    method OnTouchEvent(action: MotionAction, y: real, enabled: bool, childCanScrollUp: bool)
      returns (handled: bool)
      requires Valid()
      modifies this`offsetY, this`notify, this`lastPullFraction, this`progressLog,
               this`headerShift, this`contentShift, this`currentState, this`pending
      ensures Valid()
      ensures old(IgnoresTouch(enabled, childCanScrollUp)) ==> !handled && unchanged(this)
      ensures !old(IgnoresTouch(enabled, childCanScrollUp)) ==> handled && old(currentState) == Idle
      ensures !old(IgnoresTouch(enabled, childCanScrollUp)) && action == ActionMove ==>
                && Moved(DampedOffset(downY, y))
                && notify && currentState == Idle && pending == old(pending)
      ensures !old(IgnoresTouch(enabled, childCanScrollUp)) && (action == ActionUp || action == ActionCancel) ==>
                && Unmoved() && notify == old(notify) && currentState == Rolling
                && pending == old(pending) + [RollBackCapture(offsetY, triggerOffSetTop)]
      ensures action == ActionDown || action == ActionOther ==> unchanged(this)
    {
      if IgnoresTouch(enabled, childCanScrollUp) {
        return false;
      }
      handled := true;
      if currentState != Idle {
        handled := false;
      }
      // parent.requestDisallowInterceptTouchEvent(true) is a platform call
      match action {
        case ActionMove =>
          offsetY := DampedOffset(downY, y);
          notify := true;
          Move();
        case ActionUp =>
          currentState := Rolling;
          StopRefreshing();
        case ActionCancel =>
          currentState := Rolling;
          StopRefreshing();
        case _ =>
      }
    }

    method StartRefreshing()
      requires Valid()
      modifies this`pending
      ensures Valid()
      ensures pending == old(pending) + [Refresh(RefreshTarget(offsetY, triggerOffSetTop))]
    {
      pending := pending + [Refresh(RefreshTarget(offsetY, triggerOffSetTop))];
    }

    /** `move()`: report the pull fraction, clamp the offset and position the children. */
    method Move()
      requires Consistent()
      modifies this`offsetY, this`lastPullFraction, this`progressLog, this`headerShift, this`contentShift
      ensures Valid()
      ensures Moved(old(offsetY))
    {
      var pullFraction := PullFraction(offsetY, triggerOffSetTop);
      offsetY := Clamp(offsetY, 0.0, maxOffSetTop as real);
      NotifyProgress(pullFraction);
      lastPullFraction := pullFraction;
      PositionChildren(offsetY);
    }

    method StopRefreshing()
      requires Valid()
      modifies this`pending
      ensures Valid()
      ensures pending == old(pending) + [RollBackCapture(offsetY, triggerOffSetTop)]
    {
      pending := pending + [RollBackCapture(offsetY, triggerOffSetTop)];
    }

    /** The end of the `i`-th animation in flight: its last frame positions the children
        at its end value, then its end listener runs. */
    method AnimationEnd(i: nat)
      requires Valid() && i < |pending|
      modifies this`currentState, this`isRefreshing, this`offsetY, this`triggerLog,
               this`pending, this`headerShift, this`contentShift
      ensures Valid()
      ensures pending == old(pending[..i] + pending[i + 1..])
      ensures old(pending[i]).Refresh? ==>
                var target := old(pending[i]).target;
                && offsetY == target && headerShift == target
                && contentShift == (if overlay then old(contentShift) else target)
                && currentState == old(currentState) && isRefreshing == old(isRefreshing)
                && triggerLog == old(triggerLog)
      ensures old(pending[i]).RollBack? ==>
                var a := old(pending[i]);
                var rest := a.triggerOffset as real;
                && headerShift == rest
                && contentShift == (if overlay then old(contentShift) else rest)
                && if RollBackTriggers(notify, old(currentState) == Rolling, a) then
                     && currentState == Triggering && isRefreshing && offsetY == rest
                     && triggerLog == old(triggerLog) + triggerListeners
                   else
                     && currentState == Idle && offsetY == 0.0
                     && isRefreshing == old(isRefreshing) && triggerLog == old(triggerLog)
    {
      var a := pending[i];
      assert a.Within(triggerOffSetTop, maxOffSetTop) by {
        assert a in pending;
      }
      pending := pending[..i] + pending[i + 1..];
      match a {
        case Refresh(triggerOffset) =>
          PositionChildren(triggerOffset);
          offsetY := triggerOffset;
        case RollBack(rollBackOffset, triggerOffset) =>
          PositionChildren(triggerOffset as real);
          if notify && triggerOffset != 0 && currentState == Rolling {
            currentState := Triggering;
            // the setter, entered in TRIGGERING, only stores the new value
            isRefreshing := true;
            offsetY := triggerOffset as real;
            NotifyTrigger();
          } else {
            currentState := Idle;
            offsetY := 0.0;
          }
      }
    }

    method PositionChildren(offset: real)
      modifies this`headerShift, this`contentShift
      ensures headerShift == offset
      ensures contentShift == if overlay then old(contentShift) else offset
    {
      headerShift := offset;
      if !overlay {
        contentShift := offset;
      }
    }

    /** `onProgressListeners.forEach { it(pullFraction) }`. */
    method NotifyProgress(fraction: Fraction)
      modifies this`progressLog
      ensures progressLog == old(progressLog) + ProgressCalls(progressListeners, fraction)
    {
      for i := 0 to |progressListeners|
        invariant progressLog == old(progressLog) + ProgressCalls(progressListeners[..i], fraction)
      {
        progressLog := progressLog + [ProgressCall(progressListeners[i], fraction)];
        assert ProgressCalls(progressListeners[..i + 1], fraction)
            == ProgressCalls(progressListeners[..i], fraction) + [ProgressCall(progressListeners[i], fraction)];
      }
      assert progressListeners[..|progressListeners|] == progressListeners;
    }

    /** `onTriggerListeners.forEach { it() }`. */
    method NotifyTrigger()
      modifies this`triggerLog
      ensures triggerLog == old(triggerLog) + triggerListeners
    {
      for i := 0 to |triggerListeners|
        invariant triggerLog == old(triggerLog) + triggerListeners[..i]
      {
        triggerLog := triggerLog + [triggerListeners[i]];
        assert triggerListeners[..i + 1] == triggerListeners[..i] + [triggerListeners[i]];
      }
      assert triggerListeners[..|triggerListeners|] == triggerListeners;
    }

    method AddProgressListener(listener: ListenerId)
      requires Valid()
      modifies this`progressListeners
      ensures Valid()
      ensures progressListeners == old(progressListeners) + [listener]
    {
      progressListeners := progressListeners + [listener];
    }

    method SetOnRefreshListener(listener: ListenerId)
      requires Valid()
      modifies this`triggerListeners
      ensures Valid()
      ensures triggerListeners == old(triggerListeners) + [listener]
    {
      AddTriggerListener(listener);
    }

    method AddTriggerListener(listener: ListenerId)
      requires Valid()
      modifies this`triggerListeners
      ensures Valid()
      ensures triggerListeners == old(triggerListeners) + [listener]
    {
      triggerListeners := triggerListeners + [listener];
    }

    method RemoveOnTriggerListener(listener: ListenerId)
      requires Valid()
      modifies this`triggerListeners
      ensures Valid()
      ensures triggerListeners == RemoveFirst(old(triggerListeners), listener)
    {
      triggerListeners := RemoveFirst(triggerListeners, listener);
    }

    /** Whether the layout takes part in a nested scroll a descendant starts. */
    method OnStartNestedScroll(enabled: bool, nestedScrollAxes: bv32) returns (start: bool)
      requires Valid()
      ensures start <==> enabled && currentState != Rolling && !isRefreshing
                         && nestedScrollAxes & ScrollAxisVertical != 0
      ensures start ==> currentState == Idle
    {
      start := enabled && currentState != Rolling && !isRefreshing
               && nestedScrollAxes & ScrollAxisVertical != 0;
    }

    method OnNestedScrollAccepted()
      requires Valid()
      modifies this`offsetY, this`nestedScrollInProgress
      ensures Valid()
      ensures offsetY == 0.0 && nestedScrollInProgress
    {
      offsetY := 0.0;
      nestedScrollInProgress := true;
    }

    /** Before the scrolling child scrolls by `dy`, the layout retracts the indicator.
        `consumed` is the caller's two-element array; the nested-scrolling parent is then
        asked to consume the rest, (`askedDx`, `askedDy`), and its answer arrives as
        `parentConsumes` with the amounts it consumed. */
    method OnNestedPreScroll(dx: int, dy: int, consumed: array<int>,
                             parentConsumes: bool, parentDx: int, parentDy: int)
      returns (askedDx: int, askedDy: int)
      requires Valid() && consumed.Length == 2
      modifies this`offsetY, this`lastPullFraction, this`progressLog, this`headerShift,
               this`contentShift, consumed
      ensures Valid()
      ensures dy > 0 && old(offsetY) > 0.0 ==>
                var s := PreScrollShare(dy, old(offsetY));
                && Moved(s.offset) && offsetY == s.offset
                && askedDy == dy - s.consumedY
                && consumed[1] == s.consumedY + (if parentConsumes then parentDy else 0)
      ensures !(dy > 0 && old(offsetY) > 0.0) ==>
                && Unmoved()
                && askedDy == dy - old(consumed[1])
                && consumed[1] == old(consumed[1]) + (if parentConsumes then parentDy else 0)
      ensures askedDx == dx - old(consumed[0])
      ensures consumed[0] == old(consumed[0]) + (if parentConsumes then parentDx else 0)
    {
      if dy > 0 && offsetY > 0.0 {
        if dy as real > offsetY {
          consumed[1] := dy - offsetY.Floor;
          offsetY := 0.0;
        } else {
          offsetY := offsetY - dy as real;
          consumed[1] := dy;
        }
        Move();
      }
      askedDx, askedDy := dx - consumed[0], dy - consumed[1];
      if parentConsumes {
        consumed[0] := consumed[0] + parentDx;
        consumed[1] := consumed[1] + parentDy;
      }
    }

    method OnStopNestedScroll()
      requires Valid()
      modifies this`nestedScrollInProgress, this`notify, this`currentState, this`pending, this`offsetY
      ensures Valid()
      ensures !nestedScrollInProgress
      ensures old(offsetY) > 0.0 ==>
                && notify && currentState == Rolling && offsetY == 0.0
                && pending == old(pending) + [RollBackCapture(old(offsetY), triggerOffSetTop)]
      ensures old(offsetY) <= 0.0 ==>
                && notify == old(notify) && currentState == old(currentState)
                && pending == old(pending) && offsetY == old(offsetY)
    {
      nestedScrollInProgress := false;
      if offsetY > 0.0 {
        notify := true;
        currentState := Rolling;
        StopRefreshing();
        offsetY := 0.0;
      }
    }

    /** After the scrolling child scrolled: a scroll left over upwards (`dyUnconsumed`
        plus how far the nested-scrolling parent moved the layout, `windowShiftY`)
        pulls the indicator down when the content is at its top. */
    method OnNestedScroll(dyUnconsumed: int, windowShiftY: int, childCanScrollUp: bool)
      requires Valid()
      modifies this`offsetY, this`lastPullFraction, this`progressLog, this`headerShift, this`contentShift
      ensures Valid()
      ensures var dy := dyUnconsumed + windowShiftY;
              if dy < 0 && !childCanScrollUp then Moved(old(offsetY) - dy as real) else Unmoved()
    {
      var dy := dyUnconsumed + windowShiftY;
      if dy < 0 && !childCanScrollUp {
        offsetY := offsetY + (-dy) as real;
        Move();
      }
    }
  }
}
