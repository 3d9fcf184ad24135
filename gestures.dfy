/** Whole gestures, driven through the layout's callbacks in the order the platform
    delivers them, on a freshly initialised layout with one refresh listener. */
module Gestures {
  import opened Offsets
  import opened Listeners
  import opened SimpleSwipeRefresh

  /** A finger goes down at (downX, downY) on content at its top, drags to `releaseY`
      and lifts; the roll-back runs to its end. The pull triggers a refresh, calling the
      refresh listener once, exactly when the damped drag passed a non-zero trigger offset.
      When the application then sets `isRefreshing` to false, the indicator rolls back to
      the top and comes to rest without calling the listener again: `firedInAll`, every
      listener call of the whole gesture, is `fired`. */
  method PullToRefresh(trigger: int, configuredMax: int, overlay: bool, listener: ListenerId,
                       downX: real, downY: real, releaseY: real)
    returns (refreshed: bool, fired: seq<ListenerId>, settledIdle: bool, settledOffset: real,
             firedInAll: seq<ListenerId>)
    requires 0 <= trigger
    ensures refreshed <==> 0 < trigger && DampedOffset(downY, releaseY) > trigger as real
    ensures fired == if refreshed then [listener] else []
    ensures settledIdle && settledOffset == 0.0
    ensures firedInAll == fired
  {
    var layout := new SimpleSwipeRefreshLayout(trigger, configuredMax, overlay);
    layout.SetOnRefreshListener(listener);
    var stolen := layout.OnInterceptTouchEvent(ActionDown, downX, downY, true, false, false);
    var handled := layout.OnTouchEvent(ActionMove, releaseY, true, false);
    handled := layout.OnTouchEvent(ActionUp, releaseY, true, false);
    layout.AnimationEnd(0);
    refreshed, fired := layout.isRefreshing, layout.triggerLog;
    if refreshed {
      layout.SetRefreshing(false);
      layout.AnimationEnd(0);
    }
    settledIdle, settledOffset := layout.currentState == Idle, layout.offsetY;
    firedInAll := layout.triggerLog;
  }

  /** A scrolling child at its top reports `overscroll` pixels it could not scroll
      upwards, then the nested scroll stops and the roll-back runs to its end. The
      overscroll moves the indicator undamped, so a refresh is triggered exactly when it
      exceeds a non-zero trigger offset, and the indicator then rests at that offset. */
  method NestedOverscroll(trigger: int, configuredMax: int, overlay: bool, listener: ListenerId,
                          overscroll: nat)
    returns (refreshed: bool, fired: seq<ListenerId>, restingOffset: real)
    requires 0 <= trigger
    ensures refreshed <==> 0 < trigger < overscroll
    ensures fired == if refreshed then [listener] else []
    ensures restingOffset == if refreshed then trigger as real else 0.0
  {
    var layout := new SimpleSwipeRefreshLayout(trigger, configuredMax, overlay);
    layout.SetOnRefreshListener(listener);
    var start := layout.OnStartNestedScroll(true, ScrollAxisVertical);
    layout.OnNestedScrollAccepted();
    layout.OnNestedScroll(-(overscroll as int), 0, false);
    layout.OnStopNestedScroll();
    if layout.pending != [] {
      layout.AnimationEnd(0);
    }
    refreshed, fired, restingOffset := layout.isRefreshing, layout.triggerLog, layout.offsetY;
  }
}
