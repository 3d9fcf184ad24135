/** The arithmetic of the swipe-to-refresh container: configuration normalisation,
    the damped drag offset, the pull fraction reported to progress listeners, the
    clamp applied to the offset, and the values an animation captures when it starts.
    Offsets are pixels; the source keeps them in 32-bit floats, modelled here as reals. */
module Offsets {

  /** Drag damping factors of the source (STICKY_FACTOR and STICKY_MULTIPLIER). */
  const StickyFactor: real := 0.66
  const StickyMultiplier: real := 0.75
  /** How far the indicator moves per pixel the finger moves: 1 - 0.66 * 0.75 = 0.505. */
  const Damping: real := 1.0 - StickyFactor * StickyMultiplier

  /** The fraction reported to progress listeners. A float division by a zero trigger
      offset yields negative infinity, the one value that is not a real number. */
  datatype Fraction = Finite(value: real) | NegInfinity

  /** An animation in flight, with the values it captured when it started. A roll-back
      animates the indicator from `triggerOffset + rollBackOffset` down to `triggerOffset`;
      a refresh animates it from 0 up to `target`. */
  datatype Animation =
    | RollBack(rollBackOffset: real, triggerOffset: int)
    | Refresh(target: real)
  {
    /** What every animation started by the layout satisfies, given its configuration. */
    predicate Within(trigger: int, max: int) {
      match this
      case RollBack(rollBack, t) => 0.0 <= rollBack && (t == 0 || t == trigger)
      case Refresh(target) => trigger as real <= target <= max as real
    }
  }

  /** What the layout's own part of a nested pre-scroll leaves behind: the vertical
      distance it reports as consumed and the indicator offset that remains. */
  datatype Share = Share(consumedY: int, offset: real)

  function Abs(x: real): real { if x < 0.0 then -x else x }

  function Min(a: real, b: real): real { if a <= b then a else b }

  /** Initialisation: a configured maximum offset that does not exceed the trigger offset
      is replaced by twice the trigger offset. */
  function NormalisedMax(trigger: int, configuredMax: int): (max: int)
    ensures trigger < configuredMax ==> max == configuredMax
    ensures configuredMax <= trigger ==> max == 2 * trigger
    ensures 0 <= trigger ==> trigger <= max
    ensures 0 < trigger ==> trigger < max
  {
    if configuredMax <= trigger then trigger * 2 else configuredMax
  }

  /** Kotlin's `coerceIn(lo, hi)`; it throws unless lo <= hi. */
  function Clamp(v: real, lo: real, hi: real): (r: real)
    requires lo <= hi
    ensures lo <= r <= hi
    ensures lo <= v <= hi ==> r == v
    ensures v < lo ==> r == lo
    ensures hi < v ==> r == hi
  {
    if v < lo then lo else if hi < v then hi else v
  }

  /** The offset a touch MOVE sets: the distance the finger travelled below the point
      where it went down, damped. */
  function DampedOffset(downY: real, y: real): (offset: real)
    ensures offset > 0.0 <==> y > downY
    ensures offset == 0.0 <==> y == downY
    ensures y > downY ==> offset < y - downY
    ensures y < downY ==> y - downY < offset
  {
    assert Damping == 0.505;
    (y - downY) * Damping
  }

  /** The pull fraction reported by `move`, computed from the offset before it is clamped:
      zero at rest, the offset as a share of the trigger offset below it, one from it on. */
  function PullFraction(offset: real, trigger: int): (f: Fraction)
    ensures offset == 0.0 ==> f == Finite(0.0)
    ensures offset != 0.0 && trigger as real <= offset ==> f == Finite(1.0)
    ensures 0.0 < offset < trigger as real ==> f.Finite? && 0.0 < f.value < 1.0
    ensures offset != 0.0 && offset < trigger as real && 0 < trigger ==>
              f.Finite? && f.value * trigger as real == offset
    ensures 0.0 <= offset && 0 < trigger ==> f.Finite? && 0.0 <= f.value <= 1.0
    ensures offset < 0.0 && 0 < trigger ==> f.Finite? && f.value < 0.0
    ensures f == NegInfinity <==> offset < 0.0 && trigger == 0
  {
    if offset == 0.0 then Finite(0.0)
    else if trigger as real > offset then
      if trigger == 0 then NegInfinity
      else
        if 0 < trigger then ShareBounds(offset, trigger as real); Finite(offset / trigger as real)
        else Finite(offset / trigger as real)
    else Finite(1.0)
  }

  /** A share of a positive whole: it scales back to the part, keeps the part's sign,
      and stays below one for a part below the whole. */
  lemma ShareBounds(part: real, whole: real)
    requires 0.0 < whole
    ensures part / whole * whole == part
    ensures part < 0.0 ==> part / whole < 0.0
    ensures 0.0 < part ==> 0.0 < part / whole
    ensures part < whole ==> part / whole < 1.0
  {
    var q := part / whole;
    assert q * whole == part;
  }

  /** The progress reported grows as the indicator is pulled further. */
  lemma PullFractionMonotone(a: real, b: real, trigger: int)
    requires 0.0 <= a <= b && 0 < trigger
    ensures PullFraction(a, trigger).value <= PullFraction(b, trigger).value
  {
    var t := trigger as real;
    if 0.0 < a && b < t {
      ShareBounds(a, t);
      ShareBounds(b, t);
      ShareBounds(b - a, t);
      assert (b - a) / t == b / t - a / t;
    }
  }

  /** The offset a refresh animation rises to: the current offset, if the indicator is
      already past the trigger offset, else the trigger offset. */
  function RefreshTarget(offset: real, trigger: int): (target: real)
    ensures offset <= target && trigger as real <= target
    ensures target == offset || target == trigger as real
  {
    if offset > trigger as real then offset else trigger as real
  }

  /** The values `stopRefreshing` captures. The animation starts where the indicator is
      and comes to rest at the trigger offset exactly when the indicator was pulled
      past a non-zero trigger offset, otherwise at the top. */
  function RollBackCapture(offset: real, trigger: int): (a: Animation)
    ensures a.RollBack?
    ensures a.triggerOffset as real + a.rollBackOffset == offset
    ensures a.triggerOffset != 0 <==> trigger != 0 && offset > trigger as real
    ensures a.triggerOffset == 0 || a.triggerOffset == trigger
    ensures 0.0 <= offset ==> 0.0 <= a.rollBackOffset
  {
    var rollBackOffset := if offset > trigger as real then offset - trigger as real else offset;
    var triggerOffset := if rollBackOffset != offset then trigger else 0;
    RollBack(rollBackOffset, triggerOffset)
  }

  /** Whether a finished roll-back enters the refreshing state: the gesture asked for it,
      it captured a trigger offset, and nothing moved the layout out of ROLLING meanwhile. */
  predicate RollBackTriggers(notify: bool, rolling: bool, a: Animation)
    requires a.RollBack?
  {
    notify && a.triggerOffset != 0 && rolling
  }

  /** A roll-back started from `offset` triggers a refresh exactly when the indicator was
      pulled past a non-zero trigger offset (and the flag and state allow it at its end). */
  lemma RollBackTriggersWhenPastTrigger(notify: bool, rolling: bool, offset: real, trigger: int)
    ensures RollBackTriggers(notify, rolling, RollBackCapture(offset, trigger))
            <==> notify && rolling && trigger != 0 && offset > trigger as real
  {
  }

  /** The layout's part of `onNestedPreScroll` when the list scrolls up (dy > 0) while
      the indicator is out: the indicator retracts by up to dy and the layout reports a
      share of dy as consumed. `toInt()` of the positive offset truncates, i.e. floors. */
  function PreScrollShare(dy: int, offset: real): (s: Share)
    requires 0 < dy && 0.0 < offset
    ensures 0 < s.consumedY <= dy
    ensures 0.0 <= s.offset < offset
    ensures offset - s.offset == Min(dy as real, offset)
    ensures dy as real <= offset ==> s.consumedY == dy
    ensures offset < dy as real ==> s.offset == 0.0 && s.consumedY == dy - offset.Floor
  {
    if dy as real > offset then Share(dy - offset.Floor, 0.0)
    else Share(dy, offset - dy as real)
  }

  /** `onInterceptTouchEvent` on MOVE: steal the gesture when the content is at its top
      and the finger moved down more than sideways. */
  function ShouldStealTouch(contentCanScrollUp: bool, downX: real, downY: real, x: real, y: real): (steal: bool)
    ensures steal <==> !contentCanScrollUp && y - downY > Abs(x - downX)
  {
    if !contentCanScrollUp then y > downY && Abs(y - downY) > Abs(x - downX) else false
  }
}
