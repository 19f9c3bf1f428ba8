/**
 * The charge animation of the battery meter as a state machine over two
 * fields: whether the meter is animating and the level it currently shows.
 * Every frame the meter draws either advances a running animation or tries
 * to start one; a running animation schedules the next frame 50 ms later.
 */
module ChargeAnimation {
  import opened BatteryTracking
  import BatteryGeometry

  /** `mIsAnimating` and `mAnimationLevel`. */
  datatype AnimState = AnimState(animating: bool, level: int)

  /** What the animation reads from the tracker and the meter at each frame. */
  datatype Inputs = Inputs(indicate: bool, status: int, level: int, enabled: bool)

  /**
   * The animation ends once the shown level is back at the tracked level
   * while charging is not indicated or the animation is disabled, or once
   * the battery is full and the shown level is at least the full mark.
   */
  predicate Stops(a: int, inp: Inputs) {
    || (!inp.indicate && a == inp.level)
    || (!inp.enabled && a == inp.level)
    || (inp.status == StatusFull && a >= BatteryGeometry.Full)
  }

  /**
   * One update: a stopping animation ends showing the tracked level; a
   * running one moves up by one, wrapping from above 100 back to 0.
   */
  function Update(a: int, inp: Inputs): (s: AnimState)
    ensures Stops(a, inp) ==> s == AnimState(false, inp.level)
    ensures !Stops(a, inp) ==> s.animating && s.level <= 101
    ensures !Stops(a, inp) && -1 <= a ==> 0 <= s.level
    ensures !Stops(a, inp) && a <= 100 ==> s.level == a + 1
    ensures !Stops(a, inp) && a > 100 ==> s.level == 0
  {
    if Stops(a, inp) then AnimState(false, inp.level)
    else AnimState(true, if a > 100 then 0 else a + 1)
  }

  /** Whether an idle meter starts animating: charging, not full, and enabled. */
  predicate StartsAnimation(inp: Inputs) {
    inp.indicate && inp.status != StatusFull && inp.enabled
  }

  /** Starting sets the shown level to the tracked level and runs one update. */
  function Start(s: AnimState, inp: Inputs): (r: AnimState)
    ensures !StartsAnimation(inp) ==> r == s
    ensures StartsAnimation(inp) ==> r == AnimState(true, if inp.level > 100 then 0 else inp.level + 1)
  {
    if !StartsAnimation(inp) then s else Update(inp.level, inp)
  }

  /** The end of every drawn frame: advance a running animation, else try to start one. */
  function AfterDraw(s: AnimState, inp: Inputs): AnimState {
    if s.animating then Update(s.level, inp) else Start(s, inp)
  }

  /** `n` frames with unchanged inputs. */
  function Run(s: AnimState, inp: Inputs, n: nat): AnimState
    decreases n
  {
    if n == 0 then s else Run(AfterDraw(s, inp), inp, n - 1)
  }

  /**
   * While charging with the animation on and the battery not full, a running
   * animation with a shown level in 0..101 keeps running and keeps its level
   * in 0..101.
   */
  lemma AnimationLevelBounded(s: AnimState, inp: Inputs)
    requires s.animating && 0 <= s.level <= 101
    requires StartsAnimation(inp)
    ensures AfterDraw(s, inp).animating && 0 <= AfterDraw(s, inp).level <= 101
  {
  }

  /** Under the same conditions the animation is a cycle through 0..101 of period 102. */
  lemma {:induction false} AnimationCycles(s: AnimState, inp: Inputs, n: nat)
    requires s.animating && 0 <= s.level <= 101
    requires StartsAnimation(inp)
    ensures Run(s, inp, n) == AnimState(true, (s.level + n) % 102)
    decreases n
  {
    if n > 0 {
      var next := AfterDraw(s, inp);
      assert next == AnimState(true, (s.level + 1) % 102);
      AnimationCycles(next, inp, n - 1);
    }
  }

  /**
   * The number of updates that take a shown level `a` to the tracked level
   * `l`: straight up, or up past 100, round through 0 and up again.
   */
  function Distance(a: int, l: int): (d: nat)
    requires 0 <= l <= 101
    ensures a == l ==> d == 0
  {
    if a <= l then l - a
    else if a > 100 then l + 1
    else 101 - a + 1 + l
  }

  /**
   * Once charging is no longer indicated or the animation is disabled, a
   * running animation reaches the tracked level and stops, and the meter
   * then stays idle showing that level.
   */
  lemma {:induction false} AnimationSettles(s: AnimState, inp: Inputs, n: nat)
    requires s.animating && 0 <= inp.level <= 101
    requires !inp.indicate || !inp.enabled
    requires n > Distance(s.level, inp.level)
    ensures Run(s, inp, n) == AnimState(false, inp.level)
    decreases n
  {
    var next := AfterDraw(s, inp);
    if Stops(s.level, inp) {
      assert next == AnimState(false, inp.level);
      StaysIdle(next, inp, n - 1);
    } else {
      assert s.level != inp.level;
      assert Distance(next.level, inp.level) == Distance(s.level, inp.level) - 1;
      AnimationSettles(next, inp, n - 1);
    }
  }

  /**
   * A tracked level outside 0..101 (a malformed broadcast, or a zero scale
   * that saturates the level cast) is never met by the animated level, which
   * only cycles through 0..101: unless the battery is full, a running
   * animation then never stops.
   */
  lemma {:induction false} AnimationNeverSettlesOutOfRange(s: AnimState, inp: Inputs, n: nat)
    requires s.animating && 0 <= s.level <= 101
    requires inp.level < 0 || 101 < inp.level
    requires inp.status != StatusFull
    ensures Run(s, inp, n).animating && 0 <= Run(s, inp, n).level <= 101
    decreases n
  {
    if n > 0 {
      assert !Stops(s.level, inp);
      AnimationNeverSettlesOutOfRange(AfterDraw(s, inp), inp, n - 1);
    }
  }

  /** An idle meter that would not start stays idle. */
  lemma {:induction false} StaysIdle(s: AnimState, inp: Inputs, n: nat)
    requires !s.animating && !StartsAnimation(inp)
    ensures Run(s, inp, n) == s
    decreases n
  {
    if n > 0 {
      assert AfterDraw(s, inp) == s;
      StaysIdle(s, inp, n - 1);
    }
  }

  /** Frames until a full battery's animation reaches the full mark. */
  function FullDistance(a: int): nat {
    if a >= BatteryGeometry.Full then 0 else BatteryGeometry.Full - a
  }

  /**
   * With a full battery a running animation stops at the latest when the
   * shown level reaches the full mark, and the meter then stays idle showing
   * the tracked level.
   */
  lemma {:induction false} FullAnimationSettles(s: AnimState, inp: Inputs, n: nat)
    requires s.animating && inp.status == StatusFull
    requires n > FullDistance(s.level)
    ensures Run(s, inp, n) == AnimState(false, inp.level)
    decreases n
  {
    var next := AfterDraw(s, inp);
    if Stops(s.level, inp) {
      StaysIdle(next, inp, n - 1);
    } else {
      assert s.level < BatteryGeometry.Full;
      assert FullDistance(next.level) == FullDistance(s.level) - 1;
      FullAnimationSettles(next, inp, n - 1);
    }
  }
}
