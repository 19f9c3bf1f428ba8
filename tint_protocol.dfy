/**
 * The dark-icon protocol of the status bar around app transitions. A change
 * of icon darkness is applied at once, animated, or deferred while an app
 * transition is pending; when the transition starts, a deferred change is
 * animated in step with it, and a change that arrives before the
 * transition's start time is still animated in step (the deferring window).
 * Time is an explicit `now` in milliseconds; the tint animator is the
 * animation it was last asked to run, or none.
 */
module TintProtocol {
  import opened Wrappers

  const DefaultTintAnimationDuration: int := 120

  /** A requested tint animation of the dark intensity from `from` to `to`. */
  datatype TintAnimation = TintAnimation(from: real, to: real, delay: int, duration: int)

  /**
   * The protocol's state: the applied dark intensity, the transition flags,
   * the deferred intensity, the deferring window and its pending end, and
   * the running tint animation.
   */
  datatype TintState = TintState(
    dark: real,
    transitionPending: bool,
    tintChangePending: bool,
    pendingDark: real,
    deferring: bool,
    deferringStart: int,
    deferringDuration: int,
    deferringDoneAt: Option<int>,
    animation: Option<TintAnimation>)

  predicate Unit(x: real) {
    0.0 <= x <= 1.0
  }

  /**
   * What the protocol keeps true: a deferred change only while a transition
   * is pending; intensities in [0, 1]; the window's end event is pending
   * exactly while deferring, at the window's start time; durations and
   * delays not negative.
   */
  predicate Inv(s: TintState) {
    && (s.tintChangePending ==> s.transitionPending)
    && Unit(s.dark) && Unit(s.pendingDark)
    && s.deferringDoneAt == (if s.deferring then Some(s.deferringStart) else None)
    && s.deferringDuration >= 0
    && (s.animation.Some? ==>
          && Unit(s.animation.value.from) && Unit(s.animation.value.to)
          && s.animation.value.delay >= 0 && s.animation.value.duration >= 0)
  }

  function Max0(x: int): (r: int)
    ensures r >= 0 && r >= x && (r == 0 || r == x)
  {
    if x > 0 then x else 0
  }

  function Intensity(dark: bool): (d: real)
    ensures Unit(d)
  {
    if dark then 1.0 else 0.0
  }

  /**
   * `animateIconTint`: the previous animation is always cancelled; a new one
   * from the current intensity is requested unless the target is already
   * reached.
   */
  function AnimateTo(s: TintState, target: real, delay: int, duration: int): (r: TintState)
    ensures r == s.(animation := r.animation)
    ensures r.animation.None? <==> s.dark == target
    ensures r.animation.Some? ==> r.animation.value == TintAnimation(s.dark, target, delay, duration)
  {
    s.(animation := if s.dark == target then None else Some(TintAnimation(s.dark, target, delay, duration)))
  }

  /** `deferIconTintChange`: record the pending intensity (a repeat is a no-op). */
  function DeferTo(s: TintState, d: real): (r: TintState)
    ensures r == s.(tintChangePending := true, pendingDark := d)
  {
    if s.tintChangePending && d == s.pendingDark then s
    else s.(tintChangePending := true, pendingDark := d)
  }

  /**
   * `setIconsDark` on everything but the colours: without animation the
   * intensity is set at once; with a pending transition the change is
   * deferred; inside the deferring window it is animated to start with the
   * transition; otherwise it is animated at once over 120 ms.
   */
  function IconsDark(s: TintState, dark: bool, animate: bool, now: int): TintState {
    var d := Intensity(dark);
    if !animate then s.(dark := d)
    else if s.transitionPending then DeferTo(s, d)
    else if s.deferring then AnimateTo(s, d, Max0(s.deferringStart - now), s.deferringDuration)
    else AnimateTo(s, d, 0, DefaultTintAnimationDuration)
  }

  function TransitionPending(s: TintState): TintState {
    s.(transitionPending := true)
  }

  /** `appTransitionCancelled`: a deferred change is animated at once. */
  function TransitionCancelled(s: TintState): TintState {
    if s.transitionPending && s.tintChangePending then
      AnimateTo(s.(tintChangePending := false), s.pendingDark, 0, DefaultTintAnimationDuration)
        .(transitionPending := false)
    else s.(transitionPending := false)
  }

  /**
   * `appTransitionStarting`: a deferred change is animated in step with the
   * transition; without one, a pending transition opens the deferring
   * window, whose end event is (re)posted for the start time.
   */
  function TransitionStarting(s: TintState, startTime: int, duration: int, now: int): TintState {
    if s.transitionPending && s.tintChangePending then
      AnimateTo(s.(tintChangePending := false), s.pendingDark, Max0(startTime - now), duration)
        .(transitionPending := false)
    else if s.transitionPending then
      s.(deferring := true, deferringStart := startTime, deferringDuration := duration,
         deferringDoneAt := Some(startTime), transitionPending := false)
    else s.(transitionPending := false)
  }

  /** The handler at time `now`: a due window-end event closes the window. */
  function HandlerRun(s: TintState, now: int): TintState {
    if s.deferringDoneAt.Some? && s.deferringDoneAt.value <= now then
      s.(deferring := false, deferringDoneAt := None)
    else s
  }

  /**
   * A value the running animation can take: between its two ends (the
   * animator's evaluator and its default interpolator never overshoot).
   */
  predicate Animated(a: TintAnimation, value: real) {
    if a.from <= a.to then a.from <= value <= a.to else a.to <= value <= a.from
  }

  /** A frame of the running tint animation applies the animated intensity. */
  function AnimationFrame(s: TintState, value: real): TintState
    requires s.animation.Some? && Animated(s.animation.value, value)
  {
    s.(dark := value)
  }

  /** The last frame reaches the target and the animation is over. */
  function AnimationEnd(s: TintState): TintState
    requires s.animation.Some?
  {
    s.(dark := s.animation.value.to, animation := None)
  }

  /** Every event keeps the invariant. */
  lemma InvPreserved(s: TintState, dark: bool, animate: bool, now: int,
                     startTime: int, duration: int, value: real)
    requires Inv(s)
    ensures Inv(IconsDark(s, dark, animate, now))
    ensures Inv(TransitionPending(s))
    ensures Inv(TransitionCancelled(s))
    ensures duration >= 0 ==> Inv(TransitionStarting(s, startTime, duration, now))
    ensures Inv(HandlerRun(s, now))
    ensures s.animation.Some? && Animated(s.animation.value, value) ==> Inv(AnimationFrame(s, value))
    ensures s.animation.Some? ==> Inv(AnimationEnd(s))
  {
  }

  /**
   * Without animation the intensity is applied at once whatever the
   * transition state, and nothing else changes (a running animation is not
   * cancelled).
   */
  lemma ImmediateIgnoresTransition(s: TintState, dark: bool, now: int)
    ensures IconsDark(s, dark, false, now) == s.(dark := Intensity(dark))
  {
  }

  /** At most one tint animation, and the last request wins. */
  lemma LastRequestWins(s: TintState, t1: real, d1: int, l1: int, t2: real, d2: int, l2: int)
    ensures AnimateTo(AnimateTo(s, t1, d1, l1), t2, d2, l2) == AnimateTo(s, t2, d2, l2)
  {
  }

  /** Deferring is idempotent. */
  lemma DeferIdempotent(s: TintState, d: real)
    ensures DeferTo(DeferTo(s, d), d) == DeferTo(s, d)
  {
  }

  /** Both ends of a transition leave no transition pending and no deferred change. */
  lemma TransitionEnds(s: TintState, startTime: int, duration: int, now: int)
    requires Inv(s)
    ensures !TransitionCancelled(s).transitionPending && !TransitionCancelled(s).tintChangePending
    ensures !TransitionStarting(s, startTime, duration, now).transitionPending
    ensures !TransitionStarting(s, startTime, duration, now).tintChangePending
  {
  }

  /**
   * A change while a transition is pending is not applied; when the
   * transition starts it is animated from the current intensity, delayed
   * until the start time and lasting as long as the transition.
   */
  lemma DeferredChangeFollowsTransition(s: TintState, dark: bool, t0: int, startTime: int,
                                        duration: int, now: int)
    requires !s.transitionPending && s.dark != Intensity(dark)
    ensures var p := IconsDark(TransitionPending(s), dark, true, t0);
      && p.dark == s.dark && p.animation == s.animation
      && TransitionStarting(p, startTime, duration, now).animation ==
           Some(TintAnimation(s.dark, Intensity(dark), Max0(startTime - now), duration))
      && TransitionStarting(p, startTime, duration, now).dark == s.dark
  {
  }

  /** A cancelled transition animates a deferred change at once over 120 ms. */
  lemma DeferredChangeOnCancel(s: TintState, dark: bool, t0: int)
    requires !s.transitionPending && s.dark != Intensity(dark)
    ensures TransitionCancelled(IconsDark(TransitionPending(s), dark, true, t0)).animation ==
      Some(TintAnimation(s.dark, Intensity(dark), 0, DefaultTintAnimationDuration))
  {
  }

  /**
   * A transition that starts with no change deferred opens a window: a
   * change inside it is animated to begin at the start time and to last
   * as long as the transition; once the window's end event has run, a
   * change is animated at once over 120 ms.
   */
  lemma DeferringWindow(s: TintState, startTime: int, duration: int,
                        now: int, later: int, dark: bool)
    requires Inv(s) && s.transitionPending && !s.tintChangePending
    requires s.dark != Intensity(dark)
    ensures var w := TransitionStarting(s, startTime, duration, now);
      && w.deferring
      && IconsDark(w, dark, true, later).animation ==
           Some(TintAnimation(s.dark, Intensity(dark), Max0(startTime - later), duration))
      && (later >= startTime ==>
           IconsDark(HandlerRun(w, later), dark, true, later).animation ==
             Some(TintAnimation(s.dark, Intensity(dark), 0, DefaultTintAnimationDuration)))
  {
    var w := TransitionStarting(s, startTime, duration, now);
    assert w.deferringDoneAt == Some(startTime);
  }
}
