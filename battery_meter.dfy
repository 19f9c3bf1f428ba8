/**
 * The battery meter view: its configuration, the live and the demo tracker,
 * the charge-animation fields, the cached bolt path and the drawing of one
 * frame. Invalidation is the `redrawRequested` flag, which the next draw
 * clears; the 50 ms delayed redraw of a running animation is
 * `frameScheduled`, delivered by `Tick`.
 */
module BatteryMeter {
  import opened Wrappers
  import opened Argb
  import opened BatteryTracking
  import opened BatteryGeometry
  import opened BatteryRender
  import opened ChargeAnimation

  /** The initial frame colour: the white battery colour at alpha 77. */
  const InitialFrameColor: Color := Color(77, 0xff, 0xff, 0xff)

  /** Demo-mode commands. */
  const CommandEnter: string := "enter"
  const CommandExit: string := "exit"
  const CommandBattery: string := "battery"

  function LowerAscii(c: char): char {
    if 'A' <= c <= 'Z' then (c as int - 'A' as int + 'a' as int) as char else c
  }

  /**
   * Character-wise equality ignoring case. The letters of "true" have no
   * case variants outside ASCII, so ASCII case folding suffices here.
   */
  function EqualsIgnoreCase(a: string, b: string): (r: bool)
    ensures r ==> |a| == |b|
    ensures r <==> |a| == |b| && forall i :: 0 <= i < |a| ==> LowerAscii(a[i]) == LowerAscii(b[i])
  {
    if |a| != |b| then false
    else if |a| == 0 then true
    else LowerAscii(a[0]) == LowerAscii(b[0]) && EqualsIgnoreCase(a[1..], b[1..])
  }

  /** The platform's boolean parse: "true" in any case is true, anything else false. */
  function ParseBoolean(s: string): bool {
    EqualsIgnoreCase(s, "true")
  }

  lemma ParseBooleanExamples()
    ensures ParseBoolean("true") && ParseBoolean("TRUE") && ParseBoolean("True")
    ensures !ParseBoolean("false") && !ParseBoolean("") && !ParseBoolean("1") && !ParseBoolean("truee")
  {
    assert LowerAscii('T') == 't' && LowerAscii('R') == 'r' && LowerAscii('U') == 'u' && LowerAscii('E') == 'e';
    assert LowerAscii('1') != 't';
  }

  function ClampLevel(v: int): (r: int)
    ensures 0 <= r <= 100
    ensures 0 <= v <= 100 ==> r == v
    ensures v < 0 ==> r == 0
    ensures v > 100 ==> r == 100
  {
    if v < 0 then 0 else if v > 100 then 100 else v
  }

  /** The bolt frame before any bolt is built: empty, at the origin. */
  const EmptyFrame: Rect := Rect(0.0, 0.0, 0.0, 0.0)

  /**
   * Once the cached frame is not the initial empty one, the cached bolt
   * path is the bolt polyline of the cached frame.
   */
  predicate BoltCached(frame: Rect, path: seq<Point>, pts: seq<real>)
    requires 2 <= |pts| && |pts| % 2 == 0
  {
    frame != EmptyFrame ==> path == BoltPolyline(frame, pts)
  }

  class BatteryMeterView {
    // trackers
    const tracker: Tracker
    const demoTracker: Tracker
    var demoMode: bool

    // configuration
    const lowLevel: int
    const criticalLevel: int
    const buttonHeightFraction: real
    const smoothingLeft: real
    const smoothingRight: real
    const paddingLeft: int
    const paddingTop: int
    const paddingRight: int
    const paddingBottom: int
    var ignoreTuner: bool
    var showPercent: bool
    var cutOut: bool
    var showChargeAnimation: bool
    var powerSave: bool
    var frameColor: Color
    var batteryColor: Color
    var textColor: Color

    // size and font metrics
    var width: int
    var height: int
    var textHeight: real
    var warningTextHeight: real

    // charge animation
    var isAnimating: bool
    var animationLevel: int

    // bolt shape and its cache
    const boltPoints: seq<real>
    var boltFrame: Rect
    var boltPath: seq<Point>

    // redraw requests
    var redrawRequested: bool
    var frameScheduled: bool

    /**
     * The two trackers are distinct; the demo tracker never receives a
     * broadcast, so its status stays 0; the bolt shape has at least one
     * x, y pair.
     */
    predicate Valid()
      reads demoTracker`status
    {
      && tracker != demoTracker
      && demoTracker.status == 0
      && 2 <= |boltPoints| && |boltPoints| % 2 == 0
    }

    /**
     * The cached bolt path is the bolt drawn in the cached frame, except
     * before any bolt was built. Only the drawing methods touch the cache.
     */
    predicate BoltCacheValid()
      reads this`boltFrame, this`boltPath
    {
      2 <= |boltPoints| && |boltPoints| % 2 == 0 && BoltCached(boltFrame, boltPath, boltPoints)
    }

    /**
     * A meter with the given resources; `rawBolt` is the bolt resource of
     * x, y pairs and `showPercentSetting` the stored percentage setting.
     */
    constructor (lowLevel: int, criticalLevel: int, buttonHeightFraction: real,
                 smoothingLeft: real, smoothingRight: real,
                 paddingLeft: int, paddingTop: int, paddingRight: int, paddingBottom: int,
                 rawBolt: array<int>, showPercentSetting: int)
      requires 2 <= rawBolt.Length && rawBolt.Length % 2 == 0
      requires 0 < CoordMax(rawBolt[..], 0) && 0 < CoordMax(rawBolt[..], 1)
      ensures Valid() && BoltCacheValid() && fresh(tracker) && fresh(demoTracker)
      ensures tracker.level == UnknownLevel && demoTracker.level == UnknownLevel && !demoMode
      ensures this.lowLevel == lowLevel && this.criticalLevel == criticalLevel
      ensures !ignoreTuner && showPercent == (showPercentSetting != 0) && cutOut && !showChargeAnimation
      ensures frameColor == InitialFrameColor && batteryColor == White && textColor == White
      ensures !isAnimating && !redrawRequested && !frameScheduled
      ensures this.buttonHeightFraction == buttonHeightFraction
      ensures this.smoothingLeft == smoothingLeft && this.smoothingRight == smoothingRight
      ensures this.paddingLeft == paddingLeft && this.paddingTop == paddingTop
      ensures this.paddingRight == paddingRight && this.paddingBottom == paddingBottom
      ensures !powerSave && width == 0 && height == 0
      ensures boltFrame == EmptyFrame && boltPath == []
      ensures |boltPoints| == rawBolt.Length
      ensures forall k :: 0 <= k < rawBolt.Length / 2 ==>
        && boltPoints[2 * k] == rawBolt[2 * k] as real / CoordMax(rawBolt[..], 0) as real
        && boltPoints[2 * k + 1] == rawBolt[2 * k + 1] as real / CoordMax(rawBolt[..], 1) as real
    {
      tracker := new Tracker();
      demoTracker := new Tracker();
      demoMode := false;
      this.lowLevel := lowLevel;
      this.criticalLevel := criticalLevel;
      this.buttonHeightFraction := buttonHeightFraction;
      this.smoothingLeft := smoothingLeft;
      this.smoothingRight := smoothingRight;
      this.paddingLeft := paddingLeft;
      this.paddingTop := paddingTop;
      this.paddingRight := paddingRight;
      this.paddingBottom := paddingBottom;
      ignoreTuner := false;
      showPercent := showPercentSetting != 0;
      cutOut := true;
      showChargeAnimation := false;
      powerSave := false;
      frameColor := InitialFrameColor;
      batteryColor := White;
      textColor := White;
      width, height := 0, 0;
      textHeight, warningTextHeight := 0.0, 0.0;
      isAnimating := false;
      animationLevel := 0;
      var pts := LoadBoltPoints(rawBolt);
      boltPoints := pts[..];
      boltFrame := EmptyFrame;
      boltPath := [];
      redrawRequested := false;
      frameScheduled := false;
    }

    function Sizes(): Metrics
      reads this`width, this`height
    {
      Metrics(width, height, paddingLeft, paddingTop, paddingRight, paddingBottom,
              buttonHeightFraction, smoothingLeft, smoothingRight)
    }

    function Config(): Settings
      reads this`powerSave, this`showPercent, this`showChargeAnimation, this`cutOut,
        this`frameColor, this`batteryColor, this`textColor
    {
      Settings(lowLevel, criticalLevel, powerSave, showPercent, showChargeAnimation, cutOut,
               frameColor, batteryColor, textColor)
    }

    /** The tracker the meter shows: the demo tracker in demo mode. */
    function Shown(): Tracker
      reads this`demoMode
    {
      if demoMode then demoTracker else tracker
    }

    function AnimationInputs(t: Tracker): Inputs
      reads this`showChargeAnimation, t
    {
      Inputs(t.ShouldIndicateCharging(), t.status, t.level, showChargeAnimation)
    }

    function Animation(): AnimState
      reads this`isAnimating, this`animationLevel
    {
      AnimState(isAnimating, animationLevel)
    }

    /** Invalidate unless an animation is running (it redraws anyway). */
    method InvalidateUnlessAnimating()
      modifies this`redrawRequested
      ensures redrawRequested == (old(redrawRequested) || !isAnimating)
    {
      if !isAnimating {
        redrawRequested := true;
      }
    }

    /** The power-save state of the battery controller changed (or was first read). */
    method OnPowerSaveChanged(isPowerSave: bool)
      modifies this`powerSave, this`redrawRequested
      ensures powerSave == isPowerSave
      ensures redrawRequested == (old(redrawRequested) || !isAnimating)
    {
      powerSave := isPowerSave;
      InvalidateUnlessAnimating();
    }

    /**
     * A new size; `warningAscent` is the (negative) ascent of the warning
     * font at three quarters of the new height.
     */
    method OnSizeChanged(w: int, h: int, warningAscent: real)
      modifies this`width, this`height, this`warningTextHeight
      ensures width == w && height == h && warningTextHeight == -warningAscent
    {
      height := h;
      width := w;
      warningTextHeight := -warningAscent;
    }

    /** Re-read the percentage setting unless the tuner is ignored. */
    method UpdateShowPercent(setting: int)
      modifies this`showPercent
      ensures showPercent == if ignoreTuner then old(showPercent) else setting != 0
    {
      if !ignoreTuner {
        showPercent := setting != 0;
      }
    }

    /** The percentage setting changed. */
    method OnSettingChanged(setting: int)
      modifies this`showPercent, this`redrawRequested
      ensures showPercent == if ignoreTuner then old(showPercent) else setting != 0
      ensures redrawRequested == (old(redrawRequested) || (!ignoreTuner && !isAnimating))
    {
      if !ignoreTuner {
        UpdateShowPercent(setting);
        InvalidateUnlessAnimating();
      }
    }

    /** An explicit choice of percentage visibility, after which the setting is ignored. */
    method SetTextVisibility(show: bool)
      modifies this`ignoreTuner, this`showPercent, this`redrawRequested
      ensures ignoreTuner && showPercent == show
      ensures redrawRequested == (old(redrawRequested) || !isAnimating)
    {
      if !ignoreTuner {
        ignoreTuner := true;
      }
      showPercent := show;
      InvalidateUnlessAnimating();
    }

    method SetShowChargeAnimation(show: bool)
      modifies this`showChargeAnimation, this`redrawRequested
      ensures showChargeAnimation == show
      ensures redrawRequested == (old(redrawRequested) || (show && !old(showChargeAnimation)))
    {
      if showChargeAnimation != show {
        showChargeAnimation := show;
        if showChargeAnimation {
          redrawRequested := true;
        }
      }
    }

    method SetCutOutBatteryText(cut: bool)
      modifies this`cutOut, this`redrawRequested
      ensures cutOut == cut
      ensures redrawRequested == (old(redrawRequested) || !isAnimating)
    {
      cutOut := cut;
      InvalidateUnlessAnimating();
    }

    method SetBatteryColor(frame: Color, fill: Color)
      modifies this`frameColor, this`batteryColor, this`redrawRequested
      ensures frameColor == frame && batteryColor == fill
      ensures redrawRequested == (old(redrawRequested) || !isAnimating)
    {
      frameColor := frame;
      batteryColor := fill;
      InvalidateUnlessAnimating();
    }

    method SetBatteryTextColor(color: Color)
      modifies this`textColor, this`redrawRequested
      ensures textColor == color
      ensures redrawRequested == (old(redrawRequested) || !isAnimating)
    {
      textColor := color;
      InvalidateUnlessAnimating();
    }

    /** A battery-changed broadcast to the live tracker; a taken one requests a redraw. */
    method ReceiveBatteryChanged(intent: BatteryIntent) returns (accepted: bool)
      requires Valid()
      modifies tracker, this`redrawRequested
      ensures Valid()
      ensures accepted == Accepts(old(tracker.testmode), intent)
      ensures !accepted ==> unchanged(tracker) && redrawRequested == old(redrawRequested)
      ensures accepted ==> redrawRequested == (old(redrawRequested) || !isAnimating)
      ensures tracker.testmode == old(tracker.testmode)
      ensures accepted ==> tracker.Holds(intent)
    {
      accepted := tracker.OnBatteryChanged(intent);
      if accepted {
        InvalidateUnlessAnimating();
      }
    }

    /**
     * A demo-mode command. `enter` (outside demo mode) copies the live level
     * and plug state into the demo tracker; `exit` (in demo mode) leaves it;
     * `battery` (in demo mode) sets the demo level, clamped to 0..100, and
     * the demo plug state from the given arguments. Anything else is ignored.
     */
    method DispatchDemoCommand(command: string, level: Option<int>, plugged: Option<string>)
      requires Valid()
      modifies this`demoMode, this`redrawRequested, demoTracker`level, demoTracker`plugged
      ensures Valid()
      ensures !old(demoMode) && command == CommandEnter ==>
        demoMode && demoTracker.level == tracker.level && demoTracker.plugged == tracker.plugged
        && redrawRequested == old(redrawRequested)
      ensures old(demoMode) && command == CommandExit ==>
        !demoMode && redrawRequested && unchanged(demoTracker)
      ensures old(demoMode) && command == CommandBattery ==>
        && demoMode && redrawRequested
        && demoTracker.level == (if level.Some? then ClampLevel(level.value) else old(demoTracker.level))
        && demoTracker.plugged == (if plugged.Some? then ParseBoolean(plugged.value) else old(demoTracker.plugged))
      ensures (!(!old(demoMode) && command == CommandEnter) && !(old(demoMode) && command == CommandExit)
        && !(old(demoMode) && command == CommandBattery)) ==>
        demoMode == old(demoMode) && redrawRequested == old(redrawRequested) && unchanged(demoTracker)
    {
      if !demoMode && command == CommandEnter {
        demoMode := true;
        demoTracker.level := tracker.level;
        demoTracker.plugged := tracker.plugged;
      } else if demoMode && command == CommandExit {
        demoMode := false;
        redrawRequested := true;
      } else if demoMode && command == CommandBattery {
        if level.Some? {
          demoTracker.level := ClampLevel(level.value);
        }
        if plugged.Some? {
          demoTracker.plugged := ParseBoolean(plugged.value);
        }
        redrawRequested := true;
      }
    }

    /** A running animation's delayed redraw comes due. */
    method Tick()
      modifies this`frameScheduled, this`redrawRequested
      ensures !frameScheduled
      ensures redrawRequested == (old(redrawRequested) || old(frameScheduled))
    {
      if frameScheduled {
        frameScheduled := false;
        redrawRequested := true;
      }
    }

    /** One animation update; a continuing animation schedules its next frame. */
    method UpdateChargeAnim(t: Tracker)
      requires isAnimating
      modifies this`isAnimating, this`animationLevel, this`frameScheduled
      ensures Animation() == Update(old(animationLevel), AnimationInputs(t))
      ensures frameScheduled == (old(frameScheduled) || isAnimating)
    {
      if (!t.ShouldIndicateCharging() && animationLevel == t.level)
        || (!showChargeAnimation && animationLevel == t.level)
        || (t.status == StatusFull && animationLevel >= Full)
      {
        isAnimating := false;
        animationLevel := t.level;
        return;
      }
      if animationLevel > 100 {
        animationLevel := 0;
      } else {
        animationLevel := animationLevel + 1;
      }
      frameScheduled := true;
    }

    /** Start an animation when charging, not full, and the animation is enabled. */
    method StartChargeAnim(t: Tracker)
      modifies this`isAnimating, this`animationLevel, this`frameScheduled
      ensures Animation() == Start(old(Animation()), AnimationInputs(t))
      ensures frameScheduled == (old(frameScheduled) || StartsAnimation(AnimationInputs(t)))
    {
      if !t.ShouldIndicateCharging() || t.status == StatusFull || !showChargeAnimation {
        return;
      }
      isAnimating := true;
      animationLevel := t.level;
      UpdateChargeAnim(t);
    }

    /** The charge-animation step at the end of a drawn frame. */
    method AnimationStep(t: Tracker)
      modifies this`isAnimating, this`animationLevel, this`frameScheduled
      ensures Animation() == AfterDraw(old(Animation()), AnimationInputs(t))
      ensures frameScheduled == (old(frameScheduled) || isAnimating)
    {
      if isAnimating {
        UpdateChargeAnim(t);
      } else {
        StartChargeAnim(t);
      }
    }

    /** Rebuild the bolt path when the bolt frame for this layout differs from the cached one. */
    method RefreshBolt(body: Rect)
      requires Valid() && BoltCacheValid()
      modifies this`boltFrame, this`boltPath
      ensures Valid() && BoltCacheValid()
      ensures boltFrame == BoltFrame(body)
    {
      var bf := BoltFrame(body);
      if boltFrame != bf {
        boltFrame := bf;
        boltPath := BuildBoltPath(bf, boltPoints);
      }
    }

    /**
     * Draw one frame, which serves any pending redraw request. With the
     * unknown level nothing is drawn and nothing else changes. Otherwise
     * the frame is the composed scene for the shown tracker, the bolt cache
     * is brought up to date when the bolt is shown, and the charge animation
     * advances or tries to start.
     * `percentAscent` is the (negative) ascent of the percentage font at the
     * size this frame uses.
     */
    method Draw(percentAscent: real) returns (scene: Option<Scene>)
      requires Valid() && BoltCacheValid()
      modifies this`boltFrame, this`boltPath, this`textHeight,
               this`isAnimating, this`animationLevel, this`frameScheduled, this`redrawRequested
      ensures Valid() && BoltCacheValid()
      ensures !redrawRequested
      ensures old(Shown().level) == UnknownLevel ==>
        && scene == None
        && unchanged(this`boltFrame, this`boltPath, this`textHeight)
        && unchanged(this`isAnimating, this`animationLevel, this`frameScheduled)
      ensures old(Shown().level) != UnknownLevel ==>
        var t := Shown();
        var body := ComputeLayout(Sizes()).body;
        && (ShowsBolt(Config(), t.ShouldIndicateCharging()) ==>
              boltFrame == BoltFrame(body) && textHeight == old(textHeight))
        && (!ShowsBolt(Config(), t.ShouldIndicateCharging()) ==>
              && unchanged(this`boltFrame, this`boltPath)
              && textHeight == (if showPercent && t.level > criticalLevel then -percentAscent else old(textHeight)))
        && scene == Some(Compose(Sizes(), Config(), t.level, t.plugged, t.ShouldIndicateCharging(),
                                 if old(isAnimating) then old(animationLevel) else t.level,
                                 boltPath, textHeight, warningTextHeight))
        && Animation() == AfterDraw(old(Animation()), AnimationInputs(t))
        && frameScheduled == (old(frameScheduled) || isAnimating)
    {
      redrawRequested := false;
      var t := if demoMode then demoTracker else tracker;
      if t.level == UnknownLevel {
        return None;
      }
      var s := DrawKnown(t, percentAscent);
      scene := Some(s);
    }

    /**
     * A frame at a known level of tracker `t`: the overlay's inputs are
     * brought up to date, the scene is composed from them (filling for the
     * animated level while animating), and the charge animation takes its
     * end-of-frame step, which changes nothing the scene depends on.
     */
    method DrawKnown(t: Tracker, percentAscent: real) returns (scene: Scene)
      requires Valid() && BoltCacheValid()
      modifies this`boltFrame, this`boltPath, this`textHeight,
               this`isAnimating, this`animationLevel, this`frameScheduled
      ensures Valid() && BoltCacheValid()
      ensures ShowsBolt(Config(), t.ShouldIndicateCharging()) ==>
        boltFrame == BoltFrame(ComputeLayout(Sizes()).body) && textHeight == old(textHeight)
      ensures !ShowsBolt(Config(), t.ShouldIndicateCharging()) ==>
        && unchanged(this`boltFrame, this`boltPath)
        && textHeight == (if showPercent && t.level > criticalLevel then -percentAscent else old(textHeight))
      ensures scene == Compose(Sizes(), Config(), t.level, t.plugged, t.ShouldIndicateCharging(),
                               if old(isAnimating) then old(animationLevel) else t.level,
                               boltPath, textHeight, warningTextHeight)
      ensures Animation() == AfterDraw(old(Animation()), AnimationInputs(t))
      ensures frameScheduled == (old(frameScheduled) || isAnimating)
    {
      var drawLevel := if isAnimating then animationLevel else t.level;
      // The source paints first and steps the animation last. The step
      // touches no field the painting reads once `drawLevel` is taken, so
      // the model steps first, which keeps the proof small.
      AnimationStep(t);
      PrepareOverlay(t, percentAscent);
      scene := Compose(Sizes(), Config(), t.level, t.plugged, t.ShouldIndicateCharging(), drawLevel,
                       boltPath, textHeight, warningTextHeight);
    }

    /**
     * Bring the overlay's inputs up to date: the bolt cache when the bolt is
     * shown, otherwise the percentage text's height when it is shown.
     */
    method PrepareOverlay(t: Tracker, percentAscent: real)
      requires Valid() && BoltCacheValid()
      modifies this`boltFrame, this`boltPath, this`textHeight
      ensures Valid() && BoltCacheValid()
      ensures ShowsBolt(Config(), t.ShouldIndicateCharging()) ==>
        boltFrame == BoltFrame(ComputeLayout(Sizes()).body) && unchanged(this`textHeight)
      ensures !ShowsBolt(Config(), t.ShouldIndicateCharging()) ==>
        && unchanged(this`boltFrame, this`boltPath)
        && textHeight == if showPercent && t.level > criticalLevel then -percentAscent else old(textHeight)
    {
      if ShowsBolt(Config(), t.ShouldIndicateCharging()) {
        RefreshBolt(ComputeLayout(Sizes()).body);
      } else if showPercent && t.level > criticalLevel {
        textHeight := -percentAscent;
      }
    }
  }

  /**
   * In demo mode the meter never shows the bolt and never starts the charge
   * animation: the demo tracker's status is never set.
   */
  lemma DemoNeverCharging(v: BatteryMeterView)
    requires v.Valid() && v.demoMode
    ensures !v.Shown().ShouldIndicateCharging()
    ensures !ShowsBolt(v.Config(), v.Shown().ShouldIndicateCharging())
    ensures !StartsAnimation(v.AnimationInputs(v.Shown()))
  {
  }
}
