/**
 * What one frame of the battery meter shows: the colours chosen for the
 * level, which overlay is shown (the charging bolt, the percentage text or
 * the critical-level warning glyph), and whether that overlay is cut out of
 * the battery shape or drawn over it.
 */
module BatteryRender {
  import opened Wrappers
  import opened Argb
  import opened BatteryGeometry

  /** The meter's low-level colour, deep orange 600. */
  const LowLevelColor: Color := Color(0xff, 0xf4, 0x51, 0x1e)

  /** Below this filled fraction of its height the bolt is drawn opaque. */
  const BoltLevelThreshold: real := 0.3

  /**
   * The fill or text colour for a level: the low-level colour at or below
   * the low level unless power saving is on, the configured colour otherwise.
   */
  function ColorForLevel(percent: int, lowLevel: int, powerSave: bool, normal: Color): (c: Color)
    ensures c == LowLevelColor || c == normal
    ensures normal != LowLevelColor ==> (c == LowLevelColor <==> percent <= lowLevel && !powerSave)
  {
    if percent <= lowLevel && !powerSave then LowLevelColor else normal
  }

  /** The meter's configuration that the drawing reads. */
  datatype Settings = Settings(
    lowLevel: int, criticalLevel: int, powerSave: bool,
    showPercent: bool, showChargeAnimation: bool, cutOut: bool,
    frameColor: Color, batteryColor: Color, textColor: Color)

  /** The fill colour: the colour for 50 percent while plugged in, else for the level. */
  function FillColor(st: Settings, level: int, plugged: bool): Color {
    ColorForLevel(if plugged then 50 else level, st.lowLevel, st.powerSave, st.batteryColor)
  }

  /**
   * While plugged in the fill colour does not depend on the level: it is the
   * configured colour, unless the low level is at least 50 with power saving
   * off, when it is the low-level colour.
   */
  lemma PluggedFillColor(st: Settings, level: int, other: int)
    ensures FillColor(st, level, true) == FillColor(st, other, true)
    ensures st.lowLevel < 50 || st.powerSave ==> FillColor(st, level, true) == st.batteryColor
    ensures 50 <= st.lowLevel && !st.powerSave ==> FillColor(st, level, true) == LowLevelColor
  {
  }

  /** The bolt is always drawn in the text colour for 50 percent. */
  function BoltColor(st: Settings): (c: Color)
    ensures st.lowLevel < 50 || st.powerSave ==> c == st.textColor
    ensures 50 <= st.lowLevel && !st.powerSave ==> c == LowLevelColor
  {
    ColorForLevel(50, st.lowLevel, st.powerSave, st.textColor)
  }

  /**
   * The bolt is shown when charging is indicated, unless both the
   * percentage and the charge animation are on.
   */
  predicate ShowsBolt(st: Settings, indicate: bool) {
    indicate && (!st.showPercent || !st.showChargeAnimation)
  }

  function Clamp01(x: real): (y: real)
    ensures 0.0 <= y <= 1.0
    ensures 0.0 <= x <= 1.0 ==> y == x
  {
    if x < 0.0 then 0.0 else if x > 1.0 then 1.0 else x
  }

  /**
   * Whether the bolt is drawn over the shape rather than cut out of it: when
   * cutting out is on, only while the fill covers at most 30% of the bolt's
   * height. For a bolt of zero height the float division yields +Infinity,
   * -Infinity or NaN; only -Infinity (the fill line below the bolt) is opaque.
   */
  predicate BoltOpaque(cutOut: bool, bolt: Rect, levelTop: real) {
    if !cutOut then true
    else if bolt.Height() == 0.0 then bolt.bottom - levelTop < 0.0
    else Clamp01((bolt.bottom - levelTop) / bolt.Height()) <= BoltLevelThreshold
  }

  /**
   * For a bolt of positive height with cutting out on, the bolt is opaque
   * exactly when the fill line lies at or below 30% of the bolt's height.
   */
  lemma BoltOpaqueIffLowFill(bolt: Rect, levelTop: real)
    requires 0.0 < bolt.Height()
    ensures BoltOpaque(true, bolt, levelTop) <==>
      bolt.bottom - BoltLevelThreshold * bolt.Height() <= levelTop
  {
    var h := bolt.Height();
    var q := (bolt.bottom - levelTop) / h;
    assert q * h == bolt.bottom - levelTop;
    if q <= BoltLevelThreshold {
      assert q * h <= BoltLevelThreshold * h;
    } else {
      assert q * h > BoltLevelThreshold * h;
    }
  }

  /**
   * With cutting out on, once the fill covers enough of the bolt to cut it
   * out at some level, the bolt is cut out at every higher level too.
   */
  lemma BoltCutOutAsFillRises(l: Layout, bolt: Rect, critical: int, v: int, w: int)
    requires 0 <= v <= w
    requires 0.0 <= l.body.Height() && l.button.top <= l.body.top
    requires 0.0 < bolt.Height()
    ensures !BoltOpaque(true, bolt, LevelTop(l, DrawFraction(v, critical))) ==>
            !BoltOpaque(true, bolt, LevelTop(l, DrawFraction(w, critical)))
  {
    var fv, fw := DrawFraction(v, critical), DrawFraction(w, critical);
    DrawFractionMonotone(v, w, critical);
    LevelTopMonotone(l, fv, fw);
    BoltOpaqueIffLowFill(bolt, LevelTop(l, fv));
    BoltOpaqueIffLowFill(bolt, LevelTop(l, fw));
  }

  /** The percentage text is drawn over the shape unless it reaches above the fill line. */
  predicate PercentOpaque(cutOut: bool, levelTop: real, y: real) {
    !cutOut || levelTop > y
  }

  /**
   * With cutting out on, once the fill line reaches the text's baseline at
   * some level, so that the text is cut out, it is cut out at every higher
   * level too.
   */
  lemma TextCutOutAsFillRises(l: Layout, y: real, critical: int, v: int, w: int)
    requires 0 <= v <= w
    requires 0.0 <= l.body.Height() && l.button.top <= l.body.top
    ensures !PercentOpaque(true, LevelTop(l, DrawFraction(v, critical)), y) ==>
            !PercentOpaque(true, LevelTop(l, DrawFraction(w, critical)), y)
  {
    DrawFractionMonotone(v, w, critical);
    LevelTopMonotone(l, DrawFraction(v, critical), DrawFraction(w, critical));
  }

  /** A shape taken out of the battery outline before it is painted. */
  datatype Cutout =
    | CutBolt(path: seq<Point>)
    | CutText(value: int, x: real, y: real, size: real)

  /** What is painted over the filled battery. */
  datatype Glyph =
    | BoltGlyph(path: seq<Point>, color: Color)
    | PercentText(value: int, x: real, y: real, size: real, color: Color)
    | WarningGlyph(x: real, y: real)

  /**
   * One frame: the outline less the cut-out painted in the frame colour, the
   * same shape clipped to the fill rectangle painted in the fill colour, and
   * at most one glyph over it.
   */
  datatype Scene = Scene(
    outline: seq<Point>, frameColor: Color, cutout: Option<Cutout>,
    fill: Rect, fillColor: Color, glyph: Option<Glyph>)

  /** The size of the percentage text: smaller for the three digits of 100. */
  function PercentTextSize(innerHeight: int, level: int): real {
    innerHeight as real * (if level == 100 then 0.38 else 0.5)
  }

  /** Where the percentage text's baseline is, for a text of the given height. */
  function PercentY(viewHeight: int, textHeight: real): real {
    (viewHeight as real + textHeight) * 0.47
  }

  /**
   * The frame the meter draws for tracker level `level` (not the unknown
   * level), filling for `drawLevel` (the animated level while animating).
   * `boltPath` is the bolt polyline in the bolt frame of this layout;
   * `textHeight` is the ascent of the percentage font at its size and
   * `warningTextHeight` that of the warning font.
   */
  function Compose(m: Metrics, st: Settings, level: int, plugged: bool, indicate: bool,
                   drawLevel: int, boltPath: seq<Point>, textHeight: real,
                   warningTextHeight: real): Scene
  {
    var l := ComputeLayout(m);
    var levelTop := LevelTop(l, DrawFraction(drawLevel, st.criticalLevel));
    var fill := Rect(l.body.left, levelTop, l.body.right, l.body.bottom);
    var overlay :=
      if ShowsBolt(st, indicate) then
        if BoltOpaque(st.cutOut, BoltFrame(l.body), levelTop) then
          (None, Some(BoltGlyph(boltPath, BoltColor(st))))
        else
          (Some(CutBolt(boltPath)), None)
      else if st.showPercent && level > st.criticalLevel then
        var x := m.viewWidth as real * 0.5;
        var y := PercentY(m.viewHeight, textHeight);
        var size := PercentTextSize(m.InnerHeight(), level);
        if PercentOpaque(st.cutOut, levelTop, y) then
          (None, Some(PercentText(level, x, y, size,
             ColorForLevel(level, st.lowLevel, st.powerSave, st.textColor))))
        else
          (Some(CutText(level, x, y, size)), None)
      else if st.showPercent then
        (None, Some(WarningGlyph(m.viewWidth as real * 0.5, (m.viewHeight as real + warningTextHeight) * 0.48)))
      else
        (None, None);
    Scene(Outline(l), st.frameColor, overlay.0, fill, FillColor(st, level, plugged), overlay.1)
  }

  /**
   * The rules of a composed frame: the outline and colours; the fill rectangle
   * from the fill line down; and at most one overlay, which is either cut out
   * of the shape or drawn over it, never both. The bolt is shown when charging
   * is indicated (unless percentage and charge animation are both on); the
   * percentage text otherwise above the critical level when percentages are
   * on; the warning glyph otherwise at or below the critical level.
   */
  lemma ComposeRules(m: Metrics, st: Settings, level: int, plugged: bool, indicate: bool,
                     drawLevel: int, boltPath: seq<Point>, textHeight: real,
                     warningTextHeight: real)
    ensures var s := Compose(m, st, level, plugged, indicate, drawLevel, boltPath, textHeight, warningTextHeight);
      s.outline == Outline(ComputeLayout(m))
    // at most one overlay; a cut-out only in cut-out mode; no overlay without bolt or percentage
    ensures var s := Compose(m, st, level, plugged, indicate, drawLevel, boltPath, textHeight, warningTextHeight);
      && !(s.cutout.Some? && s.glyph.Some?)
      && (s.cutout.Some? ==> st.cutOut)
      && (s.cutout.Some? || s.glyph.Some? ==> ShowsBolt(st, indicate) || st.showPercent)
    ensures var s := Compose(m, st, level, plugged, indicate, drawLevel, boltPath, textHeight, warningTextHeight);
      s.frameColor == st.frameColor && s.fillColor == FillColor(st, level, plugged)
    ensures var s := Compose(m, st, level, plugged, indicate, drawLevel, boltPath, textHeight, warningTextHeight);
      var l := ComputeLayout(m);
      s.fill == Rect(l.body.left, LevelTop(l, DrawFraction(drawLevel, st.criticalLevel)), l.body.right, l.body.bottom)
    // the bolt: cut out or drawn, never both
    ensures var s := Compose(m, st, level, plugged, indicate, drawLevel, boltPath, textHeight, warningTextHeight);
      ShowsBolt(st, indicate) ==>
      var drawn := BoltOpaque(st.cutOut, BoltFrame(ComputeLayout(m).body), s.fill.top);
      && (s.cutout == Some(CutBolt(boltPath)) <==> !drawn)
      && (s.glyph == Some(BoltGlyph(boltPath, BoltColor(st))) <==> drawn)
      && (s.cutout == None <==> drawn)
      && (s.glyph == None <==> !drawn)
    // the percentage: only above the critical level, cut out or drawn, never both
    ensures var s := Compose(m, st, level, plugged, indicate, drawLevel, boltPath, textHeight, warningTextHeight);
      !ShowsBolt(st, indicate) && st.showPercent && level > st.criticalLevel ==>
      var y := PercentY(m.viewHeight, textHeight);
      var drawn := PercentOpaque(st.cutOut, s.fill.top, y);
      && (s.cutout.Some? <==> !drawn)
      && (s.glyph.Some? <==> drawn)
      && (s.cutout.Some? ==>
            s.cutout.value == CutText(level, m.viewWidth as real * 0.5, y, PercentTextSize(m.InnerHeight(), level)))
      && (s.glyph.Some? ==>
            s.glyph.value == PercentText(level, m.viewWidth as real * 0.5, y, PercentTextSize(m.InnerHeight(), level),
                                         ColorForLevel(level, st.lowLevel, st.powerSave, st.textColor)))
    // the warning glyph: only at or below the critical level, never cut out
    ensures var s := Compose(m, st, level, plugged, indicate, drawLevel, boltPath, textHeight, warningTextHeight);
      !ShowsBolt(st, indicate) && st.showPercent && level <= st.criticalLevel ==>
      s.cutout == None && s.glyph == Some(WarningGlyph(m.viewWidth as real * 0.5, (m.viewHeight as real + warningTextHeight) * 0.48))
    ensures var s := Compose(m, st, level, plugged, indicate, drawLevel, boltPath, textHeight, warningTextHeight);
      !ShowsBolt(st, indicate) && !st.showPercent ==> s.cutout == None && s.glyph == None
  {
  }


  /** Whether a frame shows the bolt, painted or cut out. */
  predicate HasBolt(s: Scene) {
    (s.cutout.Some? && s.cutout.value.CutBolt?) || (s.glyph.Some? && s.glyph.value.BoltGlyph?)
  }

  /**
   * A frame shows the bolt exactly when charging is indicated and not both
   * the percentage and the charge animation are on; with both on, the
   * percentage text or the warning glyph is shown instead, even while
   * charging.
   */
  lemma BoltOverlayRule(m: Metrics, st: Settings, level: int, plugged: bool, indicate: bool,
                        drawLevel: int, boltPath: seq<Point>, textHeight: real,
                        warningTextHeight: real)
    ensures var s := Compose(m, st, level, plugged, indicate, drawLevel, boltPath, textHeight, warningTextHeight);
      HasBolt(s) <==> indicate && !(st.showPercent && st.showChargeAnimation)
    ensures var s := Compose(m, st, level, plugged, indicate, drawLevel, boltPath, textHeight, warningTextHeight);
      st.showPercent && st.showChargeAnimation ==> !HasBolt(s) && (s.cutout.Some? || s.glyph.Some?)
  {
  }
}
