/**
 * The shapes the battery meter draws: the button cap and body frames, the
 * fill fraction and the fill line, the nine-vertex outline, the inset bolt
 * frame and the bolt polyline scaled into it. Coordinates are reals.
 */
module BatteryGeometry {
  import opened Argb

  /** At or above this level the meter is drawn completely full. */
  const Full: int := 96

  datatype Point = Point(x: real, y: real)

  datatype Rect = Rect(left: real, top: real, right: real, bottom: real) {
    function Width(): real { right - left }
    function Height(): real { bottom - top }
    predicate Contains(p: Point) {
      left <= p.x <= right && top <= p.y <= bottom
    }
  }

  /** Java's `Math.round` of a float: the nearest integer, halves upwards. */
  function Round(x: real): (n: int)
    ensures n as real - 0.5 <= x < n as real + 0.5
  {
    (x + 0.5).Floor
  }

  /** The view size, its paddings and the meter's shape resources. */
  datatype Metrics = Metrics(
    viewWidth: int, viewHeight: int,
    paddingLeft: int, paddingTop: int, paddingRight: int, paddingBottom: int,
    buttonHeightFraction: real, smoothingLeft: real, smoothingRight: real)
  {
    function InnerWidth(): int { viewWidth - paddingLeft - paddingRight }
    function InnerHeight(): int { viewHeight - paddingTop - paddingBottom }
    /** `(int) (height * mButtonHeightFraction)` */
    function ButtonHeight(): int { Trunc(InnerHeight() as real * buttonHeightFraction) }
    /** `Math.round(width * 0.25f)`: the inset of the cap on each side. */
    function CapInset(): int { Round(InnerWidth() as real * 0.25) }
  }

  /** The button cap above the body, and the body itself. */
  datatype Layout = Layout(button: Rect, body: Rect)

  /**
   * The frames inside the padding: the cap spans the middle half of the width
   * and the top `buttonHeight` rows; the body is the rest. The cap's top and
   * left and the body's top and left move in by the left smoothing, the right
   * edges (and the body's bottom) by the right smoothing.
   */
  function ComputeLayout(m: Metrics): Layout {
    var pl := m.paddingLeft as real;
    var pt := m.paddingTop as real;
    var w := m.InnerWidth() as real;
    var h := m.InnerHeight() as real;
    var bh := m.ButtonHeight() as real;
    var inset := m.CapInset() as real;
    Layout(
      Rect(pl + inset + m.smoothingLeft, pt + m.smoothingLeft,
           pl + w - inset - m.smoothingRight, pt + bh),
      Rect(pl + m.smoothingLeft, pt + bh + m.smoothingLeft,
           pl + w - m.smoothingRight, pt + h - m.smoothingRight))
  }

  /**
   * The cap's top is the top padding plus the left smoothing and the cap is
   * `buttonHeight` tall down to the body's top; the cap is inset equally on
   * both sides of the body; the body is the inner size less the smoothing.
   */
  lemma LayoutShape(m: Metrics)
    ensures var l := ComputeLayout(m);
      && l.button.top == m.paddingTop as real + m.smoothingLeft
      && l.body.top - l.button.top == m.ButtonHeight() as real
      && l.button.bottom == m.paddingTop as real + m.ButtonHeight() as real
      && l.button.left - l.body.left == m.CapInset() as real
      && l.body.right - l.button.right == m.CapInset() as real
      && l.body.Width() == m.InnerWidth() as real - m.smoothingLeft - m.smoothingRight
      && l.body.bottom - l.button.top == m.InnerHeight() as real - m.smoothingLeft - m.smoothingRight
      && (l.button.top <= l.body.top <==> 0 <= m.ButtonHeight())
  {
  }

  /** A non-negative height and fraction give a cap of non-negative height above the body. */
  lemma ButtonAboveBody(m: Metrics)
    requires 0 <= m.InnerHeight() && 0.0 <= m.buttonHeightFraction
    ensures 0 <= m.ButtonHeight()
    ensures ComputeLayout(m).button.top <= ComputeLayout(m).body.top
  {
    assert 0.0 <= m.InnerHeight() as real * m.buttonHeightFraction;
  }

  /**
   * How much of the body is filled for level `v`: all of it from `Full`
   * upwards, nothing at or below the critical level, `v` percent otherwise.
   */
  function DrawFraction(v: int, critical: int): (f: real)
    ensures f == 1.0 <==> v >= Full
    ensures v < Full && v <= critical ==> f == 0.0
    ensures critical < v < Full ==> f == v as real / 100.0
    ensures 0 <= v ==> 0.0 <= f <= 1.0
  {
    if v >= Full then 1.0
    else if v <= critical then 0.0
    else v as real / 100.0
  }

  /** A higher level never fills less of the body. */
  lemma DrawFractionMonotone(v: int, w: int, critical: int)
    requires 0 <= v <= w
    ensures DrawFraction(v, critical) <= DrawFraction(w, critical)
  {
  }

  /**
   * The fill line: the cap's top when the fraction is 1, otherwise the
   * fraction of the body's height measured from the body's bottom.
   */
  function LevelTop(l: Layout, f: real): real {
    if f == 1.0 then l.button.top
    else l.body.top + l.body.Height() * (1.0 - f)
  }

  /**
   * For a body of positive height below the cap: the fill line is the cap's
   * top exactly when the fraction is 1, and lies strictly below the body's
   * top and at or above its bottom otherwise.
   */
  lemma LevelTopPlacement(l: Layout, f: real)
    requires 0.0 <= f <= 1.0
    requires 0.0 < l.body.Height() && l.button.top <= l.body.top
    ensures LevelTop(l, f) == l.button.top <==> f == 1.0
    ensures f < 1.0 ==> l.body.top < LevelTop(l, f) <= l.body.bottom
  {
    if f < 1.0 {
      ScalePositive(l.body.Height(), 1.0 - f);
    }
  }

  /** A positive length scaled by a fraction in (0, 1] stays positive and no longer. */
  lemma ScalePositive(h: real, g: real)
    requires 0.0 < h && 0.0 < g <= 1.0
    ensures 0.0 < h * g <= h
  {
    assert h * g <= h * 1.0;
  }

  /** The fill line does not move down as the fraction grows. */
  lemma LevelTopMonotone(l: Layout, f: real, g: real)
    requires 0.0 <= f <= g <= 1.0
    requires 0.0 <= l.body.Height() && l.button.top <= l.body.top
    ensures LevelTop(l, g) <= LevelTop(l, f)
  {
    var h := l.body.Height();
    if g < 1.0 {
      assert h * (1.0 - g) <= h * (1.0 - f);
    } else if f < 1.0 {
      assert 0.0 <= h * (1.0 - f);
    }
  }

  /**
   * The battery shape: from the cap's top left clockwise round the cap and
   * the body back to the start.
   */
  function Outline(l: Layout): (o: seq<Point>)
    ensures |o| == 9 && o[0] == o[8]
    ensures forall i :: 0 <= i < 8 ==> o[i].x == o[i + 1].x || o[i].y == o[i + 1].y
  {
    var b := l.button;
    var f := l.body;
    [Point(b.left, b.top), Point(b.right, b.top), Point(b.right, f.top),
     Point(f.right, f.top), Point(f.right, f.bottom), Point(f.left, f.bottom),
     Point(f.left, f.top), Point(b.left, f.top), Point(b.left, b.top)]
  }

  /** The cap sits on the body and within its width. */
  predicate Nested(l: Layout) {
    && l.body.left <= l.button.left <= l.button.right <= l.body.right
    && l.button.top <= l.body.top <= l.body.bottom
  }

  /** A nested cap and body keep the outline inside the cap-to-bottom box. */
  lemma OutlineBounded(l: Layout)
    requires Nested(l)
    ensures forall p :: p in Outline(l) ==>
      Rect(l.body.left, l.button.top, l.body.right, l.body.bottom).Contains(p)
  {
  }

  /**
   * Sizes for which the layout is nested: a non-negative width with room for
   * the two smoothing offsets beside the cap, and a height with room for the
   * cap and the offsets.
   */
  lemma LayoutNested(m: Metrics)
    requires 0.0 <= m.smoothingLeft && 0.0 <= m.smoothingRight
    requires 0 <= m.InnerWidth() && 0 <= m.InnerHeight()
    requires m.smoothingLeft + m.smoothingRight + 1.0 <= m.InnerWidth() as real / 2.0
    requires 0.0 <= m.buttonHeightFraction <= 1.0
    requires m.smoothingLeft + m.smoothingRight <= m.InnerHeight() as real * (1.0 - m.buttonHeightFraction)
    ensures Nested(ComputeLayout(m))
  {
    var h := m.InnerHeight() as real;
    assert 0.0 <= h * m.buttonHeightFraction <= h;
    assert h * m.buttonHeightFraction == h - h * (1.0 - m.buttonHeightFraction);
  }

  /** The bolt's box inside the body: in by 2/9 and 1/7 of the width, 1/6 and 1/10 of the height. */
  function BoltFrame(body: Rect): Rect {
    Rect(body.left + body.Width() / 4.5, body.top + body.Height() / 6.0,
         body.right - body.Width() / 7.0, body.bottom - body.Height() / 10.0)
  }

  /**
   * The bolt frame keeps 40/63 of the body's width and 11/15 of its height,
   * and lies inside a body of non-negative size.
   */
  lemma BoltFrameInset(body: Rect)
    ensures BoltFrame(body).Width() == body.Width() * 40.0 / 63.0
    ensures BoltFrame(body).Height() == body.Height() * 11.0 / 15.0
    ensures 0.0 <= body.Width() && 0.0 <= body.Height() ==>
      var r := BoltFrame(body);
      body.left <= r.left <= r.right <= body.right && body.top <= r.top <= r.bottom <= body.bottom
  {
  }

  /**
   * The largest coordinate on one axis of a flat list of x, y pairs
   * (`parity` 0 for x, 1 for y), and 0 when none is larger.
   */
  function CoordMax(s: seq<int>, parity: int): int
    requires |s| % 2 == 0 && 0 <= parity < 2
  {
    if |s| == 0 then 0
    else
      var rest := CoordMax(s[..|s| - 2], parity);
      var v := s[|s| - 2 + parity];
      if v > rest then v else rest
  }

  /**
   * The axis maximum is not negative, bounds every coordinate on its axis
   * and, unless 0, is one of them.
   */
  lemma {:induction false} CoordMaxBounds(s: seq<int>, parity: int)
    requires |s| % 2 == 0 && 0 <= parity < 2
    ensures 0 <= CoordMax(s, parity)
    ensures forall k :: 0 <= k < |s| / 2 ==> s[2 * k + parity] <= CoordMax(s, parity)
    ensures CoordMax(s, parity) == 0 || exists k :: 0 <= k < |s| / 2 && s[2 * k + parity] == CoordMax(s, parity)
    decreases |s|
  {
    if |s| > 0 {
      var init := s[..|s| - 2];
      CoordMaxBounds(init, parity);
      assert |init| / 2 == |s| / 2 - 1;
      assert forall k :: 0 <= k < |init| / 2 ==> init[2 * k + parity] == s[2 * k + parity];
      assert s[2 * (|s| / 2 - 1) + parity] == s[|s| - 2 + parity];
    }
  }

  /** A fraction scales an interval's length into that interval. */
  lemma ScaleWithin(f: real, lo: real, len: real)
    requires 0.0 <= f <= 1.0 && 0.0 <= len
    ensures lo <= lo + f * len <= lo + len
  {
    assert f * len <= 1.0 * len;
  }

  /** Normalising by the largest value gives a fraction in [0, 1]. */
  lemma NormalisedWithin(v: int, max: int)
    requires 0 <= v <= max && 0 < max
    ensures 0.0 <= v as real / max as real <= 1.0
  {
    var q := v as real / max as real;
    assert q * max as real == v as real;
  }

  /** The first loop of the loader: the largest x and the largest y. */
  method AxisMaxima(pts: array<int>) returns (maxX: int, maxY: int)
    requires pts.Length % 2 == 0
    ensures maxX == CoordMax(pts[..], 0) && maxY == CoordMax(pts[..], 1)
  {
    maxX, maxY := 0, 0;
    var i := 0;
    ghost var n := 0;
    while i < pts.Length
      invariant 0 <= i <= pts.Length && i == 2 * n
      invariant maxX == CoordMax(pts[..i], 0) && maxY == CoordMax(pts[..i], 1)
    {
      ghost var next := pts[..i + 2];
      assert next[..i] == pts[..i] && next[i] == pts[i] && next[i + 1] == pts[i + 1];
      maxX := if maxX >= pts[i] then maxX else pts[i];
      maxY := if maxY >= pts[i + 1] then maxY else pts[i + 1];
      i, n := i + 2, n + 1;
    }
    assert pts[..i] == pts[..];
  }

  /** The second loop of the loader: every x divided by `maxX`, every y by `maxY`. */
  method DivideByMaxima(pts: array<int>, maxX: int, maxY: int) returns (r: array<real>)
    requires pts.Length % 2 == 0 && 0 < maxX && 0 < maxY
    ensures fresh(r) && r.Length == pts.Length
    ensures forall k :: 0 <= k < r.Length / 2 ==>
      r[2 * k] == pts[2 * k] as real / maxX as real && r[2 * k + 1] == pts[2 * k + 1] as real / maxY as real
  {
    r := new real[pts.Length];
    var i := 0;
    ghost var n := 0;
    while i < pts.Length
      invariant 0 <= i <= pts.Length && i == 2 * n
      invariant forall k :: 0 <= k < n ==>
        r[2 * k] == pts[2 * k] as real / maxX as real && r[2 * k + 1] == pts[2 * k + 1] as real / maxY as real
    {
      r[i] := pts[i] as real / maxX as real;
      r[i + 1] := pts[i + 1] as real / maxY as real;
      i, n := i + 2, n + 1;
    }
  }

  /**
   * The bolt points from the resource array, each coordinate divided by the
   * largest coordinate on its axis. The array holds x, y pairs, and when it
   * holds any its largest x and largest y are positive.
   */
  method LoadBoltPoints(pts: array<int>) returns (r: array<real>)
    requires pts.Length % 2 == 0
    requires 0 < pts.Length ==> 0 < CoordMax(pts[..], 0) && 0 < CoordMax(pts[..], 1)
    ensures fresh(r) && r.Length == pts.Length
    ensures forall k :: 0 <= k < r.Length / 2 ==>
      && r[2 * k] == pts[2 * k] as real / CoordMax(pts[..], 0) as real
      && r[2 * k + 1] == pts[2 * k + 1] as real / CoordMax(pts[..], 1) as real
    ensures forall k :: 0 <= k < r.Length / 2 ==>
      && (0 <= pts[2 * k] ==> 0.0 <= r[2 * k] <= 1.0)
      && (0 <= pts[2 * k + 1] ==> 0.0 <= r[2 * k + 1] <= 1.0)
  {
    var maxX, maxY := AxisMaxima(pts);
    if pts.Length == 0 {
      r := new real[0];
      return;
    }
    r := DivideByMaxima(pts, maxX, maxY);
    CoordMaxBounds(pts[..], 0);
    CoordMaxBounds(pts[..], 1);
    forall k | 0 <= k < r.Length / 2
      ensures 0 <= pts[2 * k] ==> 0.0 <= r[2 * k] <= 1.0
      ensures 0 <= pts[2 * k + 1] ==> 0.0 <= r[2 * k + 1] <= 1.0
    {
      if 0 <= pts[2 * k] {
        NormalisedWithin(pts[2 * k], maxX);
      }
      if 0 <= pts[2 * k + 1] {
        NormalisedWithin(pts[2 * k + 1], maxY);
      }
    }
  }

  /** A normalised point placed in a frame. */
  function Place(frame: Rect, fx: real, fy: real): Point {
    Point(frame.left + fx * frame.Width(), frame.top + fy * frame.Height())
  }

  /** Every normalised x, y pair of `pts` placed in the frame, in order. */
  function PlacedPoints(frame: Rect, pts: seq<real>): seq<Point>
    requires |pts| % 2 == 0
    decreases |pts|
  {
    if |pts| == 0 then []
    else PlacedPoints(frame, pts[..|pts| - 2]) + [Place(frame, pts[|pts| - 2], pts[|pts| - 1])]
  }

  lemma {:induction false} PlacedPointsShape(frame: Rect, pts: seq<real>)
    requires |pts| % 2 == 0
    ensures |PlacedPoints(frame, pts)| == |pts| / 2
    ensures forall i :: 0 <= i < |pts| / 2 ==> PlacedPoints(frame, pts)[i] == Place(frame, pts[2 * i], pts[2 * i + 1])
    decreases |pts|
  {
    if |pts| > 0 {
      var init := pts[..|pts| - 2];
      PlacedPointsShape(frame, init);
      forall i | 0 <= i < |pts| / 2
        ensures PlacedPoints(frame, pts)[i] == Place(frame, pts[2 * i], pts[2 * i + 1])
      {
        if i < |init| / 2 {
          assert init[2 * i] == pts[2 * i] && init[2 * i + 1] == pts[2 * i + 1];
        }
      }
    }
  }

  /**
   * The bolt as a closed polyline: every normalised point placed in the
   * frame, then the first point again.
   */
  function BoltPolyline(frame: Rect, pts: seq<real>): seq<Point>
    requires 2 <= |pts| && |pts| % 2 == 0
  {
    PlacedPoints(frame, pts) + [Place(frame, pts[0], pts[1])]
  }

  /** The bolt polyline visits every point once, in order, and is closed. */
  lemma BoltPolylineShape(frame: Rect, pts: seq<real>)
    requires 2 <= |pts| && |pts| % 2 == 0
    ensures var path := BoltPolyline(frame, pts);
      && |path| == |pts| / 2 + 1
      && path[0] == path[|path| - 1] == Place(frame, pts[0], pts[1])
      && forall i :: 0 <= i < |pts| / 2 ==> path[i] == Place(frame, pts[2 * i], pts[2 * i + 1])
  {
    PlacedPointsShape(frame, pts);
  }

  /** Normalised points keep the whole bolt inside its frame. */
  lemma BoltInsideFrame(frame: Rect, pts: seq<real>)
    requires 2 <= |pts| && |pts| % 2 == 0
    requires 0.0 <= frame.Width() && 0.0 <= frame.Height()
    requires forall i :: 0 <= i < |pts| ==> 0.0 <= pts[i] <= 1.0
    ensures var path := BoltPolyline(frame, pts);
      forall i :: 0 <= i < |path| ==> frame.Contains(path[i])
  {
    var path := BoltPolyline(frame, pts);
    BoltPolylineShape(frame, pts);
    forall i | 0 <= i < |path|
      ensures frame.Contains(path[i])
    {
      var k := if i < |pts| / 2 then i else 0;
      PlaceInside(frame, pts[2 * k], pts[2 * k + 1]);
    }
  }

  lemma PlaceInside(frame: Rect, fx: real, fy: real)
    requires 0.0 <= frame.Width() && 0.0 <= frame.Height()
    requires 0.0 <= fx <= 1.0 && 0.0 <= fy <= 1.0
    ensures frame.Contains(Place(frame, fx, fy))
  {
    var w, h := frame.Width(), frame.Height();
    var x, y := fx * w, fy * h;
    ScaleWithin(fx, frame.left, w);
    ScaleWithin(fy, frame.top, h);
    assert frame.left <= frame.left + x <= frame.right;
    assert frame.top <= frame.top + y <= frame.bottom;
  }

  /**
   * The path the meter builds for the bolt: a move to the first point, a line
   * to each further point in turn, and a closing line back to the first.
   */
  method BuildBoltPath(frame: Rect, pts: seq<real>) returns (path: seq<Point>)
    requires 2 <= |pts| && |pts| % 2 == 0
    ensures path == BoltPolyline(frame, pts)
  {
    path := [Place(frame, pts[0], pts[1])];
    assert path == PlacedPoints(frame, pts[..2]) by {
      assert pts[..2][..0] == [];
    }
    var i := 2;
    while i < |pts|
      invariant 2 <= i <= |pts| && i % 2 == 0
      invariant path == PlacedPoints(frame, pts[..i])
    {
      assert pts[..i + 2][..i] == pts[..i];
      path := path + [Place(frame, pts[i], pts[i + 1])];
      i := i + 2;
    }
    assert pts[..i] == pts;
    path := path + [Place(frame, pts[0], pts[1])];
    assert path == BoltPolyline(frame, pts);
  }
}
