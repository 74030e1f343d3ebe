/** The editable 2D path of the editor (`BezierCurve`). Despite its name it is
    a piecewise-linear path through its control points; a closed path also
    runs from the last point back to the first. */
module Curves {
  import opened Geometry

  /** `_quadraticBezier`: the point at fraction `s` of the way from `p0` to `p1`. */
  function Lerp(p0: Vec2, p1: Vec2, s: real): (r: Vec2)
    ensures s == 0.0 ==> r == p0
    ensures s == 1.0 ==> r == p1
    ensures 0.0 <= s <= 1.0 ==>
      Min(p0.x, p1.x) <= r.x <= Max(p0.x, p1.x) && Min(p0.y, p1.y) <= r.y <= Max(p0.y, p1.y)
  {
    var r := Vec2((1.0 - s) * p0.x + s * p1.x, (1.0 - s) * p0.y + s * p1.y);
    if 0.0 <= s <= 1.0 then
      LerpBetween(p0.x, p1.x, s);
      LerpBetween(p0.y, p1.y, s);
      r
    else r
  }

  lemma LerpBetween(a: real, b: real, s: real)
    requires 0.0 <= s <= 1.0
    ensures Min(a, b) <= (1.0 - s) * a + s * b <= Max(a, b)
  {
    var u := 1.0 - s;
    if a <= b {
      var d := b - a;
      MulBound(u, d);
      assert (1.0 - s) * a + s * b == b - u * d;
    } else {
      var d := a - b;
      MulBound(u, d);
      assert (1.0 - s) * a + s * b == b + u * d;
    }
  }

  lemma MulBound(s: real, d: real)
    requires 0.0 <= s <= 1.0 && d >= 0.0
    ensures 0.0 <= s * d <= d
  {
  }

  /** The points the path runs through: a closed path repeats its first point. */
  function PathPoints(pts: seq<Vec2>, closed: bool): (r: seq<Vec2>)
    requires |pts| > 0
    ensures |r| == if closed then |pts| + 1 else |pts|
    ensures r[..|pts|] == pts && r[|r| - 1] == if closed then pts[0] else pts[|pts| - 1]
  {
    if closed then pts + [pts[0]] else pts
  }

  /** `getPoint(t)`. For `t <= 0` the first control point and for `t >= 1` the
      last one (for a closed path too); in between, a point of the path. */
  function GetPoint(pts: seq<Vec2>, closed: bool, t: real): (r: Vec2)
    requires |pts| > 0
    ensures t <= 0.0 ==> r == pts[0]
    ensures t >= 1.0 ==> r == pts[|pts| - 1]
  {
    if t <= 0.0 then pts[0]
    else if t >= 1.0 then pts[|pts| - 1]
    else SegmentPoint(PathPoints(pts, closed), t)
  }

  /** For `0 < t < 1`: segment `floor(t * segs)` of `points`, at the
      fractional remainder of `t * segs`. */
  function SegmentPoint(points: seq<Vec2>, t: real): Vec2
    requires |points| > 0 && 0.0 < t < 1.0
  {
    var k := SegmentIndex(t, |points| - 1);
    Lerp(points[k], points[(k + 1) % |points|], SegmentFraction(t, |points| - 1))
  }

  /** `Math.floor(t * segments)` for `0 < t < 1`. */
  function SegmentIndex(t: real, segments: nat): (k: int)
    requires 0.0 < t < 1.0
    ensures 0 <= k && (k < segments || k == segments == 0)
    ensures k as real <= t * segments as real < k as real + 1.0
  {
    ScaledBelow(t, segments);
    FloorRange(t * segments as real, segments);
    (t * segments as real).Floor
  }

  /** `t * segments - Math.floor(t * segments)`, the position within the segment. */
  function SegmentFraction(t: real, segments: nat): (s: real)
    requires 0.0 < t < 1.0
    ensures 0.0 <= s < 1.0
  {
    t * segments as real - SegmentIndex(t, segments) as real
  }

  lemma ScaledBelow(t: real, n: nat)
    requires 0.0 < t < 1.0
    ensures 0.0 <= t * n as real < 1.0 || 0.0 <= t * n as real < n as real
    ensures n == 0 ==> t * n as real == 0.0
  {
  }

  lemma FloorRange(x: real, n: nat)
    requires 0.0 <= x < 1.0 || 0.0 <= x < n as real
    ensures 0 <= x.Floor && (x.Floor < n || x.Floor == n == 0)
    ensures x.Floor as real <= x < x.Floor as real + 1.0
  {
  }

  lemma ModSmall(a: int, m: int)
    requires 0 <= a < m
    ensures a % m == a
  {
  }

  /** Between the ends, GetPoint blends two consecutive path points, with a
      segment index in [0, segs) and a fraction in [0, 1); for a closed path
      the last segment ends at the first control point. */
  lemma GetPointInterior(pts: seq<Vec2>, closed: bool, t: real)
    requires |pts| > 1 || (closed && |pts| > 0)
    requires 0.0 < t < 1.0
    ensures var points := PathPoints(pts, closed);
            var segs := |points| - 1;
            var k := SegmentIndex(t, segs);
            && 0 <= k < segs
            && GetPoint(pts, closed, t) == Lerp(points[k], points[k + 1], SegmentFraction(t, segs))
            && (closed && k == segs - 1 ==> points[k + 1] == pts[0])
  {
    var points := PathPoints(pts, closed);
    var k := SegmentIndex(t, |points| - 1);
    ModSmall(k + 1, |points|);
  }

  /** Every point of the path lies in any box holding all control points. */
  lemma GetPointInBox(pts: seq<Vec2>, closed: bool, t: real, b: Box)
    requires |pts| > 0
    requires forall i :: 0 <= i < |pts| ==> InsideBounds(pts[i], b)
    ensures InsideBounds(GetPoint(pts, closed, t), b)
  {
    if 0.0 < t < 1.0 {
      var points := PathPoints(pts, closed);
      assert forall j :: 0 <= j < |points| ==> InsideBounds(points[j], b) by {
        forall j | 0 <= j < |points| ensures InsideBounds(points[j], b) {
          if j < |pts| {
            assert points[j] == points[..|pts|][j] == pts[j];
          }
        }
      }
    }
  }

  /** `getPoints(n)`: the n + 1 points at t = i / n. */
  function Samples(pts: seq<Vec2>, closed: bool, n: nat): (r: seq<Vec2>)
    requires |pts| > 0 && n > 0
    ensures |r| == n + 1
    ensures forall i :: 0 <= i <= n ==> r[i] == GetPoint(pts, closed, i as real / n as real)
  {
    seq(n + 1, i requires 0 <= i <= n => GetPoint(pts, closed, i as real / n as real))
  }

  /** The samples start at the first control point and end at the last one
      (for a closed curve too, so its sampled polygon need not repeat the
      first point). */
  lemma SamplesEnds(pts: seq<Vec2>, closed: bool, n: nat)
    requires |pts| > 0 && n > 0
    ensures Samples(pts, closed, n)[0] == pts[0]
    ensures Samples(pts, closed, n)[n] == pts[|pts| - 1]
  {
    var r := Samples(pts, closed, n);
    var one := n as real / n as real;
    assert one == 1.0;
    assert r[n] == GetPoint(pts, closed, one);
    var zero := 0 as real / n as real;
    assert zero == 0.0;
    assert r[0] == GetPoint(pts, closed, zero);
  }

  /** The sum of `dist` over consecutive pairs of `ps` (the length of a polyline). */
  function PolylineLength(ps: seq<Vec2>, dist: (Vec2, Vec2) -> real): (r: real)
    requires forall a, b :: dist(a, b) >= 0.0
    ensures r >= 0.0
    ensures |ps| <= 1 ==> r == 0.0
  {
    if |ps| <= 1 then 0.0
    else PolylineLength(ps[..|ps| - 1], dist) + dist(ps[|ps| - 2], ps[|ps| - 1])
  }

  /** The smallest box holding every point of a non-empty sequence. */
  function BoundingBox(pts: seq<Vec2>): (b: Box)
    requires |pts| > 0
    ensures forall i :: 0 <= i < |pts| ==> InsideBounds(pts[i], b)
    ensures exists i :: 0 <= i < |pts| && pts[i].x == b.min.x
    ensures exists i :: 0 <= i < |pts| && pts[i].x == b.max.x
    ensures exists i :: 0 <= i < |pts| && pts[i].y == b.min.y
    ensures exists i :: 0 <= i < |pts| && pts[i].y == b.max.y
  {
    if |pts| == 1 then Box(pts[0], pts[0])
    else
      var b := BoundingBox(pts[..|pts| - 1]);
      var last := pts[|pts| - 1];
      assert forall i :: 0 <= i < |pts| - 1 ==> pts[..|pts| - 1][i] == pts[i];
      Extend(b, last)
  }

  /** One step of the bounding-box loop: widen `b` to cover `p`. */
  function Extend(b: Box, p: Vec2): Box {
    Box(Vec2(Min(b.min.x, p.x), Min(b.min.y, p.y)), Vec2(Max(b.max.x, p.x), Max(b.max.y, p.y)))
  }

  /** `normalize`'s divisor: the larger side of the box, or 1 when both are 0. */
  function NormalizeScale(b: Box): real {
    var m := Max(b.Width(), b.Height());
    if m == 0.0 then 1.0 else m
  }

  /** One control point after `normalize`. */
  function NormalizePoint(p: Vec2, b: Box): Vec2 {
    Vec2((p.x - b.min.x) / NormalizeScale(b), (p.y - b.min.y) / NormalizeScale(b))
  }

  /** All control points after `normalize`: the count is kept and every point
      lands in the unit square. */
  function Normalized(pts: seq<Vec2>): (r: seq<Vec2>)
    requires |pts| > 0
    ensures |r| == |pts|
    ensures forall i :: 0 <= i < |r| ==> 0.0 <= r[i].x <= 1.0 && 0.0 <= r[i].y <= 1.0
  {
    var b := BoundingBox(pts);
    var r := seq(|pts|, i requires 0 <= i < |pts| => NormalizePoint(pts[i], b));
    assert forall i :: 0 <= i < |pts| ==> 0.0 <= r[i].x <= 1.0 && 0.0 <= r[i].y <= 1.0 by {
      forall i | 0 <= i < |pts| ensures 0.0 <= r[i].x <= 1.0 && 0.0 <= r[i].y <= 1.0 {
        UnitFraction(pts[i].x - b.min.x, b.Width(), NormalizeScale(b));
        UnitFraction(pts[i].y - b.min.y, b.Height(), NormalizeScale(b));
      }
    }
    r
  }

  /** A sequence that holds, point by point, the normalised control points
      is `Normalized`. */
  lemma NormalizedAt(pts: seq<Vec2>, r: seq<Vec2>)
    requires |pts| > 0 && |r| == |pts|
    requires forall j :: 0 <= j < |pts| ==> r[j] == NormalizePoint(pts[j], BoundingBox(pts))
    ensures r == Normalized(pts)
  {
  }

  lemma UnitFraction(a: real, side: real, scale: real)
    requires 0.0 <= a <= side && scale > 0.0 && (side <= scale || a == 0.0)
    ensures 0.0 <= a / scale <= 1.0
  {
  }

  /** A curve whose control-point list the editor changes in place. */
  class BezierCurve {
    var controlPoints: seq<Vec2>
    var closed: bool

    /** Copies the given points (`controlPoints.map(p => p.clone())`). */
    constructor (controlPoints: seq<Vec2>, closed: bool)
      ensures this.controlPoints == controlPoints && this.closed == closed
    {
      this.controlPoints := controlPoints;
      this.closed := closed;
    }

    /** A new curve with the same points and closed flag and no shared state. */
    method Clone() returns (c: BezierCurve)
      ensures fresh(c) && c.controlPoints == controlPoints && c.closed == closed
    {
      c := new BezierCurve(controlPoints, closed);
    }

    /** `toJSON`. */
    function ToJSON(): (d: CurveData)
      reads this
      ensures d.controlPoints == controlPoints && d.closed == closed
    {
      CurveData(controlPoints, closed)
    }

    /** `fromJSON`: a fresh curve whose `toJSON` gives back `data`. */
    static method FromJSON(data: CurveData) returns (c: BezierCurve)
      ensures fresh(c) && c.ToJSON() == data
    {
      c := new BezierCurve(data.controlPoints, data.closed);
    }

    /** `getPoints(n)`: the accumulator loop over t = i / n. */
    method GetPoints(n: nat) returns (points: seq<Vec2>)
      requires |controlPoints| > 0 && n > 0
      ensures points == Samples(controlPoints, closed, n)
    {
      points := [];
      var i := 0;
      while i <= n
        invariant 0 <= i <= n + 1
        invariant |points| == i
        invariant forall j :: 0 <= j < i ==> points[j] == GetPoint(controlPoints, closed, j as real / n as real)
      {
        points := points + [GetPoint(controlPoints, closed, i as real / n as real)];
        i := i + 1;
      }
    }

    /** `getLength(n)`: the polyline length over the n + 1 samples. The point
        distance (`distanceTo`, a square root) is a parameter. */
    method GetLength(n: nat, dist: (Vec2, Vec2) -> real) returns (length: real)
      requires |controlPoints| > 0
      requires forall a, b :: dist(a, b) >= 0.0
      ensures n == 0 ==> length == 0.0
      ensures n > 0 ==> length == PolylineLength(Samples(controlPoints, closed, n), dist)
      ensures length >= 0.0
    {
      length := 0.0;
      var lastPoint := GetPoint(controlPoints, closed, 0.0);
      if n == 0 {
        return;
      }
      ghost var samples := Samples(controlPoints, closed, n);
      var i := 1;
      while i <= n
        invariant 1 <= i <= n + 1
        invariant lastPoint == samples[i - 1]
        invariant length == PolylineLength(samples[..i], dist)
      {
        var point := GetPoint(controlPoints, closed, i as real / n as real);
        assert samples[..i + 1][..i] == samples[..i];
        length := length + dist(lastPoint, point);
        lastPoint := point;
        i := i + 1;
      }
      assert samples[..n + 1] == samples;
    }

    /** `getBoundingBox`. The source starts from ±Infinity, so its first
        iteration yields the first point's box; the loop here starts there. */
    method GetBoundingBox() returns (b: Box)
      requires |controlPoints| > 0
      ensures b == BoundingBox(controlPoints)
    {
      b := Box(controlPoints[0], controlPoints[0]);
      var i := 1;
      while i < |controlPoints|
        invariant 1 <= i <= |controlPoints|
        invariant b == BoundingBox(controlPoints[..i])
      {
        assert controlPoints[..i + 1][..i] == controlPoints[..i];
        b := Extend(b, controlPoints[i]);
        i := i + 1;
      }
      assert controlPoints[..i] == controlPoints;
    }

    /** `setControlPoint`: moves point `index` when it is in range, else nothing. */
    method SetControlPoint(index: int, newPosition: Vec2)
      modifies this
      ensures closed == old(closed)
      ensures 0 <= index < |old(controlPoints)| ==> controlPoints == old(controlPoints)[index := newPosition]
      ensures !(0 <= index < |old(controlPoints)|) ==> controlPoints == old(controlPoints)
    {
      if 0 <= index < |controlPoints| {
        controlPoints := controlPoints[index := newPosition];
      }
    }

    /** `getControlPoint`: the point at `index`, or null out of range. */
    function GetControlPoint(index: int): (r: Option<Vec2>)
      reads this
      ensures r.Some? <==> 0 <= index < |controlPoints|
      ensures r.Some? ==> r.value == controlPoints[index]
    {
      if 0 <= index < |controlPoints| then Some(controlPoints[index]) else None
    }

    /** `addControlPoint`: appends a copy of `point`. */
    method AddControlPoint(point: Vec2)
      modifies this
      ensures closed == old(closed)
      ensures controlPoints == old(controlPoints) + [point]
    {
      controlPoints := controlPoints + [point];
    }

    /** `removeControlPoint`: deletes point `index` only when it is in range and
        more than two points remain, so a curve never drops below two points. */
    method RemoveControlPoint(index: int)
      modifies this
      ensures closed == old(closed)
      ensures 0 <= index < |old(controlPoints)| && |old(controlPoints)| > 2 ==>
        controlPoints == old(controlPoints)[..index] + old(controlPoints)[index + 1..]
      ensures !(0 <= index < |old(controlPoints)| && |old(controlPoints)| > 2) ==>
        controlPoints == old(controlPoints)
      ensures |old(controlPoints)| >= 2 ==> |controlPoints| >= 2
    {
      if 0 <= index < |controlPoints| && |controlPoints| > 2 {
        controlPoints := controlPoints[..index] + controlPoints[index + 1..];
      }
    }

    /** `getControlPointCount`. */
    function GetControlPointCount(): (n: nat)
      reads this
      ensures n == |controlPoints|
    {
      |controlPoints|
    }

    /** `normalize`: rescales every control point in place into [0, 1]^2; an
        empty curve has no point to move. */
    method Normalize()
      modifies this
      ensures closed == old(closed)
      ensures |old(controlPoints)| == 0 ==> controlPoints == old(controlPoints)
      ensures |old(controlPoints)| > 0 ==> controlPoints == Normalized(old(controlPoints))
    {
      if |controlPoints| == 0 {
        return;
      }
      var bbox := GetBoundingBox();
      ghost var original := controlPoints;
      var i := 0;
      while i < |controlPoints|
        invariant |controlPoints| == |original| && 0 <= i <= |original|
        invariant closed == old(closed)
        invariant forall j :: 0 <= j < i ==> controlPoints[j] == NormalizePoint(original[j], bbox)
        invariant forall j :: i <= j < |original| ==> controlPoints[j] == original[j]
      {
        controlPoints := controlPoints[i := NormalizePoint(controlPoints[i], bbox)];
        i := i + 1;
      }
      NormalizedAt(original, controlPoints);
    }
  }
}
