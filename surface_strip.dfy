/** `SurfaceStrip`: a cylindrical or conical surface trimmed by a closed
    contour drawn on its unfolded (2D) representation. The mesh geometry of
    the base surface and the unfold bounds come from three.js and are
    parameters here. */
module Strips {
  import opened Geometry
  import opened Curves

  /** Inset of the default contour from the unfold bounds. */
  const DefaultContourMargin: real := 0.1
  /** Inset used when a dragged point is constrained to the unfold bounds. */
  const ConstrainMargin: real := 0.05
  /** `isPointInsideContour` samples the contour with `getPoints(200)`. */
  const ContourSampleCount: nat := 200

  // ---------------------------------------------------------------------------
  // Even-odd ray casting (isPointInsideContour)
  // ---------------------------------------------------------------------------

  /** Does the polygon edge from `a` (vertex i) to `b` (vertex j) cross the
      ray going right from `p`? The division is only reached when the edge
      straddles `p.y`, so `a.y != b.y` there. */
  predicate Crosses(a: Vec2, b: Vec2, p: Vec2) {
    (a.y > p.y) != (b.y > p.y) && p.x < CrossingX(a, b, p)
  }

  /** Where the line through `a` and `b` meets the horizontal line through `p`. */
  function CrossingX(a: Vec2, b: Vec2, p: Vec2): real
    requires a.y != b.y
  {
    (b.x - a.x) * (p.y - a.y) / (b.y - a.y) + a.x
  }

  /** The loop's `j`: the vertex before `i`, wrapping from the first to the last. */
  function Prev(i: nat, n: nat): nat
    requires i < n
  {
    if i == 0 then n - 1 else i - 1
  }

  /** How many of the first `k` edges (vertex i paired with vertex i - 1,
      edge 0 being the wrap edge from the last vertex) cross the ray. */
  function Crossings(poly: seq<Vec2>, p: Vec2, k: nat): (c: nat)
    requires k <= |poly|
    ensures c <= k
  {
    if k == 0 then 0
    else Crossings(poly, p, k - 1) + if Crosses(poly[k - 1], poly[Prev(k - 1, |poly|)], p) then 1 else 0
  }

  /** The even-odd rule: inside when an odd number of edges cross the ray. */
  predicate InsidePolygon(poly: seq<Vec2>, p: Vec2) {
    Crossings(poly, p, |poly|) % 2 == 1
  }

  /** The ray-casting loop of `isPointInsideContour`, over an explicit polygon. */
  method RayCast(poly: seq<Vec2>, p: Vec2) returns (isInside: bool)
    ensures isInside == InsidePolygon(poly, p)
  {
    isInside := false;
    var i, j := 0, |poly| - 1;
    while i < |poly|
      invariant 0 <= i <= |poly|
      invariant j == if i == 0 then |poly| - 1 else i - 1
      invariant isInside == (Crossings(poly, p, i) % 2 == 1)
    {
      var intersect := Crosses(poly[i], poly[j], p);
      if intersect {
        isInside := !isInside;
      }
      j, i := i, i + 1;
    }
  }

  /** No edge crosses the ray of a point lying on or above every vertex, or
      below every vertex. */
  lemma {:induction false} NoCrossingsOutsideRows(poly: seq<Vec2>, p: Vec2, k: nat)
    requires k <= |poly|
    requires (forall i :: 0 <= i < |poly| ==> poly[i].y <= p.y) || (forall i :: 0 <= i < |poly| ==> poly[i].y > p.y)
    ensures Crossings(poly, p, k) == 0
  {
    if k > 0 {
      NoCrossingsOutsideRows(poly, p, k - 1);
    }
  }

  /** No edge crosses the ray of a point lying on or right of every vertex. */
  lemma {:induction false} NoCrossingsRightOf(poly: seq<Vec2>, p: Vec2, k: nat)
    requires k <= |poly|
    requires forall i :: 0 <= i < |poly| ==> poly[i].x <= p.x
    ensures Crossings(poly, p, k) == 0
  {
    if k > 0 {
      NoCrossingsRightOf(poly, p, k - 1);
      var a, b := poly[k - 1], poly[Prev(k - 1, |poly|)];
      if (a.y > p.y) != (b.y > p.y) {
        CrossingBetween(a, b, p);
      }
    }
  }

  /** Where a straddling edge meets the ray's line, x lies between the edge's ends. */
  lemma CrossingBetween(a: Vec2, b: Vec2, p: Vec2)
    requires (a.y > p.y) != (b.y > p.y)
    ensures CrossingX(a, b, p) <= Max(a.x, b.x)
  {
    var dx, dy, e := b.x - a.x, b.y - a.y, p.y - a.y;
    var frac := e / dy;
    assert 0.0 <= frac <= 1.0 by {
      if a.y > p.y {
        DivUnit(-e, -dy);
        assert frac == (-e) / (-dy);
      } else {
        DivUnit(e, dy);
      }
    }
    MulDiv(dx, e, dy);
    assert CrossingX(a, b, p) == dx * frac + a.x;
    if dx >= 0.0 {
      MulBound(frac, dx);
    } else {
      MulBound(frac, -dx);
    }
  }

  lemma MulDiv(x: real, e: real, d: real)
    requires d != 0.0
    ensures x * e / d == x * (e / d)
  {
  }

  lemma DivUnit(num: real, den: real)
    requires 0.0 <= num <= den && den > 0.0
    ensures 0.0 <= num / den <= 1.0
  {
  }

  /** A point above, below or right of the control points' bounding box is
      outside the contour: the 201 samples stay inside that box. */
  lemma OutsideContourBox(pts: seq<Vec2>, closed: bool, p: Vec2)
    requires |pts| > 0
    requires var b := BoundingBox(pts); p.y >= b.max.y || p.y < b.min.y || p.x >= b.max.x
    ensures !InsidePolygon(Samples(pts, closed, ContourSampleCount), p)
  {
    var b := BoundingBox(pts);
    var poly := Samples(pts, closed, ContourSampleCount);
    forall i | 0 <= i < |poly| ensures InsideBounds(poly[i], b) {
      GetPointInBox(pts, closed, i as real / ContourSampleCount as real, b);
    }
    if p.x >= b.max.x {
      NoCrossingsRightOf(poly, p, |poly|);
    } else {
      NoCrossingsOutsideRows(poly, p, |poly|);
    }
  }

  // ---------------------------------------------------------------------------
  // Vertex-mask culling and index-buffer compaction (_applyStripContourToMesh)
  // ---------------------------------------------------------------------------

  /** A BufferGeometry: three coordinates per vertex and an optional index buffer. */
  datatype MeshData = MeshData(positions: seq<real>, indices: Option<seq<int>>)

  /** What `_applyStripContourToMesh` returns: the input mesh itself, a new
      empty mesh, a new trimmed mesh, or the TypeError thrown for cylindrical
      surfaces (no surface class defines `getBaseCurve`). */
  datatype TrimResult =
    | Unchanged
    | Emptied
    | Trimmed(mesh: MeshData)
    | BaseCurveMissing

  /** A well-formed triangle mesh: whole vertices and whole triangles whose
      indices name existing vertices. */
  predicate WellFormed(positions: seq<real>, indices: seq<int>) {
    |positions| % 3 == 0 && |indices| % 3 == 0 &&
    forall q :: 0 <= q < |indices| ==> 0 <= indices[q] < |positions| / 3
  }

  /** How many vertices the mask keeps. */
  function CountKept(mask: seq<bool>): (n: nat)
    ensures n <= |mask|
  {
    if |mask| == 0 then 0
    else CountKept(mask[..|mask| - 1]) + if mask[|mask| - 1] then 1 else 0
  }

  /** The new index of vertex `v`: the number of kept vertices before it. */
  function Rank(mask: seq<bool>, v: nat): nat
    requires v <= |mask|
  {
    CountKept(mask[..v])
  }

  /** The coordinates of the kept vertices among the first `k`, in order. */
  function KeptPositions(positions: seq<real>, mask: seq<bool>, k: nat): seq<real>
    requires k <= |mask| && |positions| == 3 * |mask|
  {
    if k == 0 then []
    else KeptPositions(positions, mask, k - 1) +
         if mask[k - 1] then positions[3 * (k - 1) .. 3 * k] else []
  }

  /** The first `t` triangles, keeping those whose three vertices are all kept
      and renumbering their vertices by rank. */
  function RemapTriangles(indices: seq<int>, mask: seq<bool>, t: nat): seq<int>
    requires 3 * t <= |indices|
    requires forall q :: 0 <= q < |indices| ==> 0 <= indices[q] < |mask|
  {
    if t == 0 then []
    else
      var i0, i1, i2 := indices[3 * (t - 1)], indices[3 * (t - 1) + 1], indices[3 * (t - 1) + 2];
      RemapTriangles(indices, mask, t - 1) +
      if mask[i0] && mask[i1] && mask[i2] then [Rank(mask, i0), Rank(mask, i1), Rank(mask, i2)] else []
  }

  /** The result of trimming a well-formed mesh with a vertex mask: the input
      mesh when every vertex is kept, an empty mesh when none is, and otherwise
      the compacted mesh (with no index buffer when no triangle survives). */
  function Trim(positions: seq<real>, indices: seq<int>, mask: seq<bool>): TrimResult
    requires |positions| == 3 * |mask| && WellFormed(positions, indices)
  {
    var kept := CountKept(mask);
    if kept == |mask| then Unchanged
    else if kept == 0 then Emptied
    else
      var newIndices := RemapTriangles(indices, mask, |indices| / 3);
      Trimmed(MeshData(KeptPositions(positions, mask, |mask|), if |newIndices| > 0 then Some(newIndices) else None))
  }

  lemma CountKeptPrefix(mask: seq<bool>, k: nat)
    requires k < |mask|
    ensures CountKept(mask[..k + 1]) == CountKept(mask[..k]) + if mask[k] then 1 else 0
  {
    assert mask[..k + 1][..k] == mask[..k];
  }

  /** Each kept vertex contributes exactly its three coordinates. */
  lemma {:induction false} KeptPositionsLength(positions: seq<real>, mask: seq<bool>, k: nat)
    requires k <= |mask| && |positions| == 3 * |mask|
    ensures |KeptPositions(positions, mask, k)| == 3 * Rank(mask, k)
  {
    if k > 0 {
      KeptPositionsLength(positions, mask, k - 1);
      CountKeptPrefix(mask, k - 1);
    }
  }

  /** Kept vertices get new indices in their original order. */
  lemma {:induction false} RankIncreasing(mask: seq<bool>, v: nat, w: nat)
    requires v < w <= |mask| && mask[v]
    ensures Rank(mask, v) < Rank(mask, w)
  {
    CountKeptPrefix(mask, w - 1);
    if v < w - 1 {
      RankIncreasing(mask, v, w - 1);
    }
  }

  /** The new vertex `Rank(v)` of the compacted buffer has the coordinates of
      the old vertex `v`. */
  lemma {:induction false} KeptPositionsAt(positions: seq<real>, mask: seq<bool>, k: nat, v: nat, c: nat)
    requires k <= |mask| && |positions| == 3 * |mask|
    requires v < k && mask[v] && c < 3
    ensures 3 * Rank(mask, v) + c < |KeptPositions(positions, mask, k)|
    ensures KeptPositions(positions, mask, k)[3 * Rank(mask, v) + c] == positions[3 * v + c]
  {
    KeptPositionsLength(positions, mask, k - 1);
    KeptPositionsLength(positions, mask, k);
    if v < k - 1 {
      KeptPositionsAt(positions, mask, k - 1, v, c);
      RankIncreasing(mask, v, k - 1);
    } else {
      assert KeptPositions(positions, mask, k) ==
        KeptPositions(positions, mask, k - 1) + positions[3 * v .. 3 * v + 3];
    }
  }

  /** Every index of the compacted index buffer is the new index of a kept
      vertex, hence below the number of kept vertices; the buffer still holds
      whole triangles and never more than the input. */
  lemma {:induction false} RemapTrianglesSound(indices: seq<int>, mask: seq<bool>, t: nat)
    requires 3 * t <= |indices|
    requires forall q :: 0 <= q < |indices| ==> 0 <= indices[q] < |mask|
    ensures var r := RemapTriangles(indices, mask, t);
            && |r| % 3 == 0 && |r| <= 3 * t
            && (forall q :: 0 <= q < |r| ==> exists v :: 0 <= v < |mask| && mask[v] && r[q] == Rank(mask, v))
            && (forall q :: 0 <= q < |r| ==> 0 <= r[q] < CountKept(mask))
  {
    if t > 0 {
      RemapTrianglesSound(indices, mask, t - 1);
      var r := RemapTriangles(indices, mask, t);
      forall q | 0 <= q < |r| ensures 0 <= r[q] < CountKept(mask) {
        var v :| 0 <= v < |mask| && mask[v] && r[q] == Rank(mask, v);
        RankIncreasing(mask, v, |mask|);
        assert mask[..|mask|] == mask;
      }
    }
  }

  /** One step of the coordinate-copying loop. */
  lemma KeptPositionsStep(positions: seq<real>, mask: seq<bool>, i: nat)
    requires i < |mask| && |positions| == 3 * |mask|
    ensures KeptPositions(positions, mask, i + 1) == KeptPositions(positions, mask, i) +
      if mask[i] then [positions[i * 3], positions[i * 3 + 1], positions[i * 3 + 2]] else []
  {
    if mask[i] {
      assert positions[3 * i .. 3 * (i + 1)] == [positions[i * 3], positions[i * 3 + 1], positions[i * 3 + 2]];
    }
  }

  /** One step of the triangle loop. */
  lemma RemapStep(indices: seq<int>, mask: seq<bool>, t: nat)
    requires 3 * t + 3 <= |indices|
    requires forall q :: 0 <= q < |indices| ==> 0 <= indices[q] < |mask|
    ensures var i0, i1, i2 := indices[3 * t], indices[3 * t + 1], indices[3 * t + 2];
            RemapTriangles(indices, mask, t + 1) == RemapTriangles(indices, mask, t) +
              if mask[i0] && mask[i1] && mask[i2] then [Rank(mask, i0), Rank(mask, i1), Rank(mask, i2)] else []
  {
  }

  /** The compaction loops of `_applyStripContourToMesh`: `indexMap` (an
      Int32Array) gives kept vertices their new index and dropped ones -1, the
      kept coordinates are pushed in order, and so are the renumbered
      triangles whose three vertices are kept. */
  method Compact(positions: seq<real>, indices: seq<int>, mask: seq<bool>)
    returns (indexMap: seq<int>, newPositions: seq<real>, newIndices: seq<int>)
    requires |positions| == 3 * |mask| && WellFormed(positions, indices)
    ensures |indexMap| == |mask|
    ensures forall v :: 0 <= v < |mask| ==> indexMap[v] == if mask[v] then Rank(mask, v) else -1
    ensures newPositions == KeptPositions(positions, mask, |mask|)
    ensures newIndices == RemapTriangles(indices, mask, |indices| / 3)
  {
    var vertexCount := |mask|;
    var indexArray := new int[vertexCount];
    newPositions := [];
    var newVertexCount := 0;
    var i := 0;
    while i < vertexCount
      invariant 0 <= i <= vertexCount
      invariant newVertexCount == Rank(mask, i)
      invariant newPositions == KeptPositions(positions, mask, i)
      invariant forall v :: 0 <= v < i ==> indexArray[v] == if mask[v] then Rank(mask, v) else -1
    {
      CountKeptPrefix(mask, i);
      KeptPositionsStep(positions, mask, i);
      if mask[i] {
        indexArray[i] := newVertexCount;
        newPositions := newPositions + [positions[i * 3]];
        newPositions := newPositions + [positions[i * 3 + 1]];
        newPositions := newPositions + [positions[i * 3 + 2]];
        newVertexCount := newVertexCount + 1;
      } else {
        indexArray[i] := -1;
      }
      i := i + 1;
    }
    indexMap := indexArray[..];
    newIndices := RemapIndices(indices, mask, indexMap);
  }

  /** The triangle loop of the compaction: walks the index buffer three at a
      time and keeps a triangle, renumbered through `indexMap`, when none of
      its vertices maps to -1. */
  method RemapIndices(indices: seq<int>, mask: seq<bool>, indexMap: seq<int>) returns (newIndices: seq<int>)
    requires |indices| % 3 == 0 && forall q :: 0 <= q < |indices| ==> 0 <= indices[q] < |mask|
    requires |indexMap| == |mask|
    requires forall v :: 0 <= v < |mask| ==> indexMap[v] == if mask[v] then Rank(mask, v) else -1
    ensures newIndices == RemapTriangles(indices, mask, |indices| / 3)
  {
    newIndices := [];
    var q := 0;
    ghost var t := 0;
    while q < |indices|
      invariant q == 3 * t && q <= |indices|
      invariant newIndices == RemapTriangles(indices, mask, t)
    {
      var i0, i1, i2 := indices[q], indices[q + 1], indices[q + 2];
      RemapStep(indices, mask, t);
      if indexMap[i0] != -1 && indexMap[i1] != -1 && indexMap[i2] != -1 {
        newIndices := newIndices + [indexMap[i0]];
        newIndices := newIndices + [indexMap[i1]];
        newIndices := newIndices + [indexMap[i2]];
      }
      q, t := q + 3, t + 1;
    }
  }

  /** The counting loop and the case split after the mask is known. */
  method TrimWithMask(positions: seq<real>, indices: seq<int>, mask: seq<bool>) returns (r: TrimResult)
    requires |positions| == 3 * |mask| && WellFormed(positions, indices)
    ensures r == Trim(positions, indices, mask)
  {
    var vertexCount := |mask|;
    var remainingVertexCount := 0;
    var i := 0;
    while i < vertexCount
      invariant 0 <= i <= vertexCount
      invariant remainingVertexCount == Rank(mask, i)
    {
      CountKeptPrefix(mask, i);
      if mask[i] {
        remainingVertexCount := remainingVertexCount + 1;
      }
      i := i + 1;
    }
    assert mask[..vertexCount] == mask;
    if remainingVertexCount == vertexCount {
      return Unchanged;
    }
    if remainingVertexCount == 0 {
      return Emptied;
    }
    var _, newPositions, newIndices := Compact(positions, indices, mask);
    r := Trimmed(MeshData(newPositions, if |newIndices| > 0 then Some(newIndices) else None));
  }

  /** The mask a conical strip computes. Its perimeter stays 0 (only the
      cylindrical branch measures one), so every vertex unfolds to x = 0 and
      y + height / 2; without a numeric height the sum is NaN and no vertex
      is inside. */
  function ConicalMask(positions: seq<real>, contour: seq<Vec2>, height: Option<real>): (mask: seq<bool>)
    requires |positions| % 3 == 0
    ensures |mask| == |positions| / 3
  {
    seq(|positions| / 3, v requires 0 <= v < |positions| / 3 =>
      height.Some? && InsidePolygon(contour, Vec2(0.0, positions[3 * v + 1] + height.value / 2.0)))
  }

  /** The `height` entry of the surface parameters, when it is a number. */
  function Height(params: Params): Option<real> {
    if "height" in params && params["height"].Num? then Some(params["height"].n) else None
  }

  // ---------------------------------------------------------------------------
  // Unfold bounds, default contour
  // ---------------------------------------------------------------------------

  /** `constrainPointToUnfoldBounds`: each coordinate clamped to
      [min + 0.05, max - 0.05], the lower bound winning when that range is empty. */
  function ConstrainPointToUnfoldBounds(p: Vec2, b: Box): (r: Vec2)
    ensures b.min.x + ConstrainMargin <= r.x && b.min.y + ConstrainMargin <= r.y
    ensures b.max.x - ConstrainMargin >= b.min.x + ConstrainMargin ==> r.x <= b.max.x - ConstrainMargin
    ensures b.max.y - ConstrainMargin >= b.min.y + ConstrainMargin ==> r.y <= b.max.y - ConstrainMargin
    ensures b.min.x + ConstrainMargin <= p.x <= b.max.x - ConstrainMargin ==> r.x == p.x
    ensures b.min.y + ConstrainMargin <= p.y <= b.max.y - ConstrainMargin ==> r.y == p.y
    ensures p.x < b.min.x + ConstrainMargin || b.max.x - ConstrainMargin < b.min.x + ConstrainMargin ==> r.x == b.min.x + ConstrainMargin
    ensures b.min.x + ConstrainMargin <= b.max.x - ConstrainMargin < p.x ==> r.x == b.max.x - ConstrainMargin
    ensures p.y < b.min.y + ConstrainMargin || b.max.y - ConstrainMargin < b.min.y + ConstrainMargin ==> r.y == b.min.y + ConstrainMargin
    ensures b.min.y + ConstrainMargin <= b.max.y - ConstrainMargin < p.y ==> r.y == b.max.y - ConstrainMargin
  {
    Vec2(Max(b.min.x + ConstrainMargin, Min(p.x, b.max.x - ConstrainMargin)),
         Max(b.min.y + ConstrainMargin, Min(p.y, b.max.y - ConstrainMargin)))
  }

  /** Constraining twice is constraining once. */
  lemma ConstrainIdempotent(p: Vec2, b: Box)
    ensures ConstrainPointToUnfoldBounds(ConstrainPointToUnfoldBounds(p, b), b) == ConstrainPointToUnfoldBounds(p, b)
  {
    var r := ConstrainPointToUnfoldBounds(p, b);
    if b.max.x - ConstrainMargin < b.min.x + ConstrainMargin {
      assert r.x == b.min.x + ConstrainMargin;
    }
    if b.max.y - ConstrainMargin < b.min.y + ConstrainMargin {
      assert r.y == b.min.y + ConstrainMargin;
    }
  }

  /** When the bounds are at least 0.1 wide and high, a constrained point
      passes the (inclusive) `isPointInsideUnfoldBounds` test. */
  lemma ConstrainedIsInside(p: Vec2, b: Box)
    requires b.Width() >= 2.0 * ConstrainMargin && b.Height() >= 2.0 * ConstrainMargin
    ensures InsideBounds(ConstrainPointToUnfoldBounds(p, b), b)
  {
  }

  /** `_createDefaultStripContour`: a closed rectangle of four corners inset by
      0.1 from the unfold bounds, in the order (min, min), (max, min),
      (max, max), (min, max); consecutive corners (the wrap pair too) share
      one coordinate. All three branches of the source build the same one. */
  function DefaultStripContour(b: Box): (c: CurveData)
    ensures |c.controlPoints| == 4 && c.closed
    ensures var p := c.controlPoints;
            p[0].y == p[1].y && p[1].x == p[2].x && p[2].y == p[3].y && p[3].x == p[0].x
    ensures c.controlPoints[0] == Vec2(b.min.x + DefaultContourMargin, b.min.y + DefaultContourMargin)
    ensures c.controlPoints[2] == Vec2(b.max.x - DefaultContourMargin, b.max.y - DefaultContourMargin)
  {
    var m := DefaultContourMargin;
    CurveData([Vec2(b.min.x + m, b.min.y + m), Vec2(b.max.x - m, b.min.y + m),
               Vec2(b.max.x - m, b.max.y - m), Vec2(b.min.x + m, b.max.y - m)], true)
  }

  /** On bounds at least 0.2 wide and high, the default contour's bounding
      box is the unfold bounds inset by 0.1 on every side. */
  lemma DefaultContourIsInset(b: Box)
    requires b.Width() >= 2.0 * DefaultContourMargin && b.Height() >= 2.0 * DefaultContourMargin
    ensures var m := DefaultContourMargin;
            BoundingBox(DefaultStripContour(b).controlPoints) ==
              Box(Vec2(b.min.x + m, b.min.y + m), Vec2(b.max.x - m, b.max.y - m))
  {
    var pts := DefaultStripContour(b).controlPoints;
    var bb := BoundingBox(pts);
    var m := DefaultContourMargin;
    assert forall i :: 0 <= i < 4 ==> pts[i].x == b.min.x + m || pts[i].x == b.max.x - m;
    assert forall i :: 0 <= i < 4 ==> pts[i].y == b.min.y + m || pts[i].y == b.max.y - m;
    assert InsideBounds(pts[0], bb) && InsideBounds(pts[2], bb);
  }

  // ---------------------------------------------------------------------------
  // The strip object
  // ---------------------------------------------------------------------------

  predicate KnownSurfaceType(surfaceType: string) {
    surfaceType == "cylindrical" || surfaceType == "conical"
  }

  /** The contour argument of the constructor and of `setStripContour`: a
      BezierCurve instance, curve JSON, or nothing (null/undefined). */
  datatype ContourArg = NoContour | CurveObject(curve: BezierCurve) | CurveJson(data: CurveData)

  /** `toJSON()`'s record `{ type, surfaceType, surfaceParams, stripContourData }`. */
  datatype StripData = StripData(kind: string, surfaceType: string, surfaceParams: Params,
                                 stripContourData: Option<CurveData>)

  class SurfaceStrip {
    var surfaceType: string
    var surfaceParams: Params
    var stripContour: BezierCurve

    /** `unfold` stands for the bounding box of the base surface's unfold,
        used only for the default contour. An unknown surface type throws
        when that default is built. */
    constructor (surfaceType: string, surfaceParams: Params, contour: ContourArg, unfold: Box)
      requires contour.NoContour? ==> KnownSurfaceType(surfaceType)
      ensures this.surfaceType == surfaceType && this.surfaceParams == surfaceParams
      ensures fresh(stripContour)
      ensures contour.CurveObject? ==> stripContour.ToJSON() == old(contour.curve.ToJSON())
      ensures contour.CurveJson? ==> stripContour.ToJSON() == contour.data
      ensures contour.NoContour? ==> stripContour.ToJSON() == DefaultStripContour(unfold)
    {
      this.surfaceType := surfaceType;
      this.surfaceParams := surfaceParams;
      var curve: BezierCurve;
      match contour {
        case CurveObject(c) =>
          curve := c.Clone();
        case CurveJson(data) =>
          curve := BezierCurve.FromJSON(data);
        case NoContour =>
          curve := BezierCurve.FromJSON(DefaultStripContour(unfold));
      }
      stripContour := curve;
    }

    /** `toJSON`. */
    function ToJSON(): (d: StripData)
      reads this, stripContour
      ensures d.kind == "strip" && d.surfaceType == surfaceType && d.surfaceParams == surfaceParams
      ensures d.stripContourData == Some(stripContour.ToJSON())
    {
      StripData("strip", surfaceType, surfaceParams, Some(stripContour.ToJSON()))
    }

    /** `fromJSON`: rebuilds a strip whose `toJSON` is the record it came from. */
    static method FromJSON(data: StripData, unfold: Box) returns (s: SurfaceStrip)
      requires data.stripContourData.None? ==> KnownSurfaceType(data.surfaceType)
      ensures fresh(s) && fresh(s.stripContour)
      ensures s.surfaceType == data.surfaceType && s.surfaceParams == data.surfaceParams
      ensures data.stripContourData.Some? ==> s.stripContour.ToJSON() == data.stripContourData.value
      ensures data.kind == "strip" && data.stripContourData.Some? ==> s.ToJSON() == data
    {
      var arg := if data.stripContourData.Some? then CurveJson(data.stripContourData.value) else NoContour;
      s := new SurfaceStrip(data.surfaceType, data.surfaceParams, arg, unfold);
    }

    /** `getStripContour`: a copy, so the caller cannot change the strip's contour. */
    method GetStripContour() returns (c: BezierCurve)
      ensures fresh(c) && c.ToJSON() == stripContour.ToJSON()
    {
      c := stripContour.Clone();
    }

    /** `setStripContour`: copies a curve or parses JSON; nothing changes for a
        missing argument. */
    method SetStripContour(contour: ContourArg)
      modifies this
      ensures surfaceType == old(surfaceType) && surfaceParams == old(surfaceParams)
      ensures contour.NoContour? ==> stripContour == old(stripContour)
      ensures contour.CurveObject? ==> fresh(stripContour) && stripContour.ToJSON() == old(contour.curve.ToJSON())
      ensures contour.CurveJson? ==> fresh(stripContour) && stripContour.ToJSON() == contour.data
    {
      match contour
      case CurveObject(c) =>
        stripContour := c.Clone();
      case CurveJson(data) =>
        stripContour := BezierCurve.FromJSON(data);
      case NoContour =>
    }

    /** `isPointInsideContour`: even-odd test against the 201 contour samples. */
    method IsPointInsideContour(point: Vec2) returns (isInside: bool)
      requires |stripContour.controlPoints| > 0
      ensures isInside ==
        InsidePolygon(Samples(stripContour.controlPoints, stripContour.closed, ContourSampleCount), point)
    {
      var contourPoints := stripContour.GetPoints(ContourSampleCount);
      isInside := RayCast(contourPoints, point);
    }

    /** `_applyStripContourToMesh`. Other surface types and meshes without
        vertices or without an index buffer come back unchanged; a cylindrical
        strip throws at `getBaseCurve`; a conical one is trimmed with its mask. */
    method ApplyStripContourToMesh(mesh: MeshData) returns (r: TrimResult)
      requires surfaceType == "conical" && |mesh.positions| > 0 && mesh.indices.Some? ==> |stripContour.controlPoints| > 0
      requires mesh.indices.Some? ==> WellFormed(mesh.positions, mesh.indices.value)
      requires |mesh.positions| % 3 == 0
      ensures !KnownSurfaceType(surfaceType) ==> r == Unchanged
      ensures KnownSurfaceType(surfaceType) && (|mesh.positions| == 0 || mesh.indices.None?) ==> r == Unchanged
      ensures surfaceType == "cylindrical" && |mesh.positions| > 0 && mesh.indices.Some? ==> r == BaseCurveMissing
      ensures surfaceType == "conical" && |mesh.positions| > 0 && mesh.indices.Some? ==>
        r == Trim(mesh.positions, mesh.indices.value,
                  ConicalMask(mesh.positions,
                              Samples(stripContour.controlPoints, stripContour.closed, ContourSampleCount),
                              Height(surfaceParams)))
    {
      if !KnownSurfaceType(surfaceType) {
        return Unchanged;
      }
      var vertexCount := |mesh.positions| / 3;
      if vertexCount == 0 || mesh.indices.None? {
        return Unchanged;
      }
      if surfaceType == "cylindrical" {
        return BaseCurveMissing;
      }
      var height := Height(surfaceParams);
      ghost var samples := Samples(stripContour.controlPoints, stripContour.closed, ContourSampleCount);
      var vertexMask := new bool[vertexCount];
      var i := 0;
      while i < vertexCount
        invariant 0 <= i <= vertexCount
        invariant forall v :: 0 <= v < i ==> vertexMask[v] == ConicalMask(mesh.positions, samples, height)[v]
      {
        var inside := false;
        if height.Some? {
          var unfoldY := mesh.positions[i * 3 + 1] + height.value / 2.0;
          inside := IsPointInsideContour(Vec2(0.0, unfoldY));
        }
        vertexMask[i] := inside;
        i := i + 1;
      }
      assert vertexMask[..] == ConicalMask(mesh.positions, samples, height);
      r := TrimWithMask(mesh.positions, mesh.indices.value, vertexMask[..]);
    }
  }
}
