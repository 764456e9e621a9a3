/** The bounding-box bookkeeping of `Model` in Minimal/Model.h: the two
    min/max scans of `scaleProcess` over the vertex positions, the six
    extreme vertices appended to `boxVertices`, the sixteen corner points
    appended to `boundingbox`, and the `fire` counter.  Coordinates are
    reals compared with `<` and `>` only; the initial `INFINITY` and
    `-INFINITY` of the bounds are the two ends of `Ext`.  The matrix type
    of `toWorld` is the type parameter `M`. */
module BoundingBoxes {

  datatype Point = Point(x: real, y: real, z: real)

  datatype Axis = X | Y | Z

  function Coord(p: Point, a: Axis): real
  {
    match a
    case X => p.x
    case Y => p.y
    case Z => p.z
  }

  /** A float bound: minus infinity, a finite value, or plus infinity. */
  datatype Ext = NegInf | Fin(r: real) | PosInf

  /** `c < b` and `c > b` for a finite coordinate `c`. */
  predicate Below(c: real, b: Ext)
  {
    b.PosInf? || (b.Fin? && c < b.r)
  }

  predicate Above(c: real, b: Ext)
  {
    b.NegInf? || (b.Fin? && c > b.r)
  }

  /** The difference `hi - lo` of two bounds, as `dimX = maxx - minx`
      computes it; infinite when either bound is. */
  function Dim(lo: Ext, hi: Ext): Ext
  {
    if lo.Fin? && hi.Fin? then Fin(hi.r - lo.r)
    else if hi.PosInf? || lo.NegInf? then PosInf
    else NegInf
  }

  /** One comparison of a scan: `if (c < b) b = c;` and `if (c > b) b = c;`. */
  function Lowered(b: Ext, c: real): Ext
  {
    if Below(c, b) then Fin(c) else b
  }

  function Raised(b: Ext, c: real): Ext
  {
    if Above(c, b) then Fin(c) else b
  }

  // ----- the first scan: bounds only -----

  /** The lowest coordinate the first scan finds on axis `a`, scanning
      `vs` front to back from `INFINITY`. */
  function MinBound(vs: seq<Point>, a: Axis): Ext
    decreases |vs|
  {
    if vs == [] then PosInf
    else Lowered(MinBound(vs[..|vs| - 1], a), Coord(vs[|vs| - 1], a))
  }

  /** The highest coordinate, scanning from `-INFINITY`. */
  function MaxBound(vs: seq<Point>, a: Axis): Ext
    decreases |vs|
  {
    if vs == [] then NegInf
    else Raised(MaxBound(vs[..|vs| - 1], a), Coord(vs[|vs| - 1], a))
  }

  /** On a non-empty list the lower bound is finite, attained by some
      vertex and below or equal to every vertex. */
  lemma {:induction false} MinBoundIsMinimum(vs: seq<Point>, a: Axis)
    requires |vs| > 0
    ensures MinBound(vs, a).Fin?
    ensures exists k :: 0 <= k < |vs| && Coord(vs[k], a) == MinBound(vs, a).r
    ensures forall k :: 0 <= k < |vs| ==> MinBound(vs, a).r <= Coord(vs[k], a)
    decreases |vs|
  {
    var n := |vs|;
    if n > 1 {
      var front := vs[..n - 1];
      MinBoundIsMinimum(front, a);
      var j :| 0 <= j < |front| && Coord(front[j], a) == MinBound(front, a).r;
      assert vs[j] == front[j];
      forall k | 0 <= k < n - 1
        ensures MinBound(vs, a).r <= Coord(vs[k], a)
      {
        assert vs[k] == front[k];
      }
    }
  }

  /** On a non-empty list the upper bound is finite, attained and above
      or equal to every vertex. */
  lemma {:induction false} MaxBoundIsMaximum(vs: seq<Point>, a: Axis)
    requires |vs| > 0
    ensures MaxBound(vs, a).Fin?
    ensures exists k :: 0 <= k < |vs| && Coord(vs[k], a) == MaxBound(vs, a).r
    ensures forall k :: 0 <= k < |vs| ==> Coord(vs[k], a) <= MaxBound(vs, a).r
    decreases |vs|
  {
    var n := |vs|;
    if n > 1 {
      var front := vs[..n - 1];
      MaxBoundIsMaximum(front, a);
      var j :| 0 <= j < |front| && Coord(front[j], a) == MaxBound(front, a).r;
      assert vs[j] == front[j];
      forall k | 0 <= k < n - 1
        ensures Coord(vs[k], a) <= MaxBound(vs, a).r
      {
        assert vs[k] == front[k];
      }
    }
  }

  /** The extents `dimX`, `dimY`, `dimZ` of a non-empty model are finite
      and not negative. */
  lemma DimsNotNegative(vs: seq<Point>, a: Axis)
    requires |vs| > 0
    ensures Dim(MinBound(vs, a), MaxBound(vs, a)).Fin?
    ensures Dim(MinBound(vs, a), MaxBound(vs, a)).r >= 0.0
  {
    MinBoundIsMinimum(vs, a);
    MaxBoundIsMaximum(vs, a);
    assert MinBound(vs, a).r <= Coord(vs[0], a) <= MaxBound(vs, a).r;
  }

  // ----- the second scan: bounds with their vertices -----

  /** A bound together with the vertex that set it. */
  datatype Extreme = Extreme(bound: Ext, vertex: Point)

  /** One comparison of the second scan: `if (p.c < b) { b = p.c; vert = p; }`
      and its `>` counterpart. */
  function TakeLower(e: Extreme, p: Point, a: Axis): Extreme
  {
    if Below(Coord(p, a), e.bound) then Extreme(Fin(Coord(p, a)), p) else e
  }

  function TakeHigher(e: Extreme, p: Point, a: Axis): Extreme
  {
    if Above(Coord(p, a), e.bound) then Extreme(Fin(Coord(p, a)), p) else e
  }

  /** The lowest vertex on axis `a` as the second scan records it: the
      vertex is replaced only on a strictly smaller coordinate.  `unset` is
      the uninitialised local the scan starts from. */
  function MinScan(vs: seq<Point>, a: Axis, unset: Point): Extreme
    decreases |vs|
  {
    if vs == [] then Extreme(PosInf, unset)
    else TakeLower(MinScan(vs[..|vs| - 1], a, unset), vs[|vs| - 1], a)
  }

  /** The highest vertex, replaced only on a strictly larger coordinate. */
  function MaxScan(vs: seq<Point>, a: Axis, unset: Point): Extreme
    decreases |vs|
  {
    if vs == [] then Extreme(NegInf, unset)
    else TakeHigher(MaxScan(vs[..|vs| - 1], a, unset), vs[|vs| - 1], a)
  }

  /** The index of the first vertex with the lowest coordinate on `a`. */
  function FirstMinIndex(vs: seq<Point>, a: Axis): (i: nat)
    requires |vs| > 0
    ensures i < |vs|
    ensures forall k :: 0 <= k < |vs| ==> Coord(vs[i], a) <= Coord(vs[k], a)
    ensures forall k :: 0 <= k < i ==> Coord(vs[i], a) < Coord(vs[k], a)
    decreases |vs|
  {
    if |vs| == 1 then 0
    else
      var front := vs[..|vs| - 1];
      var j := FirstMinIndex(front, a);
      assert forall k :: 0 <= k < |front| ==> front[k] == vs[k];
      if Coord(vs[|vs| - 1], a) < Coord(vs[j], a) then |vs| - 1 else j
  }

  /** The index of the first vertex with the highest coordinate on `a`. */
  function FirstMaxIndex(vs: seq<Point>, a: Axis): (i: nat)
    requires |vs| > 0
    ensures i < |vs|
    ensures forall k :: 0 <= k < |vs| ==> Coord(vs[k], a) <= Coord(vs[i], a)
    ensures forall k :: 0 <= k < i ==> Coord(vs[k], a) < Coord(vs[i], a)
    decreases |vs|
  {
    if |vs| == 1 then 0
    else
      var front := vs[..|vs| - 1];
      var j := FirstMaxIndex(front, a);
      assert forall k :: 0 <= k < |front| ==> front[k] == vs[k];
      if Coord(vs[|vs| - 1], a) > Coord(vs[j], a) then |vs| - 1 else j
  }

  /** On a non-empty list the second scan records the first vertex with
      the lowest coordinate, and that coordinate as the bound: the bound
      is attained by the recorded vertex, no vertex lies below it, and on
      ties the earliest vertex wins. */
  lemma {:induction false} MinScanFindsFirstMin(vs: seq<Point>, a: Axis, unset: Point)
    requires |vs| > 0
    ensures MinScan(vs, a, unset) == Extreme(Fin(Coord(vs[FirstMinIndex(vs, a)], a)), vs[FirstMinIndex(vs, a)])
    decreases |vs|
  {
    if |vs| > 1 {
      var front := vs[..|vs| - 1];
      MinScanFindsFirstMin(front, a, unset);
      assert front[FirstMinIndex(front, a)] == vs[FirstMinIndex(front, a)];
    }
  }

  /** Likewise for the highest coordinate. */
  lemma {:induction false} MaxScanFindsFirstMax(vs: seq<Point>, a: Axis, unset: Point)
    requires |vs| > 0
    ensures MaxScan(vs, a, unset) == Extreme(Fin(Coord(vs[FirstMaxIndex(vs, a)], a)), vs[FirstMaxIndex(vs, a)])
    decreases |vs|
  {
    if |vs| > 1 {
      var front := vs[..|vs| - 1];
      MaxScanFindsFirstMax(front, a, unset);
      assert front[FirstMaxIndex(front, a)] == vs[FirstMaxIndex(front, a)];
    }
  }

  /** Both scans find the same bounds: the second's bound is the first's. */
  lemma {:induction false} ScansAgree(vs: seq<Point>, a: Axis, unset: Point)
    ensures MinScan(vs, a, unset).bound == MinBound(vs, a)
    ensures MaxScan(vs, a, unset).bound == MaxBound(vs, a)
    decreases |vs|
  {
    if vs != [] {
      ScansAgree(vs[..|vs| - 1], a, unset);
    }
  }

  // ----- the box layouts -----

  /** The six extreme vertices in the order `scaleProcess` appends them. */
  function BoxVertexList(minVertX: Point, maxVertX: Point, minVertY: Point, maxVertY: Point,
                         minVertZ: Point, maxVertZ: Point): seq<Point>
  {
    [maxVertX, minVertX, maxVertY, minVertY, maxVertZ, minVertZ]
  }

  /** The six bounds of the second scan, as `boundingbox` is built from
      them. */
  datatype Box = Box(minX: Ext, maxX: Ext, minY: Ext, maxY: Ext, minZ: Ext, maxZ: Ext)

  /** One end of an axis: the maximum when `high` is set. */
  function Pick(high: bool, lo: Ext, hi: Ext): Ext
  {
    if high then hi else lo
  }

  /** Which end of each axis the `k`-th corner point appended to
      `boundingbox` takes, `true` for the maximum: an outline of the top
      face (`z` at its maximum) back to its first corner, a descent to the
      bottom face and its outline, then the three remaining vertical edges
      as pairs of points. */
  function CornerEnds(k: nat): (bool, bool, bool)
    requires k < 16
  {
    if k == 0 then (false, false, true)
    else if k == 1 then (true, false, true)
    else if k == 2 then (true, true, true)
    else if k == 3 then (false, true, true)
    else if k == 4 then (false, false, true)
    else if k == 5 then (false, false, false)
    else if k == 6 then (true, false, false)
    else if k == 7 then (true, true, false)
    else if k == 8 then (false, true, false)
    else if k == 9 then (false, false, false)
    else if k == 10 then (false, true, true)
    else if k == 11 then (false, true, false)
    else if k == 12 then (true, false, true)
    else if k == 13 then (true, false, false)
    else if k == 14 then (true, true, true)
    else (true, true, false)
  }

  /** The three scalars of the `k`-th corner point. */
  function CornerPoint(b: Box, k: nat): seq<Ext>
    requires k < 16
  {
    var e := CornerEnds(k);
    [Pick(e.0, b.minX, b.maxX), Pick(e.1, b.minY, b.maxY), Pick(e.2, b.minZ, b.maxZ)]
  }

  /** `boundingbox` after the first `n` corner points are appended to
      `prior`. */
  function CornersAfter(prior: seq<Ext>, b: Box, n: nat): (r: seq<Ext>)
    requires n <= 16
    ensures |r| == |prior| + 3 * n
    decreases n
  {
    if n == 0 then prior else CornersAfter(prior, b, n - 1) + CornerPoint(b, n - 1)
  }

  /** The 48 scalars of the sixteen corner points. */
  function Corners(b: Box): seq<Ext>
  {
    CornersAfter([], b, 16)
  }

  /** Appending corner points keeps what was there and adds the same
      scalars whatever was there before. */
  lemma {:induction false} CornersAfterAppends(prior: seq<Ext>, b: Box, n: nat)
    requires n <= 16
    ensures CornersAfter(prior, b, n) == prior + CornersAfter([], b, n)
    decreases n
  {
    if n > 0 {
      CornersAfterAppends(prior, b, n - 1);
      assert prior + CornersAfter([], b, n - 1) + CornerPoint(b, n - 1)
          == prior + (CornersAfter([], b, n - 1) + CornerPoint(b, n - 1));
    }
  }

  /** Point `k` of the appended scalars is the `k`-th corner point. */
  lemma {:induction false} CornersAfterAt(prior: seq<Ext>, b: Box, n: nat, k: nat)
    requires k < n <= 16
    ensures var r := CornersAfter(prior, b, n);
      r[|prior| + 3 * k] == CornerPoint(b, k)[0] && r[|prior| + 3 * k + 1] == CornerPoint(b, k)[1]
      && r[|prior| + 3 * k + 2] == CornerPoint(b, k)[2]
    decreases n
  {
    if k < n - 1 {
      CornersAfterAt(prior, b, n - 1, k);
    }
  }

  /** Point `k` of a scalar list is the one with the given ends. */
  predicate PointAt(c: seq<Ext>, k: int, x: Ext, y: Ext, z: Ext)
  {
    0 <= k && 3 * k + 2 < |c| && c[3 * k] == x && c[3 * k + 1] == y && c[3 * k + 2] == z
  }

  /** 48 scalars, 16 points, each built from the extremes only: its `x` is
      `minX` or `maxX`, its `y` is `minY` or `maxY`, its `z` is `minZ` or
      `maxZ`. */
  lemma CornersFromExtremes(b: Box)
    ensures var c := Corners(b);
      && |c| == 48
      && (forall k :: 0 <= k < 16 ==> c[3 * k] == b.minX || c[3 * k] == b.maxX)
      && (forall k :: 0 <= k < 16 ==> c[3 * k + 1] == b.minY || c[3 * k + 1] == b.maxY)
      && (forall k :: 0 <= k < 16 ==> c[3 * k + 2] == b.minZ || c[3 * k + 2] == b.maxZ)
  {
    var c := Corners(b);
    forall k | 0 <= k < 16
      ensures c[3 * k] == b.minX || c[3 * k] == b.maxX
      ensures c[3 * k + 1] == b.minY || c[3 * k + 1] == b.maxY
      ensures c[3 * k + 2] == b.minZ || c[3 * k + 2] == b.maxZ
    {
      CornersAfterAt([], b, 16, k);
    }
  }

  /** The corner point with the given ends is point `k` of the list. */
  lemma CornerListedAt(b: Box, k: nat, highX: bool, highY: bool, highZ: bool)
    requires k < 16 && CornerEnds(k) == (highX, highY, highZ)
    ensures PointAt(Corners(b), k, Pick(highX, b.minX, b.maxX), Pick(highY, b.minY, b.maxY), Pick(highZ, b.minZ, b.maxZ))
  {
    CornersAfterAt([], b, 16, k);
  }

  /** Each of the eight corners of the box is among the sixteen points. */
  lemma EveryCornerListed(b: Box, highX: bool, highY: bool, highZ: bool)
    ensures exists k :: (0 <= k < 16 &&
      PointAt(Corners(b), k, Pick(highX, b.minX, b.maxX), Pick(highY, b.minY, b.maxY), Pick(highZ, b.minZ, b.maxZ)))
  {
    var k: nat;
    if highZ {
      if highX { k := if highY then 2 else 1; } else { k := if highY then 3 else 0; }
    } else {
      if highX { k := if highY then 7 else 6; } else { k := if highY then 8 else 5; }
    }
    CornerListedAt(b, k, highX, highY, highZ);
  }

  /** The number of frames a fired projectile is kept alive. */
  const FireDuration := 150

  /** The scan and shooting state of a `Model`. */
  class Model<M> {
    var vertices: seq<Point>
    var minx: Ext
    var maxx: Ext
    var miny: Ext
    var maxy: Ext
    var minz: Ext
    var maxz: Ext
    var minX: Ext
    var maxX: Ext
    var minY: Ext
    var maxY: Ext
    var minZ: Ext
    var maxZ: Ext
    var boxVertices: seq<Point>
    var boundingbox: seq<Ext>
    var duration: int
    var isFired: bool
    var toWorld: M

    /** The first scan's six bounds are those of `vs` on each axis. */
    predicate FirstBounds(vs: seq<Point>)
      reads this
    {
      && minx == MinBound(vs, X) && maxx == MaxBound(vs, X)
      && miny == MinBound(vs, Y) && maxy == MaxBound(vs, Y)
      && minz == MinBound(vs, Z) && maxz == MaxBound(vs, Z)
    }

    /** The second scan's six bounds are those of `vs` on each axis. */
    predicate SecondBounds(vs: seq<Point>)
      reads this
    {
      && minX == MinBound(vs, X) && maxX == MaxBound(vs, X)
      && minY == MinBound(vs, Y) && maxY == MaxBound(vs, Y)
      && minZ == MinBound(vs, Z) && maxZ == MaxBound(vs, Z)
    }

    /** `Model(path)`: `toWorld` the identity, `loadModel` fills `vertices`
        with `loaded`, then `scaleProcess` runs once, its normalisation
        producing `normalised`.  The box lists start empty and end with
        the six extreme vertices and the 48 corner scalars.  `isFired` has
        no initialiser in the source and is a parameter here; `unset` is
        the uninitialised local the second scan starts from. */
    constructor(loaded: seq<Point>, identity: M, fired: bool, normalised: seq<Point>, unset: Point)
      requires |normalised| == |loaded|
      ensures FirstBounds(loaded) && vertices == normalised && SecondBounds(vertices)
      ensures boxVertices == BoxVertexList(
        MinScan(vertices, X, unset).vertex, MaxScan(vertices, X, unset).vertex,
        MinScan(vertices, Y, unset).vertex, MaxScan(vertices, Y, unset).vertex,
        MinScan(vertices, Z, unset).vertex, MaxScan(vertices, Z, unset).vertex)
      ensures boundingbox == Corners(Box(minX, maxX, minY, maxY, minZ, maxZ))
      ensures duration == FireDuration && isFired == fired && toWorld == identity
    {
      vertices := loaded;
      minx, maxx, miny, maxy, minz, maxz := PosInf, NegInf, PosInf, NegInf, PosInf, NegInf;
      minX, maxX, minY, maxY, minZ, maxZ := PosInf, NegInf, PosInf, NegInf, PosInf, NegInf;
      boxVertices, boundingbox := [], [];
      duration := FireDuration;
      isFired := fired;
      toWorld := identity;
      new;
      ScaleProcess(normalised, unset);
    }

    /** The first scan of `scaleProcess`: the six bounds of the vertex
        positions. */
    method FirstScan()
      modifies this`minx, this`maxx, this`miny, this`maxy, this`minz, this`maxz
      ensures FirstBounds(vertices)
    {
      maxx, maxy, maxz := NegInf, NegInf, NegInf;
      minx, miny, minz := PosInf, PosInf, PosInf;
      for i := 0 to |vertices|
        invariant minx == MinBound(vertices[..i], X) && maxx == MaxBound(vertices[..i], X)
        invariant miny == MinBound(vertices[..i], Y) && maxy == MaxBound(vertices[..i], Y)
        invariant minz == MinBound(vertices[..i], Z) && maxz == MaxBound(vertices[..i], Z)
      {
        var p := vertices[i];
        assert vertices[..i + 1][..i] == vertices[..i];
        maxx := Raised(maxx, p.x);
        maxy := Raised(maxy, p.y);
        maxz := Raised(maxz, p.z);
        minx := Lowered(minx, p.x);
        miny := Lowered(miny, p.y);
        minz := Lowered(minz, p.z);
      }
      assert vertices[..|vertices|] == vertices;
    }

    /** The second scan: the six bounds of the (normalised) positions and
        the vertices that set them, each starting from the uninitialised
        local `unset`. */
    method SecondScan(unset: Point)
      returns (minVertX: Point, minVertY: Point, minVertZ: Point,
               maxVertX: Point, maxVertY: Point, maxVertZ: Point)
      modifies this`minX, this`maxX, this`minY, this`maxY, this`minZ, this`maxZ
      ensures Extreme(minX, minVertX) == MinScan(vertices, X, unset)
      ensures Extreme(minY, minVertY) == MinScan(vertices, Y, unset)
      ensures Extreme(minZ, minVertZ) == MinScan(vertices, Z, unset)
      ensures Extreme(maxX, maxVertX) == MaxScan(vertices, X, unset)
      ensures Extreme(maxY, maxVertY) == MaxScan(vertices, Y, unset)
      ensures Extreme(maxZ, maxVertZ) == MaxScan(vertices, Z, unset)
    {
      minX, minY, minZ := PosInf, PosInf, PosInf;
      maxX, maxY, maxZ := NegInf, NegInf, NegInf;
      minVertX, minVertY, minVertZ := unset, unset, unset;
      maxVertX, maxVertY, maxVertZ := unset, unset, unset;
      for i := 0 to |vertices|
        invariant Extreme(minX, minVertX) == MinScan(vertices[..i], X, unset)
        invariant Extreme(minY, minVertY) == MinScan(vertices[..i], Y, unset)
        invariant Extreme(minZ, minVertZ) == MinScan(vertices[..i], Z, unset)
        invariant Extreme(maxX, maxVertX) == MaxScan(vertices[..i], X, unset)
        invariant Extreme(maxY, maxVertY) == MaxScan(vertices[..i], Y, unset)
        invariant Extreme(maxZ, maxVertZ) == MaxScan(vertices[..i], Z, unset)
      {
        var p := vertices[i];
        assert vertices[..i + 1][..i] == vertices[..i];
        var e := TakeLower(Extreme(minX, minVertX), p, X);
        minX, minVertX := e.bound, e.vertex;
        e := TakeLower(Extreme(minY, minVertY), p, Y);
        minY, minVertY := e.bound, e.vertex;
        e := TakeLower(Extreme(minZ, minVertZ), p, Z);
        minZ, minVertZ := e.bound, e.vertex;
        e := TakeHigher(Extreme(maxX, maxVertX), p, X);
        maxX, maxVertX := e.bound, e.vertex;
        e := TakeHigher(Extreme(maxY, maxVertY), p, Y);
        maxY, maxVertY := e.bound, e.vertex;
        e := TakeHigher(Extreme(maxZ, maxVertZ), p, Z);
        maxZ, maxVertZ := e.bound, e.vertex;
      }
      assert vertices[..|vertices|] == vertices;
    }

    /** `scaleProcess`: the first scan, the normalisation (whose result is
        the parameter `normalised`), the second scan, then the six extreme
        vertices appended to `boxVertices` and the sixteen corners to
        `boundingbox`. */
    method ScaleProcess(normalised: seq<Point>, unset: Point)
      requires |normalised| == |vertices|
      modifies this`vertices, this`minx, this`maxx, this`miny, this`maxy, this`minz, this`maxz,
               this`minX, this`maxX, this`minY, this`maxY, this`minZ, this`maxZ,
               this`boxVertices, this`boundingbox
      ensures FirstBounds(old(vertices))
      ensures vertices == normalised
      ensures SecondBounds(vertices)
      ensures boxVertices == old(boxVertices) + BoxVertexList(
        MinScan(vertices, X, unset).vertex, MaxScan(vertices, X, unset).vertex,
        MinScan(vertices, Y, unset).vertex, MaxScan(vertices, Y, unset).vertex,
        MinScan(vertices, Z, unset).vertex, MaxScan(vertices, Z, unset).vertex)
      ensures boundingbox == old(boundingbox) + Corners(Box(minX, maxX, minY, maxY, minZ, maxZ))
    {
      FirstScan();
      vertices := normalised;
      BuildBoxes(unset);
    }

    /** The second scan over the normalised `vertices` and the two lists
        built from its results. */
    method BuildBoxes(unset: Point)
      modifies this`minX, this`maxX, this`minY, this`maxY, this`minZ, this`maxZ,
               this`boxVertices, this`boundingbox
      ensures SecondBounds(vertices)
      ensures boxVertices == old(boxVertices) + BoxVertexList(
        MinScan(vertices, X, unset).vertex, MaxScan(vertices, X, unset).vertex,
        MinScan(vertices, Y, unset).vertex, MaxScan(vertices, Y, unset).vertex,
        MinScan(vertices, Z, unset).vertex, MaxScan(vertices, Z, unset).vertex)
      ensures boundingbox == old(boundingbox) + Corners(Box(minX, maxX, minY, maxY, minZ, maxZ))
    {
      var minVertX, minVertY, minVertZ, maxVertX, maxVertY, maxVertZ := SecondScan(unset);
      ScansAgree(vertices, X, unset);
      ScansAgree(vertices, Y, unset);
      ScansAgree(vertices, Z, unset);
      AppendBoxVertices(minVertX, maxVertX, minVertY, maxVertY, minVertZ, maxVertZ);
      AppendCorners();
    }

    /** The six `boxVertices.push_back` calls. */
    method AppendBoxVertices(minVertX: Point, maxVertX: Point, minVertY: Point, maxVertY: Point,
                             minVertZ: Point, maxVertZ: Point)
      modifies this`boxVertices
      ensures boxVertices == old(boxVertices) + BoxVertexList(minVertX, maxVertX, minVertY, maxVertY, minVertZ, maxVertZ)
    {
      boxVertices := boxVertices + [maxVertX];
      boxVertices := boxVertices + [minVertX];
      boxVertices := boxVertices + [maxVertY];
      boxVertices := boxVertices + [minVertY];
      boxVertices := boxVertices + [maxVertZ];
      boxVertices := boxVertices + [minVertZ];
    }

    /** Three `boundingbox.push_back` calls: one point. */
    method PushPoint(x: Ext, y: Ext, z: Ext)
      modifies this`boundingbox
      ensures boundingbox == old(boundingbox) + [x, y, z]
    {
      boundingbox := boundingbox + [x];
      boundingbox := boundingbox + [y];
      boundingbox := boundingbox + [z];
    }

    /** The 48 `boundingbox.push_back` calls. */
    method AppendCorners()
      modifies this`boundingbox
      ensures boundingbox == old(boundingbox) + Corners(Box(minX, maxX, minY, maxY, minZ, maxZ))
    {
      ghost var b := Box(minX, maxX, minY, maxY, minZ, maxZ);
      ghost var prior := boundingbox;
      PushPoint(minX, minY, maxZ);
      assert boundingbox == CornersAfter(prior, b, 1);
      PushPoint(maxX, minY, maxZ);
      assert boundingbox == CornersAfter(prior, b, 2);
      PushPoint(maxX, maxY, maxZ);
      assert boundingbox == CornersAfter(prior, b, 3);
      PushPoint(minX, maxY, maxZ);
      assert boundingbox == CornersAfter(prior, b, 4);
      PushPoint(minX, minY, maxZ);
      assert boundingbox == CornersAfter(prior, b, 5);
      PushPoint(minX, minY, minZ);
      assert boundingbox == CornersAfter(prior, b, 6);
      PushPoint(maxX, minY, minZ);
      assert boundingbox == CornersAfter(prior, b, 7);
      PushPoint(maxX, maxY, minZ);
      assert boundingbox == CornersAfter(prior, b, 8);
      PushPoint(minX, maxY, minZ);
      assert boundingbox == CornersAfter(prior, b, 9);
      PushPoint(minX, minY, minZ);
      assert boundingbox == CornersAfter(prior, b, 10);
      PushPoint(minX, maxY, maxZ);
      assert boundingbox == CornersAfter(prior, b, 11);
      PushPoint(minX, maxY, minZ);
      assert boundingbox == CornersAfter(prior, b, 12);
      PushPoint(maxX, minY, maxZ);
      assert boundingbox == CornersAfter(prior, b, 13);
      PushPoint(maxX, minY, minZ);
      assert boundingbox == CornersAfter(prior, b, 14);
      PushPoint(maxX, maxY, maxZ);
      assert boundingbox == CornersAfter(prior, b, 15);
      PushPoint(maxX, maxY, minZ);
      assert boundingbox == CornersAfter(prior, b, 16);
      CornersAfterAppends(prior, b, 16);
    }

    /** `fire`: moves the model (the moved matrix, computed from `toWorld`
        and the view direction, is the parameter `moved`), counts one frame
        off `duration` and clears `isFired`. */
    method Fire(moved: M)
      modifies this`toWorld, this`duration, this`isFired
      ensures toWorld == moved && duration == old(duration) - 1 && !isFired
    {
      toWorld := moved;
      duration := duration - 1;
      isFired := false;
    }
  }

  /** After the second scan every vertex lies within the recorded bounds,
      each bound is attained by its recorded vertex, and that vertex is the
      first one with that coordinate. */
  lemma SecondScanBounds(vs: seq<Point>, a: Axis, unset: Point)
    requires |vs| > 0
    ensures var lo := MinScan(vs, a, unset);
      var hi := MaxScan(vs, a, unset);
      && lo.bound == Fin(Coord(lo.vertex, a)) && hi.bound == Fin(Coord(hi.vertex, a))
      && (forall k :: 0 <= k < |vs| ==> Coord(lo.vertex, a) <= Coord(vs[k], a) <= Coord(hi.vertex, a))
      && (exists i :: 0 <= i < |vs| && vs[i] == lo.vertex && forall k :: 0 <= k < i ==> Coord(vs[k], a) > Coord(lo.vertex, a))
      && (exists i :: 0 <= i < |vs| && vs[i] == hi.vertex && forall k :: 0 <= k < i ==> Coord(vs[k], a) < Coord(hi.vertex, a))
  {
    MinScanFindsFirstMin(vs, a, unset);
    MaxScanFindsFirstMax(vs, a, unset);
    var i := FirstMinIndex(vs, a);
    var j := FirstMaxIndex(vs, a);
    assert vs[i] == MinScan(vs, a, unset).vertex;
    assert vs[j] == MaxScan(vs, a, unset).vertex;
  }

  /** On an empty vertex list the bounds stay infinite and the six
      recorded vertices are the uninitialised locals. */
  lemma EmptyScan(a: Axis, unset: Point)
    ensures MinScan([], a, unset) == Extreme(PosInf, unset)
    ensures MaxScan([], a, unset) == Extreme(NegInf, unset)
  {
  }
}
