/** The mesh preparation main.cpp does before any GPU work: the axis-aligned
    bounding box of the vertices, the centre and scale that fit the object
    into view, the camera distance derived from them, and the flattening of
    the indexed triangle mesh into one position, normal and texture
    coordinate per triangle corner. */
module MeshPrep {
  import opened Geometry

  /** The three indices of one triangle, one per corner. */
  datatype Tri = Tri(i0: int, i1: int, i2: int) {
    function At(c: nat): int
      requires c < 3
    {
      if c == 0 then i0 else if c == 1 then i1 else i2
    }
  }

  /** A texture coordinate pair. */
  datatype UV = UV(u: real, v: real)

  /** An indexed triangle mesh as the OBJ loader delivers it: vertex
      positions, vertex normals and texture vertices, and per face one
      index triple into each of them. */
  datatype Mesh = Mesh(v: seq<Vec3>, vn: seq<Vec3>, vt: seq<Vec3>,
                       f: seq<Tri>, fn: seq<Tri>, ft: seq<Tri>)

  /** What the flattening loop relies on without checking: every face has
      a normal triple (and a texture triple when the mesh has texture
      vertices), every position index is in range, and so is every
      non-negative normal index while the mesh has normals. Texture
      indices are checked by the loop itself. */
  predicate WellIndexed(m: Mesh, hasUV: bool)
  {
    |m.fn| == |m.f| && (hasUV ==> |m.ft| == |m.f|) &&
    forall fi, c :: 0 <= fi < |m.f| && 0 <= c < 3 ==>
      0 <= m.f[fi].At(c) < |m.v| &&
      (|m.vn| > 0 && m.fn[fi].At(c) >= 0 ==> m.fn[fi].At(c) < |m.vn|)
  }

  /** The normal used when the mesh gives none. */
  const UP: Vec3 := Vec3(0.0, 1.0, 0.0)

  predicate IsUnit(n: Vec3)
  {
    n.x * n.x + n.y * n.y + n.z * n.z == 1.0
  }

  /** The normal emitted for corner c of face fi. */
  function CornerNormal(m: Mesh, fi: nat, c: nat): (n: Vec3)
    requires WellIndexed(m, false) && fi < |m.f| && c < 3
    ensures |m.vn| == 0 || m.fn[fi].At(c) < 0 ==> n == UP
    ensures |m.vn| > 0 && m.fn[fi].At(c) >= 0 ==> n == m.vn[m.fn[fi].At(c)]
  {
    var ni := m.fn[fi].At(c);
    if |m.vn| > 0 && ni >= 0 then m.vn[ni] else UP
  }

  /** Unit normals in the mesh give unit normals in the stream. */
  lemma CornerNormalIsUnit(m: Mesh, fi: nat, c: nat)
    requires WellIndexed(m, false) && fi < |m.f| && c < 3
    requires forall i :: 0 <= i < |m.vn| ==> IsUnit(m.vn[i])
    ensures IsUnit(CornerNormal(m, fi, c))
  {
    assert IsUnit(UP);
  }

  /** The texture coordinate emitted for corner c of face fi. */
  function CornerUV(m: Mesh, hasUV: bool, fi: nat, c: nat): (t: UV)
    requires WellIndexed(m, hasUV) && fi < |m.f| && c < 3
    ensures hasUV && 0 <= m.ft[fi].At(c) < |m.vt| ==>
      t == UV(m.vt[m.ft[fi].At(c)].x, m.vt[m.ft[fi].At(c)].y)
    ensures !(hasUV && 0 <= m.ft[fi].At(c) < |m.vt|) ==> t == UV(0.0, 0.0)
  {
    if hasUV then
      var ti := m.ft[fi].At(c);
      if 0 <= ti < |m.vt| then UV(m.vt[ti].x, m.vt[ti].y) else UV(0.0, 0.0)
    else UV(0.0, 0.0)
  }

  /** Texture vertices inside the unit square give coordinates inside it. */
  lemma CornerUVInUnitSquare(m: Mesh, hasUV: bool, fi: nat, c: nat)
    requires WellIndexed(m, hasUV) && fi < |m.f| && c < 3
    requires forall i :: 0 <= i < |m.vt| ==> 0.0 <= m.vt[i].x <= 1.0 && 0.0 <= m.vt[i].y <= 1.0
    ensures var t := CornerUV(m, hasUV, fi, c); 0.0 <= t.u <= 1.0 && 0.0 <= t.v <= 1.0
  {
  }

  /** The three values stored for stream element j of a flat xyz array. */
  function Vec3At(s: seq<real>, j: nat): Vec3
    requires 3 * j + 3 <= |s|
  {
    Vec3(s[3 * j], s[3 * j + 1], s[3 * j + 2])
  }

  /** The two values stored for stream element j of a flat uv array. */
  function UVAt(s: seq<real>, j: nat): UV
    requires 2 * j + 2 <= |s|
  {
    UV(s[2 * j], s[2 * j + 1])
  }

  /** What the loop emits for one corner: its position, its normal and
      its texture coordinate. */
  datatype Vertex = Vertex(pos: Vec3, normal: Vec3, uv: UV)

  function CornerVertex(m: Mesh, hasUV: bool, fi: nat, c: nat): Vertex
    requires WellIndexed(m, hasUV) && fi < |m.f| && c < 3
  {
    Vertex(m.v[m.f[fi].At(c)], CornerNormal(m, fi, c), CornerUV(m, hasUV, fi, c))
  }

  /** The three corners of face fi, in order. */
  function FaceVertices(m: Mesh, hasUV: bool, fi: nat): (r: seq<Vertex>)
    requires WellIndexed(m, hasUV) && fi < |m.f|
    ensures |r| == 3
    ensures forall c :: 0 <= c < 3 ==> r[c] == CornerVertex(m, hasUV, fi, c)
  {
    [CornerVertex(m, hasUV, fi, 0), CornerVertex(m, hasUV, fi, 1), CornerVertex(m, hasUV, fi, 2)]
  }

  /** The corners of the first n faces, face by face. */
  function Corners(m: Mesh, hasUV: bool, n: nat): seq<Vertex>
    requires WellIndexed(m, hasUV) && n <= |m.f|
  {
    if n == 0 then [] else Corners(m, hasUV, n - 1) + FaceVertices(m, hasUV, n - 1)
  }

  /** The first n faces give 3n corners, and corner c of face fi < n is
      element 3 * fi + c. */
  lemma {:induction false} CornersLayout(m: Mesh, hasUV: bool, n: nat, fi: nat, c: nat)
    requires WellIndexed(m, hasUV) && n <= |m.f| && c < 3
    ensures |Corners(m, hasUV, n)| == 3 * n
    ensures fi < n ==> Corners(m, hasUV, n)[3 * fi + c] == CornerVertex(m, hasUV, fi, c)
  {
    if n > 0 {
      CornersLayout(m, hasUV, n - 1, fi, c);
      var prev := Corners(m, hasUV, n - 1);
      if fi < n - 1 {
        assert (prev + FaceVertices(m, hasUV, n - 1))[3 * fi + c] == prev[3 * fi + c];
      } else if fi == n - 1 {
        assert (prev + FaceVertices(m, hasUV, n - 1))[3 * fi + c] == FaceVertices(m, hasUV, fi)[c];
      }
    }
  }

  /** The position array for a vertex sequence: x, y, z per vertex. */
  function Positions(vs: seq<Vertex>): (r: seq<real>)
    ensures |r| == 3 * |vs|
  {
    if vs == [] then []
    else var p := vs[|vs| - 1].pos; Positions(vs[..|vs| - 1]) + [p.x, p.y, p.z]
  }

  /** The normal array: x, y, z per vertex. */
  function Normals(vs: seq<Vertex>): (r: seq<real>)
    ensures |r| == 3 * |vs|
  {
    if vs == [] then []
    else var n := vs[|vs| - 1].normal; Normals(vs[..|vs| - 1]) + [n.x, n.y, n.z]
  }

  /** The texture array: u, v per vertex. */
  function TexCoords(vs: seq<Vertex>): (r: seq<real>)
    ensures |r| == 2 * |vs|
  {
    if vs == [] then []
    else var t := vs[|vs| - 1].uv; TexCoords(vs[..|vs| - 1]) + [t.u, t.v]
  }

  /** Vertex j of the sequence is stored at offset 3 * j of the position
      array, ... */
  lemma {:induction false} PositionsAt(vs: seq<Vertex>, j: nat)
    requires j < |vs|
    ensures Vec3At(Positions(vs), j) == vs[j].pos
  {
    var init := vs[..|vs| - 1];
    var p := vs[|vs| - 1].pos;
    assert Positions(vs) == Positions(init) + [p.x, p.y, p.z];
    if j < |init| {
      PositionsAt(init, j);
      Vec3AtAppend(Positions(init), [p.x, p.y, p.z], j);
    }
  }

  /** ... at offset 3 * j of the normal array, ... */
  lemma {:induction false} NormalsAt(vs: seq<Vertex>, j: nat)
    requires j < |vs|
    ensures Vec3At(Normals(vs), j) == vs[j].normal
  {
    var init := vs[..|vs| - 1];
    var n := vs[|vs| - 1].normal;
    assert Normals(vs) == Normals(init) + [n.x, n.y, n.z];
    if j < |init| {
      NormalsAt(init, j);
      Vec3AtAppend(Normals(init), [n.x, n.y, n.z], j);
    }
  }

  /** ... and at offset 2 * j of the texture array. */
  lemma {:induction false} TexCoordsAt(vs: seq<Vertex>, j: nat)
    requires j < |vs|
    ensures UVAt(TexCoords(vs), j) == vs[j].uv
  {
    var init := vs[..|vs| - 1];
    var t := vs[|vs| - 1].uv;
    assert TexCoords(vs) == TexCoords(init) + [t.u, t.v];
    if j < |init| {
      TexCoordsAt(init, j);
      UVAtAppend(TexCoords(init), [t.u, t.v], j);
    }
  }

  /** Appending values leaves the elements already stored as they were. */
  lemma Vec3AtAppend(s: seq<real>, t: seq<real>, j: nat)
    requires 3 * j + 3 <= |s|
    ensures Vec3At(s + t, j) == Vec3At(s, j)
  {
  }

  lemma UVAtAppend(s: seq<real>, t: seq<real>, j: nat)
    requires 2 * j + 2 <= |s|
    ensures UVAt(s + t, j) == UVAt(s, j)
  {
  }

  /** The arrays that flattening the mesh yields: they hold 9, 9 and 6
      values per face, and corner c of face fi sits at stream element
      3 * fi + c with that corner's position, its normal (or the fallback)
      and its texture coordinate (or the fallback). */
  lemma FlattenedLayout(m: Mesh, hasUV: bool, fi: nat, c: nat)
    requires WellIndexed(m, hasUV) && fi < |m.f| && c < 3
    ensures var vs := Corners(m, hasUV, |m.f|);
      |Positions(vs)| == 9 * |m.f| && |Normals(vs)| == 9 * |m.f| && |TexCoords(vs)| == 6 * |m.f| &&
      Vec3At(Positions(vs), 3 * fi + c) == m.v[m.f[fi].At(c)] &&
      Vec3At(Normals(vs), 3 * fi + c) == CornerNormal(m, fi, c) &&
      UVAt(TexCoords(vs), 3 * fi + c) == CornerUV(m, hasUV, fi, c)
  {
    var vs := Corners(m, hasUV, |m.f|);
    CornersLayout(m, hasUV, |m.f|, fi, c);
    PositionsAt(vs, 3 * fi + c);
    NormalsAt(vs, 3 * fi + c);
    TexCoordsAt(vs, 3 * fi + c);
  }

  /** Packing one more vertex appends its values to each array. */
  lemma PackAppend(vs: seq<Vertex>, v: Vertex)
    ensures Positions(vs + [v]) == Positions(vs) + [v.pos.x, v.pos.y, v.pos.z]
    ensures Normals(vs + [v]) == Normals(vs) + [v.normal.x, v.normal.y, v.normal.z]
    ensures TexCoords(vs + [v]) == TexCoords(vs) + [v.uv.u, v.uv.v]
  {
    assert (vs + [v])[..|vs|] == vs;
  }

  /** Corner c of face fi follows the corners before it: appending it to
      the corners emitted so far gives the corners up to and including it
      (after the last corner, those of the whole face), and its values are
      appended to each array. */
  lemma AppendCorner(m: Mesh, hasUV: bool, fi: nat, c: nat, done: seq<Vertex>, v: Vertex)
    requires WellIndexed(m, hasUV) && fi < |m.f| && c < 3
    requires done == Corners(m, hasUV, fi) + FaceVertices(m, hasUV, fi)[..c]
    requires v == CornerVertex(m, hasUV, fi, c)
    ensures done + [v] == Corners(m, hasUV, fi) + FaceVertices(m, hasUV, fi)[..c + 1]
    ensures c == 2 ==> done + [v] == Corners(m, hasUV, fi + 1)
    ensures Positions(done + [v]) == Positions(done) + [v.pos.x, v.pos.y, v.pos.z]
    ensures Normals(done + [v]) == Normals(done) + [v.normal.x, v.normal.y, v.normal.z]
    ensures TexCoords(done + [v]) == TexCoords(done) + [v.uv.u, v.uv.v]
  {
    var face := FaceVertices(m, hasUV, fi);
    assert face[..c + 1] == face[..c] + [face[c]];
    assert face[..3] == face;
    PackAppend(done, v);
  }

  /** The values the loop reads for corner c of face fi: the position,
      the normal or the fallback, and the texture coordinate or (0, 0). */
  method ReadCorner(m: Mesh, hasUV: bool, fi: nat, c: nat) returns (p: Vec3, n: Vec3, u: real, w: real)
    requires WellIndexed(m, hasUV) && fi < |m.f| && c < 3
    ensures Vertex(p, n, UV(u, w)) == CornerVertex(m, hasUV, fi, c)
  {
    var vi := m.f[fi].At(c);
    var ni := m.fn[fi].At(c);
    p := m.v[vi];
    n := if |m.vn| > 0 && ni >= 0 then m.vn[ni] else UP;
    u, w := 0.0, 0.0;
    if hasUV {
      var ti := m.ft[fi].At(c);
      if ti >= 0 && ti < |m.vt| {
        u, w := m.vt[ti].x, m.vt[ti].y;
      }
    }
  }

  /** De-indexes the mesh into vertex streams, face by face and corner by
      corner; FlattenedLayout says where each corner lands. */
  method Flatten(m: Mesh, hasUV: bool) returns (positions: seq<real>, normals: seq<real>, uvs: seq<real>)
    requires WellIndexed(m, hasUV)
    ensures var vs := Corners(m, hasUV, |m.f|);
      positions == Positions(vs) && normals == Normals(vs) && uvs == TexCoords(vs)
  {
    positions, normals, uvs := [], [], [];
    ghost var done: seq<Vertex> := [];
    var fi := 0;
    while fi < |m.f|
      invariant 0 <= fi <= |m.f|
      invariant done == Corners(m, hasUV, fi)
      invariant positions == Positions(done) && normals == Normals(done) && uvs == TexCoords(done)
    {
      var c := 0;
      while c < 3
        invariant 0 <= c <= 3
        invariant done == Corners(m, hasUV, fi) + FaceVertices(m, hasUV, fi)[..c]
        invariant c == 3 ==> done == Corners(m, hasUV, fi + 1)
        invariant positions == Positions(done) && normals == Normals(done) && uvs == TexCoords(done)
      {
        var p, n, u, w := ReadCorner(m, hasUV, fi, c);
        ghost var v := Vertex(p, n, UV(u, w));
        AppendCorner(m, hasUV, fi, c, done, v);
        positions := positions + [p.x, p.y, p.z];
        normals := normals + [n.x, n.y, n.z];
        uvs := uvs + [u, w];
        done := done + [v];
        c := c + 1;
      }
      fi := fi + 1;
    }
  }

  /** The sentinels the bounding-box loop starts from. */
  const BIG: real := 1e30

  function Min(a: real, b: real): real { if a < b then a else b }

  function Max(a: real, b: real): real { if a < b then b else a }

  /** The running minimum of axis k over the vertices, in loop order,
      starting from the sentinel. */
  function Lower(vs: seq<Vec3>, k: nat): real
    requires k < 3
    decreases |vs|
  {
    if vs == [] then BIG else Min(Lower(vs[..|vs| - 1], k), Coord(vs[|vs| - 1], k))
  }

  /** The running maximum of axis k, starting from the negated sentinel. */
  function Upper(vs: seq<Vec3>, k: nat): real
    requires k < 3
    decreases |vs|
  {
    if vs == [] then -BIG else Max(Upper(vs[..|vs| - 1], k), Coord(vs[|vs| - 1], k))
  }

  function BoxLo(vs: seq<Vec3>): Vec3
  {
    Vec3(Lower(vs, 0), Lower(vs, 1), Lower(vs, 2))
  }

  function BoxHi(vs: seq<Vec3>): Vec3
  {
    Vec3(Upper(vs, 0), Upper(vs, 1), Upper(vs, 2))
  }

  /** The AABB loop: a running componentwise min and max over all vertices,
      from the sentinels (1e30, 1e30, 1e30) and their negation. */
  method BoundingBox(vs: seq<Vec3>) returns (lo: Vec3, hi: Vec3)
    ensures lo == BoxLo(vs) && hi == BoxHi(vs)
    ensures forall i, k :: 0 <= i < |vs| && 0 <= k < 3 ==> Coord(lo, k) <= Coord(vs[i], k) <= Coord(hi, k)
  {
    lo := Vec3(BIG, BIG, BIG);
    hi := Vec3(-BIG, -BIG, -BIG);
    var i := 0;
    while i < |vs|
      invariant 0 <= i <= |vs|
      invariant lo == BoxLo(vs[..i]) && hi == BoxHi(vs[..i])
    {
      var p := vs[i];
      lo := Vec3(Min(lo.x, p.x), Min(lo.y, p.y), Min(lo.z, p.z));
      hi := Vec3(Max(hi.x, p.x), Max(hi.y, p.y), Max(hi.z, p.z));
      assert vs[..i + 1][..i] == vs[..i];
      i := i + 1;
    }
    assert vs[..i] == vs;
    forall i, k | 0 <= i < |vs| && 0 <= k < 3
      ensures Coord(lo, k) <= Coord(vs[i], k) <= Coord(hi, k)
    {
      BoxContains(vs, i, k);
    }
  }

  /** Every vertex lies inside the box on every axis. */
  lemma {:induction false} BoxContains(vs: seq<Vec3>, i: nat, k: nat)
    requires i < |vs| && k < 3
    ensures Lower(vs, k) <= Coord(vs[i], k) <= Upper(vs, k)
    decreases |vs|
  {
    var init := vs[..|vs| - 1];
    if i < |vs| - 1 {
      BoxContains(init, i, k);
      assert init[i] == vs[i];
    }
  }

  /** Each bound is the sentinel or a coordinate of some vertex. */
  lemma {:induction false} BoundsAttainedOrSentinel(vs: seq<Vec3>, k: nat)
    requires k < 3
    ensures Lower(vs, k) == BIG || exists i :: 0 <= i < |vs| && Coord(vs[i], k) == Lower(vs, k)
    ensures Upper(vs, k) == -BIG || exists i :: 0 <= i < |vs| && Coord(vs[i], k) == Upper(vs, k)
    decreases |vs|
  {
    if vs != [] {
      var init := vs[..|vs| - 1];
      BoundsAttainedOrSentinel(init, k);
      forall i | 0 <= i < |init| ensures init[i] == vs[i] { }
    }
  }

  /** Every coordinate lies strictly between the sentinels. */
  predicate WithinSentinels(vs: seq<Vec3>)
  {
    forall i, k :: 0 <= i < |vs| && 0 <= k < 3 ==> -BIG < Coord(vs[i], k) < BIG
  }

  /** For a non-empty mesh inside the sentinels the box is tight: on every
      axis each bound is a coordinate some vertex has. */
  lemma BoundsAttained(vs: seq<Vec3>, k: nat)
    requires k < 3 && |vs| > 0 && WithinSentinels(vs)
    ensures exists i :: 0 <= i < |vs| && Coord(vs[i], k) == Lower(vs, k)
    ensures exists i :: 0 <= i < |vs| && Coord(vs[i], k) == Upper(vs, k)
  {
    BoxContains(vs, 0, k);
    BoundsAttainedOrSentinel(vs, k);
  }

  /** With no vertices the box is the sentinels themselves, inverted. */
  lemma EmptyBox()
    ensures BoxLo([]) == Vec3(BIG, BIG, BIG) && BoxHi([]) == Vec3(-BIG, -BIG, -BIG)
  {
  }

  /** The extent of the box along axis k. */
  function Extent(lo: Vec3, hi: Vec3, k: nat): real
    requires k < 3
  {
    Coord(hi, k) - Coord(lo, k)
  }

  /** The largest of the three extents. */
  function MaxExtent(lo: Vec3, hi: Vec3): (e: real)
    ensures forall k :: 0 <= k < 3 ==> Extent(lo, hi, k) <= e
    ensures exists k :: 0 <= k < 3 && Extent(lo, hi, k) == e
  {
    var ex, ey, ez := Extent(lo, hi, 0), Extent(lo, hi, 1), Extent(lo, hi, 2);
    var e := Max(ex, Max(ey, ez));
    assert Extent(lo, hi, 0) == e || Extent(lo, hi, 1) == e || Extent(lo, hi, 2) == e;
    e
  }

  /** The side the object is scaled to, and the smallest extent that is
      still scaled. */
  const TARGET_SIZE: real := 2.0
  const MIN_EXTENT: real := 1e-8

  /** Where the object is centred and how much it is scaled. */
  datatype Placement = Placement(center: Vec3, scale: real)

  /** The factor that brings a largest extent e to the target size, or 1
      when the box is too thin to scale. */
  function AutoScale(e: real): (s: real)
    ensures s > 0.0
    ensures e > MIN_EXTENT ==> s * e == TARGET_SIZE
    ensures e <= MIN_EXTENT ==> s == 1.0
  {
    if e > MIN_EXTENT then TARGET_SIZE / e else 1.0
  }

  /** The centre of the box. */
  function Midpoint(lo: Vec3, hi: Vec3): (c: Vec3)
    ensures forall k :: 0 <= k < 3 ==> Coord(c, k) - Coord(lo, k) == Coord(hi, k) - Coord(c, k)
  {
    Vec3((lo.x + hi.x) * 0.5, (lo.y + hi.y) * 0.5, (lo.z + hi.z) * 0.5)
  }

  /** The centre and auto-scale derived from the box: the midpoint, and the
      factor that brings the largest extent to 2 (1 for a degenerate box). */
  function AutoFit(lo: Vec3, hi: Vec3): (fit: Placement)
    ensures forall k :: 0 <= k < 3 ==>
      Coord(fit.center, k) - Coord(lo, k) == Coord(hi, k) - Coord(fit.center, k)
    ensures fit.scale > 0.0
    ensures MaxExtent(lo, hi) > MIN_EXTENT ==> fit.scale * MaxExtent(lo, hi) == TARGET_SIZE
    ensures MaxExtent(lo, hi) <= MIN_EXTENT ==> fit.scale == 1.0
  {
    Placement(Midpoint(lo, hi), AutoScale(MaxExtent(lo, hi)))
  }

  /** Where a point lands once the object is centred and scaled. */
  function Normalise(fit: Placement, p: Vec3, k: nat): real
    requires k < 3
  {
    (Coord(p, k) - Coord(fit.center, k)) * fit.scale
  }

  /** A point that lies between the bounds on axis k lands within [-1,1]
      on that axis once the object is centred and scaled, degenerate boxes
      included; so a box that holds every vertex puts the whole object
      inside the cube [-1,1]^3. */
  lemma FitsUnitCube(lo: Vec3, hi: Vec3, p: Vec3, k: nat)
    requires k < 3
    requires Coord(lo, k) <= Coord(p, k) <= Coord(hi, k)
    ensures -1.0 <= Normalise(AutoFit(lo, hi), p, k) <= 1.0
  {
    PlacementBound(AutoFit(lo, hi), lo, hi, p, k, MaxExtent(lo, hi));
  }

  /** The same bound for any placement centred on the box whose scale
      treats e, an extent at least that of axis k, as the largest one. */
  lemma PlacementBound(fit: Placement, lo: Vec3, hi: Vec3, p: Vec3, k: nat, e: real)
    requires k < 3
    requires Coord(lo, k) <= Coord(p, k) <= Coord(hi, k)
    requires Coord(fit.center, k) - Coord(lo, k) == Coord(hi, k) - Coord(fit.center, k)
    requires Extent(lo, hi, k) <= e
    requires e > MIN_EXTENT ==> fit.scale * e == TARGET_SIZE
    requires e <= MIN_EXTENT ==> fit.scale == 1.0
    ensures -1.0 <= Normalise(fit, p, k) <= 1.0
  {
    HalfExtent(Coord(lo, k), Coord(p, k), Coord(hi, k), Coord(fit.center, k), e);
    ScaledOffset(Coord(p, k) - Coord(fit.center, k), e, fit.scale);
  }

  /** A point of [a, b] is within half of any e >= b - a of the midpoint c. */
  lemma HalfExtent(a: real, x: real, b: real, c: real, e: real)
    requires a <= x <= b && c - a == b - c && b - a <= e
    ensures -e / 2.0 <= x - c <= e / 2.0
  {
  }

  /** An offset of at most half the largest extent, times the auto-scale
      factor for that extent, is at most 1 in size. */
  lemma ScaledOffset(d: real, e: real, s: real)
    requires -e / 2.0 <= d <= e / 2.0
    requires e > MIN_EXTENT ==> s * e == TARGET_SIZE
    requires e <= MIN_EXTENT ==> s == 1.0
    ensures -1.0 <= d * s <= 1.0
  {
    if e > MIN_EXTENT {
      assert s > 0.0;
      ScaleBound(d, e / 2.0, s);
      assert e / 2.0 * s == s * e / 2.0;
    }
  }

  /** |d| <= h and s > 0 give |d * s| <= h * s. */
  lemma ScaleBound(d: real, h: real, s: real)
    requires -h <= d <= h && s > 0.0
    ensures -(h * s) <= d * s <= h * s
  {
  }

  /** The camera distance main.cpp derives from the scaled box diagonal
      (`root` is the square root of the sum of squared extents). */
  function InitialDistance(root: real, scale: real): (d: real)
    ensures d >= 2.0 && d >= root * scale * 0.1
    ensures d == 2.0 || d == root * scale * 0.1
  {
    Max(2.0, root * scale * 0.1)
  }

  /** The vector of extents, bbMax - bbMin. */
  function Ext(lo: Vec3, hi: Vec3): (ext: Vec3)
    ensures forall k :: 0 <= k < 3 ==> Coord(ext, k) == Extent(lo, hi, k)
  {
    Vec3(hi.x - lo.x, hi.y - lo.y, hi.z - lo.z)
  }

  /** The squared length of the box diagonal. */
  function DiagonalSquared(ext: Vec3): real
  {
    ext.x * ext.x + ext.y * ext.y + ext.z * ext.z
  }

  /** For any box that holds a point, the derived distance is exactly 2:
      a scaled diagonal is at most 2 * sqrt(3), far below the 20 it would
      need to matter. So the program starts with the camera distance inside
      the range that the cursor callback keeps. */
  lemma InitialDistanceIsTwo(lo: Vec3, hi: Vec3, root: real)
    requires forall k :: 0 <= k < 3 ==> Coord(lo, k) <= Coord(hi, k)
    requires root >= 0.0 && root * root == DiagonalSquared(Ext(lo, hi))
    ensures InitialDistance(root, AutoFit(lo, hi).scale) == 2.0
  {
    var ext := Ext(lo, hi);
    var e := MaxExtent(lo, hi);
    assert 0.0 <= Coord(ext, 0) <= e && 0.0 <= Coord(ext, 1) <= e && 0.0 <= Coord(ext, 2) <= e;
    DistanceBound(ext, e, root, AutoFit(lo, hi).scale);
  }

  /** The same for any extents below e and the auto-scale factor for e. */
  lemma DistanceBound(ext: Vec3, e: real, root: real, s: real)
    requires 0.0 <= ext.x <= e && 0.0 <= ext.y <= e && 0.0 <= ext.z <= e
    requires root >= 0.0 && root * root == DiagonalSquared(ext)
    requires e > MIN_EXTENT ==> s * e == TARGET_SIZE
    requires e <= MIN_EXTENT ==> s == 1.0
    ensures InitialDistance(root, s) == 2.0
  {
    DiagonalBound(ext.x, ext.y, ext.z, e, root);
    ScaledDiagonalBound(root, e, s);
    RootBound(root * s);
  }

  /** With no vertices the box is the inverted sentinels, the scale stays
      1, and the derived distance is far beyond the range the cursor
      callback keeps, until the first right-drag clamps it. */
  lemma EmptyMeshDistance(root: real)
    requires root >= 0.0 && root * root == DiagonalSquared(Ext(BoxLo([]), BoxHi([])))
    ensures InitialDistance(root, AutoFit(BoxLo([]), BoxHi([])).scale) > 5.0
  {
    var lo, hi := BoxLo([]), BoxHi([]);
    assert lo == Vec3(BIG, BIG, BIG) && hi == Vec3(-BIG, -BIG, -BIG);
    assert MaxExtent(lo, hi) <= MIN_EXTENT;
    SmallRoot(root);
  }

  /** A non-negative number of at most 50 has a square of at most 2500. */
  lemma SmallRoot(x: real)
    requires x >= 0.0
    ensures x <= 50.0 ==> x * x <= 2500.0
  {
    if x <= 50.0 {
      SquareBound(x, 50.0);
    }
  }

  /** The diagonal of a box is at most sqrt(3) times its largest extent. */
  lemma DiagonalBound(ex: real, ey: real, ez: real, e: real, root: real)
    requires 0.0 <= ex <= e && 0.0 <= ey <= e && 0.0 <= ez <= e
    requires root * root == ex * ex + ey * ey + ez * ez
    ensures root * root <= 3.0 * (e * e)
  {
    SquareBound(ex, e);
    SquareBound(ey, e);
    SquareBound(ez, e);
  }

  /** Scaled by the auto-scale factor, that diagonal squared is at most 12. */
  lemma ScaledDiagonalBound(root: real, e: real, s: real)
    requires 0.0 <= e && root * root <= 3.0 * (e * e)
    requires e > MIN_EXTENT ==> s * e == TARGET_SIZE
    requires e <= MIN_EXTENT ==> s == 1.0
    ensures (root * s) * (root * s) <= 12.0
  {
    assert (root * s) * (root * s) == (root * root) * (s * s);
    if e > MIN_EXTENT {
      assert (e * e) * (s * s) == (s * e) * (s * e) == 4.0;
      assert (root * root) * (s * s) <= (3.0 * (e * e)) * (s * s);
    } else {
      SquareBound(e, 1.0);
    }
  }

  /** A non-negative number whose square is at most 12 is at most 4. */
  lemma RootBound(x: real)
    ensures x * x <= 12.0 ==> x <= 4.0
  {
    if x > 4.0 {
      assert x * x > 4.0 * x;
    }
  }

  /** 0 <= a <= b gives a*a <= b*b. */
  lemma SquareBound(a: real, b: real)
    requires 0.0 <= a <= b
    ensures a * a <= b * b
  {
    assert a * a <= a * b <= b * b;
  }
}
