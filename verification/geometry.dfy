/**
 The static particle mesh built by `BirdGeometry` in src/scripts/Birds.js.

 Every bird is three triangles (body, left wing, right wing), nine vertices,
 27 position floats. Besides the positions the mesh carries, per vertex, a
 colour, a 2D reference coordinate into the W x W simulation textures and a
 role index. All four attribute buffers are Float32Arrays; they are modelled
 as sequences of reals. For the source's width of 32 every value written to
 the position, reference and role buffers is a small integer or a multiple
 of 1/32, so no Float32 rounding happens there. The colour components are
 not exact in Float32; the conversion parameter `toRgb` stands for the
 library conversion followed by that rounding.
 */
module Geometry {

  import opened Buffers

  /** Texture width of the simulation (Birds.js line 10). */
  const Width: nat := 32

  /** The source's width meets the requirement of the mesh builders. */
  lemma SourceWidthValid()
    ensures ValidWidth(Width)
    ensures BirdCount(Width) == 1024 && PointCount(Width) == 9216
    ensures BirdCount(Width) % 3 == 1
  {
  }

  /** Widths for which the model's floor division agrees with the source's
      `~ ~(x)` truncation: every vertex index stays below 2^31. */
  predicate ValidWidth(w: nat) {
    0 < w && 9 * w * w < 0x8000_0000
  }

  function BirdCount(w: nat): nat { w * w }
  function TriangleCount(w: nat): nat { 3 * BirdCount(w) }
  function PointCount(w: nat): nat { 3 * TriangleCount(w) }

  const WingsSpan: real := 20.0

  /** The nine floats of each triangle, in the order they are pushed. */
  const Body: seq<real> := [0.0, -0.0, -20.0,  0.0, 4.0, -20.0,  0.0, 0.0, 30.0]
  const LeftWing: seq<real> := [0.0, 0.0, -15.0,  -WingsSpan, 0.0, 0.0,  0.0, 0.0, 15.0]
  const RightWing: seq<real> := [0.0, 0.0, 15.0,  WingsSpan, 0.0, 0.0,  0.0, 0.0, -15.0]

  /** The 27 position floats every bird receives. */
  const Template: seq<real> := Body + LeftWing + RightWing

  // ---------------------------------------------------------------------------
  // Position buffer
  // ---------------------------------------------------------------------------

  /** `verts_push`: copies `args` into `a` through the shared cursor `v`. */
  method VertsPush(a: seq<real>, v: nat, args: seq<real>) returns (r: seq<real>, v': nat)
    ensures v' == v + |args|
    ensures |r| == |a|
    ensures forall j :: 0 <= j < |a| ==> r[j] == (if v <= j < v' then args[j - v] else a[j])
  {
    r, v' := a, v;
    var i := 0;
    while i < |args|
      invariant 0 <= i <= |args|
      invariant v' == v + i
      invariant |r| == |a|
      invariant forall j :: 0 <= j < |a| ==> r[j] == (if v <= j < v' then args[j - v] else a[j])
    {
      r := Store(r, v', args[i]);
      v' := v' + 1;
      i := i + 1;
    }
  }

  /** The 27 floats of bird `f` inside a position buffer. */
  function BirdPositions(a: seq<real>, f: nat): seq<real>
    requires 27 * f + 27 <= |a|
  {
    a[27 * f .. 27 * f + 27]
  }

  lemma OffsetInBird(f: nat, d: nat)
    requires d < 27
    ensures (27 * f + d) % 27 == d
    ensures (27 * f + d) / 27 == f
  {
  }

  /** The template loop: one body, one left wing and one right wing per bird.
      The cursor ends exactly at the buffer's length, so nothing is dropped
      and nothing is left at its initial zero. */
  method PushTemplates(w: nat) returns (vertices: seq<real>, cursor: nat)
    requires ValidWidth(w)
    ensures |vertices| == 3 * PointCount(w)
    ensures cursor == |vertices|
    ensures forall j :: 0 <= j < |vertices| ==> vertices[j] == Template[j % 27]
    ensures forall f :: 0 <= f < BirdCount(w) ==> BirdPositions(vertices, f) == Template
  {
    vertices := seq(3 * PointCount(w), _ => 0.0);
    cursor := 0;
    var f := 0;
    while f < BirdCount(w)
      invariant 0 <= f <= BirdCount(w)
      invariant cursor == 27 * f
      invariant |vertices| == 3 * PointCount(w)
      invariant forall j :: 0 <= j < |vertices| ==>
        vertices[j] == (if j < cursor then Template[j % 27] else 0.0)
    {
      vertices, cursor := VertsPush(vertices, cursor, Body);
      vertices, cursor := VertsPush(vertices, cursor, LeftWing);
      vertices, cursor := VertsPush(vertices, cursor, RightWing);
      forall j | 0 <= j < |vertices|
        ensures vertices[j] == (if j < cursor then Template[j % 27] else 0.0)
      {
        if 27 * f <= j < cursor {
          OffsetInBird(f, j - 27 * f);
        }
      }
      f := f + 1;
    }
    forall f | 0 <= f < BirdCount(w)
      ensures BirdPositions(vertices, f) == Template
    {
      forall d | 0 <= d < 27
        ensures BirdPositions(vertices, f)[d] == Template[d]
      {
        OffsetInBird(f, d);
      }
    }
  }

  // ---------------------------------------------------------------------------
  // Reference, role and colour buffers
  // ---------------------------------------------------------------------------

  /** The texture coordinate of flat index `i` on a W x W grid:
      (i mod W, i div W) / W. */
  function GridCoordinate(w: nat, i: nat): (real, real)
    requires 0 < w
  {
    ((i % w) as real / w as real, (i / w) as real / w as real)
  }

  /** The reference coordinate vertex `v` receives: the source divides by 3,
      so it is the coordinate of the vertex's TRIANGLE. */
  function Reference(w: nat, v: nat): (real, real)
    requires 0 < w
  {
    GridCoordinate(w, v / 3)
  }

  /** The row the reference of vertex `v` points at, before wrapping. */
  function ReferenceRow(w: nat, v: nat): nat
    requires 0 < w
  {
    (v / 3) / w
  }

  /** The role index written to the `birdVertex` buffer. */
  function Role(v: nat): nat { v % 9 }

  /** The number handed to `THREE.Color` for vertex `v`: a grey ramp driven
      by the bird index `v div 9`. */
  function ColorHex(w: nat, v: nat): real
    requires 0 < w
  {
    0x444444 as real + ((v / 9) as real / BirdCount(w) as real) * 0x666666 as real
  }

  /** Red, green and blue components as stored in the colour buffer: the
      library conversion of a colour number followed by Float32 rounding,
      neither of which is part of this model. */
  datatype Rgb = Rgb(r: real, g: real, b: real)

  /** The pair stored for vertex `v` in a reference buffer. */
  function ReferenceAt(refs: seq<real>, v: nat): (real, real)
    requires 2 * v + 1 < |refs|
  {
    (refs[2 * v], refs[2 * v + 1])
  }

  /** The triple stored for vertex `v` in a colour buffer. */
  function ColorAt(colors: seq<real>, v: nat): Rgb
    requires 3 * v + 2 < |colors|
  {
    Rgb(colors[3 * v], colors[3 * v + 1], colors[3 * v + 2])
  }

  /** The per-vertex loop: for every vertex its colour, its reference pair and
      its role are written; the buffers hold nothing else. */
  method FillVertexAttributes(w: nat, toRgb: real -> Rgb)
    returns (colors: seq<real>, refs: seq<real>, roles: seq<real>)
    requires ValidWidth(w)
    ensures |colors| == 3 * PointCount(w)
    ensures |refs| == 2 * PointCount(w)
    ensures |roles| == PointCount(w)
    ensures forall v :: 0 <= v < PointCount(w) ==> ColorAt(colors, v) == toRgb(ColorHex(w, v))
    ensures forall v :: 0 <= v < PointCount(w) ==> ReferenceAt(refs, v) == Reference(w, v)
    ensures forall v :: 0 <= v < PointCount(w) ==> roles[v] == Role(v) as real
  {
    var points := PointCount(w);
    colors := seq(3 * points, _ => 0.0);
    refs := seq(2 * points, _ => 0.0);
    roles := seq(points, _ => 0.0);
    var v := 0;
    while v < points
      invariant 0 <= v <= points
      invariant |colors| == 3 * points && |refs| == 2 * points && |roles| == points
      invariant forall u :: 0 <= u < v ==> ColorAt(colors, u) == toRgb(ColorHex(w, u))
      invariant forall u :: 0 <= u < v ==> ReferenceAt(refs, u) == Reference(w, u)
      invariant forall u :: 0 <= u < v ==> roles[u] == Role(u) as real
    {
      var i := v / 3;
      var x := (i % w) as real / w as real;
      var y := (i / w) as real / w as real;
      var c := toRgb(ColorHex(w, v));
      colors := colors[3 * v := c.r][3 * v + 1 := c.g][3 * v + 2 := c.b];
      refs := refs[2 * v := x][2 * v + 1 := y];
      roles := roles[v := (v % 9) as real];
      v := v + 1;
    }
  }

  /** The four attribute buffers of the mesh. */
  datatype Mesh = Mesh(position: seq<real>, birdColor: seq<real>, reference: seq<real>, birdVertex: seq<real>)

  /** `BirdGeometry` up to its last statement: the four attribute buffers
      for a W x W flock before the mesh is scaled by 0.2. */
  method BuildGeometry(w: nat, toRgb: real -> Rgb) returns (m: Mesh)
    requires ValidWidth(w)
    ensures |m.position| == 3 * PointCount(w)
    ensures |m.birdColor| == 3 * PointCount(w)
    ensures |m.reference| == 2 * PointCount(w)
    ensures |m.birdVertex| == PointCount(w)
    ensures forall f :: 0 <= f < BirdCount(w) ==> BirdPositions(m.position, f) == Template
    ensures forall v :: 0 <= v < PointCount(w) ==> ColorAt(m.birdColor, v) == toRgb(ColorHex(w, v))
    ensures forall v :: 0 <= v < PointCount(w) ==> ReferenceAt(m.reference, v) == Reference(w, v)
    ensures forall v :: 0 <= v < PointCount(w) ==> m.birdVertex[v] == Role(v) as real
  {
    var vertices, _ := PushTemplates(w);
    var colors, refs, roles := FillVertexAttributes(w, toRgb);
    m := Mesh(vertices, colors, refs, roles);
  }

  // ---------------------------------------------------------------------------
  // Properties of the reference, role and colour layout
  // ---------------------------------------------------------------------------

  /** Bird f's nine vertices carry the roles 0, 1, ..., 8 in order. */
  lemma BirdRoles(f: nat, j: nat)
    requires j < 9
    ensures Role(9 * f + j) == j
    ensures Role(9 * f + j) < 9
  {
  }

  /** The three vertices of triangle t share one reference. */
  lemma TriangleSharesReference(w: nat, t: nat)
    requires 0 < w
    ensures Reference(w, 3 * t + 1) == Reference(w, 3 * t)
    ensures Reference(w, 3 * t + 2) == Reference(w, 3 * t)
  {
    assert (3 * t + 1) / 3 == t;
    assert (3 * t + 2) / 3 == t;
  }

  lemma DivBound(a: nat, w: nat, k: nat)
    requires 0 < w && a < k * w
    ensures a / w < k
  {
  }

  lemma MulLe(a: nat, b: nat, m: nat)
    requires a <= b
    ensures a * m <= b * m
  {
  }

  /** Quotient and remainder are determined by any decomposition
      t == s * m + rem with rem < m. */
  lemma DivModUnique(t: nat, m: nat, s: nat, rem: nat)
    requires 0 < m && rem < m && t == s * m + rem
    ensures t % m == rem
    ensures t / m == s
  {
    var q := t / m;
    assert t == q * m + t % m;
    if q < s {
      MulLe(q + 1, s, m);
      assert false;
    } else if q > s {
      MulLe(s + 1, q, m);
      assert false;
    }
  }

  lemma DigitBound(w: nat, r: nat, c: nat)
    requires r < w && c < w
    ensures r * w + c < w * w
  {
    MulLe(r, w - 1, w);
  }

  /** Every reference of the mesh has its column coordinate in [0, 1) and its
      row index in [0, 3W): rows past W - 1 are only meaningful because the
      simulation textures repeat-wrap. */
  lemma ReferenceInRange(w: nat, v: nat)
    requires 0 < w && v < PointCount(w)
    ensures 0.0 <= Reference(w, v).0 < 1.0
    ensures 0.0 <= Reference(w, v).1
    ensures ReferenceRow(w, v) < 3 * w
    ensures Reference(w, v).1 == ReferenceRow(w, v) as real / w as real
  {
    var t := v / 3;
    TriangleOfPoint(w, v);
    RowBound(w, t);
    ColumnFraction(w, t);
  }

  lemma TriangleOfPoint(w: nat, v: nat)
    requires v < PointCount(w)
    ensures v / 3 < TriangleCount(w)
  {
  }

  lemma RowBound(w: nat, t: nat)
    requires 0 < w && t < TriangleCount(w)
    ensures t / w < 3 * w
  {
    assert t < (3 * w) * w;
    DivBound(t, w, 3 * w);
  }

  lemma ColumnFraction(w: nat, t: nat)
    requires 0 < w
    ensures 0.0 <= (t % w) as real / w as real < 1.0
  {
  }

  /** Distinct flat indices get distinct grid coordinates, hence distinct
      triangles get distinct references. */
  lemma GridCoordinateInjective(w: nat, i: nat, k: nat)
    requires 0 < w && i != k
    ensures GridCoordinate(w, i) != GridCoordinate(w, k)
  {
  }

  lemma TrianglesHaveDistinctReferences(w: nat, v1: nat, v2: nat)
    requires 0 < w && v1 / 3 != v2 / 3
    ensures Reference(w, v1) != Reference(w, v2)
  {
    GridCoordinateInjective(w, v1 / 3, v2 / 3);
  }

  /** The flat particle index a grid column and row address on a W x W
      texture whose rows wrap around (the repeat wrapping of lines 181-184). */
  function WrappedParticle(w: nat, col: nat, row: nat): nat
    requires 0 < w
  {
    (row % w) * w + col % w
  }

  lemma Regroup(s: nat, r: nat, c: nat, w: nat)
    ensures (s * w + r) * w + c == s * (w * w) + (r * w + c)
  {
  }

  lemma SplitTwice(w: nat, t: nat)
    requires 0 < w
    ensures t == ((t / w) / w) * (w * w) + (((t / w) % w) * w + t % w)
  {
    var q := t / w;
    assert t == q * w + t % w;
    assert q == (q / w) * w + q % w;
    Regroup(q / w, q % w, t % w, w);
  }

  /** Reducing an index modulo W^2 keeps its column and wraps its row. */
  lemma ModOfSquare(w: nat, t: nat)
    requires 0 < w
    ensures t % (w * w) == ((t / w) % w) * w + t % w
  {
    SplitTwice(w, t);
    DigitBound(w, (t / w) % w, t % w);
    DivModUnique(t, w * w, (t / w) / w, ((t / w) % w) * w + t % w);
  }

  /** Under repeat wrapping triangle t samples the simulation state of
      particle t mod W^2, so the reference of a vertex addresses particle
      (v div 3) mod W^2. */
  lemma ReferenceAddressesParticle(w: nat, v: nat)
    requires 0 < w
    ensures WrappedParticle(w, (v / 3) % w, ReferenceRow(w, v)) == (v / 3) % BirdCount(w)
  {
    var t := v / 3;
    ModOfSquare(w, t);
    DivModUnique(t % w, w, 0, t % w);
    assert WrappedParticle(w, t % w, ReferenceRow(w, v)) == ((t / w) % w) * w + t % w;
  }

  /** Each particle is addressed by exactly three triangles of the mesh:
      p, p + W^2 and p + 2 W^2. */
  lemma ParticleAddressedThrice(w: nat, p: nat, t: nat)
    requires 0 < w && p < BirdCount(w) && t < TriangleCount(w)
    ensures t % BirdCount(w) == p <==> (t == p || t == p + BirdCount(w) || t == p + 2 * BirdCount(w))
  {
    var B := BirdCount(w);
    if t == p { DivModUnique(t, B, 0, p); }
    if t == p + B { DivModUnique(t, B, 1, p); }
    if t == p + 2 * B { DivModUnique(t, B, 2, p); }
    DivBound(t, B, 3);
    assert t == (t / B) * B + t % B;
  }

  /** The colour number depends only on the bird and lies in
      [0x444444, 0xAAAAAA). */
  lemma ColorHexPerBird(w: nat, f: nat, j: nat)
    requires 0 < w && f < BirdCount(w) && j < 9
    ensures ColorHex(w, 9 * f + j) == ColorHex(w, 9 * f)
    ensures 0x444444 as real <= ColorHex(w, 9 * f + j) < 0xAAAAAA as real
  {
    assert (9 * f + j) / 9 == f;
    var B := BirdCount(w) as real;
    assert 0.0 <= f as real / B < 1.0;
  }

  // ---------------------------------------------------------------------------
  // Per-bird references: the layout the shader evidently expects
  // ---------------------------------------------------------------------------

  /** The reference of vertex `v` indexed by its BIRD, `v div 9`. */
  function BirdReference(w: nat, v: nat): (real, real)
    requires 0 < w
  {
    GridCoordinate(w, v / 9)
  }

  /** As written, two vertices of the same bird can point at different
      particles: vertex 0 and vertex 3 both belong to bird 0 (0 div 9 and
      3 div 9 are both 0), yet they get different references. */
  lemma TriangleReferenceSplitsBird(w: nat)
    requires 0 < w
    ensures Reference(w, 0) != Reference(w, 3)
  {
  }

  /** When W^2 mod 3 == 1, as for W = 32, the three triangles that address
      particle p (p, p + W^2 and p + 2 W^2) are one body, one left wing and one
      right wing; for W > 1 the three come from three different birds of
      the buffer (triangle t belongs to bird t div 3). */
  lemma {:induction false} ParticleGetsEveryPart(w: nat, p: nat)
    requires 0 < w && BirdCount(w) % 3 == 1
    ensures {p % 3, (p + BirdCount(w)) % 3, (p + 2 * BirdCount(w)) % 3} == {0, 1, 2}
    ensures 1 < w ==> p / 3 != (p + BirdCount(w)) / 3
    ensures 1 < w ==> (p + BirdCount(w)) / 3 != (p + 2 * BirdCount(w)) / 3
    ensures 1 < w ==> p / 3 != (p + 2 * BirdCount(w)) / 3
  {
    var B := BirdCount(w);
    var q := B / 3;
    assert B == 3 * q + 1;
    assert p + B == 3 * q + (p + 1);
    assert p + 2 * B == 3 * (2 * q) + (p + 2);
    assert (p + B) % 3 == (p + 1) % 3;
    assert (p + 2 * B) % 3 == (p + 2) % 3;
    if 1 < w {
      assert B >= 4 by { MulLe(2, w, w); }
    }
  }

  /** With per-bird references, all nine vertices of a bird share one. */
  lemma BirdVerticesShareReference(w: nat, f: nat, j: nat)
    requires 0 < w && j < 9
    ensures BirdReference(w, 9 * f + j) == BirdReference(w, 9 * f)
    ensures BirdReference(w, 9 * f) == GridCoordinate(w, f)
  {
    assert (9 * f + j) / 9 == f;
  }

  /** With per-bird references every cell of the W x W grid is the reference
      of exactly one bird. */
  lemma BirdReferenceCoversGrid(w: nat, col: nat, row: nat)
    requires 0 < w && col < w && row < w
    ensures row * w + col < BirdCount(w)
    ensures BirdReference(w, 9 * (row * w + col)) == (col as real / w as real, row as real / w as real)
    ensures forall f :: 0 <= f < BirdCount(w) && f != row * w + col ==>
      BirdReference(w, 9 * f) != (col as real / w as real, row as real / w as real)
  {
    var p := row * w + col;
    DigitBound(w, row, col);
    DivModUnique(p, w, row, col);
    BirdVerticesShareReference(w, p, 0);
    forall f | 0 <= f < BirdCount(w) && f != p
      ensures BirdReference(w, 9 * f) != (col as real / w as real, row as real / w as real)
    {
      BirdVerticesShareReference(w, f, 0);
      GridCoordinateInjective(w, f, p);
    }
  }
}
