/**
 * Meshing of a chunk: the integer part of calculate_vertex_lighting, the
 * corner table of add_external_face, and update_geometry's face culling and
 * collision boxes.
 */
module Geometry {
  import opened Options
  import opened Vectors
  import opened Blocks
  import opened Cardinal
  import opened ChunkGrid
  import opened ChunkMap

  // ---------------------------------------------------------------------------
  // The attenuation table index (get_lighting_attenuation).
  // ---------------------------------------------------------------------------

  const MAX_POWER := 32
  const GRANULARITY := 10
  /** The last entry of the attenuation table. */
  const MAX_ATTENUATION_INDEX := MAX_POWER * GRANULARITY

  /** The rounded table index clamped into the table: below 0 reads entry 0, above the end reads the last entry. */
  function AttenuationIndex(index: int): (clamped: int)
    ensures 0 <= clamped <= MAX_ATTENUATION_INDEX
    ensures 0 <= index <= MAX_ATTENUATION_INDEX ==> clamped == index
    ensures index < 0 ==> clamped == 0
    ensures index > MAX_ATTENUATION_INDEX ==> clamped == MAX_ATTENUATION_INDEX
  {
    var low := if index < 0 then 0 else index;
    if low > MAX_ATTENUATION_INDEX then MAX_ATTENUATION_INDEX else low
  }

  /** A larger power never reads an earlier entry of the table. */
  lemma AttenuationIndexMonotone(i: int, j: int)
    requires i <= j
    ensures AttenuationIndex(i) <= AttenuationIndex(j)
  {
  }

  // ---------------------------------------------------------------------------
  // The samples of a vertex (calculate_vertex_lighting, integer part).
  // ---------------------------------------------------------------------------

  /** calculate_vertex_lighting samples four neighbours per vertex: face, two edges, corner. */
  const NUM_NEIGHBORS := 4

  /**
   * The offsets a vertex samples from its block: the face neighbour, the two
   * edge neighbours and the corner neighbour, all within one step.
   */
  predicate VertexOffsets(primary: Vec3, a: Vec3, b: Vec3) {
    IsOffset(primary) && IsOffset(Add(primary, a)) && IsOffset(Add(primary, b)) && IsOffset(Add(Add(primary, a), b))
  }

  /** A sample lets light through: it is absent, or present and translucent. */
  predicate Open(chunks: map<Vec3, Chunk>, tr: Material -> bool, nb: Option<BlockRef>)
    requires nb.Some? ==> HasBlock(chunks, nb.value)
  {
    nb.None? || tr(BlockAt(chunks, nb.value).material)
  }

  /**
   * What one sample adds to the total: a translucent block its light, an
   * absent sample full sunlight when it counts, anything else nothing.
   */
  function Contribution(chunks: map<Vec3, Chunk>, tr: Material -> bool, nb: Option<BlockRef>, counted: bool): (c: Option<Light>)
    requires nb.Some? ==> HasBlock(chunks, nb.value)
    ensures c.Some? <==> (nb.Some? && tr(BlockAt(chunks, nb.value).material)) || (nb.None? && counted)
    ensures nb.None? && counted ==> c == Some(SUNLIGHT)
  {
    match nb
    case Some(q) => if tr(BlockAt(chunks, q).material) then Some(BlockAt(chunks, q).light) else None
    case None => if counted then Some(SUNLIGHT) else None
  }

  /** The sum of the contributions that are present. */
  function SumOf(cs: seq<Option<Light>>): LightSum {
    if |cs| == 0 then ZERO_SUM
    else
      var t := SumOf(cs[..|cs| - 1]);
      match cs[|cs| - 1]
      case Some(l) => AddLight(t, l)
      case None => t
  }

  /** The number of contributions that are present. */
  function CountOf(cs: seq<Option<Light>>): (n: nat)
    ensures n <= |cs|
  {
    if |cs| == 0 then 0
    else CountOf(cs[..|cs| - 1]) + (if cs[|cs| - 1].Some? then 1 else 0)
  }

  /** Every channel of the sum lies between 0 and MAX_BRIGHTNESS per contribution. */
  lemma {:induction false} SumBounded(cs: seq<Option<Light>>)
    ensures var t := SumOf(cs); var n := CountOf(cs);
      && 0 <= t.r <= MAX_BRIGHTNESS * n && 0 <= t.g <= MAX_BRIGHTNESS * n
      && 0 <= t.b <= MAX_BRIGHTNESS * n && 0 <= t.s <= MAX_BRIGHTNESS * n
  {
    if |cs| > 0 {
      SumBounded(cs[..|cs| - 1]);
    }
  }

  /** One channel of a sum of lights. */
  function SumChannel(t: LightSum, c: ChannelName): int {
    match c
    case Red => t.r
    case Green => t.g
    case Blue => t.b
    case Sun => t.s
  }

  /** A channel of the sum is zero exactly when that channel of every contribution is. */
  lemma {:induction false} SumZero(cs: seq<Option<Light>>, c: ChannelName)
    ensures SumChannel(SumOf(cs), c) == 0 <==> forall k :: 0 <= k < |cs| && cs[k].Some? ==> LightChannel(cs[k].value, c) == 0
  {
    if |cs| > 0 {
      var init := cs[..|cs| - 1];
      SumZero(init, c);
      SumBounded(init);
      assert forall k :: 0 <= k < |init| ==> init[k] == cs[k];
    }
  }

  /** The corner sample is taken when either edge sample lets light through. */
  function DiagonalTaken(chunks: map<Vec3, Chunk>, tr: Material -> bool, ref: BlockRef, primary: Vec3, a: Vec3, b: Vec3): bool
    requires WorldValid(chunks) && HasBlock(chunks, ref) && VertexOffsets(primary, a, b)
  {
    Open(chunks, tr, Resolve(chunks, ref, Add(primary, a))) || Open(chunks, tr, Resolve(chunks, ref, Add(primary, b)))
  }

  /** The four samples; the corner one is absent (a null iterator) when it is not taken. */
  function Samples(chunks: map<Vec3, Chunk>, tr: Material -> bool, ref: BlockRef, primary: Vec3, a: Vec3, b: Vec3): (s: seq<Option<BlockRef>>)
    requires WorldValid(chunks) && HasBlock(chunks, ref) && VertexOffsets(primary, a, b)
    ensures |s| == NUM_NEIGHBORS && forall k :: 0 <= k < NUM_NEIGHBORS && s[k].Some? ==> HasBlock(chunks, s[k].value)
  {
    [Resolve(chunks, ref, primary), Resolve(chunks, ref, Add(primary, a)), Resolve(chunks, ref, Add(primary, b)),
     if DiagonalTaken(chunks, tr, ref, primary, a, b) then Resolve(chunks, ref, Add(Add(primary, a), b)) else None]
  }

  /** The contributions of the four samples; an absent corner counts only when the corner was taken. */
  function Contributions(chunks: map<Vec3, Chunk>, tr: Material -> bool, ref: BlockRef, primary: Vec3, a: Vec3, b: Vec3): (cs: seq<Option<Light>>)
    requires WorldValid(chunks) && HasBlock(chunks, ref) && VertexOffsets(primary, a, b)
    ensures |cs| == NUM_NEIGHBORS
  {
    var s := Samples(chunks, tr, ref, primary, a, b);
    var diagonal := DiagonalTaken(chunks, tr, ref, primary, a, b);
    seq(NUM_NEIGHBORS, k requires 0 <= k < NUM_NEIGHBORS => Contribution(chunks, tr, s[k], k != 3 || diagonal))
  }

  /** The integer lighting of a vertex: total, contributor count, occlusion power and whether the corner was taken. */
  function VertexLightingOf(chunks: map<Vec3, Chunk>, tr: Material -> bool, ref: BlockRef, primary: Vec3, a: Vec3, b: Vec3): VertexLighting
    requires WorldValid(chunks) && HasBlock(chunks, ref) && VertexOffsets(primary, a, b)
  {
    var cs := Contributions(chunks, tr, ref, primary, a, b);
    var diagonal := DiagonalTaken(chunks, tr, ref, primary, a, b);
    VertexLighting(SumOf(cs), CountOf(cs), NUM_NEIGHBORS - (if diagonal then 1 else 0) - CountOf(cs), diagonal)
  }

  /**
   * The corner sample is taken exactly when an edge sample is absent or
   * translucent; when it is not taken it contributes nothing, so at most
   * three samples contribute.
   */
  lemma DiagonalRule(chunks: map<Vec3, Chunk>, tr: Material -> bool, ref: BlockRef, primary: Vec3, a: Vec3, b: Vec3)
    requires WorldValid(chunks) && HasBlock(chunks, ref) && VertexOffsets(primary, a, b)
    ensures var v := VertexLightingOf(chunks, tr, ref, primary, a, b);
      var e1 := Resolve(chunks, ref, Add(primary, a));
      var e2 := Resolve(chunks, ref, Add(primary, b));
      && (v.diagonalSampled <==> e1.None? || tr(BlockAt(chunks, e1.value).material) || e2.None? || tr(BlockAt(chunks, e2.value).material))
      && (!v.diagonalSampled ==> Contributions(chunks, tr, ref, primary, a, b)[3].None? && v.contributors <= 3)
  {
    var cs := Contributions(chunks, tr, ref, primary, a, b);
    if !DiagonalTaken(chunks, tr, ref, primary, a, b) {
      assert cs[3].None?;
      assert cs == cs[..3] + [cs[3]];
      assert CountOf(cs) == CountOf(cs[..3]);
    }
  }

  /**
   * The occlusion power is NUM_NEIGHBORS minus the corner flag minus the contributors:
   * it lies in [-1, 4], and is at least 1 when the corner was not taken.
   * The source subtracts in size_t, so -1 arises as the unsigned maximum
   * read back as an int; the model's integer subtraction gives that value.
   * Each channel of the total is at most MAX_BRIGHTNESS per contributor.
   */
  lemma OcclusionRange(chunks: map<Vec3, Chunk>, tr: Material -> bool, ref: BlockRef, primary: Vec3, a: Vec3, b: Vec3)
    requires WorldValid(chunks) && HasBlock(chunks, ref) && VertexOffsets(primary, a, b)
    ensures var v := VertexLightingOf(chunks, tr, ref, primary, a, b);
      && 0 <= v.contributors <= NUM_NEIGHBORS && v.aoPower == NUM_NEIGHBORS - (if v.diagonalSampled then 1 else 0) - v.contributors
      && -1 <= v.aoPower <= 4 && (!v.diagonalSampled ==> v.aoPower >= 1)
      && 0 <= v.total.s <= MAX_BRIGHTNESS * v.contributors && 0 <= v.total.r <= MAX_BRIGHTNESS * v.contributors
  {
    DiagonalRule(chunks, tr, ref, primary, a, b);
    SumBounded(Contributions(chunks, tr, ref, primary, a, b));
  }

  /** An absent face neighbour adds full sunlight, so the sunlight total is then nonzero. */
  lemma AbsentFaceNeighborLights(chunks: map<Vec3, Chunk>, tr: Material -> bool, ref: BlockRef, primary: Vec3, a: Vec3, b: Vec3)
    requires WorldValid(chunks) && HasBlock(chunks, ref) && VertexOffsets(primary, a, b)
    requires Resolve(chunks, ref, primary).None?
    ensures var v := VertexLightingOf(chunks, tr, ref, primary, a, b);
      v.contributors >= 1 && v.total.s >= MAX_BRIGHTNESS
  {
    var cs := Contributions(chunks, tr, ref, primary, a, b);
    assert cs[0] == Some(SUNLIGHT);
    SumAtLeast(cs, 0);
  }

  /** The sunlight total is at least the sunlight of any one contribution, and the count is at least one. */
  lemma {:induction false} SumAtLeast(cs: seq<Option<Light>>, k: int)
    requires 0 <= k < |cs| && cs[k].Some?
    ensures SumOf(cs).s >= cs[k].value.s && CountOf(cs) >= 1
  {
    var init := cs[..|cs| - 1];
    SumBounded(init);
    if k < |cs| - 1 {
      assert init[k] == cs[k];
      SumAtLeast(init, k);
    }
  }

  /** Extending a prefix by one contribution adds it to the sum and the count. */
  lemma PrefixStep(cs: seq<Option<Light>>, i: int)
    requires 0 <= i < |cs|
    ensures SumOf(cs[..i + 1]) == if cs[i].Some? then AddLight(SumOf(cs[..i]), cs[i].value) else SumOf(cs[..i])
    ensures CountOf(cs[..i + 1]) == CountOf(cs[..i]) + if cs[i].Some? then 1 else 0
  {
    assert cs[..i + 1][..i] == cs[..i];
  }

  /**
   * calculate_vertex_lighting, integer part: sample the face, edge and (when
   * an edge lets light through) corner neighbours, then add up the light of
   * the translucent ones and full sunlight for the absent ones that count.
   */
  method CalculateVertexLighting(chunks: map<Vec3, Chunk>, tr: Material -> bool, ref: BlockRef, primary: Vec3, a: Vec3, b: Vec3)
    returns (v: VertexLighting)
    requires WorldValid(chunks) && HasBlock(chunks, ref) && VertexOffsets(primary, a, b)
    ensures v == VertexLightingOf(chunks, tr, ref, primary, a, b)
  {
    var neighbors, diagonal := SampleNeighbors(chunks, tr, ref, primary, a, b);
    var total, count := SumSamples(chunks, tr, ref, primary, a, b, neighbors, diagonal);
    v := VertexLighting(total, count, NUM_NEIGHBORS - (if diagonal then 1 else 0) - count, diagonal);
  }

  /**
   * The sampling part of calculate_vertex_lighting: the face and edge
   * neighbours, and the corner neighbour when an edge lets light through
   * (otherwise the corner slot stays a null iterator).
   */
  method SampleNeighbors(chunks: map<Vec3, Chunk>, tr: Material -> bool, ref: BlockRef, primary: Vec3, a: Vec3, b: Vec3)
    returns (neighbors: array<Option<BlockRef>>, diagonal: bool)
    requires WorldValid(chunks) && HasBlock(chunks, ref) && VertexOffsets(primary, a, b)
    ensures fresh(neighbors) && neighbors.Length == NUM_NEIGHBORS
    ensures forall k :: 0 <= k < NUM_NEIGHBORS ==> neighbors[k] == Samples(chunks, tr, ref, primary, a, b)[k]
    ensures diagonal == DiagonalTaken(chunks, tr, ref, primary, a, b)
  {
    neighbors := new Option<BlockRef>[NUM_NEIGHBORS];
    neighbors[0] := Resolve(chunks, ref, primary);
    neighbors[1] := Resolve(chunks, ref, Add(primary, a));
    neighbors[2] := Resolve(chunks, ref, Add(primary, b));
    neighbors[3] := None;
    diagonal := false;
    if neighbors[1].None? || tr(BlockAt(chunks, neighbors[1].value).material)
      || neighbors[2].None? || tr(BlockAt(chunks, neighbors[2].value).material)
    {
      diagonal := true;
      neighbors[3] := Resolve(chunks, ref, Add(Add(primary, a), b));
    }
  }

  /**
   * The summing loop of calculate_vertex_lighting: a translucent sample adds
   * its light, an absent one full sunlight unless it is the corner that was
   * not taken; each of these counts as a contributor.
   */
  method SumSamples(chunks: map<Vec3, Chunk>, tr: Material -> bool, ref: BlockRef, primary: Vec3, a: Vec3, b: Vec3,
                    neighbors: array<Option<BlockRef>>, diagonal: bool)
    returns (total: LightSum, count: int)
    requires WorldValid(chunks) && HasBlock(chunks, ref) && VertexOffsets(primary, a, b)
    requires neighbors.Length == NUM_NEIGHBORS
    requires forall k :: 0 <= k < NUM_NEIGHBORS ==> neighbors[k] == Samples(chunks, tr, ref, primary, a, b)[k]
    requires diagonal == DiagonalTaken(chunks, tr, ref, primary, a, b)
    ensures total == SumOf(Contributions(chunks, tr, ref, primary, a, b))
    ensures count == CountOf(Contributions(chunks, tr, ref, primary, a, b))
  {
    ghost var cs := Contributions(chunks, tr, ref, primary, a, b);
    total := ZERO_SUM;
    count := 0;
    for i := 0 to NUM_NEIGHBORS
      invariant total == SumOf(cs[..i]) && count == CountOf(cs[..i])
    {
      var nb := neighbors[i];
      PrefixStep(cs, i);
      assert cs[i] == Contribution(chunks, tr, nb, i != 3 || diagonal);
      total, count := AddSample(chunks, tr, nb, i != 3 || diagonal, total, count);
    }
    assert cs[..NUM_NEIGHBORS] == cs;
  }

  /**
   * One pass of the summing loop: a translucent block adds its light, an
   * absent sample that counts adds full sunlight, and each adds one contributor.
   */
  method AddSample(chunks: map<Vec3, Chunk>, tr: Material -> bool, nb: Option<BlockRef>, counted: bool, total: LightSum, count: int)
    returns (nextTotal: LightSum, nextCount: int)
    requires nb.Some? ==> HasBlock(chunks, nb.value)
    ensures var c := Contribution(chunks, tr, nb, counted);
      && nextTotal == (if c.Some? then AddLight(total, c.value) else total)
      && nextCount == count + (if c.Some? then 1 else 0)
  {
    nextTotal, nextCount := total, count;
    if nb.Some? {
      if tr(BlockAt(chunks, nb.value).material) {
        nextTotal := AddLight(total, BlockAt(chunks, nb.value).light);
        nextCount := count + 1;
      }
    } else if counted {
      nextTotal := AddLight(total, SUNLIGHT);
      nextCount := count + 1;
    }
  }

  // ---------------------------------------------------------------------------
  // The corner table of add_external_face.
  // ---------------------------------------------------------------------------

  /** The axis a relation runs along: 0 for x, 1 for y, 2 for z. */
  function Axis(r: Relation): (k: int)
    ensures 0 <= k < 3
  {
    match r
    case East => 0
    case West => 0
    case Above => 1
    case Below => 1
    case North => 2
    case South => 2
  }

  /** Relations along different axes have orthogonal vectors. */
  lemma DifferentAxesOrthogonal(p: Relation, q: Relation)
    requires Axis(p) != Axis(q)
    ensures Dot(RelationVector(p), RelationVector(q)) == 0
  {
  }

  /**
   * Three relations along three different axes: the face neighbour, the two
   * edge neighbours and the corner neighbour they span are all within one
   * step of the block.
   */
  lemma AcrossAxesNearby(r: Relation, p: Relation, q: Relation)
    requires Axis(p) != Axis(r) && Axis(q) != Axis(r) && Axis(p) != Axis(q)
    ensures VertexOffsets(RelationVector(r), RelationVector(p), RelationVector(q))
  {
    AxisComponents(r);
    AxisComponents(p);
    AxisComponents(q);
    SparseOffsets(RelationVector(r), RelationVector(p), RelationVector(q), Axis(r), Axis(p), Axis(q));
  }

  /** v is zero off axis k. */
  predicate OnAxis(v: Vec3, k: int) {
    && (k == 0 ==> v.y == 0 && v.z == 0)
    && (k == 1 ==> v.x == 0 && v.z == 0)
    && (k == 2 ==> v.x == 0 && v.y == 0)
  }

  /** A relation's vector is zero off its axis. */
  lemma AxisComponents(p: Relation)
    ensures OnAxis(RelationVector(p), Axis(p))
  {
  }

  /** Offsets along three different axes sum, in any of the vertex's combinations, to an offset. */
  lemma SparseOffsets(u: Vec3, v: Vec3, w: Vec3, ku: int, kv: int, kw: int)
    requires IsOffset(u) && IsOffset(v) && IsOffset(w)
    requires 0 <= ku < 3 && 0 <= kv < 3 && 0 <= kw < 3 && ku != kv && kv != kw && ku != kw
    requires OnAxis(u, ku) && OnAxis(v, kv) && OnAxis(w, kw)
    ensures VertexOffsets(u, v, w)
  {
  }

  /**
   * One entry of the table: the two in-plane directions whose neighbours a
   * vertex samples besides the face neighbour (the last six arguments of the
   * V macro, each a unit vector along one axis).
   */
  datatype Corner = Corner(a: Relation, b: Relation)

  /**
   * The row of the table for a face, vertex by vertex. Every entry samples
   * along the two axes of the face's plane, so its samples lie within one
   * step of the block.
   */
  function FaceCorner(r: Relation, k: int): (c: Corner)
    requires 0 <= k < NUM_VERTICES
    ensures Axis(c.a) != Axis(r) && Axis(c.b) != Axis(r) && Axis(c.a) != Axis(c.b)
  {
    match r
    case Above => [Corner(West, South), Corner(East, South), Corner(East, North), Corner(West, North)][k]
    case Below => [Corner(West, South), Corner(West, North), Corner(East, North), Corner(East, South)][k]
    case North => [Corner(East, Below), Corner(West, Below), Corner(West, Above), Corner(East, Above)][k]
    case South => [Corner(West, Below), Corner(East, Below), Corner(East, Above), Corner(West, Above)][k]
    case East => [Corner(South, Below), Corner(North, Below), Corner(North, Above), Corner(South, Above)][k]
    case West => [Corner(South, Below), Corner(South, Above), Corner(North, Above), Corner(North, Below)][k]
  }

  /** The lighting of vertex k of the face toward r: the V macro's call of calculate_vertex_lighting. */
  function CornerLighting(chunks: map<Vec3, Chunk>, tr: Material -> bool, ref: BlockRef, r: Relation, k: int): VertexLighting
    requires WorldValid(chunks) && HasBlock(chunks, ref) && 0 <= k < NUM_VERTICES
  {
    var c := FaceCorner(r, k);
    AcrossAxesNearby(r, c.a, c.b);
    VertexLightingOf(chunks, tr, ref, RelationVector(r), RelationVector(c.a), RelationVector(c.b))
  }

  /**
   * The face add_external_face appends for a block toward r: normal along r,
   * tangent along r's tangent relation (so orthogonal to the normal), the
   * block's material, and one vertex per entry of the table's row.
   */
  function ExternalFace(chunks: map<Vec3, Chunk>, tr: Material -> bool, ref: BlockRef, r: Relation): (f: BlockFace)
    requires WorldValid(chunks) && HasBlock(chunks, ref)
    ensures |f.vertices| == NUM_VERTICES && f.normal == RelationVector(r) && f.material == BlockAt(chunks, ref).material
  {
    BlockFace(RelationVector(r), RelationVector(RelationTangent(r)), BlockAt(chunks, ref).material,
      seq(NUM_VERTICES, k requires 0 <= k < NUM_VERTICES => Vertex(CornerLighting(chunks, tr, ref, r, k))))
  }

  /** A face's normal is a unit vector along one axis and its tangent is orthogonal to it. */
  lemma ExternalFaceOrientation(chunks: map<Vec3, Chunk>, tr: Material -> bool, ref: BlockRef, r: Relation)
    requires WorldValid(chunks) && HasBlock(chunks, ref)
    ensures var f := ExternalFace(chunks, tr, ref, r);
      IsAxisUnit(f.normal) && IsAxisUnit(f.tangent) && Dot(f.normal, f.tangent) == 0
  {
    RelationVectorIsAxisUnit(r);
    TangentOrthogonal(r);
  }

  /** Distinct relations give distinct faces of the same block. */
  lemma ExternalFaceDeterminesRelation(chunks: map<Vec3, Chunk>, tr: Material -> bool, ref: BlockRef, q: Relation, r: Relation)
    requires WorldValid(chunks) && HasBlock(chunks, ref)
    requires ExternalFace(chunks, tr, ref, q) == ExternalFace(chunks, tr, ref, r)
    ensures q == r
  {
    RelationVectorInjective(q, r);
  }

  /**
   * A face toward an absent neighbour (open sky, or the edge of the loaded
   * world) is lit at every vertex: each has a contributor and at least full
   * sunlight in its sunlight total, and an occlusion power of at most 3.
   */
  lemma FaceTowardAbsentNeighborIsLit(chunks: map<Vec3, Chunk>, tr: Material -> bool, ref: BlockRef, r: Relation, k: int)
    requires WorldValid(chunks) && HasBlock(chunks, ref) && 0 <= k < NUM_VERTICES
    requires Resolve(chunks, ref, RelationVector(r)).None?
    ensures var v := ExternalFace(chunks, tr, ref, r).vertices[k].lighting;
      v.contributors >= 1 && v.total.s >= MAX_BRIGHTNESS && v.aoPower <= 3
  {
    var c := FaceCorner(r, k);
    AcrossAxesNearby(r, c.a, c.b);
    AbsentFaceNeighborLights(chunks, tr, ref, RelationVector(r), RelationVector(c.a), RelationVector(c.b));
    OcclusionRange(chunks, tr, ref, RelationVector(r), RelationVector(c.a), RelationVector(c.b));
  }

  /** The V macro: vertex k of the face toward r, lit by calculate_vertex_lighting. */
  method CornerVertex(chunks: map<Vec3, Chunk>, tr: Material -> bool, ref: BlockRef, r: Relation, k: int) returns (v: Vertex)
    requires WorldValid(chunks) && HasBlock(chunks, ref) && 0 <= k < NUM_VERTICES
    ensures v == ExternalFace(chunks, tr, ref, r).vertices[k]
  {
    var c := FaceCorner(r, k);
    AcrossAxesNearby(r, c.a, c.b);
    var lighting := CalculateVertexLighting(chunks, tr, ref, RelationVector(r), RelationVector(c.a), RelationVector(c.b));
    v := Vertex(lighting);
  }

  /**
   * add_external_face: a face with the relation's normal and tangent and the
   * block's material, whose four vertices are then set from the table's row.
   * (The source's switch selects the row; its default case, an invalid
   * relation, cannot arise for a Relation.)
   */
  method AddExternalFace(chunks: map<Vec3, Chunk>, tr: Material -> bool, ref: BlockRef, r: Relation) returns (f: BlockFace)
    requires WorldValid(chunks) && HasBlock(chunks, ref)
    ensures f == ExternalFace(chunks, tr, ref, r)
  {
    f := NewBlockFace(RelationVector(r), RelationVector(RelationTangent(r)), BlockAt(chunks, ref).material);
    var v0 := CornerVertex(chunks, tr, ref, r, 0);
    f := SetVertex(f, 0, v0);
    var v1 := CornerVertex(chunks, tr, ref, r, 1);
    f := SetVertex(f, 1, v1);
    var v2 := CornerVertex(chunks, tr, ref, r, 2);
    f := SetVertex(f, 2, v2);
    var v3 := CornerVertex(chunks, tr, ref, r, 3);
    f := SetVertex(f, 3, v3);
    FourVertices(f.vertices, ExternalFace(chunks, tr, ref, r).vertices);
  }

  /** Two vertex arrays of the fixed size agree when they agree at each of the four positions. */
  lemma FourVertices(s: seq<Vertex>, t: seq<Vertex>)
    requires |s| == NUM_VERTICES && |t| == NUM_VERTICES
    requires s[0] == t[0] && s[1] == t[1] && s[2] == t[2] && s[3] == t[3]
    ensures s == t
  {
    forall k | 0 <= k < NUM_VERTICES ensures s[k] == t[k] {
    }
  }

  // ---------------------------------------------------------------------------
  // Face culling and collision boxes (update_geometry).
  // ---------------------------------------------------------------------------

  /**
   * Whether the column of chunk p has a neighbouring column toward r: the
   * bottom of p's column has a slot toward r that refers to a chunk (whose
   * own column bottom then exists).
   */
  function ColumnNeighbor(chunks: map<Vec3, Chunk>, p: Vec3, r: Relation): bool
    requires WorldValid(chunks) && p in chunks
  {
    SlotChunk(chunks, ColumnBottom(chunks, p), RelationVector(r)).Some?
  }

  /**
   * The face rule: toward a present neighbour, a face is added when that
   * neighbour is translucent and of another material; toward an absent one,
   * when the relation is ABOVE, or when it is not BELOW and the column has a
   * neighbouring column on that side.
   */
  predicate AddFace(chunks: map<Vec3, Chunk>, tr: Material -> bool, ref: BlockRef, r: Relation)
    requires WorldValid(chunks) && HasBlock(chunks, ref)
  {
    match Resolve(chunks, ref, RelationVector(r))
    case Some(q) => tr(BlockAt(chunks, q).material) && BlockAt(chunks, ref).material != BlockAt(chunks, q).material
    case None => r == Above || (r != Below && ColumnNeighbor(chunks, ref.key, r))
  }

  /** The faces a block adds toward the first m relations, in FOR_EACH_CARDINAL_RELATION order. */
  function RelationFaces(chunks: map<Vec3, Chunk>, tr: Material -> bool, ref: BlockRef, m: int): (fs: seq<BlockFace>)
    requires WorldValid(chunks) && HasBlock(chunks, ref) && 0 <= m <= NUM_CARDINAL_RELATIONS
    ensures |fs| <= m
  {
    if m == 0 then []
    else
      var r := Relations()[m - 1];
      RelationFaces(chunks, tr, ref, m - 1) + if AddFace(chunks, tr, ref, r) then [ExternalFace(chunks, tr, ref, r)] else []
  }

  /** The faces of one block: none for air, otherwise one per relation the rule admits. */
  function BlockFaces(chunks: map<Vec3, Chunk>, tr: Material -> bool, ref: BlockRef): seq<BlockFace>
    requires WorldValid(chunks) && HasBlock(chunks, ref)
  {
    if BlockAt(chunks, ref).material == MATERIAL_AIR then [] else RelationFaces(chunks, tr, ref, NUM_CARDINAL_RELATIONS)
  }

  /** A block gets a collision box when it is not air and added at least one face. */
  predicate Visible(chunks: map<Vec3, Chunk>, tr: Material -> bool, ref: BlockRef)
    requires WorldValid(chunks) && HasBlock(chunks, ref)
  {
    BlockAt(chunks, ref).material != MATERIAL_AIR && RelationFaces(chunks, tr, ref, NUM_CARDINAL_RELATIONS) != []
  }

  /** The faces of the first n blocks of chunk p in FOREACH_BLOCK order. */
  function FacesUpTo(chunks: map<Vec3, Chunk>, tr: Material -> bool, p: Vec3, n: int): seq<BlockFace>
    requires WorldValid(chunks) && p in chunks && 0 <= n <= NUM_BLOCKS
  {
    if n == 0 then []
    else
      var ref := BlockRef(p, BlockOrder()[n - 1]);
      HasBlockInChunk(chunks, ref);
      FacesUpTo(chunks, tr, p, n - 1) + BlockFaces(chunks, tr, ref)
  }

  /** The collision boxes (minimum corners) of the first n blocks of chunk p. */
  function BoxesUpTo(chunks: map<Vec3, Chunk>, tr: Material -> bool, p: Vec3, n: int): seq<Vec3>
    requires WorldValid(chunks) && p in chunks && 0 <= n <= NUM_BLOCKS
  {
    if n == 0 then []
    else
      var ref := BlockRef(p, BlockOrder()[n - 1]);
      HasBlockInChunk(chunks, ref);
      BoxesUpTo(chunks, tr, p, n - 1) + if Visible(chunks, tr, ref) then [WorldPosition(ref)] else []
  }

  function ChunkFaces(chunks: map<Vec3, Chunk>, tr: Material -> bool, p: Vec3): seq<BlockFace>
    requires WorldValid(chunks) && p in chunks
  {
    FacesUpTo(chunks, tr, p, NUM_BLOCKS)
  }

  function ChunkBoxes(chunks: map<Vec3, Chunk>, tr: Material -> bool, p: Vec3): seq<Vec3>
    requires WorldValid(chunks) && p in chunks
  {
    BoxesUpTo(chunks, tr, p, NUM_BLOCKS)
  }

  /**
   * The relation loop of update_geometry for one non-air block: append the
   * face toward each relation the rule admits, and report whether any was.
   * columns holds the neighbouring column bottoms, one per relation.
   */
  method AddBlockFaces(chunks: map<Vec3, Chunk>, tr: Material -> bool, ref: BlockRef, columns: array<Option<Vec3>>, faces: seq<BlockFace>)
    returns (next: seq<BlockFace>, visible: bool)
    requires WorldValid(chunks) && HasBlock(chunks, ref)
    requires columns.Length == NUM_CARDINAL_RELATIONS
    requires forall j :: 0 <= j < NUM_CARDINAL_RELATIONS ==> (columns[j].Some? <==> ColumnNeighbor(chunks, ref.key, Relations()[j]))
    ensures next == faces + RelationFaces(chunks, tr, ref, NUM_CARDINAL_RELATIONS)
    ensures visible <==> RelationFaces(chunks, tr, ref, NUM_CARDINAL_RELATIONS) != []
  {
    var relations := Relations();
    next := faces;
    visible := false;
    for j := 0 to NUM_CARDINAL_RELATIONS
      invariant next == faces + RelationFaces(chunks, tr, ref, j)
      invariant visible <==> RelationFaces(chunks, tr, ref, j) != []
    {
      var r := relations[j];
      var addFace := FaceRule(chunks, tr, ref, r, columns[j].Some?);
      ghost var done := RelationFaces(chunks, tr, ref, j);
      RelationFacesStep(chunks, tr, ref, j);
      if addFace {
        var f := AddExternalFace(chunks, tr, ref, r);
        AppendAssociative(faces, done, [f]);
        next := next + [f];
        visible := true;
      }
    }
  }

  /** The rule of update_geometry for one relation, given whether that side's neighbouring column exists. */
  method FaceRule(chunks: map<Vec3, Chunk>, tr: Material -> bool, ref: BlockRef, r: Relation, hasColumn: bool) returns (addFace: bool)
    requires WorldValid(chunks) && HasBlock(chunks, ref) && hasColumn == ColumnNeighbor(chunks, ref.key, r)
    ensures addFace == AddFace(chunks, tr, ref, r)
  {
    var block := BlockAt(chunks, ref);
    var neighbor := Resolve(chunks, ref, RelationVector(r));
    if neighbor.Some? {
      var other := BlockAt(chunks, neighbor.value);
      addFace := tr(other.material) && block.material != other.material;
    } else {
      addFace := r == Above || (r != Below && hasColumn);
    }
  }

  lemma RelationFacesStep(chunks: map<Vec3, Chunk>, tr: Material -> bool, ref: BlockRef, j: int)
    requires WorldValid(chunks) && HasBlock(chunks, ref) && 0 <= j < NUM_CARDINAL_RELATIONS
    ensures var r := Relations()[j];
      RelationFaces(chunks, tr, ref, j + 1) ==
        RelationFaces(chunks, tr, ref, j) + if AddFace(chunks, tr, ref, r) then [ExternalFace(chunks, tr, ref, r)] else []
  {
  }

  lemma AppendAssociative<T>(a: seq<T>, b: seq<T>, c: seq<T>)
    ensures (a + b) + c == a + (b + c)
  {
  }

  // ---------------------------------------------------------------------------
  // What the stored geometry holds.
  // ---------------------------------------------------------------------------

  /** f is the external face toward r, and the rule admits a face toward r. */
  predicate FaceToward(chunks: map<Vec3, Chunk>, tr: Material -> bool, ref: BlockRef, r: Relation, f: BlockFace)
    requires WorldValid(chunks) && HasBlock(chunks, ref)
  {
    AddFace(chunks, tr, ref, r) && f == ExternalFace(chunks, tr, ref, r)
  }

  /** The faces toward the first m relations are exactly the external faces toward those of them the rule admits. */
  lemma RelationFacesMembers(chunks: map<Vec3, Chunk>, tr: Material -> bool, ref: BlockRef, m: int, f: BlockFace)
    requires WorldValid(chunks) && HasBlock(chunks, ref) && 0 <= m <= NUM_CARDINAL_RELATIONS
    ensures f in RelationFaces(chunks, tr, ref, m) <==> exists j :: 0 <= j < m && FaceToward(chunks, tr, ref, Relations()[j], f)
  {
    if f in RelationFaces(chunks, tr, ref, m) {
      var j := RelationFacesSound(chunks, tr, ref, m, f);
    }
    if exists j :: 0 <= j < m && FaceToward(chunks, tr, ref, Relations()[j], f) {
      var j :| 0 <= j < m && FaceToward(chunks, tr, ref, Relations()[j], f);
      RelationFacesComplete(chunks, tr, ref, m, j, f);
    }
  }

  /** Every face toward the first m relations is the external face toward one of them, j, that the rule admits. */
  lemma {:induction false} RelationFacesSound(chunks: map<Vec3, Chunk>, tr: Material -> bool, ref: BlockRef, m: int, f: BlockFace)
    returns (j: int)
    requires WorldValid(chunks) && HasBlock(chunks, ref) && 0 < m <= NUM_CARDINAL_RELATIONS
    requires f in RelationFaces(chunks, tr, ref, m)
    ensures 0 <= j < m && FaceToward(chunks, tr, ref, Relations()[j], f)
  {
    RelationFacesStep(chunks, tr, ref, m - 1);
    if f in RelationFaces(chunks, tr, ref, m - 1) {
      j := RelationFacesSound(chunks, tr, ref, m - 1, f);
    } else {
      j := m - 1;
    }
  }

  /** The external face toward the j-th relation, when the rule admits it, is among the faces toward the first m > j. */
  lemma {:induction false} RelationFacesComplete(chunks: map<Vec3, Chunk>, tr: Material -> bool, ref: BlockRef, m: int, j: int, f: BlockFace)
    requires WorldValid(chunks) && HasBlock(chunks, ref) && 0 <= j < m <= NUM_CARDINAL_RELATIONS
    requires FaceToward(chunks, tr, ref, Relations()[j], f)
    ensures f in RelationFaces(chunks, tr, ref, m)
  {
    var r := Relations()[m - 1];
    var before := RelationFaces(chunks, tr, ref, m - 1);
    var here := if AddFace(chunks, tr, ref, r) then [ExternalFace(chunks, tr, ref, r)] else [];
    RelationFacesStep(chunks, tr, ref, m - 1);
    if j < m - 1 {
      RelationFacesComplete(chunks, tr, ref, m - 1, j, f);
      InConcat(before, here, f);
    } else {
      assert f in here;
      InConcat(before, here, f);
    }
  }

  /** An element of either part is an element of the concatenation. */
  lemma InConcat<T>(a: seq<T>, b: seq<T>, x: T)
    requires x in a || x in b
    ensures x in a + b
  {
  }

  /** A block's faces are exactly its external faces toward the relations the rule admits; air has none. */
  lemma BlockFacesMembers(chunks: map<Vec3, Chunk>, tr: Material -> bool, ref: BlockRef, f: BlockFace)
    requires WorldValid(chunks) && HasBlock(chunks, ref)
    ensures f in BlockFaces(chunks, tr, ref) <==>
      BlockAt(chunks, ref).material != MATERIAL_AIR && exists r :: FaceToward(chunks, tr, ref, r, f)
  {
    RelationFacesMembers(chunks, tr, ref, NUM_CARDINAL_RELATIONS, f);
    if exists r :: FaceToward(chunks, tr, ref, r, f) {
      var r :| FaceToward(chunks, tr, ref, r, f);
      assert Relations()[CodeOf(r)] == r;
    }
  }

  /** A block gets a collision box exactly when it is not air and the rule admits a face toward some relation. */
  lemma VisibleIffSomeFace(chunks: map<Vec3, Chunk>, tr: Material -> bool, ref: BlockRef)
    requires WorldValid(chunks) && HasBlock(chunks, ref)
    ensures Visible(chunks, tr, ref) <==> BlockAt(chunks, ref).material != MATERIAL_AIR && exists r :: AddFace(chunks, tr, ref, r)
  {
    var fs := RelationFaces(chunks, tr, ref, NUM_CARDINAL_RELATIONS);
    if fs != [] {
      RelationFacesMembers(chunks, tr, ref, NUM_CARDINAL_RELATIONS, fs[0]);
    }
    if exists r :: AddFace(chunks, tr, ref, r) {
      var r :| AddFace(chunks, tr, ref, r);
      assert FaceToward(chunks, tr, ref, Relations()[CodeOf(r)], ExternalFace(chunks, tr, ref, r));
      RelationFacesMembers(chunks, tr, ref, NUM_CARDINAL_RELATIONS, ExternalFace(chunks, tr, ref, r));
    }
  }

  /** Face f is among those of the k-th block of chunk p in FOREACH_BLOCK order. */
  predicate FaceOfBlock(chunks: map<Vec3, Chunk>, tr: Material -> bool, p: Vec3, k: int, f: BlockFace)
    requires WorldValid(chunks) && p in chunks
  {
    0 <= k < NUM_BLOCKS && HasBlock(chunks, BlockRef(p, BlockOrder()[k])) && f in BlockFaces(chunks, tr, BlockRef(p, BlockOrder()[k]))
  }

  /** Box q is the one of the k-th block of chunk p in FOREACH_BLOCK order, which is visible. */
  predicate BoxOfBlock(chunks: map<Vec3, Chunk>, tr: Material -> bool, p: Vec3, k: int, q: Vec3)
    requires WorldValid(chunks) && p in chunks
  {
    0 <= k < NUM_BLOCKS && HasBlock(chunks, BlockRef(p, BlockOrder()[k])) && Visible(chunks, tr, BlockRef(p, BlockOrder()[k]))
      && q == Add(p, BlockOrder()[k])
  }

  lemma {:induction false} FacesUpToMembers(chunks: map<Vec3, Chunk>, tr: Material -> bool, p: Vec3, n: int, f: BlockFace)
    requires WorldValid(chunks) && p in chunks && 0 <= n <= NUM_BLOCKS
    ensures f in FacesUpTo(chunks, tr, p, n) <==> exists k :: 0 <= k < n && FaceOfBlock(chunks, tr, p, k, f)
  {
    if n > 0 {
      var ref := BlockRef(p, BlockOrder()[n - 1]);
      HasBlockInChunk(chunks, ref);
      var before := FacesUpTo(chunks, tr, p, n - 1);
      var here := BlockFaces(chunks, tr, ref);
      assert FacesUpTo(chunks, tr, p, n) == before + here;
      FacesUpToMembers(chunks, tr, p, n - 1, f);
      if f in here {
        assert FaceOfBlock(chunks, tr, p, n - 1, f);
      }
      if exists k :: 0 <= k < n && FaceOfBlock(chunks, tr, p, k, f) {
        var k :| 0 <= k < n && FaceOfBlock(chunks, tr, p, k, f);
        if k == n - 1 {
          assert f in here;
        } else {
          assert f in before;
        }
      }
    }
  }

  lemma {:induction false} BoxesUpToMembers(chunks: map<Vec3, Chunk>, tr: Material -> bool, p: Vec3, n: int, q: Vec3)
    requires WorldValid(chunks) && p in chunks && 0 <= n <= NUM_BLOCKS
    ensures q in BoxesUpTo(chunks, tr, p, n) <==> exists k :: 0 <= k < n && BoxOfBlock(chunks, tr, p, k, q)
  {
    if n > 0 {
      var ref := BlockRef(p, BlockOrder()[n - 1]);
      HasBlockInChunk(chunks, ref);
      var before := BoxesUpTo(chunks, tr, p, n - 1);
      var here := if Visible(chunks, tr, ref) then [Add(p, ref.index)] else [];
      assert BoxesUpTo(chunks, tr, p, n) == before + here;
      BoxesUpToMembers(chunks, tr, p, n - 1, q);
      if q in here {
        assert BoxOfBlock(chunks, tr, p, n - 1, q);
      }
      if exists k :: 0 <= k < n && BoxOfBlock(chunks, tr, p, k, q) {
        var k :| 0 <= k < n && BoxOfBlock(chunks, tr, p, k, q);
        if k == n - 1 {
          assert q in here;
        } else {
          assert q in before;
        }
      }
    }
  }

  /** f is the external face of the non-air block at index i of chunk p toward r, and the rule admits it. */
  predicate ExternalFaceOf(chunks: map<Vec3, Chunk>, tr: Material -> bool, p: Vec3, i: Vec3, r: Relation, f: BlockFace)
    requires WorldValid(chunks) && p in chunks
  {
    && HasBlock(chunks, BlockRef(p, i))
    && BlockAt(chunks, BlockRef(p, i)).material != MATERIAL_AIR
    && FaceToward(chunks, tr, BlockRef(p, i), r, f)
  }

  /**
   * The faces update_geometry stores for chunk p are exactly the external
   * faces of its non-air blocks toward the relations the rule admits.
   */
  lemma ChunkFacesExactly(chunks: map<Vec3, Chunk>, tr: Material -> bool, p: Vec3, f: BlockFace)
    requires WorldValid(chunks) && p in chunks
    ensures f in ChunkFaces(chunks, tr, p) <==> exists i, r :: ExternalFaceOf(chunks, tr, p, i, r, f)
  {
    FacesUpToMembers(chunks, tr, p, NUM_BLOCKS, f);
    if f in ChunkFaces(chunks, tr, p) {
      var k :| 0 <= k < NUM_BLOCKS && FaceOfBlock(chunks, tr, p, k, f);
      var ref := BlockRef(p, BlockOrder()[k]);
      BlockFacesMembers(chunks, tr, ref, f);
      var r :| FaceToward(chunks, tr, ref, r, f);
      assert ExternalFaceOf(chunks, tr, p, ref.index, r, f);
    }
    if exists i, r :: ExternalFaceOf(chunks, tr, p, i, r, f) {
      var i, r :| ExternalFaceOf(chunks, tr, p, i, r, f);
      HasBlockInChunk(chunks, BlockRef(p, i));
      BlockOrderComplete(i);
      BlockFacesMembers(chunks, tr, BlockRef(p, i), f);
      assert FaceOfBlock(chunks, tr, p, Rank(i), f);
    }
  }

  /**
   * The collision boxes update_geometry stores for chunk p are exactly the
   * world positions of its visible blocks.
   */
  lemma ChunkBoxesExactly(chunks: map<Vec3, Chunk>, tr: Material -> bool, p: Vec3, q: Vec3)
    requires WorldValid(chunks) && p in chunks
    ensures q in ChunkBoxes(chunks, tr, p) <==>
      exists i :: HasBlock(chunks, BlockRef(p, i)) && Visible(chunks, tr, BlockRef(p, i)) && q == Add(p, i)
  {
    BoxesUpToMembers(chunks, tr, p, NUM_BLOCKS, q);
    if exists i :: HasBlock(chunks, BlockRef(p, i)) && Visible(chunks, tr, BlockRef(p, i)) && q == Add(p, i) {
      var i :| HasBlock(chunks, BlockRef(p, i)) && Visible(chunks, tr, BlockRef(p, i)) && q == Add(p, i);
      HasBlockInChunk(chunks, BlockRef(p, i));
      BlockOrderComplete(i);
      assert BoxOfBlock(chunks, tr, p, Rank(i), q);
    }
  }

  /** Each visible block contributes one box and between one and six faces; every other block contributes neither. */
  lemma {:induction false} GeometryCounts(chunks: map<Vec3, Chunk>, tr: Material -> bool, p: Vec3, n: int)
    requires WorldValid(chunks) && p in chunks && 0 <= n <= NUM_BLOCKS
    ensures |BoxesUpTo(chunks, tr, p, n)| <= |FacesUpTo(chunks, tr, p, n)| <= NUM_CARDINAL_RELATIONS * |BoxesUpTo(chunks, tr, p, n)|
  {
    if n > 0 {
      var ref := BlockRef(p, BlockOrder()[n - 1]);
      HasBlockInChunk(chunks, ref);
      var faces, boxes := FacesUpTo(chunks, tr, p, n - 1), BoxesUpTo(chunks, tr, p, n - 1);
      var here := if Visible(chunks, tr, ref) then [Add(p, ref.index)] else [];
      assert FacesUpTo(chunks, tr, p, n) == faces + BlockFaces(chunks, tr, ref);
      assert BoxesUpTo(chunks, tr, p, n) == boxes + here;
      GeometryCounts(chunks, tr, p, n - 1);
      BlockCounts(chunks, tr, ref);
    }
  }

  /** A visible block has between one and six faces; any other block has none. */
  lemma BlockCounts(chunks: map<Vec3, Chunk>, tr: Material -> bool, ref: BlockRef)
    requires WorldValid(chunks) && HasBlock(chunks, ref)
    ensures var fs := BlockFaces(chunks, tr, ref);
      if Visible(chunks, tr, ref) then 1 <= |fs| <= NUM_CARDINAL_RELATIONS else fs == []
  {
  }

  /**
   * update_geometry: clear the chunk's faces and boxes; find the bottom of
   * its column and the bottoms of the neighbouring columns; then, for every
   * non-air block in FOREACH_BLOCK order, add its faces and, when it added
   * any, a collision box at its position. Nothing else in the map changes.
   */
  method UpdateGeometry(w: World, p: Vec3)
    requires w.Valid() && p in w.chunks
    modifies w
    ensures w.Valid()
    ensures w.chunks == old(w.chunks)[p := old(w.chunks)[p].(faces := ChunkFaces(old(w.chunks), w.translucent, p),
                                                              boxes := ChunkBoxes(old(w.chunks), w.translucent, p))]
  {
    var columns := NeighborColumns(w, p);
    var faces, boxes := CollectGeometry(w.chunks, w.translucent, p, columns);
    w.chunks := WithGeometry(w.chunks, p, faces, boxes);
  }

  /**
   * update_geometry's block loop: visit every block of chunk p in
   * FOREACH_BLOCK order, collecting the faces and boxes of each.
   */
  method CollectGeometry(chunks: map<Vec3, Chunk>, tr: Material -> bool, p: Vec3, columns: array<Option<Vec3>>)
    returns (faces: seq<BlockFace>, boxes: seq<Vec3>)
    requires WorldValid(chunks) && p in chunks
    requires columns.Length == NUM_CARDINAL_RELATIONS
    requires forall j :: 0 <= j < NUM_CARDINAL_RELATIONS ==> (columns[j].Some? <==> ColumnNeighbor(chunks, p, Relations()[j]))
    ensures faces == ChunkFaces(chunks, tr, p) && boxes == ChunkBoxes(chunks, tr, p)
  {
    faces, boxes := [], [];
    var order := BlockOrder();
    for n := 0 to NUM_BLOCKS
      invariant faces == FacesUpTo(chunks, tr, p, n) && boxes == BoxesUpTo(chunks, tr, p, n)
    {
      faces, boxes := AddBlockGeometry(chunks, tr, p, order[n], columns, faces, boxes);
    }
  }

  /**
   * The body of update_geometry's block loop for the n-th block in
   * FOREACH_BLOCK order: a non-air block appends its faces, and a box at its
   * position when it added any; air adds nothing.
   */
  method AddBlockGeometry(chunks: map<Vec3, Chunk>, tr: Material -> bool, p: Vec3, i: Vec3, columns: array<Option<Vec3>>,
                          faces: seq<BlockFace>, boxes: seq<Vec3>)
    returns (nextFaces: seq<BlockFace>, nextBoxes: seq<Vec3>)
    requires WorldValid(chunks) && p in chunks && InChunk(i)
    requires columns.Length == NUM_CARDINAL_RELATIONS
    requires forall j :: 0 <= j < NUM_CARDINAL_RELATIONS ==> (columns[j].Some? <==> ColumnNeighbor(chunks, p, Relations()[j]))
    ensures HasBlock(chunks, BlockRef(p, i))
    ensures nextFaces == faces + BlockFaces(chunks, tr, BlockRef(p, i))
    ensures nextBoxes == boxes + if Visible(chunks, tr, BlockRef(p, i)) then [Add(p, i)] else []
  {
    var ref := BlockRef(p, i);
    HasBlockInChunk(chunks, ref);
    nextFaces, nextBoxes := faces, boxes;
    if BlockAt(chunks, ref).material != MATERIAL_AIR {
      var visible;
      nextFaces, visible := AddBlockFaces(chunks, tr, ref, columns, faces);
      if visible {
        nextBoxes := boxes + [WorldPosition(ref)];
      }
    }
  }

  /** The map with chunk p's faces and boxes replaced; the chunk's layout and blocks are kept. */
  function WithGeometry(chunks: map<Vec3, Chunk>, p: Vec3, faces: seq<BlockFace>, boxes: seq<Vec3>): (next: map<Vec3, Chunk>)
    requires p in chunks
    ensures next == chunks[p := chunks[p].(faces := faces, boxes := boxes)]
    ensures WorldValid(chunks) ==> WorldValid(next)
  {
    var next := chunks[p := chunks[p].(faces := faces, boxes := boxes)];
    assert WorldValid(chunks) ==> ChunkValid(p, next[p]) by {
      if WorldValid(chunks) {
        assert ChunkValid(p, chunks[p]);
      }
    }
    next
  }

  /**
   * The first part of update_geometry: the bottom of chunk p's column, and
   * for each relation the bottom of the column its slot toward that
   * relation leads to (null when the slot is null).
   */
  method NeighborColumns(w: World, p: Vec3) returns (columns: array<Option<Vec3>>)
    requires w.Valid() && p in w.chunks
    ensures fresh(columns) && columns.Length == NUM_CARDINAL_RELATIONS
    ensures forall j :: 0 <= j < NUM_CARDINAL_RELATIONS ==> (columns[j].Some? <==> ColumnNeighbor(w.chunks, p, Relations()[j]))
  {
    var column := w.BottomChunkInColumn(Some(p));
    var relations := Relations();
    columns := new Option<Vec3>[NUM_CARDINAL_RELATIONS];
    for j := 0 to NUM_CARDINAL_RELATIONS
      invariant forall m :: 0 <= m < j ==> (columns[m].Some? <==> ColumnNeighbor(w.chunks, p, relations[m]))
    {
      var slot := SlotChunk(w.chunks, column.value, RelationVector(relations[j]));
      columns[j] := w.BottomChunkInColumn(slot);
    }
  }
}
