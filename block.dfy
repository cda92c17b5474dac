/**
 * The voxel cell of block.h: a material byte, two one-bit flags and four-bit
 * light channels, together with the face record the mesher emits.
 */
module Blocks {
  import opened Vectors

  // ---------------------------------------------------------------------------
  // Materials (enum BlockMaterial). The field is a uint8_t, so every stored
  // material is a byte; NONE is the air sentinel.
  // ---------------------------------------------------------------------------

  type Material = m: int | 0 <= m <= 255

  const MATERIAL_NONE: Material := 0xff
  const MATERIAL_GRASS: Material := 0
  const MATERIAL_DIRT: Material := 1
  const MATERIAL_CLAY: Material := 2
  const MATERIAL_STONE: Material := 3
  const MATERIAL_BEDROCK: Material := 4
  const MATERIAL_MAGMA: Material := 5
  /** Number of real materials: they are 0 .. MATERIAL_SIZE - 1. */
  const MATERIAL_SIZE: int := 6
  /** The mesher tests against "air", which is the NONE sentinel. */
  const MATERIAL_AIR: Material := MATERIAL_NONE

  predicate IsRealMaterial(m: int) {
    0 <= m < MATERIAL_SIZE
  }

  /** The air/none sentinel never collides with a real material. */
  lemma NoneIsNotARealMaterial(m: int)
    requires IsRealMaterial(m)
    ensures m != MATERIAL_NONE && m != MATERIAL_AIR
  {
  }

  // ---------------------------------------------------------------------------
  // Light levels: four 4-bit channels (red, green, blue, sunlight).
  // ---------------------------------------------------------------------------

  const MAX_BRIGHTNESS: int := 15
  type Channel = c: int | 0 <= c <= MAX_BRIGHTNESS

  /** A stored light level: every channel fits its 4-bit field. */
  datatype Light = Light(r: Channel, g: Channel, b: Channel, s: Channel)

  /** An unbounded integer 4-vector, the argument type of the light setter. */
  datatype LightVector = LightVector(r: int, g: int, b: int, s: int)

  /** The four channels of a light. */
  datatype ChannelName = Red | Green | Blue | Sun

  function LightChannel(l: Light, c: ChannelName): Channel {
    match c
    case Red => l.r
    case Green => l.g
    case Blue => l.b
    case Sun => l.s
  }

  const MIN_LIGHT := Light(0, 0, 0, 0)
  /** Sunlight only, at full strength. */
  const SUNLIGHT := Light(0, 0, 0, MAX_BRIGHTNESS)

  function AsVector(l: Light): LightVector {
    LightVector(l.r, l.g, l.b, l.s)
  }

  /** Every channel of a is at least the matching channel of b. */
  predicate Dominates(a: Light, b: Light) {
    a.r >= b.r && a.g >= b.g && a.b >= b.b && a.s >= b.s
  }

  function Max(a: int, b: int): int {
    if a >= b then a else b
  }

  /** The brightest channel of a light level. */
  function MaxChannel(l: Light): (m: Channel)
    ensures m == l.r || m == l.g || m == l.b || m == l.s
    ensures m >= l.r && m >= l.g && m >= l.b && m >= l.s
  {
    Max(Max(l.r, l.g), Max(l.b, l.s))
  }

  /** Channel-wise maximum: the least light level dominating both arguments. */
  function MaxLight(a: Light, b: Light): (m: Light)
    ensures Dominates(m, a) && Dominates(m, b)
    ensures forall c :: Dominates(c, a) && Dominates(c, b) ==> Dominates(c, m)
  {
    Light(Max(a.r, b.r), Max(a.g, b.g), Max(a.b, b.b), Max(a.s, b.s))
  }

  function Decrement(c: Channel): Channel {
    if c > 0 then c - 1 else 0
  }

  /**
   * One hop of attenuation: every channel drops by one, saturating at zero.
   * The result is dimmer than the input, is all-zero exactly when no channel
   * exceeded one, and otherwise its brightest channel is one lower.
   */
  function Attenuate(l: Light): (a: Light)
    ensures Dominates(l, a)
    ensures a == MIN_LIGHT <==> MaxChannel(l) <= 1
    ensures l != MIN_LIGHT ==> MaxChannel(a) == MaxChannel(l) - 1
  {
    Light(Decrement(l.r), Decrement(l.g), Decrement(l.b), Decrement(l.s))
  }

  /**
   * Storing an integer into an unsigned 4-bit field keeps it modulo 16; the
   * setter only asserts the upper bound, so a negative channel wraps.
   */
  function StoreChannel(c: int): (stored: Channel)
    ensures 0 <= c <= MAX_BRIGHTNESS ==> stored == c
    ensures (stored - c) % 16 == 0
  {
    c % 16
  }

  function StoreLight(v: LightVector): Light {
    Light(StoreChannel(v.r), StoreChannel(v.g), StoreChannel(v.b), StoreChannel(v.s))
  }

  predicate InBrightnessRange(v: LightVector) {
    v.r <= MAX_BRIGHTNESS && v.g <= MAX_BRIGHTNESS && v.b <= MAX_BRIGHTNESS && v.s <= MAX_BRIGHTNESS
  }

  predicate NonNegative(v: LightVector) {
    v.r >= 0 && v.g >= 0 && v.b >= 0 && v.s >= 0
  }

  /** Writing an in-range light level and reading it back yields the same vector. */
  lemma StoreLightRoundTrip(v: LightVector)
    requires InBrightnessRange(v) && NonNegative(v)
    ensures AsVector(StoreLight(v)) == v
  {
  }

  // ---------------------------------------------------------------------------
  // The block cell.
  // ---------------------------------------------------------------------------

  /** The value of a block cell, as kept in a chunk's grid. */
  datatype BlockState = BlockState(material: Material, sunlightSource: bool, visited: bool, light: Light)

  /** What Block() leaves in a cell. */
  const DEFAULT_BLOCK := BlockState(MATERIAL_NONE, false, false, MIN_LIGHT)

  /** A block cell updated in place through its setters. */
  class Block {
    var material: Material
    var sunlightSource: bool
    var visited: bool
    var light: Light

    function State(): BlockState
      reads this
    {
      BlockState(material, sunlightSource, visited, light)
    }

    /** A fresh block is air, not a sunlight source, unvisited and dark. */
    constructor ()
      ensures State() == DEFAULT_BLOCK
      ensures material == MATERIAL_NONE && !sunlightSource && !visited && light == MIN_LIGHT
    {
      material := MATERIAL_NONE;
      sunlightSource := false;
      visited := false;
      light := MIN_LIGHT;
    }

    /** The material must fit the uint8_t field. */
    method SetMaterial(m: int)
      requires 0 <= m <= 255
      modifies this
      ensures GetMaterial() == m
      ensures State() == old(State()).(material := m)
    {
      material := m;
    }

    function GetMaterial(): Material
      reads this
    {
      material
    }

    method SetSunlightSource(source: bool)
      modifies this
      ensures IsSunlightSource() == source
      ensures State() == old(State()).(sunlightSource := source)
    {
      sunlightSource := source;
    }

    function IsSunlightSource(): bool
      reads this
    {
      sunlightSource
    }

    method SetVisited(v: bool)
      modifies this
      ensures IsVisited() == v
      ensures State() == old(State()).(visited := v)
    {
      visited := v;
    }

    function IsVisited(): bool
      reads this
    {
      visited
    }

    /** Each channel must be at most MAX_BRIGHTNESS; it is stored in four bits. */
    method SetLightLevel(v: LightVector)
      requires InBrightnessRange(v)
      modifies this
      ensures NonNegative(v) ==> AsVector(GetLightLevel()) == v
      ensures State() == old(State()).(light := StoreLight(v))
    {
      light := StoreLight(v);
      if NonNegative(v) {
        StoreLightRoundTrip(v);
      }
    }

    function GetLightLevel(): Light
      reads this
    {
      light
    }
  }

  // ---------------------------------------------------------------------------
  // Emitted faces.
  // ---------------------------------------------------------------------------

  const NUM_VERTICES := 4

  /** A running sum of light levels; channels are unbounded. */
  datatype LightSum = LightSum(r: int, g: int, b: int, s: int)

  const ZERO_SUM := LightSum(0, 0, 0, 0)

  function AddLight(t: LightSum, l: Light): LightSum {
    LightSum(t.r + l.r, t.g + l.g, t.b + l.b, t.s + l.s)
  }

  /**
   * The integer part of a vertex's lighting: the summed light of the samples
   * that contribute, how many contribute, the ambient-occlusion power and
   * whether the diagonal sample was taken.
   */
  datatype VertexLighting = VertexLighting(total: LightSum, contributors: int, aoPower: int, diagonalSampled: bool)

  /** A vertex: its lighting (its float position is not modelled). */
  datatype Vertex = Vertex(lighting: VertexLighting)

  const DEFAULT_VERTEX := Vertex(VertexLighting(ZERO_SUM, 0, 0, false))

  datatype BlockFace = BlockFace(normal: Vec3, tangent: Vec3, material: Material, vertices: seq<Vertex>)

  /** BlockFace(normal, tangent, material): the vertex array has its fixed size. */
  function NewBlockFace(normal: Vec3, tangent: Vec3, material: Material): (f: BlockFace)
    ensures |f.vertices| == NUM_VERTICES
    ensures f.normal == normal && f.tangent == tangent && f.material == material
  {
    BlockFace(normal, tangent, material, [DEFAULT_VERTEX, DEFAULT_VERTEX, DEFAULT_VERTEX, DEFAULT_VERTEX])
  }

  /** vertices_[k] = v: the other vertices, the normal and the material are kept. */
  function SetVertex(f: BlockFace, k: int, v: Vertex): (g: BlockFace)
    requires 0 <= k < |f.vertices|
    ensures |g.vertices| == |f.vertices| && g.vertices[k] == v
    ensures forall j :: 0 <= j < |f.vertices| && j != k ==> g.vertices[j] == f.vertices[j]
    ensures g.normal == f.normal && g.tangent == f.tangent && g.material == f.material
  {
    f.(vertices := f.vertices[k := v])
  }
}
