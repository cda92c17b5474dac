/**
 * Chunks, their 27-slot neighbour tables and the position-keyed chunk map.
 *
 * The map is an arena: a chunk is named by its position, and a neighbour slot
 * holds the position of the chunk it refers to (a missing slot is a null
 * pointer). Blocks are addressed by a BlockRef (chunk position, local index),
 * the model of BlockIterator.
 */
module ChunkGrid {
  import opened Options
  import opened Vectors
  import opened Blocks
  import opened Cardinal

  const SIZE_X := 16
  const SIZE_Y := 16
  const SIZE_Z := 16
  const SIZE := Vec3(SIZE_X, SIZE_Y, SIZE_Z)
  const NUM_BLOCKS := SIZE_X * SIZE_Y * SIZE_Z

  /** A local block index: within [0, SIZE) on every axis. */
  predicate InChunk(i: Vec3) {
    0 <= i.x < SIZE_X && 0 <= i.y < SIZE_Y && 0 <= i.z < SIZE_Z
  }

  function LocalIndices(): set<Vec3> {
    set x, y, z | 0 <= x < SIZE_X && 0 <= y < SIZE_Y && 0 <= z < SIZE_Z :: Vec3(x, y, z)
  }

  lemma LocalIndicesAreInChunk(i: Vec3)
    ensures i in LocalIndices() <==> InChunk(i)
  {
    if InChunk(i) {
      assert i == Vec3(i.x, i.y, i.z);
    }
  }

  /** pointwise_product(d, SIZE): the displacement of the chunk at relation d. */
  function Scale(d: Vec3): Vec3 {
    Vec3(d.x * SIZE_X, d.y * SIZE_Y, d.z * SIZE_Z)
  }

  // ---------------------------------------------------------------------------
  // The iteration orders of FOREACH_BLOCK (x, then y, then z innermost) and of
  // FOREACH_RELATION (the same nesting over -1, 0, 1).
  // ---------------------------------------------------------------------------

  /** Position of a local index in FOREACH_BLOCK order. */
  function Rank(i: Vec3): int {
    i.x * (SIZE_Y * SIZE_Z) + i.y * SIZE_Z + i.z
  }

  /** The local index at position n of FOREACH_BLOCK order. */
  function IndexAt(n: int): (i: Vec3)
    requires 0 <= n < NUM_BLOCKS
    ensures InChunk(i) && Rank(i) == n
  {
    var column := n / SIZE_Z;
    assert n == column * SIZE_Z + n % SIZE_Z;
    assert column == (column / SIZE_Y) * SIZE_Y + column % SIZE_Y;
    Vec3(column / SIZE_Y, column % SIZE_Y, n % SIZE_Z)
  }

  /** The local indices in FOREACH_BLOCK order: every index of the chunk exactly once. */
  function BlockOrder(): (order: seq<Vec3>)
    ensures |order| == NUM_BLOCKS
    ensures forall n :: 0 <= n < NUM_BLOCKS ==> InChunk(order[n]) && Rank(order[n]) == n
  {
    seq(NUM_BLOCKS, n requires 0 <= n < NUM_BLOCKS => IndexAt(n))
  }

  lemma RankInverse(i: Vec3)
    requires InChunk(i)
    ensures 0 <= Rank(i) < NUM_BLOCKS && IndexAt(Rank(i)) == i
  {
    var n := Rank(i);
    var column := i.x * SIZE_Y + i.y;
    assert n == column * SIZE_Z + i.z;
    assert n / SIZE_Z == column && n % SIZE_Z == i.z;
    assert column / SIZE_Y == i.x && column % SIZE_Y == i.y;
  }

  /** Every local index is visited, at the position given by its rank. */
  lemma BlockOrderComplete(i: Vec3)
    requires InChunk(i)
    ensures 0 <= Rank(i) < NUM_BLOCKS && BlockOrder()[Rank(i)] == i
  {
    RankInverse(i);
  }

  function OffsetAt(n: int): Vec3
    requires 0 <= n < 27
  {
    Vec3(n / 9 - 1, (n / 3) % 3 - 1, n % 3 - 1)
  }

  function OffsetRank(d: Vec3): int {
    (d.x + 1) * 9 + (d.y + 1) * 3 + (d.z + 1)
  }

  /** The 27 relations of FOREACH_RELATION, in its order. */
  function OffsetOrder(): (order: seq<Vec3>)
    ensures |order| == 27
    ensures forall n :: 0 <= n < 27 ==> IsOffset(order[n]) && OffsetRank(order[n]) == n
  {
    seq(27, n requires 0 <= n < 27 => OffsetAt(n))
  }

  lemma OffsetOrderComplete(d: Vec3)
    requires IsOffset(d)
    ensures 0 <= OffsetRank(d) < 27 && OffsetOrder()[OffsetRank(d)] == d
  {
  }

  // ---------------------------------------------------------------------------
  // Chunks.
  // ---------------------------------------------------------------------------

  /**
   * A chunk: its position, its neighbour table (offset -> position of the
   * neighbour; an offset without an entry is a null slot), its block grid and
   * the two geometry caches (faces, and the minimum corners of unit
   * collision boxes).
   */
  datatype Chunk = Chunk(
    position: Vec3,
    neighbors: map<Vec3, Vec3>,
    blocks: map<Vec3, BlockState>,
    faces: seq<BlockFace>,
    boxes: seq<Vec3>)

  /**
   * A neighbour table is consistent with a position when every set slot is a
   * relation in {-1,0,1}^3 and names the chunk position that relation reaches.
   */
  predicate SlotsConsistent(position: Vec3, neighbors: map<Vec3, Vec3>) {
    forall d :: d in neighbors ==> IsOffset(d) && neighbors[d] == Add(position, Scale(d))
  }

  ghost predicate ChunkValid(k: Vec3, c: Chunk) {
    && c.position == k
    && (forall i :: i in c.blocks <==> InChunk(i))
    && SlotsConsistent(k, c.neighbors)
  }

  /** The chunk map is keyed by position and every chunk is well formed. */
  ghost predicate WorldValid(chunks: map<Vec3, Chunk>) {
    forall k :: k in chunks ==> ChunkValid(k, chunks[k])
  }

  /**
   * Chunk(position): every block default-constructed, every neighbour slot
   * null except the centre, which refers to the chunk itself.
   */
  function NewChunk(position: Vec3): (c: Chunk)
    ensures ChunkValid(position, c)
    ensures c.neighbors.Keys == {ZERO} && c.neighbors[ZERO] == position
    ensures forall i :: InChunk(i) ==> i in c.blocks && c.blocks[i] == DEFAULT_BLOCK
    ensures c.faces == [] && c.boxes == []
  {
    var blocks := map i | i in LocalIndices() :: DEFAULT_BLOCK;
    forall i ensures i in blocks <==> InChunk(i) {
      LocalIndicesAreInChunk(i);
    }
    Chunk(position, map[ZERO := position], blocks, [], [])
  }

  // ---------------------------------------------------------------------------
  // Blocks of the world.
  // ---------------------------------------------------------------------------

  /** BlockIterator: the chunk (by position) and the local index of a block. */
  datatype BlockRef = BlockRef(key: Vec3, index: Vec3)

  predicate HasBlock(chunks: map<Vec3, Chunk>, r: BlockRef) {
    r.key in chunks && r.index in chunks[r.key].blocks
  }

  function BlockAt(chunks: map<Vec3, Chunk>, r: BlockRef): BlockState
    requires HasBlock(chunks, r)
  {
    chunks[r.key].blocks[r.index]
  }

  /** The world coordinate of a block. */
  function WorldPosition(r: BlockRef): Vec3 {
    Add(r.key, r.index)
  }

  lemma HasBlockInChunk(chunks: map<Vec3, Chunk>, r: BlockRef)
    requires WorldValid(chunks) && r.key in chunks
    ensures HasBlock(chunks, r) <==> InChunk(r.index)
  {
    LocalIndicesAreInChunk(r.index);
  }

  /** A chunk of a valid map holds a block at every local index. */
  lemma AllBlocksPresent(chunks: map<Vec3, Chunk>, k: Vec3)
    requires WorldValid(chunks) && k in chunks
    ensures forall i :: InChunk(i) ==> HasBlock(chunks, BlockRef(k, i))
  {
    forall i | InChunk(i) ensures HasBlock(chunks, BlockRef(k, i)) {
      HasBlockInChunk(chunks, BlockRef(k, i));
    }
  }

  /** Overwrite one block; the chunk map keeps its keys and its other blocks. */
  function SetBlock(chunks: map<Vec3, Chunk>, r: BlockRef, b: BlockState): (next: map<Vec3, Chunk>)
    requires HasBlock(chunks, r)
    ensures next.Keys == chunks.Keys
    ensures HasBlock(next, r) && BlockAt(next, r) == b
    ensures forall k :: k in chunks ==>
      next[k].position == chunks[k].position && next[k].neighbors == chunks[k].neighbors &&
      next[k].blocks.Keys == chunks[k].blocks.Keys &&
      next[k].faces == chunks[k].faces && next[k].boxes == chunks[k].boxes
    ensures forall k :: k in chunks && k != r.key ==> next[k] == chunks[k]
    ensures forall q :: HasBlock(chunks, q) && q != r ==> HasBlock(next, q) && BlockAt(next, q) == BlockAt(chunks, q)
    ensures WorldValid(chunks) ==> WorldValid(next)
    ensures SameLayout(chunks, next)
  {
    chunks[r.key := chunks[r.key].(blocks := chunks[r.key].blocks[r.index := b])]
  }

  /** Replace a chunk's whole grid by one with the same indices. */
  function SetGrid(chunks: map<Vec3, Chunk>, k: Vec3, blocks: map<Vec3, BlockState>): (next: map<Vec3, Chunk>)
    requires k in chunks && blocks.Keys == chunks[k].blocks.Keys
    ensures next.Keys == chunks.Keys && next[k].blocks == blocks
    ensures forall q :: q in chunks && q != k ==> next[q] == chunks[q]
    ensures SameLayout(chunks, next)
    ensures WorldValid(chunks) ==> WorldValid(next)
  {
    var next := chunks[k := chunks[k].(blocks := blocks)];
    assert WorldValid(chunks) ==> ChunkValid(k, next[k]) by {
      if WorldValid(chunks) {
        assert ChunkValid(k, chunks[k]);
        forall i ensures i in blocks <==> InChunk(i) {
          assert i in blocks <==> i in chunks[k].blocks;
        }
      }
    }
    next
  }

  // ---------------------------------------------------------------------------
  // Neighbour resolution.
  // ---------------------------------------------------------------------------

  /** The chunk a slot refers to, if the slot is set and that chunk is still in the map. */
  function SlotChunk(chunks: map<Vec3, Chunk>, k: Vec3, d: Vec3): (r: Option<Vec3>)
    requires k in chunks
    ensures r.Some? ==> r.value in chunks && d in chunks[k].neighbors && r.value == chunks[k].neighbors[d]
  {
    var c := chunks[k];
    if d in c.neighbors && c.neighbors[d] in chunks then Some(c.neighbors[d]) else None
  }

  /** -1, 0 or 1: which chunk along one axis a coordinate of local + offset falls in. */
  function Carry(c: int, size: int): int {
    if c < 0 then -1 else if c >= size then 1 else 0
  }

  /**
   * get_block_neighbor: the block at local index + offset. Inside the chunk it
   * is this chunk's block; otherwise the neighbour slot of the chunk the index
   * overflows into is followed, and a null slot gives an absent block.
   * A found block lies exactly offset away in world coordinates.
   */
  function Resolve(chunks: map<Vec3, Chunk>, ref: BlockRef, offset: Vec3): (r: Option<BlockRef>)
    requires WorldValid(chunks) && HasBlock(chunks, ref) && IsOffset(offset)
    ensures r.Some? ==> HasBlock(chunks, r.value) && WorldPosition(r.value) == Add(WorldPosition(ref), offset)
    ensures InChunk(Add(ref.index, offset)) ==> r == Some(BlockRef(ref.key, Add(ref.index, offset)))
    ensures r.Some? && r.value.key != ref.key ==> !InChunk(Add(ref.index, offset))
  {
    HasBlockInChunk(chunks, ref);
    var t := Add(ref.index, offset);
    var slot := Vec3(Carry(t.x, SIZE_X), Carry(t.y, SIZE_Y), Carry(t.z, SIZE_Z));
    var local := Sub(t, Scale(slot));
    assert InChunk(local);
    if slot == ZERO then
      Some(BlockRef(ref.key, local))
    else
      match SlotChunk(chunks, ref.key, slot)
      case Some(k) =>
        HasBlockInChunk(chunks, BlockRef(k, local));
        Some(BlockRef(k, local))
      case None => None
  }

  // ---------------------------------------------------------------------------
  // Columns of chunks.
  // ---------------------------------------------------------------------------

  const BELOW := RelationVector(Below)

  /** The chunks of the map at or below height y. */
  function AtOrBelow(chunks: map<Vec3, Chunk>, y: int): set<Vec3> {
    set q | q in chunks && q.y <= y
  }

  /**
   * The bottom of a chunk's column: follow the below slots while they refer
   * to a chunk of the map. The bottom lies in the same column, no higher,
   * and has no chunk below it.
   */
  function ColumnBottom(chunks: map<Vec3, Chunk>, k: Vec3): (bottom: Vec3)
    requires WorldValid(chunks) && k in chunks
    ensures bottom in chunks && bottom.x == k.x && bottom.z == k.z && bottom.y <= k.y
    ensures SlotChunk(chunks, bottom, BELOW).None?
    decreases AtOrBelow(chunks, k.y)
  {
    match SlotChunk(chunks, k, BELOW)
    case None => k
    case Some(b) =>
      assert b.y < k.y && k !in AtOrBelow(chunks, b.y);
      ColumnBottom(chunks, b)
  }

  // ---------------------------------------------------------------------------
  // Relations between two states of the chunk map.
  // ---------------------------------------------------------------------------

  /** Same chunks, positions, neighbour tables, grids and geometry caches. */
  predicate SameLayout(a: map<Vec3, Chunk>, b: map<Vec3, Chunk>) {
    && a.Keys == b.Keys
    && forall k :: k in a ==>
      && a[k].position == b[k].position
      && a[k].neighbors == b[k].neighbors
      && a[k].blocks.Keys == b[k].blocks.Keys
      && a[k].faces == b[k].faces
      && a[k].boxes == b[k].boxes
  }

  /** Same material in every block. */
  ghost predicate SameMaterials(a: map<Vec3, Chunk>, b: map<Vec3, Chunk>) {
    forall r :: HasBlock(a, r) ==> HasBlock(b, r) && BlockAt(b, r).material == BlockAt(a, r).material
  }

  /** Same sunlight-source flag in every block. */
  ghost predicate SameSources(a: map<Vec3, Chunk>, b: map<Vec3, Chunk>) {
    forall r :: HasBlock(a, r) ==> HasBlock(b, r) && BlockAt(b, r).sunlightSource == BlockAt(a, r).sunlightSource
  }

  /** Resolution reads only the layout, not the contents of blocks. */
  lemma SameLayoutTransitive(a: map<Vec3, Chunk>, b: map<Vec3, Chunk>, c: map<Vec3, Chunk>)
    requires SameLayout(a, b) && SameLayout(b, c)
    ensures SameLayout(a, c)
  {
  }

  lemma ResolveSameLayout(a: map<Vec3, Chunk>, b: map<Vec3, Chunk>, r: BlockRef, offset: Vec3)
    requires WorldValid(a) && WorldValid(b) && SameLayout(a, b)
    requires HasBlock(a, r) && IsOffset(offset)
    ensures HasBlock(b, r) && Resolve(a, r, offset) == Resolve(b, r, offset)
  {
  }
}
