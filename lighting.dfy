/**
 * Lighting of a chunk: the per-column sky-exposure pass (reset_lighting) and
 * chunk_apply_lighting, which seeds a flood fill from every sunlight source
 * and every magma block.
 */
module Lighting {
  import opened Options
  import opened Vectors
  import opened Blocks
  import opened Cardinal
  import opened ChunkGrid
  import opened ChunkMap
  import opened FloodFill

  /** The light a magma block emits: red 14, green 4. */
  const MAGMA_LIGHT := Light(14, 4, 0, 0)

  // ---------------------------------------------------------------------------
  // Seeds.
  // ---------------------------------------------------------------------------

  /**
   * The level a block seeds a fill with: full sunlight for a sunlight source,
   * the magma glow for magma, and no light (no fill) otherwise.
   */
  function SeedLight(b: BlockState): Light {
    if b.sunlightSource then SUNLIGHT
    else if b.material == MATERIAL_MAGMA then MAGMA_LIGHT
    else MIN_LIGHT
  }

  /** A block starts a fill exactly when it is a sunlight source or magma. */
  lemma SeedsExactlySourcesAndMagma(b: BlockState)
    ensures SeedLight(b) != MIN_LIGHT <==> b.sunlightSource || b.material == MATERIAL_MAGMA
    ensures b.sunlightSource ==> SeedLight(b).s == MAX_BRIGHTNESS && SeedLight(b).r == 0
  {
  }

  // ---------------------------------------------------------------------------
  // Sky exposure (reset_lighting).
  // ---------------------------------------------------------------------------

  /** Every local index has an entry. */
  ghost predicate FullGrid(blocks: map<Vec3, BlockState>) {
    forall i :: InChunk(i) ==> i in blocks
  }

  lemma ValidChunkHasFullGrid(chunks: map<Vec3, Chunk>, p: Vec3)
    requires WorldValid(chunks) && p in chunks
    ensures FullGrid(chunks[p].blocks)
  {
  }

  const UP := RelationVector(Above)

  /** The top block of column (x, z). */
  function TopOf(x: int, z: int): Vec3 {
    Vec3(x, SIZE_Y - 1, z)
  }

  predicate IsColumn(x: int, z: int) {
    0 <= x < SIZE_X && 0 <= z < SIZE_Z
  }

  /**
   * Column (x, z) of chunk p is open to the sky at its top when there is no
   * block above it, or the block above is itself a sunlight source.
   */
  predicate AboveTopOpen(chunks: map<Vec3, Chunk>, p: Vec3, x: int, z: int)
    requires WorldValid(chunks) && p in chunks && IsColumn(x, z)
  {
    HasBlockInChunk(chunks, BlockRef(p, TopOf(x, z)));
    var above := Resolve(chunks, BlockRef(p, TopOf(x, z)), UP);
    above.None? || BlockAt(chunks, above.value).sunlightSource
  }

  /** Every block of column (x, z) of a grid from height y up is translucent. */
  predicate TranslucentFrom(blocks: map<Vec3, BlockState>, tr: Material -> bool, x: int, y: int, z: int)
    requires FullGrid(blocks) && IsColumn(x, z) && 0 <= y <= SIZE_Y
    decreases SIZE_Y - y
  {
    y == SIZE_Y || (tr(blocks[Vec3(x, y, z)].material) && TranslucentFrom(blocks, tr, x, y + 1, z))
  }

  /** TranslucentFrom holds exactly when each block from y to the top is translucent. */
  lemma {:induction false} TranslucentFromAll(blocks: map<Vec3, BlockState>, tr: Material -> bool, x: int, y: int, z: int)
    requires FullGrid(blocks) && IsColumn(x, z) && 0 <= y <= SIZE_Y
    ensures TranslucentFrom(blocks, tr, x, y, z) <==>
      forall t :: y <= t < SIZE_Y ==> tr(blocks[Vec3(x, t, z)].material)
    decreases SIZE_Y - y
  {
    if y < SIZE_Y {
      TranslucentFromAll(blocks, tr, x, y + 1, z);
    }
  }

  /** Exposure of a column reads only the materials of that column. */
  lemma {:induction false} TranslucentFromFrame(a: map<Vec3, BlockState>, b: map<Vec3, BlockState>, tr: Material -> bool, x: int, y: int, z: int)
    requires FullGrid(a) && FullGrid(b) && IsColumn(x, z) && 0 <= y <= SIZE_Y
    requires forall t :: y <= t < SIZE_Y ==> a[Vec3(x, t, z)].material == b[Vec3(x, t, z)].material
    ensures TranslucentFrom(a, tr, x, y, z) == TranslucentFrom(b, tr, x, y, z)
    decreases SIZE_Y - y
  {
    if y < SIZE_Y {
      TranslucentFromFrame(a, b, tr, x, y + 1, z);
    }
  }

  /** A block is a sunlight source after reset_lighting exactly when the sky reaches it. */
  predicate SkyExposed(chunks: map<Vec3, Chunk>, tr: Material -> bool, p: Vec3, i: Vec3)
    requires WorldValid(chunks) && p in chunks && InChunk(i)
  {
    AboveTopOpen(chunks, p, i.x, i.z) && TranslucentFrom(chunks[p].blocks, tr, i.x, i.y, i.z)
  }

  /** An opaque block is never exposed, and neither is anything below it. */
  lemma OpaqueShadowsColumn(chunks: map<Vec3, Chunk>, tr: Material -> bool, p: Vec3, i: Vec3, j: Vec3)
    requires WorldValid(chunks) && p in chunks && InChunk(i) && InChunk(j)
    requires j.x == i.x && j.z == i.z && j.y <= i.y && !tr(chunks[p].blocks[i].material)
    ensures !SkyExposed(chunks, tr, p, j)
  {
    TranslucentFromAll(chunks[p].blocks, tr, j.x, j.y, j.z);
    assert Vec3(j.x, i.y, j.z) == i;
  }

  /** Exposure is closed upward within a column. */
  lemma ExposedAbove(chunks: map<Vec3, Chunk>, tr: Material -> bool, p: Vec3, i: Vec3, j: Vec3)
    requires WorldValid(chunks) && p in chunks && InChunk(i) && InChunk(j)
    requires j.x == i.x && j.z == i.z && i.y <= j.y && SkyExposed(chunks, tr, p, i)
    ensures SkyExposed(chunks, tr, p, j)
  {
    TranslucentFromAll(chunks[p].blocks, tr, i.x, i.y, i.z);
    TranslucentFromAll(chunks[p].blocks, tr, j.x, j.y, j.z);
  }

  /** An open column with every block translucent is exposed all the way down. */
  lemma ClearColumnFullyExposed(chunks: map<Vec3, Chunk>, tr: Material -> bool, p: Vec3, x: int, z: int)
    requires WorldValid(chunks) && p in chunks && IsColumn(x, z) && AboveTopOpen(chunks, p, x, z)
    requires forall t :: 0 <= t < SIZE_Y ==> tr(chunks[p].blocks[Vec3(x, t, z)].material)
    ensures forall t :: 0 <= t < SIZE_Y ==> SkyExposed(chunks, tr, p, Vec3(x, t, z))
  {
    forall t | 0 <= t < SIZE_Y ensures SkyExposed(chunks, tr, p, Vec3(x, t, z)) {
      TranslucentFromAll(chunks[p].blocks, tr, x, t, z);
    }
  }

  /** A block as reset_lighting leaves it, given whether its column's top is open. */
  ghost function ResetWith(blocks: map<Vec3, BlockState>, tr: Material -> bool, topOpen: bool, i: Vec3): BlockState
    requires FullGrid(blocks) && InChunk(i)
  {
    blocks[i].(light := MIN_LIGHT, sunlightSource := topOpen && TranslucentFrom(blocks, tr, i.x, i.y, i.z))
  }

  /** The block chunk p holds at i after reset_lighting, given the map before it. */
  ghost function ResetBlock(chunks: map<Vec3, Chunk>, tr: Material -> bool, p: Vec3, i: Vec3): BlockState
    requires WorldValid(chunks) && p in chunks && InChunk(i)
  {
    ResetWith(chunks[p].blocks, tr, AboveTopOpen(chunks, p, i.x, i.z), i)
  }

  /**
   * After reset_lighting a block keeps its material and visited flag, is
   * dark, and is a sunlight source exactly when the sky reaches it.
   */
  lemma ResetBlockMeaning(chunks: map<Vec3, Chunk>, tr: Material -> bool, p: Vec3, i: Vec3)
    requires WorldValid(chunks) && p in chunks && InChunk(i)
    ensures ResetBlock(chunks, tr, p, i).material == chunks[p].blocks[i].material
    ensures ResetBlock(chunks, tr, p, i).visited == chunks[p].blocks[i].visited
    ensures ResetBlock(chunks, tr, p, i).light == MIN_LIGHT
    ensures ResetBlock(chunks, tr, p, i).sunlightSource <==> SkyExposed(chunks, tr, p, i)
  {
  }

  /**
   * The body of reset_lighting's (x, z) loop, on the grid being reset: scan
   * column (x, z) top-down, darkening every block and marking it a sunlight
   * source while the scan is still above ground. The scan starts above
   * ground when topOpen, the test on the block above the column's top.
   * Nothing outside the column changes.
   */
  method ResetColumn(tr: Material -> bool, x: int, z: int, topOpen: bool, blocks: map<Vec3, BlockState>)
    returns (reset: map<Vec3, BlockState>)
    requires IsColumn(x, z) && FullGrid(blocks)
    ensures FullGrid(reset) && reset.Keys == blocks.Keys
    ensures forall i :: InChunk(i) ==>
      reset[i] == if i.x == x && i.z == z then ResetWith(blocks, tr, topOpen, i) else blocks[i]
  {
    var aboveGround := topOpen;
    reset := blocks;
    var y := SIZE_Y - 1;
    while y >= 0
      invariant -1 <= y < SIZE_Y
      invariant FullGrid(reset) && reset.Keys == blocks.Keys
      invariant aboveGround == (topOpen && TranslucentFrom(blocks, tr, x, y + 1, z))
      invariant forall i :: InChunk(i) ==>
        reset[i] == if i.x == x && i.z == z && i.y > y then ResetWith(blocks, tr, topOpen, i) else blocks[i]
      decreases y
    {
      var index := Vec3(x, y, z);
      var block := reset[index].(light := MIN_LIGHT);
      if aboveGround {
        if tr(block.material) {
          block := block.(sunlightSource := true);
        } else {
          aboveGround := false;
          block := block.(sunlightSource := false);
        }
      } else {
        block := block.(sunlightSource := false);
      }
      reset := reset[index := block];
      y := y - 1;
    }
  }

  /** Column (x, i.z) has been scanned once reset_lighting's loops reach (x, z). */
  predicate ScannedBefore(x: int, z: int, i: Vec3) {
    i.x < x || (i.x == x && i.z < z)
  }

  /**
   * One step of reset_lighting's loops: resetting column (x, z) of a grid
   * whose scanned columns are reset and whose other columns are as in the
   * map gives the same picture one column further on.
   */
  lemma ResetStep(chunks: map<Vec3, Chunk>, tr: Material -> bool, p: Vec3, x: int, z: int,
                  blocks: map<Vec3, BlockState>, column: map<Vec3, BlockState>)
    requires WorldValid(chunks) && p in chunks && IsColumn(x, z) && FullGrid(blocks) && FullGrid(column)
    requires forall i :: InChunk(i) ==>
      blocks[i] == if ScannedBefore(x, z, i) then ResetBlock(chunks, tr, p, i) else chunks[p].blocks[i]
    requires forall i :: InChunk(i) ==>
      column[i] == if i.x == x && i.z == z then ResetWith(blocks, tr, AboveTopOpen(chunks, p, x, z), i) else blocks[i]
    ensures forall i :: InChunk(i) ==>
      column[i] == if ScannedBefore(x, z + 1, i) then ResetBlock(chunks, tr, p, i) else chunks[p].blocks[i]
  {
    forall i | InChunk(i)
      ensures column[i] == if ScannedBefore(x, z + 1, i) then ResetBlock(chunks, tr, p, i) else chunks[p].blocks[i]
    {
      if i.x == x && i.z == z {
        assert blocks[i] == chunks[p].blocks[i];
        TranslucentFromFrame(blocks, chunks[p].blocks, tr, x, i.y, z);
      } else {
        assert column[i] == blocks[i];
      }
    }
  }

  /**
   * reset_lighting: every block of chunk p becomes dark, and a sunlight
   * source exactly when the sky reaches it; its material and visited flag
   * are kept, and every other chunk is untouched.
   */
  method ResetLighting(w: World, p: Vec3)
    requires w.Valid() && p in w.chunks
    modifies w
    ensures w.Valid() && SameLayout(old(w.chunks), w.chunks)
    ensures forall k :: k in old(w.chunks) && k != p ==> w.chunks[k] == old(w.chunks)[k]
    ensures forall i :: InChunk(i) ==> w.chunks[p].blocks[i] == ResetBlock(old(w.chunks), w.translucent, p, i)
  {
    var chunks := w.chunks;
    var tr := w.translucent;
    var blocks := chunks[p].blocks;
    for x := 0 to SIZE_X
      invariant FullGrid(blocks) && blocks.Keys == chunks[p].blocks.Keys
      invariant forall i :: InChunk(i) ==>
        blocks[i] == if ScannedBefore(x, 0, i) then ResetBlock(chunks, tr, p, i) else chunks[p].blocks[i]
    {
      for z := 0 to SIZE_Z
        invariant FullGrid(blocks) && blocks.Keys == chunks[p].blocks.Keys
        invariant forall i :: InChunk(i) ==>
          blocks[i] == if ScannedBefore(x, z, i) then ResetBlock(chunks, tr, p, i) else chunks[p].blocks[i]
      {
        var aboveGround := AboveTopOpen(chunks, p, x, z);
        var column := ResetColumn(tr, x, z, aboveGround, blocks);
        ResetStep(chunks, tr, p, x, z, blocks, column);
        blocks := column;
      }
    }
    w.chunks := SetGrid(chunks, p, blocks);
  }

  // ---------------------------------------------------------------------------
  // Seeding fills (chunk_apply_lighting).
  // ---------------------------------------------------------------------------

  /** cur differs from before only in the light levels of blocks. */
  ghost predicate LightsOnly(before: map<Vec3, Chunk>, cur: map<Vec3, Chunk>) {
    && WorldValid(cur) && SameLayout(before, cur)
    && forall r {:trigger HasBlock(before, r)} :: HasBlock(before, r) ==>
      HasBlock(cur, r) && BlockAt(cur, r) == BlockAt(before, r).(light := BlockAt(cur, r).light)
  }

  /** cleared is chunks with the visited flag of every block of done cleared, and nothing else changed. */
  ghost predicate ClearedOf(chunks: map<Vec3, Chunk>, cleared: map<Vec3, Chunk>, done: seq<BlockRef>) {
    && WorldValid(cleared) && SameLayout(chunks, cleared)
    && forall r {:trigger HasBlock(chunks, r)} :: HasBlock(chunks, r) ==>
      HasBlock(cleared, r) && BlockAt(cleared, r) == if r in done then BlockAt(chunks, r).(visited := false) else BlockAt(chunks, r)
  }

  lemma ClearStep(chunks: map<Vec3, Chunk>, cleared: map<Vec3, Chunk>, done: seq<BlockRef>, r: BlockRef)
    requires ClearedOf(chunks, cleared, done) && HasBlock(chunks, r)
    ensures HasBlock(cleared, r)
    ensures ClearedOf(chunks, SetBlock(cleared, r, BlockAt(cleared, r).(visited := false)), done + [r])
  {
    var next := SetBlock(cleared, r, BlockAt(cleared, r).(visited := false));
    SameLayoutTransitive(chunks, cleared, next);
  }

  lemma TakeOneMore<T>(s: seq<T>, i: int)
    requires 0 <= i < |s|
    ensures s[..i + 1] == s[..i] + [s[i]]
  {
  }

  /** The loop after a fill: clear the visited flag of every block it visited. */
  method ClearVisited(chunks: map<Vec3, Chunk>, list: seq<BlockRef>) returns (cleared: map<Vec3, Chunk>)
    requires WorldValid(chunks) && forall j :: 0 <= j < |list| ==> HasBlock(chunks, list[j])
    ensures ClearedOf(chunks, cleared, list)
  {
    cleared := chunks;
    ghost var done: seq<BlockRef> := [];
    for i := 0 to |list|
      invariant done == list[..i] && ClearedOf(chunks, cleared, done)
    {
      ClearStep(chunks, cleared, done, list[i]);
      cleared := SetBlock(cleared, list[i], BlockAt(cleared, list[i]).(visited := false));
      TakeOneMore(list, i);
      done := done + [list[i]];
    }
    assert done == list;
  }

  /** One block after a fill and the clearing of its flags: only its light changed, and it did not darken. */
  lemma FillThenClearBlock(f: Fill, lit: map<Vec3, Chunk>, list: seq<BlockRef>, hops: seq<nat>, cleared: map<Vec3, Chunk>, r: BlockRef)
    requires MarksOnly(f.before, lit) && VisitedList(f, lit, list, hops) && HasBlock(f.before, r)
    requires HasBlock(cleared, r)
    requires BlockAt(cleared, r) == if r in list then BlockAt(lit, r).(visited := false) else BlockAt(lit, r)
    ensures BlockAt(cleared, r) == BlockAt(f.before, r).(light := BlockAt(cleared, r).light)
    ensures Dominates(BlockAt(cleared, r).light, BlockAt(f.before, r).light)
  {
    assert HasBlock(lit, r);
    if r in list {
      var j :| 0 <= j < |list| && list[j] == r;
      assert !BlockAt(f.before, r).visited;
    }
  }

  /**
   * A fill followed by clearing its visited flags changes nothing but
   * lights, and darkens nothing: the fill visits only blocks that were
   * unvisited, so clearing restores every flag.
   */
  lemma FillThenClear(before: map<Vec3, Chunk>, f: Fill, lit: map<Vec3, Chunk>, list: seq<BlockRef>, hops: seq<nat>,
                      cleared: map<Vec3, Chunk>)
    requires LightsOnly(before, f.before) && LightsAndMarksOnly(f.before, lit) && VisitedList(f, lit, list, hops)
    requires ClearedOf(lit, cleared, list)
    ensures LightsOnly(before, cleared) && LightsGrow(f.before, cleared)
  {
    SameLayoutTransitive(before, f.before, lit);
    SameLayoutTransitive(before, lit, cleared);
    forall r | HasBlock(f.before, r)
      ensures HasBlock(cleared, r) && BlockAt(cleared, r) == BlockAt(f.before, r).(light := BlockAt(cleared, r).light)
      ensures Dominates(BlockAt(cleared, r).light, BlockAt(f.before, r).light)
    {
      assert HasBlock(lit, r);
      FillThenClearBlock(f, lit, list, hops, cleared, r);
    }
  }

  /** A seed block unvisited at the start ends at least as bright as the level it seeds. */
  ghost predicate Seeded(start: map<Vec3, Chunk>, cur: map<Vec3, Chunk>, r: BlockRef) {
    HasBlock(start, r) && !BlockAt(start, r).visited ==>
      HasBlock(cur, r) && Dominates(BlockAt(cur, r).light, SeedLight(BlockAt(start, r)))
  }

  /** The first n blocks of chunk p in FOREACH_BLOCK order are seeded. */
  ghost predicate SeededUpTo(start: map<Vec3, Chunk>, cur: map<Vec3, Chunk>, p: Vec3, n: int)
    requires 0 <= n <= NUM_BLOCKS
  {
    forall m :: 0 <= m < n ==> Seeded(start, cur, BlockRef(p, BlockOrder()[m]))
  }

  /** A seed heading the visited list is at least as bright as the fill's level. */
  lemma SeedListed(f: Fill, lit: map<Vec3, Chunk>, list: seq<BlockRef>, hops: seq<nat>)
    requires MarksOnly(f.before, lit) && VisitedList(f, lit, list, hops) && |list| > 0 && list[0] == f.seed
    ensures HasBlock(lit, f.seed) && Dominates(BlockAt(lit, f.seed).light, f.level)
  {
    assert HasBlock(f.before, list[0]) && hops[0] == 0;
  }

  /** A block of a map that differs from start only in lights. */
  lemma LightsOnlyBlock(start: map<Vec3, Chunk>, cur: map<Vec3, Chunk>, r: BlockRef)
    requires LightsOnly(start, cur) && HasBlock(start, r)
    ensures HasBlock(cur, r) && BlockAt(cur, r) == BlockAt(start, r).(light := BlockAt(cur, r).light)
  {
  }

  /** Clearing visited flags keeps every light. */
  lemma ClearedLight(chunks: map<Vec3, Chunk>, cleared: map<Vec3, Chunk>, list: seq<BlockRef>, r: BlockRef)
    requires ClearedOf(chunks, cleared, list) && HasBlock(chunks, r)
    ensures HasBlock(cleared, r) && BlockAt(cleared, r).light == BlockAt(chunks, r).light
  {
  }

  /** The seed of a fill, once its flags are cleared, is at least as bright as its seed level. */
  lemma SeedLit(start: map<Vec3, Chunk>, cur: map<Vec3, Chunk>, cleared: map<Vec3, Chunk>, r: BlockRef, level: Light)
    requires HasBlock(start, r) && HasBlock(cur, r) && BlockAt(cur, r) == BlockAt(start, r).(light := BlockAt(cur, r).light)
    requires level == SeedLight(BlockAt(cur, r))
    requires !BlockAt(cur, r).visited ==> HasBlock(cleared, r) && Dominates(BlockAt(cleared, r).light, level)
    ensures Seeded(start, cleared, r)
  {
  }

  /** Seeded blocks stay seeded while lights grow. */
  lemma SeededGrow(start: map<Vec3, Chunk>, a: map<Vec3, Chunk>, b: map<Vec3, Chunk>, p: Vec3, n: int)
    requires 0 <= n <= NUM_BLOCKS && SeededUpTo(start, a, p, n) && LightsGrow(a, b)
    ensures SeededUpTo(start, b, p, n)
  {
    forall m | 0 <= m < n
      ensures Seeded(start, b, BlockRef(p, BlockOrder()[m]))
    {
      assert Seeded(start, a, BlockRef(p, BlockOrder()[m]));
    }
  }

  lemma LightsGrowTransitive(a: map<Vec3, Chunk>, b: map<Vec3, Chunk>, c: map<Vec3, Chunk>)
    requires LightsGrow(a, b) && LightsGrow(b, c)
    ensures LightsGrow(a, c)
  {
  }

  /** Seeding the next block in order extends the seeded prefix. */
  lemma SeededNext(start: map<Vec3, Chunk>, cur: map<Vec3, Chunk>, p: Vec3, n: int)
    requires 0 <= n < NUM_BLOCKS && SeededUpTo(start, cur, p, n) && Seeded(start, cur, BlockRef(p, BlockOrder()[n]))
    ensures SeededUpTo(start, cur, p, n + 1)
  {
  }

  /** Once every block of chunk p is seeded in order, each one is. */
  lemma SeededAll(start: map<Vec3, Chunk>, cur: map<Vec3, Chunk>, p: Vec3)
    requires SeededUpTo(start, cur, p, NUM_BLOCKS)
    ensures forall i :: InChunk(i) ==> Seeded(start, cur, BlockRef(p, i))
  {
    forall i | InChunk(i)
      ensures Seeded(start, cur, BlockRef(p, i))
    {
      BlockOrderComplete(i);
    }
  }

  /** A block whose seed level is dark is trivially seeded. */
  lemma DarkSeeded(start: map<Vec3, Chunk>, cur: map<Vec3, Chunk>, r: BlockRef)
    requires HasBlock(start, r) && HasBlock(cur, r) && BlockAt(cur, r) == BlockAt(start, r).(light := BlockAt(cur, r).light)
    requires SeedLight(BlockAt(cur, r)) == MIN_LIGHT
    ensures Seeded(start, cur, r)
  {
  }

  // ---------------------------------------------------------------------------
  // The spread of each seed's fill survives the later fills.
  // ---------------------------------------------------------------------------

  /** The fill chunk_apply_lighting starts from seed r, judged against the map start. */
  ghost function SeedFillOf(start: map<Vec3, Chunk>, tr: Material -> bool, r: BlockRef): Fill
    requires HasBlock(start, r)
  {
    FillOf(start, tr, BlockAt(start, r).sunlightSource, r, SeedLight(BlockAt(start, r)))
  }

  /**
   * An unvisited seed of start that emits light has spread its fill over
   * cur: its neighbours, theirs and so on are lit as a fill over start
   * from r would light them.
   */
  ghost predicate SpreadFrom(start: map<Vec3, Chunk>, cur: map<Vec3, Chunk>, tr: Material -> bool, r: BlockRef) {
    HasBlock(start, r) && !BlockAt(start, r).visited && SeedLight(BlockAt(start, r)) != MIN_LIGHT ==>
      exists list, hops :: Spread(SeedFillOf(start, tr, r), cur, list, hops)
  }

  /** The first n blocks of chunk p in FOREACH_BLOCK order have spread their fills. */
  ghost predicate SpreadUpTo(start: map<Vec3, Chunk>, cur: map<Vec3, Chunk>, tr: Material -> bool, p: Vec3, n: int)
    requires 0 <= n <= NUM_BLOCKS
  {
    forall m :: 0 <= m < n ==> SpreadFrom(start, cur, tr, BlockRef(p, BlockOrder()[m]))
  }

  /** Maps that differ only in lights have the same cardinal neighbours. */
  lemma NeighborLightsOnly(start: map<Vec3, Chunk>, chunks: map<Vec3, Chunk>, a: BlockRef, rel: Relation)
    requires WorldValid(start) && LightsOnly(start, chunks)
    ensures Neighbor(start, a, rel) == Neighbor(chunks, a, rel)
  {
    if HasBlock(start, a) {
      ResolveSameLayout(start, chunks, a, RelationVector(rel));
    }
  }

  /** A fill's list keeps its shape and parents when judged against a map that differs only in lights. */
  lemma ListLightsOnly(start: map<Vec3, Chunk>, chunks: map<Vec3, Chunk>, tr: Material -> bool, isSunlight: bool, r: BlockRef, level: Light,
                       list: seq<BlockRef>, hops: seq<nat>)
    requires WorldValid(start) && LightsOnly(start, chunks)
    requires ListShape(FillOf(chunks, tr, isSunlight, r, level), list, hops) && ListParents(FillOf(chunks, tr, isSunlight, r, level), list, hops)
    ensures ListShape(FillOf(start, tr, isSunlight, r, level), list, hops) && ListParents(FillOf(start, tr, isSunlight, r, level), list, hops)
  {
    var f, g := FillOf(chunks, tr, isSunlight, r, level), FillOf(start, tr, isSunlight, r, level);
    forall j | 0 <= j < |list|
      ensures HasBlock(start, list[j]) && BlockAt(start, list[j]).visited == BlockAt(chunks, list[j]).visited
      ensures Admits(start, tr, isSunlight, list[j]) == Admits(chunks, tr, isSunlight, list[j])
    {
      assert HasBlock(chunks, list[j]);
      LightsOnlyBlock(start, chunks, list[j]);
    }
    forall j | 0 < j < |list|
      ensures ParentIn(g, list, hops, j, list[j], hops[j])
    {
      var i :| 0 <= i < j && hops[j] == hops[i] + 1 && Adjacent(f, list[i], list[j]);
      var rel :| f.adj(list[i], rel) == Some(list[j]);
      NeighborLightsOnly(start, chunks, list[i], rel);
      assert g.adj(list[i], rel) == Some(list[j]);
    }
  }

  /** A fill's saturation carries over to a map that differs only in lights. */
  lemma SaturatedLightsOnly(start: map<Vec3, Chunk>, chunks: map<Vec3, Chunk>, tr: Material -> bool, isSunlight: bool, r: BlockRef, level: Light,
                            cur: map<Vec3, Chunk>, list: seq<BlockRef>, hops: seq<nat>)
    requires WorldValid(start) && LightsOnly(start, chunks) && |list| == |hops|
    requires Saturated(FillOf(chunks, tr, isSunlight, r, level), cur, list, hops)
    ensures Saturated(FillOf(start, tr, isSunlight, r, level), cur, list, hops)
  {
    var f, g := FillOf(chunks, tr, isSunlight, r, level), FillOf(start, tr, isSunlight, r, level);
    forall j, rel | 0 <= j < |list|
      ensures Lit(g, cur, Neighbor(start, list[j], rel), AttenuatedBy(level, hops[j] + 1))
    {
      NeighborLightsOnly(start, chunks, list[j], rel);
      var nb := Neighbor(start, list[j], rel);
      assert Lit(f, cur, nb, AttenuatedBy(level, hops[j] + 1));
      if Enterable(g, nb) {
        LightsOnlyBlock(start, chunks, nb.value);
        assert Enterable(f, nb);
      }
    }
  }

  /** A fill over chunks spread over cur is one over start too, when chunks differs from start only in lights. */
  lemma SpreadLightsOnly(start: map<Vec3, Chunk>, chunks: map<Vec3, Chunk>, tr: Material -> bool, isSunlight: bool, r: BlockRef, level: Light,
                         cur: map<Vec3, Chunk>, list: seq<BlockRef>, hops: seq<nat>)
    requires WorldValid(start) && LightsOnly(start, chunks)
    requires Spread(FillOf(chunks, tr, isSunlight, r, level), cur, list, hops)
    ensures Spread(FillOf(start, tr, isSunlight, r, level), cur, list, hops)
  {
    ListLightsOnly(start, chunks, tr, isSunlight, r, level, list, hops);
    SaturatedLightsOnly(start, chunks, tr, isSunlight, r, level, cur, list, hops);
  }

  /** Spread fills stay spread while lights grow. */
  lemma SpreadUpToGrow(start: map<Vec3, Chunk>, a: map<Vec3, Chunk>, b: map<Vec3, Chunk>, tr: Material -> bool, p: Vec3, n: int)
    requires 0 <= n <= NUM_BLOCKS && SpreadUpTo(start, a, tr, p, n) && LightsGrow(a, b)
    ensures SpreadUpTo(start, b, tr, p, n)
  {
    forall m | 0 <= m < n
      ensures SpreadFrom(start, b, tr, BlockRef(p, BlockOrder()[m]))
    {
      var r := BlockRef(p, BlockOrder()[m]);
      assert SpreadFrom(start, a, tr, r);
      if HasBlock(start, r) && !BlockAt(start, r).visited && SeedLight(BlockAt(start, r)) != MIN_LIGHT {
        var list, hops :| Spread(SeedFillOf(start, tr, r), a, list, hops);
        SaturatedGrow(SeedFillOf(start, tr, r), a, b, list, hops);
        assert Spread(SeedFillOf(start, tr, r), b, list, hops);
      }
    }
  }

  /** Spreading the next block's fill in order extends the spread prefix. */
  lemma SpreadNext(start: map<Vec3, Chunk>, cur: map<Vec3, Chunk>, tr: Material -> bool, p: Vec3, n: int)
    requires 0 <= n < NUM_BLOCKS && SpreadUpTo(start, cur, tr, p, n) && SpreadFrom(start, cur, tr, BlockRef(p, BlockOrder()[n]))
    ensures SpreadUpTo(start, cur, tr, p, n + 1)
  {
  }

  /** Once every block of chunk p has spread its fill in order, each one has. */
  lemma SpreadAll(start: map<Vec3, Chunk>, cur: map<Vec3, Chunk>, tr: Material -> bool, p: Vec3)
    requires SpreadUpTo(start, cur, tr, p, NUM_BLOCKS)
    ensures forall i :: InChunk(i) ==> SpreadFrom(start, cur, tr, BlockRef(p, i))
  {
    forall i | InChunk(i)
      ensures SpreadFrom(start, cur, tr, BlockRef(p, i))
    {
      BlockOrderComplete(i);
    }
  }

  /** The fill just run from seed r, spread over the map after it, is the seed's fill judged against start. */
  lemma SeedSpread(start: map<Vec3, Chunk>, chunks: map<Vec3, Chunk>, tr: Material -> bool, r: BlockRef,
                   lit: map<Vec3, Chunk>, list: seq<BlockRef>, hops: seq<nat>)
    requires WorldValid(start) && LightsOnly(start, chunks) && HasBlock(start, r)
    requires !BlockAt(chunks, r).visited ==>
      Spread(FillOf(chunks, tr, BlockAt(chunks, r).sunlightSource, r, SeedLight(BlockAt(chunks, r))), lit, list, hops)
    ensures SpreadFrom(start, lit, tr, r)
  {
    LightsOnlyBlock(start, chunks, r);
    if !BlockAt(start, r).visited {
      SpreadLightsOnly(start, chunks, tr, BlockAt(chunks, r).sunlightSource, r, SeedLight(BlockAt(chunks, r)), lit, list, hops);
      assert Spread(SeedFillOf(start, tr, r), lit, list, hops);
    }
  }

  // ---------------------------------------------------------------------------
  // Nothing but the seeds' fills lights a block.
  // ---------------------------------------------------------------------------

  /** Block s of start seeds a fill that lights something: it is unvisited and emits light. */
  ghost predicate Emits(start: map<Vec3, Chunk>, s: BlockRef) {
    HasBlock(start, s) && !BlockAt(start, s).visited && SeedLight(BlockAt(start, s)) != MIN_LIGHT
  }

  /**
   * path leads from the emitting seed s, by cardinal neighbours of start
   * that the seed's fill may enter (translucent, unvisited and, for
   * sunlight, not themselves sunlight sources), to a block fewer than
   * MaxChannel(level) steps away, the level being the seed's.
   */
  ghost predicate SeedReach(start: map<Vec3, Chunk>, tr: Material -> bool, s: BlockRef, path: seq<BlockRef>) {
    && Emits(start, s)
    && 0 < |path| <= MaxChannel(SeedLight(BlockAt(start, s)))
    && path[0] == s
    && Chain(SeedFillOf(start, tr, s), path)
    && Entered(SeedFillOf(start, tr, s), path)
  }

  /**
   * Light reaches past the seed only through translucent blocks that were
   * unvisited, and sunlight never through another sunlight source.
   */
  lemma ReachTranslucent(start: map<Vec3, Chunk>, tr: Material -> bool, s: BlockRef, path: seq<BlockRef>, n: nat)
    requires SeedReach(start, tr, s, path) && 0 < n < |path|
    ensures HasBlock(start, path[n]) && tr(BlockAt(start, path[n]).material) && !BlockAt(start, path[n]).visited
    ensures BlockAt(start, s).sunlightSource ==> !BlockAt(start, path[n]).sunlightSource
  {
    assert Enterable(SeedFillOf(start, tr, s), Some(path[n]));
  }

  /** A seed of chunk p reaches block x and brings value v to its channel c: its level after as many hops as the path takes. */
  ghost predicate Carried(start: map<Vec3, Chunk>, tr: Material -> bool, p: Vec3, x: BlockRef, c: ChannelName, v: int) {
    exists i, path :: InChunk(i) && SeedReach(start, tr, BlockRef(p, i), path) && path[|path| - 1] == x &&
      LightChannel(AttenuatedBy(SeedLight(BlockAt(start, BlockRef(p, i))), |path| - 1), c) == v
  }

  /**
   * The lights of cur are bounded by the fills of chunk p's seeds: every
   * channel of every block holds its value in start or a value a seed
   * carried to it.
   */
  ghost predicate LitBySeeds(start: map<Vec3, Chunk>, cur: map<Vec3, Chunk>, tr: Material -> bool, p: Vec3) {
    forall x, c :: HasBlock(start, x) && HasBlock(cur, x) ==>
      LightChannel(BlockAt(cur, x).light, c) == LightChannel(BlockAt(start, x).light, c) ||
      Carried(start, tr, p, x, c, LightChannel(BlockAt(cur, x).light, c))
  }

  /** Lights that agree in every channel are equal. */
  lemma ChannelsEqual(a: Light, b: Light)
    requires forall c :: LightChannel(a, c) == LightChannel(b, c)
    ensures a == b
  {
    assert LightChannel(a, Red) == LightChannel(b, Red) && LightChannel(a, Green) == LightChannel(b, Green);
    assert LightChannel(a, Blue) == LightChannel(b, Blue) && LightChannel(a, Sun) == LightChannel(b, Sun);
  }

  /** A channel of the channel-wise maximum is the larger of the two channels. */
  lemma MaxLightChannel(a: Light, b: Light, c: ChannelName)
    ensures LightChannel(MaxLight(a, b), c) == Max(LightChannel(a, c), LightChannel(b, c))
  {
  }

  /** A chain of cardinal neighbours stays one in a map that differs only in lights. */
  lemma ChainLightsOnly(start: map<Vec3, Chunk>, chunks: map<Vec3, Chunk>, tr: Material -> bool, isSunlight: bool, r: BlockRef, level: Light,
                        path: seq<BlockRef>)
    requires WorldValid(start) && LightsOnly(start, chunks) && Chain(FillOf(chunks, tr, isSunlight, r, level), path)
    ensures Chain(FillOf(start, tr, isSunlight, r, level), path)
  {
    var f, g := FillOf(chunks, tr, isSunlight, r, level), FillOf(start, tr, isSunlight, r, level);
    forall n | 0 < n < |path|
      ensures Adjacent(g, path[n - 1], path[n])
    {
      var rel :| f.adj(path[n - 1], rel) == Some(path[n]);
      NeighborLightsOnly(start, chunks, path[n - 1], rel);
      assert g.adj(path[n - 1], rel) == Some(path[n]);
    }
  }

  /** Blocks a fill may enter stay enterable in a map that differs only in lights. */
  lemma EnteredLightsOnly(start: map<Vec3, Chunk>, chunks: map<Vec3, Chunk>, tr: Material -> bool, isSunlight: bool, r: BlockRef, level: Light,
                          path: seq<BlockRef>)
    requires LightsOnly(start, chunks) && Entered(FillOf(chunks, tr, isSunlight, r, level), path)
    ensures Entered(FillOf(start, tr, isSunlight, r, level), path)
  {
    var f, g := FillOf(chunks, tr, isSunlight, r, level), FillOf(start, tr, isSunlight, r, level);
    forall n | 0 < n < |path|
      ensures Enterable(g, Some(path[n]))
    {
      assert Enterable(f, Some(path[n]));
      assert HasBlock(start, path[n]);
      LightsOnlyBlock(start, chunks, path[n]);
    }
  }

  /** A chain from an emitting seed over a map that differs from start only in lights is one over start. */
  lemma SeedReachLightsOnly(start: map<Vec3, Chunk>, chunks: map<Vec3, Chunk>, tr: Material -> bool, s: BlockRef, path: seq<BlockRef>)
    requires WorldValid(start) && LightsOnly(start, chunks) && HasBlock(start, s)
    requires !BlockAt(chunks, s).visited && SeedLight(BlockAt(chunks, s)) != MIN_LIGHT
    requires 0 < |path| <= MaxChannel(SeedLight(BlockAt(chunks, s))) && path[0] == s
    requires Chain(FillOf(chunks, tr, BlockAt(chunks, s).sunlightSource, s, SeedLight(BlockAt(chunks, s))), path)
    requires Entered(FillOf(chunks, tr, BlockAt(chunks, s).sunlightSource, s, SeedLight(BlockAt(chunks, s))), path)
    ensures SeedReach(start, tr, s, path)
  {
    LightsOnlyBlock(start, chunks, s);
    ChainLightsOnly(start, chunks, tr, BlockAt(start, s).sunlightSource, s, SeedLight(BlockAt(start, s)), path);
    EnteredLightsOnly(start, chunks, tr, BlockAt(start, s).sunlightSource, s, SeedLight(BlockAt(start, s)), path);
    SeedReachIntro(start, tr, s, path);
  }

  /** SeedReach from its parts, the fill being the seed's own over start. */
  lemma SeedReachIntro(start: map<Vec3, Chunk>, tr: Material -> bool, s: BlockRef, path: seq<BlockRef>)
    requires Emits(start, s) && 0 < |path| <= MaxChannel(SeedLight(BlockAt(start, s))) && path[0] == s
    requires Chain(FillOf(start, tr, BlockAt(start, s).sunlightSource, s, SeedLight(BlockAt(start, s))), path)
    requires Entered(FillOf(start, tr, BlockAt(start, s).sunlightSource, s, SeedLight(BlockAt(start, s))), path)
    ensures SeedReach(start, tr, s, path)
  {
  }

  /** The value a seed's fill brings k steps along a chain to x, judged over chunks, is carried over start. */
  lemma CarriedLightsOnly(start: map<Vec3, Chunk>, chunks: map<Vec3, Chunk>, tr: Material -> bool, p: Vec3, i: Vec3, s: BlockRef,
                          path: seq<BlockRef>, k: nat, x: BlockRef, c: ChannelName)
    requires WorldValid(start) && LightsOnly(start, chunks) && InChunk(i) && s == BlockRef(p, i) && HasBlock(start, s)
    requires !BlockAt(chunks, s).visited && SeedLight(BlockAt(chunks, s)) != MIN_LIGHT
    requires |path| == k + 1 <= MaxChannel(SeedLight(BlockAt(chunks, s))) && path[0] == s && path[k] == x
    requires Chain(FillOf(chunks, tr, BlockAt(chunks, s).sunlightSource, s, SeedLight(BlockAt(chunks, s))), path)
    requires Entered(FillOf(chunks, tr, BlockAt(chunks, s).sunlightSource, s, SeedLight(BlockAt(chunks, s))), path)
    ensures Carried(start, tr, p, x, c, LightChannel(AttenuatedBy(SeedLight(BlockAt(chunks, s)), k), c))
  {
    SeedReachLightsOnly(start, chunks, tr, s, path);
    LightsOnlyBlock(start, chunks, s);
    assert SeedReach(start, tr, BlockRef(p, i), path) && path[|path| - 1] == x && |path| - 1 == k;
  }

  /**
   * A channel of a listed block that the fill from seed s of chunk p can
   * light holds, once lit, a value the seed carried there.
   */
  lemma ListedCarried(start: map<Vec3, Chunk>, chunks: map<Vec3, Chunk>, tr: Material -> bool, p: Vec3, i: Vec3, s: BlockRef,
                      list: seq<BlockRef>, hops: seq<nat>, j: nat, c: ChannelName)
    requires WorldValid(start) && LightsOnly(start, chunks) && InChunk(i) && s == BlockRef(p, i) && HasBlock(start, s)
    requires SeedLight(BlockAt(start, s)) != MIN_LIGHT
    requires ListShape(FillOf(chunks, tr, BlockAt(chunks, s).sunlightSource, s, SeedLight(BlockAt(chunks, s))), list, hops)
    requires ListParents(FillOf(chunks, tr, BlockAt(chunks, s).sunlightSource, s, SeedLight(BlockAt(chunks, s))), list, hops)
    requires j < |list| && LightChannel(AttenuatedBy(SeedLight(BlockAt(chunks, s)), hops[j]), c) > 0
    ensures Carried(start, tr, p, list[j], c, LightChannel(AttenuatedBy(SeedLight(BlockAt(chunks, s)), hops[j]), c))
  {
    var path := LitWithinRadius(FillOf(chunks, tr, BlockAt(chunks, s).sunlightSource, s, SeedLight(BlockAt(chunks, s))), list, hops, j, c);
    CarriedLightsOnly(start, chunks, tr, p, i, s, path, hops[j], list[j], c);
  }

  /** One more seed's fill, lighting its listed blocks and nothing else, keeps the lights bounded by the seeds. */
  lemma LitBySeedsStep(start: map<Vec3, Chunk>, chunks: map<Vec3, Chunk>, lit: map<Vec3, Chunk>, tr: Material -> bool, p: Vec3, i: Vec3,
                       s: BlockRef, list: seq<BlockRef>, hops: seq<nat>)
    requires WorldValid(start) && LightsOnly(start, chunks) && LightsGrow(chunks, lit) && LitBySeeds(start, chunks, tr, p)
    requires InChunk(i) && s == BlockRef(p, i) && HasBlock(start, s) && SeedLight(BlockAt(start, s)) != MIN_LIGHT
    requires ListShape(FillOf(chunks, tr, BlockAt(chunks, s).sunlightSource, s, SeedLight(BlockAt(chunks, s))), list, hops)
    requires ListParents(FillOf(chunks, tr, BlockAt(chunks, s).sunlightSource, s, SeedLight(BlockAt(chunks, s))), list, hops)
    requires forall j :: 0 <= j < |list| ==>
      BlockAt(lit, list[j]).light == MaxLight(BlockAt(chunks, list[j]).light, AttenuatedBy(SeedLight(BlockAt(chunks, s)), hops[j]))
    requires forall x {:trigger BlockAt(lit, x)} :: HasBlock(chunks, x) && x !in list ==> BlockAt(lit, x).light == BlockAt(chunks, x).light
    ensures LitBySeeds(start, lit, tr, p)
  {
    forall x, c | HasBlock(start, x) && HasBlock(lit, x)
      ensures LightChannel(BlockAt(lit, x).light, c) == LightChannel(BlockAt(start, x).light, c) ||
              Carried(start, tr, p, x, c, LightChannel(BlockAt(lit, x).light, c))
    {
      LightsOnlyBlock(start, chunks, x);
      LitBySeedsBlock(start, chunks, tr, p, i, s, list, hops, x, c, BlockAt(chunks, x).light, BlockAt(lit, x).light);
    }
  }

  /** LitBySeedsStep for channel c of block x, whose light goes from u to v. */
  lemma LitBySeedsBlock(start: map<Vec3, Chunk>, chunks: map<Vec3, Chunk>, tr: Material -> bool, p: Vec3, i: Vec3, s: BlockRef,
                        list: seq<BlockRef>, hops: seq<nat>, x: BlockRef, c: ChannelName, u: Light, v: Light)
    requires WorldValid(start) && LightsOnly(start, chunks) && InChunk(i) && s == BlockRef(p, i) && HasBlock(start, s)
    requires SeedLight(BlockAt(start, s)) != MIN_LIGHT
    requires ListShape(FillOf(chunks, tr, BlockAt(chunks, s).sunlightSource, s, SeedLight(BlockAt(chunks, s))), list, hops)
    requires ListParents(FillOf(chunks, tr, BlockAt(chunks, s).sunlightSource, s, SeedLight(BlockAt(chunks, s))), list, hops)
    requires HasBlock(start, x) && HasBlock(chunks, x) && u == BlockAt(chunks, x).light
    requires LightChannel(u, c) == LightChannel(BlockAt(start, x).light, c) || Carried(start, tr, p, x, c, LightChannel(u, c))
    requires x !in list ==> v == u
    requires forall j :: 0 <= j < |list| && list[j] == x ==> v == MaxLight(u, AttenuatedBy(SeedLight(BlockAt(chunks, s)), hops[j]))
    ensures LightChannel(v, c) == LightChannel(BlockAt(start, x).light, c) || Carried(start, tr, p, x, c, LightChannel(v, c))
  {
    if x in list {
      var j :| 0 <= j < |list| && list[j] == x;
      var a := AttenuatedBy(SeedLight(BlockAt(chunks, s)), hops[j]);
      MaxLightChannel(u, a, c);
      if LightChannel(a, c) > LightChannel(u, c) {
        ListedCarried(start, chunks, tr, p, i, s, list, hops, j, c);
      }
    }
  }

  /**
   * A block whose light the fills changed is reached from an emitting seed
   * of chunk p by a chain of cardinal neighbours shorter than the seed's
   * brightest channel.
   */
  lemma ChangedReached(start: map<Vec3, Chunk>, cur: map<Vec3, Chunk>, tr: Material -> bool, p: Vec3, x: BlockRef)
    returns (i: Vec3, path: seq<BlockRef>)
    requires LightsOnly(start, cur) && LitBySeeds(start, cur, tr, p)
    requires HasBlock(start, x) && BlockAt(cur, x).light != BlockAt(start, x).light
    ensures InChunk(i) && SeedReach(start, tr, BlockRef(p, i), path) && path[|path| - 1] == x
  {
    var c :| LightChannel(BlockAt(cur, x).light, c) != LightChannel(BlockAt(start, x).light, c) by {
      if forall c :: LightChannel(BlockAt(cur, x).light, c) == LightChannel(BlockAt(start, x).light, c) {
        ChannelsEqual(BlockAt(cur, x).light, BlockAt(start, x).light);
      }
    }
    assert Carried(start, tr, p, x, c, LightChannel(BlockAt(cur, x).light, c));
    i, path :| InChunk(i) && SeedReach(start, tr, BlockRef(p, i), path) && path[|path| - 1] == x &&
      LightChannel(AttenuatedBy(SeedLight(BlockAt(start, BlockRef(p, i))), |path| - 1), c) == LightChannel(BlockAt(cur, x).light, c);
  }

  /** When no block of chunk p emits, lights bounded by its seeds are the lights of start, and the map is start. */
  lemma NoSeedsNoChange(start: map<Vec3, Chunk>, cur: map<Vec3, Chunk>, tr: Material -> bool, p: Vec3)
    requires LightsOnly(start, cur) && LitBySeeds(start, cur, tr, p)
    ensures (forall i :: InChunk(i) ==> !Emits(start, BlockRef(p, i))) ==> cur == start
  {
    if forall i :: InChunk(i) ==> !Emits(start, BlockRef(p, i)) {
      forall x | HasBlock(start, x)
        ensures HasBlock(cur, x) && BlockAt(cur, x) == BlockAt(start, x)
      {
        forall c
          ensures LightChannel(BlockAt(cur, x).light, c) == LightChannel(BlockAt(start, x).light, c)
        {
          assert !Carried(start, tr, p, x, c, LightChannel(BlockAt(cur, x).light, c));
        }
        ChannelsEqual(BlockAt(cur, x).light, BlockAt(start, x).light);
      }
      SameBlocksEqual(start, cur);
    }
  }

  /**
   * The body of chunk_apply_lighting for one seed: flood-fill from block r
   * at the given level, lit by sunlight exactly when r is a sunlight source,
   * then clear the visited flag of every block the fill visited. Only
   * lights change, none darkens, and the lights are exactly the fill's: the
   * blocks it visited (returned for the proof), each reached from the seed
   * by a chain of cardinal neighbours, hold the channel-wise maximum of
   * their old light and the level their hop count gives; every other block
   * keeps its light, and a seed visited beforehand changes nothing at all.
   * An unvisited seed ends at least as bright as the level, and its fill has
   * spread: every enterable neighbour of a visited block is lit to the level
   * one hop beyond it.
   */
  method SeedFill(ghost start: map<Vec3, Chunk>, chunks: map<Vec3, Chunk>, tr: Material -> bool, r: BlockRef, level: Light)
    returns (lit: map<Vec3, Chunk>, ghost list: seq<BlockRef>, ghost hops: seq<nat>)
    requires LightsOnly(start, chunks) && HasBlock(chunks, r)
    ensures LightsOnly(start, lit) && LightsGrow(chunks, lit)
    ensures ListShape(FillOf(chunks, tr, BlockAt(chunks, r).sunlightSource, r, level), list, hops)
    ensures ListParents(FillOf(chunks, tr, BlockAt(chunks, r).sunlightSource, r, level), list, hops)
    ensures forall j :: 0 <= j < |list| ==>
      BlockAt(lit, list[j]).light == MaxLight(BlockAt(chunks, list[j]).light, AttenuatedBy(level, hops[j]))
    ensures forall x {:trigger BlockAt(lit, x)} :: HasBlock(chunks, x) && x !in list ==> BlockAt(lit, x).light == BlockAt(chunks, x).light
    ensures BlockAt(chunks, r).visited ==> lit == chunks
    ensures !BlockAt(chunks, r).visited ==> HasBlock(lit, r) && Dominates(BlockAt(lit, r).light, level)
    ensures !BlockAt(chunks, r).visited ==> Spread(FillOf(chunks, tr, BlockAt(chunks, r).sunlightSource, r, level), lit, list, hops)
  {
    var isSunlight := BlockAt(chunks, r).sunlightSource;
    var filled, visited;
    filled, visited, hops := BreadthFirstFloodFill(chunks, tr, isSunlight, r, level);
    lit := ClearVisited(filled, visited);
    list := visited;
    ghost var f := FillOf(chunks, tr, isSunlight, r, level);
    FillThenClear(start, f, filled, visited, hops, lit);
    FilledThenCleared(f, filled, list, hops, lit);
    if !BlockAt(chunks, r).visited {
      SeedListed(f, filled, visited, hops);
      ClearedLight(filled, lit, visited, r);
      ClearedGrow(filled, lit, visited);
      SaturatedGrow(f, filled, lit, visited, hops);
    } else {
      VisitedSeedUnchanged(f, filled, list, hops, lit);
    }
  }

  /** After the fill and the clearing of its flags, the listed blocks hold the fill's lights and the rest their old ones. */
  lemma FilledThenCleared(f: Fill, filled: map<Vec3, Chunk>, list: seq<BlockRef>, hops: seq<nat>, lit: map<Vec3, Chunk>)
    requires MarksOnly(f.before, filled) && VisitedList(f, filled, list, hops) && ClearedOf(filled, lit, list)
    ensures forall j :: 0 <= j < |list| ==>
      HasBlock(lit, list[j]) && BlockAt(lit, list[j]).light == MaxLight(BlockAt(f.before, list[j]).light, AttenuatedBy(f.level, hops[j]))
    ensures forall x {:trigger BlockAt(lit, x)} :: HasBlock(f.before, x) && x !in list ==>
      HasBlock(lit, x) && BlockAt(lit, x).light == BlockAt(f.before, x).light
  {
    forall j | 0 <= j < |list|
      ensures HasBlock(lit, list[j]) && BlockAt(lit, list[j]).light == MaxLight(BlockAt(f.before, list[j]).light, AttenuatedBy(f.level, hops[j]))
    {
      assert HasBlock(f.before, list[j]);
      ClearedLight(filled, lit, list, list[j]);
    }
    forall x | HasBlock(f.before, x) && x !in list
      ensures HasBlock(lit, x) && BlockAt(lit, x).light == BlockAt(f.before, x).light
    {
      ClearedLight(filled, lit, list, x);
    }
  }

  /** A fill from a seed visited beforehand visits nothing, so clearing after it gives back the map it began with. */
  lemma VisitedSeedUnchanged(f: Fill, filled: map<Vec3, Chunk>, list: seq<BlockRef>, hops: seq<nat>, lit: map<Vec3, Chunk>)
    requires LightsAndMarksOnly(f.before, filled) && VisitedList(f, filled, list, hops) && ClearedOf(filled, lit, list)
    requires HasBlock(f.before, f.seed) && BlockAt(f.before, f.seed).visited
    ensures lit == f.before
  {
    forall x | HasBlock(f.before, x)
      ensures HasBlock(lit, x) && BlockAt(lit, x) == BlockAt(f.before, x)
    {
      VisitedNothingBlock(f, filled, hops, x);
      assert HasBlock(filled, x);
      assert BlockAt(lit, x) == BlockAt(filled, x);
    }
    SameLayoutTransitive(f.before, filled, lit);
    SameBlocksEqual(f.before, lit);
  }

  /** A fill that visited nothing left every block as it was. */
  lemma VisitedNothingBlock(f: Fill, filled: map<Vec3, Chunk>, hops: seq<nat>, x: BlockRef)
    requires MarksOnly(f.before, filled) && VisitedList(f, filled, [], hops) && HasBlock(f.before, x)
    ensures HasBlock(filled, x) && BlockAt(filled, x) == BlockAt(f.before, x)
  {
    assert BlockAt(filled, x).visited == BlockAt(f.before, x).visited;
  }

  /** Two maps with the same layout and the same blocks are equal. */
  lemma SameBlocksEqual(a: map<Vec3, Chunk>, b: map<Vec3, Chunk>)
    requires SameLayout(a, b)
    requires forall x {:trigger HasBlock(a, x)} :: HasBlock(a, x) ==> HasBlock(b, x) && BlockAt(b, x) == BlockAt(a, x)
    ensures a == b
  {
    forall k | k in a
      ensures b[k] == a[k]
    {
      forall i | i in a[k].blocks
        ensures b[k].blocks[i] == a[k].blocks[i]
      {
        assert HasBlock(a, BlockRef(k, i));
      }
      assert b[k].blocks == a[k].blocks;
    }
  }

  /** Clearing visited flags darkens nothing. */
  lemma ClearedGrow(chunks: map<Vec3, Chunk>, cleared: map<Vec3, Chunk>, list: seq<BlockRef>)
    requires ClearedOf(chunks, cleared, list)
    ensures LightsGrow(chunks, cleared)
  {
    forall r | HasBlock(chunks, r)
      ensures HasBlock(cleared, r) && Dominates(BlockAt(cleared, r).light, BlockAt(chunks, r).light)
    {
      ClearedLight(chunks, cleared, list, r);
    }
  }

  /**
   * chunk_apply_lighting: for every block of chunk p, in FOREACH_BLOCK
   * order, that seeds light (a sunlight source or magma), flood-fill its
   * light through the map (the fill crosses into neighbouring chunks) and
   * then clear the visited flags the fill set. Only light levels change,
   * so the visited flags are as they were (all clear when they started
   * clear); no light darkens; every seed that was unvisited ends at
   * least as bright as its seed level; the fill of each such seed has
   * spread over the final map, later fills notwithstanding; and nothing else
   * lights a block: every channel of every block keeps its old value or
   * holds the level an emitting seed of chunk p brought it over a chain of
   * cardinal neighbours within that seed's radius. So when no block of p
   * emits, the map is unchanged.
   */
  method ApplyLighting(w: World, p: Vec3)
    requires w.Valid() && p in w.chunks
    modifies w
    ensures w.Valid() && LightsOnly(old(w.chunks), w.chunks) && LightsGrow(old(w.chunks), w.chunks)
    ensures forall i :: InChunk(i) ==> Seeded(old(w.chunks), w.chunks, BlockRef(p, i))
    ensures forall i :: InChunk(i) ==> SpreadFrom(old(w.chunks), w.chunks, w.translucent, BlockRef(p, i))
    ensures LitBySeeds(old(w.chunks), w.chunks, w.translucent, p)
    ensures (forall i :: InChunk(i) ==> !Emits(old(w.chunks), BlockRef(p, i))) ==> w.chunks == old(w.chunks)
  {
    var chunks := w.chunks;
    var tr := w.translucent;
    var order := BlockOrder();
    ghost var start := chunks;
    for n := 0 to NUM_BLOCKS
      invariant LightsOnly(start, chunks) && LightsGrow(start, chunks) && SeededUpTo(start, chunks, p, n)
      invariant SpreadUpTo(start, chunks, tr, p, n)
      invariant LitBySeeds(start, chunks, tr, p)
    {
      var r := BlockRef(p, order[n]);
      assert HasBlock(start, r);
      LightsOnlyBlock(start, chunks, r);
      var block := BlockAt(chunks, r);
      var level := SeedLight(block);
      if level != MIN_LIGHT {
        var lit, list, hops := SeedFill(start, chunks, tr, r, level);
        SeedLit(start, chunks, lit, r, level);
        SeededGrow(start, chunks, lit, p, n);
        SpreadUpToGrow(start, chunks, lit, tr, p, n);
        SeedSpread(start, chunks, tr, r, lit, list, hops);
        LightsGrowTransitive(start, chunks, lit);
        LitBySeedsStep(start, chunks, lit, tr, p, order[n], r, list, hops);
        chunks := lit;
      } else {
        DarkSeeded(start, chunks, r);
      }
      SeededNext(start, chunks, p, n);
      SpreadNext(start, chunks, tr, p, n);
    }
    SeededAll(start, chunks, p);
    SpreadAll(start, chunks, tr, p);
    NoSeedsNoChange(start, chunks, tr, p);
    w.chunks := chunks;
  }
}
