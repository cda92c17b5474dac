/**
 * The chunk map (ChunkMap) as a mutable object, and the free functions that
 * wire a chunk's neighbour table against it.
 */
module ChunkMap {
  import opened Options
  import opened Vectors
  import opened Blocks
  import opened Cardinal
  import opened ChunkGrid

  // ---------------------------------------------------------------------------
  // Specification of stitching and unstitching.
  // ---------------------------------------------------------------------------

  /** The relations whose target position holds a chunk of the map. */
  function FoundOffsets(chunks: map<Vec3, Chunk>, p: Vec3): (found: set<Vec3>)
    ensures forall d :: d in found <==> IsOffset(d) && Add(p, Scale(d)) in chunks
  {
    var found := set n | 0 <= n < 27 && Add(p, Scale(OffsetAt(n))) in chunks :: OffsetAt(n);
    forall d | IsOffset(d) && Add(p, Scale(d)) in chunks ensures d in found {
      OffsetOrderComplete(d);
    }
    found
  }

  /**
   * The table chunk_stitch_into_map leaves in the stitched chunk: every slot
   * whose target is in the map is set, every other slot keeps its value.
   */
  function StitchedNeighbors(chunks: map<Vec3, Chunk>, c: Chunk): (nb: map<Vec3, Vec3>)
    requires SlotsConsistent(c.position, c.neighbors)
    ensures SlotsConsistent(c.position, nb)
    ensures forall d :: d in nb <==> d in c.neighbors || (IsOffset(d) && Add(c.position, Scale(d)) in chunks)
  {
    map d | d in c.neighbors.Keys + FoundOffsets(chunks, c.position) :: Add(c.position, Scale(d))
  }

  /** The map after chunk_stitch_into_map(c, chunks). */
  function StitchInto(chunks: map<Vec3, Chunk>, c: Chunk): (next: map<Vec3, Chunk>)
    requires WorldValid(chunks) && ChunkValid(c.position, c)
    ensures WorldValid(next)
    ensures next.Keys == chunks.Keys + {c.position}
    ensures forall k :: k in chunks && k != c.position ==> next[k] == chunks[k]
    ensures next[c.position] == c.(neighbors := StitchedNeighbors(chunks, c))
  {
    chunks[c.position := c.(neighbors := StitchedNeighbors(chunks, c))]
  }

  /**
   * Stitching wires only the new chunk: it gains the slot toward every
   * chunk already in the map, and that chunk's own table is left as it was
   * (so the reverse slot is not set by this call).
   */
  lemma StitchWiresOneSide(chunks: map<Vec3, Chunk>, c: Chunk, d: Vec3)
    requires WorldValid(chunks) && ChunkValid(c.position, c)
    requires IsOffset(d) && d != ZERO && Add(c.position, Scale(d)) in chunks
    ensures var next := StitchInto(chunks, c);
      var other := Add(c.position, Scale(d));
      && d in next[c.position].neighbors && next[c.position].neighbors[d] == other
      && next[other].neighbors == chunks[other].neighbors
  {
    var other := Add(c.position, Scale(d));
    assert other != c.position;
  }

  /** No neighbour slot of a chunk in the map refers to a chunk that is not in it. */
  predicate NoDangling(chunks: map<Vec3, Chunk>) {
    forall k, d :: k in chunks && d in chunks[k].neighbors ==> chunks[k].neighbors[d] in chunks
  }

  /** Slots of the chunk about to be stitched refer to the map or to the chunk itself. */
  predicate SlotsInto(chunks: map<Vec3, Chunk>, c: Chunk) {
    forall d :: d in c.neighbors ==> c.neighbors[d] in chunks || c.neighbors[d] == c.position
  }

  lemma StitchKeepsNoDangling(chunks: map<Vec3, Chunk>, c: Chunk)
    requires WorldValid(chunks) && ChunkValid(c.position, c)
    requires NoDangling(chunks) && SlotsInto(chunks, c)
    ensures NoDangling(StitchInto(chunks, c))
  {
  }

  /** The map after chunk_unstich_from_map: only the key is erased. */
  function UnstitchFrom(chunks: map<Vec3, Chunk>, p: Vec3): (next: map<Vec3, Chunk>)
    requires WorldValid(chunks)
    ensures WorldValid(next)
    ensures next.Keys == chunks.Keys - {p}
    ensures forall k :: k in next ==> next[k] == chunks[k]
  {
    chunks - {p}
  }

  /**
   * Unstitching as written leaves dangling references: a chunk whose table
   * refers to the removed chunk still does afterwards.
   */
  lemma UnstitchLeavesDanglingSlot(chunks: map<Vec3, Chunk>, p: Vec3, k: Vec3, d: Vec3)
    requires WorldValid(chunks) && k in chunks && k != p
    requires d in chunks[k].neighbors && chunks[k].neighbors[d] == p
    ensures !NoDangling(UnstitchFrom(chunks, p))
  {
    var next := UnstitchFrom(chunks, p);
    assert k in next && d in next[k].neighbors && next[k].neighbors[d] !in next;
  }

  /**
   * The smallest case: stitch a chunk a at the origin, stitch its east
   * neighbour b, unstitch a. b's west slot still names the origin, which is
   * no longer in the map.
   */
  lemma UnstitchDanglingExample(a: Chunk, b: Chunk)
    requires ChunkValid(ZERO, a) && ChunkValid(Vec3(SIZE_X, 0, 0), b)
    ensures var w2 := StitchInto(StitchInto(map[], a), b);
      var west := Vec3(-1, 0, 0);
      && west in w2[b.position].neighbors && w2[b.position].neighbors[west] == ZERO
      && !NoDangling(UnstitchFrom(w2, ZERO))
  {
    var west := Vec3(-1, 0, 0);
    var w1 := StitchInto(map[], a);
    assert ZERO in w1;
    assert Add(b.position, Scale(west)) == ZERO;
    StitchWiresOneSide(w1, b, west);
    var w2 := StitchInto(w1, b);
    UnstitchLeavesDanglingSlot(w2, ZERO, b.position, west);
  }

  /** Remove every slot that refers to chunk p. */
  function DropSlotsTo(nb: map<Vec3, Vec3>, p: Vec3): (r: map<Vec3, Vec3>)
    ensures forall d :: d in r <==> d in nb && nb[d] != p
    ensures forall d :: d in r ==> r[d] == nb[d]
  {
    map d | d in nb && nb[d] != p :: nb[d]
  }

  /**
   * Unstitching that also clears the back-references: the key is erased and
   * every remaining chunk forgets its slot toward p.
   */
  function DetachFrom(chunks: map<Vec3, Chunk>, p: Vec3): (next: map<Vec3, Chunk>)
    requires WorldValid(chunks)
    ensures WorldValid(next)
    ensures next.Keys == chunks.Keys - {p}
    ensures forall k :: k in next ==> next[k] == chunks[k].(neighbors := DropSlotsTo(chunks[k].neighbors, p))
  {
    map k | k in chunks && k != p :: chunks[k].(neighbors := DropSlotsTo(chunks[k].neighbors, p))
  }

  /** The corrected unstitch keeps the map free of dangling references. */
  lemma DetachKeepsNoDangling(chunks: map<Vec3, Chunk>, p: Vec3)
    requires WorldValid(chunks) && NoDangling(chunks)
    ensures NoDangling(DetachFrom(chunks, p))
  {
    var next := DetachFrom(chunks, p);
    forall k, d | k in next && d in next[k].neighbors ensures next[k].neighbors[d] in next {
      assert d in chunks[k].neighbors && chunks[k].neighbors[d] != p;
    }
  }

  /** Two consistent tables with the same set slots are the same table. */
  lemma ConsistentTablesEqual(p: Vec3, a: map<Vec3, Vec3>, b: map<Vec3, Vec3>)
    requires SlotsConsistent(p, a) && SlotsConsistent(p, b)
    requires forall d :: d in a <==> d in b
    ensures a == b
  {
    assert a.Keys == b.Keys;
  }

  /** Every slot of a well-formed table is one of the 27 relations, and no others. */
  lemma ClearedTableIsEmpty(nb: map<Vec3, Vec3>, p: Vec3, cleared: set<Vec3>)
    requires SlotsConsistent(p, nb)
    requires forall d :: IsOffset(d) ==> d in cleared
    ensures nb - cleared == map[]
  {
    assert (nb - cleared).Keys == {};
  }

  // ---------------------------------------------------------------------------
  // The chunk map object.
  // ---------------------------------------------------------------------------

  class World {
    var chunks: map<Vec3, Chunk>
    /** The translucency attribute of each material (part of the material table). */
    const translucent: Material -> bool

    ghost predicate Valid()
      reads this
    {
      WorldValid(chunks)
    }

    constructor (translucent: Material -> bool)
      ensures Valid() && chunks == map[] && this.translucent == translucent
    {
      chunks := map[];
      this.translucent := translucent;
    }

    /**
     * chunk_stitch_into_map: for each of the 27 relations whose target
     * position is in the map, set that slot of c's table; then map c's
     * position to c. No other chunk's table changes.
     */
    method StitchIntoMap(c: Chunk)
      requires Valid() && ChunkValid(c.position, c)
      modifies this
      ensures Valid()
      ensures chunks == StitchInto(old(chunks), c)
    {
      var order := OffsetOrder();
      var before := chunks;
      var table := c.neighbors;
      for n := 0 to 27
        invariant SlotsConsistent(c.position, table)
        invariant forall d :: d in table <==>
          d in c.neighbors || (IsOffset(d) && OffsetRank(d) < n && Add(c.position, Scale(d)) in before)
      {
        var d := order[n];
        forall e | IsOffset(e) && OffsetRank(e) == n ensures e == d {
          OffsetOrderComplete(e);
        }
        var target := Add(c.position, Scale(d));
        if target in before {
          table := table[d := target];
        }
      }
      forall d | IsOffset(d) ensures OffsetRank(d) < 27 {
        OffsetOrderComplete(d);
      }
      ConsistentTablesEqual(c.position, table, StitchedNeighbors(before, c));
      chunks := before[c.position := c.(neighbors := table)];
    }

    /**
     * chunk_unstich_from_map: null all 27 of c's slots, the centre
     * included, and erase c's position from the map. Other chunks' tables
     * are not touched. Returns c as left by the call.
     */
    method UnstitchFromMap(c: Chunk) returns (detached: Chunk)
      requires Valid() && ChunkValid(c.position, c)
      modifies this
      ensures Valid()
      ensures detached == c.(neighbors := map[])
      ensures chunks == UnstitchFrom(old(chunks), c.position)
    {
      var order := OffsetOrder();
      var table := c.neighbors;
      for n := 0 to 27
        invariant table == c.neighbors - (set m | 0 <= m < n :: order[m])
      {
        table := table - {order[n]};
        assert (set m | 0 <= m < n + 1 :: order[m]) == (set m | 0 <= m < n :: order[m]) + {order[n]};
      }
      forall d | IsOffset(d) ensures d in (set m | 0 <= m < 27 :: order[m]) {
        OffsetOrderComplete(d);
      }
      ClearedTableIsEmpty(c.neighbors, c.position, set m | 0 <= m < 27 :: order[m]);
      detached := c.(neighbors := table);
      chunks := chunks - {c.position};
    }

    /**
     * Unstitch that also clears every back-reference to c, so that no chunk
     * left in the map refers to a removed one.
     */
    method UnstitchAndDetach(c: Chunk) returns (detached: Chunk)
      requires Valid() && ChunkValid(c.position, c)
      modifies this
      ensures Valid()
      ensures detached == c.(neighbors := map[])
      ensures chunks == DetachFrom(old(chunks), c.position)
      ensures old(NoDangling(chunks)) ==> NoDangling(chunks)
    {
      detached := c.(neighbors := map[]);
      if NoDangling(chunks) {
        DetachKeepsNoDangling(chunks, c.position);
      }
      chunks := DetachFrom(chunks, c.position);
    }

    /**
     * get_bottom_chunk_in_column: follow below slots from start while they
     * refer to a chunk; a null start gives null.
     */
    method BottomChunkInColumn(start: Option<Vec3>) returns (bottom: Option<Vec3>)
      requires Valid() && (start.Some? ==> start.value in chunks)
      ensures start.None? ==> bottom.None?
      ensures start.Some? ==> bottom == Some(ColumnBottom(chunks, start.value))
    {
      var current := start;
      bottom := None;
      while current.Some?
        invariant current.Some? ==> start.Some? && current.value in chunks && ColumnBottom(chunks, current.value) == ColumnBottom(chunks, start.value)
        invariant current.None? && start.Some? ==> bottom == Some(ColumnBottom(chunks, start.value))
        invariant start.None? ==> current.None? && bottom.None?
        decreases if current.Some? then AtOrBelow(chunks, current.value.y) else {}
      {
        bottom := current;
        var below := SlotChunk(chunks, current.value, BELOW);
        if below.Some? {
          assert current.value !in AtOrBelow(chunks, below.value.y);
        }
        current := below;
      }
    }
  }
}
