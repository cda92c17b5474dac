/**
 * breadth_first_flood_fill_light: light spreads from a seed block through
 * translucent neighbours, one hop at a time, losing one unit per channel on
 * each hop. Every block records the brightest level that reached it.
 */
module FloodFill {
  import opened Options
  import opened Vectors
  import opened Blocks
  import opened Cardinal
  import opened ChunkGrid

  // ---------------------------------------------------------------------------
  // Attenuation over several hops.
  // ---------------------------------------------------------------------------

  /** The level carried k hops away from a seed of the given level. */
  function AttenuatedBy(level: Light, k: nat): Light {
    if k == 0 then level else Attenuate(AttenuatedBy(level, k - 1))
  }

  function Saturate(c: int): int {
    if c > 0 then c else 0
  }

  /** k hops lower every channel by k, saturating at zero. */
  lemma {:induction false} AttenuatedByClosedForm(level: Light, k: nat)
    ensures AttenuatedBy(level, k).r == Saturate(level.r - k)
    ensures AttenuatedBy(level, k).g == Saturate(level.g - k)
    ensures AttenuatedBy(level, k).b == Saturate(level.b - k)
    ensures AttenuatedBy(level, k).s == Saturate(level.s - k)
  {
    if k > 0 {
      AttenuatedByClosedForm(level, k - 1);
    }
  }

  /** A farther block receives no more light than a nearer one. */
  lemma AttenuatedByMonotone(level: Light, j: nat, k: nat)
    requires j <= k
    ensures Dominates(AttenuatedBy(level, j), AttenuatedBy(level, k))
  {
    AttenuatedByClosedForm(level, j);
    AttenuatedByClosedForm(level, k);
  }

  /** Once no channel is left after k hops, none is left farther away. */
  lemma DarkStaysDark(level: Light, j: nat, k: nat)
    requires j <= k && AttenuatedBy(level, j) == MIN_LIGHT
    ensures AttenuatedBy(level, k) == MIN_LIGHT
  {
    AttenuatedByMonotone(level, j, k);
  }

  /** A fill of level V reaches no farther than MaxChannel(V) hops with any light. */
  lemma FillRadius(level: Light, k: nat)
    requires k >= MaxChannel(level)
    ensures AttenuatedBy(level, k) == MIN_LIGHT
  {
    AttenuatedByClosedForm(level, k);
  }

  // ---------------------------------------------------------------------------
  // The queue.
  // ---------------------------------------------------------------------------

  /** FloodFillBlock: a block and the light level arriving at it. */
  datatype FillEntry = FillEntry(ref: BlockRef, level: Light)

  /** The blocks of a queue, front first. */
  function Refs(queue: seq<FillEntry>): (refs: seq<BlockRef>)
    ensures |refs| == |queue| && forall m :: 0 <= m < |queue| ==> refs[m] == queue[m].ref
  {
    seq(|queue|, m requires 0 <= m < |queue| => queue[m].ref)
  }

  /** Some entry of the queue for block x is at most bound hops from the seed. */
  ghost predicate Pending(queue: seq<FillEntry>, qh: seq<nat>, x: BlockRef, bound: nat) {
    exists m :: 0 <= m < |queue| && m < |qh| && queue[m].ref == x && qh[m] <= bound
  }

  predicate Sorted(hops: seq<nat>) {
    forall a, b :: 0 <= a <= b < |hops| ==> hops[a] <= hops[b]
  }

  /** n copies of a hop count. */
  function Repeat(h: nat, n: nat): (s: seq<nat>)
    ensures |s| == n && forall m :: 0 <= m < n ==> s[m] == h
  {
    seq(n, _ => h)
  }

  // ---------------------------------------------------------------------------
  // Termination: a queue entry of brightest channel c weighs 7^c, and a
  // processed entry is replaced by at most six entries one unit dimmer.
  // ---------------------------------------------------------------------------

  function Pow7(n: nat): (p: nat)
    ensures p >= 1
  {
    if n == 0 then 1 else 7 * Pow7(n - 1)
  }

  function QueueWeight(queue: seq<FillEntry>): nat {
    if |queue| == 0 then 0 else Pow7(MaxChannel(queue[0].level)) + QueueWeight(queue[1..])
  }

  lemma {:induction false} WeightAppend(a: seq<FillEntry>, b: seq<FillEntry>)
    ensures QueueWeight(a + b) == QueueWeight(a) + QueueWeight(b)
  {
    if |a| > 0 {
      assert (a + b)[1..] == a[1..] + b;
      WeightAppend(a[1..], b);
    } else {
      assert a + b == b;
    }
  }

  /** n times w, as repeated addition. */
  function Times(n: nat, w: nat): nat {
    if n == 0 then 0 else w + Times(n - 1, w)
  }

  lemma {:induction false} TimesMonotone(n: nat, k: nat, w: nat)
    requires n <= k
    ensures Times(n, w) <= Times(k, w)
    decreases k - n
  {
    if n < k {
      TimesMonotone(n + 1, k, w);
    }
  }

  lemma TimesSix(w: nat)
    ensures Times(NUM_CARDINAL_RELATIONS, w) == w + w + w + w + w + w
  {
    assert Times(0, w) == 0;
    assert Times(1, w) == w;
    assert Times(2, w) == w + w;
    assert Times(3, w) == w + w + w;
    assert Times(4, w) == w + w + w + w;
    assert Times(5, w) == w + w + w + w + w;
  }

  /** Entries all of one level weigh their number times that level's weight. */
  lemma {:induction false} WeightUniform(s: seq<FillEntry>, level: Light)
    requires forall m :: 0 <= m < |s| ==> s[m].level == level
    ensures QueueWeight(s) == Times(|s|, Pow7(MaxChannel(level)))
  {
    if |s| > 0 {
      WeightUniform(s[1..], level);
    }
  }

  /** At most six entries of one level weigh less than one entry a unit brighter. */
  lemma SixLighterThanOne(added: seq<FillEntry>, level: Light)
    requires |added| <= NUM_CARDINAL_RELATIONS
    requires forall m :: 0 <= m < |added| ==> added[m].level == level
    ensures QueueWeight(added) < Pow7(MaxChannel(level) + 1)
  {
    var w := Pow7(MaxChannel(level));
    WeightUniform(added, level);
    TimesMonotone(|added|, NUM_CARDINAL_RELATIONS, w);
    TimesSix(w);
  }

  /** At most six entries one hop dimmer than a lit level weigh less than one entry of that level. */
  lemma SixAttenuatedLighter(added: seq<FillEntry>, level: Light)
    requires |added| <= NUM_CARDINAL_RELATIONS && Attenuate(level) != MIN_LIGHT
    requires forall m :: 0 <= m < |added| ==> added[m].level == Attenuate(level)
    ensures QueueWeight(added) < Pow7(MaxChannel(level))
  {
    var attenuated := Attenuate(level);
    SixLighterThanOne(added, attenuated);
    assert MaxChannel(level) == MaxChannel(attenuated) + 1;
  }

  /**
   * Popping an entry and appending at most six entries of its attenuated
   * level, which is not dark, makes the queue lighter.
   */
  lemma ReplaceLighter(queue: seq<FillEntry>, added: seq<FillEntry>)
    requires |queue| > 0 && |added| <= NUM_CARDINAL_RELATIONS
    requires added != [] ==> Attenuate(queue[0].level) != MIN_LIGHT
    requires forall m :: 0 <= m < |added| ==> added[m].level == Attenuate(queue[0].level)
    ensures QueueWeight(queue[1..] + added) < QueueWeight(queue)
  {
    WeightAppend(queue[1..], added);
    if added != [] {
      SixAttenuatedLighter(added, queue[0].level);
    }
  }

  // ---------------------------------------------------------------------------
  // The neighbours a processed block queues.
  // ---------------------------------------------------------------------------

  /** A block the fill may enter: translucent and, for sunlight, not itself a source. */
  predicate Admits(chunks: map<Vec3, Chunk>, tr: Material -> bool, isSunlight: bool, r: BlockRef)
    requires HasBlock(chunks, r)
  {
    tr(BlockAt(chunks, r).material) && (!isSunlight || !BlockAt(chunks, r).sunlightSource)
  }

  /**
   * The test a neighbour passes to be queued at the attenuated level: it
   * exists, is admitted, is not yet visited and is darker than the level in
   * some channel (it is not already lit).
   */
  predicate Enqueues(chunks: map<Vec3, Chunk>, tr: Material -> bool, isSunlight: bool, nb: Option<BlockRef>, attenuated: Light) {
    && nb.Some?
    && HasBlock(chunks, nb.value)
    && Admits(chunks, tr, isSunlight, nb.value)
    && !BlockAt(chunks, nb.value).visited
    && !Dominates(BlockAt(chunks, nb.value).light, attenuated)
  }

  /** The entries queued for the neighbours of r along rels, in order. */
  function Queued(chunks: map<Vec3, Chunk>, tr: Material -> bool, isSunlight: bool, r: BlockRef, attenuated: Light, rels: seq<Relation>): seq<FillEntry>
    requires WorldValid(chunks) && HasBlock(chunks, r)
  {
    if rels == [] then []
    else
      var nb := Resolve(chunks, r, RelationVector(rels[|rels| - 1]));
      Queued(chunks, tr, isSunlight, r, attenuated, rels[..|rels| - 1]) +
        (if Enqueues(chunks, tr, isSunlight, nb, attenuated) then [FillEntry(nb.value, attenuated)] else [])
  }

  /** Extending rels by one relation appends that neighbour's entry when it passes the test. */
  lemma QueuedStep(chunks: map<Vec3, Chunk>, tr: Material -> bool, isSunlight: bool, r: BlockRef, attenuated: Light, rels: seq<Relation>, i: int)
    requires WorldValid(chunks) && HasBlock(chunks, r) && 0 <= i < |rels|
    ensures var nb := Resolve(chunks, r, RelationVector(rels[i]));
      Queued(chunks, tr, isSunlight, r, attenuated, rels[..i + 1]) ==
        Queued(chunks, tr, isSunlight, r, attenuated, rels[..i]) + (if Enqueues(chunks, tr, isSunlight, nb, attenuated) then [FillEntry(nb.value, attenuated)] else [])
  {
    assert rels[..i + 1][..i] == rels[..i];
  }

  /** Every queued entry is a neighbour that passes the test, at the attenuated level; at most one per relation. */
  lemma {:induction false} QueuedSound(chunks: map<Vec3, Chunk>, tr: Material -> bool, isSunlight: bool, r: BlockRef, attenuated: Light, rels: seq<Relation>)
    requires WorldValid(chunks) && HasBlock(chunks, r)
    ensures var q := Queued(chunks, tr, isSunlight, r, attenuated, rels);
      && |q| <= |rels|
      && forall m :: 0 <= m < |q| ==> q[m].level == attenuated && Enqueues(chunks, tr, isSunlight, Some(q[m].ref), attenuated)
  {
    if rels != [] {
      QueuedSound(chunks, tr, isSunlight, r, attenuated, rels[..|rels| - 1]);
    }
  }

  /** Every neighbour along rels that passes the test is queued. */
  lemma {:induction false} QueuedComplete(chunks: map<Vec3, Chunk>, tr: Material -> bool, isSunlight: bool, r: BlockRef, attenuated: Light, rels: seq<Relation>, rel: Relation)
    requires WorldValid(chunks) && HasBlock(chunks, r) && rel in rels
    requires Enqueues(chunks, tr, isSunlight, Resolve(chunks, r, RelationVector(rel)), attenuated)
    ensures Resolve(chunks, r, RelationVector(rel)).value in Refs(Queued(chunks, tr, isSunlight, r, attenuated, rels))
  {
    var last := rels[|rels| - 1];
    var init := rels[..|rels| - 1];
    var q := Queued(chunks, tr, isSunlight, r, attenuated, init);
    var all := Queued(chunks, tr, isSunlight, r, attenuated, rels);
    var x := Resolve(chunks, r, RelationVector(rel)).value;
    if rel == last {
      assert all == q + [FillEntry(x, attenuated)];
      assert Refs(all)[|q|] == x;
    } else {
      assert rel in init by {
        assert rels == init + [last];
      }
      QueuedComplete(chunks, tr, isSunlight, r, attenuated, init, rel);
      var m :| 0 <= m < |q| && Refs(q)[m] == x;
      assert all[m] == q[m];
      assert Refs(all)[m] == x;
    }
  }

  /** The m-th queued entry is the block some relation of rels leads to. */
  lemma {:induction false} QueuedNeighbor(chunks: map<Vec3, Chunk>, tr: Material -> bool, isSunlight: bool, r: BlockRef, attenuated: Light, rels: seq<Relation>, m: nat)
    returns (rel: Relation)
    requires WorldValid(chunks) && HasBlock(chunks, r) && m < |Queued(chunks, tr, isSunlight, r, attenuated, rels)|
    ensures rel in rels && Resolve(chunks, r, RelationVector(rel)) == Some(Queued(chunks, tr, isSunlight, r, attenuated, rels)[m].ref)
  {
    var last := rels[|rels| - 1];
    var init := rels[..|rels| - 1];
    var q0 := Queued(chunks, tr, isSunlight, r, attenuated, init);
    var q := Queued(chunks, tr, isSunlight, r, attenuated, rels);
    var nb := Resolve(chunks, r, RelationVector(last));
    assert q == q0 + (if Enqueues(chunks, tr, isSunlight, nb, attenuated) then [FillEntry(nb.value, attenuated)] else []);
    if m < |q0| {
      rel := QueuedNeighbor(chunks, tr, isSunlight, r, attenuated, init, m);
      assert q[m] == q0[m];
    } else {
      rel := last;
    }
  }

  /** already_lit: the block is at least as bright as the level in every channel. */
  method AlreadyLit(light: Light, level: Light) returns (lit: bool)
    ensures lit <==> Dominates(light, level)
  {
    var have := [light.r, light.g, light.b, light.s];
    var want := [level.r, level.g, level.b, level.s];
    lit := true;
    var i := 0;
    while i < 4
      invariant 0 <= i <= 4
      invariant lit <==> forall c :: 0 <= c < i ==> have[c] >= want[c]
      invariant !lit ==> !Dominates(light, level)
      decreases 4 - i, lit
    {
      if have[i] < want[i] {
        lit := false;
        break;
      }
      i := i + 1;
    }
    if lit {
      assert have[0] >= want[0] && have[1] >= want[1] && have[2] >= want[2] && have[3] >= want[3];
    }
  }

  /**
   * The FOR_EACH_CARDINAL_RELATION loop of a processed block: the entries it
   * pushes onto the queue at the attenuated level.
   */
  method AdmittedNeighbors(chunks: map<Vec3, Chunk>, tr: Material -> bool, isSunlight: bool, r: BlockRef, attenuated: Light)
    returns (added: seq<FillEntry>)
    requires WorldValid(chunks) && HasBlock(chunks, r)
    ensures added == Queued(chunks, tr, isSunlight, r, attenuated, Relations())
  {
    var rels := Relations();
    added := [];
    for i := 0 to |rels|
      invariant added == Queued(chunks, tr, isSunlight, r, attenuated, rels[..i])
    {
      QueuedStep(chunks, tr, isSunlight, r, attenuated, rels, i);
      var nb := Resolve(chunks, r, RelationVector(rels[i]));
      if nb.Some? && Admits(chunks, tr, isSunlight, nb.value) && !BlockAt(chunks, nb.value).visited {
        var lit := AlreadyLit(BlockAt(chunks, nb.value).light, attenuated);
        if !lit {
          added := added + [FillEntry(nb.value, attenuated)];
        }
      }
    }
    assert rels[..|rels|] == rels;
  }

  // ---------------------------------------------------------------------------
  // The state of a fill between two iterations of its loop.
  // ---------------------------------------------------------------------------

  /**
   * The fixed inputs of one fill: the map before it, translucency, the kind
   * of light, the seed and its level, and (for the proof) the cardinal
   * neighbours of the map's blocks, which Adjacency ties to Neighbor.
   */
  datatype Fill = Fill(before: map<Vec3, Chunk>, tr: Material -> bool, isSunlight: bool, seed: BlockRef, level: Light,
                       adj: (BlockRef, Relation) -> Option<BlockRef>)

  /**
   * The map, the blocks visited so far with their hop counts from the seed,
   * and the queue with the hop count of each entry (hops are proof-only).
   */
  datatype FillState = FillState(cur: map<Vec3, Chunk>, list: seq<BlockRef>, hops: seq<nat>, queue: seq<FillEntry>, qh: seq<nat>)

  /** The cardinal neighbour of a block, when the map holds it. */
  ghost function Neighbor(chunks: map<Vec3, Chunk>, r: BlockRef, rel: Relation): Option<BlockRef> {
    if WorldValid(chunks) && HasBlock(chunks, r) then Resolve(chunks, r, RelationVector(rel)) else None
  }

  ghost predicate Adjacency(f: Fill) {
    forall r, rel :: f.adj(r, rel) == Neighbor(f.before, r, rel)
  }

  /** cur differs from before only in the light level and the visited flag of blocks. */
  ghost predicate LightsAndMarksOnly(before: map<Vec3, Chunk>, cur: map<Vec3, Chunk>) {
    WorldValid(cur) && SameLayout(before, cur) && MarksOnly(before, cur)
  }

  /** Every block of before is still present in cur and differs at most in its light and visited flag. */
  ghost predicate MarksOnly(before: map<Vec3, Chunk>, cur: map<Vec3, Chunk>) {
    forall r {:trigger HasBlock(before, r)} :: HasBlock(before, r) ==>
      HasBlock(cur, r) && BlockAt(cur, r) == BlockAt(before, r).(light := BlockAt(cur, r).light, visited := BlockAt(cur, r).visited)
  }

  /** No block of a is brighter in any channel than in b. */
  ghost predicate LightsGrow(a: map<Vec3, Chunk>, b: map<Vec3, Chunk>) {
    forall r {:trigger HasBlock(a, r)} :: HasBlock(a, r) ==> HasBlock(b, r) && Dominates(BlockAt(b, r).light, BlockAt(a, r).light)
  }

  /**
   * The visited list: distinct blocks unvisited when the fill began, the seed
   * first at hop 0, every other one admitted.
   */
  ghost predicate ListShape(f: Fill, list: seq<BlockRef>, hops: seq<nat>) {
    && |list| == |hops|
    && (forall j :: 0 <= j < |list| ==> HasBlock(f.before, list[j]) && !BlockAt(f.before, list[j]).visited)
    && (forall a, b :: 0 <= a < b < |list| ==> list[a] != list[b])
    && (|list| > 0 ==> list[0] == f.seed && hops[0] == 0)
    && (forall j :: 0 < j < |list| ==> Admits(f.before, f.tr, f.isSunlight, list[j]))
  }

  /**
   * The lights after visiting the list: each visited block holds the
   * channel-wise maximum of its old level and the level its hop count gives,
   * the visited flags are the old ones plus the list, and every other block
   * keeps its light.
   */
  ghost predicate ListLights(f: Fill, cur: map<Vec3, Chunk>, list: seq<BlockRef>, hops: seq<nat>)
    requires MarksOnly(f.before, cur) && ListShape(f, list, hops)
  {
    && (forall j :: 0 <= j < |list| ==>
      BlockAt(cur, list[j]).light == MaxLight(BlockAt(f.before, list[j]).light, AttenuatedBy(f.level, hops[j])))
    && (forall r {:trigger BlockAt(cur, r)} :: HasBlock(f.before, r) ==> (BlockAt(cur, r).visited <==> BlockAt(f.before, r).visited || r in list))
    && (forall r {:trigger BlockAt(cur, r)} :: HasBlock(f.before, r) && r !in list ==> BlockAt(cur, r).light == BlockAt(f.before, r).light)
  }

  ghost predicate VisitedList(f: Fill, cur: map<Vec3, Chunk>, list: seq<BlockRef>, hops: seq<nat>)
    requires MarksOnly(f.before, cur)
  {
    ListShape(f, list, hops) && ListLights(f, cur, list, hops)
  }

  /**
   * The queue: each entry carries the level its hop count gives, entries past
   * the seed are admitted, and hop counts are sorted and span at most one hop.
   */
  ghost predicate QueueInv(f: Fill, queue: seq<FillEntry>, qh: seq<nat>) {
    && |queue| == |qh|
    && (forall m :: 0 <= m < |queue| ==> HasBlock(f.before, queue[m].ref) && queue[m].level == AttenuatedBy(f.level, qh[m]))
    && (forall m :: 0 <= m < |queue| && qh[m] >= 1 ==> Admits(f.before, f.tr, f.isSunlight, queue[m].ref))
    && Sorted(qh)
    && (forall m :: 0 <= m < |queue| ==> qh[m] <= qh[0] + 1)
  }

  /**
   * Breadth-first order: no visited block is farther than the queue's front;
   * before the first visit the queue holds only the seed entry (or nothing,
   * once a seed visited beforehand was popped), and after it no entry is at
   * hop 0.
   */
  ghost predicate Phase(f: Fill, s: FillState)
    requires HasBlock(f.before, f.seed) && |s.queue| == |s.qh|
  {
    && (|s.qh| > 0 ==> forall j :: 0 <= j < |s.hops| ==> s.hops[j] <= s.qh[0])
    && (|s.list| == 0 ==>
          s.cur == f.before &&
          ((s.queue == [FillEntry(f.seed, f.level)] && s.qh == [0]) || (s.queue == [] && BlockAt(f.before, f.seed).visited)))
    && (|s.list| > 0 ==> forall m :: 0 <= m < |s.qh| ==> s.qh[m] >= 1)
  }

  /** A neighbour the fill may light: present, admitted and unvisited when the fill began. */
  ghost predicate Enterable(f: Fill, nb: Option<BlockRef>) {
    nb.Some? && HasBlock(f.before, nb.value) && Admits(f.before, f.tr, f.isSunlight, nb.value) && !BlockAt(f.before, nb.value).visited
  }

  /** An enterable neighbour is at least as bright as the level a. */
  ghost predicate Lit(f: Fill, cur: map<Vec3, Chunk>, nb: Option<BlockRef>, a: Light) {
    Enterable(f, nb) ==> HasBlock(cur, nb.value) && Dominates(BlockAt(cur, nb.value).light, a)
  }

  /** Lit to the level b hops from the seed, or still queued no farther than that. */
  ghost predicate Served(f: Fill, cur: map<Vec3, Chunk>, nb: Option<BlockRef>, queue: seq<FillEntry>, qh: seq<nat>, b: nat) {
    Lit(f, cur, nb, AttenuatedBy(f.level, b)) || (nb.Some? && Pending(queue, qh, nb.value, b))
  }

  /** Every neighbour of a visited block is served at the level one hop beyond it. */
  ghost predicate Closed(f: Fill, s: FillState)
    requires |s.list| == |s.hops| && |s.queue| == |s.qh|
  {
    forall j, rel :: 0 <= j < |s.list| ==>
      Served(f, s.cur, f.adj(s.list[j], rel), s.queue, s.qh, s.hops[j] + 1)
  }

  /** Once the queue is empty: every enterable neighbour of a visited block is lit to the level one hop beyond it. */
  ghost predicate Saturated(f: Fill, cur: map<Vec3, Chunk>, list: seq<BlockRef>, hops: seq<nat>)
    requires |list| == |hops|
  {
    forall j, rel :: 0 <= j < |list| ==> Lit(f, cur, Neighbor(f.before, list[j], rel), AttenuatedBy(f.level, hops[j] + 1))
  }

  /** b is a cardinal neighbour of a (in the map the fill began with, when Adjacency(f) holds). */
  ghost predicate Adjacent(f: Fill, a: BlockRef, b: BlockRef) {
    exists rel :: f.adj(a, rel) == Some(b)
  }

  /** x, at hop count h, is a cardinal neighbour of one of the first n listed blocks, one hop nearer the seed. */
  ghost predicate ParentIn(f: Fill, list: seq<BlockRef>, hops: seq<nat>, n: nat, x: BlockRef, h: nat)
    requires n <= |list| == |hops|
  {
    exists i :: 0 <= i < n && h == hops[i] + 1 && Adjacent(f, list[i], x)
  }

  /** Every listed block after the seed is a cardinal neighbour of an earlier one, one hop farther from the seed. */
  ghost predicate ListParents(f: Fill, list: seq<BlockRef>, hops: seq<nat>)
    requires |list| == |hops|
  {
    forall j :: 0 < j < |list| ==> ParentIn(f, list, hops, j, list[j], hops[j])
  }

  /** Every queued entry past hop 0 is a cardinal neighbour of a listed block one hop nearer the seed. */
  ghost predicate QueueParents(f: Fill, list: seq<BlockRef>, hops: seq<nat>, queue: seq<FillEntry>, qh: seq<nat>)
    requires |list| == |hops| && |queue| == |qh|
  {
    forall m :: 0 <= m < |queue| && qh[m] >= 1 ==> ParentIn(f, list, hops, |list|, queue[m].ref, qh[m])
  }

  /** Where each visited block and each queued entry came from. */
  ghost predicate Parents(f: Fill, s: FillState) {
    && |s.list| == |s.hops| && |s.queue| == |s.qh|
    && ListParents(f, s.list, s.hops)
    && QueueParents(f, s.list, s.hops, s.queue, s.qh)
  }

  /** A chain of cardinal neighbours in the map the fill began with. */
  ghost predicate Chain(f: Fill, path: seq<BlockRef>) {
    forall n :: 0 < n < |path| ==> Adjacent(f, path[n - 1], path[n])
  }

  ghost predicate FillInv(f: Fill, s: FillState) {
    && WorldValid(f.before) && HasBlock(f.before, f.seed)
    && LightsAndMarksOnly(f.before, s.cur)
    && VisitedList(f, s.cur, s.list, s.hops)
    && QueueInv(f, s.queue, s.qh)
    && Phase(f, s)
    && Closed(f, s)
  }

  /** The state before the first iteration. */
  ghost function Start(f: Fill): FillState {
    FillState(f.before, [], [], [FillEntry(f.seed, f.level)], [0])
  }

  /** Popping an entry whose block is already visited. */
  ghost function Skip(s: FillState): FillState
    requires |s.queue| > 0 && |s.qh| > 0
  {
    s.(queue := s.queue[1..], qh := s.qh[1..])
  }

  /** The map after an entry's block is marked visited and brightened, channel-wise, to the entry's level. */
  ghost function Lighten(cur: map<Vec3, Chunk>, e: FillEntry): map<Vec3, Chunk>
    requires HasBlock(cur, e.ref)
  {
    var b := BlockAt(cur, e.ref);
    SetBlock(cur, e.ref, b.(visited := true, light := MaxLight(b.light, e.level)))
  }

  /** The entries a visited block pushes: none when its attenuated level is dark. */
  ghost function Pushed(f: Fill, cur: map<Vec3, Chunk>, e: FillEntry): seq<FillEntry>
    requires WorldValid(cur) && HasBlock(cur, e.ref)
  {
    var attenuated := Attenuate(e.level);
    if attenuated == MIN_LIGHT then [] else Queued(cur, f.tr, f.isSunlight, e.ref, attenuated, Relations())
  }

  // ---------------------------------------------------------------------------
  // The loop invariant holds initially and is kept by both kinds of step.
  // ---------------------------------------------------------------------------

  /** A visited block is at least as bright as the level of any hop count no smaller than all the visited ones. */
  lemma ListedBright(f: Fill, cur: map<Vec3, Chunk>, list: seq<BlockRef>, hops: seq<nat>, r: BlockRef, h: nat)
    requires MarksOnly(f.before, cur) && VisitedList(f, cur, list, hops)
    requires r in list && forall j :: 0 <= j < |hops| ==> hops[j] <= h
    ensures HasBlock(cur, r) && Dominates(BlockAt(cur, r).light, AttenuatedBy(f.level, h))
  {
    var j :| 0 <= j < |list| && list[j] == r;
    AttenuatedByMonotone(f.level, hops[j], h);
  }

  /** Marking a block visited and raising its light changes only its light and flag, and darkens nothing. */
  lemma LightenFrame(before: map<Vec3, Chunk>, cur: map<Vec3, Chunk>, e: FillEntry)
    requires LightsAndMarksOnly(before, cur) && HasBlock(cur, e.ref)
    ensures LightsAndMarksOnly(before, Lighten(cur, e)) && LightsGrow(cur, Lighten(cur, e))
  {
  }

  /** Appending an unvisited, admitted (or seed) block at its hop count keeps the list's shape. */
  lemma VisitShape(f: Fill, list: seq<BlockRef>, hops: seq<nat>, e: FillEntry, h: nat)
    requires ListShape(f, list, hops)
    requires HasBlock(f.before, e.ref) && !BlockAt(f.before, e.ref).visited && e.ref !in list
    requires |list| == 0 ==> e.ref == f.seed && h == 0
    requires |list| > 0 ==> Admits(f.before, f.tr, f.isSunlight, e.ref)
    ensures ListShape(f, list + [e.ref], hops + [h])
  {
    var L := list + [e.ref];
    forall a, b | 0 <= a < b < |L|
      ensures L[a] != L[b]
    {
      assert L[a] == list[a];
    }
  }

  /** next is cur with the entry's block marked visited and raised to the entry's level, and nothing else changed. */
  ghost predicate Lightened(cur: map<Vec3, Chunk>, next: map<Vec3, Chunk>, e: FillEntry) {
    && HasBlock(cur, e.ref) && HasBlock(next, e.ref)
    && BlockAt(next, e.ref) == BlockAt(cur, e.ref).(visited := true, light := MaxLight(BlockAt(cur, e.ref).light, e.level))
    && forall q {:trigger HasBlock(cur, q)} :: HasBlock(cur, q) && q != e.ref ==> HasBlock(next, q) && BlockAt(next, q) == BlockAt(cur, q)
  }

  lemma LightenedLighten(cur: map<Vec3, Chunk>, e: FillEntry)
    requires HasBlock(cur, e.ref)
    ensures Lightened(cur, Lighten(cur, e), e)
  {
  }

  /** After lighting an entry's block, each listed block keeps the level its hop count gives, and the entry's block gets the entry's. */
  lemma VisitListedLevels(f: Fill, cur: map<Vec3, Chunk>, next: map<Vec3, Chunk>, list: seq<BlockRef>, hops: seq<nat>, e: FillEntry)
    requires MarksOnly(f.before, cur) && ListShape(f, list, hops) && ListLights(f, cur, list, hops)
    requires HasBlock(f.before, e.ref) && e.ref !in list
    requires Lightened(cur, next, e)
    ensures forall j :: 0 <= j < |list| ==>
      HasBlock(next, list[j]) && BlockAt(next, list[j]).light == MaxLight(BlockAt(f.before, list[j]).light, AttenuatedBy(f.level, hops[j]))
    ensures BlockAt(next, e.ref).light == MaxLight(BlockAt(f.before, e.ref).light, e.level)
  {
    forall j | 0 <= j < |list|
      ensures HasBlock(next, list[j]) && BlockAt(next, list[j]).light == MaxLight(BlockAt(f.before, list[j]).light, AttenuatedBy(f.level, hops[j]))
    {
      assert list[j] != e.ref && HasBlock(cur, list[j]);
    }
  }

  /** The levels of the listed blocks, extended by one block at hop count h. */
  lemma LevelsAppend(f: Fill, next: map<Vec3, Chunk>, list: seq<BlockRef>, hops: seq<nat>, x: BlockRef, h: nat)
    requires |list| == |hops| && HasBlock(f.before, x) && HasBlock(next, x)
    requires forall j :: 0 <= j < |list| ==> HasBlock(f.before, list[j])
    requires forall j :: 0 <= j < |list| ==>
      HasBlock(next, list[j]) && BlockAt(next, list[j]).light == MaxLight(BlockAt(f.before, list[j]).light, AttenuatedBy(f.level, hops[j]))
    requires BlockAt(next, x).light == MaxLight(BlockAt(f.before, x).light, AttenuatedBy(f.level, h))
    ensures forall j :: 0 <= j < |list| + 1 ==>
      HasBlock(f.before, (list + [x])[j]) && HasBlock(next, (list + [x])[j]) &&
      BlockAt(next, (list + [x])[j]).light == MaxLight(BlockAt(f.before, (list + [x])[j]).light, AttenuatedBy(f.level, (hops + [h])[j]))
  {
    var L := list + [x];
    var H := hops + [h];
    forall j | 0 <= j < |L|
      ensures HasBlock(f.before, L[j]) && HasBlock(next, L[j])
      ensures BlockAt(next, L[j]).light == MaxLight(BlockAt(f.before, L[j]).light, AttenuatedBy(f.level, H[j]))
    {
      if j < |list| {
        assert L[j] == list[j] && H[j] == hops[j];
      }
    }
  }

  /** After lighting an entry's block, the visited flags are the old ones plus the extended list, and no other block's light changed. */
  lemma VisitOtherLevels(f: Fill, cur: map<Vec3, Chunk>, next: map<Vec3, Chunk>, list: seq<BlockRef>, hops: seq<nat>, e: FillEntry)
    requires MarksOnly(f.before, cur) && ListShape(f, list, hops) && ListLights(f, cur, list, hops)
    requires HasBlock(f.before, e.ref) && !BlockAt(cur, e.ref).visited
    requires Lightened(cur, next, e)
    ensures forall r {:trigger BlockAt(next, r)} :: HasBlock(f.before, r) ==>
      HasBlock(next, r) && (BlockAt(next, r).visited <==> BlockAt(f.before, r).visited || r in list + [e.ref])
    ensures forall r {:trigger BlockAt(next, r)} :: HasBlock(f.before, r) && r !in list + [e.ref] ==>
      HasBlock(next, r) && BlockAt(next, r).light == BlockAt(f.before, r).light
  {
    forall r | HasBlock(f.before, r)
      ensures HasBlock(next, r)
      ensures (BlockAt(next, r).visited <==> BlockAt(f.before, r).visited || r in list + [e.ref])
      ensures r !in list + [e.ref] ==> BlockAt(next, r).light == BlockAt(f.before, r).light
    {
      assert r in list + [e.ref] <==> r in list || r == e.ref;
      if r != e.ref {
        assert HasBlock(cur, r) && BlockAt(next, r) == BlockAt(cur, r);
      }
    }
  }

  /** Lighting an entry's unvisited block records it at the entry's hop count. */
  lemma VisitLights(f: Fill, cur: map<Vec3, Chunk>, next: map<Vec3, Chunk>, list: seq<BlockRef>, hops: seq<nat>, e: FillEntry, h: nat)
    requires MarksOnly(f.before, cur) && ListShape(f, list, hops) && ListLights(f, cur, list, hops)
    requires HasBlock(f.before, e.ref) && !BlockAt(cur, e.ref).visited
    requires e.level == AttenuatedBy(f.level, h)
    requires ListShape(f, list + [e.ref], hops + [h])
    requires MarksOnly(f.before, next) && Lightened(cur, next, e)
    ensures ListLights(f, next, list + [e.ref], hops + [h])
  {
    VisitOtherLevels(f, cur, next, list, hops, e);
    assert e.ref !in list;
    VisitListedLevels(f, cur, next, list, hops, e);
    LevelsAppend(f, next, list, hops, e.ref, h);
  }

  /** The entries a visited block pushed: at most six admitted blocks, one hop dimmer than the entry. */
  ghost predicate PushSound(f: Fill, e: FillEntry, added: seq<FillEntry>) {
    && |added| <= NUM_CARDINAL_RELATIONS
    && (added != [] ==> Attenuate(e.level) != MIN_LIGHT)
    && forall m :: 0 <= m < |added| ==>
      && added[m].level == Attenuate(e.level)
      && HasBlock(f.before, added[m].ref)
      && Admits(f.before, f.tr, f.isSunlight, added[m].ref)
  }

  /** The entries a visited block pushed include every neighbour the fill would enqueue. */
  ghost predicate PushComplete(f: Fill, next: map<Vec3, Chunk>, e: FillEntry, added: seq<FillEntry>) {
    forall rel :: Enqueues(next, f.tr, f.isSunlight, f.adj(e.ref, rel), Attenuate(e.level)) ==>
      f.adj(e.ref, rel).value in Refs(added)
  }

  /** The entries a visited block pushed are its cardinal neighbours. */
  ghost predicate PushAdjacent(f: Fill, e: FillEntry, added: seq<FillEntry>) {
    forall m :: 0 <= m < |added| ==> Adjacent(f, e.ref, added[m].ref)
  }

  lemma PushedSound(f: Fill, next: map<Vec3, Chunk>, e: FillEntry, added: seq<FillEntry>)
    requires LightsAndMarksOnly(f.before, next) && HasBlock(next, e.ref)
    requires added == Pushed(f, next, e)
    ensures PushSound(f, e, added)
  {
    var attenuated := Attenuate(e.level);
    if attenuated != MIN_LIGHT {
      QueuedSound(next, f.tr, f.isSunlight, e.ref, attenuated, Relations());
    }
    forall m | 0 <= m < |added|
      ensures HasBlock(f.before, added[m].ref) && Admits(f.before, f.tr, f.isSunlight, added[m].ref)
    {
      var x := added[m].ref;
      assert Enqueues(next, f.tr, f.isSunlight, Some(x), attenuated);
      assert x.key in f.before && x.index in f.before[x.key].blocks;
      assert HasBlock(f.before, x);
      assert BlockAt(next, x).material == BlockAt(f.before, x).material;
      assert BlockAt(next, x).sunlightSource == BlockAt(f.before, x).sunlightSource;
    }
  }

  lemma PushedAdjacent(f: Fill, next: map<Vec3, Chunk>, e: FillEntry, added: seq<FillEntry>)
    requires WorldValid(f.before) && HasBlock(f.before, e.ref) && LightsAndMarksOnly(f.before, next) && Adjacency(f)
    requires added == Pushed(f, next, e)
    ensures PushAdjacent(f, e, added)
  {
    var attenuated := Attenuate(e.level);
    forall m | 0 <= m < |added|
      ensures Adjacent(f, e.ref, added[m].ref)
    {
      var rel := QueuedNeighbor(next, f.tr, f.isSunlight, e.ref, attenuated, Relations(), m);
      ResolveSameLayout(f.before, next, e.ref, RelationVector(rel));
      assert f.adj(e.ref, rel) == Neighbor(f.before, e.ref, rel) == Some(added[m].ref);
    }
  }

  /** Popping the front and appending admitted entries one hop farther keeps the queue ordered. */
  lemma PopQueue(f: Fill, queue: seq<FillEntry>, qh: seq<nat>, added: seq<FillEntry>)
    requires QueueInv(f, queue, qh) && |queue| > 0
    requires forall m :: 0 <= m < |added| ==>
      && added[m].level == AttenuatedBy(f.level, qh[0] + 1)
      && HasBlock(f.before, added[m].ref)
      && Admits(f.before, f.tr, f.isSunlight, added[m].ref)
    ensures QueueInv(f, queue[1..] + added, qh[1..] + Repeat(qh[0] + 1, |added|))
  {
    var q := queue[1..] + added;
    var hs := qh[1..] + Repeat(qh[0] + 1, |added|);
    var n := |queue| - 1;
    forall m | 0 <= m < |q|
      ensures HasBlock(f.before, q[m].ref) && q[m].level == AttenuatedBy(f.level, hs[m])
      ensures hs[m] >= 1 ==> Admits(f.before, f.tr, f.isSunlight, q[m].ref)
      ensures qh[0] <= hs[m] <= qh[0] + 1
    {
      if m < n {
        assert q[m] == queue[m + 1] && hs[m] == qh[m + 1];
      } else {
        assert q[m] == added[m - n] && hs[m] == qh[0] + 1;
      }
    }
    forall a, b | 0 <= a <= b < |hs|
      ensures hs[a] <= hs[b]
    {
      if b < n {
        assert hs[a] == qh[a + 1] && hs[b] == qh[b + 1];
      }
    }
    if n > 0 {
      assert hs[0] == qh[1];
    }
  }

  /** Skipping the front entry keeps the breadth-first order. */
  lemma SkipPhase(f: Fill, s: FillState)
    requires HasBlock(f.before, f.seed) && |s.queue| == |s.qh| > 0 && Sorted(s.qh) && Phase(f, s)
    requires HasBlock(s.cur, s.queue[0].ref) && BlockAt(s.cur, s.queue[0].ref).visited
    ensures Phase(f, Skip(s))
  {
  }

  /** Visiting the front entry keeps the breadth-first order. */
  lemma VisitPhase(f: Fill, s: FillState, next: map<Vec3, Chunk>, added: seq<FillEntry>)
    requires HasBlock(f.before, f.seed) && |s.queue| == |s.qh| > 0 && Sorted(s.qh) && Phase(f, s)
    ensures Phase(f, Visited(s, next, added))
  {
    if |s.list| == 0 {
      assert s.qh[1..] == [];
    }
  }

  /** The popped front entry's block, if the fill may enter it, ends up lit to the entry's level. */
  ghost predicate FrontLit(f: Fill, next: map<Vec3, Chunk>, e: FillEntry, h: nat) {
    Enterable(f, Some(e.ref)) ==> HasBlock(next, e.ref) && Dominates(BlockAt(next, e.ref).light, AttenuatedBy(f.level, h))
  }

  /** A neighbour served before a pop stays served after it, once the popped front is lit. */
  lemma ServedAfterPop(f: Fill, cur: map<Vec3, Chunk>, next: map<Vec3, Chunk>, queue: seq<FillEntry>, qh: seq<nat>,
                       added: seq<FillEntry>, rep: seq<nat>, nb: Option<BlockRef>, b: nat)
    requires LightsGrow(cur, next)
    requires |queue| == |qh| > 0 && |added| == |rep|
    requires Served(f, cur, nb, queue, qh, b)
    requires FrontLit(f, next, queue[0], qh[0])
    ensures Served(f, next, nb, queue[1..] + added, qh[1..] + rep, b)
  {
    var a := AttenuatedBy(f.level, b);
    if Enterable(f, nb) && !Lit(f, cur, nb, a) {
      var x := nb.value;
      var m :| 0 <= m < |queue| && queue[m].ref == x && qh[m] <= b;
      if m == 0 {
        AttenuatedByMonotone(f.level, qh[0], b);
        assert Lit(f, next, nb, a);
      } else {
        assert (queue[1..] + added)[m - 1] == queue[m] && (qh[1..] + rep)[m - 1] == qh[m];
      }
    }
  }

  /** Popping a front entry that ends up lit keeps the neighbours of the visited blocks served. */
  lemma PopClosed(f: Fill, s: FillState, next: map<Vec3, Chunk>, added: seq<FillEntry>)
    requires |s.list| == |s.hops| && |s.queue| == |s.qh| > 0 && Closed(f, s)
    requires LightsGrow(s.cur, next) && FrontLit(f, next, s.queue[0], s.qh[0])
    ensures forall j, rel :: 0 <= j < |s.list| ==>
      Served(f, next, f.adj(s.list[j], rel), s.queue[1..] + added, s.qh[1..] + Repeat(s.qh[0] + 1, |added|), s.hops[j] + 1)
  {
    var rep := Repeat(s.qh[0] + 1, |added|);
    forall j, rel | 0 <= j < |s.list|
      ensures Served(f, next, f.adj(s.list[j], rel), s.queue[1..] + added, s.qh[1..] + rep, s.hops[j] + 1)
    {
      ServedAfterPop(f, s.cur, next, s.queue, s.qh, added, rep, f.adj(s.list[j], rel), s.hops[j] + 1);
    }
  }

  /** An entry appended behind the popped queue is pending at its own hop count. */
  lemma PendingAppended(queue: seq<FillEntry>, qh: seq<nat>, added: seq<FillEntry>, rep: seq<nat>, k: nat, b: nat)
    requires |queue| == |qh| > 0 && |added| == |rep| && k < |added| && rep[k] <= b
    ensures Pending(queue[1..] + added, qh[1..] + rep, added[k].ref, b)
  {
    var m := |queue| - 1 + k;
    assert (queue[1..] + added)[m] == added[k] && (qh[1..] + rep)[m] == rep[k];
  }

  /**
   * A neighbour of the newly visited front block is served one hop beyond
   * it: if the fill may enter it, it was either pushed, or already visited
   * and hence bright enough, or already lit to that level.
   */
  lemma NewServed(f: Fill, next: map<Vec3, Chunk>, queue: seq<FillEntry>, qh: seq<nat>, added: seq<FillEntry>, rep: seq<nat>, nb: Option<BlockRef>)
    requires |queue| == |qh| > 0 && |added| == |rep|
    requires forall k :: 0 <= k < |rep| ==> rep[k] == qh[0] + 1
    requires Enterable(f, nb) ==>
      && HasBlock(next, nb.value)
      && BlockAt(next, nb.value).material == BlockAt(f.before, nb.value).material
      && BlockAt(next, nb.value).sunlightSource == BlockAt(f.before, nb.value).sunlightSource
      && (BlockAt(next, nb.value).visited ==> Dominates(BlockAt(next, nb.value).light, AttenuatedBy(f.level, qh[0] + 1)))
    requires Enqueues(next, f.tr, f.isSunlight, nb, AttenuatedBy(f.level, qh[0] + 1)) ==> nb.value in Refs(added)
    ensures Served(f, next, nb, queue[1..] + added, qh[1..] + rep, qh[0] + 1)
  {
    if Enterable(f, nb) && Enqueues(next, f.tr, f.isSunlight, nb, AttenuatedBy(f.level, qh[0] + 1)) {
      var k :| 0 <= k < |added| && Refs(added)[k] == nb.value;
      PendingAppended(queue, qh, added, rep, k, qh[0] + 1);
    }
  }

  /** A neighbour the fill would enqueue from a visited block is among the entries it queues. */
  lemma NeighborQueued(f: Fill, next: map<Vec3, Chunk>, e: FillEntry, rel: Relation)
    requires WorldValid(f.before) && HasBlock(f.before, e.ref) && LightsAndMarksOnly(f.before, next)
    requires f.adj(e.ref, rel) == Neighbor(f.before, e.ref, rel)
    requires Enqueues(next, f.tr, f.isSunlight, f.adj(e.ref, rel), Attenuate(e.level))
    ensures f.adj(e.ref, rel).value in Refs(Queued(next, f.tr, f.isSunlight, e.ref, Attenuate(e.level), Relations()))
  {
    ResolveSameLayout(f.before, next, e.ref, RelationVector(rel));
    assert Relations()[CodeOf(rel)] == rel;
    QueuedComplete(next, f.tr, f.isSunlight, e.ref, Attenuate(e.level), Relations(), rel);
  }

  lemma PushedComplete(f: Fill, next: map<Vec3, Chunk>, e: FillEntry, added: seq<FillEntry>)
    requires WorldValid(f.before) && HasBlock(f.before, e.ref) && LightsAndMarksOnly(f.before, next)
    requires forall rel :: f.adj(e.ref, rel) == Neighbor(f.before, e.ref, rel)
    requires added == Pushed(f, next, e)
    ensures PushComplete(f, next, e, added)
  {
    forall rel | Enqueues(next, f.tr, f.isSunlight, f.adj(e.ref, rel), Attenuate(e.level))
      ensures f.adj(e.ref, rel).value in Refs(added)
    {
      NeighborQueued(f, next, e, rel);
    }
  }

  /**
   * Every block unvisited when the fill began keeps its material and
   * sunlight flag, and, once visited, is at least as bright as the level b
   * hops from the seed.
   */
  ghost predicate VisitedBright(f: Fill, next: map<Vec3, Chunk>, b: nat) {
    forall r {:trigger HasBlock(f.before, r)} :: HasBlock(f.before, r) && !BlockAt(f.before, r).visited ==>
      && HasBlock(next, r)
      && BlockAt(next, r).material == BlockAt(f.before, r).material
      && BlockAt(next, r).sunlightSource == BlockAt(f.before, r).sunlightSource
      && (BlockAt(next, r).visited ==> Dominates(BlockAt(next, r).light, AttenuatedBy(f.level, b)))
  }

  /** Every neighbour of the newly visited front block is served one hop beyond it. */
  lemma NewBlockServed(f: Fill, next: map<Vec3, Chunk>, queue: seq<FillEntry>, qh: seq<nat>, added: seq<FillEntry>)
    requires |queue| == |qh| > 0 && VisitedBright(f, next, qh[0] + 1)
    requires queue[0].level == AttenuatedBy(f.level, qh[0]) && PushComplete(f, next, queue[0], added)
    ensures forall rel :: Served(f, next, f.adj(queue[0].ref, rel), queue[1..] + added, qh[1..] + Repeat(qh[0] + 1, |added|), qh[0] + 1)
  {
    var r := queue[0].ref;
    var rep := Repeat(qh[0] + 1, |added|);
    assert Attenuate(queue[0].level) == AttenuatedBy(f.level, qh[0] + 1);
    forall rel
      ensures Served(f, next, f.adj(r, rel), queue[1..] + added, qh[1..] + rep, qh[0] + 1)
    {
      var nb := f.adj(r, rel);
      if Enterable(f, nb) {
        assert HasBlock(f.before, nb.value);
      }
      NewServed(f, next, queue, qh, added, rep, nb);
    }
  }

  /** The visited list extended by the popped front, whose neighbours are served, stays closed. */
  lemma ClosedExtend(f: Fill, s: FillState, next: map<Vec3, Chunk>, added: seq<FillEntry>)
    requires |s.queue| == |s.qh| > 0 && |s.list| == |s.hops|
    requires forall j, rel :: 0 <= j < |s.list| ==>
      Served(f, next, f.adj(s.list[j], rel), s.queue[1..] + added, s.qh[1..] + Repeat(s.qh[0] + 1, |added|), s.hops[j] + 1)
    requires forall rel :: Served(f, next, f.adj(s.queue[0].ref, rel), s.queue[1..] + added, s.qh[1..] + Repeat(s.qh[0] + 1, |added|), s.qh[0] + 1)
    ensures Closed(f, Visited(s, next, added))
  {
    var t := FillState(next, s.list + [s.queue[0].ref], s.hops + [s.qh[0]], s.queue[1..] + added, s.qh[1..] + Repeat(s.qh[0] + 1, |added|));
    forall j, rel | 0 <= j < |t.list|
      ensures Served(f, next, f.adj(t.list[j], rel), t.queue, t.qh, t.hops[j] + 1)
    {
      if j < |s.list| {
        assert t.list[j] == s.list[j] && t.hops[j] == s.hops[j];
      }
    }
  }

  /**
   * Visiting the front entry keeps every neighbour served, the new block's
   * included: next is the map with the front block lit, added what it pushed.
   */
  lemma VisitClosed(f: Fill, s: FillState, next: map<Vec3, Chunk>, added: seq<FillEntry>)
    requires |s.queue| == |s.qh| > 0 && |s.list| == |s.hops| && Closed(f, s)
    requires LightsGrow(s.cur, next) && FrontLit(f, next, s.queue[0], s.qh[0])
    requires VisitedBright(f, next, s.qh[0] + 1)
    requires s.queue[0].level == AttenuatedBy(f.level, s.qh[0]) && PushComplete(f, next, s.queue[0], added)
    ensures Closed(f, Visited(s, next, added))
  {
    PopClosed(f, s, next, added);
    NewBlockServed(f, next, s.queue, s.qh, added);
    ClosedExtend(f, s, next, added);
  }

  /** A popped entry whose block is already visited was reached no later than the entry. */
  lemma SkipFrontLit(f: Fill, s: FillState)
    requires MarksOnly(f.before, s.cur) && VisitedList(f, s.cur, s.list, s.hops)
    requires |s.queue| == |s.qh| > 0 && forall j :: 0 <= j < |s.hops| ==> s.hops[j] <= s.qh[0]
    requires HasBlock(s.cur, s.queue[0].ref) && BlockAt(s.cur, s.queue[0].ref).visited
    ensures FrontLit(f, s.cur, s.queue[0], s.qh[0])
  {
    var x := s.queue[0].ref;
    if Enterable(f, Some(x)) {
      assert BlockAt(s.cur, x).visited;
      ListedBright(f, s.cur, s.list, s.hops, x, s.qh[0]);
    }
  }

  /** Skipping a front entry whose block is lit keeps the visited blocks' neighbours served. */
  lemma SkipClosed(f: Fill, s: FillState)
    requires |s.queue| == |s.qh| > 0 && |s.list| == |s.hops| && Closed(f, s)
    requires FrontLit(f, s.cur, s.queue[0], s.qh[0])
    ensures Closed(f, Skip(s))
  {
    assert LightsGrow(s.cur, s.cur);
    PopClosed(f, s, s.cur, []);
    assert s.queue[1..] + [] == s.queue[1..] && s.qh[1..] + Repeat(s.qh[0] + 1, 0) == s.qh[1..];
  }

  /** Skipping the front entry keeps the queue ordered. */
  lemma SkipQueue(f: Fill, s: FillState)
    requires QueueInv(f, s.queue, s.qh) && |s.queue| > 0
    ensures QueueInv(f, Skip(s).queue, Skip(s).qh)
  {
  }

  /** Popping an entry whose block is already visited keeps the loop invariant. */
  lemma SkipStep(f: Fill, s: FillState)
    requires FillInv(f, s) && |s.queue| > 0
    requires HasBlock(s.cur, s.queue[0].ref) && BlockAt(s.cur, s.queue[0].ref).visited
    ensures FillInv(f, Skip(s))
  {
    SkipFrontLit(f, s);
    SkipClosed(f, s);
    SkipQueue(f, s);
    SkipPhase(f, s);
  }

  /** The state after visiting the front entry: next is the map with its block lit, added what it pushed. */
  function Visited(s: FillState, next: map<Vec3, Chunk>, added: seq<FillEntry>): FillState
    requires |s.queue| > 0 && |s.qh| > 0
  {
    FillState(next, s.list + [s.queue[0].ref], s.hops + [s.qh[0]], s.queue[1..] + added, s.qh[1..] + Repeat(s.qh[0] + 1, |added|))
  }

  /** Visiting the front entry appends its block to the list at the front's hop count, lit to the entry's level. */
  lemma VisitListStep(f: Fill, s: FillState, next: map<Vec3, Chunk>, added: seq<FillEntry>)
    requires FillInv(f, s) && |s.queue| > 0
    requires HasBlock(s.cur, s.queue[0].ref) && !BlockAt(s.cur, s.queue[0].ref).visited
    requires MarksOnly(f.before, next) && Lightened(s.cur, next, s.queue[0])
    ensures var t := Visited(s, next, added);
      ListShape(f, t.list, t.hops) && ListLights(f, t.cur, t.list, t.hops)
  {
    var e := s.queue[0];
    var h := s.qh[0];
    assert HasBlock(f.before, e.ref) && e.level == AttenuatedBy(f.level, h);
    assert !BlockAt(f.before, e.ref).visited && e.ref !in s.list;
    VisitShape(f, s.list, s.hops, e, h);
    VisitLights(f, s.cur, next, s.list, s.hops, e, h);
  }

  /** Visiting the front entry and appending what it pushed keeps the queue ordered. */
  lemma VisitQueueStep(f: Fill, s: FillState, next: map<Vec3, Chunk>, added: seq<FillEntry>)
    requires QueueInv(f, s.queue, s.qh) && |s.queue| > 0
    requires PushSound(f, s.queue[0], added)
    ensures var t := Visited(s, next, added); QueueInv(f, t.queue, t.qh)
  {
    assert AttenuatedBy(f.level, s.qh[0] + 1) == Attenuate(s.queue[0].level);
    PopQueue(f, s.queue, s.qh, added);
    VisitedQueue(f, s, next, added);
  }

  lemma VisitedQueue(f: Fill, s: FillState, next: map<Vec3, Chunk>, added: seq<FillEntry>)
    requires |s.queue| > 0 && |s.qh| > 0
    requires QueueInv(f, s.queue[1..] + added, s.qh[1..] + Repeat(s.qh[0] + 1, |added|))
    ensures var t := Visited(s, next, added); QueueInv(f, t.queue, t.qh)
  {
  }

  /** Popping an entry whose block is already visited keeps every queued entry's parent. */
  lemma SkipParents(f: Fill, s: FillState)
    requires Parents(f, s) && |s.queue| > 0
    ensures Parents(f, Skip(s))
  {
    var t := Skip(s);
    forall m | 0 <= m < |t.queue| && t.qh[m] >= 1
      ensures ParentIn(f, t.list, t.hops, |t.list|, t.queue[m].ref, t.qh[m])
    {
      assert t.qh[m] == s.qh[m + 1] && t.queue[m] == s.queue[m + 1];
    }
  }

  /** The visited front entry joins the list with its parent: the seed at hop 0 heads the list. */
  lemma VisitListParents(f: Fill, s: FillState, next: map<Vec3, Chunk>, added: seq<FillEntry>)
    requires Parents(f, s) && |s.queue| > 0
    requires s.qh[0] == 0 ==> s.list == []
    ensures var t := Visited(s, next, added); ListParents(f, t.list, t.hops)
  {
    if s.list != [] {
      assert s.qh[0] >= 1;
    }
    AppendParents(f, s.list, s.hops, s.queue[0].ref, s.qh[0]);
  }

  /** Appending a block one hop beyond a listed neighbour (or the first block) keeps every listed block's parent. */
  lemma AppendParents(f: Fill, list: seq<BlockRef>, hops: seq<nat>, x: BlockRef, h: nat)
    requires |list| == |hops| && ListParents(f, list, hops)
    requires list != [] ==> ParentIn(f, list, hops, |list|, x, h)
    ensures ListParents(f, list + [x], hops + [h])
  {
    var l, hs := list + [x], hops + [h];
    forall j | 0 < j < |l|
      ensures ParentIn(f, l, hs, j, l[j], hs[j])
    {
      var i :| 0 <= i < j && hs[j] == hops[i] + 1 && Adjacent(f, list[i], l[j]);
      assert l[i] == list[i] && hs[i] == hops[i];
    }
  }

  /** Entries left in the queue keep their parents; the pushed ones have the visited block as parent. */
  lemma VisitQueueParents(f: Fill, s: FillState, next: map<Vec3, Chunk>, added: seq<FillEntry>)
    requires Parents(f, s) && |s.queue| > 0
    requires PushAdjacent(f, s.queue[0], added)
    ensures var t := Visited(s, next, added); QueueParents(f, t.list, t.hops, t.queue, t.qh)
  {
    var t := Visited(s, next, added);
    var n := |s.queue| - 1;
    forall m | 0 <= m < |t.queue| && t.qh[m] >= 1
      ensures ParentIn(f, t.list, t.hops, |t.list|, t.queue[m].ref, t.qh[m])
    {
      var i;
      if m < n {
        assert t.qh[m] == s.qh[m + 1] && t.queue[m] == s.queue[m + 1];
        i :| 0 <= i < |s.list| && s.qh[m + 1] == s.hops[i] + 1 && Adjacent(f, s.list[i], s.queue[m + 1].ref);
      } else {
        i := |s.list|;
        assert t.queue[m] == added[m - n] && t.qh[m] == s.qh[0] + 1;
      }
      assert t.list[i] == (s.list + [s.queue[0].ref])[i] && t.hops[i] == (s.hops + [s.qh[0]])[i];
    }
  }

  /** The block of a lit entry is at least as bright as the entry's level. */
  lemma LightenedFrontLit(f: Fill, cur: map<Vec3, Chunk>, next: map<Vec3, Chunk>, e: FillEntry, h: nat)
    requires Lightened(cur, next, e) && e.level == AttenuatedBy(f.level, h)
    ensures FrontLit(f, next, e, h)
  {
  }

  /** A block visited after the front entry's visit is as bright as one hop beyond the front. */
  lemma VisitBrightOne(f: Fill, s: FillState, next: map<Vec3, Chunk>, r: BlockRef)
    requires |s.queue| == |s.qh| > 0 && forall j :: 0 <= j < |s.hops| ==> s.hops[j] <= s.qh[0]
    requires MarksOnly(f.before, s.cur) && VisitedList(f, s.cur, s.list, s.hops)
    requires Lightened(s.cur, next, s.queue[0]) && s.queue[0].level == AttenuatedBy(f.level, s.qh[0])
    requires HasBlock(f.before, r) && !BlockAt(f.before, r).visited
    ensures HasBlock(next, r) && BlockAt(next, r).visited ==> Dominates(BlockAt(next, r).light, AttenuatedBy(f.level, s.qh[0] + 1))
  {
    var h := s.qh[0];
    assert HasBlock(s.cur, r);
    if r == s.queue[0].ref {
      AttenuatedByMonotone(f.level, h, h + 1);
    } else if BlockAt(s.cur, r).visited {
      ListedBright(f, s.cur, s.list, s.hops, r, h + 1);
    }
  }

  /** After visiting the front entry, every block the fill visited is as bright as one hop beyond the front. */
  lemma VisitBrightStep(f: Fill, s: FillState, next: map<Vec3, Chunk>)
    requires |s.queue| == |s.qh| > 0 && forall j :: 0 <= j < |s.hops| ==> s.hops[j] <= s.qh[0]
    requires MarksOnly(f.before, s.cur) && VisitedList(f, s.cur, s.list, s.hops)
    requires Lightened(s.cur, next, s.queue[0]) && s.queue[0].level == AttenuatedBy(f.level, s.qh[0])
    ensures VisitedBright(f, next, s.qh[0] + 1)
  {
    forall r | HasBlock(f.before, r) && !BlockAt(f.before, r).visited
      ensures HasBlock(next, r)
      ensures BlockAt(next, r).material == BlockAt(f.before, r).material
      ensures BlockAt(next, r).sunlightSource == BlockAt(f.before, r).sunlightSource
      ensures BlockAt(next, r).visited ==> Dominates(BlockAt(next, r).light, AttenuatedBy(f.level, s.qh[0] + 1))
    {
      assert HasBlock(s.cur, r);
      VisitBrightOne(f, s, next, r);
    }
  }

  /** Visiting the front entry keeps every neighbour of the extended list served. */
  lemma VisitClosedStep(f: Fill, s: FillState, next: map<Vec3, Chunk>, added: seq<FillEntry>)
    requires |s.queue| == |s.qh| > 0 && |s.list| == |s.hops| && Closed(f, s)
    requires s.queue[0].level == AttenuatedBy(f.level, s.qh[0])
    requires LightsGrow(s.cur, next) && Lightened(s.cur, next, s.queue[0])
    requires VisitedBright(f, next, s.qh[0] + 1) && PushComplete(f, next, s.queue[0], added)
    ensures Closed(f, Visited(s, next, added))
  {
    LightenedFrontLit(f, s.cur, next, s.queue[0], s.qh[0]);
    VisitClosed(f, s, next, added);
  }

  /** Popping an entry whose block is not visited yet keeps the loop invariant and lightens the queue. */
  lemma VisitStep(f: Fill, s: FillState, next: map<Vec3, Chunk>, added: seq<FillEntry>)
    requires FillInv(f, s) && |s.queue| > 0
    requires HasBlock(s.cur, s.queue[0].ref) && !BlockAt(s.cur, s.queue[0].ref).visited
    requires LightsAndMarksOnly(f.before, next) && LightsGrow(s.cur, next) && Lightened(s.cur, next, s.queue[0])
    requires PushSound(f, s.queue[0], added) && PushComplete(f, next, s.queue[0], added)
    ensures FillInv(f, Visited(s, next, added))
    ensures QueueWeight(s.queue[1..] + added) < QueueWeight(s.queue)
  {
    VisitListStep(f, s, next, added);
    VisitQueueStep(f, s, next, added);
    VisitOrderStep(f, s, next, added);
    FillInvIntro(f, Visited(s, next, added));
    ReplaceLighter(s.queue, added);
  }

  /** Visiting the front entry keeps the breadth-first order and every neighbour of the list served. */
  lemma VisitOrderStep(f: Fill, s: FillState, next: map<Vec3, Chunk>, added: seq<FillEntry>)
    requires FillInv(f, s) && |s.queue| > 0
    requires MarksOnly(f.before, next) && LightsGrow(s.cur, next) && Lightened(s.cur, next, s.queue[0])
    requires PushComplete(f, next, s.queue[0], added)
    ensures Phase(f, Visited(s, next, added)) && Closed(f, Visited(s, next, added))
  {
    VisitPhase(f, s, next, added);
    VisitBrightStep(f, s, next);
    VisitClosedStep(f, s, next, added);
  }

  /** The loop invariant from its parts. */
  lemma FillInvIntro(f: Fill, t: FillState)
    requires WorldValid(f.before) && HasBlock(f.before, f.seed) && LightsAndMarksOnly(f.before, t.cur)
    requires ListShape(f, t.list, t.hops) && ListLights(f, t.cur, t.list, t.hops)
    requires QueueInv(f, t.queue, t.qh) && Phase(f, t) && Closed(f, t)
    ensures FillInv(f, t)
  {
  }

  /** The loop invariant holds before the first iteration. */
  lemma StartInv(f: Fill)
    requires WorldValid(f.before) && HasBlock(f.before, f.seed)
    ensures FillInv(f, Start(f))
  {
    var s := Start(f);
    assert MarksOnly(f.before, s.cur);
    assert QueueInv(f, s.queue, s.qh);
  }

  /**
   * When the queue is empty every enterable cardinal neighbour of a visited
   * block is lit to the level one hop beyond it, and an unvisited seed heads
   * the visited list.
   */
  lemma FillDone(f: Fill, s: FillState)
    requires FillInv(f, s) && s.queue == [] && Adjacency(f)
    ensures Saturated(f, s.cur, s.list, s.hops)
    ensures !BlockAt(f.before, f.seed).visited ==> |s.list| > 0 && s.list[0] == f.seed
  {
    forall j, rel | 0 <= j < |s.list|
      ensures Lit(f, s.cur, Neighbor(f.before, s.list[j], rel), AttenuatedBy(f.level, s.hops[j] + 1))
    {
      assert Served(f, s.cur, f.adj(s.list[j], rel), s.queue, s.qh, s.hops[j] + 1);
    }
  }

  /**
   * A listed block is reached from the seed by a chain of cardinal
   * neighbours, all on the list, one step per hop.
   */
  lemma {:induction false} FillPath(f: Fill, list: seq<BlockRef>, hops: seq<nat>, j: nat) returns (path: seq<BlockRef>)
    requires |list| == |hops| && ListParents(f, list, hops) && j < |list|
    requires list[0] == f.seed && hops[0] == 0
    ensures |path| == hops[j] + 1 && path[0] == f.seed && path[|path| - 1] == list[j] && Chain(f, path)
    ensures forall n :: 0 <= n < |path| ==> path[n] in list
    ensures forall n :: 0 < n < |path| ==> path[n] in list[1..]
    decreases j
  {
    if j == 0 {
      path := [f.seed];
    } else {
      var i :| 0 <= i < j && hops[j] == hops[i] + 1 && Adjacent(f, list[i], list[j]);
      var prefix := FillPath(f, list, hops, i);
      ChainAppend(f, prefix, list[j]);
      path := prefix + [list[j]];
      assert forall n :: 0 <= n < |prefix| ==> path[n] == prefix[n];
      assert list[j] == list[1..][j - 1];
    }
  }

  /** A chain extended by a neighbour of its last block is a chain. */
  lemma ChainAppend(f: Fill, prefix: seq<BlockRef>, b: BlockRef)
    requires |prefix| > 0 && Chain(f, prefix) && Adjacent(f, prefix[|prefix| - 1], b)
    ensures Chain(f, prefix + [b])
  {
    var path := prefix + [b];
    forall n | 0 < n < |path|
      ensures Adjacent(f, path[n - 1], path[n])
    {
      if n < |prefix| {
        assert path[n - 1] == prefix[n - 1] && path[n] == prefix[n];
      }
    }
  }

  /**
   * The reach of a fill: a block whose light it changed is on the visited
   * list at a hop count below the level's largest channel, and a chain of
   * that many cardinal steps leads to it from the seed.
   */
  lemma ChangedWithinRadius(f: Fill, cur: map<Vec3, Chunk>, list: seq<BlockRef>, hops: seq<nat>, r: BlockRef)
    returns (j: nat, path: seq<BlockRef>)
    requires MarksOnly(f.before, cur) && VisitedList(f, cur, list, hops) && ListParents(f, list, hops)
    requires HasBlock(f.before, r) && BlockAt(cur, r).light != BlockAt(f.before, r).light
    ensures j < |list| && list[j] == r && hops[j] < MaxChannel(f.level)
    ensures |path| == hops[j] + 1 && path[0] == f.seed && path[|path| - 1] == r && Chain(f, path)
  {
    j :| 0 <= j < |list| && list[j] == r;
    if hops[j] >= MaxChannel(f.level) {
      FillRadius(f.level, hops[j]);
      assert false;
    }
    path := FillPath(f, list, hops, j);
  }

  /**
   * A listed block whose hop count leaves some light in channel c lies
   * within the fill's radius: a chain of that many cardinal steps, fewer
   * than the level's largest channel, leads to it from the seed, which was
   * unvisited.
   */
  lemma LitWithinRadius(f: Fill, list: seq<BlockRef>, hops: seq<nat>, j: nat, c: ChannelName) returns (path: seq<BlockRef>)
    requires ListShape(f, list, hops) && ListParents(f, list, hops) && j < |list|
    requires LightChannel(AttenuatedBy(f.level, hops[j]), c) > 0
    ensures HasBlock(f.before, f.seed) && !BlockAt(f.before, f.seed).visited
    ensures |path| == hops[j] + 1 <= MaxChannel(f.level) && path[0] == f.seed && path[|path| - 1] == list[j] && Chain(f, path)
    ensures Entered(f, path)
  {
    assert list[0] == f.seed && hops[0] == 0;
    if hops[j] >= MaxChannel(f.level) {
      FillRadius(f.level, hops[j]);
      assert false;
    }
    path := FillPath(f, list, hops, j);
    forall n | 0 < n < |path|
      ensures Enterable(f, Some(path[n]))
    {
      var m :| 0 <= m < |list[1..]| && list[1..][m] == path[n];
      assert path[n] == list[m + 1];
    }
  }

  /** Every block of path after the first is one the fill may enter: present, admitted and unvisited when it began. */
  ghost predicate Entered(f: Fill, path: seq<BlockRef>) {
    forall n :: 0 < n < |path| ==> Enterable(f, Some(path[n]))
  }

  /**
   * The fill from f.seed has spread over cur: the seed heads a list of
   * distinct blocks, each after it a cardinal neighbour of an earlier one one
   * hop farther, and every enterable neighbour of a listed block is lit to the
   * level one hop beyond it.
   */
  ghost predicate Spread(f: Fill, cur: map<Vec3, Chunk>, list: seq<BlockRef>, hops: seq<nat>) {
    && ListShape(f, list, hops) && ListParents(f, list, hops)
    && |list| > 0
    && Saturated(f, cur, list, hops)
  }

  /** A spread fill stays spread while lights only grow. */
  lemma SaturatedGrow(f: Fill, a: map<Vec3, Chunk>, b: map<Vec3, Chunk>, list: seq<BlockRef>, hops: seq<nat>)
    requires |list| == |hops| && Saturated(f, a, list, hops) && LightsGrow(a, b)
    ensures Saturated(f, b, list, hops)
  {
    forall j, rel | 0 <= j < |list|
      ensures Lit(f, b, Neighbor(f.before, list[j], rel), AttenuatedBy(f.level, hops[j] + 1))
    {
      assert Lit(f, a, Neighbor(f.before, list[j], rel), AttenuatedBy(f.level, hops[j] + 1));
    }
  }

  /** The fixed inputs of a fill over the map chunks, with the map's own cardinal neighbours. */
  ghost function FillOf(chunks: map<Vec3, Chunk>, tr: Material -> bool, isSunlight: bool, seed: BlockRef, level: Light): (f: Fill)
    ensures Adjacency(f) && f.before == chunks && f.seed == seed && f.level == level
  {
    Fill(chunks, tr, isSunlight, seed, level, (r, rel) => Neighbor(chunks, r, rel))
  }

  /**
   * The push step of a visited block: when its attenuated level is not dark,
   * queue every cardinal neighbour the fill may light at that level.
   */
  method PushNeighbors(ghost f: Fill, next: map<Vec3, Chunk>, tr: Material -> bool, isSunlight: bool, e: FillEntry)
    returns (added: seq<FillEntry>)
    requires tr == f.tr && isSunlight == f.isSunlight && Adjacency(f)
    requires WorldValid(f.before) && HasBlock(f.before, e.ref) && LightsAndMarksOnly(f.before, next)
    ensures PushSound(f, e, added) && PushComplete(f, next, e, added) && PushAdjacent(f, e, added)
  {
    var attenuated := Attenuate(e.level);
    if attenuated != MIN_LIGHT {
      added := AdmittedNeighbors(next, tr, isSunlight, e.ref, attenuated);
    } else {
      added := [];
    }
    PushedSound(f, next, e, added);
    PushedComplete(f, next, e, added);
    PushedAdjacent(f, next, e, added);
  }

  /**
   * breadth_first_flood_fill_light: spread light of the given level from the
   * seed, breadth first. Returns the map with the fill's lights and visited
   * flags, and the blocks it visited in order (with their hop counts from
   * the seed, for the proof). Each visited block holds the channel-wise
   * maximum of its old light and the level its hop count gives, nothing else
   * changes, and every enterable neighbour of a visited block ends up lit to
   * the level one hop farther.
   */
  method BreadthFirstFloodFill(chunks: map<Vec3, Chunk>, tr: Material -> bool, isSunlight: bool, seed: BlockRef, level: Light)
    returns (lit: map<Vec3, Chunk>, visited: seq<BlockRef>, ghost hops: seq<nat>)
    requires WorldValid(chunks) && HasBlock(chunks, seed)
    ensures LightsAndMarksOnly(chunks, lit)
    ensures VisitedList(FillOf(chunks, tr, isSunlight, seed, level), lit, visited, hops)
    ensures ListParents(FillOf(chunks, tr, isSunlight, seed, level), visited, hops)
    ensures Saturated(FillOf(chunks, tr, isSunlight, seed, level), lit, visited, hops)
    ensures !BlockAt(chunks, seed).visited ==> |visited| > 0 && visited[0] == seed
  {
    ghost var f := FillOf(chunks, tr, isSunlight, seed, level);
    lit, visited, hops := chunks, [], [];
    var queue := [FillEntry(seed, level)];
    ghost var qh: seq<nat> := [0];
    StartInv(f);
    while queue != []
      invariant FillInv(f, FillState(lit, visited, hops, queue, qh))
      invariant Parents(f, FillState(lit, visited, hops, queue, qh))
      decreases QueueWeight(queue)
    {
      ghost var s := FillState(lit, visited, hops, queue, qh);
      var e := queue[0];
      assert HasBlock(lit, e.ref);
      var b := BlockAt(lit, e.ref);
      if !b.visited {
        lit := SetBlock(lit, e.ref, b.(visited := true, light := MaxLight(b.light, e.level)));
        LightenFrame(chunks, s.cur, e);
        LightenedLighten(s.cur, e);
        var added := PushNeighbors(f, lit, tr, isSunlight, e);
        VisitStep(f, s, lit, added);
        VisitListParents(f, s, lit, added);
        VisitQueueParents(f, s, lit, added);
        visited, hops := visited + [e.ref], hops + [s.qh[0]];
        queue, qh := queue[1..] + added, qh[1..] + Repeat(s.qh[0] + 1, |added|);
        assert FillState(lit, visited, hops, queue, qh) == Visited(s, lit, added);
      } else {
        SkipStep(f, s);
        SkipParents(f, s);
        queue, qh := queue[1..], qh[1..];
        assert FillState(lit, visited, hops, queue, qh) == Skip(s);
      }
    }
    FillDone(f, FillState(lit, visited, hops, queue, qh));
  }
}
