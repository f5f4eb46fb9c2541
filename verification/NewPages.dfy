/**
 A page filled with what a split or a merge computed is a page the tree can publish: its counters
 and its order are right, and it answers like the pages it comes from.
 */
module NewPages {
  import opened Util
  import opened Fences
  import opened History
  import opened Pages
  import opened Fill
  import opened Smo
  import opened TreeModel
  import opened LeafWrites
  import opened Reorg

  /** The page holds exactly the units of `b`, all of them active. */
  ghost predicate Holding(t: Tree, p: Page, b: Body) {
    && p.dead == 0 && p.active == Size(b)
    && if b.RecordBody? then p.Leaf? && Capacity(p) == t.numRecords && Records(p) == b.rs
       else p.Index? && Capacity(p) == t.fanOut && Entries(p) == b.es
  }

  ghost predicate Sources(t: Tree, srcs: set<nat>, h: nat) {
    forall s :: s in srcs ==> s < |t.pages| && s < |t.meta| && IsLinked(t.meta[s]) && t.meta[s].height == h
                              && LivePage(t, t.pages[s], t.meta[s].fence, h)
  }

  /** Every unit of `b` is a live unit of a source, and nothing live with a key of `f` is missing. */
  ghost predicate ComesFrom(t: Tree, b: Body, f: Fence, srcs: set<nat>)
  {
    match b
    case RecordBody(rs) =>
      && (forall r :: r in rs ==> exists s :: s in srcs && RecordOf(t, s, r))
      && (forall k: nat :: Contains(f, k) ==> exists s :: s in srcs && HasAll(t, s, rs, k))
    case EntryBody(es) =>
      forall e :: e in es ==> exists s :: s in srcs && EntryOf(t, s, e)
  }

  ghost predicate RecordOf(t: Tree, s: nat, r: Record) { s < |t.pages| && r in LiveRecords(t.pages[s]) }

  ghost predicate EntryOf(t: Tree, s: nat, e: Entry) { s < |t.pages| && e in ActiveEntries(t.pages[s]) }

  ghost predicate KeyOf(t: Tree, s: nat,
                        k: nat) { s < |t.pages| && s < |t.meta| && t.meta[s].Linked? && Contains(t.meta[s].fence, k) }

  ghost predicate HasAll(t: Tree, s: nat, rs: seq<Record>, k: nat) {
    KeyOf(t, s, k)
    && forall r :: r in LiveRecords(t.pages[s]) && r.key == k ==> r in rs
  }

  lemma HoldingExact(t: Tree, p: Page, b: Body, f: Fence)
    requires Holding(t, p, b) && GoodBody(b, f)
    ensures Exact(p)
  {
    if b.RecordBody? {
      FilterAll(IsLive, b.rs);
    } else {
      FilterAll(IsActive, b.es);
    }
  }

  lemma HoldsGood(rs: seq<Record>, f: Fence, clock: nat)
    requires Holds(rs, f) && SortedBy(RecordVersion, rs) && forall r :: r in rs ==> r.ins < clock
    ensures LeafGood(rs, f, clock)
  {
    forall i, j | 0 <= i < j < |rs| ensures rs[i].ins <= rs[j].ins && rs[i].key != rs[j].key {
      assert RecordVersion(rs[i]) <= RecordVersion(rs[j]) && OtherKey(rs[i], rs[j]);
    }
    assert forall i :: 0 <= i < |rs| ==> rs[i] in rs;
  }

  /** The live record of a key is the only one, so membership decides what the newest versions read. */
  lemma NewestByMember(rs: seq<Record>, f: Fence, clock: nat, k: nat, v: nat, r: Record)
    requires LeafGood(rs, f, clock) && clock <= v + 1 && r in Filter(IsLive, rs) && r.key == k
    ensures PointAnswer(rs, k, v) == Some(r.payload)
  {
    NewestAnswer(rs, f, clock, k, v);
    var i :| 0 <= i < |rs| && rs[i] == r;
    LiveIsLast(rs, f, clock, i, LastWithKey(rs, k).value);
  }

  lemma NewestByAbsence(rs: seq<Record>, f: Fence, clock: nat, k: nat, v: nat)
    requires LeafGood(rs, f, clock) && clock <= v + 1 && forall r :: r in Filter(IsLive, rs) ==> r.key != k
    ensures PointAnswer(rs, k, v) == None
  {
    NewestAnswer(rs, f, clock, k, v);
    var i := LastWithKey(rs, k);
    assert i.Some? ==> rs[i.value] in rs;
  }

  lemma PresentInSource(t: Tree, rs: seq<Record>, f: Fence, srcs: set<nat>, s: nat, k: nat, r: Record)
    requires Sources(t, srcs, 1) && Apart(t.meta) && ComesFrom(t, RecordBody(rs), f, srcs)
    requires s in srcs && Contains(t.meta[s].fence, k) && r in rs && r.key == k
    ensures r in LiveRecords(t.pages[s])
  {
    hide Filter;
    var s' :| s' in srcs && RecordOf(t, s', r);
    LiveInFence(Records(t.pages[s']), t.meta[s'].fence, t.clock, r);
    OnlyOne(t.meta, s, s', k);
  }

  /** For the keys of its fence, the new leaf answers at the newest versions as its source does. */
  lemma SameNewest(t: Tree, rs: seq<Record>, f: Fence, srcs: set<nat>, s: nat, k: nat, v: nat)
    requires Sources(t, srcs, 1) && Apart(t.meta) && ComesFrom(t, RecordBody(rs), f, srcs)
    requires LeafGood(rs, f, t.clock) && t.clock <= v + 1 && (forall r :: r in rs ==> r.Live())
    requires s in srcs && HasAll(t, s, rs, k)
    ensures PointAnswer(rs, k, v) == PointAnswer(Records(t.pages[s]), k, v)
  {
    hide Filter, LeafGood, ComesFrom, Apart;
    assert LivePage(t, t.pages[s], t.meta[s].fence, 1);
    if r :| r in rs && r.key == k {
      PresentInSource(t, rs, f, srcs, s, k, r);
      assert r in Filter(IsLive, rs);
      NewestByMember(rs, f, t.clock, k, v, r);
      NewestByMember(Records(t.pages[s]), t.meta[s].fence, t.clock, k, v, r);
    } else {
      NewestByAbsence(rs, f, t.clock, k, v);
      NewestByAbsence(Records(t.pages[s]), t.meta[s].fence, t.clock, k, v);
    }
  }

  lemma LiveInFence(rs: seq<Record>, f: Fence, clock: nat, r: Record)
    requires LeafGood(rs, f, clock) && r in Filter(IsLive, rs)
    ensures Contains(f, r.key) && r.ins < clock
  {
    var i :| 0 <= i < |rs| && rs[i] == r;
  }

  lemma NewLeafGood(t: Tree, rs: seq<Record>, f: Fence, srcs: set<nat>)
    requires Sources(t, srcs, 1) && GoodBody(RecordBody(rs), f) && ComesFrom(t, RecordBody(rs), f, srcs)
    ensures LeafGood(rs, f, t.clock)
  {
    forall r | r in rs ensures r.ins < t.clock {
      hide Filter;
      var s :| s in srcs && RecordOf(t, s, r);
      LiveInFence(Records(t.pages[s]), t.meta[s].fence, t.clock, r);
    }
    HoldsGood(rs, f, t.clock);
  }

  lemma NewLeafTrue(t: Tree, rs: seq<Record>, f: Fence, srcs: set<nat>, k: nat)
    requires MetaOk(t) && Apart(t.meta) && AllServe(t) && t.horizon <= t.clock && Sources(t, srcs, 1)
    requires LeafGood(rs, f, t.clock) && ComesFrom(t, RecordBody(rs), f, srcs) && Contains(f, k)
    requires forall r :: r in rs ==> r.Live()
    ensures PointAnswer(rs, k, t.clock) == At(t.history, k, t.clock)
  {
    hide LeafGood, Apart, Filter, LivePage;
    var s :| s in srcs && HasAll(t, s, rs, k);
    SameNewest(t, rs, f, srcs, s, k, t.clock);
    assert Visible(t, s, k, t.clock) && Serves(t, s, k, t.clock);
  }

  lemma NewLeaf(t0: Tree, t1: Tree, id: nat, rs: seq<Record>, f: Fence, srcs: set<nat>)
    requires MetaOk(t0) && Apart(t0.meta) && AllServe(t0) && t0.horizon <= t0.clock && Sources(t0, srcs, 1)
    requires GoodBody(RecordBody(rs), f) && ComesFrom(t0, RecordBody(rs), f, srcs)
    requires id < |t1.pages| && id < |t1.meta| && t1.meta[id] == Linked(f, t0.clock, None, 1)
    requires Holding(t1, t1.pages[id], RecordBody(rs))
    requires t1.clock == t0.clock + 1 && t1.history == t0.history
    ensures Newborn(t1, id)
  {
    NewLeafGood(t0, rs, f, srcs);
    HoldingExact(t1, t1.pages[id], RecordBody(rs), f);
    assert LeafGood(rs, f, t1.clock);
    hide LeafGood, Apart, AllServe, ComesFrom, MetaOk, Sources, Exact;
    forall k: nat | Contains(f, k) ensures PointAnswer(rs, k, t0.clock) == At(t0.history, k, t0.clock) {
      NewLeafTrue(t0, rs, f, srcs, k);
    }
    assert LeafTrue(t1, id);
  }

  /** Tiles by membership are tiles by position once all entries are active. */
  lemma TilesByPosition(es: seq<Entry>, f: Fence)
    requires Tiles(es, f)
    ensures ActiveTiles(es, f)
  {
    assert forall i :: 0 <= i < |es| ==> es[i] in es;
    forall i, j | 0 <= i < j < |es| && es[i].Active() && es[j].Active() ensures Disjoint(es[i].fence, es[j].fence) {
      assert OtherFence(es[i], es[j]);
    }
    forall k | Contains(f, k) ensures ActiveAt(es, k) {
      assert Covered(es, k);
      var e :| e in es && Contains(e.fence, k);
      var i :| 0 <= i < |es| && es[i] == e;
    }
  }

  lemma NewIndex(t0: Tree, t1: Tree, id: nat, es: seq<Entry>, f: Fence, h: nat, srcs: set<nat>)
    requires h > 1 && Sources(t0, srcs, h) && |es| > 0
    requires GoodBody(EntryBody(es), f) && ComesFrom(t0, EntryBody(es), f, srcs)
    requires id < |t1.pages| && id < |t1.meta| && t1.meta[id] == Linked(f, t0.clock, None, h)
    requires Holding(t1, t1.pages[id], EntryBody(es))
    requires t1.clock == t0.clock + 1
    requires forall c :: 0 <= c < |t0.meta| && IsLinked(t0.meta[c]) && t0.meta[c].height + 1 == h ==>
               c < |t1.meta| && t1.meta[c] == t0.meta[c]
    ensures Newborn(t1, id)
  {
    HoldingExact(t1, t1.pages[id], EntryBody(es), f);
    TilesByPosition(es, f);
    hide Filter, Exact, LivePage;
    NewIndexEntries(t0, t1, es, f, h, srcs);
    hide ActiveTiles, Tiles, ChildrenOk, VersionsOk;
    assert es[|es| - 1].Active();
    assert IndexGood(t1.meta, es, f, h, t1.clock);
    NewbornIndex(t1, id, es, f, h);
  }

  lemma NewbornIndex(t: Tree, id: nat, es: seq<Entry>, f: Fence, h: nat)
    requires h > 1 && id < |t.pages| && id < |t.meta| && t.meta[id].Linked? && t.meta[id].fence == f
    requires t.meta[id].height == h
    requires Holding(t, t.pages[id], EntryBody(es)) && Exact(t.pages[id]) && IndexGood(t.meta, es, f, h, t.clock)
    ensures Newborn(t, id)
  {
    hide IndexGood, Exact;
  }

  lemma NewIndexEntries(t0: Tree, t1: Tree, es: seq<Entry>, f: Fence, h: nat, srcs: set<nat>)
    requires h > 1 && Sources(t0, srcs, h)
    requires GoodBody(EntryBody(es), f) && ComesFrom(t0, EntryBody(es), f, srcs) && t1.clock == t0.clock + 1
    requires forall c :: 0 <= c < |t0.meta| && IsLinked(t0.meta[c]) && t0.meta[c].height + 1 == h ==>
               c < |t1.meta| && t1.meta[c] == t0.meta[c]
    ensures ChildrenOk(t1.meta, es, h) && VersionsOk(es, t1.clock) && forall e :: e in es ==> e.Active()
  {
    hide Filter, LivePage;
    forall i | 0 <= i < |es| ensures es[i].Active() && ChildOk(t1.meta, es[i], h) && es[i].version < t1.clock {
      assert es[i] in es;
      var s :| s in srcs && EntryOf(t0, s, es[i]);
      SourceChild(t0, s, h, es[i]);
    }
    forall i, j | 0 <= i < j < |es| ensures es[i].version <= es[j].version {
      assert EntryVersion(es[i]) <= EntryVersion(es[j]);
    }
  }

  lemma SourceChild(t: Tree, s: nat, h: nat, e: Entry)
    requires h > 1 && s < |t.pages| && s < |t.meta| && IsLinked(t.meta[s])
    requires LivePage(t, t.pages[s], t.meta[s].fence, h)
    requires e in ActiveEntries(t.pages[s])
    ensures ChildOk(t.meta, e, h) && e.version < t.clock
  {
    var es := Entries(t.pages[s]);
    var i :| 0 <= i < |es| && es[i] == e;
    assert ChildOk(t.meta, es[i], h);
  }

  // ---------------------------------------------------------------- split and merge give such bodies

  /** The live body of a page of the tree. */
  lemma LiveBodyGood(t: Tree, s: nat)
    requires MetaOk(t) && s < |t.pages| && IsLinked(t.meta[s])
    requires LivePage(t, t.pages[s], t.meta[s].fence, t.meta[s].height)
    ensures GoodBody(LiveBody(t.pages[s]), t.meta[s].fence) && Exact(t.pages[s])
    ensures LiveBody(t.pages[s]).RecordBody? == t.pages[s].Leaf?
    ensures t.pages[s].Leaf? <==> t.meta[s].height == 1
  {
    var p, f := t.pages[s], t.meta[s].fence;
    if p.Leaf? {
      var rs := Records(p);
      forall r | r in LiveRecords(p) ensures r.Live() && Contains(f, r.key) {
        LiveInFence(rs, f, t.clock, r);
      }
      FilterPairwise(IsLive, rs, OtherKey);
      FilterPairwise(IsLive, rs, OlderOrEqual);
      SortedByPairs(LiveRecords(p));
    } else {
      ActiveTilesFiltered(Entries(p), f);
      FilterPairwise(IsActive, Entries(p), EarlierOrEqual);
      SortedByEntryPairs(ActiveEntries(p));
    }
  }

  ghost predicate OlderOrEqual(a: Record, b: Record) { a.ins <= b.ins }
  ghost predicate EarlierOrEqual(a: Entry, b: Entry) { a.version <= b.version }

  lemma SortedByPairs(rs: seq<Record>)
    requires Pairwise(rs, OlderOrEqual)
    ensures SortedBy(RecordVersion, rs)
  {
    forall i, j | 0 <= i < j < |rs| ensures RecordVersion(rs[i]) <= RecordVersion(rs[j]) {
      assert OlderOrEqual(rs[i], rs[j]);
    }
  }

  lemma SortedByEntryPairs(es: seq<Entry>)
    requires Pairwise(es, EarlierOrEqual)
    ensures SortedBy(EntryVersion, es)
  {
    forall i, j | 0 <= i < j < |es| ensures EntryVersion(es[i]) <= EntryVersion(es[j]) {
      assert EarlierOrEqual(es[i], es[j]);
    }
  }

  /** The bags hold exactly the live units of the sources, and the sources cover `f`. */
  ghost predicate BagsOf(t: Tree, srcs: set<nat>, f: Fence, records: multiset<Record>, entries: multiset<Entry>)
  {
    && (forall r :: r in records <==> exists s :: s in srcs && RecordOf(t, s, r))
    && (forall e :: e in entries ==> exists s :: s in srcs && EntryOf(t, s, e))
    && (forall k: nat :: Contains(f, k) ==> exists s :: s in srcs && KeyOf(t, s, k))
  }

  lemma CopyComesFrom(t: Tree, o: Outcome, f: Fence, srcs: set<nat>, records: multiset<Record>,
                      entries: multiset<Entry>)
    requires o.ByVersion? && Conserves(o, f, records, entries) && BagsOf(t, srcs, f, records, entries)
    ensures ComesFrom(t, o.copy, f, srcs)
  {
    hide Filter, SortedBy, Holds, Tiles;
    match o.copy {
      case RecordBody(rs) =>
        forall k: nat | Contains(f, k) ensures exists s :: s in srcs && HasAll(t, s, rs, k) {
          var s :| s in srcs && KeyOf(t, s, k);
          forall r | r in LiveRecords(t.pages[s]) && r.key == k ensures r in rs {
            assert r in records && r in multiset(rs);
          }
          assert HasAll(t, s, rs, k);
        }
        forall r | r in rs ensures exists s :: s in srcs && RecordOf(t, s, r) {
          assert r in multiset(rs);
        }
      case EntryBody(es) =>
        forall e | e in es ensures exists s :: s in srcs && EntryOf(t, s, e) {
          assert e in multiset(es);
        }
    }
  }

  lemma HalfComesFrom(t: Tree, half: Body, own: Fence, other: Body, otherFence: Fence, f: Fence, srcs: set<nat>,
                      records: multiset<Record>, entries: multiset<Entry>)
    requires BagsOf(t, srcs, f, records, entries) && Covers(f, own) && Disjoint(own, otherFence)
    requires half.RecordBody? == other.RecordBody?
    requires RecordBag(half) + RecordBag(other) == records && EntryBag(half) + EntryBag(other) == entries
    requires GoodBody(other, otherFence)
    ensures ComesFrom(t, half, own, srcs)
  {
    hide Filter, SortedBy, Tiles;
    match half {
      case RecordBody(rs) =>
        forall k: nat | Contains(own, k) ensures exists s :: s in srcs && HasAll(t, s, rs, k) {
          assert Contains(f, k);
          var s :| s in srcs && KeyOf(t, s, k);
          forall r | r in LiveRecords(t.pages[s]) && r.key == k ensures r in rs {
            assert r in records && r !in RecordBag(other);
          }
          assert HasAll(t, s, rs, k);
        }
        forall r | r in rs ensures exists s :: s in srcs && RecordOf(t, s, r) {
          assert r in multiset(rs) && r in records;
        }
      case EntryBody(es) =>
        forall e | e in es ensures exists s :: s in srcs && EntryOf(t, s, e) {
          assert e in multiset(es) && e in entries;
        }
    }
  }

  /** What a split or merge of pages of the tree hands to the new pages. */
  ghost predicate OutcomeComesFrom(t: Tree, o: Outcome, f: Fence, srcs: set<nat>)
  {
    match o
    case ByVersion(copy) => GoodBody(copy, f) && ComesFrom(t, copy, f, srcs)
    case ByKey(leftFence, left, rightFence, right) =>
      && Cut(f, leftFence, rightFence)
      && GoodBody(left, leftFence) && ComesFrom(t, left, leftFence, srcs)
      && GoodBody(right, rightFence) && ComesFrom(t, right, rightFence, srcs)
  }

  lemma ConservedComesFrom(t: Tree, o: Outcome, f: Fence, srcs: set<nat>, records: multiset<Record>,
                           entries: multiset<Entry>)
    requires Conserves(o, f, records, entries) && BagsOf(t, srcs, f, records, entries)
    ensures OutcomeComesFrom(t, o, f, srcs)
  {
    hide GoodBody, BagsOf, ComesFrom;
    if o.ByVersion? {
      CopyComesFrom(t, o, f, srcs, records, entries);
    } else {
      HalfComesFrom(t, o.left, o.leftFence, o.right, o.rightFence, f, srcs, records, entries);
      HalfComesFrom(t, o.right, o.rightFence, o.left, o.leftFence, f, srcs, records, entries);
    }
  }

  ghost predicate InTree(t: Tree, s: nat) {
    && s < |t.pages| && s < |t.meta| && IsLinked(t.meta[s]) && Capacity(t.pages[s]) >= MIN_CAPACITY
    && LivePage(t, t.pages[s], t.meta[s].fence, t.meta[s].height)
  }

  ghost predicate SplitOk(t: Tree, s: nat) {
    && s < |t.pages| && s < |t.meta| && t.meta[s].Linked? && Capacity(t.pages[s]) >= MIN_CAPACITY && Exact(t.pages[s])
    && var o := Split(t.pages[s], t.meta[s].fence);
       && OutcomeComesFrom(t, o, t.meta[s].fence, {s}) && SizesAre(o, t.meta[s].height == 1, t.pages[s].active)
       && (o.ByKey? <==> t.pages[s].active >= Filling80(Capacity(t.pages[s])))
  }

  /** Splitting a page of the tree. */
  lemma SplitComesFrom(t: Tree, s: nat)
    requires MetaOk(t) && InTree(t, s)
    ensures SplitOk(t, s)
  {
    var p, f := t.pages[s], t.meta[s].fence;
    LiveBodyGood(t, s);
    SplitConserves(p, f);
    hide *;
    OneBag(t, s);
    ConservedComesFrom(t, Split(p, f), f, {s}, RecordBag(LiveBody(p)), EntryBag(LiveBody(p)));
  }

  lemma PageBags(p: Page)
    ensures forall r :: r in RecordBag(LiveBody(p)) <==> r in LiveRecords(p)
    ensures forall e :: e in EntryBag(LiveBody(p)) <==> e in ActiveEntries(p)
  {
    if p.Leaf? {
      assert Entries(p) == [] && ActiveEntries(p) == [];
    } else {
      assert Records(p) == [] && LiveRecords(p) == [];
    }
  }

  lemma OneBag(t: Tree, s: nat)
    requires s < |t.pages| && s < |t.meta| && t.meta[s].Linked?
    ensures BagsOf(t, {s}, t.meta[s].fence, RecordBag(LiveBody(t.pages[s])), EntryBag(LiveBody(t.pages[s])))
  {
    PageBags(t.pages[s]);
    hide LiveBody, LiveRecords, ActiveEntries;
    assert s in {s};
  }

  ghost predicate Neighbours(t: Tree, a: nat, b: nat) {
    InTree(t, a) && InTree(t, b) && t.meta[a].height == t.meta[b].height && Adjacent(t.meta[a].fence, t.meta[b].fence)
  }

  ghost predicate MergeOk(t: Tree, a: nat, b: nat) {
    && a < |t.pages| && a < |t.meta| && b < |t.pages| && b < |t.meta| && t.meta[a].Linked? && t.meta[b].Linked?
    && Exact(t.pages[a]) && Exact(t.pages[b]) && t.pages[a].Leaf? == t.pages[b].Leaf?
    && Capacity(t.pages[a]) >= MIN_CAPACITY
    && var o := Merge(t.pages[a], t.meta[a].fence, t.pages[b], t.meta[b].fence);
       && OutcomeComesFrom(t, o, Merged(t.meta[a].fence, t.meta[b].fence), {a, b})
       && SizesAre(o, t.meta[a].height == 1, t.pages[a].active + t.pages[b].active)
       && (o.ByVersion? <==> t.pages[a].active + t.pages[b].active <= 4 * Capacity(t.pages[a]) / 5)
  }

  lemma NeighboursJoinable(t: Tree, a: nat, b: nat)
    requires MetaOk(t) && Neighbours(t, a, b)
    ensures a < |t.pages| && a < |t.meta| && b < |t.pages| && b < |t.meta| && t.meta[a].Linked? && t.meta[b].Linked?
    ensures Exact(t.pages[a]) && Exact(t.pages[b]) && t.pages[a].Leaf? == t.pages[b].Leaf?
    ensures Capacity(t.pages[a]) >= MIN_CAPACITY
    ensures Joinable(t.pages[a], t.meta[a].fence, t.pages[b], t.meta[b].fence)
    ensures t.pages[a].Leaf? <==> t.meta[a].height == 1
    ensures t.pages[a].active == LiveUnits(t.pages[a]) && t.pages[b].active == LiveUnits(t.pages[b])
  {
    LiveBodyGood(t, a);
    LiveBodyGood(t, b);
    hide GoodBody, LivePage, LiveUnits;
  }

  /** Merging two key-adjacent pages of the tree. */
  lemma MergeComesFrom(t: Tree, a: nat, b: nat)
    requires MetaOk(t) && Neighbours(t, a, b)
    ensures MergeOk(t, a, b)
  {
    hide *;
    NeighboursJoinable(t, a, b);
    var p, f, q, g := t.pages[a], t.meta[a].fence, t.pages[b], t.meta[b].fence;
    MergeConserves(p, f, q, g);
    JoinedParts(Merge(p, f, q, g), p, f, q, g);
    MergedBags(t, a, b);
    ConservedComesFrom(t, Merge(p, f, q, g), Merged(f, g), {a, b}, RecordBag(LiveBody(p)) + RecordBag(LiveBody(q)),
                       EntryBag(LiveBody(p)) + EntryBag(LiveBody(q)));
    MergeOkIntro(t, a, b);
  }

  lemma JoinedParts(o: Outcome, p: Page, f: Fence, q: Page, g: Fence)
    requires Joinable(p, f, q, g) && Joined(o, p, f, q, g)
    ensures Conserves(o, Merged(f, g), RecordBag(LiveBody(p)) + RecordBag(LiveBody(q)),
                      EntryBag(LiveBody(p)) + EntryBag(LiveBody(q)))
    ensures SizesAre(o, p.Leaf?, p.active + q.active)
    ensures Exact(p) && Exact(q) && p.Leaf? == q.Leaf? && Capacity(p) >= MIN_CAPACITY && ValidFence(f) && ValidFence(g)
    ensures Adjacent(f, g)
  {
    hide Conserves, SizesAre, GoodBody;
  }

  lemma MergeOkIntro(t: Tree, a: nat, b: nat)
    requires a < |t.pages| && a < |t.meta| && b < |t.pages| && b < |t.meta| && t.meta[a].Linked? && t.meta[b].Linked?
    requires Exact(t.pages[a]) && Exact(t.pages[b]) && t.pages[a].Leaf? == t.pages[b].Leaf?
    requires Capacity(t.pages[a]) >= MIN_CAPACITY
    requires t.pages[a].Leaf? <==> t.meta[a].height == 1
    requires OutcomeComesFrom(t, Merge(t.pages[a], t.meta[a].fence, t.pages[b], t.meta[b].fence),
                              Merged(t.meta[a].fence, t.meta[b].fence), {a, b})
    requires SizesAre(Merge(t.pages[a], t.meta[a].fence, t.pages[b], t.meta[b].fence), t.pages[a].Leaf?,
                      t.pages[a].active + t.pages[b].active)
    requires Merge(t.pages[a], t.meta[a].fence, t.pages[b], t.meta[b].fence).ByVersion? <==>
             t.pages[a].active + t.pages[b].active <= 4 * Capacity(t.pages[a]) / 5
    ensures MergeOk(t, a, b)
  {
    hide Exact, OutcomeComesFrom, SizesAre, Merge;
  }

  lemma MergedBags(t: Tree, a: nat, b: nat)
    requires a < |t.pages| && a < |t.meta| && b < |t.pages| && b < |t.meta| && t.meta[a].Linked? && t.meta[b].Linked?
    requires Adjacent(t.meta[a].fence, t.meta[b].fence) && ValidFence(t.meta[a].fence) && ValidFence(t.meta[b].fence)
    ensures BagsOf(t, {a, b}, Merged(t.meta[a].fence, t.meta[b].fence),
                   RecordBag(LiveBody(t.pages[a])) + RecordBag(LiveBody(t.pages[b])),
                   EntryBag(LiveBody(t.pages[a])) + EntryBag(LiveBody(t.pages[b])))
  {
    var records := RecordBag(LiveBody(t.pages[a])) + RecordBag(LiveBody(t.pages[b]));
    var entries := EntryBag(LiveBody(t.pages[a])) + EntryBag(LiveBody(t.pages[b]));
    PageBags(t.pages[a]);
    PageBags(t.pages[b]);
    forall r ensures r in records <==> RecordOf(t, a, r) || RecordOf(t, b, r) {
      hide LiveBody, LiveRecords, RecordBag;
    }
    forall e ensures e in entries ==> EntryOf(t, a, e) || EntryOf(t, b, e) {
      hide LiveBody, ActiveEntries, EntryBag;
    }
    forall k: nat ensures Contains(Merged(t.meta[a].fence, t.meta[b].fence), k) ==> KeyOf(t, a, k) || KeyOf(t, b, k) {
    }
    hide RecordOf, EntryOf, KeyOf, LiveBody, RecordBag, EntryBag, Merged;
    PairBags(t, a, b, Merged(t.meta[a].fence, t.meta[b].fence), records, entries);
  }

  lemma PairBags(t: Tree, a: nat, b: nat, f: Fence, records: multiset<Record>, entries: multiset<Entry>)
    requires forall r :: r in records <==> RecordOf(t, a, r) || RecordOf(t, b, r)
    requires forall e :: e in entries ==> EntryOf(t, a, e) || EntryOf(t, b, e)
    requires forall k: nat :: Contains(f, k) ==> KeyOf(t, a, k) || KeyOf(t, b, k)
    ensures BagsOf(t, {a, b}, f, records, entries)
  {
    hide RecordOf, EntryOf, KeyOf;
    assert a in {a, b} && b in {a, b};
  }
}
