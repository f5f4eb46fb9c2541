/**
 From the pages a split or merge filled to the next state of the whole tree, for a reorganization
 below a parent and for one of the root.
 */
module Publish {
  import opened Util
  import opened Fences
  import opened History
  import opened Pages
  import opened Fill
  import opened Smo
  import opened TreeModel
  import opened LeafWrites
  import opened Reorg
  import opened ParentReorg
  import opened NewPages
  import opened RootReorg

  /** The pages that hold an outcome: one for a copy or a merge, two for a cut. */
  datatype Ids = One(page: nat) | Two(left: nat, right: nat)

  /** The unlinked pages that hold an outcome. */
  ghost predicate Prepared(t: Tree, o: Outcome, ids: Ids) {
    match o
    case ByVersion(copy) => ids.One? && Ready(t, ids.page, copy)
    case ByKey(_, left, _, right) =>
      ids.Two? && ids.left != ids.right && Ready(t, ids.left, left) && Ready(t, ids.right, right)
  }

  ghost predicate Ready(t: Tree, id: nat, b: Body) {
    id < |t.pages| && id < |t.meta| && t.meta[id] == Unlinked && Holding(t, t.pages[id], b)
  }

  /** Every page of the outcome is safe, for pages of capacity `m`. */
  ghost predicate FineOutcome(o: Outcome, leaf: bool, m: nat) {
    match o
    case ByVersion(copy) => IsFine(leaf, m, Size(copy))
    case ByKey(_, left, _, right) => IsFine(leaf, m, Size(left)) && IsFine(leaf, m, Size(right))
  }

  ghost function Freshes(o: Outcome, f: Fence, ids: Ids): seq<Fresh>
    requires o.ByVersion? == ids.One?
  {
    if o.ByVersion? then [Fresh(f, ids.page)] else [Fresh(o.leftFence, ids.left), Fresh(o.rightFence, ids.right)]
  }

  ghost function NewMeta(m: seq<Meta>, dying: set<nat>, born: map<nat, Meta>, w: nat): seq<Meta> {
    seq(|m|, i requires 0 <= i < |m| =>
      if i in born then born[i] else if i in dying && m[i].Linked? then m[i].(death := Some(w)) else m[i])
  }

  /** Pages of the tree die, pages outside it are born. */
  ghost predicate MetaReady(m: seq<Meta>, dying: set<nat>, born: map<nat, Meta>, w: nat) {
    && (forall i :: i in dying ==> i < |m| && IsLinked(m[i]) && i !in born)
    && forall i :: i in born ==> i < |m| && m[i] == Unlinked && IsLinked(born[i]) && born[i].birth == w
                                 && ValidFence(born[i].fence) && born[i].height >= 1
  }

  lemma NewMetaStep(m: seq<Meta>, dying: set<nat>, born: map<nat, Meta>, w: nat)
    requires MetaReady(m, dying, born, w)
    ensures MetaStep(m, NewMeta(m, dying, born, w), dying, born, w)
  {
  }

  /** The page a writer of `k` finds below `p` is safe. */
  ghost predicate SafeBelow(t: Tree, p: nat, k: nat) {
    p < |t.pages| &&
    var i := RouteActive(Entries(t.pages[p]), k);
    i.Some? && Entries(t.pages[p])[i.value].child < |t.pages|
      && UnsafeDegree(t.pages[Entries(t.pages[p])[i.value].child]) == Fine
  }

  lemma RouteActiveIs(es: seq<Entry>, f: Fence, i: nat, k: nat)
    requires ActiveTiles(es, f) && i < |es| && es[i].Active() && Contains(es[i].fence, k)
    ensures RouteActive(es, k) == Some(i)
  {
    ActiveDisjointPair(es, f, i, RouteActive(es, k).value);
  }

  lemma NewPage(t0: Tree, t1: Tree, id: nat, b: Body, f: Fence, h: nat, srcs: set<nat>)
    requires Inv(t0) && Sources(t0, srcs, h) && GoodBody(b, f) && ComesFrom(t0, b, f, srcs)
    requires b.RecordBody? == (h == 1) && h >= 1 && (h > 1 ==> Size(b) > 0)
    requires id < |t1.pages| && id < |t1.meta| && t1.meta[id] == Linked(f, t0.clock, None, h)
    requires Holding(t1, t1.pages[id], b)
    requires t1.clock == t0.clock + 1 && t1.history == t0.history
    requires forall c :: 0 <= c < |t0.meta| && IsLinked(t0.meta[c]) && t0.meta[c].height + 1 == h ==>
               c < |t1.meta| && t1.meta[c] == t0.meta[c]
    ensures Newborn(t1, id)
  {
    InvParts(t0);
    assert t0.horizon <= t0.clock;
    hide *;
    if h == 1 { NewLeaf(t0, t1, id, b.rs, f, srcs); } else { NewIndex(t0, t1, id, b.es, f, h, srcs); }
  }

  lemma FineSize(leaf: bool, m: nat, a: nat)
    requires IsFine(leaf, m, a)
    ensures a > Filling20(m) && a + 0 <= m
    ensures m >= 1 ==> a > 0
  {
  }

  // ---------------------------------------------------------------- below a parent

  /** Everything a reorganization below `p` does, from the prepared pages to the published ones. */
  ghost predicate Publishes(t0: Tree, t1: Tree, p: nat, olds: set<nat>, o: Outcome, f: Fence, ids: Ids) {
    && |t0.roots| > 0 && p < |t0.pages| == |t0.meta| && IsLinked(t0.meta[p]) && t0.meta[p].height > 1
    && t0.pages[p].Index?
    && OldsActive(Entries(t0.pages[p]), olds)
    && (forall k: nat :: InOlds(Entries(t0.pages[p]), olds, k) <==> Contains(f, k))
    && ValidFence(f) && Prepared(t0, o, ids)
    && OutcomeComesFrom(t0, o, f, Children(Entries(t0.pages[p]), olds))
    && SizesFit(o, t0.meta[p].height == 2, t0)
    && |t1.pages| == |t0.pages|
    && t1 == t0.(pages := t0.pages[p := t1.pages[p]], clock := t0.clock + 1,
                 meta := NewMeta(t0.meta, Children(Entries(t0.pages[p]), olds),
                                 Born(Freshes(o, f, ids), t0.clock, t0.meta[p].height - 1), t0.clock))
    && t1.pages[p].Index? && Capacity(t1.pages[p]) == Capacity(t0.pages[p]) && Exact(t1.pages[p])
    && EntriesReplaced(Entries(t0.pages[p]), Entries(t1.pages[p]), olds, Freshes(o, f, ids), t0.clock)
    && (p == Top(t0).page || Filling20(Capacity(t1.pages[p])) <= t1.pages[p].active)
  }

  ghost predicate SizesFit(o: Outcome, leaf: bool, t: Tree) {
    && FineOutcome(o, leaf, if leaf then t.numRecords else t.fanOut)
    && match o
       case ByVersion(copy) => copy.RecordBody? == leaf
       case ByKey(_, left, _, right) => left.RecordBody? == leaf && right.RecordBody? == leaf
  }

  lemma FreshesSameKeys(es: seq<Entry>, olds: set<nat>, o: Outcome, f: Fence, ids: Ids)
    requires (forall k: nat :: InOlds(es, olds, k) <==> Contains(f, k)) && ValidFence(f)
    requires o.ByVersion? == ids.One? && (o.ByKey? ==> Smo.Cut(f, o.leftFence, o.rightFence) && ids.left != ids.right)
    ensures SameKeys(es, olds, Freshes(o, f, ids))
  {
    var fs := Freshes(o, f, ids);
    forall k: nat ensures InFresh(fs, k) <==> Contains(f, k) {
      if Contains(f, k) {
        assert Contains(fs[0].fence, k) || (|fs| == 2 && Contains(fs[1].fence, k));
      }
    }
  }

  lemma FreshesUnlinked(t: Tree, o: Outcome, f: Fence, ids: Ids)
    requires Prepared(t, o, ids) && ValidFence(f) && (o.ByKey? ==> Smo.Cut(f, o.leftFence, o.rightFence))
    ensures forall j :: 0 <= j < |Freshes(o, f, ids)| ==>
              Freshes(o, f, ids)[j].page < |t.meta| && t.meta[Freshes(o, f, ids)[j].page] == Unlinked
    ensures forall j :: 0 <= j < |Freshes(o, f, ids)| ==> ValidFence(Freshes(o, f, ids)[j].fence)
    ensures forall i, j :: 0 <= i < j < |Freshes(o, f, ids)| ==>
              Freshes(o, f, ids)[i].page != Freshes(o, f, ids)[j].page
  {
    hide Holding;
  }

  lemma BornLinked(m: seq<Meta>, fs: seq<Fresh>, w: nat, h: nat)
    requires h >= 1 && forall i, j :: 0 <= i < j < |fs| ==> fs[i].page != fs[j].page
    requires forall j :: 0 <= j < |fs| ==> fs[j].page < |m| && m[fs[j].page] == Unlinked && ValidFence(fs[j].fence)
    ensures forall b :: b in Born(fs, w, h) ==>
              b < |m| && m[b] == Unlinked && IsLinked(Born(fs, w, h)[b]) && Born(fs, w, h)[b].birth == w
              && ValidFence(Born(fs, w, h)[b].fence) && Born(fs, w, h)[b].height >= 1
  {
    BornEntries(fs, w, h);
    hide Born;
    forall b | b in Born(fs, w, h) ensures exists j :: 0 <= j < |fs| && fs[j].page == b {
      assert IsFresh(fs, b);
    }
  }

  lemma PublishedStep(t0: Tree, t1: Tree, p: nat, olds: set<nat>, o: Outcome, f: Fence, ids: Ids)
    requires ParentOk(t0, p) && Publishes(t0, t1, p, olds, o, f, ids)
    ensures CommitStep(t0, t1, Children(Entries(t0.pages[p]), olds),
                       Born(Freshes(o, f, ids), t0.clock, t0.meta[p].height - 1), {p})
  {
    hide ComesFrom, GoodBody, Exact, EntriesReplaced, Holding, SizesFit, Born, ValidFence, InOlds;
    var es, fs, h := Entries(t0.pages[p]), Freshes(o, f, ids), t0.meta[p].height - 1;
    FreshesUnlinked(t0, o, f, ids);
    BornLinked(t0.meta, fs, t0.clock, h);
    hide Prepared, Freshes;
    forall c | c in Children(es, olds)
      ensures c < |t0.meta| && IsLinked(t0.meta[c]) && t0.meta[c].height + 1 == t0.meta[p].height
    {
      var i := DyingBelow(t0, p, olds, c);
    }
    hide ParentOk;
    NewMetaStep(t0.meta, Children(es, olds), Born(fs, t0.clock, h), t0.clock);
  }

  lemma PublishedReplaces(t0: Tree, t1: Tree, p: nat, olds: set<nat>, o: Outcome, f: Fence, ids: Ids)
    requires ParentOk(t0, p) && Publishes(t0, t1, p, olds, o, f, ids)
    ensures Replaces(t0, t1, p, olds, Freshes(o, f, ids))
  {
    PublishedStep(t0, t1, p, olds, o, f, ids);
    hide ComesFrom, GoodBody, Exact, EntriesReplaced, Holding, SizesFit, Born;
    hide ValidFence, CommitStep, SameKeys, IndexGood, NewMeta;
    FreshesSameKeys(Entries(t0.pages[p]), olds, o, f, ids);
  }

  lemma ParentFromInv(t: Tree, p: nat)
    requires Inv(t) && p < |t.pages| && IsLinked(t.meta[p]) && t.meta[p].height > 1
    ensures ParentOk(t, p) && LivePage(t, t.pages[p], t.meta[p].fence, t.meta[p].height)
  {
    assert LivePage(t, t.pages[p], t.meta[p].fence, t.meta[p].height);
  }

  lemma ReplacedSources(t: Tree, p: nat, olds: set<nat>)
    requires Inv(t) && ParentOk(t, p) && OldsActive(Entries(t.pages[p]), olds)
    ensures Sources(t, Children(Entries(t.pages[p]), olds), t.meta[p].height - 1)
  {
    hide LivePage, AllServe, RootsOk, FillOk, Apart, GraveyardOk;
    forall c | c in Children(Entries(t.pages[p]), olds)
      ensures c < |t.pages| && c < |t.meta| && IsLinked(t.meta[c]) && t.meta[c].height == t.meta[p].height - 1
      ensures LivePage(t, t.pages[c], t.meta[c].fence, t.meta[p].height - 1)
    {
      var i := DyingBelow(t, p, olds, c);
    }
  }

  /** The children of the new pages are not touched: they lie two levels below `p`. */
  lemma GrandchildrenStay(t0: Tree, t1: Tree, p: nat, olds: set<nat>, fs: seq<Fresh>)
    requires ParentOk(t0, p) && Replaces(t0, t1, p, olds, fs)
    ensures forall c :: 0 <= c < |t0.meta| && IsLinked(t0.meta[c]) && t0.meta[c].height + 1 == t0.meta[p].height - 1 ==>
              c < |t1.meta| && t1.meta[c] == t0.meta[c]
  {
    hide IndexGood, EntriesReplaced, Exact, SameKeys;
    forall c | c in Children(Entries(t0.pages[p]), olds)
      ensures t0.meta[c].Linked? && t0.meta[c].height + 1 == t0.meta[p].height
    {
      var i := DyingBelow(t0, p, olds, c);
    }
  }

  ghost function BodyOf(o: Outcome, j: nat): Body {
    if o.ByVersion? then o.copy else if j == 0 then o.left else o.right
  }

  /** What is known of the `j`th new page before it is published. */
  lemma FreshBody(t0: Tree, t1: Tree, p: nat, olds: set<nat>, o: Outcome, f: Fence, ids: Ids, j: nat)
    requires Publishes(t0, t1, p, olds, o, f, ids) && j < |Freshes(o, f, ids)|
    ensures var id, b, h := Freshes(o, f, ids)[j].page, BodyOf(o, j), t0.meta[p].height - 1;
            && id < |t0.pages| && Holding(t0, t0.pages[id], b) && b.RecordBody? == (h == 1)
            && GoodBody(b, Freshes(o, f, ids)[j].fence)
            && ComesFrom(t0, b, Freshes(o, f, ids)[j].fence, Children(Entries(t0.pages[p]), olds))
            && IsFine(h == 1, if h == 1 then t0.numRecords else t0.fanOut, Size(b))
            && t1.clock == t0.clock + 1 && t1.history == t0.history && t1.numRecords == t0.numRecords
            && t1.fanOut == t0.fanOut
            && |t1.pages| == |t0.pages| && (id != p ==> t1.pages[id] == t0.pages[id])
  {
    hide ComesFrom, GoodBody, Exact, EntriesReplaced, Holding, IsFine, ValidFence, NewMeta, InOlds;
  }

  lemma HoldingFine(t: Tree, p: Page, b: Body)
    requires Holding(t, p, b) && IsFine(p.Leaf?, Capacity(p), Size(b))
    ensures UnsafeDegree(p) == Fine && Filling20(Capacity(p)) <= p.active
  {
  }

  lemma FreshNewborn(t0: Tree, t1: Tree, p: nat, olds: set<nat>, o: Outcome, f: Fence, ids: Ids, j: nat)
    requires Inv(t0) && ParentOk(t0, p) && Publishes(t0, t1, p, olds, o, f, ids) && j < |Freshes(o, f, ids)|
    ensures var id := Freshes(o, f, ids)[j].page;
            Newborn(t1, id) && UnsafeDegree(t1.pages[id]) == Fine
              && Filling20(Capacity(t1.pages[id])) <= t1.pages[id].active
  {
    PublishesParts(t0, t1, p, olds, o, f, ids);
    hide *;
    var fs, h, srcs, b := Freshes(o, f, ids), t0.meta[p].height - 1, Children(Entries(t0.pages[p]), olds), BodyOf(o, j);
    var id := fs[j].page;
    FreshBody(t0, t1, p, olds, o, f, ids, j);
    PublishedReplaces(t0, t1, p, olds, o, f, ids);
    ReplacedSources(t0, p, olds);
    InvParts(t0);
    FreshMeta(t0, t1, p, olds, fs, j);
    GrandchildrenStay(t0, t1, p, olds, fs);
    HoldingStays(t0, t1, t0.pages[id], b);
    FineSize(h == 1, if h == 1 then t0.numRecords else t0.fanOut, Size(b));
    NewPage(t0, t1, id, b, fs[j].fence, h, srcs);
    HoldingFine(t1, t1.pages[id], b);
  }

  lemma HoldingStays(t0: Tree, t1: Tree, p: Page, b: Body)
    requires Holding(t0, p, b) && t1.numRecords == t0.numRecords && t1.fanOut == t0.fanOut
    ensures Holding(t1, p, b)
    ensures p.Leaf? == b.RecordBody? && Capacity(p) == if b.RecordBody? then t0.numRecords else t0.fanOut
  {
  }

  lemma PublishesParts(t0: Tree, t1: Tree, p: nat, olds: set<nat>, o: Outcome, f: Fence, ids: Ids)
    requires Inv(t0) && Publishes(t0, t1, p, olds, o, f, ids)
    ensures p < |t0.pages| == |t0.meta| && t0.meta[p].Linked? && t0.meta[p].height > 1 && o.ByVersion? == ids.One?
    ensures OldsActive(Entries(t0.pages[p]), olds) && (forall i :: i in olds ==> i < |Entries(t0.pages[p])|)
    ensures t0.fanOut >= MIN_CAPACITY && t0.numRecords >= MIN_CAPACITY
    ensures |t1.pages| == |t0.pages|
  {
    hide ComesFrom, GoodBody, Exact, EntriesReplaced, SizesFit, Born, ValidFence;
    hide NewMeta, LivePages, AllServe, RootsOk, Apart, GraveyardOk;
  }

  lemma PublishTop(t0: Tree, t1: Tree, p: nat, olds: set<nat>, o: Outcome, f: Fence, ids: Ids)
    requires Publishes(t0, t1, p, olds, o, f, ids)
    ensures |t0.roots| > 0 && p < |t1.pages|
    ensures (p == Top(t0).page || Filling20(Capacity(t1.pages[p])) <= t1.pages[p].active)
    ensures p < |t0.pages| == |t0.meta| && IsLinked(t0.meta[p]) && t0.meta[p].height > 1
    ensures t1.clock == t0.clock + 1 && o.ByVersion? == ids.One?
    ensures EntriesReplaced(Entries(t0.pages[p]), Entries(t1.pages[p]), olds, Freshes(o, f, ids), t0.clock)
    ensures forall k: nat :: InOlds(Entries(t0.pages[p]), olds, k) <==> Contains(f, k)
  {
    hide ComesFrom, GoodBody, Exact, EntriesReplaced, SizesFit, Born, ValidFence, NewMeta, InOlds;
  }

  /** A reorganization below a parent keeps the invariant and leaves safe pages below it. */
  lemma PublishKeepsInv(t0: Tree, t1: Tree, p: nat, olds: set<nat>, o: Outcome, f: Fence, ids: Ids)
    requires Inv(t0) && Publishes(t0, t1, p, olds, o, f, ids)
    ensures Inv(t1)
    ensures forall k: nat :: Contains(f, k) ==> SafeBelow(t1, p, k)
  {
    hide *;
    PublishTop(t0, t1, p, olds, o, f, ids);
    var fs := Freshes(o, f, ids);
    ParentFromInv(t0, p);
    PublishedReplaces(t0, t1, p, olds, o, f, ids);
    forall j | 0 <= j < |fs|
      ensures Newborn(t1, fs[j].page) && fs[j].page < |t1.pages| && UnsafeDegree(t1.pages[fs[j].page]) == Fine
      ensures Filling20(Capacity(t1.pages[fs[j].page])) <= t1.pages[fs[j].page].active
    {
      FreshNewborn(t0, t1, p, olds, o, f, ids, j);
      NewbornIndexed(t1, fs[j].page);
    }
    ReplaceKeepsInv(t0, t1, p, olds, fs);
    forall k: nat | Contains(f, k) ensures SafeBelow(t1, p, k) {
      PublishedSafe(t0, t1, p, olds, fs, k);
    }
  }

  lemma NewbornIndexed(t: Tree, i: nat)
    requires Newborn(t, i)
    ensures i < |t.pages| && i < |t.meta|
  {
  }

  lemma FreshIndex(es: seq<Entry>, es': seq<Entry>, olds: set<nat>, fs: seq<Fresh>, w: nat, k: nat) returns (j: nat)
    requires EntriesReplaced(es, es', olds, fs, w) && SameKeys(es, olds, fs) && InOlds(es, olds, k)
    ensures j < |fs| && Contains(fs[j].fence, k) && |es'| == |es| + |fs|
    ensures es'[|es| + j] == Entry(fs[j].fence, w, false, fs[j].page)
  {
    assert InFresh(fs, k);
    j :| 0 <= j < |fs| && Contains(fs[j].fence, k);
  }

  lemma PublishedSafe(t0: Tree, t1: Tree, p: nat, olds: set<nat>, fs: seq<Fresh>, k: nat)
    requires Inv(t1) && ParentOk(t0, p) && Replaces(t0, t1, p, olds, fs) && p < |t0.pages|
    requires InOlds(Entries(t0.pages[p]), olds, k)
    requires forall j :: 0 <= j < |fs| ==> fs[j].page < |t1.pages| && UnsafeDegree(t1.pages[fs[j].page]) == Fine
    ensures SafeBelow(t1, p, k)
  {
    hide *;
    PublishedParent(t0, t1, p, olds, fs);
    ParentFromInv(t1, p);
    ActiveTilesOf(t1, p);
    var j := FreshIndex(Entries(t0.pages[p]), Entries(t1.pages[p]), olds, fs, t0.clock, k);
    SafeAt(t1, p, k, |Entries(t0.pages[p])| + j);
  }

  lemma SafeAt(t: Tree, p: nat, k: nat, i: nat)
    requires p < |t.pages| && p < |t.meta| && t.meta[p].Linked? && ActiveTiles(Entries(t.pages[p]), t.meta[p].fence)
    requires i < |Entries(t.pages[p])| && !Entries(t.pages[p])[i].obsolete && Contains(Entries(t.pages[p])[i].fence, k)
    requires Entries(t.pages[p])[i].child < |t.pages| && UnsafeDegree(t.pages[Entries(t.pages[p])[i].child]) == Fine
    ensures SafeBelow(t, p, k)
  {
    hide UnsafeDegree, Entries;
    RouteActiveIs(Entries(t.pages[p]), t.meta[p].fence, i, k);
  }

  lemma ActiveTilesOf(t: Tree, p: nat)
    requires ParentOk(t, p)
    ensures ActiveTiles(Entries(t.pages[p]), t.meta[p].fence)
  {
  }

  lemma PublishedParent(t0: Tree, t1: Tree, p: nat, olds: set<nat>, fs: seq<Fresh>)
    requires Replaces(t0, t1, p, olds, fs)
    ensures p < |t1.meta| == |t1.pages| && t1.meta[p] == t0.meta[p] && IsLinked(t1.meta[p]) && t1.meta[p].Linked?
    ensures t1.meta[p].height > 1
    ensures EntriesReplaced(Entries(t0.pages[p]), Entries(t1.pages[p]), olds, fs, t0.clock)
    ensures SameKeys(Entries(t0.pages[p]), olds, fs)
  {
    hide Exact, EntriesReplaced, SameKeys;
  }
}
