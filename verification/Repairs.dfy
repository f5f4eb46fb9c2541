/**
 One repair below a safe parent, as a change of the whole tree: an overflowing child is split, an
 underflowing child is merged with its key neighbour.
 */
module Repairs {
  import opened Util
  import opened Fences
  import opened History
  import opened Pages
  import opened Fill
  import opened Smo
  import opened TreeModel
  import opened LeafWrites
  import opened Reorg
  import opened ParentReorg
  import opened NewPages
  import opened RootReorg
  import opened Publish
  import opened ParentStores
  import opened Snapshots

  /** A page of the tree a writer may stay on: safe, or the root and safe as a root. */
  ghost predicate Steady(t: Tree, p: nat) {
    && |t.roots| > 0 && p < |t.pages| && p < |t.meta| && IsLinked(t.meta[p])
    && if p == Top(t).page then UnsafeDegreeRoot(t.pages[p]) == Fine else UnsafeDegree(t.pages[p]) == Fine
  }

  /** Entry `i` of page `p` is active and leads to the page `s` of the tree. */
  ghost predicate ChildAt(t: Tree, p: nat, i: nat, s: nat) {
    && p < |t.pages| && p < |t.meta| && IsLinked(t.meta[p]) && t.meta[p].height > 1 && t.pages[p].Index?
    && i < |Entries(t.pages[p])| && Entries(t.pages[p])[i].Active() && Entries(t.pages[p])[i].child == s
    && InTree(t, s) && t.meta[s].fence == Entries(t.pages[p])[i].fence && t.meta[s].height + 1 == t.meta[p].height
    && ValidFence(t.meta[s].fence)
  }

  lemma ActiveChild(t: Tree, p: nat, i: nat)
    requires Inv(t) && p < |t.pages| && IsLinked(t.meta[p]) && t.meta[p].height > 1
    requires i < |Entries(t.pages[p])| && Entries(t.pages[p])[i].Active()
    ensures ChildAt(t, p, i, Entries(t.pages[p])[i].child)
  {
    ParentFromInv(t, p);
    var s := Entries(t.pages[p])[i].child;
    assert ChildOk(t.meta, Entries(t.pages[p])[i], t.meta[p].height);
    hide AllServe, RootsOk, FillOk, Apart, GraveyardOk, ActiveTiles, Exact;
    assert LivePage(t, t.pages[s], t.meta[s].fence, t.meta[s].height);
    LiveCapacity(t, s);
  }

  lemma LiveCapacity(t: Tree, s: nat)
    requires s < |t.pages| && s < |t.meta| && t.meta[s].Linked?
    requires LivePage(t, t.pages[s], t.meta[s].fence, t.meta[s].height)
    ensures t.pages[s].Leaf? <==> t.meta[s].height == 1
    ensures Capacity(t.pages[s]) == if t.meta[s].height == 1 then t.numRecords else t.fanOut
    ensures Exact(t.pages[s])
  {
  }

  lemma SplitIsFine(o: Outcome, leaf: bool, m: nat, active: nat, dead: nat)
    requires m >= MIN_CAPACITY && DegreeOf(leaf, m, active, dead) == Overflow && active <= m
    requires SizesAre(o, leaf, active)
    requires o.ByKey? <==> active >= Filling80(m)
    ensures FineOutcome(o, leaf, m)
  {
    if o.ByKey? { KeySplitHalves(leaf, m, active); } else { VersionSplitCopy(leaf, m, active); }
  }

  lemma MergeIsFine(o: Outcome, leaf: bool, m: nat, active: nat, dead: nat, sibling: nat)
    requires m >= MIN_CAPACITY && DegreeOf(leaf, m, active, dead) == ActiveUnderflow && sibling <= m
    requires Filling20(m) <= active && Filling20(m) <= sibling && SizesAre(o, leaf, active + sibling)
    requires o.ByVersion? <==> active + sibling <= 4 * m / 5
    ensures FineOutcome(o, leaf, m)
  {
    if o.ByVersion? { MergedPage(leaf, m, active, sibling); } else { RedistributedHalves(leaf, m, active, sibling); }
  }

  lemma SizesFitFrom(o: Outcome, t: Tree, leaf: bool, n: nat)
    requires SizesAre(o, leaf, n) && FineOutcome(o, leaf, if leaf then t.numRecords else t.fanOut)
    ensures SizesFit(o, leaf, t)
  {
    hide FineOutcome;
  }

  /** The parts of a published reorganization, put together. */
  lemma PublishesIntro(t0: Tree, t1: Tree, p: nat, olds: set<nat>, o: Outcome, f: Fence, ids: Ids)
    requires |t0.roots| > 0 && p < |t0.pages| == |t0.meta| && IsLinked(t0.meta[p]) && t0.meta[p].Linked?
    requires t0.meta[p].height > 1 && t0.pages[p].Index?
    requires OldsActive(Entries(t0.pages[p]), olds) && forall i :: i in olds ==> i < |Entries(t0.pages[p])|
    requires forall k: nat :: InOlds(Entries(t0.pages[p]), olds, k) <==> Contains(f, k)
    requires ValidFence(f) && Prepared(t0, o, ids) && o.ByVersion? == ids.One?
    requires OutcomeComesFrom(t0, o, f, Children(Entries(t0.pages[p]), olds))
    requires SizesFit(o, t0.meta[p].height == 2, t0)
    requires |t1.pages| == |t0.pages|
    requires t1 == t0.(pages := t0.pages[p := t1.pages[p]], clock := t0.clock + 1,
                       meta := NewMeta(t0.meta, Children(Entries(t0.pages[p]), olds),
                                       Born(Freshes(o, f, ids), t0.clock, t0.meta[p].height - 1), t0.clock))
    requires t1.pages[p].Index? && Capacity(t1.pages[p]) == Capacity(t0.pages[p]) && Exact(t1.pages[p])
    requires EntriesReplaced(Entries(t0.pages[p]), Entries(t1.pages[p]), olds, Freshes(o, f, ids), t0.clock)
    requires p == Top(t0).page || Filling20(Capacity(t1.pages[p])) <= t1.pages[p].active
    ensures Publishes(t0, t1, p, olds, o, f, ids)
  {
    hide OldsActive, Entries, InOlds, ValidFence, Prepared, OutcomeComesFrom, SizesFit, NewMeta;
    hide Children, Born, Freshes, Exact, EntriesReplaced, Filling20;
  }

  // ---------------------------------------------------------------- overflow

  ghost predicate OverflowRepair(t0: Tree, t1: Tree, p: nat, i: nat, s: nat, ids: Ids) {
    && ChildAt(t0, p, i, s) && SplitOk(t0, s) && |t0.pages| == |t0.meta|
    && var o := Split(t0.pages[s], t0.meta[s].fence);
       && Prepared(t0, o, ids) && Sum(t0.pages[p]) + 2 <= Capacity(t0.pages[p])
       && var fs := Freshes(o, t0.meta[s].fence, ids);
          t1 == t0.(pages := t0.pages[p := StoredOne(t0.pages[p], NewEntries(fs, t0.clock), i)], clock := t0.clock + 1,
                    meta := NewMeta(t0.meta, {s}, Born(fs, t0.clock, t0.meta[p].height - 1), t0.clock))
  }

  lemma OverflowParts(t0: Tree, t1: Tree, p: nat, i: nat, s: nat, ids: Ids)
    requires OverflowRepair(t0, t1, p, i, s, ids)
    ensures ChildAt(t0, p, i, s) && SplitOk(t0, s)
    ensures p < |t0.pages| == |t0.meta| && s < |t0.pages| && t0.meta[s].Linked? && t0.meta[p].Linked?
    ensures Exact(t0.pages[s]) && Capacity(t0.pages[s]) >= MIN_CAPACITY && InTree(t0, s)
    ensures var o := Split(t0.pages[s], t0.meta[s].fence);
            && o.ByVersion? == ids.One?
            && |Freshes(o, t0.meta[s].fence, ids)| <= 2
  {
    hide InTree, OutcomeComesFrom, SizesAre, Exact, Split, StoredOne, NewMeta, Born, Holding;
  }

  lemma SplitParts(t: Tree, s: nat)
    requires SplitOk(t, s) && InTree(t, s)
    ensures Exact(t.pages[s]) && Capacity(t.pages[s]) >= MIN_CAPACITY
    ensures var o := Split(t.pages[s], t.meta[s].fence);
            && OutcomeComesFrom(t, o, t.meta[s].fence, {s}) && SizesAre(o, t.meta[s].height == 1, t.pages[s].active)
            && (o.ByKey? <==> t.pages[s].active >= Filling80(Capacity(t.pages[s])))
    ensures t.pages[s].Leaf? <==> t.meta[s].height == 1
    ensures Capacity(t.pages[s]) == if t.meta[s].height == 1 then t.numRecords else t.fanOut
  {
    LiveCapacity(t, s);
    hide LivePage, OutcomeComesFrom, SizesAre, Exact, Split;
  }

  lemma OverflowSizes(t0: Tree, t1: Tree, p: nat, i: nat, s: nat, ids: Ids)
    requires OverflowRepair(t0, t1, p, i, s, ids) && UnsafeDegree(t0.pages[s]) == Overflow
    ensures Exact(t0.pages[s]) && Capacity(t0.pages[s]) >= MIN_CAPACITY
    ensures SizesFit(Split(t0.pages[s], t0.meta[s].fence), t0.meta[s].height == 1, t0)
  {
    OverflowParts(t0, t1, p, i, s, ids);
    SplitParts(t0, s);
    hide *;
    var o, leaf := Split(t0.pages[s], t0.meta[s].fence), t0.meta[s].height == 1;
    DegreeIs(t0.pages[s]);
    SplitIsFine(o, leaf, Capacity(t0.pages[s]), t0.pages[s].active, t0.pages[s].dead);
    SizesFitFrom(o, t0, leaf, t0.pages[s].active);
  }

  lemma DegreeIs(p: Page)
    ensures UnsafeDegree(p) == DegreeOf(p.Leaf?, Capacity(p), p.active, p.dead)
    ensures p.active <= Capacity(p)
  {
  }

  lemma ActiveOnly(es: seq<Entry>, i: nat)
    requires i < |es| && es[i].Active()
    ensures OldsActive(es, {i})
  {
  }

  lemma FillKept(t0: Tree, p: nat, q: Page)
    requires Inv(t0) && p < |t0.pages| && IsLinked(t0.meta[p]) && Capacity(q) == Capacity(t0.pages[p])
    requires q.active >= t0.pages[p].active || (UnsafeDegree(t0.pages[p]) == Fine && q.active + 1 >= t0.pages[p].active)
    ensures |t0.roots| > 0 && (p == Top(t0).page || Filling20(Capacity(q)) <= q.active)
  {
    hide AllServe, LivePages, Apart, GraveyardOk;
  }

  lemma OverflowStored(t0: Tree, t1: Tree, p: nat, i: nat, s: nat, ids: Ids)
    requires Inv(t0) && OverflowRepair(t0, t1, p, i, s, ids)
    ensures Exact(t0.pages[s]) && Capacity(t0.pages[s]) >= MIN_CAPACITY && |t1.pages| == |t0.pages|
    ensures var o := Split(t0.pages[s], t0.meta[s].fence);
            var fs := Freshes(o, t0.meta[s].fence, ids); var es := Entries(t0.pages[p]);
            && t1.pages[p].Index? && Capacity(t1.pages[p]) == Capacity(t0.pages[p]) && Exact(t1.pages[p])
            && t1.pages[p].active >= t0.pages[p].active
            && EntriesReplaced(es, Entries(t1.pages[p]), {i}, fs, t0.clock)
            && OldsActive(es, {i}) && Children(es, {i}) == {s}
            && (forall k: nat :: InOlds(es, {i}, k) <==> Contains(t0.meta[s].fence, k))
  {
    ParentFromInv(t0, p);
    LiveCapacity(t0, p);
    hide Inv, InTree, SplitOk, Split, StoredOne, NewMeta, Born, Holding, ParentOk, Exact, LivePage, EntriesReplaced;
    var o := Split(t0.pages[s], t0.meta[s].fence);
    var fs := Freshes(o, t0.meta[s].fence, ids);
    StoredOneReplaces(t0.pages[p], fs, t0.clock, i);
    ActiveOnly(Entries(t0.pages[p]), i);
    OneOld(Entries(t0.pages[p]), i);
  }

  /** Splitting an overflowing child keeps the invariant and makes the way down safe. */
  lemma OverflowKeepsInv(t0: Tree, t1: Tree, p: nat, i: nat, s: nat, ids: Ids)
    requires Inv(t0) && OverflowRepair(t0, t1, p, i, s, ids) && UnsafeDegree(t0.pages[s]) == Overflow
    ensures Inv(t1)
    ensures s < |t0.meta| && t0.meta[s].Linked?
    ensures forall k: nat :: Contains(t0.meta[s].fence, k) ==> SafeBelow(t1, p, k)
  {
    OverflowPublishes(t0, t1, p, i, s, ids);
    OverflowParts(t0, t1, p, i, s, ids);
    hide *;
    PublishKeepsInv(t0, t1, p, {i}, Split(t0.pages[s], t0.meta[s].fence), t0.meta[s].fence, ids);
  }

  lemma OverflowShape(t0: Tree, t1: Tree, p: nat, i: nat, s: nat, ids: Ids)
    requires OverflowRepair(t0, t1, p, i, s, ids)
    ensures p < |t0.pages| == |t0.meta| == |t1.pages| && IsLinked(t0.meta[p]) && t0.meta[p].Linked?
    ensures t0.meta[p].height > 1 && t0.pages[p].Index?
    ensures s < |t0.meta| && t0.meta[s].Linked? && ValidFence(t0.meta[s].fence)
    ensures t0.meta[s].height + 1 == t0.meta[p].height
    ensures Exact(t0.pages[s]) && Capacity(t0.pages[s]) >= MIN_CAPACITY && i < |Entries(t0.pages[p])|
    ensures var o := Split(t0.pages[s], t0.meta[s].fence);
            && Prepared(t0, o, ids) && o.ByVersion? == ids.One?
            && t1 == t0.(pages := t0.pages[p := t1.pages[p]], clock := t0.clock + 1,
                         meta := NewMeta(t0.meta, {s},
                                         Born(Freshes(o, t0.meta[s].fence, ids), t0.clock, t0.meta[p].height - 1),
                                           t0.clock))
  {
    hide InTree, OutcomeComesFrom, SizesAre, Exact, Split, StoredOne, NewMeta, Born, Holding, Freshes, NewEntries;
  }

  lemma OverflowPublishes(t0: Tree, t1: Tree, p: nat, i: nat, s: nat, ids: Ids)
    requires Inv(t0) && OverflowRepair(t0, t1, p, i, s, ids) && UnsafeDegree(t0.pages[s]) == Overflow
    ensures Exact(t0.pages[s]) && Capacity(t0.pages[s]) >= MIN_CAPACITY
    ensures Publishes(t0, t1, p, {i}, Split(t0.pages[s], t0.meta[s].fence), t0.meta[s].fence, ids)
  {
    hide *;
    OverflowShape(t0, t1, p, i, s, ids);
    OverflowStored(t0, t1, p, i, s, ids);
    OverflowSizes(t0, t1, p, i, s, ids);
    OverflowParts(t0, t1, p, i, s, ids);
    SplitParts(t0, s);
    FillKept(t0, p, t1.pages[p]);
    PublishesIntro(t0, t1, p, {i}, Split(t0.pages[s], t0.meta[s].fence), t0.meta[s].fence, ids);
  }

  // ---------------------------------------------------------------- underflow

  ghost predicate UnderflowRepair(t0: Tree, t1: Tree, p: nat, i: nat, s: nat, c: nat, r: nat, ids: Ids) {
    && ChildAt(t0, p, i, s) && ChildAt(t0, p, c, r) && i != c && Adjacent(t0.meta[s].fence, t0.meta[r].fence)
    && MergeOk(t0, s, r) && |t0.pages| == |t0.meta|
    && var o := Merge(t0.pages[s], t0.meta[s].fence, t0.pages[r], t0.meta[r].fence);
       && Prepared(t0, o, ids) && Sum(t0.pages[p]) + 2 <= Capacity(t0.pages[p]) && t0.pages[p].active >= 1
       && var fs := Freshes(o, Merged(t0.meta[s].fence, t0.meta[r].fence), ids);
          t1 == t0.(pages := t0.pages[p := StoredTwo(t0.pages[p], NewEntries(fs, t0.clock), c, i)],
                    clock := t0.clock + 1,
                    meta := NewMeta(t0.meta, {s, r}, Born(fs, t0.clock, t0.meta[p].height - 1), t0.clock))
  }

  lemma UnderflowParts(t0: Tree, t1: Tree, p: nat, i: nat, s: nat, c: nat, r: nat, ids: Ids)
    requires UnderflowRepair(t0, t1, p, i, s, c, r, ids)
    ensures ChildAt(t0, p, i, s) && ChildAt(t0, p, c, r) && MergeOk(t0, s, r)
    ensures p < |t0.pages| == |t0.meta| && s < |t0.pages| && t0.meta[s].Linked? && r < |t0.pages| && t0.meta[r].Linked?
    ensures t0.meta[p].Linked?
    ensures Exact(t0.pages[s]) && Exact(t0.pages[r]) && t0.pages[s].Leaf? == t0.pages[r].Leaf?
    ensures Capacity(t0.pages[s]) >= MIN_CAPACITY
    ensures InTree(t0, s) && InTree(t0, r)
    ensures var o := Merge(t0.pages[s], t0.meta[s].fence, t0.pages[r], t0.meta[r].fence);
            o.ByVersion? == ids.One? && |Freshes(o, Merged(t0.meta[s].fence, t0.meta[r].fence), ids)| <= 2
  {
    hide InTree, OutcomeComesFrom, SizesAre, Exact, Merge, StoredTwo, NewMeta, Born, Holding;
  }

  lemma MergeParts(t: Tree, s: nat, r: nat)
    requires MergeOk(t, s, r) && InTree(t, s) && InTree(t, r) && t.meta[s].height == t.meta[r].height
    ensures Exact(t.pages[s]) && Exact(t.pages[r]) && t.pages[s].Leaf? == t.pages[r].Leaf?
    ensures Capacity(t.pages[s]) >= MIN_CAPACITY
    ensures var o := Merge(t.pages[s], t.meta[s].fence, t.pages[r], t.meta[r].fence);
       && OutcomeComesFrom(t, o, Merged(t.meta[s].fence, t.meta[r].fence), {s, r})
       && SizesAre(o, t.meta[s].height == 1, t.pages[s].active + t.pages[r].active)
       && (o.ByVersion? <==> t.pages[s].active + t.pages[r].active <= 4 * Capacity(t.pages[s]) / 5)
  {
    hide LivePage, OutcomeComesFrom, SizesAre, Exact, Merge, InTree, Merged, Capacity;
  }

  lemma TreeCapacity(t: Tree, s: nat)
    requires InTree(t, s)
    ensures t.pages[s].Leaf? <==> t.meta[s].height == 1
    ensures Capacity(t.pages[s]) == if t.meta[s].height == 1 then t.numRecords else t.fanOut
    ensures Capacity(t.pages[s]) >= MIN_CAPACITY
  {
    LiveCapacity(t, s);
  }

  lemma NotTop(t: Tree, p: nat, i: nat, s: nat)
    requires Inv(t) && ChildAt(t, p, i, s)
    ensures Filling20(Capacity(t.pages[s])) <= t.pages[s].active
  {
    hide AllServe, LivePages, Apart, GraveyardOk, LivePage;
  }

  lemma UnderflowSizes(t0: Tree, t1: Tree, p: nat, i: nat, s: nat, c: nat, r: nat, ids: Ids)
    requires Inv(t0) && UnderflowRepair(t0, t1, p, i, s, c, r, ids) && UnsafeDegree(t0.pages[s]) == ActiveUnderflow
    ensures Exact(t0.pages[s]) && Exact(t0.pages[r]) && t0.pages[s].Leaf? == t0.pages[r].Leaf?
    ensures Capacity(t0.pages[s]) >= MIN_CAPACITY
    ensures SizesFit(Merge(t0.pages[s], t0.meta[s].fence, t0.pages[r], t0.meta[r].fence), t0.meta[s].height == 1, t0)
  {
    hide *;
    UnderflowParts(t0, t1, p, i, s, c, r, ids);
    SameHeight(t0, p, i, s, c, r);
    MergeParts(t0, s, r);
    TreeCapacity(t0, s);
    TreeCapacity(t0, r);
    var o, leaf := Merge(t0.pages[s], t0.meta[s].fence, t0.pages[r], t0.meta[r].fence), t0.meta[s].height == 1;
    DegreeIs(t0.pages[s]);
    DegreeIs(t0.pages[r]);
    NotTop(t0, p, i, s);
    NotTop(t0, p, c, r);
    MergeIsFine(o, leaf, Capacity(t0.pages[s]), t0.pages[s].active, t0.pages[s].dead, t0.pages[r].active);
    SizesFitFrom(o, t0, leaf, t0.pages[s].active + t0.pages[r].active);
  }

  lemma SameHeight(t: Tree, p: nat, i: nat, s: nat, c: nat, r: nat)
    requires ChildAt(t, p, i, s) && ChildAt(t, p, c, r)
    ensures t.meta[s].height == t.meta[r].height
  {
    hide InTree;
  }

  lemma PairActive(es: seq<Entry>, c: nat, i: nat)
    requires i < |es| && es[i].Active() && c < |es| && es[c].Active()
    ensures OldsActive(es, {c, i})
  {
  }

  lemma MergedValid(f: Fence, g: Fence)
    requires ValidFence(f) && ValidFence(g)
    ensures ValidFence(Merged(f, g))
  {
  }

  lemma UnderflowShape(t0: Tree, t1: Tree, p: nat, i: nat, s: nat, c: nat, r: nat, ids: Ids)
    requires UnderflowRepair(t0, t1, p, i, s, c, r, ids)
    ensures p < |t0.pages| == |t0.meta| == |t1.pages| && IsLinked(t0.meta[p]) && t0.meta[p].Linked?
    ensures t0.meta[p].height > 1 && t0.pages[p].Index?
    ensures s < |t0.meta| && t0.meta[s].Linked? && ValidFence(t0.meta[s].fence)
    ensures t0.meta[s].height + 1 == t0.meta[p].height
    ensures r < |t0.meta| && t0.meta[r].Linked? && ValidFence(t0.meta[r].fence)
    ensures Adjacent(t0.meta[s].fence, t0.meta[r].fence)
    ensures i < |Entries(t0.pages[p])| && c < |Entries(t0.pages[p])| && i != c
    ensures Entries(t0.pages[p])[i].Active() && Entries(t0.pages[p])[c].Active()
    ensures Entries(t0.pages[p])[i].fence == t0.meta[s].fence && Entries(t0.pages[p])[i].child == s
    ensures Entries(t0.pages[p])[c].fence == t0.meta[r].fence && Entries(t0.pages[p])[c].child == r
    ensures Sum(t0.pages[p]) + 2 <= Capacity(t0.pages[p]) && t0.pages[p].active >= 1
    ensures |Entries(t0.pages[p])| == Sum(t0.pages[p])
    ensures Exact(t0.pages[s]) && Exact(t0.pages[r]) && t0.pages[s].Leaf? == t0.pages[r].Leaf?
    ensures Capacity(t0.pages[s]) >= MIN_CAPACITY
    ensures var f := Merged(t0.meta[s].fence, t0.meta[r].fence);
            var o := Merge(t0.pages[s], t0.meta[s].fence, t0.pages[r], t0.meta[r].fence);
            && Prepared(t0, o, ids) && o.ByVersion? == ids.One?
            && 1 <= |Freshes(o, f, ids)| <= 2
            && t1.pages[p] == StoredTwo(t0.pages[p], NewEntries(Freshes(o, f, ids), t0.clock), c, i)
            && t1 == t0.(pages := t0.pages[p := t1.pages[p]], clock := t0.clock + 1,
                         meta := NewMeta(t0.meta, {s, r}, Born(Freshes(o, f, ids), t0.clock, t0.meta[p].height - 1),
                                         t0.clock))
  {
    hide InTree, OutcomeComesFrom, SizesAre, Exact, Merge, StoredTwo, NewMeta, Born, Holding, NewEntries, ValidFence;
  }

  lemma UnderflowStored(t0: Tree, t1: Tree, p: nat, i: nat, s: nat, c: nat, r: nat, ids: Ids)
    requires Inv(t0) && UnderflowRepair(t0, t1, p, i, s, c, r, ids)
    ensures Exact(t0.pages[s]) && Exact(t0.pages[r]) && t0.pages[s].Leaf? == t0.pages[r].Leaf?
    ensures Capacity(t0.pages[s]) >= MIN_CAPACITY
    ensures |t1.pages| == |t0.pages|
    ensures var o := Merge(t0.pages[s], t0.meta[s].fence, t0.pages[r], t0.meta[r].fence);
            var f := Merged(t0.meta[s].fence, t0.meta[r].fence);
            var fs := Freshes(o, f, ids); var es := Entries(t0.pages[p]);
            && t1.pages[p].Index? && Capacity(t1.pages[p]) == Capacity(t0.pages[p]) && Exact(t1.pages[p])
            && t1.pages[p].active + 1 >= t0.pages[p].active
            && EntriesReplaced(es, Entries(t1.pages[p]), {c, i}, fs, t0.clock)
            && OldsActive(es, {c, i}) && Children(es, {c, i}) == {s, r}
            && (forall k: nat :: InOlds(es, {c, i}, k) <==> Contains(f, k)) && ValidFence(f)
  {
    hide *;
    UnderflowShape(t0, t1, p, i, s, c, r, ids);
    ParentFromInv(t0, p);
    LiveCapacity(t0, p);
    var o := Merge(t0.pages[s], t0.meta[s].fence, t0.pages[r], t0.meta[r].fence);
    var f := Merged(t0.meta[s].fence, t0.meta[r].fence);
    MergedValid(t0.meta[s].fence, t0.meta[r].fence);
    StoredTwoReplaces(t0.pages[p], Freshes(o, f, ids), t0.clock, c, i);
    PairActive(Entries(t0.pages[p]), c, i);
    TwoOlds(Entries(t0.pages[p]), i, c);
  }

  lemma UnderflowPublishes(t0: Tree, t1: Tree, p: nat, i: nat, s: nat, c: nat, r: nat, ids: Ids)
    requires Inv(t0) && UnderflowRepair(t0, t1, p, i, s, c, r, ids) && UnsafeDegree(t0.pages[s]) == ActiveUnderflow
    requires |t0.roots| > 0 && (p == Top(t0).page || UnsafeDegree(t0.pages[p]) == Fine)
    ensures Exact(t0.pages[s]) && Exact(t0.pages[r]) && t0.pages[s].Leaf? == t0.pages[r].Leaf?
    ensures Capacity(t0.pages[s]) >= MIN_CAPACITY
    ensures Publishes(t0, t1, p, {c, i}, Merge(t0.pages[s], t0.meta[s].fence, t0.pages[r], t0.meta[r].fence),
                      Merged(t0.meta[s].fence, t0.meta[r].fence), ids)
  {
    hide *;
    UnderflowShape(t0, t1, p, i, s, c, r, ids);
    UnderflowStored(t0, t1, p, i, s, c, r, ids);
    UnderflowSizes(t0, t1, p, i, s, c, r, ids);
    UnderflowParts(t0, t1, p, i, s, c, r, ids);
    SameHeight(t0, p, i, s, c, r);
    MergeParts(t0, s, r);
    if p != Top(t0).page { FillKept(t0, p, t1.pages[p]); }
    PublishesIntro(t0, t1, p, {c, i}, Merge(t0.pages[s], t0.meta[s].fence, t0.pages[r], t0.meta[r].fence),
                   Merged(t0.meta[s].fence, t0.meta[r].fence), ids);
  }

  /** Merging an underflowing child with its neighbour keeps the invariant and makes the way down safe. */
  lemma UnderflowKeepsInv(t0: Tree, t1: Tree, p: nat, i: nat, s: nat, c: nat, r: nat, ids: Ids)
    requires Inv(t0) && UnderflowRepair(t0, t1, p, i, s, c, r, ids) && UnsafeDegree(t0.pages[s]) == ActiveUnderflow
    requires |t0.roots| > 0 && (p == Top(t0).page || UnsafeDegree(t0.pages[p]) == Fine)
    ensures Inv(t1)
    ensures s < |t0.meta| && t0.meta[s].Linked?
    ensures forall k: nat :: Contains(t0.meta[s].fence, k) ==> SafeBelow(t1, p, k)
  {
    UnderflowPublishes(t0, t1, p, i, s, c, r, ids);
    UnderflowParts(t0, t1, p, i, s, c, r, ids);
    hide SafeBelow, Inv, Publishes, Merge, MergeOk, InTree, ChildAt, UnderflowRepair, Exact;
    PublishKeepsInv(t0, t1, p, {c, i}, Merge(t0.pages[s], t0.meta[s].fence, t0.pages[r], t0.meta[r].fence),
                    Merged(t0.meta[s].fence, t0.meta[r].fence), ids);
  }

  /** The parent stays the page it was, and the replaced child is marked dead at the drawn version. */
  lemma OverflowMeta(t0: Tree, t1: Tree, p: nat, i: nat, s: nat, ids: Ids)
    requires OverflowRepair(t0, t1, p, i, s, ids)
    ensures p < |t1.meta| == |t0.meta| && t1.meta[p] == t0.meta[p] && |t1.pages| == |t0.pages| && t1.pages[p].Index?
    ensures s < |t1.meta| && t0.meta[s].Linked? && t1.meta[s] == t0.meta[s].(death := Some(t0.clock))
    ensures Keeps(t0, t1)
  {
    hide *;
    OverflowParts(t0, t1, p, i, s, ids);
    OverflowShape(t0, t1, p, i, s, ids);
    OverflowIndexes(t0, t1, p, i, s, ids);
    ChildLinked(t0, p, i, s);
    var o, h := Split(t0.pages[s], t0.meta[s].fence), t0.meta[p].height - 1;
    BornUnlinked(t0, o, t0.meta[s].fence, ids, h);
    NewMetaAt(t0.meta, {s}, Born(Freshes(o, t0.meta[s].fence, ids), t0.clock, h), t0.clock, p);
    NewMetaAt(t0.meta, {s}, Born(Freshes(o, t0.meta[s].fence, ids), t0.clock, h), t0.clock, s);
    NewMetaKeeps(t0, t1, {s}, Born(Freshes(o, t0.meta[s].fence, ids), t0.clock, h));
  }

  lemma OverflowIndexes(t0: Tree, t1: Tree, p: nat, i: nat, s: nat, ids: Ids)
    requires OverflowRepair(t0, t1, p, i, s, ids)
    ensures p < |t1.pages| && t1.pages[p].Index?
  {
    hide InTree, OutcomeComesFrom, SizesAre, Exact, Split, NewMeta, Born, Holding;
  }

  lemma BornUnlinked(t: Tree, o: Outcome, f: Fence, ids: Ids, h: nat)
    requires Prepared(t, o, ids)
    ensures o.ByVersion? == ids.One?
    ensures forall b :: b in Born(Freshes(o, f, ids), t.clock, h) ==> b < |t.meta| && t.meta[b] == Unlinked
  {
    var fs := Freshes(o, f, ids);
    assert forall j :: 0 <= j < |fs| ==> fs[j].page < |t.meta| && t.meta[fs[j].page] == Unlinked;
    hide Holding, Freshes, Prepared;
    BornEntries(fs, t.clock, h);
    hide Born;
    forall b | b in Born(fs, t.clock, h) ensures b < |t.meta| && t.meta[b] == Unlinked {
      assert IsFresh(fs, b);
    }
  }

  lemma NewMetaAt(m: seq<Meta>, dying: set<nat>, born: map<nat, Meta>, w: nat, i: nat)
    requires i < |m| && IsLinked(m[i]) && (forall b :: b in born ==> b < |m| && m[b] == Unlinked)
    ensures |NewMeta(m, dying, born, w)| == |m|
    ensures NewMeta(m, dying, born, w)[i] == if i in dying then m[i].(death := Some(w)) else m[i]
  {
  }

  lemma ChildLinked(t: Tree, p: nat, i: nat, s: nat)
    requires ChildAt(t, p, i, s)
    ensures s < |t.meta| && IsLinked(t.meta[s]) && t.meta[s].Linked? && p != s
    ensures p < |t.meta| && IsLinked(t.meta[p])
  {
    hide LivePage;
  }

  lemma UnderflowMeta(t0: Tree, t1: Tree, p: nat, i: nat, s: nat, c: nat, r: nat, ids: Ids)
    requires UnderflowRepair(t0, t1, p, i, s, c, r, ids)
    ensures p < |t1.meta| == |t0.meta| && t1.meta[p] == t0.meta[p] && |t1.pages| == |t0.pages| && t1.pages[p].Index?
    ensures s < |t1.meta| && t0.meta[s].Linked? && t1.meta[s] == t0.meta[s].(death := Some(t0.clock))
    ensures r < |t1.meta| && t0.meta[r].Linked? && t1.meta[r] == t0.meta[r].(death := Some(t0.clock)) && r != s
    ensures Keeps(t0, t1)
  {
    hide *;
    UnderflowParts(t0, t1, p, i, s, c, r, ids);
    UnderflowShape(t0, t1, p, i, s, c, r, ids);
    ChildLinked(t0, p, i, s);
    ChildLinked(t0, p, c, r);
    StoredTwoIndex(t0.pages[p],
                   NewEntries(Freshes(Merge(t0.pages[s], t0.meta[s].fence, t0.pages[r], t0.meta[r].fence),
                                      Merged(t0.meta[s].fence, t0.meta[r].fence), ids), t0.clock), c, i);
    NeighboursDiffer(t0.meta[s].fence, t0.meta[r].fence);
    var o, h := Merge(t0.pages[s], t0.meta[s].fence, t0.pages[r], t0.meta[r].fence), t0.meta[p].height - 1;
    var f := Merged(t0.meta[s].fence, t0.meta[r].fence);
    BornUnlinked(t0, o, f, ids, h);
    NewMetaAt(t0.meta, {s, r}, Born(Freshes(o, f, ids), t0.clock, h), t0.clock, p);
    NewMetaAt(t0.meta, {s, r}, Born(Freshes(o, f, ids), t0.clock, h), t0.clock, s);
    NewMetaAt(t0.meta, {s, r}, Born(Freshes(o, f, ids), t0.clock, h), t0.clock, r);
    NewMetaKeeps(t0, t1, {s, r}, Born(Freshes(o, f, ids), t0.clock, h));
  }

  lemma StoredTwoIndex(p: Page, news: seq<Entry>, sibling: nat, i: nat)
    requires p.Index? && 1 <= |news| <= 2 && i < Sum(p) && sibling < Sum(p) && Sum(p) + |news| <= Capacity(p)
    requires p.active >= 1
    ensures StoredTwo(p, news, sibling, i).Index?
  {
  }

  lemma NeighboursDiffer(f: Fence, g: Fence)
    requires Adjacent(f, g) && ValidFence(f) && ValidFence(g)
    ensures f != g
  {
  }

  // ---------------------------------------------------------------- there is always a neighbour

  /** A safe parent has a key neighbour for every active child. */
  lemma SafeParentHasNeighbour(t: Tree, p: nat, i: nat)
    requires Inv(t) && Steady(t, p) && t.meta[p].height > 1
    requires i < |Entries(t.pages[p])| && Entries(t.pages[p])[i].Active()
    ensures var es := Entries(t.pages[p]); var c := Candidate(es, i);
            && c.Some? && c.value < |es| && c.value != i && es[c.value].Active()
            && Adjacent(es[i].fence, es[c.value].fence)
            && (if es[i].fence.upper < t.meta[p].fence.upper then es[c.value].fence.lower == es[i].fence.upper + 1
                else es[c.value].fence.upper + 1 == es[i].fence.lower)
  {
    ParentFromInv(t, p);
    ParentFence(t, p);
    SteadyMany(t, p);
    hide Inv, LivePage, Steady, ParentOk, Candidate, Filter, ActiveTiles;
    if Entries(t.pages[p])[i].fence == t.meta[p].fence {
      SpanningIsAlone(Entries(t.pages[p]), t.meta[p].fence, i);
    }
    CandidateIsAdjacent(Entries(t.pages[p]), t.meta[p].fence, i);
  }

  lemma ParentFence(t: Tree, p: nat)
    requires Inv(t) && p < |t.meta| && t.meta[p].Linked? && ParentOk(t, p)
    ensures ValidFence(t.meta[p].fence) && ActiveTiles(Entries(t.pages[p]), t.meta[p].fence)
  {
    hide AllServe, LivePages, Apart, GraveyardOk, RootsOk, FillOk, ActiveTiles, ChildrenOk;
  }

  lemma SteadyMany(t: Tree, p: nat)
    requires Inv(t) && Steady(t, p) && t.meta[p].height > 1
    requires LivePage(t, t.pages[p], t.meta[p].fence, t.meta[p].height)
    ensures |Filter(IsActive, Entries(t.pages[p]))| != 1
  {
    hide AllServe, LivePages, Apart, GraveyardOk, RootsOk, FillOk, IndexGood, Filter;
  }
}
