/**
 One repair of the root, as a change of the whole tree: an overflowing root is split, a root with
 a single child gives way to a split of that child.
 */
module RootRepairs {
  import opened Util
  import opened Fences
  import opened History
  import opened Pages
  import opened Fill
  import opened Smo
  import opened TreeModel
  import opened LeafWrites
  import opened Reorg
  import opened ParentReorg
  import opened NewPages
  import opened RootReorg
  import opened Publish
  import opened PublishRoot
  import opened Repairs
  import opened Snapshots

  ghost predicate RootUnsafe(t: Tree, s: nat) {
    && |t.roots| > 0 && Top(t).page < |t.pages| && s < |t.pages|
    && if s == Top(t).page then UnsafeDegreeRoot(t.pages[s]) == Overflow
      else UnsafeDegreeRoot(t.pages[Top(t).page]) == ActiveUnderflow
  }

  ghost predicate RootRepair(t0: Tree, t1: Tree, s: nat, ids: Ids, root: nat) {
    && |t0.meta| == |t0.pages| && RootSource(t0, s) && InTree(t0, s) && SplitOk(t0, s)
    && var o := Split(t0.pages[s], FULL);
       && Prepared(t0, o, ids) && RootReady(t0, o, ids, root)
       && var n := NewRootOf(o, ids, root);
          t1 == t0.(clock := t0.clock + 1,
                    roots := t0.roots + [Root(RootPage(n), t0.clock, RootHeight(n, t0.meta[s].height))],
                    meta := NewMeta(t0.meta, {Top(t0).page, s}, BornRoot(n, t0.clock, t0.meta[s].height), t0.clock))
  }

  /** More than one live unit is left for a copy of an index root. */
  lemma SourceIsBig(t: Tree, s: nat)
    requires Inv(t) && RootSource(t, s) && InTree(t, s) && RootUnsafe(t, s)
    ensures t.meta[s].height > 1 ==> t.pages[s].active > 1
  {
    hide AllServe, Apart, GraveyardOk, LivePages;
    if t.meta[s].height > 1 && s == Top(t).page {
      LastIsActive(t, s);
    }
  }

  lemma LastIsActive(t: Tree, p: nat)
    requires InTree(t, p) && t.meta[p].height > 1
    ensures t.pages[p].active >= 1
  {
    var es := Entries(t.pages[p]);
    assert es[|es| - 1] in Filter(IsActive, es);
  }

  lemma RootSizesFrom(t: Tree, o: Outcome, leaf: bool, m: nat, active: nat)
    requires m >= MIN_CAPACITY && active <= m && SizesAre(o, leaf, active)
    requires m == (if leaf then t.numRecords else t.fanOut)
    requires (o.ByKey? <==> active >= Filling80(m)) && (leaf || active > 1)
    ensures RootSizes(t, o, leaf)
  {
    if o.ByKey? { KeySplitHalves(leaf, m, active); }
  }

  lemma RootRepairSizes(t0: Tree, t1: Tree, s: nat, ids: Ids, root: nat)
    requires Inv(t0) && RootRepair(t0, t1, s, ids, root) && RootUnsafe(t0, s)
    ensures s < |t0.pages| && s < |t0.meta| && t0.meta[s].Linked? && Exact(t0.pages[s])
    ensures Capacity(t0.pages[s]) >= MIN_CAPACITY
    ensures RootSizes(t0, Split(t0.pages[s], FULL), t0.meta[s].height == 1)
    ensures OutcomeComesFrom(t0, Split(t0.pages[s], FULL), FULL, {s})
  {
    RootRepairParts(t0, t1, s, ids, root);
    hide *;
    SourceIsBig(t0, s);
    SplitParts(t0, s);
    TreeCapacity(t0, s);
    DegreeIs(t0.pages[s]);
    RootSizesFrom(t0, Split(t0.pages[s], FULL), t0.meta[s].height == 1, Capacity(t0.pages[s]), t0.pages[s].active);
  }

  lemma RootRepairParts(t0: Tree, t1: Tree, s: nat, ids: Ids, root: nat)
    requires RootRepair(t0, t1, s, ids, root)
    ensures s < |t0.pages| && s < |t0.meta| && t0.meta[s].Linked? && Exact(t0.pages[s])
    ensures Capacity(t0.pages[s]) >= MIN_CAPACITY
    ensures RootSource(t0, s) && InTree(t0, s) && SplitOk(t0, s) && t0.meta[s].fence == FULL
  {
    hide InTree, OutcomeComesFrom, SizesAre, Exact, Split, Holding;
  }

  lemma RootRepairPublishes(t0: Tree, t1: Tree, s: nat, ids: Ids, root: nat)
    requires Inv(t0) && RootRepair(t0, t1, s, ids, root) && RootUnsafe(t0, s)
    ensures s < |t0.pages| && Exact(t0.pages[s]) && Capacity(t0.pages[s]) >= MIN_CAPACITY
    ensures PublishesRoot(t0, t1, s, Split(t0.pages[s], FULL), ids, root)
  {
    RootRepairSizes(t0, t1, s, ids, root);
    hide InTree, OutcomeComesFrom, RootSizes, Inv, Prepared, RootReady, SplitOk;
    hide NewMeta, BornRoot, RootSource, RootUnsafe, Split, Exact;
  }

  /** Repairing the root keeps the invariant and leaves a safe root. */
  lemma RootRepairKeepsInv(t0: Tree, t1: Tree, s: nat, ids: Ids, root: nat)
    requires Inv(t0) && RootRepair(t0, t1, s, ids, root) && RootUnsafe(t0, s)
    ensures Inv(t1) && |t1.roots| > 0 && Steady(t1, Top(t1).page)
  {
    RootRepairPublishes(t0, t1, s, ids, root);
    hide *;
    PublishRootKeepsInv(t0, t1, s, Split(t0.pages[s], FULL), ids, root);
    InvParts(t1);
    TopLinked(t1);
  }

  /** The replaced page is marked dead at the drawn version. */
  lemma RootRepairMeta(t0: Tree, t1: Tree, s: nat, ids: Ids, root: nat)
    requires RootRepair(t0, t1, s, ids, root) && MetaOk(t0) && RootsOk(t0)
    ensures s < |t0.meta| == |t1.meta| && t0.meta[s].Linked? && IsLinked(t0.meta[s])
    ensures t1.meta[s] == t0.meta[s].(death := Some(t0.clock))
    ensures |t1.roots| == |t0.roots| + 1 && Keeps(t0, t1)
  {
    hide *;
    RootRepairParts(t0, t1, s, ids, root);
    RootRepairShape(t0, t1, s, ids, root);
    var n := NewRootOf(Split(t0.pages[s], FULL), ids, root);
    BornRootUnlinked(t0, Split(t0.pages[s], FULL), ids, root, t0.meta[s].height);
    NewMetaAt(t0.meta, {Top(t0).page, s}, BornRoot(n, t0.clock, t0.meta[s].height), t0.clock, s);
    NewMetaKeeps(t0, t1, {Top(t0).page, s}, BornRoot(n, t0.clock, t0.meta[s].height));
  }

  lemma RootRepairShape(t0: Tree, t1: Tree, s: nat, ids: Ids, root: nat)
    requires RootRepair(t0, t1, s, ids, root) && RootsOk(t0)
    ensures s < |t0.pages| == |t0.meta| && IsLinked(t0.meta[s]) && t0.meta[s].Linked? && |t0.roots| > 0
    ensures Exact(t0.pages[s]) && Capacity(t0.pages[s]) >= MIN_CAPACITY
    ensures Split(t0.pages[s], FULL).ByVersion? == ids.One?
    ensures Prepared(t0, Split(t0.pages[s], FULL), ids) && RootReady(t0, Split(t0.pages[s], FULL), ids, root)
    ensures t1.meta == NewMeta(t0.meta, {Top(t0).page, s},
                               BornRoot(NewRootOf(Split(t0.pages[s], FULL), ids, root), t0.clock, t0.meta[s].height),
                                 t0.clock)
    ensures |t1.roots| == |t0.roots| + 1 && Top(t0).page < |t0.meta| && IsLinked(t0.meta[Top(t0).page])
    ensures t1.clock == t0.clock + 1 && t1.horizon == t0.horizon && t1.history == t0.history
  {
    RootRepairParts(t0, t1, s, ids, root);
    hide InTree, SplitOk, Split, Holding, Exact, NewMeta, BornRoot, RootServes, Prepared, RootReady;
  }

  lemma BornRootUnlinked(t: Tree, o: Outcome, ids: Ids, root: nat, h: nat)
    requires Prepared(t, o, ids) && RootReady(t, o, ids, root) && o.ByVersion? == ids.One?
    ensures forall b :: b in BornRoot(NewRootOf(o, ids, root), t.clock, h) ==> b < |t.meta| && t.meta[b] == Unlinked
  {
    hide Holding;
    var n := NewRootOf(o, ids, root);
    if n.Copied? {
      assert Ready(t, ids.page, o.copy);
    } else {
      assert Ready(t, ids.left, o.left) && Ready(t, ids.right, o.right);
    }
    forall b | b in BornRoot(n, t.clock, h) ensures b < |t.meta| && t.meta[b] == Unlinked {
      assert if n.Copied? then b == n.page else b == n.left || b == n.right || b == n.root;
    }
  }

  lemma TopLinked(t: Tree)
    requires RootsOk(t) && MetaOk(t) && |t.roots| > 0 && Top(t).page < |t.pages|
    ensures Top(t).page < |t.meta| && IsLinked(t.meta[Top(t).page])
    ensures t.meta[Top(t).page].fence == FULL && t.meta[Top(t).page].height == Top(t).height
    ensures UnsafeDegreeRoot(t.pages[Top(t).page]) == Fine ==> Steady(t, Top(t).page)
  {
  }

  lemma LastActive(t: Tree, p: nat)
    requires ParentOk(t, p)
    ensures |Entries(t.pages[p])| > 0 && Entries(t.pages[p])[|Entries(t.pages[p])| - 1].Active()
    ensures ActiveTiles(Entries(t.pages[p]), t.meta[p].fence)
  {
  }

  /** The last child of a root with one active entry spans the whole key space. */
  lemma SingleChildSpans(t: Tree)
    requires Inv(t) && |t.roots| > 0 && Top(t).page < |t.pages|
    requires UnsafeDegreeRoot(t.pages[Top(t).page]) == ActiveUnderflow
    ensures var es := Entries(t.pages[Top(t).page]);
            && |es| > 0 && ChildAt(t, Top(t).page, |es| - 1, es[|es| - 1].child)
            && RootSource(t, es[|es| - 1].child) && es[|es| - 1].child != Top(t).page
            && es[|es| - 1].child < |t.pages| && InTree(t, es[|es| - 1].child)
  {
    var p := Top(t).page;
    InvParts(t);
    TopLinked(t);
    RootIsIndex(t);
    hide *;
    ParentFromInv(t, p);
    LastActive(t, p);
    var es := Entries(t.pages[p]);
    ActiveChild(t, p, |es| - 1);
    OnlyActiveSpans(es, t.meta[p].fence, |es| - 1);
    SpanningChild(t, |es| - 1, es[|es| - 1].child);
  }

  lemma SpanningChild(t: Tree, i: nat, s: nat)
    requires |t.roots| > 0 && Top(t).page < |t.meta| && t.meta[Top(t).page].Linked?
    requires t.meta[Top(t).page].height == Top(t).height
    requires ChildAt(t, Top(t).page, i, s) && Entries(t.pages[Top(t).page])[i].fence == FULL
    ensures RootSource(t, s) && s != Top(t).page && s < |t.pages| && InTree(t, s)
  {
  }

  lemma RootIsIndex(t: Tree)
    requires Inv(t) && |t.roots| > 0 && Top(t).page < |t.pages|
    requires UnsafeDegreeRoot(t.pages[Top(t).page]) == ActiveUnderflow
    ensures Top(t).page < |t.meta| && t.meta[Top(t).page].Linked? && t.meta[Top(t).page].height > 1
    ensures |Filter(IsActive, Entries(t.pages[Top(t).page]))| == 1
    ensures t.meta[Top(t).page].fence == FULL && ValidFence(FULL)
  {
    hide AllServe, Apart, GraveyardOk, RootServes;
    assert LivePage(t, t.pages[Top(t).page], t.meta[Top(t).page].fence, t.meta[Top(t).page].height);
  }

  lemma {:induction false} FilterOneAt(es: seq<Entry>, i: nat, j: nat)
    requires i < j < |es| && es[i].Active() && es[j].Active()
    ensures |Filter(IsActive, es)| >= 2
  {
    var left, right := es[..j], es[j..];
    assert es == left + right && es[i] == left[i] && es[j] == right[0];
    FilterConcat(IsActive, left, right);
    assert left[i] in Filter(IsActive, left) && right[0] in Filter(IsActive, right);
  }

  lemma OnlyActiveSpans(es: seq<Entry>, f: Fence, i: nat)
    requires ActiveTiles(es, f) && ValidFence(f) && i < |es| && es[i].Active() && |Filter(IsActive, es)| == 1
    ensures es[i].fence == f
  {
    hide Filter;
    assert ActiveAt(es, f.lower) && ActiveAt(es, f.upper);
    var a :| 0 <= a < |es| && es[a].Active() && Contains(es[a].fence, f.lower);
    var b :| 0 <= b < |es| && es[b].Active() && Contains(es[b].fence, f.upper);
    OnlyAt(es, i, a);
    OnlyAt(es, i, b);
  }

  lemma OnlyAt(es: seq<Entry>, i: nat, j: nat)
    requires |Filter(IsActive, es)| == 1 && i < |es| && j < |es| && es[i].Active() && es[j].Active()
    ensures i == j
  {
    if i < j { FilterOneAt(es, i, j); }
    if j < i { FilterOneAt(es, j, i); }
  }
}
