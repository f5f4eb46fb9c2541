/**
 From the pages a split of the root, or of its single child, filled to the next state of the tree.
 */
module PublishRoot {
  import opened Util
  import opened Fences
  import opened History
  import opened Pages
  import opened Fill
  import opened Smo
  import opened TreeModel
  import opened LeafWrites
  import opened Reorg
  import opened ParentReorg
  import opened NewPages
  import opened RootReorg
  import opened Publish

  function NewRootOf(o: Outcome, ids: Ids, root: nat): NewRoot
    requires o.ByVersion? == ids.One?
  {
    if o.ByVersion? then Copied(ids.page) else NewRoot.Cut(o.leftFence, ids.left, o.rightFence, ids.right, root)
  }

  /** The page above two halves, filled but not yet reachable. */
  ghost predicate RootReady(t: Tree, o: Outcome, ids: Ids, root: nat) {
    o.ByKey? ==>
      && ids.Two? && root != ids.left && root != ids.right && root < |t.pages| && root < |t.meta|
      && t.meta[root] == Unlinked
      && Holding(t, t.pages[root],
                 EntryBody([Entry(o.leftFence, t.clock, false, ids.left),
                            Entry(o.rightFence, t.clock, false, ids.right)]))
  }

  /** The halves of a cut are safe pages, a copy is a safe root. */
  ghost predicate RootSizes(t: Tree, o: Outcome, leaf: bool) {
    var m := if leaf then t.numRecords else t.fanOut;
    match o
    case ByVersion(copy) => copy.RecordBody? == leaf && Size(copy) < Filling80(m) && (leaf || Size(copy) > 1)
    case ByKey(_, left, _, right) => left.RecordBody? == leaf && right.RecordBody? == leaf && FineOutcome(o, leaf, m)
  }

  ghost predicate PublishesRoot(t0: Tree, t1: Tree, s: nat, o: Outcome, ids: Ids, root: nat) {
    && |t0.meta| == |t0.pages| && RootSource(t0, s) && InTree(t0, s)
    && OutcomeComesFrom(t0, o, FULL, {s}) && RootSizes(t0, o, t0.meta[s].height == 1)
    && Prepared(t0, o, ids) && RootReady(t0, o, ids, root)
    && var n := NewRootOf(o, ids, root);
       t1 == t0.(clock := t0.clock + 1,
                 roots := t0.roots + [Root(RootPage(n), t0.clock, RootHeight(n, t0.meta[s].height))],
                 meta := NewMeta(t0.meta, {Top(t0).page, s}, BornRoot(n, t0.clock, t0.meta[s].height), t0.clock))
  }

  lemma PublishedRootReplaces(t0: Tree, t1: Tree, s: nat, o: Outcome, ids: Ids, root: nat)
    requires RootsOk(t0) && PublishesRoot(t0, t1, s, o, ids, root) && MetaOk(t0)
    ensures RootReplaces(t0, t1, s, NewRootOf(o, ids, root))
  {
    hide *;
    BornRootLinked(t0, t1, s, o, ids, root);
    PublishedShape(t0, t1, s, o, ids, root);
    NewRootIds(o, ids, root);
    var n := NewRootOf(o, ids, root);
    RootMetaReady(t0.meta, Top(t0).page, s, BornRoot(n, t0.clock, t0.meta[s].height), t0.clock);
    NewMetaStep(t0.meta, {Top(t0).page, s}, BornRoot(n, t0.clock, t0.meta[s].height), t0.clock);
    RootReplacesIs(t0, t1, s, n);
  }

  lemma RootMetaReady(m: seq<Meta>, a: nat, b: nat, born: map<nat, Meta>, w: nat)
    requires a < |m| && IsLinked(m[a]) && b < |m| && IsLinked(m[b])
    requires forall i :: i in born ==> i < |m| && m[i] == Unlinked && IsLinked(born[i]) && born[i].birth == w
                                       && ValidFence(born[i].fence) && born[i].height >= 1
    ensures MetaReady(m, {a, b}, born, w)
  {
  }

  lemma PublishedShape(t0: Tree, t1: Tree, s: nat, o: Outcome, ids: Ids, root: nat)
    requires RootsOk(t0) && PublishesRoot(t0, t1, s, o, ids, root) && MetaOk(t0)
    ensures o.ByVersion? == ids.One? && (o.ByKey? ==> Smo.Cut(FULL, o.leftFence, o.rightFence))
    ensures RootSource(t0, s) && |t0.meta| == |t0.pages| && |t0.roots| > 0 && s < |t0.meta| && t0.meta[s].Linked?
    ensures var n := NewRootOf(o, ids, root);
            && t1 == t0.(clock := t0.clock + 1,
                         roots := t0.roots + [Root(RootPage(n), t0.clock, RootHeight(n, t0.meta[s].height))],
                         meta := NewMeta(t0.meta, {Top(t0).page, s}, BornRoot(n, t0.clock, t0.meta[s].height),
                                         t0.clock))
            && Top(t0).page < |t0.meta| && IsLinked(t0.meta[Top(t0).page]) && IsLinked(t0.meta[s])
  {
    CutParts(t0, o, FULL, {s});
    hide Prepared, InTree, RootSizes, RootServes, OutcomeComesFrom, RootReady, ValidFence, MetaOk, BornRoot, NewMeta;
  }

  lemma RootReplacesIs(t0: Tree, t1: Tree, s: nat, n: NewRoot)
    requires RootSource(t0, s) && |t0.meta| == |t0.pages| && |t0.roots| > 0 && s < |t0.meta| && t0.meta[s].Linked?
    requires n.Cut? ==>
               Smo.Cut(FULL, n.leftFence, n.rightFence) && n.left != n.right && n.left != n.root && n.right != n.root
    requires var m1 := NewMeta(t0.meta, {Top(t0).page, s}, BornRoot(n, t0.clock, t0.meta[s].height), t0.clock);
             && MetaStep(t0.meta, m1, {Top(t0).page, s}, BornRoot(n, t0.clock, t0.meta[s].height), t0.clock)
             && t1 == t0.(clock := t0.clock + 1,
                          roots := t0.roots + [Root(RootPage(n), t0.clock, RootHeight(n, t0.meta[s].height))],
                            meta := m1)
    ensures RootReplaces(t0, t1, s, n)
  {
    hide MetaStep, BornRoot, NewMeta, RootSource;
  }

  lemma BornRootLinked(t0: Tree, t1: Tree, s: nat, o: Outcome, ids: Ids, root: nat)
    requires PublishesRoot(t0, t1, s, o, ids, root) && MetaOk(t0)
    ensures var n := NewRootOf(o, ids, root);
            var born := BornRoot(n, t0.clock, t0.meta[s].height);
            && (forall i :: i in born ==>
              i < |t0.meta| && t0.meta[i] == Unlinked && IsLinked(born[i]) && born[i].birth == t0.clock
              && ValidFence(born[i].fence) && born[i].height >= 1)
            && (n.Cut? ==> n.left != n.right && n.left != n.root && n.right != n.root)
  {
    PublishedIds(t0, t1, s, o, ids, root);
    BornRootIs(NewRootOf(o, ids, root), t0.clock, t0.meta[s].height);
    hide *;
    NewRootIds(o, ids, root);
  }

  lemma NewRootIds(o: Outcome, ids: Ids, root: nat)
    requires o.ByVersion? == ids.One?
    ensures var n := NewRootOf(o, ids, root);
            && n.Copied? == o.ByVersion? && (n.Copied? ==> n.page == ids.page)
            && (n.Cut? ==>
              n.leftFence == o.leftFence && n.rightFence == o.rightFence && n.left == ids.left && n.right == ids.right
              && n.root == root)
  {
  }

  lemma BornRootIs(n: NewRoot, w: nat, h: nat)
    requires h >= 1 && (n.Cut? ==> Smo.Cut(FULL, n.leftFence, n.rightFence))
    ensures var born := BornRoot(n, w, h);
            && (forall i :: i in born ==>
                (if n.Copied? then i == n.page else i == n.left || i == n.right || i == n.root))
            && forall i :: i in born ==>
              IsLinked(born[i]) && born[i].birth == w && ValidFence(born[i].fence) && born[i].height >= 1
  {
  }

  lemma PublishedIds(t0: Tree, t1: Tree, s: nat, o: Outcome, ids: Ids, root: nat)
    requires PublishesRoot(t0, t1, s, o, ids, root) && MetaOk(t0)
    ensures s < |t0.meta| && t0.meta[s].Linked? && t0.meta[s].height >= 1 && |t0.pages| == |t0.meta|
    ensures o.ByVersion? == ids.One? && (o.ByKey? ==> Smo.Cut(FULL, o.leftFence, o.rightFence))
    ensures ids.One? ==> ids.page < |t0.meta| && t0.meta[ids.page] == Unlinked
    ensures ids.Two? ==>
              ids.left < |t0.meta| && t0.meta[ids.left] == Unlinked && ids.right < |t0.meta|
              && t0.meta[ids.right] == Unlinked
    ensures ids.Two? ==>
              root < |t0.meta| && t0.meta[root] == Unlinked && ids.left != ids.right && root != ids.left
              && root != ids.right
  {
    hide InTree, RootSizes, OutcomeComesFrom, Holding, NewMeta, BornRoot;
    CutParts(t0, o, FULL, {s});
  }

  lemma CutParts(t: Tree, o: Outcome, f: Fence, srcs: set<nat>)
    requires OutcomeComesFrom(t, o, f, srcs)
    ensures o.ByKey? ==> Smo.Cut(f, o.leftFence, o.rightFence)
  {
    hide ComesFrom, GoodBody;
  }

  ghost function PartFence(o: Outcome, j: nat): Fence {
    if o.ByVersion? then FULL else if j == 0 then o.leftFence else o.rightFence
  }

  ghost function PartPage(ids: Ids,
                          j: nat): nat { if ids.One? then ids.page else if j == 0 then ids.left else ids.right }

  lemma PartFacts(t0: Tree, t1: Tree, s: nat, o: Outcome, ids: Ids, root: nat, j: nat)
    requires MetaOk(t0) && PublishesRoot(t0, t1, s, o, ids, root) && t0.fanOut >= MIN_CAPACITY
    ensures var b, f, id, h := BodyOf(o, j), PartFence(o, j), PartPage(ids, j), t0.meta[s].height;
            && GoodBody(b, f) && ComesFrom(t0, b, f, {s}) && b.RecordBody? == (h == 1) && h >= 1
            && (h > 1 ==> Size(b) > 0)
            && id < |t1.pages| == |t1.meta| && t1.meta[id] == Linked(f, t0.clock, None, h)
            && Holding(t1, t1.pages[id], b)
            && Sources(t0, {s}, h) && t1.clock == t0.clock + 1 && t1.history == t0.history
            && (o.ByKey? ==> IsFine(h == 1, if h == 1 then t0.numRecords else t0.fanOut, Size(b)))
  {
    hide ComesFrom, GoodBody, LivePage, ValidFence;
  }

  lemma BelowRootStays(t0: Tree, t1: Tree, s: nat, o: Outcome, ids: Ids, root: nat)
    requires MetaOk(t0) && RootsOk(t0) && PublishesRoot(t0, t1, s, o, ids, root)
    ensures forall c :: 0 <= c < |t0.meta| && IsLinked(t0.meta[c]) && t0.meta[c].height + 1 == t0.meta[s].height ==>
              c < |t1.meta| && t1.meta[c] == t0.meta[c]
  {
    hide ComesFrom, GoodBody, LivePage, ValidFence, Holding, RootServes, RootSizes;
  }

  lemma RootParts(t0: Tree, t1: Tree, s: nat, o: Outcome, ids: Ids, root: nat)
    requires Inv(t0) && PublishesRoot(t0, t1, s, o, ids, root)
    ensures |t0.meta| == |t0.pages| && s < |t0.meta| && t0.meta[s].Linked? && o.ByVersion? == ids.One?
    ensures MetaOk(t0) && RootsOk(t0) && t0.fanOut >= MIN_CAPACITY && t0.numRecords >= MIN_CAPACITY
    ensures t1.clock == t0.clock + 1
  {
    hide ComesFrom, GoodBody, LivePage, ValidFence, Holding, RootSizes, LivePages, AllServe, Apart, GraveyardOk;
  }

  lemma PartNewborn(t0: Tree, t1: Tree, s: nat, o: Outcome, ids: Ids, root: nat, j: nat)
    requires Inv(t0) && PublishesRoot(t0, t1, s, o, ids, root)
    ensures Newborn(t1, PartPage(ids, j))
    ensures o.ByKey? ==>
              UnsafeDegree(t1.pages[PartPage(ids, j)]) == Fine
              && Filling20(Capacity(t1.pages[PartPage(ids, j)])) <= t1.pages[PartPage(ids, j)].active
  {
    hide *;
    RootParts(t0, t1, s, o, ids, root);
    PartFacts(t0, t1, s, o, ids, root, j);
    BelowRootStays(t0, t1, s, o, ids, root);
    NewPage(t0, t1, PartPage(ids, j), BodyOf(o, j), PartFence(o, j), t0.meta[s].height, {s});
    PartFine(t0, t1, s, o, ids, root, j);
  }

  lemma PartFine(t0: Tree, t1: Tree, s: nat, o: Outcome, ids: Ids, root: nat, j: nat)
    requires MetaOk(t0) && PublishesRoot(t0, t1, s, o, ids, root) && t0.fanOut >= MIN_CAPACITY
    ensures PartPage(ids, j) < |t1.pages|
    ensures o.ByKey? ==>
              UnsafeDegree(t1.pages[PartPage(ids, j)]) == Fine
              && Filling20(Capacity(t1.pages[PartPage(ids, j)])) <= t1.pages[PartPage(ids, j)].active
  {
    PartFacts(t0, t1, s, o, ids, root, j);
    hide PublishesRoot, ComesFrom, GoodBody, Sources;
  }

  lemma TopNewborn(t0: Tree, t1: Tree, s: nat, o: Outcome, ids: Ids, root: nat)
    requires MetaOk(t0) && RootsOk(t0) && PublishesRoot(t0, t1, s, o, ids, root) && o.ByKey?
    ensures Newborn(t1, root)
  {
    PublishedRootReplaces(t0, t1, s, o, ids, root);
    hide ComesFrom, GoodBody, LivePage, ValidFence, RootServes, RootSizes, RootReplaces, RootSource;
    NewRootPage(t0, t1, s, NewRootOf(o, ids, root));
  }

  /** The new root is a safe root. */
  lemma NewTopFine(t0: Tree, t1: Tree, s: nat, o: Outcome, ids: Ids, root: nat)
    requires PublishesRoot(t0, t1, s, o, ids, root) && t0.fanOut >= MIN_CAPACITY && t0.numRecords >= MIN_CAPACITY
    ensures Top(t1).page < |t1.pages| && UnsafeDegreeRoot(t1.pages[Top(t1).page]) == Fine
  {
    hide ComesFrom, GoodBody, LivePage, ValidFence, RootSource;
  }

  /** Replacing the root keeps the invariant, and the new root is safe. */
  lemma PublishRootKeepsInv(t0: Tree, t1: Tree, s: nat, o: Outcome, ids: Ids, root: nat)
    requires Inv(t0) && PublishesRoot(t0, t1, s, o, ids, root)
    ensures Inv(t1)
    ensures |t1.roots| > 0 && Top(t1).page < |t1.pages| && UnsafeDegreeRoot(t1.pages[Top(t1).page]) == Fine
  {
    hide *;
    RootParts(t0, t1, s, o, ids, root);
    PublishedRootReplaces(t0, t1, s, o, ids, root);
    PartNewborn(t0, t1, s, o, ids, root, 0);
    PartNewborn(t0, t1, s, o, ids, root, 1);
    PartFine(t0, t1, s, o, ids, root, 0);
    PartFine(t0, t1, s, o, ids, root, 1);
    if o.ByKey? { TopNewborn(t0, t1, s, o, ids, root); }
    RootIds(o, ids, root);
    NewTopFine(t0, t1, s, o, ids, root);
    RootReplaceKeepsInv(t0, t1, s, NewRootOf(o, ids, root));
    assert |t1.roots| > 0 by { InvParts(t1); HasRoot(t1); }
  }

  lemma HasRoot(t: Tree)
    requires RootsOk(t)
    ensures |t.roots| > 0
  {
  }

  lemma RootIds(o: Outcome, ids: Ids, root: nat)
    requires o.ByVersion? == ids.One?
    ensures var n := NewRootOf(o, ids, root);
            && n.Copied? == o.ByVersion?
            && (n.Copied? ==> RootPage(n) == PartPage(ids, 0))
            && (n.Cut? ==> RootPage(n) == root && n.left == PartPage(ids, 0) && n.right == PartPage(ids, 1))
  {
  }
}
