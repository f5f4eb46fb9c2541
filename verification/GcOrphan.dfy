/**
 A second run that hands a page out under a reader, with all slots as they should be. Thread 0 still holds
 the latch of a root when thread 1 merges it away; thread 0 goes on into the replaced child, reorganizes
 below it, and registers a leaf as dead that the new root still leads to.
 */
module GcOrphan {
  import opened Util
  import opened Fences
  import opened History
  import opened Pages
  import opened Fill
  import opened Smo
  import opened TreeModel
  import opened Reorg
  import opened ParentReorg
  import opened RootReorg
  import opened Publish
  import opened Clock
  import opened InFlight
  import opened Weave
  import opened WeaveBelow
  import opened WeaveRoot
  import opened WeaveJobs
  import opened Gc
  import opened GcProof
  import opened GcSafety
  import opened GcExact
  import opened GcLoss

  // ---------------------------------------------------------------- the pages

  const F0 := Fence(MIN_KEY, 9)
  const F1 := Fence(10, 19)
  const F2 := Fence(20, 29)
  const F3 := Fence(30, MAX_KEY)

  const KIDS: seq<Entry> :=
    [Entry(F0, 1, false, 2), Entry(F1, 1, false, 3), Entry(F2, 1, false, 4), Entry(F3, 1, false, 5)]

  /** The root after its two children have been merged into page 1. */
  const TOP: seq<Entry> :=
    [Entry(Fence(MIN_KEY, 19), 1, true, 6), Entry(Fence(20, MAX_KEY), 1, true, 7), Entry(FULL, 5, false, 1)]

  function IndexOf(es: seq<Entry>, active: nat, dead: nat): (p: Page)
    requires |es| <= 8 && active + dead == |es|
    ensures p.Index? && Entries(p) == es && Capacity(p) == 8 && p.active == active && p.dead == dead
  {
    Index(es + seq(8 - |es|, _ => BLANK_ENTRY), active, dead)
  }

  function LeafOf(rs: seq<Record>, active: nat, dead: nat): (p: Page)
    requires |rs| <= 8 && active + dead == |rs|
    ensures p.Leaf? && Records(p) == rs && Capacity(p) == 8 && p.active == active && p.dead == dead
  {
    Leaf(rs + seq(8 - |rs|, _ => BLANK_RECORD), active, dead)
  }

  /** `n` live records from key `k` on. */
  function Live(k: nat, n: nat): (r: seq<Record>)
    ensures |r| == n
  {
    seq(n, i requires 0 <= i < n => Record(k + i, 0, 1, None))
  }

  /** A full leaf: six live records and two that have ended. */
  function FullLeaf(): Page { LeafOf([Record(0, 0, 1, Some(2)), Record(1, 0, 1, Some(3))] + Live(2, 6), 6, 2) }

  function OldPages(): (r: seq<Page>)
    ensures |r| == 6
  {
    [IndexOf(TOP, 1, 2), IndexOf(KIDS, 4, 0), FullLeaf(), LeafOf(Live(10, 4), 4, 0), LeafOf(Live(20, 4), 4, 0),
     LeafOf(Live(30, 4), 4, 0)]
  }

  const OLD_META: seq<Meta> :=
    [Linked(FULL, 1, None, 3), Linked(FULL, 5, None, 2), Linked(F0, 1, None, 1), Linked(F1, 1, None, 1),
     Linked(F2, 1, None, 1), Linked(F3, 1, None, 1)]

  function OldTree(): Tree { Tree(8, 8, OldPages(), [Root(0, 1, 3)], 8, [], OLD_META, [], 5) }

  function OldClock(): State {
    State(8, [7, 6, INACTIVE], 3, 6, Clean, [Idle, Idle, Idle], [], [7, 6, INACTIVE], 0, Cover(0, 1, None))
  }

  /** Thread 0 has merged the children of the root and still holds its latch. */
  function Merged(): World {
    World(OldClock(), OldTree(), [Free, Free, Free], [Holding(0), Rest, Rest], [{}, {}, {}], {}, {})
  }

  // ---------------------------------------------------------------- the tree is sound

  lemma KidsTile()
    ensures ActiveTiles(KIDS, FULL) && VersionsOk(KIDS, 8)
    ensures forall i :: 0 <= i < 4 ==> KIDS[i].Active() && KIDS[i].version == 1 && KIDS[i].child == i + 2
  {
    forall k: nat | Contains(FULL, k) ensures ActiveAt(KIDS, k) {
      var i := if k <= 9 then 0 else if k <= 19 then 1 else if k <= 29 then 2 else 3;
      assert KIDS[i].Active() && Contains(KIDS[i].fence, k);
    }
  }

  lemma TopTiles()
    ensures ActiveTiles(TOP, FULL) && VersionsOk(TOP, 8) && OnlyActive(TOP, 2)
  {
    forall k: nat | Contains(FULL, k) ensures ActiveAt(TOP, k) {
      assert TOP[2].Active() && Contains(TOP[2].fence, k);
    }
  }

  lemma PageAt(i: nat)
    requires i < 6
    ensures i == 0 ==> OldPages()[i] == IndexOf(TOP, 1, 2)
    ensures i == 1 ==> OldPages()[i] == IndexOf(KIDS, 4, 0)
    ensures i >= 2 ==> OldPages()[i].Leaf?
  {
  }

  lemma OldIndexes()
    ensures LiveIndexes(OldTree())
  {
    var t := OldTree();
    TopTiles();
    KidsTile();
    PageAt(0);
    PageAt(1);
    hide ActiveTiles, VersionsOk, OldPages, IndexOf, OnlyActive;
    assert ChildrenOk(t.meta, TOP, 3) && Births(t.meta, TOP);
    assert ChildrenOk(t.meta, KIDS, 2) && Births(t.meta, KIDS);
    hide ChildrenOk, Births;
    assert LiveIndex(t, 0) && LiveIndex(t, 1);
    forall p: nat | p < |t.meta| && IsLinked(t.meta[p]) && t.meta[p].height > 1 ensures LiveIndex(t, p) {
      assert p == 0 || p == 1;
    }
  }

  lemma KidFor(k: nat, v: nat)
    requires k <= MAX_KEY && v >= 1
    ensures var i := if k <= 9 then 0 else if k <= 19 then 1 else if k <= 29 then 2 else 3;
            Route(KIDS, k, v) == Some(i)
  {
    var i := if k <= 9 then 0 else if k <= 19 then 1 else if k <= 29 then 2 else 3;
    assert Fits(KIDS[i], k, v);
    assert forall j :: 0 <= j < 4 && j != i ==> !Fits(KIDS[j], k, v);
  }

  lemma OldTurns()
    ensures AllTurn(OldTree())
  {
    var t := OldTree();
    forall p: nat, k: nat, v: nat | Visible(t, p, k, v) ensures Turns(t, p, k, v) {
      assert p < 6 && v >= 5 && k <= MAX_KEY;
      PageAt(p);
      hide OldPages, IndexOf;
      if p == 0 {
        assert Fits(TOP[2], k, v);
        assert Route(TOP, k, v) == Some(2);
        assert RoutedTo(t, 0, TOP[2], v);
      } else if p == 1 {
        KidFor(k, v);
        var i := if k <= 9 then 0 else if k <= 19 then 1 else if k <= 29 then 2 else 3;
        assert RoutedTo(t, 1, KIDS[i], v);
      }
    }
  }

  lemma OldRoots()
    ensures MetaOk(OldTree()) && Apart(OLD_META) && RootsOk(OldTree()) && OldRootsGone(OldTree())
  {
    var t := OldTree();
    assert MetaOk(t) && Apart(OLD_META) by { hide OldPages; }
    hide OldPages;
    forall v: nat | t.horizon <= v ensures RootServes(t, v) && RootPageFor(t, v) == Top(t).page {
      assert t.roots[0].version <= v;
    }
    RootsAre(t, 0, 1, 3);
  }

  lemma OldIsWoven()
    ensures Woven(OldTree())
  {
    OldIndexes();
    OldTurns();
    OldRoots();
    hide OldPages, LiveIndexes, AllTurn, RootsOk, OldRootsGone, MetaOk, Apart;
    WovenIs(OldTree());
  }

  lemma OldIsSound()
    ensures Sound(OldClock())
  {
    var s := OldClock();
    forall u: nat | u < |s.pcs| ensures PcSound(s, u) {
    }
  }

  lemma MergedBooks()
    ensures var w := Merged();
            && Exclusive(w) && Owned(w) && DeadLinks(w) && |w.jobs| == |w.works| == |w.own| == |w.clock.pcs| == 3
            && (forall t: nat :: t < 3 ==> JobOk(w, t) && WorkOk(w, t))
            && w.clock == OldClock() && w.tree == OldTree()
  {
    var w := Merged();
    hide OldTree;
    forall t: nat | t < |w.own| ensures OwnsOutside(w, t) {
      assert w.own[t] == {};
    }
    forall t: nat | t < 3 ensures JobOk(w, t) && WorkOk(w, t) && Held(w.tree, w.works[t]) == {} {
      assert t == 0 || t == 1 || t == 2;
    }
    assert w.limbo + w.graveyard == {};
    assert DeadLinks(w);
    assert Owned(w);
    assert Exclusive(w);
  }

  lemma MergedShape(w: World)
    requires Sound(w.clock) && w.clock == OldClock() && w.tree == OldTree()
    requires |w.jobs| == |w.works| == |w.own| == |w.clock.pcs| == 3
    ensures Shape(w)
  {
    hide Sound, OldPages;
  }

  lemma MergedIsOk()
    ensures GcOk(Merged())
  {
    hide *;
    OldIsWoven();
    OldIsSound();
    MergedBooks();
    MergedShape(Merged());
    GcIs(Merged());
  }

  // ---------------------------------------------------------------- the root is merged while its latch is held

  /** The clock when thread 1, and then thread 0, has drawn its version. */
  function Ticked(clock: nat, a: Pc, b: Pc): State {
    State(clock, [7, 6, INACTIVE], 3, 6, Clean, [a, b, Idle], [], [7, 6, INACTIVE], 0, Cover(0, 1, None))
  }

  /** The copy thread 1 makes of the last child of the root, and the copy thread 0 makes of the full leaf. */
  function CopyOfChild(): Page { IndexOf(KIDS, 4, 0) }

  function CopyOfLeaf(): Page { LeafOf(Live(2, 6), 6, 0) }

  function MoreTree(clock: nat): Tree {
    Tree(8, 8, OldPages() + [CopyOfChild()], [Root(0, 1, 3)], clock, [], OLD_META + [Unlinked], [], 5)
  }

  const NEW_META: seq<Meta> :=
    [Linked(FULL, 1, Some(8), 3), Linked(FULL, 5, Some(8), 2), Linked(F0, 1, None, 1), Linked(F1, 1, None, 1),
     Linked(F2, 1, None, 1), Linked(F3, 1, None, 1), Linked(FULL, 8, None, 2)]

  const NEW_ROOTS: seq<Root> := [Root(0, 1, 3), Root(6, 8, 2)]

  const MERGED: Dead := Dead(8, 0, 1)

  /** Thread 1 has a page, has drawn, has published. */
  function Copied1(): World {
    World(OldClock(), MoreTree(8), [Free, Free, Free], [Holding(0), Rest, Rest], [{}, {6}, {}], {}, {})
  }

  function Drawn1(): World {
    World(Ticked(9, Idle, Committing(8)), MoreTree(9), [Free, Free, Free], [Holding(0), AtRoot(1, 8), Rest],
          [{}, {6}, {}], {}, {})
  }

  function NewTree(clock: nat, extra: seq<Page>, more: seq<Meta>): Tree {
    Tree(8, 8, OldPages() + [CopyOfChild()] + extra, NEW_ROOTS, clock, [], NEW_META + more, [], 5)
  }

  function Renewed(k: Work): World {
    World(Ticked(9, Idle, Committing(8)), NewTree(9, [], []), [Free, Free, Free], [k, Rest, Rest], [{}, {}, {}],
          {MERGED}, {})
  }

  /** Thread 0 has a page, has drawn below the replaced page, has published. */
  function Copied0(): World {
    World(Ticked(9, Idle, Committing(8)), NewTree(9, [CopyOfLeaf()], [Unlinked]), [Free, Free, Free],
          [Holding(1), Rest, Rest], [{7}, {}, {}], {MERGED}, {})
  }

  function Drawn0(): World {
    World(Ticked(10, Committing(9), Committing(8)), NewTree(10, [CopyOfLeaf()], [Unlinked]), [Free, Free, Free],
          [Below(1, {0}, 9), Rest, Rest], [{7}, {}, {}], {MERGED}, {})
  }

  lemma Copies1()
    ensures GoodStep(Merged(), Copied1(), 1)
  {
    var w, w' := Merged(), Copied1();
    hide OldPages, CopyOfChild;
    assert Forgets(w.tree, w'.tree, 6);
    assert {} + {6} == {6};
    assert w.own[1 := w.own[1] + {6}] == w'.own;
    assert Fills(w, w', 1, 6);
    hide Fills;
    NoDraw(w, w', 1);
  }

  /** The root has one active child left; thread 1 has a slot that shields its version, and nothing is in its way. */
  lemma Draws1()
    ensures Draws(Copied1(), Drawn1(), 1) && Founded(Copied1(), 1, Drawn1().works[1])
    ensures Shielded(Drawn1().clock, 1, 8) && UnsafeDegreeRoot(OldPages()[0]) == ActiveUnderflow
  {
    var w, w' := Copied1(), Drawn1();
    PageAt(0);
    TopTiles();
    assert w.tree.pages[0] == OldPages()[0];
    hide OldPages, CopyOfChild, IndexOf, ActiveTiles, VersionsOk;
    assert OnlyChild(w.tree, 1) by {
      assert OnlyActive(Entries(w.tree.pages[0]), 2) && Entries(w.tree.pages[0])[2].child == 1;
    }
    hide OnlyChild;
    assert forall u :: 0 <= u < 3 && u != 1 ==> Compatible(w.tree, w'.works[1], w.works[u]);
    assert StartCommit(w.clock, w'.clock, 1);
  }

  /** The copy spans what the root spanned. */
  lemma Renews1()
    ensures PublishesRoot(Drawn1(), Renewed(Holding(0)), 1, Copied(6))
  {
    var w, w' := Drawn1(), Renewed(Holding(0));
    var t := w.tree;
    KidsTile();
    PageAt(1);
    assert t.pages[1] == OldPages()[1] && t.pages[6] == CopyOfChild();
    hide OldPages, IndexOf, ActiveTiles, VersionsOk;
    assert NewMeta(t.meta, {Top(t).page, 1}, BornRoot(Copied(6), 8, 2), 8) == NEW_META + [];
    assert CopiedIndex(t, 6, FULL, {1}) by { CopiesAll(t); }
    hide CopiedIndex, NewMeta, BornRoot, CopyOfChild;
    assert RootFilledBy(t, 1, Copied(6), 8);
    assert w'.tree.pages == t.pages && NEW_META + [] == NEW_META;
    assert StoredRoot(t, w'.tree, 1, Copied(6), 8);
    assert {6} - {6} == {} && w.own[1 := w.own[1] - {6}] == w'.own;
    assert {} + {MERGED} == {MERGED};
  }

  lemma CopiesAll(t: Tree)
    requires |t.pages| == 7 && t.pages[6].Index? && Entries(t.pages[6]) == KIDS && Entries(t.pages[1]) == KIDS
    ensures CopiedIndex(t, 6, FULL, {1})
  {
    KidsTile();
    hide ActiveTiles;
    forall i | 0 <= i < 4 ensures FromAny(t, KIDS[i], {1}) {
      assert KIDS[i] in KIDS && FromPage(t, KIDS[i], 1);
    }
  }

  /** Thread 0 goes on into the replaced page and latches it. */
  lemma Descends0()
    ensures GoodStep(Renewed(Holding(0)), Renewed(Holding(1)), 0)
  {
    var w, w' := Renewed(Holding(0)), Renewed(Holding(1));
    hide OldPages, CopyOfChild;
    assert Latches(w, w', 0);
    hide Latches;
    NoDraw(w, w', 0);
  }

  lemma Copies0()
    ensures GoodStep(Renewed(Holding(1)), Copied0(), 0)
  {
    var w, w' := Renewed(Holding(1)), Copied0();
    hide OldPages, CopyOfChild, CopyOfLeaf;
    assert Forgets(w.tree, w'.tree, 7);
    assert {} + {7} == {7};
    assert w.own[0 := w.own[0] + {7}] == w'.own;
    assert Fills(w, w', 0, 7);
    hide Fills;
    NoDraw(w, w', 0);
  }

  // ---------------------------------------------------------------- below the replaced page

  /** The leaf is full and the slot shields the version, but the parent has been replaced. */
  lemma Draws0()
    ensures Draws(Copied0(), Drawn0(), 0) && Shielded(Drawn0().clock, 0, 9) && !Founded(Copied0(), 0, Drawn0().works[0])
    ensures UnsafeDegree(OldPages()[2]) == Overflow
  {
    var w, w' := Copied0(), Drawn0();
    PageAt(1);
    KidsTile();
    assert w.tree.pages[1] == OldPages()[1];
    hide OldPages, CopyOfChild, CopyOfLeaf, IndexOf, ActiveTiles, VersionsOk;
    assert StartCommit(w.clock, w'.clock, 0);
    assert forall u :: 0 <= u < 3 && u != 0 ==> Compatible(w.tree, w'.works[0], w.works[u]);
  }

  function Stored(): Page { IndexOf([Entry(F0, 1, true, 2), KIDS[1], KIDS[2], KIDS[3], Entry(F0, 9, false, 7)], 4, 1) }

  lemma KeysOfFirst()
    ensures SameKeys(KIDS, {0}, [Fresh(F0, 7)]) && OldsActive(KIDS, {0})
    ensures EntriesReplaced(KIDS, Entries(Stored()), {0}, [Fresh(F0, 7)], 9)
  {
    var fs := [Fresh(F0, 7)];
    forall k: nat ensures InOlds(KIDS, {0}, k) <==> InFresh(fs, k) {
      if Contains(F0, k) {
        assert Contains(KIDS[0].fence, k) && Contains(fs[0].fence, k);
      }
    }
  }

  lemma Stores0() returns (w': World)
    ensures PublishesBelow(Drawn0(), w', 0, [Fresh(F0, 7)])
  {
    var w, fs := Drawn0(), [Fresh(F0, 7)];
    var t := w.tree;
    PageAt(1);
    KeysOfFirst();
    assert t.pages[1] == OldPages()[1] && t.pages[7] == CopyOfLeaf() && t.meta[7] == Unlinked;
    hide OldPages, CopyOfChild, CopyOfLeaf, IndexOf, SameKeys, EntriesReplaced, OldsActive, NewMeta, Born;
    var t' := t.(pages := t.pages[1 := Stored()], meta := NewMeta(t.meta, Children(KIDS, {0}), Born(fs, 9, 1), 9));
    assert StoredBelow(t, t', 1, {0}, fs, 9);
    w' := w.(tree := t', works := w.works[0 := Holding(1)], own := w.own[0 := w.own[0] - FreshIds(fs)],
             limbo := w.limbo + Deaths(Replaced(t, 1, {0}), 9));
    assert fs[0].page in w.own[0];
  }

  /** The new root still leads to the leaf. */
  lemma StillLed()
    ensures Orphaned(Copied0().tree, Below(1, {0}, 9), 2, 0)
  {
    var t := Copied0().tree;
    PageAt(1);
    assert t.pages[1] == OldPages()[1] && t.pages[6] == CopyOfChild();
    hide OldPages, CopyOfLeaf, IndexOf;
    assert Entries(t.pages[1])[0].child == 2;
    assert 2 in Replaced(t, 1, {0});
    forall s: nat | s >= 9 ensures ComesTo(t, 2, 0, s) {
      assert NEW_ROOTS[1].version <= s;
      assert RootFor(NEW_ROOTS, s) == Some(1);
      KidFor(0, s);
      var path: seq<nat> := [6, 2];
      assert NextPage(t, path[0], 0, s, path[0 + 1]);
      assert RootPath(t, path, 0, s) && path[|path| - 1] == 2;
    }
  }

  lemma OthersQuiet()
    ensures OthersRest(Drawn0(), 0) && TwoFree(Drawn0(), 2, 1) && PinsAbove(Drawn0().jobs, 9)
    ensures Copied0().clock.clock == 9 && Drawn0().works[0] == Below(1, {0}, 9) && |Drawn0().jobs| == 3
  {
    hide OldPages, CopyOfChild, CopyOfLeaf;
  }

  lemma LeadsOk(w: World, w': World)
    requires Leads(w, w') && GcOk(w)
    ensures GcOk(w')
  {
    hide GoodStep, GcOk;
    var run: seq<World>, threads: seq<nat> :| GcRun(run, threads) && run[0] == w && run[|threads|] == w';
    RunIsOk(run, threads);
  }

  /** From the root that thread 1 has merged away to the draw of thread 0 every step is as it should be. */
  lemma LeadsToDraw()
    ensures Leads(Merged(), Copied1()) && Leads(Drawn1(), Copied0()) && GoodStep(Copied1(), Drawn1(), 1)
  {
    hide Leads, GoodStep, Merged, Copied1, Drawn1, Renewed, Copied0, PublishesRoot, Draws, Founded;
    LeadsNowhere(Merged());
    Copies1();
    LeadsOn(Merged(), Merged(), Copied1(), 1);
    Draws1();
    DrawIsGood();
    LeadsNowhere(Drawn1());
    Renews1();
    PublishIsGood();
    LeadsOn(Drawn1(), Drawn1(), Renewed(Holding(0)), 1);
    Descends0();
    LeadsOn(Drawn1(), Renewed(Holding(0)), Renewed(Holding(1)), 0);
    Copies0();
    LeadsOn(Drawn1(), Renewed(Holding(1)), Copied0(), 0);
  }

  lemma DrawIsGood()
    requires Draws(Copied1(), Drawn1(), 1) && Founded(Copied1(), 1, Drawn1().works[1]) && Shielded(Drawn1().clock, 1, 8)
    ensures GoodStep(Copied1(), Drawn1(), 1)
  {
    hide Draws, Founded, Shielded, MoreTree, Ticked, OldTree, OldClock;
  }

  lemma PublishIsGood()
    requires PublishesRoot(Drawn1(), Renewed(Holding(0)), 1, Copied(6))
    ensures GoodStep(Drawn1(), Renewed(Holding(0)), 1)
  {
    hide PublishesRoot, PublishesBelow, MoreTree, NewTree, Ticked;
    assert Gc.Publishes(Drawn1(), Renewed(Holding(0)), 1);
    NoDraw(Drawn1(), Renewed(Holding(0)), 1);
  }

  /**
   Thread 0 holds the latch of the root while thread 1 merges it. All draws are shielded; the second one is
   below a parent that has been replaced, and an allocator gets hold of a leaf with a pinned reader on it.
   */
  lemma MergedRootLosesPage() returns (w0: World, w1: World, w2: World, w3: World, w4: World, w5: World, w6: World)
    ensures GcOk(w0) && |w0.works| == 3 && w0.works[0] == Holding(0) && |w0.tree.roots| > 0 && Top(w0.tree).page == 0
    ensures Leads(w0, w1) && Draws(w1, w2, 1) && GoodStep(w1, w2, 1) && w2.works[1].AtRoot? && w2.works[0] == Holding(0)
    ensures Leads(w2, w3) && GcOk(w3) && Draws(w3, w4, 0) && Shielded(w4.clock, 0, w4.works[0].version)
    ensures !Founded(w3, 0, w4.works[0]) && Gc.Publishes(w4, w5, 0) && OthersCan(w5, w6, 3)
    ensures |w1.tree.pages| == 7 && UnsafeDegreeRoot(w1.tree.pages[0]) == ActiveUnderflow
    ensures |w3.tree.pages| == 8 && UnsafeDegree(w3.tree.pages[2]) == Overflow
    ensures |w6.jobs| > 2 && w6.jobs[2].Standing? && |w6.own| > 1 && w6.jobs[2].page in w6.own[1]
  {
    hide *;
    w0, w1, w2, w3, w4 := Merged(), Copied1(), Drawn1(), Copied0(), Drawn0();
    MergedIsOk();
    MergedTop();
    LeadsToDraw();
    Draws1();
    Draws0();
    LeadsOk(w0, w1);
    StepKeepsOk(w1, w2, 1);
    LeadsOk(w2, w3);
    w5 := Stores0();
    StoresIsPublished(w4, w5, [Fresh(F0, 7)]);
    StillLed();
    OthersQuiet();
    w6 := OrphanLoses(w3, w4, w5, 0, 2, 1, 2, 0);
    ThreeJobs(w4, w5);
    Degrees();
  }

  lemma Degrees()
    ensures |Copied1().tree.pages| == 7 && Copied1().tree.pages[0] == OldPages()[0]
    ensures |Copied0().tree.pages| == 8 && Copied0().tree.pages[2] == OldPages()[2]
  {
    hide OldPages, CopyOfChild, CopyOfLeaf;
  }

  lemma MergedTop()
    ensures |Merged().works| == 3 && Merged().works[0] == Holding(0) && |Merged().tree.roots| > 0
    ensures Top(Merged().tree).page == 0 && |Drawn1().works| == 3 && Drawn1().works[1] == AtRoot(1, 8)
    ensures Drawn1().works[0] == Holding(0) && |Drawn0().works| == 3
  {
  }

  lemma StoresIsPublished(w: World, w': World, fs: seq<Fresh>)
    requires PublishesBelow(w, w', 0, fs)
    ensures Gc.Publishes(w, w', 0)
  {
    hide PublishesBelow, PublishesRoot;
  }

  lemma ThreeJobs(w: World, w': World)
    requires Gc.Publishes(w, w', 0) && |w.jobs| == 3
    ensures |w'.jobs| == 3
  {
    hide StoredBelow, StoredRoot;
  }
}
