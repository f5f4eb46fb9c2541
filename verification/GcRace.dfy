/**
 A run that hands a page out under a reader. From the start of the program thread 2 fills the first leaf;
 then thread 0, in its first operation, finds the root full and splits it at a version its slot does
 not shield.
 */
module GcRace {
  import opened Util
  import opened Fences
  import opened Pages
  import opened Fill
  import opened Smo
  import opened TreeModel
  import opened Reorg
  import opened ParentReorg
  import opened RootReorg
  import opened Publish
  import opened Clock
  import opened InFlight
  import opened Weave
  import opened WeaveBelow
  import opened WeaveRoot
  import opened Gc
  import opened GcSafety
  import opened GcExact
  import opened GcLoss

  // ---------------------------------------------------------------- filling the first leaf

  function Inserted(i: nat): Record { Record(i, i, i + 1, None) }

  function Inserts(n: nat): (r: seq<Record>)
    ensures |r| == n
  {
    seq(n, i requires 0 <= i < n => Inserted(i))
  }

  /** A leaf of eight slots after `n` inserts. */
  function LeafWith(n: nat): Page
    requires n <= 8
  {
    BulkRecords(EmptyLeaf(8), Inserts(n))
  }

  function OneLeaf(clock: nat, leaf: Page): Tree {
    Tree(8, 8, [leaf], [Root(0, 1, 1)], clock, [], [Linked(FULL, 1, None, 1)], [], 1)
  }

  /** The clock while thread 2 inserts. */
  function Inserting(clock: nat, slot: nat, told: nat, flag: Flag, pc: Pc, notified: nat): State {
    State(clock, [INACTIVE, INACTIVE, slot], 3, 1, flag, [Idle, Idle, pc], [], [INACTIVE, INACTIVE, told], notified,
          Cover(0, 1, None))
  }

  function Growing(c: State, leaf: Page, k: Work): World {
    World(c, OneLeaf(c.clock, leaf), [Free, Free, Free], [Rest, Rest, k], [{}, {}, {}], {}, {})
  }

  function LastSlot(n: nat): nat { if n == 0 then INACTIVE else n }

  function LastFlag(n: nat): Flag { if n == 0 then Clean else Dirty }

  function Between(n: nat): State { Inserting(n + 1, LastSlot(n), LastSlot(n), LastFlag(n), Idle, n) }

  function Drawn1(n: nat): State { Inserting(n + 2, LastSlot(n), LastSlot(n), LastFlag(n), Committing(n + 1), n) }

  function Stored1(n: nat): State { Inserting(n + 2, n + 1, LastSlot(n), LastFlag(n), Notify, n) }

  lemma TakesLatch(c: State, leaf: Page)
    requires |c.pcs| == 3 && c.registered == 3
    ensures GoodStep(Growing(c, leaf, Rest), Growing(c, leaf, Holding(0)), 2)
    ensures GoodStep(Growing(c, leaf, Holding(0)), Growing(c, leaf, Rest), 2)
  {
    var w, w' := Growing(c, leaf, Rest), Growing(c, leaf, Holding(0));
    assert Latches(w, w', 2) && Latches(w', w, 2);
    hide Latches;
    NoDraw(w, w', 2);
    NoDraw(w', w, 2);
  }

  lemma Ticks(c: State, c': State, leaf: Page)
    requires |c.pcs| == 3 && c.registered == 3 && Commits(c, c', 2)
    ensures GoodStep(Growing(c, leaf, Holding(0)), Growing(c', leaf, Holding(0)), 2)
  {
    hide Commits;
    var w, w' := Growing(c, leaf, Holding(0)), Growing(c', leaf, Holding(0));
    assert Ticking(w, w', 2);
    hide Ticking;
    NoDraw(w, w', 2);
  }

  lemma WritesOne(c: State, leaf: Page, leaf': Page)
    requires |c.pcs| == 3 && c.registered == 3 && c.pcs[2].Committing? && leaf.Leaf? && leaf'.Leaf?
    ensures GoodStep(Growing(c, leaf, Holding(0)), Growing(c, leaf', Holding(0)), 2)
  {
    var w, w' := Growing(c, leaf, Holding(0)), Growing(c, leaf', Holding(0));
    assert Writes(w, w', 2, leaf');
    hide Writes;
    NoDraw(w, w', 2);
  }

  /** Push and length store add the next record. */
  lemma StoresNext(n: nat)
    requires n < 8
    ensures Sum(LeafWith(n)) == n < Capacity(LeafWith(n)) == 8
    ensures var p := PushRecord(LeafWith(n), Inserted(n), n); p.Leaf? && CommitDelta(p, 1, 0) == LeafWith(n + 1)
  {
    var p := PushRecord(LeafWith(n), Inserted(n), n);
    assert CommitDelta(p, 1, 0).recordData == LeafWith(n + 1).recordData;
  }

  lemma CommitSteps(n: nat)
    ensures StartCommit(Between(n), Drawn1(n), 2) <==> n + 2 < INACTIVE
    ensures EndCommit(Drawn1(n), Stored1(n), 2) && StoreDirty(Stored1(n), Between(n + 1), 2)
  {
  }

  /** One insert of thread 2. */
  lemma InsertsOne(w: World, n: nat)
    requires n < 8 && Leads(w, Growing(Between(n), LeafWith(n), Rest))
    ensures Leads(w, Growing(Between(n + 1), LeafWith(n + 1), Rest))
  {
    StoresNext(n);
    CommitSteps(n);
    var a, b, d, c := LeafWith(n), PushRecord(LeafWith(n), Inserted(n), n), LeafWith(n + 1), Between(n);
    hide Leads, GoodStep, StartCommit, EndCommit, StoreDirty, LeafWith, PushRecord, CommitDelta, Growing;
    TakesLatch(c, a);
    LeadsOn(w, Growing(c, a, Rest), Growing(c, a, Holding(0)), 2);
    Ticks(c, Drawn1(n), a);
    LeadsOn(w, Growing(c, a, Holding(0)), Growing(Drawn1(n), a, Holding(0)), 2);
    WritesOne(Drawn1(n), a, b);
    LeadsOn(w, Growing(Drawn1(n), a, Holding(0)), Growing(Drawn1(n), b, Holding(0)), 2);
    WritesOne(Drawn1(n), b, d);
    LeadsOn(w, Growing(Drawn1(n), b, Holding(0)), Growing(Drawn1(n), d, Holding(0)), 2);
    Ticks(Drawn1(n), Stored1(n), d);
    LeadsOn(w, Growing(Drawn1(n), d, Holding(0)), Growing(Stored1(n), d, Holding(0)), 2);
    Ticks(Stored1(n), Between(n + 1), d);
    LeadsOn(w, Growing(Stored1(n), d, Holding(0)), Growing(Between(n + 1), d, Holding(0)), 2);
    TakesLatch(Between(n + 1), d);
    LeadsOn(w, Growing(Between(n + 1), d, Holding(0)), Growing(Between(n + 1), d, Rest), 2);
  }

  lemma {:induction false} InsertsAll(n: nat)
    requires n <= 8
    ensures Leads(Growing(Between(0), LeafWith(0), Rest), Growing(Between(n), LeafWith(n), Rest))
  {
    hide LeafWith, Leads, Growing, Between;
    if n == 0 {
      LeadsNowhere(Growing(Between(0), LeafWith(0), Rest));
    } else {
      InsertsAll(n - 1);
      InsertsOne(Growing(Between(0), LeafWith(0), Rest), n - 1);
    }
  }

  lemma StartsEmpty()
    ensures Starts(Growing(Between(0), LeafWith(0), Rest))
  {
    BlankLeaf();
    hide LeafWith, EmptyLeaf;
    assert OneLeaf(1, EmptyLeaf(8)) == EmptyTree(8, 8);
  }

  lemma BlankLeaf()
    ensures LeafWith(0) == EmptyLeaf(8)
  {
    hide *;
    EmptyIsBlank();
    LeafWithNone();
    BulkNothing(EmptyLeaf(8));
  }

  lemma EmptyIsBlank()
    ensures EmptyLeaf(8).Leaf? && EmptyLeaf(8).active == 0 && EmptyLeaf(8).dead == 0 && Capacity(EmptyLeaf(8)) == 8
  {
  }

  lemma LeafWithNone()
    ensures Capacity(EmptyLeaf(8)) == 8 && LeafWith(0) == BulkRecords(EmptyLeaf(8), [])
  {
    assert Inserts(0) == [];
  }

  lemma BulkNothing(p: Page)
    requires p.Leaf? && p.active == 0 && p.dead == 0
    ensures BulkRecords(p, []) == p
  {
    assert [] + p.recordData[0..] == p.recordData;
  }

  // ---------------------------------------------------------------- the outcome of the split

  lemma FullLeaf()
    ensures LiveRecords(LeafWith(8)) == Records(LeafWith(8)) && |Records(LeafWith(8))| == 8 && Exact(LeafWith(8))
    ensures UnsafeDegreeRoot(LeafWith(8)) == Overflow
  {
    FilterAll(IsLive, Records(LeafWith(8)));
  }

  lemma FullLeafIsGood()
    ensures GoodBody(LiveBody(LeafWith(8)), FULL)
  {
    FullLeaf();
    var rs := Records(LeafWith(8));
    assert forall i :: 0 <= i < |rs| ==> rs[i] == Inserted(i);
    hide LiveRecords, Records, LeafWith;
  }

  /** Eight live records are split by key into halves of four. */
  lemma SplitsInHalves() returns (o: Outcome)
    ensures Exact(LeafWith(8)) && o == Split(LeafWith(8), FULL) && o.ByKey? && Smo.Cut(FULL, o.leftFence, o.rightFence)
    ensures o.left.RecordBody? && |o.left.rs| == 4 && o.right.RecordBody? && |o.right.rs| == 4
  {
    FullLeaf();
    FullLeafIsGood();
    var p := LeafWith(8);
    assert p.Leaf? && p.active == 8 && Capacity(p) == 8;
    hide LiveRecords, Records, LeafWith, GoodBody, Split, Exact;
    SplitConserves(p, FULL);
    o := Split(p, FULL);
  }

  // ---------------------------------------------------------------- the split of the root

  /** The clock while thread 0 splits the root; nobody else commits, because the root is in the way. */
  function Splitting(): State {
    State(10, [INACTIVE, INACTIVE, 8], 3, 1, Dirty, [Committing(9), Idle, Idle], [], [INACTIVE, INACTIVE, 8], 8,
          Cover(0, 1, None))
  }

  function Blanks(n: nat): seq<Meta> { seq(n, _ => Unlinked) }

  function Taken(n: nat): set<nat> { if n == 0 then {} else Taken(n - 1) + {n} }

  function Extended(clock: nat, extra: seq<Page>): Tree {
    Tree(8, 8, [LeafWith(8)] + extra, [Root(0, 1, 1)], clock, [], [Linked(FULL, 1, None, 1)] + Blanks(|extra|), [], 1)
  }

  /** Thread 0 has taken pages. */
  function Taking(c: State, k: Work, extra: seq<Page>): World {
    World(c, Extended(c.clock, extra), [Free, Free, Free], [k, Rest, Rest], [Taken(|extra|), {}, {}], {}, {})
  }

  lemma TakesOne(c: State, k: Work, extra: seq<Page>, p: Page)
    requires |c.pcs| == 3 && c.registered == 3 && c.clock >= 1
    ensures GoodStep(Taking(c, k, extra), Taking(c, k, extra + [p]), 0)
  {
    var w, w', id := Taking(c, k, extra), Taking(c, k, extra + [p]), |extra| + 1;
    assert Forgets(w.tree, w'.tree, id);
    assert Taken(|extra|) + {id} == Taken(|extra| + 1);
    assert w.own[0 := w.own[0] + {id}] == w'.own;
    assert Fills(w, w', 0, id);
    hide Fills;
    NoDraw(w, w', 0);
  }

  lemma RewritesLast(c: State, k: Work, extra: seq<Page>, p: Page)
    requires |c.pcs| == 3 && c.registered == 3 && c.clock >= 1 && |extra| > 0
    ensures GoodStep(Taking(c, k, extra), Taking(c, k, extra[|extra| - 1 := p]), 0)
  {
    var w, w', id := Taking(c, k, extra), Taking(c, k, extra[|extra| - 1 := p]), |extra|;
    assert Forgets(w.tree, w'.tree, id);
    assert Taken(|extra|) + {id} == Taken(|extra|);
    assert w.own[0 := w.own[0] + {id}] == w'.own;
    assert Fills(w, w', 0, id);
    hide Fills;
    NoDraw(w, w', 0);
  }

  function Halves(o: Outcome): seq<Page>
    requires o.ByKey? && o.left.RecordBody? && o.right.RecordBody? && |o.left.rs| <= 8 && |o.right.rs| <= 8
  {
    [BulkRecords(EmptyLeaf(8), o.left.rs), BulkRecords(EmptyLeaf(8), o.right.rs)]
  }

  function RootOver(o: Outcome): Page
    requires o.ByKey?
  {
    BulkEntries(EmptyIndex(8), [Entry(o.leftFence, 9, false, 1), Entry(o.rightFence, 9, false, 2)])
  }

  lemma TakesPages(w: World, o: Outcome)
    requires o.ByKey? && o.left.RecordBody? && o.right.RecordBody? && |o.left.rs| <= 8 && |o.right.rs| <= 8
    requires Leads(w, Taking(Between(8), Rest, []))
    ensures Leads(w, Taking(Between(8), Rest, Halves(o) + [EmptyIndex(8)]))
  {
    var c, h := Between(8), Halves(o);
    hide Leads, GoodStep, Taking;
    assert [] + [h[0]] == [h[0]] && [h[0]] + [h[1]] == h;
    TakesOne(c, Rest, [], h[0]);
    LeadsOn(w, Taking(c, Rest, []), Taking(c, Rest, [h[0]]), 0);
    TakesOne(c, Rest, [h[0]], h[1]);
    LeadsOn(w, Taking(c, Rest, [h[0]]), Taking(c, Rest, h), 0);
    TakesOne(c, Rest, h, EmptyIndex(8));
    LeadsOn(w, Taking(c, Rest, h), Taking(c, Rest, h + [EmptyIndex(8)]), 0);
  }

  /** The draw: the root is full, nothing is in its way, but the slot of thread 0 is inactive. */
  lemma DrawsUnshielded(extra: seq<Page>)
    ensures var w, w' := Taking(Between(8), Rest, extra), Taking(Splitting(), AtRoot(0, 9), extra);
            && Draws(w, w', 0) && Founded(w, 0, w'.works[0]) && !Shielded(w'.clock, 0, 9)
            && UnsafeDegreeRoot(w.tree.pages[Top(w.tree).page]) == Overflow
  {
    var w, w' := Taking(Between(8), Rest, extra), Taking(Splitting(), AtRoot(0, 9), extra);
    assert StartCommit(w.clock, w'.clock, 0);
  }

  // ---------------------------------------------------------------- the rest of the run

  lemma SplittingSound()
    ensures Sound(Splitting())
  {
    var s := Splitting();
    forall u: nat | u < |s.pcs| ensures PcSound(s, u) {
      if u == 0 { assert s.pcs[u] == Committing(9) && !Active(s, 0); }
    }
  }

  lemma RootIsOpen(extra: seq<Page>)
    ensures var w := Taking(Splitting(), AtRoot(0, 9), extra);
            && OthersRest(w, 0) && Unshielded(w, 0) && TwoFree(w, 1, 2) && PinsAbove(w.jobs, 9)
            && Takable(w.tree, 0) && Registers(w.tree, w.works[0], 0) && LeadsTo(w.tree, 0, 0, 9)
  {
    var w := Taking(Splitting(), AtRoot(0, 9), extra);
    assert !Active(w.clock, 0);
    forall s: nat | s >= 9 ensures ComesTo(w.tree, 0, 0, s) {
      assert w.tree.roots[0].version <= s;
      var path: seq<nat> := [0];
      assert RootPath(w.tree, path, 0, s) && path[|path| - 1] == 0;
    }
  }

  lemma RootIsOver(o: Outcome)
    requires o.ByKey?
    ensures RootOver(o).Index?
    ensures Entries(RootOver(o)) == [Entry(o.leftFence, 9, false, 1), Entry(o.rightFence, 9, false, 2)]
  {
    BulkContents(EmptyIndex(8));
  }

  /** What the split of the root stores. */
  lemma StoresHalves(t: Tree, o: Outcome, n: NewRoot) returns (t': Tree)
    requires o.ByKey? && Smo.Cut(FULL, o.leftFence, o.rightFence)
    requires n == NewRoot.Cut(o.leftFence, 1, o.rightFence, 2, 3)
    requires t.roots == [Root(0, 1, 1)] && |t.pages| == 4 && t.clock > 9
    requires t.meta == [Linked(FULL, 1, None, 1), Unlinked, Unlinked, Unlinked]
    requires t.pages[1].Leaf? && t.pages[2].Leaf? && t.pages[3] == RootOver(o)
    ensures StoredRoot(t, t', 0, n, 9)
  {
    RootIsOver(o);
    assert FreeFor(t, 1) && FreeFor(t, 2) && FreeFor(t, 3);
    hide NewMeta, BornRoot, Smo.Cut, RootOver;
    t' := t.(roots := t.roots + [Root(3, 9, 2)], meta := NewMeta(t.meta, {Top(t).page, 0}, BornRoot(n, 9, 1), 9));
    assert RootFilledBy(t, 0, n, 9);
  }

  lemma FilledPages(e: World, o: Outcome)
    requires o.ByKey? && o.left.RecordBody? && o.right.RecordBody? && |o.left.rs| <= 8 && |o.right.rs| <= 8
    requires OnlyReaders(Taking(Splitting(), AtRoot(0, 9), Halves(o) + [RootOver(o)]), e, 2)
    ensures e.tree.roots == [Root(0, 1, 1)] && |e.tree.pages| == 4 && e.tree.clock > 9
    ensures e.tree.meta == [Linked(FULL, 1, None, 1), Unlinked, Unlinked, Unlinked]
    ensures e.tree.pages[1].Leaf? && e.tree.pages[2].Leaf? && e.tree.pages[3] == RootOver(o)
    ensures e.own == [{1, 2, 3}, {}, {}] && e.works == [AtRoot(0, 9), Rest, Rest]
  {
    hide Sound, RootOver;
    assert Taken(3) == {1, 2, 3};
    assert Blanks(3) == [Unlinked, Unlinked, Unlinked];
  }

  /** With the reader on the page, the two halves are published under a new root. */
  lemma PublishesHalves(e: World, o: Outcome) returns (w: World)
    requires o.ByKey? && Smo.Cut(FULL, o.leftFence, o.rightFence)
    requires o.left.RecordBody? && o.right.RecordBody? && |o.left.rs| <= 8 && |o.right.rs| <= 8
    requires OnlyReaders(Taking(Splitting(), AtRoot(0, 9), Halves(o) + [RootOver(o)]), e, 2) && Gc.On(e, 0)
    ensures PublishesRoot(e, w, 0, NewRoot.Cut(o.leftFence, 1, o.rightFence, 2, 3))
  {
    var n := NewRoot.Cut(o.leftFence, 1, o.rightFence, 2, 3);
    FilledPages(e, o);
    hide OnlyReaders, RootOver, Halves, StoredRoot, Smo.Cut;
    var t' := StoresHalves(e.tree, o, n);
    w := e.(tree := t', works := e.works[0 := Rest], own := e.own[0 := e.own[0] - NewIds(n)],
            limbo := e.limbo + {Dead(9, 0, 0)});
  }

  /**
   From the start of the program: thread 2 fills the root leaf, thread 0 draws a version to split it while
   its slot is inactive, a reader gets onto the leaf above that version, the two halves are published,
   and an allocator gets hold of the leaf with the reader still on it. Only the draw is not shielded.
   */
  lemma UnshieldedReaderIsLost() returns (w0: World, w1: World, w2: World, w3: World, w4: World, w5: World, w6: World)
    ensures Starts(w0) && GcOk(w0) && Leads(w0, w1)
    ensures Draws(w1, w2, 0) && Founded(w1, 0, w2.works[0]) && !Shielded(w2.clock, 0, w2.works[0].version)
    ensures |w1.tree.roots| > 0 && Top(w1.tree).page < |w1.tree.pages|
    ensures UnsafeDegreeRoot(w1.tree.pages[Top(w1.tree).page]) == Overflow
    ensures Leads(w2, w3) && OthersCan(w3, w4, 0) && Gc.Publishes(w4, w5, 0) && OthersCan(w5, w6, 1)
    ensures Lost(w5, w6, 1, 2, Top(w1.tree).page)
  {
    hide *;
    var o := SplitsInHalves();
    var full, filled := Halves(o) + [EmptyIndex(8)], Halves(o) + [RootOver(o)];
    w0 := Growing(Between(0), LeafWith(0), Rest);
    StartsEmpty();
    StartIsOk(w0);
    InsertsAll(8);
    FullWorld();
    TakesPages(w0, o);
    w1, w2, w3 := Taking(Between(8), Rest, full), Taking(Splitting(), AtRoot(0, 9), full),
                  Taking(Splitting(), AtRoot(0, 9), filled);
    DrawsUnshielded(full);
    FullRoot(full);
    LeadsNowhere(w2);
    LastPage(Halves(o), EmptyIndex(8), RootOver(o));
    SplitClock();
    RewritesLast(Splitting(), AtRoot(0, 9), full, RootOver(o));
    LeadsOn(w2, w2, w3, 0);
    SplittingSound();
    RootIsOpen(filled);
    OpenRoot(filled);
    w4 := UnshieldedLoses(w3, 0, 1, 2, 0, 0);
    StillOn(w3, w4, filled);
    w5 := PublishesHalves(w4, o);
    PublishesSome(w4, w5, 0, NewRoot.Cut(o.leftFence, 1, o.rightFence, 2, 3));
    w6 := LostThen(w4, w5, 0, 1, 2, 0);
  }

  lemma FullWorld()
    ensures Growing(Between(8), LeafWith(8), Rest) == Taking(Between(8), Rest, [])
  {
    assert Taken(0) == {} && Blanks(0) == [];
    hide LeafWith;
    assert [LeafWith(8)] + [] == [LeafWith(8)];
  }

  lemma FullRoot(extra: seq<Page>)
    ensures var w := Taking(Between(8), Rest, extra);
            |w.tree.roots| > 0 && Top(w.tree).page == 0 < |w.tree.pages|
    ensures |Taking(Splitting(), AtRoot(0, 9), extra).works| == 3
    ensures Taking(Splitting(), AtRoot(0, 9), extra).works[0] == AtRoot(0, 9)
  {
  }

  lemma LastPage(h: seq<Page>, p: Page, q: Page)
    ensures |h + [p]| > 0 && (h + [p])[|h + [p]| - 1 := q] == h + [q]
  {
  }

  lemma SplitClock()
    ensures |Splitting().pcs| == 3 && Splitting().registered == 3 && Splitting().clock >= 1
  {
  }

  lemma OpenRoot(extra: seq<Page>)
    ensures var w := Taking(Splitting(), AtRoot(0, 9), extra);
            |w.works| == 3 && w.works[0] == AtRoot(0, 9) && w.works[0].version == 9 && w.clock == Splitting()
  {
  }

  lemma StillOn(w: World, e: World, extra: seq<Page>)
    requires w == Taking(Splitting(), AtRoot(0, 9), extra) && OnlyReaders(w, e, 2)
    ensures Gc.On(e, 0)
  {
    hide Sound, Extended;
  }

  lemma PublishesSome(w: World, w': World, t: nat, n: NewRoot)
    requires PublishesRoot(w, w', t, n)
    ensures Gc.Publishes(w, w', t)
  {
    hide PublishesRoot, PublishesBelow;
  }

  lemma LostThen(w: World, w': World, t: nat, r: nat, a: nat, p: nat) returns (e: World)
    requires LosesAnyway(w, t, r, a, p) && Gc.Publishes(w, w', t)
    ensures OthersCan(w', e, r) && Lost(w', e, r, a, p)
  {
    hide Gc.Publishes, OthersCan, Lost;
    e :| OthersCan(w', e, r) && Lost(w', e, r, a, p);
  }
}
