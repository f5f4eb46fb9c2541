/**
 Every step keeps the invariant of the garbage collector, and what follows from it for readers.
 */
module GcProof {
  import opened Util
  import opened Fences
  import opened History
  import opened Pages
  import opened Smo
  import opened TreeModel
  import opened Reorg
  import opened ParentReorg
  import opened RootReorg
  import opened Publish
  import opened Snapshots
  import opened Clock
  import opened InFlight
  import opened Weave
  import opened WeaveBelow
  import opened WeaveRoot
  import opened WeaveJobs
  import opened Gc

  // ---------------------------------------------------------------- what a step of `t` leaves to the others

  /** The other threads are where they were, and whoever has a new snapshot drew it above the old watermark. */
  ghost predicate Others(w: World, w': World, t: nat) {
    && t < |w.jobs| == |w'.jobs| && (forall u :: 0 <= u < |w.jobs| && u != t ==> w'.jobs[u] == w.jobs[u])
    && w.clock.globalMin <= w'.clock.globalMin
    && (HasSnapshot(w'.jobs[t]) ==>
          || w.clock.globalMin <= w'.jobs[t].snapshot
          || (HasSnapshot(w.jobs[t]) && w'.jobs[t].snapshot == w.jobs[t].snapshot))
  }

  lemma BelowKept(w: World, w': World, t: nat, limit: nat)
    requires Others(w, w', t) && BelowReaders(w, limit)
    ensures BelowReaders(w', limit)
  {
  }

  lemma ClockFrame(c: State, c': State, t: nat, u: nat)
    requires Clock.Step(c, c', t) && Sound(c)
    ensures |c'.pcs| == |c.pcs| && c.clock <= c'.clock && c.globalMin <= c'.globalMin && c.registered <= c'.registered
    ensures u != t && u < |c.pcs| ==> c'.pcs[u] == c.pcs[u]
  {
  }

  /** Only the clock of the tree has moved on. */
  ghost predicate SameRouting(t0: Tree, t1: Tree) { t1 == t0.(clock := t1.clock) }

  lemma SameAvoids(t0: Tree, t1: Tree, v: nat, kids: set<nat>, parents: set<nat>)
    requires SameRouting(t0, t1) && Avoids(t0, v, kids, parents)
    ensures Avoids(t1, v, kids, parents)
  {
    forall q: nat, k: nat, x: nat | v <= x && q !in parents && Visible(t1, q, k, x) && t1.meta[q].height > 1
      && Turns(t1, q, k, x)
      ensures ChildFor(t1, q, k, x) !in kids
    {
      assert Visible(t0, q, k, x) && Turns(t0, q, k, x) && ChildFor(t1, q, k, x) == ChildFor(t0, q, k, x);
    }
  }

  /** A step of the clock by `t` keeps what the other readers and allocators know. */
  lemma TickJob(w: World, w': World, t: nat, u: nat)
    requires Others(w, w', t) && SameRouting(w.tree, w'.tree) && u < |w.jobs| && u != t && JobOk(w, u)
    ensures JobOk(w', u)
  {
    hide BelowReaders;
    if w.jobs[u].HasBound? { BelowKept(w, w', t, w.jobs[u].limit); }
  }

  /** A step of the clock by `t` keeps what the other writers know. */
  lemma TickWork(w: World, w': World, t: nat, u: nat)
    requires Shape(w) && Clock.Step(w.clock, w'.clock, t) && SameRouting(w.tree, w'.tree)
    requires u < |w.works| && u < |w'.works| && w'.works[u] == w.works[u] && u != t && WorkOk(w, u)
    ensures WorkOk(w', u)
  {
    ClockFrame(w.clock, w'.clock, t, u);
    hide Shape, Shielded, Clock.Step, Avoids;
    match w.works[u] {
      case Below(p, olds, v) =>
        OpenKept(w, w', t, u, v);
        SameAvoids(w.tree, w'.tree, v, Replaced(w.tree, p, olds), {p} + Replaced(w.tree, p, olds));
      case AtRoot(s, v) =>
        OpenKept(w, w', t, u, v);
        SameAvoids(w.tree, w'.tree, v, {Top(w.tree).page, s}, {Top(w.tree).page, s});
      case _ =>
    }
  }

  lemma OpenKept(w: World, w': World, t: nat, u: nat, v: nat)
    requires Shape(w) && Clock.Step(w.clock, w'.clock, t) && u != t && OpenOk(w, u, v)
    ensures OpenOk(w', u, v)
  {
    ClockFrame(w.clock, w'.clock, t, u);
    OthersKeepShield(w.clock, w'.clock, u, t, v);
    hide Sound, Shielded, Clock.Step;
  }

  /** The other writers are where they were. */
  ghost predicate SameWorks(w: World, w': World, t: nat) {
    t < |w.works| == |w'.works| && forall u :: 0 <= u < |w.works| && u != t ==> w'.works[u] == w.works[u]
  }

  /** The pages `t` relies on are as before, or apart from those of all others. */
  ghost predicate StillApart(w: World, w': World, t: nat) {
    && SameWorks(w, w', t)
    && (w'.works[t] == w.works[t]
        || forall u :: 0 <= u < |w.works| && u != t ==> Held(w.tree, w'.works[t]) !! Held(w.tree, w.works[u]))
  }

  /** Calls and other ticks of the clock keep the shape, the tree and the books. */
  lemma TickKeeps(w: World, w': World, t: nat)
    requires GcOk(w) && Others(w, w', t) && Clock.Step(w.clock, w'.clock, t) && SameRouting(w.tree, w'.tree)
    requires w'.tree.clock == w'.clock.clock && w'.own == w.own && w'.limbo == w.limbo && w'.graveyard == w.graveyard
    requires JobOk(w', t) && t < |w'.works| && WorkOk(w', t) && w'.clock.clock <= w.clock.clock + 1
    requires StillApart(w, w', t)
    ensures GcOk(w')
  {
    hide *;
    ShapeClock(w);
    ApartWorks(w, w', t);
    TickShape(w, w', t);
    ThreadCount(w, w', t);
    forall u: nat | u < |w'.jobs| ensures JobOk(w', u) {
      if u != t { JobOf(w, u); OtherJob(w, w', t, u); TickJob(w, w', t, u); }
    }
    forall u: nat | u < |w'.works| ensures WorkOk(w', u) {
      if u != t { WorkCount(w, w', t, u); WorkOf(w, u); TickWork(w, w', t, u); }
    }
    TickBooks(w, w', t);
    GcIs(w');
  }

  lemma ApartWorks(w: World, w': World, t: nat)
    requires StillApart(w, w', t)
    ensures SameWorks(w, w', t)
  {
    hide Held;
  }

  lemma WorkCount(w: World, w': World, t: nat, u: nat)
    requires SameWorks(w, w', t) && u < |w'.works| && u != t
    ensures u < |w.works| == |w'.works| && w'.works[u] == w.works[u]
  {
  }

  lemma JobOf(w: World, u: nat)
    requires GcOk(w) && u < |w.jobs|
    ensures JobOk(w, u)
  {
    hide Woven, JobOk, WorkOk, Shape;
  }

  lemma WorkOf(w: World, u: nat)
    requires GcOk(w) && u < |w.works|
    ensures WorkOk(w, u)
  {
    hide Woven, JobOk, WorkOk, Shape;
  }

  lemma OtherJob(w: World, w': World, t: nat, u: nat)
    requires Others(w, w', t) && u < |w.jobs| && u != t
    ensures w'.jobs[u] == w.jobs[u]
  {
  }

  lemma ThreadCount(w: World, w': World, t: nat)
    requires Others(w, w', t)
    ensures t < |w'.jobs| == |w.jobs|
  {
  }

  lemma TickShape(w: World, w': World, t: nat)
    requires Shape(w) && Woven(w.tree) && Others(w, w', t) && SameWorks(w, w', t) && Clock.Step(w.clock, w'.clock, t)
    requires SameRouting(w.tree, w'.tree)
    requires w'.tree.clock == w'.clock.clock && w'.own == w.own && w'.clock.clock <= w.clock.clock + 1
    ensures Shape(w') && Woven(w'.tree)
  {
    hide *;
    ShapeSound(w);
    ClockFrame(w.clock, w'.clock, t, 0);
    StepKeepsSound(w.clock, w'.clock, t);
    ShapeTicks(w, w', t);
    TickTree(w.tree, w'.tree);
  }

  lemma ShapeSound(w: World)
    requires Shape(w)
    ensures Sound(w.clock) && w.tree.clock == w.clock.clock
  {
    hide Sound;
  }

  lemma ShapeTicks(w: World, w': World, t: nat)
    requires Shape(w) && Others(w, w', t) && SameWorks(w, w', t) && SameRouting(w.tree, w'.tree) && Sound(w'.clock)
    requires w'.tree.clock == w'.clock.clock && w'.own == w.own && w.clock.clock <= w'.clock.clock
    requires |w'.clock.pcs| == |w.clock.pcs| && w.clock.globalMin <= w'.clock.globalMin
    ensures Shape(w')
  {
    hide Sound;
  }

  lemma TickTree(t0: Tree, t1: Tree)
    requires Woven(t0) && SameRouting(t0, t1) && t0.clock <= t1.clock <= t0.clock + 1
    ensures Woven(t1)
  {
    hide Woven;
    if t1.clock != t0.clock { TickKeepsWoven(t0); }
    assert t1.clock == t0.clock ==> t1 == t0;
  }

  lemma OwnedSame(w: World, w': World)
    requires Owned(w) && w'.own == w.own && w'.tree.meta == w.tree.meta
    ensures Owned(w')
  {
    forall t: nat | t < |w'.own| ensures OwnsOutside(w', t) { assert OwnsOutside(w, t); }
  }

  lemma SameLatches(t0: Tree, t1: Tree, k: Work)
    requires t1.roots == t0.roots && t1.pages == t0.pages
    ensures Held(t1, k) == Held(t0, k)
  {
  }

  /** The latches, the pages taken and the dead pages are accounted for as before. */
  lemma TickBooks(w: World, w': World, t: nat)
    requires GcOk(w) && SameRouting(w.tree, w'.tree) && StillApart(w, w', t)
    requires w'.own == w.own && w'.limbo == w.limbo && w'.graveyard == w.graveyard
    ensures Exclusive(w') && Owned(w') && DeadLinks(w')
  {
    ExclusiveOf(w);
    OwnedSame(w, w');
    forall k: Work ensures Held(w'.tree, k) == Held(w.tree, k) { SameLatches(w.tree, w'.tree, k); }
    hide GcOk, Owned, Held;
  }

  lemma GcIs(w: World)
    requires Shape(w) && Woven(w.tree) && (forall t: nat :: t < |w.jobs| ==> JobOk(w, t))
    requires forall t: nat :: t < |w.works| ==> WorkOk(w, t)
    requires Exclusive(w) && Owned(w) && DeadLinks(w)
    ensures GcOk(w)
  {
    hide Shape, Woven, JobOk, WorkOk, Exclusive, Owned, DeadLinks;
  }

  // ---------------------------------------------------------------- clock steps

  /** What the caller knows after a step of its call. */
  lemma CallingJob(w: World, w': World, t: nat)
    requires Calling(w, w', t) && JobOk(w, t) && w.tree.horizon <= w.clock.globalMin <= w'.clock.globalMin
    ensures JobOk(w', t) && Others(w, w', t) && w'.tree == w.tree && w'.own == w.own && w'.limbo == w.limbo
    ensures w'.graveyard == w.graveyard && w'.works == w.works && t < |w.works|
  {
    hide Calls;
  }

  lemma CallingClock(w: World, w': World, t: nat)
    requires Calling(w, w', t) && Shape(w)
    ensures Clock.Step(w.clock, w'.clock, t) && w.clock.globalMin <= w'.clock.globalMin
    ensures w'.clock.clock == w.clock.clock
    ensures t < |w.jobs| && w'.tree == w.tree && t < |w.clock.pcs| && !w.clock.pcs[t].Committing?
  {
    assert Clock.Step(w.clock, w'.clock, t);
    ResultIsWatermark(w.clock, w'.clock, t);
    CallKeepsSound(w.clock, w'.clock, t);
    CallingPc(w.clock, w'.clock, t);
    hide Sound, Calls, Clock.Step;
  }

  lemma CallingPc(c: State, c': State, t: nat)
    requires Calls(c, c', t)
    ensures t < |c.pcs| && !c.pcs[t].Committing?
  {
  }

  /** A thread that is not committing has no reorganization under way. */
  lemma NotCommitting(w: World, t: nat)
    requires t < |w.works| && WorkOk(w, t) && t < |w.clock.pcs| && !w.clock.pcs[t].Committing?
    ensures !Open(w.works[t])
  {
    hide BelowHeld, RootHeld, Avoids, Shielded;
  }

  lemma NotOpenIsOk(w: World, t: nat)
    requires t < |w.works| && !Open(w.works[t])
    ensures WorkOk(w, t) && Held(w.tree, w.works[t]) == {}
  {
  }

  lemma UnchangedWorks(w: World, w': World, t: nat)
    requires w'.works == w.works && t < |w.works|
    ensures StillApart(w, w', t) && SameWorks(w, w', t)
  {
    hide Held;
  }

  lemma SameTree(t0: Tree, t1: Tree)
    requires t1 == t0
    ensures SameRouting(t0, t1)
  {
  }

  lemma CallingKeeps(w: World, w': World, t: nat)
    requires GcOk(w) && Calling(w, w', t)
    ensures GcOk(w')
  {
    hide *;
    ShapeClock(w);
    CallingClock(w, w', t);
    JobOf(w, t);
    WorkOf(w, t);
    CallingJob(w, w', t);
    NotCommitting(w, t);
    NotOpenIsOk(w', t);
    UnchangedWorks(w, w', t);
    SameTree(w.tree, w'.tree);
    TickKeeps(w, w', t);
  }

  /** A tick leaves the bound an allocator has composed below all readers. */
  lemma SameJobTicks(w: World, w': World, t: nat)
    requires t < |w.jobs| == |w'.jobs| && JobOk(w, t) && w'.jobs == w.jobs
    requires w.clock.globalMin <= w'.clock.globalMin && w'.tree == w.tree.(clock := w'.tree.clock)
    ensures JobOk(w', t) && Others(w, w', t)
  {
  }

  lemma TickingMoves(w: World, w': World, t: nat)
    requires Ticking(w, w', t)
    ensures t < |w.jobs| && Clock.Step(w.clock, w'.clock, t) && w'.jobs == w.jobs
    ensures t < |w.works| && !Open(w.works[t]) && w'.works == w.works
    ensures w'.tree == w.tree.(clock := w'.clock.clock) && w'.own == w.own && w'.limbo == w.limbo
    ensures w'.graveyard == w.graveyard && SameRouting(w.tree, w'.tree)
  {
    hide Clock.Step;
  }

  lemma OneTick(c: State, c': State, t: nat)
    requires Clock.Step(c, c', t)
    ensures c'.clock <= c.clock + 1
  {
  }

  lemma TickingKeeps(w: World, w': World, t: nat)
    requires GcOk(w) && Ticking(w, w', t)
    ensures GcOk(w')
  {
    hide *;
    TickingMoves(w, w', t);
    ShapeClock(w);
    JobOf(w, t);
    ClockFrame(w.clock, w'.clock, t, t);
    SameJobTicks(w, w', t);
    OneTick(w.clock, w'.clock, t);
    NotOpenIsOk(w', t);
    UnchangedWorks(w, w', t);
    TickKeeps(w, w', t);
  }

  lemma ShapeClock(w: World)
    requires GcOk(w)
    ensures w.tree.clock == w.clock.clock && |w.jobs| == |w.works| == |w.own| == |w.clock.pcs| && Shape(w)
    ensures Woven(w.tree) && Sound(w.clock)
    ensures w.tree.horizon <= w.clock.globalMin
  {
    hide Woven, JobOk, WorkOk, Sound;
  }

  // ---------------------------------------------------------------- drawing a version

  /** What a reorganization below a live parent knows when it has just drawn its version. */
  lemma DrawsBelow(w: World, w': World, t: nat)
    requires GcOk(w) && Draws(w, w', t) && w'.works[t].Below? && Founded(w, t, w'.works[t])
    ensures var p, olds, v := w'.works[t].parent, w'.works[t].olds, w'.works[t].version;
            BelowHeld(w'.tree, p, olds, v)
              && Avoids(w'.tree, v, Replaced(w'.tree, p, olds), {p} + Replaced(w'.tree, p, olds))
  {
    ShapeClock(w);
    var p, olds, v := w'.works[t].parent, w'.works[t].olds, w'.works[t].version;
    IndexIsHigh(w.tree, p);
    NewlyHeld(w.tree, p, olds);
    BelowOnlyParent(w.tree, p, olds, v);
    DrawAvoids(w.tree, Replaced(w.tree, p, olds), {p} + Replaced(w.tree, p, olds));
    SameAvoids(w.tree, w'.tree, v, Replaced(w.tree, p, olds), {p} + Replaced(w.tree, p, olds));
    hide GcOk, Woven, Avoids, Shape;
  }

  /** A live index page is not a leaf. */
  lemma IndexIsHigh(t: Tree, p: nat)
    requires Woven(t) && p < |t.pages| && t.pages[p].Index? && p < |t.meta| && IsLinked(t.meta[p])
    ensures t.meta[p].height > 1
  {
    WovenMeta(t);
    LiveIsVisible(t, p);
    hide Woven, MetaOk, Apart, RootsOk, LiveIndexes, OldRootsGone;
    assert Turns(t, p, t.meta[p].fence.lower, Max(t.meta[p].birth, t.horizon));
    LiveHeight(t, p);
  }

  lemma LiveIsVisible(t: Tree, p: nat)
    requires MetaOk(t) && p < |t.meta| && IsLinked(t.meta[p])
    ensures Visible(t, p, t.meta[p].fence.lower, Max(t.meta[p].birth, t.horizon))
  {
  }

  lemma LiveHeight(t: Tree, p: nat)
    requires MetaOk(t) && p < |t.meta| && IsLinked(t.meta[p])
    ensures t.meta[p].height >= 1
  {
  }

  lemma NewlyHeld(t: Tree, p: nat, olds: set<nat>)
    requires Woven(t) && p < |t.pages| && p < |t.meta| && IsLinked(t.meta[p]) && t.meta[p].height > 1
    requires OldsActive(Entries(t.pages[p]), olds)
    ensures BelowHeld(t, p, olds, t.clock)
  {
    WovenMeta(t);
    hide Woven, MetaOk, Apart, AllTurn, RootsOk, OldRootsGone, OlderThan;
    LiveIsOlder(t, p);
    forall c | t.meta[p].height > 2 && c in Children(Entries(t.pages[p]), olds) ensures OlderThan(t, c, t.clock) {
      var i :| i in olds && Entries(t.pages[p])[i].child == c;
      hide LiveIndexes;
      ChildIsOlder(t, p, i);
    }
  }

  lemma LiveIsOlder(t: Tree, p: nat)
    requires LiveIndexes(t) && p < |t.meta| && IsLinked(t.meta[p]) && t.meta[p].height > 1
    ensures LiveIndex(t, p) && OlderThan(t, p, t.clock)
  {
    assert LiveIndex(t, p);
    hide ActiveTiles, Births, ChildrenOk;
  }

  lemma ChildIsOlder(t: Tree, p: nat, i: nat)
    requires LiveIndexes(t) && LiveIndex(t, p) && i < |Entries(t.pages[p])| && Entries(t.pages[p])[i].Active()
    requires t.meta[p].height > 2
    ensures OlderThan(t, Entries(t.pages[p])[i].child, t.clock)
  {
    ActiveChild(t, p, i);
    hide LiveIndexes, LiveIndex, OlderThan;
    LiveIsOlder(t, Entries(t.pages[p])[i].child);
  }

  lemma DrawsAtRoot(w: World, w': World, t: nat)
    requires GcOk(w) && Draws(w, w', t) && w'.works[t].AtRoot?
    ensures var s, v := w'.works[t].source, w'.works[t].version;
            && |w'.tree.roots| > 0 && RootHeld(w'.tree, s, v)
            && Avoids(w'.tree, v, {Top(w'.tree).page, s}, {Top(w'.tree).page, s})
  {
    hide *;
    ShapeClock(w);
    DrawsSource(w, w', t);
    var s, v := w'.works[t].source, w'.works[t].version;
    ChildIsSource(w.tree, s);
    SameTop(w.tree, w'.tree);
    NewlyHeldRoot(w.tree, s);
    RootOnlyParent(w.tree, s);
    DrawAvoids(w.tree, {Top(w.tree).page, s}, {Top(w.tree).page, s});
    SameAvoids(w.tree, w'.tree, v, {Top(w.tree).page, s}, {Top(w.tree).page, s});
    SameRootHeld(w.tree, w'.tree, s, v);
  }

  /** The root, or the only child it has left: either spans the whole key space. */
  lemma ChildIsSource(t: Tree, s: nat)
    requires Woven(t) && |t.roots| > 0 && (s == Top(t).page || OnlyChild(t, s))
    ensures RootSource(t, s)
  {
    WovenMeta(t);
    TopIsLinked(t);
    if s != Top(t).page {
      IndexIsHigh(t, Top(t).page);
      hide Woven, MetaOk, Apart, AllTurn, RootsOk, OldRootsGone;
      var i: nat :| OnlyActive(Entries(t.pages[Top(t).page]), i) && Entries(t.pages[Top(t).page])[i].child == s;
      OnlyChildSpans(t, Top(t).page, i);
    }
  }

  lemma TopIsLinked(t: Tree)
    requires RootsOk(t)
    ensures |t.roots| > 0 && Top(t).page < |t.meta| && IsLinked(t.meta[Top(t).page])
    ensures t.meta[Top(t).page].fence == FULL
    ensures t.meta[Top(t).page].height == Top(t).height
  {
    hide RootServes;
  }

  lemma OnlyChildSpans(t: Tree, p: nat, i: nat)
    requires LiveIndexes(t) && p < |t.meta| && IsLinked(t.meta[p]) && t.meta[p].height > 1 && t.meta[p].fence == FULL
    requires p < |t.pages| && OnlyActive(Entries(t.pages[p]), i)
    ensures var c := Entries(t.pages[p])[i].child;
            c < |t.meta| && IsLinked(t.meta[c]) && t.meta[c].fence == FULL && t.meta[c].height + 1 == t.meta[p].height
  {
    LiveIsOlder(t, p);
    ActiveChild(t, p, i);
    TilesOf(t, p);
    hide LiveIndexes, LiveIndex, OlderThan;
    var es := Entries(t.pages[p]);
    assert ActiveAt(es, MIN_KEY) && ActiveAt(es, MAX_KEY);
  }

  lemma SameTop(t0: Tree, t1: Tree)
    requires SameRouting(t0, t1) && |t0.roots| > 0
    ensures |t1.roots| > 0 && Top(t1) == Top(t0)
  {
  }

  lemma SameRootHeld(t0: Tree, t1: Tree, s: nat, v: nat)
    requires RootHeld(t0, s, v) && SameRouting(t0, t1)
    ensures RootHeld(t1, s, v)
  {
  }

  lemma DrawsSource(w: World, w': World, t: nat)
    requires Draws(w, w', t) && w'.works[t].AtRoot?
    ensures t < |w'.works| && |w.tree.roots| > 0 && SameRouting(w.tree, w'.tree)
    ensures w'.works[t].source == Top(w.tree).page || OnlyChild(w.tree, w'.works[t].source)
    ensures w'.works[t].version == w.clock.clock
  {
    hide Latched, OnlyActive;
  }

  lemma NewlyHeldRoot(t: Tree, s: nat)
    requires Woven(t) && RootSource(t, s)
    ensures RootHeld(t, s, t.clock)
  {
    WovenMeta(t);
    SourceLinked(t, s);
    hide Woven, MetaOk, Apart, AllTurn, OldRootsGone, RootServes;
    if t.meta[s].height > 1 { assert LiveIndex(t, s); }
  }

  /** Latches are apart, and nobody reorganizes right below a root that is being replaced: then all is apart. */
  lemma ClearIsApart(t: Tree, a: Work, b: Work)
    requires Open(a) && Compatible(t, a, b) && |t.roots| > 0
    ensures Clear(t, a, b) <==> Held(t, a) !! Held(t, b)
  {
    hide Replaced;
  }

  lemma DrawsWork(w: World, w': World, t: nat)
    requires GcOk(w) && Draws(w, w', t) && Shielded(w'.clock, t, w'.works[t].version) && Founded(w, t, w'.works[t])
    ensures WorkOk(w', t)
  {
    if w'.works[t].Below? { DrawsBelow(w, w', t); } else { DrawsAtRoot(w, w', t); }
    hide GcOk, Woven, Avoids, BelowHeld, RootHeld, Shielded, Founded, Latched;
  }

  lemma DrawsApart(w: World, w': World, t: nat)
    requires Draws(w, w', t) && |w.tree.roots| > 0
    ensures t < |w'.works| && SameWorks(w, w', t)
    ensures (forall u :: 0 <= u < |w.works| && u != t ==> Clear(w.tree, w'.works[t], w.works[u]))
            <==> forall u :: 0 <= u < |w.works| && u != t ==> Held(w.tree, w'.works[t]) !! Held(w.tree, w.works[u])
  {
    hide Compatible, Clear, Held, Latched;
    forall u | 0 <= u < |w.works| && u != t
      ensures Clear(w.tree, w'.works[t], w.works[u]) <==> Held(w.tree, w'.works[t]) !! Held(w.tree, w.works[u])
    {
      ClearIsApart(w.tree, w'.works[t], w.works[u]);
    }
  }

  lemma DrawsKeeps(w: World, w': World, t: nat)
    requires GcOk(w) && Draws(w, w', t) && Shielded(w'.clock, t, w'.works[t].version) && Founded(w, t, w'.works[t])
    ensures GcOk(w')
  {
    DrawsWork(w, w', t);
    ShapeClock(w);
    HasRoot(w.tree);
    DrawsApart(w, w', t);
    DrawsClock(w, w', t);
    hide Woven, Shielded, Sound, Clock.Step, Latched, Held, Clear, WorkOk, JobOk, Exclusive, Owned, DeadLinks;
    DrawsJob(w, w', t);
    hide Draws, Founded, GcOk, Shape;
    TickKeeps(w, w', t);
  }

  lemma DrawsJob(w: World, w': World, t: nat)
    requires GcOk(w) && Draws(w, w', t) && w'.clock.globalMin >= w.clock.globalMin
    ensures JobOk(w', t)
  {
    DrawsOnly(w, w', t);
    JobOf(w, t);
    hide GcOk, Draws;
    SameJobTicks(w, w', t);
  }

  lemma DrawsOnly(w: World, w': World, t: nat)
    requires Draws(w, w', t)
    ensures t < |w.jobs| && w'.jobs == w.jobs && w'.tree == w.tree.(clock := w'.tree.clock)
  {
    hide StartCommit, Latched;
  }

  lemma HasRoot(t: Tree)
    requires Woven(t)
    ensures |t.roots| > 0
  {
    WovenMeta(t);
    TopIsLinked(t);
  }

  lemma DrawsClock(w: World, w': World, t: nat)
    requires Shape(w) && Draws(w, w', t)
    ensures Clock.Step(w.clock, w'.clock, t) && Others(w, w', t) && w'.clock.clock == w.clock.clock + 1
    ensures SameRouting(w.tree, w'.tree) && w'.clock.globalMin == w.clock.globalMin
    ensures w'.own == w.own && w'.limbo == w.limbo && w'.graveyard == w.graveyard && w'.tree.clock == w'.clock.clock
  {
    hide Latched;
  }

  /**
   A draw keeps the invariant exactly if the parent is part of the tree with no replacement of the root in
   its way, and the slot keeps the readers below the version.
   */
  lemma DrawIsSafeIff(w: World, w': World, t: nat)
    requires GcOk(w) && Draws(w, w', t)
    ensures GcOk(w') <==> Founded(w, t, w'.works[t]) && Shielded(w'.clock, t, w'.works[t].version)
  {
    if GcOk(w') {
      DrawnIsFounded(w, w', t);
    } else {
      hide GcOk, Draws, Founded, Shielded;
      if Founded(w, t, w'.works[t]) && Shielded(w'.clock, t, w'.works[t].version) { DrawsKeeps(w, w', t); }
    }
  }

  lemma DrawnIsFounded(w: World, w': World, t: nat)
    requires GcOk(w) && Draws(w, w', t) && GcOk(w')
    ensures Founded(w, t, w'.works[t]) && Shielded(w'.clock, t, w'.works[t].version)
  {
    ShapeClock(w);
    HasRoot(w.tree);
    DrawsApart(w, w', t);
    DrawsClock(w, w', t);
    WorkOf(w', t);
    ExclusiveOf(w');
    hide GcOk, Shape, Woven, Shielded, Sound, Clock.Step, Latched, Clear, Avoids, Owned, DeadLinks;
    assert forall k: Work :: Held(w'.tree, k) == Held(w.tree, k) by {
      forall k: Work ensures Held(w'.tree, k) == Held(w.tree, k) { SameLatches(w.tree, w'.tree, k); }
    }
    hide Held;
    assert w'.works[t].Below? ==> BelowHeld(w'.tree, w'.works[t].parent, w'.works[t].olds, w'.works[t].version);
  }

  // ---------------------------------------------------------------- steps that only move the thread

  /** A reader starts at a root that is part of the tree at its snapshot. */
  lemma RootVisible(t: Tree, k: nat, s: nat)
    requires Woven(t) && t.horizon <= s && k <= MAX_KEY && RootFor(t.roots, s).Some?
    ensures RootFor(t.roots, s).value < |t.roots| && Visible(t, t.roots[RootFor(t.roots, s).value].page, k, s)
  {
    WovenMeta(t);
    assert RootServes(t, s);
    hide Woven, MetaOk, Apart, LiveIndexes, AllTurn, OldRootsGone, RootsOk, RootFor;
  }

  /** A reader steps to a page that is part of the tree at its snapshot. */
  lemma ChildVisible(t: Tree, p: nat, k: nat, s: nat)
    requires Woven(t) && Visible(t, p, k, s) && p < |t.pages| && t.pages[p].Index?
    requires Route(Entries(t.pages[p]), k, s).Some?
    ensures Visible(t, Entries(t.pages[p])[Route(Entries(t.pages[p]), k, s).value].child, k, s)
    ensures Turns(t, p, k, s) && t.meta[p].height > 1
  {
    WovenMeta(t);
    assert Turns(t, p, k, s);
    hide Woven, Apart, LiveIndexes, AllTurn, OldRootsGone, RootsOk;
  }

  /** The pins cover every reader that has its snapshot; the others will draw at least the watermark seen before. */
  lemma BoundIsBelow(w: World, c: nat, least: Option<nat>, pin: Option<nat>)
    requires GcOk(w) && c <= w.clock.globalMin && LeastPin(w.jobs, pin)
    ensures BelowReaders(w, Lower(Lower(c, least), pin))
  {
    hide Woven, Exclusive, Owned, DeadLinks, Shape;
    forall i: nat | i < |w.jobs| && HasSnapshot(w.jobs[i]) ensures Lower(Lower(c, least), pin) <= w.jobs[i].snapshot {
      assert JobOk(w, i) && HoldsPin(w.jobs[i]);
    }
  }

  lemma StandsJob(w: World, w': World, t: nat, b: nat, s: nat, k: nat, p: nat)
    requires t < |w'.jobs| && w'.jobs[t] == Standing(b, s, k, p) && SnapshotOk(w, b, s) && k <= MAX_KEY
    requires Visible(w.tree, p, k, s)
    requires w'.clock == w.clock && w'.tree == w.tree
    ensures JobOk(w', t)
  {
    hide Visible;
  }

  lemma EntersJob(w: World, w': World, t: nat)
    requires GcOk(w) && Moves(w, w', t) && w.jobs[t].Drawn?
    ensures JobOk(w', t)
  {
    JobOf(w, t);
    ShapeClock(w);
    hide GcOk, Woven, BelowReaders, Shape, RootFor, Visible;
    var s := w.jobs[t].snapshot;
    if w'.jobs[t].Standing? {
      RootVisible(w.tree, w'.jobs[t].key, s);
      StandsJob(w, w', t, w.jobs[t].bound, s, w'.jobs[t].key, w'.jobs[t].page);
    }
  }

  lemma StepsJob(w: World, w': World, t: nat)
    requires GcOk(w) && Moves(w, w', t) && w.jobs[t].Standing?
    ensures JobOk(w', t)
  {
    hide *;
    MovesAt(w, w', t);
    JobOf(w, t);
    ShapeClock(w);
    StandingKnows(w, t);
    var r := WhereTo(w, w', t);
    match r {
      case Some(c) =>
        ChildVisible(w.tree, w.jobs[t].page, w.jobs[t].key, w.jobs[t].snapshot);
        StandsJob(w, w', t, w.jobs[t].bound, w.jobs[t].snapshot, w.jobs[t].key, c);
      case None => DrawnJob(w, w', t, w.jobs[t].bound, w.jobs[t].snapshot);
    }
  }

  lemma MovesAt(w: World, w': World, t: nat)
    requires Moves(w, w', t)
    ensures t < |w.jobs| == |w'.jobs| && w'.clock == w.clock && w'.tree == w.tree
    ensures forall u :: 0 <= u < |w.jobs| && u != t ==> w'.jobs[u] == w.jobs[u]
  {
    hide Route, RootFor, LeastPin;
  }

  lemma StandingKnows(w: World, t: nat)
    requires t < |w.jobs| && w.jobs[t].Standing? && JobOk(w, t)
    ensures SnapshotOk(w, w.jobs[t].bound, w.jobs[t].snapshot) && w.jobs[t].key <= MAX_KEY
    ensures Visible(w.tree, w.jobs[t].page, w.jobs[t].key, w.jobs[t].snapshot)
  {
    hide Visible;
  }

  /** A reader that stands on a page either leaves or steps to the child chosen there. */
  lemma WhereTo(w: World, w': World, t: nat) returns (r: Option<nat>)
    requires Moves(w, w', t) && w.jobs[t].Standing?
    ensures t < |w'.jobs| && w'.clock == w.clock && w'.tree == w.tree
    ensures var j := w.jobs[t];
            match r
            case None => w'.jobs[t] == Drawn(j.bound, j.snapshot)
            case Some(c) =>
              && j.page < |w.tree.pages| && w.tree.pages[j.page].Index?
              && Route(Entries(w.tree.pages[j.page]), j.key, j.snapshot).Some?
              && Route(Entries(w.tree.pages[j.page]), j.key, j.snapshot).value < |Entries(w.tree.pages[j.page])|
              && c == Entries(w.tree.pages[j.page])[Route(Entries(w.tree.pages[j.page]), j.key, j.snapshot).value].child
              && w'.jobs[t] == Standing(j.bound, j.snapshot, j.key, c)
  {
    hide Route;
    r := if w'.jobs[t].Standing? then Some(w'.jobs[t].page) else None;
  }

  lemma DrawnJob(w: World, w': World, t: nat, b: nat, s: nat)
    requires t < |w'.jobs| && w'.jobs[t] == Drawn(b, s) && SnapshotOk(w, b, s) && w'.clock == w.clock
    requires w'.tree == w.tree
    ensures JobOk(w', t)
  {
  }

  lemma BoundOf(w: World, w': World, t: nat) returns (limit: nat)
    requires Moves(w, w', t) && JobOk(w, t) && w.jobs[t].SawReaders? && GcOk(w)
    ensures BelowReaders(w, limit) && w'.jobs[t] == HasBound(limit)
  {
    var c, least := w.jobs[t].committed, w.jobs[t].least;
    assert c <= w.clock.globalMin;
    hide GcOk, BelowReaders, LeastPin, JobOk;
    var pin: Option<nat> :| LeastPin(w.jobs, pin) && w'.jobs[t] == HasBound(Lower(Lower(c, least), pin));
    limit := Lower(Lower(c, least), pin);
    BoundIsBelow(w, c, least, pin);
  }

  lemma BoundJob(w: World, t: nat, limit: nat)
    requires t < |w.jobs| && w.jobs[t] == HasBound(limit) && BelowReaders(w, limit)
    ensures JobOk(w, t)
  {
    hide BelowReaders;
  }

  lemma BoundsJob(w: World, w': World, t: nat)
    requires GcOk(w) && Moves(w, w', t) && w.jobs[t].SawReaders?
    ensures JobOk(w', t)
  {
    hide *;
    MovesAt(w, w', t);
    JobOf(w, t);
    var limit := BoundOf(w, w', t);
    NoSnapshot(w'.jobs[t]);
    SameBelow(w, w', t, limit);
    BoundJob(w', t, limit);
  }

  lemma NoSnapshot(j: Job)
    requires j.HasBound?
    ensures !HasSnapshot(j)
  {
  }

  /** Starting a call, pinning, seeing the registered readers, giving up. */
  lemma PlainJob(w: World, w': World, t: nat)
    requires Moves(w, w', t) && JobOk(w, t) && !w.jobs[t].Drawn? && !w.jobs[t].Standing? && !w.jobs[t].SawReaders?
    ensures JobOk(w', t) && !HasSnapshot(w'.jobs[t])
  {
    hide BelowReaders, LeastPin, Route, RootFor;
  }

  lemma SameSnapshot(w: World, w': World, t: nat)
    requires Moves(w, w', t) && (w.jobs[t].Drawn? || w.jobs[t].Standing? || w.jobs[t].SawReaders?)
    ensures HasSnapshot(w'.jobs[t]) ==> HasSnapshot(w.jobs[t]) && w'.jobs[t].snapshot == w.jobs[t].snapshot
  {
    hide LeastPin, Route, RootFor;
  }

  lemma MovesOthers(w: World, w': World, t: nat)
    requires t < |w.jobs| == |w'.jobs| && w'.clock == w.clock
    requires forall u :: 0 <= u < |w.jobs| && u != t ==> w'.jobs[u] == w.jobs[u]
    requires HasSnapshot(w'.jobs[t]) ==> HasSnapshot(w.jobs[t]) && w'.jobs[t].snapshot == w.jobs[t].snapshot
    ensures Others(w, w', t)
  {
  }

  lemma MovesJob(w: World, w': World, t: nat)
    requires GcOk(w) && Moves(w, w', t)
    ensures JobOk(w', t) && Others(w, w', t)
  {
    hide *;
    MovesAt(w, w', t);
    JobOf(w, t);
    match w.jobs[t] {
      case Drawn(_, _) =>
        EntersJob(w, w', t);
        SameSnapshot(w, w', t);
      case Standing(_, _, _, _) =>
        StepsJob(w, w', t);
        SameSnapshot(w, w', t);
      case SawReaders(_, _) =>
        BoundsJob(w, w', t);
        SameSnapshot(w, w', t);
      case _ => PlainJob(w, w', t);
    }
    MovesOthers(w, w', t);
  }

  lemma SameBelow(w: World, w': World, t: nat, limit: nat)
    requires BelowReaders(w, limit) && t < |w.jobs| && |w'.jobs| == |w.jobs| && w'.clock == w.clock
    requires !HasSnapshot(w'.jobs[t])
    requires forall u :: 0 <= u < |w.jobs| && u != t ==> w'.jobs[u] == w.jobs[u]
    ensures BelowReaders(w', limit)
  {
  }

  /** A thread that only moves does not disturb the others. */
  lemma MoveJob(w: World, w': World, t: nat, u: nat)
    requires JobOk'(w, u) && Others(w, w', t) && w'.clock == w.clock && w'.tree == w.tree && u != t
    ensures JobOk'(w', u)
  {
    hide BelowReaders, Visible;
    if w.jobs[u].HasBound? { BelowKept(w, w', t, w.jobs[u].limit); }
  }

  ghost predicate JobOk'(w: World, u: nat) { u < |w.jobs| && JobOk(w, u) }

  lemma MovesKeeps(w: World, w': World, t: nat)
    requires GcOk(w) && Moves(w, w', t)
    ensures GcOk(w')
  {
    MovesJob(w, w', t);
    MovesBooks(w, w', t);
    ShapeClock(w);
    hide JobOk, WorkOk, Woven, Shape, Moves, GcOk;
    ThreadCount(w, w', t);
    forall u: nat | u < |w'.jobs| ensures JobOk(w', u) {
      if u != t { JobOf(w, u); OtherJob(w, w', t, u); MoveJob(w, w', t, u); }
    }
    forall u: nat | u < |w'.works| ensures WorkOk(w', u) { WorkOf(w, u); WorkSame(w, w', u); }
    GcIs(w');
  }

  lemma WorkSame(w: World, w': World, u: nat)
    requires u < |w.works| && WorkOk(w, u) && w'.clock == w.clock && w'.tree == w.tree && u < |w'.works|
    requires w'.works[u] == w.works[u]
    ensures WorkOk(w', u)
  {
    hide Avoids, Shielded, BelowHeld, RootHeld;
  }

  lemma MovesBooks(w: World, w': World, t: nat)
    requires GcOk(w) && Moves(w, w', t)
    ensures Shape(w') && Woven(w'.tree) && Exclusive(w') && Owned(w') && DeadLinks(w') && w'.clock == w.clock
    ensures w'.tree == w.tree && w'.works == w.works
  {
    hide Woven, JobOk, WorkOk, Sound, Route, RootFor, LeastPin, Owned, DeadLinks, Held;
    SameBooks(w, w');
  }

  /** A thread that holds no pages any more leaves the others theirs. */
  lemma ExclusiveKept(w: World, w': World, t: nat)
    requires Exclusive(w) && SameWorks(w, w', t) && Held(w'.tree, w'.works[t]) == {}
    requires forall u :: 0 <= u < |w.works| && u != t ==> Held(w'.tree, w.works[u]) == Held(w.tree, w.works[u])
    ensures Exclusive(w')
  {
    hide Held;
  }

  lemma SameBooks(w: World, w': World)
    requires Owned(w) && DeadLinks(w) && w'.tree == w.tree && w'.own == w.own && w'.limbo == w.limbo
    requires w'.graveyard == w.graveyard
    ensures Owned(w') && DeadLinks(w')
  {
    OwnedSame(w, w');
    hide Owned;
  }

  lemma JobSame(w: World, w': World, u: nat)
    requires u < |w.jobs| && JobOk(w, u) && w'.clock == w.clock && w'.tree == w.tree && w'.jobs == w.jobs
    ensures JobOk(w', u)
  {
    hide Visible;
  }

  lemma BuriesKeeps(w: World, w': World)
    requires GcOk(w) && Buries(w, w')
    ensures GcOk(w')
  {
    hide *;
    BuriesBooks(w, w');
    forall u: nat | u < |w'.jobs| ensures JobOk(w', u) { JobOf(w, u); JobSame(w, w', u); }
    forall u: nat | u < |w'.works| ensures WorkOk(w', u) { WorkOf(w, u); WorkSame(w, w', u); }
    GcIs(w');
  }

  lemma BuriesBooks(w: World, w': World)
    requires GcOk(w) && Buries(w, w')
    ensures Shape(w') && Woven(w'.tree) && Exclusive(w') && Owned(w') && DeadLinks(w')
    ensures w'.clock == w.clock && w'.tree == w.tree && w'.jobs == w.jobs && w'.works == w.works
  {
    ShapeClock(w);
    ExclusiveOf(w);
    hide GcOk, Woven, Sound, Held;
    var d :| d in w.limbo && w' == w.(limbo := w.limbo - {d}, graveyard := w.graveyard + {d});
    OwnedSame(w, w');
    assert w'.limbo + w'.graveyard == w.limbo + w.graveyard;
    hide Owned;
  }

  // ---------------------------------------------------------------- latches and records

  lemma LatchesKeeps(w: World, w': World, t: nat)
    requires GcOk(w) && Latches(w, w', t)
    ensures GcOk(w')
  {
    LatchesBooks(w, w', t);
    hide Woven, Shape, JobOk, WorkOk, Exclusive, Owned, DeadLinks;
    forall u: nat | u < |w'.jobs| ensures JobOk(w', u) { JobOf(w, u); JobSame(w, w', u); }
    NotOpenIsOk(w', t);
    forall u: nat | u < |w'.works| ensures WorkOk(w', u) {
      if u != t { WorkOf(w, u); WorkSame(w, w', u); }
    }
    hide GcOk, Latches;
    GcIs(w');
  }

  lemma LatchesBooks(w: World, w': World, t: nat)
    requires GcOk(w) && Latches(w, w', t)
    ensures Shape(w') && Woven(w'.tree) && Exclusive(w') && Owned(w') && DeadLinks(w')
    ensures t < |w'.works| && !Open(w'.works[t])
  {
    ShapeClock(w);
    ExclusiveOf(w);
    hide GcOk, Woven, Sound, Latched, DeadLinks;
    OwnedSame(w, w');
    NotOpenIsOk(w', t);
    hide Owned;
    ExclusiveKept(w, w', t);
    SameBooks(w, w');
  }

  lemma WritesMoves(w: World, w': World, t: nat, q: Page)
    requires Writes(w, w', t, q)
    ensures SameIndexes(w.tree, w'.tree) && w' == w.(tree := w'.tree) && w'.tree.meta == w.tree.meta
    ensures w'.tree.roots == w.tree.roots && w'.tree.clock == w.tree.clock && w'.tree.horizon == w.tree.horizon
  {
  }

  lemma WriteJob(w: World, w': World, u: nat)
    requires SameIndexes(w.tree, w'.tree) && w' == w.(tree := w'.tree) && u < |w.jobs| && JobOk(w, u)
    ensures JobOk(w', u)
  {
    RecordsAside(w.tree, w'.tree);
    hide SameIndexes;
  }

  lemma WriteWork(w: World, w': World, u: nat)
    requires SameIndexes(w.tree, w'.tree) && w' == w.(tree := w'.tree) && u < |w.works| && WorkOk(w, u)
    ensures WorkOk(w', u) && Held(w'.tree, w.works[u]) == Held(w.tree, w.works[u])
  {
    RecordsAside(w.tree, w'.tree);
    hide SameIndexes, Avoids, Shielded, BelowHeld, RootHeld, Replaced;
    match w.works[u] {
      case Below(p, olds, v) =>
        WriteBelow(w.tree, w'.tree, p, olds, v);
        WriteAvoids(w.tree, w'.tree, v, Replaced(w.tree, p, olds), {p} + Replaced(w.tree, p, olds));
      case AtRoot(s, v) =>
        RootHasTop(w.tree, s, v);
        WriteRoot(w.tree, w'.tree, s, v);
        WriteAvoids(w.tree, w'.tree, v, {Top(w.tree).page, s}, {Top(w.tree).page, s});
      case _ =>
    }
  }

  lemma WritesBooks(w: World, w': World, t: nat, q: Page)
    requires GcOk(w) && Writes(w, w', t, q)
    ensures Shape(w') && Woven(w'.tree) && Owned(w') && DeadLinks(w')
  {
    ShapeClock(w);
    ExclusiveOf(w);
    WritesMoves(w, w', t, q);
    hide GcOk, Woven, Sound, Exclusive, SameIndexes, Writes;
    WriteKeepsWoven(w.tree, w'.tree);
    OwnedSame(w, w');
    hide Owned;
  }

  lemma WritesKeeps(w: World, w': World, t: nat, q: Page)
    requires GcOk(w) && Writes(w, w', t, q)
    ensures GcOk(w')
  {
    WritesMoves(w, w', t, q);
    WritesBooks(w, w', t, q);
    ExclusiveOf(w);
    hide Woven, Shape, JobOk, WorkOk, Owned, DeadLinks, SameIndexes, Writes, Held;
    forall u: nat | u < |w'.jobs| ensures JobOk(w', u) { JobOf(w, u); WriteJob(w, w', u); }
    forall u: nat | u < |w'.works| ensures WorkOk(w', u) && Held(w'.tree, w.works[u]) == Held(w.tree, w.works[u]) {
      WorkOf(w, u);
      WriteWork(w, w', u);
    }
    hide GcOk;
    SameExclusive(w, w');
    GcIs(w');
  }

  lemma WorksKeeps(w: World, w': World, t: nat)
    requires GcOk(w) && Works(w, w', t)
    ensures GcOk(w')
  {
    hide GcOk, Latches, Writes;
    if Latches(w, w', t) {
      LatchesKeeps(w, w', t);
    } else {
      var q :| Writes(w, w', t, q);
      WritesKeeps(w, w', t, q);
    }
  }

  // ---------------------------------------------------------------- pages outside the tree

  lemma ForgetVisible(t0: Tree, t1: Tree, id: nat, p: nat, k: nat, s: nat)
    requires Forgets(t0, t1, id) && Visible(t0, p, k, s) && t1.horizon <= s
    ensures Visible(t1, p, k, s) && p != id
  {
  }

  lemma ForgetPage(t0: Tree, t1: Tree, id: nat, q: nat)
    requires Forgets(t0, t1, id) && q < |t0.meta| && IsLinked(t0.meta[q])
    ensures q < |t0.pages| && q < |t1.pages| && q < |t1.meta| && t1.pages[q] == t0.pages[q] && t1.meta[q] == t0.meta[q]
  {
  }

  lemma HeldParent(t: Tree, p: nat, olds: set<nat>, v: nat)
    requires BelowHeld(t, p, olds, v)
    ensures p < |t.meta| && IsLinked(t.meta[p])
  {
  }

  lemma ForgetBelow(t0: Tree, t1: Tree, id: nat, p: nat, olds: set<nat>, v: nat)
    requires Woven(t0) && Forgets(t0, t1, id) && BelowHeld(t0, p, olds, v)
    ensures BelowHeld(t1, p, olds, v) && Replaced(t1, p, olds) == Replaced(t0, p, olds)
  {
    BelowOnlyParent(t0, p, olds, v);
    HeldParent(t0, p, olds, v);
    hide Woven, OnlyParents, Forgets, BelowHeld, Replaced;
    ForgetPage(t0, t1, id, p);
    forall c | c in Replaced(t0, p, olds) ensures c < |t1.pages| && c < |t0.pages| && t1.pages[c] == t0.pages[c] {
      ForgetPage(t0, t1, id, c);
    }
    HeldAgain(t0, t1, p, olds, v);
  }

  lemma ForgetRoot(t0: Tree, t1: Tree, id: nat, s: nat, v: nat)
    requires Forgets(t0, t1, id) && RootHeld(t0, s, v)
    ensures RootHeld(t1, s, v) && Top(t1) == Top(t0)
  {
    hide VersionsOk;
  }

  lemma ForgetJob(w: World, w': World, u: nat, id: nat)
    requires Forgets(w.tree, w'.tree, id) && w'.clock == w.clock && u < |w.jobs| && u < |w'.jobs|
    requires JobOk(w, u) && w'.jobs[u] == w.jobs[u]
    requires HasSnapshot(w.jobs[u]) ==> w'.tree.horizon <= w.jobs[u].snapshot
    requires w.jobs[u].HasBound? ==> BelowReaders(w', w.jobs[u].limit)
    ensures JobOk(w', u)
  {
    hide Forgets, Visible, BelowReaders;
    if w.jobs[u].Standing? {
      ForgetVisible(w.tree, w'.tree, id, w.jobs[u].page, w.jobs[u].key, w.jobs[u].snapshot);
    }
  }

  lemma ForgetWork(w: World, w': World, u: nat, id: nat)
    requires Woven(w.tree) && Forgets(w.tree, w'.tree, id) && w'.clock == w.clock && u < |w.works| && u < |w'.works|
    requires WorkOk(w, u) && w'.works[u] == w.works[u]
    ensures WorkOk(w', u)
  {
    hide Woven, Forgets, Shielded, Avoids, BelowHeld, RootHeld;
    match w.works[u] {
      case Below(p, olds, v) =>
        ForgetBelow(w.tree, w'.tree, id, p, olds, v);
        ForgetAvoids(w.tree, w'.tree, id, v, Replaced(w.tree, p, olds), {p} + Replaced(w.tree, p, olds));
      case AtRoot(s, v) =>
        RootHasTop(w.tree, s, v);
        ForgetRoot(w.tree, w'.tree, id, s, v);
        ForgetAvoids(w.tree, w'.tree, id, v, {Top(w.tree).page, s}, {Top(w.tree).page, s});
      case _ =>
    }
  }

  lemma RootHasTop(t: Tree, s: nat, v: nat)
    requires RootHeld(t, s, v)
    ensures |t.roots| > 0
  {
  }

  lemma ForgetHeld(w: World, w': World, u: nat, id: nat)
    requires Woven(w.tree) && Forgets(w.tree, w'.tree, id) && u < |w.works| && WorkOk(w, u)
    ensures Held(w'.tree, w.works[u]) == Held(w.tree, w.works[u])
  {
    hide *;
    ForgetRoots(w.tree, w'.tree, id);
    match w.works[u] {
      case Below(p, olds, v) =>
        WorkBelow(w, u);
        ForgetBelow(w.tree, w'.tree, id, p, olds, v);
        BelowLatches(w.tree, w'.tree, p, olds, v);
      case _ => SameRoots(w.tree, w'.tree, w.works[u]);
    }
  }

  lemma WorkBelow(w: World, u: nat)
    requires u < |w.works| && WorkOk(w, u) && w.works[u].Below?
    ensures var p, olds, v := w.works[u].parent, w.works[u].olds, w.works[u].version;
            && OpenOk(w, u, v) && BelowHeld(w.tree, p, olds, v)
            && Avoids(w.tree, v, Replaced(w.tree, p, olds), {p} + Replaced(w.tree, p, olds))
  {
    hide OpenOk, BelowHeld, Avoids, Replaced;
  }

  lemma WorkRoot(w: World, u: nat)
    requires u < |w.works| && WorkOk(w, u) && w.works[u].AtRoot?
    ensures var s, v := w.works[u].source, w.works[u].version;
            && OpenOk(w, u, v) && RootHeld(w.tree, s, v) && |w.tree.roots| > 0
            && Avoids(w.tree, v, {Top(w.tree).page, s}, {Top(w.tree).page, s})
  {
    RootHasTop(w.tree, w.works[u].source, w.works[u].version);
    hide OpenOk, RootHeld, Avoids;
  }

  lemma BelowLatches(t0: Tree, t1: Tree, p: nat, olds: set<nat>, v: nat)
    requires Replaced(t1, p, olds) == Replaced(t0, p, olds)
    ensures Held(t1, Below(p, olds, v)) == Held(t0, Below(p, olds, v)) == {p} + Replaced(t0, p, olds)
  {
    hide Replaced;
  }

  lemma SameRoots(t0: Tree, t1: Tree, j: Work)
    requires t1.roots == t0.roots && !j.Below?
    ensures Held(t1, j) == Held(t0, j)
  {
  }

  lemma ForgetRoots(t0: Tree, t1: Tree, id: nat)
    requires Forgets(t0, t1, id)
    ensures t1.roots == t0.roots && t1.clock == t0.clock
  {
  }

  /** A page outside the tree joins what one thread holds. */
  lemma OwnedMore(w: World, w': World, t: nat, id: nat)
    requires Owned(w) && t < |w.own| && w'.own == w.own[t := w.own[t] + {id}] && Forgets(w.tree, w'.tree, id)
    requires forall u :: 0 <= u < |w.own| && u != t ==> id !in w.own[u]
    ensures Owned(w')
  {
    forall u: nat | u < |w'.own| ensures OwnsOutside(w', u) {
      assert OwnsOutside(w, u);
      forall b | b in w'.own[u] ensures Outside(w'.tree, b) {
        if b != id { assert b in w.own[u] && Outside(w.tree, b); }
      }
    }
    forall u, x | 0 <= u < |w'.own| && 0 <= x < |w'.own| && u != x ensures w'.own[u] !! w'.own[x] {
      assert w.own[u] !! w.own[x];
    }
  }

  lemma OwnIs(w: World, u: nat, b: nat)
    requires Owned(w) && u < |w.own| && b in w.own[u]
    ensures b < |w.tree.meta| && w.tree.meta[b] == Unlinked && Outside(w.tree, b)
  {
    assert OwnsOutside(w, u);
  }

  lemma OwnApart(w: World, t: nat, u: nat, b: nat)
    requires Owned(w) && t < |w.own| && u < |w.own| && t != u && b in w.own[t]
    ensures b !in w.own[u]
  {
    assert w.own[t] !! w.own[u];
  }

  lemma LinksKept(w: World, w': World, id: nat)
    requires DeadLinks(w) && Forgets(w.tree, w'.tree, id) && w'.limbo == w.limbo && w'.graveyard <= w.graveyard
    requires forall d :: d in w'.limbo + w'.graveyard ==> d.page != id
    ensures DeadLinks(w')
  {
    forall d | d in w'.limbo + w'.graveyard ensures DiedAt(w'.tree, d) {
      assert d in w.limbo + w.graveyard && DiedAt(w.tree, d);
    }
  }

  lemma LinkIs(w: World, d: Dead)
    requires DeadLinks(w) && d in w.limbo + w.graveyard
    ensures DiedAt(w.tree, d)
  {
  }

  lemma FillsBooks(w: World, w': World, t: nat, id: nat)
    requires GcOk(w) && Fills(w, w', t, id)
    ensures Owned(w') && DeadLinks(w')
  {
    ExclusiveOf(w);
    assert id < |w.tree.meta| ==> w.tree.meta[id] == Unlinked by {
      if id in w.own[t] { OwnIs(w, t, id); }
    }
    forall u: nat | u < |w.own| && u != t ensures id !in w.own[u] {
      if id in w.own[t] { OwnApart(w, t, u, id); } else if id in w.own[u] { OwnIs(w, u, id); }
    }
    forall d | d in w.limbo + w.graveyard ensures d.page != id { LinkIs(w, d); }
    hide GcOk, Owned, DeadLinks;
    OwnedMore(w, w', t, id);
    LinksKept(w, w', id);
  }

  lemma FillsKeeps(w: World, w': World, t: nat, id: nat)
    requires GcOk(w) && Fills(w, w', t, id)
    ensures GcOk(w')
  {
    FillsBooks(w, w', t, id);
    ShapeClock(w);
    FillsParts(w, w', t, id);
    hide GcOk, Fills;
    hide Woven, JobOk, WorkOk, Forgets, Owned, DeadLinks;
    ForgetKeepsWoven(w.tree, w'.tree, id);
    forall u: nat | u < |w'.jobs| ensures JobOk(w', u) {
      JobOf(w, u);
      SnapshotsKept(w, u);
      BoundSame(w, w', u);
      ForgetJob(w, w', u, id);
    }
    forall u: nat | u < |w.works| ensures WorkOk(w', u) && Held(w'.tree, w.works[u]) == Held(w.tree, w.works[u]) {
      WorkOf(w, u);
      ForgetWork(w, w', u, id);
      ForgetHeld(w, w', u, id);
    }
    ExclusiveOf(w);
    SameExclusive(w, w');
    GcIs(w');
  }

  lemma ExclusiveOf(w: World)
    requires GcOk(w)
    ensures Exclusive(w) && Owned(w) && DeadLinks(w)
  {
    hide Woven, JobOk, WorkOk, Shape, Exclusive, Owned, DeadLinks;
  }

  lemma SameExclusive(w: World, w': World)
    requires Exclusive(w) && w'.works == w.works
    requires forall u: nat :: u < |w.works| ==> Held(w'.tree, w.works[u]) == Held(w.tree, w.works[u])
    ensures Exclusive(w')
  {
    hide Held;
  }

  lemma FillsParts(w: World, w': World, t: nat, id: nat)
    requires Shape(w) && Fills(w, w', t, id)
    ensures Shape(w') && Forgets(w.tree, w'.tree, id) && w'.clock == w.clock && w'.jobs == w.jobs
    ensures w'.tree.horizon == w.tree.horizon && w'.works == w.works
  {
    ForgetRoots(w.tree, w'.tree, id);
    hide Forgets, Sound;
  }

  lemma SnapshotsKept(w: World, u: nat)
    requires u < |w.jobs| && JobOk(w, u)
    ensures HasSnapshot(w.jobs[u]) ==> w.tree.horizon <= w.jobs[u].snapshot
  {
  }

  lemma BoundSame(w: World, w': World, u: nat)
    requires u < |w.jobs| && JobOk(w, u) && w'.clock == w.clock && w'.jobs == w.jobs
    ensures w.jobs[u].HasBound? ==> BelowReaders(w', w.jobs[u].limit)
  {
  }

  // ---------------------------------------------------------------- handing a page out

  /** The page died below every snapshot in use, and below what later readers will draw. */
  lemma ClaimIsBelow(w: World, w': World, t: nat, d: Dead, u: nat)
    requires GcOk(w) && Claims(w, w', t, d) && u < |w.jobs| && HasSnapshot(w.jobs[u])
    ensures d.death < w.jobs[u].snapshot && w'.tree.horizon <= w.jobs[u].snapshot
  {
    JobOf(w, t);
    JobOf(w, u);
    SnapshotsKept(w, u);
    hide GcOk, Forgets, JobOk;
    LimitIsBelow(w, t, u);
  }

  lemma LimitIsBelow(w: World, t: nat, u: nat)
    requires t < |w.jobs| && JobOk(w, t) && w.jobs[t].HasBound? && u < |w.jobs| && HasSnapshot(w.jobs[u])
    ensures w.jobs[t].limit <= w.jobs[u].snapshot && w.jobs[t].limit <= w.clock.globalMin
  {
  }

  lemma ClaimsBooks(w: World, w': World, t: nat, d: Dead)
    requires GcOk(w) && Claims(w, w', t, d)
    ensures Owned(w') && DeadLinks(w')
  {
    ExclusiveOf(w);
    hide GcOk;
    assert d in w.limbo + w.graveyard && DiedAt(w.tree, d);
    forall u: nat | u < |w.own| && u != t ensures d.page !in w.own[u] {
      if d.page in w.own[u] { OwnIs(w, u, d.page); }
    }
    forall e | e in w'.limbo + w'.graveyard ensures e.page != d.page {
      assert e in w.limbo + w.graveyard;
    }
    hide Owned, DeadLinks;
    OwnedMore(w, w', t, d.page);
    LinksKept(w, w', d.page);
  }

  lemma ClaimsParts(w: World, w': World, t: nat, d: Dead)
    requires GcOk(w) && Claims(w, w', t, d)
    ensures Shape(w') && Forgets(w.tree, w'.tree, d.page) && w'.clock == w.clock && t < |w'.jobs| == |w.jobs|
    ensures w'.jobs[t] == Free && w'.works == w.works
    ensures forall u :: 0 <= u < |w.jobs| && u != t ==> w'.jobs[u] == w.jobs[u]
  {
    JobOf(w, t);
    ForgetRoots(w.tree, w'.tree, d.page);
    hide Forgets, Sound, Woven, JobOk, WorkOk, Exclusive, Owned, DeadLinks;
    LimitBelowWatermark(w, t);
  }

  lemma LimitBelowWatermark(w: World, t: nat)
    requires t < |w.jobs| && JobOk(w, t) && w.jobs[t].HasBound?
    ensures w.jobs[t].limit <= w.clock.globalMin
  {
  }

  lemma ClaimsJob(w: World, w': World, t: nat, d: Dead, u: nat)
    requires GcOk(w) && Claims(w, w', t, d) && u < |w.jobs| && u != t
    ensures u < |w'.jobs| && JobOk(w', u)
  {
    ClaimsParts(w, w', t, d);
    JobOf(w, u);
    ShapeClock(w);
    if HasSnapshot(w.jobs[u]) { ClaimIsBelow(w, w', t, d, u); }
    hide GcOk, Claims, JobOk, Woven, Forgets, Shape;
    LimitKept(w, w', t, u);
    ForgetJob(w, w', u, d.page);
  }

  lemma ClaimsWork(w: World, w': World, t: nat, d: Dead, u: nat)
    requires GcOk(w) && Claims(w, w', t, d) && u < |w.works|
    ensures u < |w'.works| && WorkOk(w', u) && Held(w'.tree, w.works[u]) == Held(w.tree, w.works[u])
  {
    ClaimsParts(w, w', t, d);
    WorkOf(w, u);
    ShapeClock(w);
    hide GcOk, Claims, WorkOk, Woven, Forgets, Shape;
    ForgetHeld(w, w', u, d.page);
    ForgetWork(w, w', u, d.page);
  }

  lemma LimitKept(w: World, w': World, t: nat, u: nat)
    requires u < |w.jobs| && JobOk(w, u) && w'.clock == w.clock && t < |w'.jobs| == |w.jobs| && w'.jobs[t] == Free
    requires forall x :: 0 <= x < |w.jobs| && x != t ==> w'.jobs[x] == w.jobs[x]
    ensures w.jobs[u].HasBound? ==> BelowReaders(w', w.jobs[u].limit)
  {
  }

  lemma ClaimsKeeps(w: World, w': World, t: nat, d: Dead)
    requires GcOk(w) && Claims(w, w', t, d)
    ensures GcOk(w')
  {
    hide *;
    ClaimsBooks(w, w', t, d);
    ClaimsParts(w, w', t, d);
    ShapeClock(w);
    ForgetKeepsWoven(w.tree, w'.tree, d.page);
    forall u: nat | u < |w.jobs| && u != t ensures JobOk(w', u) { ClaimsJob(w, w', t, d, u); }
    forall u: nat | u < |w.works| ensures WorkOk(w', u) && Held(w'.tree, w.works[u]) == Held(w.tree, w.works[u]) {
      ClaimsWork(w, w', t, d, u);
    }
    FreeJob(w', t);
    ExclusiveOf(w);
    SameExclusive(w, w');
    GcIs(w');
  }

  lemma FreeJob(w: World, t: nat)
    requires t < |w.jobs| && w.jobs[t] == Free
    ensures JobOk(w, t)
  {
  }
}
