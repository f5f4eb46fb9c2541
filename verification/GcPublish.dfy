/**
 Publishing keeps the invariant of the garbage collector: readers stand on pages of their snapshots,
 the other writers find what they have latched as they left it, and the books stay right.
 */
module GcPublish {
  import opened Util
  import opened Fences
  import opened History
  import opened Pages
  import opened Smo
  import opened TreeModel
  import opened Reorg
  import opened ParentReorg
  import opened RootReorg
  import opened Publish
  import opened Snapshots
  import opened Clock
  import opened InFlight
  import opened Weave
  import opened WeaveBelow
  import opened WeaveRoot
  import opened WeaveJobs
  import opened Gc
  import opened GcProof

  /** A publication by `t` at the version it has drawn, below a parent or at the root. */
  ghost predicate Published(w: World, w': World, t: nat, v: nat, dying: set<nat>, born: map<nat, Meta>,
                            touched: set<nat>, gone: set<nat>) {
    && Sews(w.tree, w'.tree, v, dying, born, touched) && TouchedTurns(w.tree, w'.tree, born, touched)
    && t < |w.works| && OpenOk(w, t, v) && dying + touched <= Held(w.tree, w.works[t])
    && w'.clock == w.clock && w'.jobs == w.jobs && SameWorks(w, w', t) && !Open(w'.works[t])
    && (w'.tree.roots == w.tree.roots || w.works[t].AtRoot?)
    && t < |w.own| && born.Keys <= w.own[t] && w'.own == w.own[t := w.own[t] - born.Keys]
    && gone <= dying && w'.limbo == w.limbo + Deaths(gone, v) && w'.graveyard == w.graveyard
  }

  /** A reader below the version published stays on a page of its snapshot. */
  lemma ReaderStays(t0: Tree, t1: Tree, v: nat, dying: set<nat>, born: map<nat, Meta>, touched: set<nat>, p: nat,
                    k: nat, s: nat)
    requires Weaves(t0, t1, v, dying, born, touched) && Visible(t0, p, k, s) && s < v
    ensures Visible(t1, p, k, s)
  {
  }

  /** A live page outside the publication stays as it is. */
  lemma PageStays(t0: Tree, t1: Tree, v: nat, dying: set<nat>, born: map<nat, Meta>, touched: set<nat>, q: nat)
    requires Weaves(t0, t1, v, dying, born, touched)
    requires q < |t0.meta| && IsLinked(t0.meta[q]) && q !in dying + touched
    ensures q < |t1.meta| && t1.meta[q] == t0.meta[q] && q < |t0.pages| == |t1.pages| && t1.pages[q] == t0.pages[q]
    ensures q !in born
  {
  }

  lemma BelowStays(t0: Tree, t1: Tree, v: nat, dying: set<nat>, born: map<nat, Meta>, touched: set<nat>, p: nat,
                   olds: set<nat>, x: nat)
    requires Woven(t0) && Weaves(t0, t1, v, dying, born, touched) && BelowHeld(t0, p, olds, x)
    requires ({p} + Replaced(t0, p, olds)) !! (dying + touched)
    ensures BelowHeld(t1, p, olds, x) && Replaced(t1, p, olds) == Replaced(t0, p, olds)
    ensures forall b :: b in born ==> b !in {p} + Replaced(t0, p, olds)
  {
    BelowOnlyParent(t0, p, olds, x);
    HeldParent(t0, p, olds, x);
    hide Woven, Weaves, OnlyParents, BelowHeld, Replaced;
    PageStays(t0, t1, v, dying, born, touched, p);
    forall c | c in Replaced(t0, p, olds)
      ensures c < |t1.pages| && c < |t0.pages| && t1.pages[c] == t0.pages[c] && c !in born
    {
      PageStays(t0, t1, v, dying, born, touched, c);
    }
    HeldAgain(t0, t1, p, olds, x);
  }

  lemma RootStays(t0: Tree, t1: Tree, v: nat, dying: set<nat>, born: map<nat, Meta>, touched: set<nat>, s: nat, x: nat)
    requires Weaves(t0, t1, v, dying, born, touched) && RootHeld(t0, s, x) && t1.roots == t0.roots
    requires Top(t0).page !in dying + touched && s !in dying + touched
    ensures RootHeld(t1, s, x) && Top(t1) == Top(t0) && Top(t0).page !in born && s !in born
  {
    PageStays(t0, t1, v, dying, born, touched, s);
    PageStays(t0, t1, v, dying, born, touched, Top(t0).page);
    hide Weaves, VersionsOk;
  }

  lemma AvoidsBelow(t0: Tree, t1: Tree, v: nat, dying: set<nat>, born: map<nat, Meta>, touched: set<nat>, p: nat,
                    olds: set<nat>, x: nat)
    requires Woven(t0) && Woven(t1) && Sews(t0, t1, v, dying, born, touched) && TouchedTurns(t0, t1, born, touched)
    requires BelowHeld(t0, p, olds, x) && Avoids(t0, x, Replaced(t0, p, olds), {p} + Replaced(t0, p, olds))
    requires ({p} + Replaced(t0, p, olds)) !! (dying + touched)
    ensures BelowHeld(t1, p, olds, x) && Replaced(t1, p, olds) == Replaced(t0, p, olds)
    ensures Avoids(t1, x, Replaced(t1, p, olds), {p} + Replaced(t1, p, olds))
  {
    hide *;
    SewsIsWeaving(t0, t1, v, dying, born, touched);
    BelowStays(t0, t1, v, dying, born, touched, p, olds, x);
    BelowOnlyParent(t0, p, olds, x);
    BelowOnlyParent(t1, p, olds, x);
    AvoidsStays(t0, t1, v, dying, born, touched, x, Replaced(t0, p, olds), {p} + Replaced(t0, p, olds));
  }

  lemma AvoidsRoot(t0: Tree, t1: Tree, v: nat, dying: set<nat>, born: map<nat, Meta>, touched: set<nat>, s: nat, x: nat)
    requires Woven(t0) && Woven(t1) && Sews(t0, t1, v, dying, born, touched) && TouchedTurns(t0, t1, born, touched)
    requires RootHeld(t0, s, x) && t1.roots == t0.roots && |t0.roots| > 0
    requires Avoids(t0, x, {Top(t0).page, s}, {Top(t0).page, s})
    requires Top(t0).page !in dying + touched && s !in dying + touched
    ensures RootHeld(t1, s, x) && Top(t1) == Top(t0) && Avoids(t1, x, {Top(t1).page, s}, {Top(t1).page, s})
  {
    hide *;
    SewsIsWeaving(t0, t1, v, dying, born, touched);
    RootStays(t0, t1, v, dying, born, touched, s, x);
    HeldSource(t0, s, x);
    HeldSource(t1, s, x);
    RootOnlyParent(t0, s);
    RootOnlyParent(t1, s);
    AvoidsStays(t0, t1, v, dying, born, touched, x, {Top(t0).page, s}, {Top(t0).page, s});
  }

  lemma HeldSource(t: Tree, s: nat, x: nat)
    requires RootHeld(t, s, x)
    ensures RootSource(t, s)
  {
  }

  lemma HeldApart(w: World, t: nat, u: nat)
    requires Exclusive(w) && t < |w.works| && u < |w.works| && t != u
    ensures Held(w.tree, w.works[u]) !! Held(w.tree, w.works[t])
  {
    hide Held;
  }

  /** The version published lies above every snapshot a reader has. */
  lemma SnapshotBelow(w: World, t: nat, v: nat, u: nat)
    requires GcOk(w) && OpenOk(w, t, v) && u < |w.jobs| && HasSnapshot(w.jobs[u])
    ensures w.jobs[u].snapshot < v
  {
    JobOf(w, u);
    SnapshotAt(w, u);
    ShieldAbove(w.clock, t, v);
    hide GcOk, Shielded, JobOk;
  }

  lemma SnapshotAt(w: World, u: nat)
    requires u < |w.jobs| && JobOk(w, u) && HasSnapshot(w.jobs[u])
    ensures w.jobs[u].snapshot <= w.clock.globalMin && w.tree.horizon <= w.jobs[u].snapshot
  {
  }

  lemma ShieldAbove(c: State, t: nat, v: nat)
    requires Shielded(c, t, v)
    ensures c.globalMin < v
  {
  }

  // ---------------------------------------------------------------- the other threads

  lemma StandingStays(w: World, w': World, t: nat, v: nat, dying: set<nat>, born: map<nat, Meta>, touched: set<nat>,
                      u: nat)
    requires GcOk(w) && OpenOk(w, t, v) && Sews(w.tree, w'.tree, v, dying, born, touched)
    requires u < |w.jobs| && w.jobs[u].Standing? && u < |w'.jobs| && w'.jobs[u] == w.jobs[u] && w'.clock == w.clock
    ensures JobOk(w', u)
  {
    hide *;
    JobOf(w, u);
    StandingHas(w.jobs[u]);
    SnapshotBelow(w, t, v, u);
    SewsIsWeaving(w.tree, w'.tree, v, dying, born, touched);
    StandingIs(w, u);
    ReaderStays(w.tree, w'.tree, v, dying, born, touched, w.jobs[u].page, w.jobs[u].key, w.jobs[u].snapshot);
    SameWatermark(w.tree, w'.tree, v, dying, born, touched);
    StandingMoves(w, w', u);
  }

  lemma SameWatermark(t0: Tree, t1: Tree, v: nat, dying: set<nat>, born: map<nat, Meta>, touched: set<nat>)
    requires Weaves(t0, t1, v, dying, born, touched)
    ensures t1.horizon == t0.horizon && t1.clock == t0.clock && |t1.meta| == |t0.meta|
  {
    SameLength(t0.meta, t1.meta, dying, born, v);
    hide MetaStep;
  }

  lemma SameLength(m0: seq<Meta>, m1: seq<Meta>, dying: set<nat>, born: map<nat, Meta>, w: nat)
    requires MetaStep(m0, m1, dying, born, w)
    ensures |m1| == |m0|
  {
  }

  lemma StandingHas(j: Job)
    requires j.Standing?
    ensures HasSnapshot(j)
  {
  }

  lemma StandingIs(w: World, u: nat)
    requires u < |w.jobs| && JobOk(w, u) && w.jobs[u].Standing?
    ensures Visible(w.tree, w.jobs[u].page, w.jobs[u].key, w.jobs[u].snapshot)
  {
    hide Visible;
  }

  lemma StandingMoves(w: World, w': World, u: nat)
    requires u < |w.jobs| && JobOk(w, u) && w.jobs[u].Standing? && u < |w'.jobs| && w'.jobs[u] == w.jobs[u]
    requires w'.clock == w.clock && w'.tree.horizon == w.tree.horizon
    requires Visible(w'.tree, w.jobs[u].page, w.jobs[u].key, w.jobs[u].snapshot)
    ensures JobOk(w', u)
  {
    hide Visible;
  }

  lemma BelowWorkStays(w: World, w': World, t: nat, v: nat, dying: set<nat>, born: map<nat, Meta>, touched: set<nat>,
                       gone: set<nat>, u: nat)
    requires GcOk(w) && Woven(w'.tree) && Published(w, w', t, v, dying, born, touched, gone)
    requires u < |w.works| && u != t && w.works[u].Below?
    ensures u < |w'.works| && WorkOk(w', u) && Held(w'.tree, w.works[u]) == Held(w.tree, w.works[u])
  {
    hide *;
    PublishedParts(w, w', t, v, dying, born, touched, gone, u);
    WorkOf(w, u);
    ShapeClock(w);
    WorkBelow(w, u);
    var p, olds, x := w.works[u].parent, w.works[u].olds, w.works[u].version;
    BelowLatches(w.tree, w.tree, p, olds, x);
    assert w.works[u] == Below(p, olds, x);
    AvoidsBelow(w.tree, w'.tree, v, dying, born, touched, p, olds, x);
    BelowLatches(w.tree, w'.tree, p, olds, x);
    SewsIsWeaving(w.tree, w'.tree, v, dying, born, touched);
    SameWatermark(w.tree, w'.tree, v, dying, born, touched);
    BelowWorkIs(w, w', u);
  }

  lemma BelowWorkIs(w: World, w': World, u: nat)
    requires u < |w'.works| && w'.works[u].Below? && w'.clock == w.clock && OpenOk(w, u, w'.works[u].version)
    requires var p, olds, v := w'.works[u].parent, w'.works[u].olds, w'.works[u].version;
             BelowHeld(w'.tree, p, olds, v)
               && Avoids(w'.tree, v, Replaced(w'.tree, p, olds), {p} + Replaced(w'.tree, p, olds))
    ensures WorkOk(w', u)
  {
    hide BelowHeld, Avoids, Replaced, Shielded;
  }

  lemma PublishedParts(w: World, w': World, t: nat, v: nat, dying: set<nat>, born: map<nat, Meta>, touched: set<nat>,
                       gone: set<nat>, u: nat)
    requires GcOk(w) && Published(w, w', t, v, dying, born, touched, gone) && u < |w.works| && u != t
    ensures u < |w'.works| && w'.works[u] == w.works[u] && w'.clock == w.clock && t < |w.works| && OpenOk(w, t, v)
    ensures Sews(w.tree, w'.tree, v, dying, born, touched) && TouchedTurns(w.tree, w'.tree, born, touched)
    ensures Held(w.tree, w.works[u]) !! (dying + touched)
    ensures w'.tree.roots == w.tree.roots || w.works[t].AtRoot?
  {
    ExclusiveOf(w);
    HeldApart(w, t, u);
    hide GcOk, Sews, TouchedTurns, OpenOk, Held;
  }

  lemma RootWorkStays(w: World, w': World, t: nat, v: nat, dying: set<nat>, born: map<nat, Meta>, touched: set<nat>,
                      gone: set<nat>, u: nat)
    requires GcOk(w) && Woven(w'.tree) && Published(w, w', t, v, dying, born, touched, gone)
    requires u < |w.works| && u != t && w.works[u].AtRoot?
    ensures u < |w'.works| && WorkOk(w', u) && Held(w'.tree, w.works[u]) == Held(w.tree, w.works[u])
  {
    hide *;
    PublishedParts(w, w', t, v, dying, born, touched, gone, u);
    WorkOf(w, u);
    ShapeClock(w);
    WorkRoot(w, u);
    RootsApart(w, t, u);
    var s, x := w.works[u].source, w.works[u].version;
    RootLatches(w.tree, s, x);
    assert w.works[u] == AtRoot(s, x);
    AvoidsRoot(w.tree, w'.tree, v, dying, born, touched, s, x);
    SewsIsWeaving(w.tree, w'.tree, v, dying, born, touched);
    SameWatermark(w.tree, w'.tree, v, dying, born, touched);
    SameRoots(w.tree, w'.tree, w.works[u]);
    RootWorkIs(w, w', u);
  }

  lemma RootWorkIs(w: World, w': World, u: nat)
    requires u < |w'.works| && w'.works[u].AtRoot? && w'.clock == w.clock && OpenOk(w, u, w'.works[u].version)
    requires |w'.tree.roots| > 0
    requires var s, v := w'.works[u].source, w'.works[u].version;
             RootHeld(w'.tree, s, v) && Avoids(w'.tree, v, {Top(w'.tree).page, s}, {Top(w'.tree).page, s})
    ensures WorkOk(w', u)
  {
    hide RootHeld, Avoids, Shielded;
  }

  lemma RootLatches(t: Tree, s: nat, x: nat)
    requires |t.roots| > 0
    ensures Top(t).page in Held(t, AtRoot(s, x)) && s in Held(t, AtRoot(s, x))
  {
  }

  /** Two threads never replace the root at the same time. */
  lemma RootsApart(w: World, t: nat, u: nat)
    requires GcOk(w) && t < |w.works| && u < |w.works| && t != u && w.works[u].AtRoot? && |w.tree.roots| > 0
    ensures !w.works[t].AtRoot?
  {
    ExclusiveOf(w);
    HeldApart(w, t, u);
    hide GcOk;
  }

  lemma WorkStays(w: World, w': World, t: nat, v: nat, dying: set<nat>, born: map<nat, Meta>, touched: set<nat>,
                  gone: set<nat>, u: nat)
    requires GcOk(w) && Woven(w'.tree) && Published(w, w', t, v, dying, born, touched, gone)
    requires u < |w.works| && u != t
    ensures u < |w'.works| && WorkOk(w', u) && Held(w'.tree, w.works[u]) == Held(w.tree, w.works[u])
  {
    hide *;
    PublishedParts(w, w', t, v, dying, born, touched, gone, u);
    match w.works[u] {
      case Below(_, _, _) => BelowWorkStays(w, w', t, v, dying, born, touched, gone, u);
      case AtRoot(_, _) => RootWorkStays(w, w', t, v, dying, born, touched, gone, u);
      case _ =>
        NotOpen(w.works[u]);
        NotOpenIsOk(w, u);
        NotOpenIsOk(w', u);
    }
  }

  lemma NotOpen(k: Work)
    requires !k.Below? && !k.AtRoot?
    ensures !Open(k)
  {
  }

  /** Readers and allocators go on as before, the publishing thread included. */
  lemma JobStays(w: World, w': World, t: nat, v: nat, dying: set<nat>, born: map<nat, Meta>, touched: set<nat>,
                 gone: set<nat>, u: nat)
    requires GcOk(w) && Published(w, w', t, v, dying, born, touched, gone) && u < |w.jobs|
    ensures u < |w'.jobs| && JobOk(w', u)
  {
    PublishedSews(w, w', t, v, dying, born, touched, gone);
    JobOf(w, u);
    hide GcOk, Published, Sews, OpenOk, JobOk;
    if w.jobs[u].Standing? {
      StandingStays(w, w', t, v, dying, born, touched, u);
    } else {
      BoundStays(w, w', v, dying, born, touched, u);
    }
  }

  lemma PublishedSews(w: World, w': World, t: nat, v: nat, dying: set<nat>, born: map<nat, Meta>, touched: set<nat>,
                      gone: set<nat>)
    requires Published(w, w', t, v, dying, born, touched, gone)
    ensures OpenOk(w, t, v) && Sews(w.tree, w'.tree, v, dying, born, touched)
    ensures w'.clock == w.clock && w'.jobs == w.jobs
  {
    hide Sews, TouchedTurns, OpenOk, Held;
  }

  lemma BoundStays(w: World, w': World, v: nat, dying: set<nat>, born: map<nat, Meta>, touched: set<nat>, u: nat)
    requires Sews(w.tree, w'.tree, v, dying, born, touched) && w'.clock == w.clock && w'.jobs == w.jobs
    requires u < |w.jobs| && JobOk(w, u) && !w.jobs[u].Standing?
    ensures JobOk(w', u)
  {
    SewsIsWeaving(w.tree, w'.tree, v, dying, born, touched);
    SameWatermark(w.tree, w'.tree, v, dying, born, touched);
    hide Sews, Weaves;
  }

  // ---------------------------------------------------------------- the books

  /** A page that stays outside the tree. */
  lemma OutsideStays(t0: Tree, t1: Tree, v: nat, dying: set<nat>, born: map<nat, Meta>, touched: set<nat>, b: nat)
    requires Weaves(t0, t1, v, dying, born, touched) && b < |t0.meta| && t0.meta[b] == Unlinked && b !in born
    ensures b < |t1.meta| && t1.meta[b] == Unlinked
  {
  }

  lemma OwnLess(own: seq<set<nat>>, t: nat, ids: set<nat>)
    requires t < |own| && forall u, x :: 0 <= u < |own| && 0 <= x < |own| && u != x ==> own[u] !! own[x]
    ensures var own' := own[t := own[t] - ids];
            forall u, x :: 0 <= u < |own'| && 0 <= x < |own'| && u != x ==> own'[u] !! own'[x]
  {
    var own' := own[t := own[t] - ids];
    forall u, x | 0 <= u < |own'| && 0 <= x < |own'| && u != x ensures own'[u] !! own'[x] {
      assert own[u] !! own[x];
    }
  }

  lemma StillOwned(w: World, w': World, t: nat, v: nat, dying: set<nat>, born: map<nat, Meta>, touched: set<nat>,
                   u: nat, b: nat)
    requires Owned(w) && Weaves(w.tree, w'.tree, v, dying, born, touched)
    requires t < |w.own| && u < |w.own| && born.Keys <= w.own[t] && b in w.own[u] && (u == t ==> b !in born)
    ensures Outside(w'.tree, b)
  {
    OwnIs(w, u, b);
    if u != t && b in born { OwnApart(w, t, u, b); }
    hide Owned, Weaves;
    OutsideStays(w.tree, w'.tree, v, dying, born, touched, b);
  }

  lemma OwnsApart(w: World)
    requires Owned(w)
    ensures forall u, x :: 0 <= u < |w.own| && 0 <= x < |w.own| && u != x ==> w.own[u] !! w.own[x]
  {
  }

  lemma OwnedIs(w: World)
    requires forall u, x :: 0 <= u < |w.own| && 0 <= x < |w.own| && u != x ==> w.own[u] !! w.own[x]
    requires forall u: nat, b: nat :: u < |w.own| && b in w.own[u] ==> Outside(w.tree, b)
    ensures Owned(w)
  {
  }

  lemma OwnParts(w: World, w': World, t: nat, v: nat, dying: set<nat>, born: map<nat, Meta>, touched: set<nat>,
                 gone: set<nat>)
    requires Published(w, w', t, v, dying, born, touched, gone)
    ensures t < |w.own| && born.Keys <= w.own[t] && w'.own == w.own[t := w.own[t] - born.Keys]
    ensures Sews(w.tree, w'.tree, v, dying, born, touched)
  {
    hide Sews, TouchedTurns, OpenOk, Held;
  }

  lemma PublishedOwned(w: World, w': World, t: nat, v: nat, dying: set<nat>, born: map<nat, Meta>, touched: set<nat>,
                       gone: set<nat>)
    requires GcOk(w) && Published(w, w', t, v, dying, born, touched, gone)
    ensures Owned(w')
  {
    hide *;
    ExclusiveOf(w);
    OwnParts(w, w', t, v, dying, born, touched, gone);
    SewsIsWeaving(w.tree, w'.tree, v, dying, born, touched);
    OwnsApart(w);
    OwnLess(w.own, t, born.Keys);
    forall u: nat, b: nat | u < |w'.own| && b in w'.own[u] ensures Outside(w'.tree, b) {
      StillOwned(w, w', t, v, dying, born, touched, u, b);
    }
    OwnedIs(w');
  }

  /** A page registered or about to be stays dead, and is not one of those that die now. */
  lemma LinkStays(t0: Tree, t1: Tree, v: nat, dying: set<nat>, born: map<nat, Meta>, touched: set<nat>, d: Dead)
    requires Weaves(t0, t1, v, dying, born, touched) && DiedAt(t0, d)
    ensures DiedAt(t1, d) && d.page !in dying
  {
  }

  lemma DyingDied(t0: Tree, t1: Tree, v: nat, dying: set<nat>, born: map<nat, Meta>, touched: set<nat>, p: nat)
    requires Weaves(t0, t1, v, dying, born, touched) && p in dying
    ensures DiedAt(t1, Dead(v, 0, p))
  {
  }

  lemma LinksMore(w: World, w': World, v: nat, gone: set<nat>)
    requires DeadLinks(w) && w'.limbo == w.limbo + Deaths(gone, v) && w'.graveyard == w.graveyard
    requires forall d :: d in w.limbo + w.graveyard ==> DiedAt(w'.tree, d) && d.page !in gone
    requires forall p :: p in gone ==> DiedAt(w'.tree, Dead(v, 0, p))
    ensures DeadLinks(w')
  {
    hide DiedAt;
    forall d, e | d in w'.limbo + w'.graveyard && e in w'.limbo + w'.graveyard && d.page == e.page ensures d == e {
      assert d in w.limbo + w.graveyard <==> d.page !in gone;
      assert e in w.limbo + w.graveyard <==> e.page !in gone;
    }
    forall d | d in w'.limbo ensures d !in w'.graveyard {
      if d in w.limbo { assert w.limbo !! w.graveyard; } else { assert d.page in gone; }
    }
  }

  lemma LinkParts(w: World, w': World, t: nat, v: nat, dying: set<nat>, born: map<nat, Meta>, touched: set<nat>,
                  gone: set<nat>)
    requires Published(w, w', t, v, dying, born, touched, gone)
    ensures gone <= dying && w'.limbo == w.limbo + Deaths(gone, v) && w'.graveyard == w.graveyard
  {
    hide Sews, TouchedTurns, OpenOk, Held;
  }

  lemma PublishedLinks(w: World, w': World, t: nat, v: nat, dying: set<nat>, born: map<nat, Meta>, touched: set<nat>,
                       gone: set<nat>)
    requires GcOk(w) && Published(w, w', t, v, dying, born, touched, gone)
    ensures DeadLinks(w')
  {
    hide *;
    ExclusiveOf(w);
    OwnParts(w, w', t, v, dying, born, touched, gone);
    LinkParts(w, w', t, v, dying, born, touched, gone);
    SewsIsWeaving(w.tree, w'.tree, v, dying, born, touched);
    forall d | d in w.limbo + w.graveyard ensures DiedAt(w'.tree, d) && d.page !in gone {
      LinkIs(w, d);
      LinkStays(w.tree, w'.tree, v, dying, born, touched, d);
    }
    forall p | p in gone ensures DiedAt(w'.tree, Dead(v, 0, p)) {
      DyingDied(w.tree, w'.tree, v, dying, born, touched, p);
    }
    LinksMore(w, w', v, gone);
  }

  /** Every publication keeps the invariant. */
  lemma PublishedKeeps(w: World, w': World, t: nat, v: nat, dying: set<nat>, born: map<nat, Meta>, touched: set<nat>,
                       gone: set<nat>)
    requires GcOk(w) && Woven(w'.tree) && Published(w, w', t, v, dying, born, touched, gone)
    ensures GcOk(w')
  {
    hide *;
    PublishedOwned(w, w', t, v, dying, born, touched, gone);
    PublishedLinks(w, w', t, v, dying, born, touched, gone);
    PublishedShape(w, w', t, v, dying, born, touched, gone);
    forall u: nat | u < |w.jobs| ensures JobOk(w', u) { JobStays(w, w', t, v, dying, born, touched, gone, u); }
    forall u: nat | u < |w.works| && u != t
      ensures u < |w'.works| && WorkOk(w', u) && Held(w'.tree, w.works[u]) == Held(w.tree, w.works[u])
    {
      WorkStays(w, w', t, v, dying, born, touched, gone, u);
    }
    NotOpenIsOk(w', t);
    ExclusiveOf(w);
    ExclusiveKept(w, w', t);
    GcIs(w');
  }

  lemma PublishedShape(w: World, w': World, t: nat, v: nat, dying: set<nat>, born: map<nat, Meta>, touched: set<nat>,
                       gone: set<nat>)
    requires GcOk(w) && Published(w, w', t, v, dying, born, touched, gone)
    ensures Shape(w') && |w'.jobs| == |w.jobs| && SameWorks(w, w', t) && t < |w'.works| == |w.works|
    ensures !Open(w'.works[t])
  {
    ShapeClock(w);
    SewsIsWeaving(w.tree, w'.tree, v, dying, born, touched);
    SameWatermark(w.tree, w'.tree, v, dying, born, touched);
    hide GcOk, Sews, Weaves, TouchedTurns, OpenOk, Held, Sound;
  }

  // ---------------------------------------------------------------- the two publications

  lemma FreshKeys(t: Tree, p: nat, olds: set<nat>, fs: seq<Fresh>, w: nat, h: nat)
    requires p < |t.pages| && SameKeys(Entries(t.pages[p]), olds, fs)
    ensures Born(fs, w, h).Keys == FreshIds(fs)
  {
    FreshPages(Entries(t.pages[p]), olds, fs);
    hide SameKeys;
    BornEntries(fs, w, h);
    hide Born;
    forall b | b in Born(fs, w, h).Keys ensures b in FreshIds(fs) {
      assert IsFresh(fs, b);
    }
  }

  ghost predicate TurnsOrBorn(t0: Tree, t1: Tree, born: map<nat, Meta>, p: nat, k: nat, x: nat)
    requires Turns(t1, p, k, x) && t1.meta[p].height > 1
  {
    || ChildFor(t1, p, k, x) in born
    || (Visible(t0, p, k, x) && t0.meta[p].height > 1 && Turns(t0, p, k, x)
        && ChildFor(t1, p, k, x) == ChildFor(t0, p, k, x))
  }

  lemma OneTouched(t0: Tree, t1: Tree, born: map<nat, Meta>, p: nat)
    requires forall k: nat, x: nat :: Visible(t1, p, k, x) && t1.meta[p].height > 1 && Turns(t1, p, k, x) ==>
               TurnsOrBorn(t0, t1, born, p, k, x)
    ensures TouchedTurns(t0, t1, born, {p})
  {
    hide Visible, Turns, ChildFor;
  }

  lemma BelowTurnsTouched(t0: Tree, t1: Tree, p: nat, olds: set<nat>, fs: seq<Fresh>, v: nat)
    requires Woven(t0) && PublishedBelow(t0, t1, p, olds, fs, v)
    requires p < |t0.meta| && t0.meta[p].Linked? && t0.meta[p].height > 1
    ensures TouchedTurns(t0, t1, Born(fs, v, t0.meta[p].height - 1), {p})
  {
    var born := Born(fs, v, t0.meta[p].height - 1);
    hide Woven, PublishedBelow, Visible, Turns, ChildFor, Born, TouchedTurns;
    forall k: nat, x: nat | Visible(t1, p, k, x) && t1.meta[p].height > 1 && Turns(t1, p, k, x)
      ensures TurnsOrBorn(t0, t1, born, p, k, x)
    {
      BelowTouched(t0, t1, p, olds, fs, v, k, x);
    }
    hide TurnsOrBorn;
    OneTouched(t0, t1, born, p);
  }

  lemma BelowMoves(w: World, w': World, t: nat, fs: seq<Fresh>)
    requires PublishesBelow(w, w', t, fs)
    ensures t < |w.works| && t < |w.own| && w.works[t].Below?
    ensures StoredBelow(w.tree, w'.tree, w.works[t].parent, w.works[t].olds, fs, w.works[t].version)
    ensures FreshIds(fs) <= w.own[t] && w'.own == w.own[t := w.own[t] - FreshIds(fs)]
    ensures w'.clock == w.clock && w'.jobs == w.jobs && w'.works == w.works[t := Holding(w.works[t].parent)]
    ensures w'.limbo == w.limbo + Deaths(Replaced(w.tree, w.works[t].parent, w.works[t].olds), w.works[t].version)
    ensures w'.graveyard == w.graveyard
  {
    hide StoredBelow, Deaths, Replaced;
  }

  lemma StoredIsPublished(t0: Tree, t1: Tree, p: nat, olds: set<nat>, fs: seq<Fresh>, w: nat)
    requires BelowHeld(t0, p, olds, w) && StoredBelow(t0, t1, p, olds, fs, w)
    ensures PublishedBelow(t0, t1, p, olds, fs, w)
  {
    hide BelowHeld, StoredBelow;
  }

  lemma DoneWork(w: World, w': World, t: nat, k: Work)
    requires t < |w.works| && w'.works == w.works[t := k] && !k.Below? && !k.AtRoot?
    ensures SameWorks(w, w', t) && !Open(w'.works[t])
  {
  }

  lemma PublishesBelowKeeps(w: World, w': World, t: nat, fs: seq<Fresh>)
    requires GcOk(w) && PublishesBelow(w, w', t, fs)
    ensures GcOk(w')
  {
    hide *;
    BelowMoves(w, w', t, fs);
    WorkOf(w, t);
    ShapeClock(w);
    WorkBelow(w, t);
    var p, olds, v := w.works[t].parent, w.works[t].olds, w.works[t].version;
    assert w.works[t] == Below(p, olds, v);
    StoredIsPublished(w.tree, w'.tree, p, olds, fs, v);
    BelowKeepsWoven(w.tree, w'.tree, p, olds, fs, v);
    BelowTurnsTouched(w.tree, w'.tree, p, olds, fs, v);
    BelowParts(w.tree, w'.tree, p, olds, fs, v);
    var born, dying := Born(fs, v, w.tree.meta[p].height - 1), Replaced(w.tree, p, olds);
    FreshKeys(w.tree, p, olds, fs, v, w.tree.meta[p].height - 1);
    BelowLatches(w.tree, w.tree, p, olds, v);
    SameHorizon(w.tree, w'.tree, p, olds, fs, v);
    DoneWork(w, w', t, Holding(p));
    PublishedIs(w, w', t, v, dying, born, {p}, dying);
    PublishedKeeps(w, w', t, v, dying, born, {p}, dying);
  }

  lemma PublishedIs(w: World, w': World, t: nat, v: nat, dying: set<nat>, born: map<nat, Meta>, touched: set<nat>,
                    gone: set<nat>)
    requires Sews(w.tree, w'.tree, v, dying, born, touched) && TouchedTurns(w.tree, w'.tree, born, touched)
    requires t < |w.works| && OpenOk(w, t, v) && dying + touched <= Held(w.tree, w.works[t])
    requires w'.clock == w.clock && w'.jobs == w.jobs && SameWorks(w, w', t) && !Open(w'.works[t])
    requires w'.tree.roots == w.tree.roots || w.works[t].AtRoot?
    requires t < |w.own| && born.Keys <= w.own[t] && w'.own == w.own[t := w.own[t] - born.Keys]
    requires gone <= dying && w'.limbo == w.limbo + Deaths(gone, v) && w'.graveyard == w.graveyard
    ensures Published(w, w', t, v, dying, born, touched, gone)
  {
    hide Sews, TouchedTurns, OpenOk, Held, Deaths;
  }

  lemma RootMoves(w: World, w': World, t: nat, n: NewRoot)
    requires PublishesRoot(w, w', t, n)
    ensures t < |w.works| && t < |w.own| && w.works[t].AtRoot?
    ensures StoredRoot(w.tree, w'.tree, w.works[t].source, n, w.works[t].version)
    ensures NewIds(n) <= w.own[t] && w'.own == w.own[t := w.own[t] - NewIds(n)]
    ensures w'.clock == w.clock && w'.jobs == w.jobs && w'.works == w.works[t := Rest] && w'.graveyard == w.graveyard
    ensures w'.limbo == w.limbo + Deaths({w.works[t].source}, w.works[t].version)
  {
    hide StoredRoot, NewIds;
    assert Deaths({w.works[t].source}, w.works[t].version) == {Dead(w.works[t].version, 0, w.works[t].source)};
  }

  lemma NewKeys(n: NewRoot, w: nat, h: nat)
    requires n.Cut? ==> n.left != n.right && n.left != n.root && n.right != n.root
    ensures BornRoot(n, w, h).Keys == NewIds(n)
  {
    BornKeys(n, w, h);
    hide BornRoot;
  }

  lemma TwoHeld(t: Tree, s: nat, v: nat)
    requires |t.roots| > 0
    ensures Held(t, AtRoot(s, v)) == {Top(t).page, s} && {Top(t).page, s} + {} == {Top(t).page, s}
    ensures {s} <= {Top(t).page, s}
  {
  }

  lemma NothingTouched(t0: Tree, t1: Tree, born: map<nat, Meta>)
    ensures TouchedTurns(t0, t1, born, {})
  {
  }

  lemma StoredIsReplaced(t0: Tree, t1: Tree, s: nat, n: NewRoot, w: nat)
    requires RootHeld(t0, s, w) && StoredRoot(t0, t1, s, n, w)
    ensures PublishedRoot(t0, t1, s, n, w)
  {
    hide RootHeld, StoredRoot;
  }

  lemma PublishesRootKeeps(w: World, w': World, t: nat, n: NewRoot)
    requires GcOk(w) && PublishesRoot(w, w', t, n)
    ensures GcOk(w')
  {
    hide *;
    RootMoves(w, w', t, n);
    WorkOf(w, t);
    ShapeClock(w);
    WorkRoot(w, t);
    var s, v := w.works[t].source, w.works[t].version;
    assert w.works[t] == AtRoot(s, v);
    StoredIsReplaced(w.tree, w'.tree, s, n, v);
    RootIds(w.tree, w'.tree, s, n, v);
    RootKeepsWoven(w.tree, w'.tree, s, n, v);
    var born := BornRoot(n, v, w.tree.meta[s].height);
    NewKeys(n, v, w.tree.meta[s].height);
    TwoHeld(w.tree, s, v);
    NothingTouched(w.tree, w'.tree, born);
    DoneWork(w, w', t, Rest);
    PublishedIs(w, w', t, v, {Top(w.tree).page, s}, born, {}, {s});
    PublishedKeeps(w, w', t, v, {Top(w.tree).page, s}, born, {}, {s});
  }
}
