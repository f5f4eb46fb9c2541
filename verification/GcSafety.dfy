/**
 What the garbage collector promises, over every run: a page on which a pinned reader stands, or
 that it can still visit, is in nobody's hands, and no page is in two places at once.
 */
module GcSafety {
  import opened Util
  import opened Fences
  import opened History
  import opened Pages
  import opened TreeModel
  import opened ParentReorg
  import opened RootReorg
  import opened Clock
  import opened InFlight
  import opened Weave
  import opened WeaveBelow
  import opened WeaveRoot
  import opened WeaveJobs
  import opened Gc
  import opened GcProof
  import opened GcPublish

  // ---------------------------------------------------------------- all runs

  lemma PublishesKeeps(w: World, w': World, t: nat)
    requires GcOk(w) && Publishes(w, w', t)
    ensures GcOk(w')
  {
    hide GcOk, PublishesBelow, PublishesRoot;
    if fs :| PublishesBelow(w, w', t, fs) {
      PublishesBelowKeeps(w, w', t, fs);
    } else {
      var n :| PublishesRoot(w, w', t, n);
      PublishesRootKeeps(w, w', t, n);
    }
  }

  lemma TakesKeeps(w: World, w': World, t: nat)
    requires GcOk(w) && Takes(w, w', t)
    ensures GcOk(w')
  {
    hide GcOk, Fills, Claims;
    if id: nat :| Fills(w, w', t, id) {
      FillsKeeps(w, w', t, id);
    } else {
      var d :| Claims(w, w', t, d);
      ClaimsKeeps(w, w', t, d);
    }
  }

  /** Every step keeps the invariant, if reorganizations draw founded and shielded. */
  lemma StepKeepsOk(w: World, w': World, t: nat)
    requires GcOk(w) && GoodStep(w, w', t)
    ensures GcOk(w')
  {
    GoodCases(w, w', t);
    hide *;
    if Calling(w, w', t) {
      CallingKeeps(w, w', t);
    } else if Ticking(w, w', t) {
      TickingKeeps(w, w', t);
    } else if Draws(w, w', t) {
      DrawsKeeps(w, w', t);
    } else if Publishes(w, w', t) {
      PublishesKeeps(w, w', t);
    } else if Takes(w, w', t) {
      TakesKeeps(w, w', t);
    } else if Buries(w, w') {
      BuriesKeeps(w, w');
    } else if Moves(w, w', t) {
      MovesKeeps(w, w', t);
    } else {
      WorksKeeps(w, w', t);
    }
  }

  lemma GoodCases(w: World, w': World, t: nat)
    requires GoodStep(w, w', t)
    ensures Calling(w, w', t) || Ticking(w, w', t) || Draws(w, w', t) || Publishes(w, w', t) || Takes(w, w', t)
            || Buries(w, w') || Moves(w, w', t) || Works(w, w', t)
    ensures Draws(w, w', t) ==> t < |w'.works| && Open(w'.works[t]) && Founded(w, t, w'.works[t])
    ensures Draws(w, w', t) ==> Shielded(w'.clock, t, w'.works[t].version)
  {
    hide Calling, Ticking, Publishes, Takes, Buries, Moves, Works, Shielded, Founded, Latched;
  }

  ghost predicate GcRun(run: seq<World>, threads: seq<nat>) {
    |run| == |threads| + 1 && forall i :: 0 <= i < |threads| ==> GoodStep(run[i], run[i + 1], threads[i])
  }

  lemma GcRunInit(run: seq<World>, threads: seq<nat>)
    requires GcRun(run, threads) && |threads| > 0
    ensures GcRun(run[..|threads|], threads[..|threads| - 1])
    ensures GoodStep(run[|threads| - 1], run[|threads|], threads[|threads| - 1])
  {
    hide GoodStep;
    var n := |threads|;
    forall i | 0 <= i < n - 1 ensures GoodStep(run[..n][i], run[..n][i + 1], threads[..n - 1][i]) {
      assert GoodStep(run[i], run[i + 1], threads[i]);
    }
    assert GoodStep(run[n - 1], run[n - 1 + 1], threads[n - 1]);
  }

  lemma {:induction false} RunIsOk(run: seq<World>, threads: seq<nat>)
    requires GcRun(run, threads) && GcOk(run[0])
    ensures forall i :: 0 <= i < |run| ==> GcOk(run[i])
  {
    hide GoodStep, GcOk;
    var n := |threads|;
    if n > 0 {
      GcRunInit(run, threads);
      RunIsOk(run[..n], threads[..n - 1]);
      assert run[..n][n - 1] == run[n - 1];
      StepKeepsOk(run[n - 1], run[n], threads[n - 1]);
      forall i | 0 <= i < |run| ensures GcOk(run[i]) {
        if i < n { assert run[..n][i] == run[i]; }
      }
    }
  }

  /** A run of such steps leads from `w` to `w'`. */
  ghost predicate Leads(w: World, w': World) {
    exists run: seq<World>, threads: seq<nat> :: GcRun(run, threads) && run[0] == w && run[|threads|] == w'
  }

  lemma LeadsNowhere(w: World)
    ensures Leads(w, w)
  {
    var run: seq<World>, threads: seq<nat> := [w], [];
    assert GcRun(run, threads);
  }

  lemma LeadsOn(w: World, m: World, w': World, t: nat)
    requires Leads(w, m) && GoodStep(m, w', t)
    ensures Leads(w, w')
  {
    hide GoodStep;
    var run: seq<World>, threads: seq<nat> :| GcRun(run, threads) && run[0] == w && run[|threads|] == m;
    var run', threads' := run + [w'], threads + [t];
    forall i | 0 <= i < |threads'| ensures GoodStep(run'[i], run'[i + 1], threads'[i]) {
      if i < |threads| { assert GoodStep(run[i], run[i + 1], threads[i]); }
    }
    assert GcRun(run', threads');
  }

  /** Any step that draws no version is such a step. */
  lemma NoDraw(w: World, w': World, t: nat)
    requires Gc.Step(w, w', t) && (w'.works == w.works || (t < |w'.works| && !Open(w'.works[t])))
    ensures GoodStep(w, w', t)
  {
    hide Calling, Ticking, Publishes, Takes, Buries, Moves, Works, StartCommit;
  }

  // ---------------------------------------------------------------- the start of the program

  /** The program before the first call: some threads have registered, none has done anything. */
  ghost predicate Starts(w: World) {
    && |w.jobs| == |w.works| == |w.own| == |w.clock.pcs| == |w.clock.slots| == |w.clock.announced|
    && (forall t :: 0 <= t < |w.jobs| ==> w.jobs[t] == Free && w.works[t] == Rest && w.own[t] == {}
                                          && w.clock.pcs[t] == Idle
                                          && w.clock.slots[t] == w.clock.announced[t] == INACTIVE)
    && w.clock.clock == w.clock.globalMin == 1 && w.clock.registered <= |w.jobs| && w.clock.flag == Clean
    && w.clock.results == [] && w.limbo == {} && w.graveyard == {}
    && w.tree == EmptyTree(w.tree.fanOut, w.tree.numRecords)
  }

  lemma StartIsOk(w: World)
    requires Starts(w)
    ensures GcOk(w)
  {
    EmptyIsWoven(w.tree.fanOut, w.tree.numRecords);
    hide Woven;
  }

  // ---------------------------------------------------------------- readers

  /** The page a lookup of `k` at `v` goes to next. */
  ghost predicate NextPage(t: Tree, p: nat, k: nat, v: nat, c: nat) {
    && p < |t.pages| && t.pages[p].Index? && Route(Entries(t.pages[p]), k, v).Some?
    && c == Entries(t.pages[p])[Route(Entries(t.pages[p]), k, v).value].child
  }

  ghost predicate Walks(t: Tree, path: seq<nat>, k: nat, v: nat) {
    |path| > 0 && forall i :: 0 <= i < |path| - 1 ==> NextPage(t, path[i], k, v, path[i + 1])
  }

  /** A lookup that starts on a page of its snapshot stays on pages of its snapshot. */
  lemma {:induction false} WalkIsVisible(t: Tree, path: seq<nat>, k: nat, v: nat)
    requires Woven(t) && Walks(t, path, k, v) && Visible(t, path[0], k, v)
    ensures forall i :: 0 <= i < |path| ==> Visible(t, path[i], k, v)
  {
    hide Woven, Visible, NextPage;
    var n := |path| - 1;
    if n > 0 {
      var init := path[..n];
      forall i | 0 <= i < n - 1 ensures NextPage(t, init[i], k, v, init[i + 1]) {
        assert NextPage(t, path[i], k, v, path[i + 1]);
      }
      WalkIsVisible(t, init, k, v);
      assert init[n - 1] == path[n - 1] && NextPage(t, path[n - 1], k, v, path[n - 1 + 1]);
      NextIsVisible(t, path[n - 1], k, v, path[n]);
      forall i | 0 <= i < |path| ensures Visible(t, path[i], k, v) {
        if i < n { assert init[i] == path[i]; }
      }
    }
  }

  lemma NextIsVisible(t: Tree, p: nat, k: nat, v: nat, c: nat)
    requires Woven(t) && Visible(t, p, k, v) && NextPage(t, p, k, v, c)
    ensures Visible(t, c, k, v)
  {
    ChildVisible(t, p, k, v);
    hide Woven, Visible;
  }

  /** Page `q` lies ahead of the reader `u`: from where it stands, or from its root for some key. */
  ghost predicate CanVisit(w: World, u: nat, q: nat) {
    && u < |w.jobs| && HasSnapshot(w.jobs[u])
    && exists path: seq<nat>, k: nat :: Ahead(w, u, path, k) && path[|path| - 1] == q
  }

  ghost predicate Ahead(w: World, u: nat, path: seq<nat>, k: nat)
    requires u < |w.jobs| && HasSnapshot(w.jobs[u])
  {
    && k <= MAX_KEY && Walks(w.tree, path, k, w.jobs[u].snapshot)
    && ((w.jobs[u].Standing? && k == w.jobs[u].key && path[0] == w.jobs[u].page)
        || (RootFor(w.tree.roots, w.jobs[u].snapshot).Some?
            && path[0] == w.tree.roots[RootFor(w.tree.roots, w.jobs[u].snapshot).value].page))
  }

  /** Nobody has taken the page, and it is neither waiting for its burial nor buried below the snapshot. */
  ghost predicate Safe(w: World, q: nat, s: nat) {
    && (forall t: nat :: t < |w.own| ==> q !in w.own[t])
    && forall d :: d in w.limbo + w.graveyard && d.page == q ==> s < d.death
  }

  lemma VisibleIsSafe(w: World, q: nat, k: nat, s: nat)
    requires GcOk(w) && Visible(w.tree, q, k, s)
    ensures Safe(w, q, s)
  {
    ExclusiveOf(w);
    hide GcOk, Owned, DeadLinks;
    forall t: nat | t < |w.own| ensures q !in w.own[t] {
      if q in w.own[t] { OwnIs(w, t, q); }
    }
    forall d | d in w.limbo + w.graveyard && d.page == q ensures s < d.death {
      LinkIs(w, d);
    }
  }

  lemma AheadIsVisible(w: World, u: nat, path: seq<nat>, k: nat)
    requires GcOk(w) && u < |w.jobs| && HasSnapshot(w.jobs[u]) && Ahead(w, u, path, k)
    ensures Visible(w.tree, path[|path| - 1], k, w.jobs[u].snapshot)
  {
    var s := w.jobs[u].snapshot;
    JobOf(w, u);
    ShapeClock(w);
    SnapshotAt(w, u);
    if w.jobs[u].Standing? { StandingIs(w, u); }
    hide GcOk, JobOk, Woven, Visible, RootFor, Walks;
    if RootFor(w.tree.roots, s).Some? { RootVisible(w.tree, k, s); }
    assert Visible(w.tree, path[0], k, s);
    PathIsVisible(w.tree, path, k, s);
  }

  lemma PathIsVisible(t: Tree, path: seq<nat>, k: nat, v: nat)
    requires Woven(t) && Walks(t, path, k, v) && Visible(t, path[0], k, v)
    ensures Visible(t, path[|path| - 1], k, v)
  {
    WalkIsVisible(t, path, k, v);
    hide Woven, Visible;
  }

  lemma VisitIsSafe(w: World, u: nat, q: nat)
    requires GcOk(w) && CanVisit(w, u, q)
    ensures u < |w.jobs| && HasSnapshot(w.jobs[u]) && Safe(w, q, w.jobs[u].snapshot)
  {
    hide GcOk, Safe, NextPage, RootFor;
    var path: seq<nat>, k: nat :| Ahead(w, u, path, k) && path[|path| - 1] == q;
    AheadIsVisible(w, u, path, k);
    hide Visible, Ahead;
    VisibleIsSafe(w, q, k, w.jobs[u].snapshot);
  }

  /**
   In every state of every run a reader stands on a page of its snapshot, and what it can still visit
   is in nobody's hands.
   */
  lemma PinnedReadersAreSafe(run: seq<World>, threads: seq<nat>, i: nat, u: nat, q: nat)
    requires GcRun(run, threads) && GcOk(run[0]) && i < |run| && CanVisit(run[i], u, q)
    ensures Safe(run[i], q, run[i].jobs[u].snapshot)
  {
    hide GoodStep, GcOk, CanVisit, Safe;
    RunIsOk(run, threads);
    VisitIsSafe(run[i], u, q);
  }

  /** In no run is a page handed out that a pinned reader stands on or can still visit. */
  lemma HandedOutIsUnreachable(run: seq<World>, threads: seq<nat>, i: nat, d: Dead, u: nat, q: nat)
    requires GcRun(run, threads) && GcOk(run[0]) && i < |threads| && Claims(run[i], run[i + 1], threads[i], d)
    requires CanVisit(run[i], u, q)
    ensures d.page != q
  {
    hide GoodStep, GcOk, Claims, CanVisit;
    RunIsOk(run, threads);
    ClaimSparesReaders(run[i], run[i + 1], threads[i], d, u, q);
  }

  lemma ClaimSparesReaders(w: World, w': World, t: nat, d: Dead, u: nat, q: nat)
    requires GcOk(w) && Claims(w, w', t, d) && CanVisit(w, u, q)
    ensures d.page != q
  {
    VisitIsSafe(w, u, q);
    ClaimIsBelow(w, w', t, d, u);
    ClaimedIsBuried(w, w', t, d);
    hide GcOk, Claims, CanVisit;
  }

  lemma ClaimedIsBuried(w: World, w': World, t: nat, d: Dead)
    requires Claims(w, w', t, d)
    ensures d in w.graveyard
  {
    hide Forgets;
  }

  /** A reader always finds its root, and on every page above the leaves a child to go on to. */
  lemma ReaderGoesOn(w: World, u: nat)
    requires GcOk(w) && u < |w.jobs| && HasSnapshot(w.jobs[u])
    ensures RootFor(w.tree.roots, w.jobs[u].snapshot).Some?
    ensures w.jobs[u].Standing? && w.jobs[u].page < |w.tree.pages| && w.tree.pages[w.jobs[u].page].Index? ==>
              exists c: nat :: NextPage(w.tree, w.jobs[u].page, w.jobs[u].key, w.jobs[u].snapshot, c)
  {
    JobOf(w, u);
    ShapeClock(w);
    SnapshotAt(w, u);
    RootIs(w.tree, w.jobs[u].snapshot);
    if w.jobs[u].Standing? {
      StandingIs(w, u);
      hide GcOk, JobOk;
      TurnsOn(w.tree, w.jobs[u].page, w.jobs[u].key, w.jobs[u].snapshot);
    }
  }

  lemma RootIs(t: Tree, s: nat)
    requires Woven(t) && t.horizon <= s
    ensures RootFor(t.roots, s).Some?
  {
    WovenMeta(t);
    assert RootServes(t, s);
  }

  lemma TurnsOn(t: Tree, p: nat, k: nat, s: nat)
    requires Woven(t) && Visible(t, p, k, s)
    ensures p < |t.pages| && (t.pages[p].Index? ==> exists c: nat :: NextPage(t, p, k, s, c))
  {
    WovenMeta(t);
    assert Turns(t, p, k, s);
    hide Woven, Apart, LiveIndexes, AllTurn, OldRootsGone, RootsOk;
    if t.pages[p].Index? {
      var c := Entries(t.pages[p])[Route(Entries(t.pages[p]), k, s).value].child;
      assert NextPage(t, p, k, s, c);
    }
  }

  // ---------------------------------------------------------------- one place for every page

  /** A page is part of the current tree, or on its way to the graveyard, or there, or with one thread. */
  lemma OnePlace(w: World, p: nat)
    requires GcOk(w)
    ensures forall t: nat, u: nat :: t < |w.own| && u < |w.own| && p in w.own[t] && p in w.own[u] ==> t == u
    ensures forall t: nat, d :: t < |w.own| && p in w.own[t] && d in w.limbo + w.graveyard ==> d.page != p
    ensures forall d, e :: d in w.limbo + w.graveyard && e in w.limbo + w.graveyard && d.page == e.page ==> d == e
    ensures p < |w.tree.meta| && IsLinked(w.tree.meta[p]) ==>
              && (forall t: nat :: t < |w.own| ==> p !in w.own[t])
              && forall d :: d in w.limbo + w.graveyard ==> d.page != p
  {
    ExclusiveOf(w);
    hide GcOk;
    forall t: nat, u: nat | t < |w.own| && u < |w.own| && p in w.own[t] && p in w.own[u] ensures t == u {
      if t != u { OwnApart(w, t, u, p); }
    }
    forall t: nat, d | t < |w.own| && p in w.own[t] && d in w.limbo + w.graveyard ensures d.page != p {
      OwnIs(w, t, p);
      LinkIs(w, d);
    }
    forall t: nat | t < |w.own| && p in w.own[t]
      ensures p < |w.tree.meta| && w.tree.meta[p] == Unlinked
    {
      OwnIs(w, t, p);
    }
    forall d | d in w.limbo + w.graveyard ensures DiedAt(w.tree, d) { LinkIs(w, d); }
  }

  // ---------------------------------------------------------------- who is shielded

  /** A thread whose active slot has held back the watermark may draw: its next version is shielded. */
  lemma WatchedIsShielded(c: State, c': State, t: nat)
    requires Sound(c) && Watched(c, t) && StartCommit(c, c', t)
    ensures Shielded(c', t, c.clock)
  {
    HigherShield(c, t, c.slots[t] + 1, c.clock);
    assert Shielded(c, t, c.clock);
    forall u: nat | u < |c'.pcs| ensures Bounded(c', u, t, c.clock) {
      assert Bounded(c, u, t, c.clock);
    }
  }
}
