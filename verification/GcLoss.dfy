/**
 How a page is lost. A page that is registered dead while a reader stands on it, or can still come to
 it, is handed out as soon as the watermark and the pins have passed its death. So a draw without a
 shield can cost a pinned reader its page, and so can a draw below a parent that has been replaced.
 */
module GcLoss {
  import opened Util
  import opened Fences
  import opened History
  import opened Pages
  import opened Smo
  import opened TreeModel
  import opened Reorg
  import opened ParentReorg
  import opened RootReorg
  import opened Publish
  import opened Clock
  import opened InFlight
  import opened Overtaking
  import opened Weave
  import opened WeaveBelow
  import opened WeaveRoot
  import opened WeaveJobs
  import opened Gc
  import opened GcProof
  import opened GcSafety
  import opened GcExact

  // ---------------------------------------------------------------- the least pin

  ghost predicate PinsAbove(jobs: seq<Job>, v: nat) {
    forall i :: 0 <= i < |jobs| && HoldsPin(jobs[i]) ==> jobs[i].bound > v
  }

  lemma {:induction false} FindLeast(jobs: seq<Job>, v: nat) returns (pin: Option<nat>)
    requires PinsAbove(jobs, v)
    ensures LeastPin(jobs, pin) && (pin.Some? ==> pin.value > v)
  {
    var n := |jobs|;
    if n == 0 { return None; }
    var init := jobs[..n - 1];
    assert forall i :: 0 <= i < n - 1 ==> init[i] == jobs[i];
    pin := FindLeast(init, v);
    if HoldsPin(jobs[n - 1]) && (pin.None? || jobs[n - 1].bound < pin.value) {
      pin := Some(jobs[n - 1].bound);
    } else if pin.Some? {
      var i :| 0 <= i < n - 1 && HoldsPin(init[i]) && init[i].bound == pin.value;
      assert HoldsPin(jobs[i]) && jobs[i].bound == pin.value;
    }
  }

  lemma PinsStay(w: World, e: World, v: nat)
    requires Went(w, e) && PinsAbove(w.jobs, v)
    ensures PinsAbove(e.jobs, v)
  {
    forall i | 0 <= i < |e.jobs| && HoldsPin(e.jobs[i]) ensures e.jobs[i].bound > v {
      assert WentOn(w.jobs[i], e.jobs[i]);
    }
  }

  // ---------------------------------------------------------------- handed out under a reader

  /** The page died, and nothing in the books keeps it from being handed out. */
  ghost predicate Claimable(t: Tree, d: Dead) {
    && DiedAt(t, d) && |t.meta| == |t.pages| && t.graveyard == [] && t.horizon <= t.clock && d.death < t.clock
  }

  /** The allocator sees the watermark, the readers and the least pin, all above the death, and takes the page. */
  lemma TakesPage(w: World, x: nat, r: nat, a: nat, d: Dead) returns (e: World)
    requires CanCall(w, a) && a != x && a != r && r < |w.jobs| && w.jobs[a] == Free
    requires d in w.graveyard && Claimable(w.tree, d) && PinsAbove(w.jobs, d.death) && w.clock.globalMin > d.death
    ensures OthersCan(w, e, x) && r < |e.jobs| && e.jobs[r] == w.jobs[r] && a < |e.own| && d.page in e.own[a]
  {
    assert Moves(w, w.(jobs := w.jobs[a := Reclaiming]), a);
    var b := CallsOnce(w, x, a, Reclaiming);
    var g := w.clock.globalMin;
    var c := b.(jobs := b.jobs[a := SawReaders(g, None)]);
    assert b.jobs == w.jobs[a := SawCommitted(g)];
    assert Moves(b, c, a);
    OthersOne(b, c, x, a);
    OthersTrans(w, b, c, x);
    assert c.jobs == w.jobs[a := SawReaders(g, None)];
    assert PinsAbove(c.jobs, d.death);
    var pin := FindLeast(c.jobs, d.death);
    var limit := Lower(Lower(g, None), pin);
    var f := c.(jobs := c.jobs[a := HasBound(limit)]);
    assert Moves(c, f, a);
    OthersOne(c, f, x, a);
    OthersTrans(w, c, f, x);
    e := Claimed(f, x, a, d);
    OthersTrans(w, f, e, x);
  }

  lemma Claimed(w: World, x: nat, a: nat, d: Dead) returns (e: World)
    requires Gc.On(w, a) && a != x && w.jobs[a].HasBound? && d.death < w.jobs[a].limit && d in w.graveyard
    requires Claimable(w.tree, d)
    ensures OthersCan(w, e, x) && e.jobs == w.jobs[a := Free] && a < |e.own| && d.page in e.own[a]
  {
    var t := w.tree.(meta := w.tree.meta[d.page := Unlinked], horizon := Max(w.tree.horizon, d.death));
    e := w.(tree := t, jobs := w.jobs[a := Free], own := w.own[a := w.own[a] + {d.page}],
            graveyard := w.graveyard - {d});
    assert Forgets(w.tree, t, d.page);
    assert Claims(w, e, a, d);
    assert Takes(w, e, a);
    OthersOne(w, e, x, a);
  }

  /** The writer registers the page, if it has not yet. */
  lemma Buried(w: World, x: nat, a: nat, d: Dead) returns (e: World)
    requires d in w.limbo + w.graveyard && a != x
    ensures OthersCan(w, e, x) && e == w.(limbo := e.limbo, graveyard := e.graveyard) && d in e.graveyard
  {
    if d in w.graveyard {
      e := w;
      hide Plain;
      assert OthersLead(w, w, x, 0);
    } else {
      e := w.(limbo := w.limbo - {d}, graveyard := w.graveyard + {d});
      assert Buries(w, e);
      OthersOne(w, e, x, a);
    }
  }

  /** What it takes for thread `a` to get hold of the dead page while `r` stays where it is. */
  ghost predicate Doomed(w: World, x: nat, r: nat, a: nat, d: Dead) {
    && Sound(w.clock) && OthersRest(w, x) && a < |w.jobs| && a < w.clock.registered && w.jobs[a] == Free && a != x
    && r < |w.jobs| && r != a && !Waits(w.jobs[r]) && d in w.limbo + w.graveyard && Claimable(w.tree, d)
    && PinsAbove(w.jobs, d.death) && w.clock.globalMin > d.death
  }

  /**
   A page that counts as dead below all pins and the watermark can be handed out, whoever stands on it.
   Thread `r` takes no step meanwhile, nor does `x`.
   */
  lemma DoomedIsHandedOut(w: World, x: nat, r: nat, a: nat, d: Dead) returns (e: World)
    requires Doomed(w, x, r, a, d)
    ensures OthersCan(w, e, x) && r < |e.jobs| && e.jobs[r] == w.jobs[r] && a < |e.own| && d.page in e.own[a]
  {
    var b := Buried(w, x, a, d);
    hide Sound, OthersCan, CanCall, Claimable;
    assert OthersRest(b, x);
    hide OthersRest;
    var c := GetsReady(b, x, a);
    OthersTrans(w, b, c, x);
    PinsStay(b, c, d.death);
    WentBooks(b, c, r, d);
    hide Went;
    e := TakesPage(c, x, r, a, d);
    OthersTrans(w, c, e, x);
  }

  lemma WentBooks(w: World, e: World, r: nat, d: Dead)
    requires Went(w, e) && r < |w.jobs| && !Waits(w.jobs[r]) && Claimable(w.tree, d) && d in w.graveyard
    requires e.clock.clock >= w.tree.clock
    ensures r < |e.jobs| && e.jobs[r] == w.jobs[r] && Claimable(e.tree, d) && d in e.graveyard
  {
    assert WentOn(w.jobs[r], e.jobs[r]);
  }

  // ---------------------------------------------------------------- a reader on its way to a page

  /** A lookup of `k` at `s` goes along the path. */
  ghost predicate RootPath(t: Tree, path: seq<nat>, k: nat, s: nat) {
    && Walks(t, path, k, s) && RootFor(t.roots, s).Some? && path[0] == t.roots[RootFor(t.roots, s).value].page
  }

  ghost predicate ComesTo(t: Tree, p: nat, k: nat, s: nat) {
    exists path: seq<nat> :: RootPath(t, path, k, s) && path[|path| - 1] == p
  }

  /** Lookups of `k` at all snapshots from `v` on come to page `p`. */
  ghost predicate LeadsTo(t: Tree, p: nat, k: nat, v: nat) {
    k <= MAX_KEY && forall s: nat :: s >= v ==> ComesTo(t, p, k, s)
  }

  lemma WalksOn(w: World, x: nat, r: nat, path: seq<nat>, k: nat, b: nat, s: nat)
    returns (e: World)
    requires Gc.On(w, r) && r != x && w.jobs[r] == Drawn(b, s) && RootPath(w.tree, path, k, s) && k <= MAX_KEY
    ensures OthersCan(w, e, x) && e == w.(jobs := w.jobs[r := Standing(b, s, k, path[|path| - 1])])
  {
    e := w.(jobs := w.jobs[r := Standing(b, s, k, path[0])]);
    assert Moves(w, e, r);
    OthersOne(w, e, x, r);
    var f := WalksDown(e, x, r, path, k, b, s);
    OthersTrans(w, e, f, x);
    e := f;
  }

  lemma {:induction false} WalksDown(w: World, x: nat, r: nat, path: seq<nat>, k: nat, b: nat, s: nat)
    returns (e: World)
    requires Gc.On(w, r) && r != x && Walks(w.tree, path, k, s) && w.jobs[r] == Standing(b, s, k, path[0])
    ensures OthersCan(w, e, x) && e == w.(jobs := w.jobs[r := Standing(b, s, k, path[|path| - 1])])
    decreases |path|
  {
    if |path| == 1 {
      e := w;
      hide Plain;
      assert OthersLead(w, w, x, 0);
    } else {
      var m := w.(jobs := w.jobs[r := Standing(b, s, k, path[1])]);
      GoesDown(w, m, r, path[0], path[1], k, b, s) by { assert NextPage(w.tree, path[0], k, s, path[0 + 1]); }
      OthersOne(w, m, x, r);
      ShorterWalk(w.tree, path, k, s);
      hide Plain, Gc.Step, Walks, OthersCan;
      e := WalksDown(m, x, r, path[1..], k, b, s);
      OthersTrans(w, m, e, x);
    }
  }

  lemma GoesDown(w: World, m: World, r: nat, p: nat, c: nat, k: nat, b: nat, s: nat)
    requires Gc.On(w, r) && w.jobs[r] == Standing(b, s, k, p) && NextPage(w.tree, p, k, s, c)
    requires m == w.(jobs := w.jobs[r := Standing(b, s, k, c)])
    ensures Gc.Step(w, m, r)
  {
    assert Moves(w, m, r);
  }

  lemma ShorterWalk(t: Tree, path: seq<nat>, k: nat, s: nat)
    requires Walks(t, path, k, s) && |path| > 1
    ensures Walks(t, path[1..], k, s)
  {
    hide NextPage;
    var rest := path[1..];
    forall i | 0 <= i < |rest| - 1 ensures NextPage(t, rest[i], k, s, rest[i + 1]) {
      assert NextPage(t, path[i + 1], k, s, path[i + 1 + 1]);
    }
  }

  /** The reader stands on `p` with its pin above `v`, and the watermark is there too. */
  ghost predicate StandsAbove(w: World, r: nat, p: nat, v: nat) {
    && r < |w.jobs| && w.jobs[r].Standing? && w.jobs[r].page == p && w.jobs[r].bound > v && w.clock.globalMin > v
    && PinsAbove(w.jobs, v)
  }

  /** A free reader can pin, draw and walk until it stands on a page that newer lookups lead to. */
  lemma ReaderComes(w: World, x: nat, r: nat, p: nat, k: nat, v: nat) returns (e: World)
    requires CanCall(w, r) && r != x && w.jobs[r] == Free && OthersRest(w, x) && PinsAbove(w.jobs, v)
    requires w.clock.globalMin > v && LeadsTo(w.tree, p, k, v)
    ensures OthersCan(w, e, x) && OthersRest(e, x) && StandsAbove(e, r, p, v)
    ensures e == w.(clock := e.clock, jobs := e.jobs) && e.clock == w.clock.(results := e.clock.results)
    ensures |e.jobs| == |w.jobs| && forall u :: 0 <= u < |w.jobs| && u != r ==> e.jobs[u] == w.jobs[u]
  {
    var g := w.clock.globalMin;
    var m := ReaderDraws(w, x, r);
    assert ComesTo(w.tree, p, k, g);
    var path: seq<nat> :| RootPath(w.tree, path, k, g) && path[|path| - 1] == p;
    hide OthersCan, RootPath, Walks;
    e := WalksOn(m, x, r, path, k, g, g);
    OthersTrans(w, m, e, x);
    assert e.jobs == w.jobs[r := Standing(g, g, k, p)];
  }

  // ---------------------------------------------------------------- a draw without a shield

  /** The publication is going to register the page as dead. */
  ghost predicate Registers(t: Tree, k: Work, p: nat) {
    match k
    case Below(q, olds, _) => p in Replaced(t, q, olds)
    case AtRoot(s, _) => p == s
    case _ => false
  }

  /** The page is part of the tree, and the rest of it is as the memory manager needs it. */
  ghost predicate Takable(t: Tree, p: nat) {
    p < |t.meta| == |t.pages| && IsLinked(t.meta[p]) && t.graveyard == [] && t.horizon <= t.clock
  }

  lemma NewMetaDies(m: seq<Meta>, dying: set<nat>, born: map<nat, Meta>, w: nat, p: nat)
    requires p < |m| && m[p].Linked? && p in dying && p !in born
    ensures p < |NewMeta(m, dying, born, w)| == |m| && NewMeta(m, dying, born, w)[p] == m[p].(death := Some(w))
  {
  }

  lemma BelowDies(t0: Tree, t1: Tree, q: nat, olds: set<nat>, fs: seq<Fresh>, v: nat, p: nat)
    requires StoredBelow(t0, t1, q, olds, fs, v) && Takable(t0, p) && p in Replaced(t0, q, olds)
    ensures Claimable(t1, Dead(v, 0, p)) && t1.clock == t0.clock && t1.roots == t0.roots
  {
    ReplacedAreChildren(t0, q, olds);
    FreshKeysApart(t0, q, olds, fs, v);
    hide SameKeys, EntriesReplaced, CopiedIndex, Born, NewMeta, Replaced;
    NewMetaDies(t0.meta, Children(Entries(t0.pages[q]), olds), Born(fs, v, t0.meta[q].height - 1), v, p);
  }

  lemma FreshKeysApart(t: Tree, q: nat, olds: set<nat>, fs: seq<Fresh>, v: nat)
    requires q < |t.pages| && q < |t.meta| && t.meta[q].Linked? && t.meta[q].height > 1
    requires SameKeys(Entries(t.pages[q]), olds, fs)
    requires forall j :: 0 <= j < |fs| ==> fs[j].page < |t.meta| && t.meta[fs[j].page] == Unlinked
    ensures forall b :: b in Born(fs, v, t.meta[q].height - 1) ==> b < |t.meta| && t.meta[b] == Unlinked
  {
    FreshPages(Entries(t.pages[q]), olds, fs);
    hide SameKeys;
    BornEntries(fs, v, t.meta[q].height - 1);
    hide Born;
    forall b | b in Born(fs, v, t.meta[q].height - 1) ensures b < |t.meta| && t.meta[b] == Unlinked {
      assert IsFresh(fs, b);
    }
  }

  lemma RootDies(t0: Tree, t1: Tree, s: nat, n: NewRoot, v: nat)
    requires StoredRoot(t0, t1, s, n, v) && Takable(t0, s)
    ensures Claimable(t1, Dead(v, 0, s)) && t1.clock == t0.clock
  {
    BornKeys(n, v, t0.meta[s].height);
    hide CopiedIndex, BornRoot, NewMeta;
    NewMetaDies(t0.meta, {Top(t0).page, s}, BornRoot(n, v, t0.meta[s].height), v, s);
  }

  /** After the publication the page is registered dead, and the thread has no reorganization under way. */
  lemma PublicationBuries(w: World, w': World, t: nat, p: nat)
    requires Gc.Publishes(w, w', t) && t < |w.works| && Open(w.works[t]) && Registers(w.tree, w.works[t], p)
    requires Takable(w.tree, p)
    ensures w'.clock == w.clock && w'.jobs == w.jobs && |w'.works| == |w.works| && |w'.own| == |w.own|
    ensures w'.tree.clock == w.tree.clock && !Open(w'.works[t])
    ensures forall u :: 0 <= u < |w.works| && u != t ==> w'.works[u] == w.works[u]
    ensures Dead(w.works[t].version, 0, p) in w'.limbo && Claimable(w'.tree, Dead(w.works[t].version, 0, p))
  {
    hide StoredBelow, StoredRoot, Claimable, Takable, Replaced;
    if fs :| PublishesBelow(w, w', t, fs) {
      BelowDies(w.tree, w'.tree, w.works[t].parent, w.works[t].olds, fs, w.works[t].version, p);
    } else {
      var n :| PublishesRoot(w, w', t, n);
      RootDies(w.tree, w'.tree, w.works[t].source, n, w.works[t].version);
    }
  }

  /** Whatever the publication of `t` looks like, thread `a` can get hold of page `p` with the reader on it. */
  ghost predicate LosesAnyway(w: World, t: nat, r: nat, a: nat, p: nat) {
    forall w' :: Gc.Publishes(w, w', t) ==> exists e :: OthersCan(w', e, r) && Lost(w', e, r, a, p)
  }

  /** The reader is where it was, and the page it stands on is with thread `a`. */
  ghost predicate Lost(w: World, e: World, r: nat, a: nat, p: nat) {
    && r < |w.jobs| && r < |e.jobs| && e.jobs[r] == w.jobs[r] && e.jobs[r].Standing? && e.jobs[r].page == p
    && a < |e.own| && p in e.own[a]
  }

  lemma StandsIsLost(w: World, t: nat, r: nat, a: nat, p: nat)
    requires Sound(w.clock) && OthersRest(w, t) && t < |w.works| && Open(w.works[t])
    requires w.works[t].version < w.clock.clock
    requires StandsAbove(w, r, p, w.works[t].version) && Registers(w.tree, w.works[t], p) && Takable(w.tree, p)
    requires a < |w.jobs| && a < w.clock.registered && w.jobs[a] == Free && a != r && r != t
    ensures LosesAnyway(w, t, r, a, p)
  {
    hide Sound, Takable, Registers, Gc.Publishes, Claimable;
    forall w' | Gc.Publishes(w, w', t) ensures exists e :: OthersCan(w', e, r) && Lost(w', e, r, a, p) {
      PublicationBuries(w, w', t, p);
      var d := Dead(w.works[t].version, 0, p);
      assert OthersRest(w', r);
      assert Doomed(w', r, r, a, d);
      hide Doomed, OthersRest, OthersCan;
      var e := DoomedIsHandedOut(w', r, r, a, d);
      assert Lost(w', e, r, a, p);
    }
  }

  /** A reorganization whose slot does not hold the watermark at or below its version. */
  ghost predicate Unshielded(w: World, t: nat) {
    && t < |w.works| && t < |w.clock.pcs| && t < w.clock.registered && Open(w.works[t])
    && w.clock.pcs[t] == Committing(w.works[t].version) && !Shielded(w.clock, t, w.works[t].version + 1)
  }

  ghost predicate TwoFree(w: World, r: nat, a: nat) {
    && r < |w.jobs| && r < w.clock.registered && w.jobs[r] == Free
    && a < |w.jobs| && a < w.clock.registered && w.jobs[a] == Free && a != r
  }

  /** Everything but the clock and the jobs is as it was, and the allocator is free. */
  ghost predicate OnlyReaders(w: World, e: World, a: nat) {
    && e == w.(clock := e.clock, tree := w.tree.(clock := e.clock.clock), jobs := e.jobs) && Sound(e.clock)
    && a < |e.jobs| && a < e.clock.registered && e.jobs[a] == Free && w.tree.clock <= e.tree.clock == e.clock.clock
    && |e.jobs| == |w.jobs| && |e.clock.pcs| == |w.clock.pcs| && w.clock.registered <= e.clock.registered
  }

  /** The others bring the watermark beyond the version, and the reader onto the page. */
  lemma ReaderPasses(w: World, t: nat, r: nat, a: nat, p: nat, k: nat) returns (e: World)
    requires Sound(w.clock) && OthersRest(w, t) && Unshielded(w, t) && TwoFree(w, r, a) && r != t
    requires PinsAbove(w.jobs, w.works[t].version) && Takable(w.tree, p) && LeadsTo(w.tree, p, k, w.works[t].version)
    ensures OthersCan(w, e, t) && OthersRest(e, t) && OnlyReaders(w, e, a) && StandsAbove(e, r, p, w.works[t].version)
  {
    var v := w.works[t].version;
    hide *;
    UnshieldedIs(w, t, r, v);
    TwoAre(w, r, a);
    UnshieldedPasses(w.clock, t, r, v + 1);
    var m := WatermarkReaches(w, t, r, v + 1);
    PinsStay(w, m, v);
    RestsAt(w, t);
    WentTree(w, m, p, k, v);
    WentReaders(w, m, t, a);
    e := ReaderComes(m, t, r, p, k, v);
    OthersTrans(w, m, e, t);
    ReadersOn(w, m, e, r, a);
  }

  lemma WentReaders(w: World, m: World, t: nat, a: nat)
    requires OthersRest(w, t) && OthersRest(m, t) && w.clock.registered <= m.clock.registered
    requires Went(w, m) && Sound(m.clock) && a < |w.jobs| && a < m.clock.registered && w.jobs[a] == Free
    requires w.tree.clock <= m.clock.clock
    ensures OnlyReaders(w, m, a)
  {
    assert WentOn(w.jobs[a], m.jobs[a]);
    hide Sound;
  }

  lemma ReadersOn(w: World, m: World, e: World, r: nat, a: nat)
    requires OnlyReaders(w, m, a) && e == m.(clock := e.clock, jobs := e.jobs) && r != a
    requires e.clock == m.clock.(results := e.clock.results) && |e.jobs| == |m.jobs|
    requires forall u :: 0 <= u < |m.jobs| && u != r ==> e.jobs[u] == m.jobs[u]
    ensures OnlyReaders(w, e, a)
  {
    assert forall u: nat :: u < |m.clock.pcs| ==> PcSound(m.clock, u) == PcSound(e.clock, u);
    assert forall u: nat :: Active(e.clock, u) == Active(m.clock, u);
  }

  /**
   From any reorganization under way that is not shielded, and whose page newer lookups lead to, the other
   threads can go on until a pinned reader stands on that page; and then, whatever is published in its
   place, until an allocator has the page with the reader still on it.
   */
  lemma UnshieldedLoses(w: World, t: nat, r: nat, a: nat, p: nat, k: nat) returns (e: World)
    requires Sound(w.clock) && OthersRest(w, t) && Unshielded(w, t) && TwoFree(w, r, a) && r != t
    requires PinsAbove(w.jobs, w.works[t].version) && Takable(w.tree, p) && Registers(w.tree, w.works[t], p)
    requires LeadsTo(w.tree, p, k, w.works[t].version)
    ensures OthersCan(w, e, t) && t < |e.works| && OnlyReaders(w, e, a)
    ensures StandsAbove(e, r, p, w.works[t].version) && LosesAnyway(e, t, r, a, p)
  {
    e := ReaderPasses(w, t, r, a, p, k);
    UnshieldedIs(w, t, r, w.works[t].version);
    hide Sound, OthersRest, OthersCan, Shielded, LosesAnyway, LeadsTo, Replaced;
    StandsIsLost(e, t, r, a, p);
  }

  lemma UnshieldedIs(w: World, t: nat, r: nat, v: nat)
    requires Sound(w.clock) && Unshielded(w, t) && w.works[t].version == v
    ensures t < |w.works| && t < |w.clock.pcs| && t < w.clock.registered && Open(w.works[t])
    ensures w.clock.pcs[t].Committing? && w.clock.pcs[t].version == v < w.clock.clock && !Shielded(w.clock, t, v + 1)
  {
    InFlightBelow(w.clock, t, v);
    hide Sound, Shielded;
  }

  lemma TwoAre(w: World, r: nat, a: nat)
    requires TwoFree(w, r, a)
    ensures r < |w.jobs| && r < w.clock.registered && w.jobs[r] == Free
    ensures a < |w.jobs| && a < w.clock.registered && w.jobs[a] == Free && a != r
  {
  }

  lemma RestsAt(w: World, t: nat)
    requires OthersRest(w, t)
    ensures w.tree.clock == w.clock.clock
  {
  }

  lemma InFlightBelow(c: State, t: nat, v: nat)
    requires Sound(c) && t < |c.pcs| && c.pcs[t] == Committing(v)
    ensures v < c.clock
  {
    assert PcSound(c, t);
  }

  lemma WentTree(w: World, m: World, p: nat, k: nat, v: nat)
    requires Went(w, m) && Takable(w.tree, p) && LeadsTo(w.tree, p, k, v) && m.clock.clock >= w.tree.clock
    ensures Takable(m.tree, p) && LeadsTo(m.tree, p, k, v) && m.works == w.works && m.own == w.own
    ensures m.tree == w.tree.(clock := m.clock.clock) && m.clock.clock == m.tree.clock
  {
    forall s: nat | s >= v ensures ComesTo(m.tree, p, k, s) {
      assert ComesTo(w.tree, p, k, s);
      var path: seq<nat> :| RootPath(w.tree, path, k, s) && path[|path| - 1] == p;
      SamePath(w.tree, m.tree, path, k, s);
    }
  }

  lemma SamePath(t0: Tree, t1: Tree, path: seq<nat>, k: nat, s: nat)
    requires RootPath(t0, path, k, s) && t1.pages == t0.pages && t1.roots == t0.roots
    ensures RootPath(t1, path, k, s)
  {
    forall i | 0 <= i < |path| - 1 ensures NextPage(t1, path[i], k, s, path[i + 1]) {
      assert NextPage(t0, path[i], k, s, path[i + 1]);
    }
  }

  // ---------------------------------------------------------------- at the root

  lemma NewestRoot(t: Tree, s: nat)
    requires RootsOk(t) && Top(t).version <= s
    ensures |t.roots| > 0 && RootFor(t.roots, s) == Some(|t.roots| - 1)
  {
    hide RootServes;
  }

  /** Newer lookups start at the root. */
  lemma RootIsLed(t: Tree, k: nat, v: nat)
    requires RootsOk(t) && Top(t).version <= v && k <= MAX_KEY
    ensures |t.roots| > 0 && LeadsTo(t, Top(t).page, k, v)
  {
    NewestRoot(t, v);
    forall s: nat | s >= v ensures ComesTo(t, Top(t).page, k, s) {
      NewestRoot(t, s);
      var path: seq<nat> := [Top(t).page];
      assert RootPath(t, path, k, s) && path[|path| - 1] == Top(t).page;
    }
  }

  /** Newer lookups of any key go on from the root to its only child. */
  lemma OnlyChildIsLed(t: Tree, c: nat, k: nat, v: nat)
    requires RootsOk(t) && Top(t).version <= v && k <= MAX_KEY && OnlyChild(t, c)
    requires forall s: nat :: s >= v ==> NextPage(t, Top(t).page, k, s, c)
    ensures LeadsTo(t, c, k, v)
  {
    hide OnlyChild, NextPage;
    NewestRoot(t, v);
    forall s: nat | s >= v ensures ComesTo(t, c, k, s) {
      NewestRoot(t, s);
      var path: seq<nat> := [Top(t).page, c];
      assert RootPath(t, path, k, s) by {
        forall i | 0 <= i < |path| - 1 ensures NextPage(t, path[i], k, s, path[i + 1]) {
          assert NextPage(t, Top(t).page, k, s, c);
        }
      }
    }
  }

  /** The only active entry of a live page is the last one and spans the page: every newer lookup takes it. */
  lemma OnlyChildIsNext(t: Tree, c: nat, k: nat, s: nat)
    requires Woven(t) && OnlyChild(t, c) && k <= MAX_KEY && s >= t.clock
    ensures NextPage(t, Top(t).page, k, s, c)
  {
    WovenMeta(t);
    TopIsLinked(t);
    IndexIsHigh(t, Top(t).page);
    hide Woven, MetaOk, Apart, AllTurn, RootsOk, OldRootsGone;
    var p := Top(t).page;
    var i: nat :| OnlyActive(Entries(t.pages[p]), i) && Entries(t.pages[p])[i].child == c;
    OnlyChildSpans(t, p, i);
    LastIsOnly(t, p, i);
    hide LiveIndexes, OnlyChild;
    LastIsTaken(Entries(t.pages[p]), i, k, s);
  }

  lemma LastIsOnly(t: Tree, p: nat, i: nat)
    requires LiveIndexes(t) && p < |t.meta| && IsLinked(t.meta[p]) && t.meta[p].height > 1 && p < |t.pages|
    requires OnlyActive(Entries(t.pages[p]), i)
    ensures i == |Entries(t.pages[p])| - 1 && Entries(t.pages[p])[i].version < t.clock
    ensures i < |Entries(t.pages[p])| && ActiveTiles(Entries(t.pages[p]), t.meta[p].fence)
    ensures Contains(t.meta[p].fence, MIN_KEY) ==> Contains(Entries(t.pages[p])[i].fence, MIN_KEY)
    ensures Contains(t.meta[p].fence, MAX_KEY) ==> Contains(Entries(t.pages[p])[i].fence, MAX_KEY)
  {
    assert LiveIndex(t, p);
    hide Births, ChildrenOk;
    var es := Entries(t.pages[p]);
    if Contains(t.meta[p].fence, MIN_KEY) { assert ActiveAt(es, MIN_KEY); }
    if Contains(t.meta[p].fence, MAX_KEY) { assert ActiveAt(es, MAX_KEY); }
  }

  lemma LastIsTaken(es: seq<Entry>, i: nat, k: nat, s: nat)
    requires i == |es| - 1 && es[i].version <= s && Contains(es[i].fence, MIN_KEY) && Contains(es[i].fence, MAX_KEY)
    requires k <= MAX_KEY
    ensures Route(es, k, s) == Some(i)
  {
    assert Fits(es[i], k, s);
  }

  /** Newer lookups come to every page that a replacement of the root replaces and registers. */
  lemma SourceIsLed(t: Tree, s: nat, k: nat)
    requires Woven(t) && |t.roots| > 0 && (s == Top(t).page || OnlyChild(t, s)) && k <= MAX_KEY
    ensures LeadsTo(t, s, k, t.clock)
  {
    WovenMeta(t);
    TopNotNewer(t);
    hide Woven, MetaOk, Apart, AllTurn, LiveIndexes, OldRootsGone, OnlyChild, RootsOk, LeadsTo, NextPage;
    if s == Top(t).page {
      RootIsLed(t, k, t.clock);
    } else {
      forall x: nat | x >= t.clock ensures NextPage(t, Top(t).page, k, x, s) { OnlyChildIsNext(t, s, k, x); }
      OnlyChildIsLed(t, s, k, t.clock);
    }
  }

  lemma TopNotNewer(t: Tree)
    requires RootsOk(t)
    ensures |t.roots| > 0 && Top(t).version <= t.clock
  {
    hide RootServes;
  }

  /**
   Whenever the root is being replaced at a version that is not shielded, with no other reorganization
   under way and no reader pinned: the others can bring a reader onto the page, and its page is lost
   whatever is published.
   */
  lemma UnshieldedRootLoses(w0: World, w: World, t: nat, r: nat, a: nat) returns (e: World)
    requires GcOk(w0) && Draws(w0, w, t) && w.works[t].AtRoot? && OthersRest(w, t) && TwoFree(w, r, a) && r != t
    requires PinsAbove(w.jobs, w0.clock.clock) && !Shielded(w.clock, t, w0.clock.clock + 1)
    ensures OthersCan(w, e, t) && t < |e.works| && OnlyReaders(w, e, a)
    ensures StandsAbove(e, r, w.works[t].source, w0.clock.clock) && LosesAnyway(e, t, r, a, w.works[t].source)
  {
    var s, v := w.works[t].source, w0.clock.clock;
    hide *;
    ShapeClock(w0);
    DrawsSource(w0, w, t);
    DrawnClock(w0, w, t);
    ChildIsSource(w0.tree, s);
    SourceIsLed(w0.tree, s, MIN_KEY);
    SourceIsTakable(w0, w, s, MIN_KEY);
    OpenedIs(w0, w, t);
    e := UnshieldedLoses(w, t, r, a, s, MIN_KEY);
  }

  lemma DrawnClock(w0: World, w: World, t: nat)
    requires Shape(w0) && Draws(w0, w, t)
    ensures Sound(w.clock) && w.clock.clock == w0.clock.clock + 1 && w.tree == w0.tree.(clock := w.clock.clock)
    ensures t < |w.works| && t < |w.clock.pcs| && t < w.clock.registered && Open(w.works[t])
    ensures w.works[t].version == w0.clock.clock && w.clock.pcs[t] == Committing(w0.clock.clock)
    ensures w0.tree.clock == w0.clock.clock
  {
    assert Clock.Step(w0.clock, w.clock, t);
    StepKeepsSound(w0.clock, w.clock, t);
    hide Sound, Latched, Clock.Step;
  }

  lemma OpenedIs(w0: World, w: World, t: nat)
    requires Draws(w0, w, t) && !Shielded(w.clock, t, w0.clock.clock + 1)
    ensures Unshielded(w, t) && w.works[t].AtRoot? ==> Registers(w.tree, w.works[t], w.works[t].source)
    ensures Unshielded(w, t)
  {
    hide Shielded, Latched;
  }

  lemma SourceIsTakable(w0: World, w: World, s: nat, k: nat)
    requires GcOk(w0) && RootSource(w0.tree, s) && w.tree == w0.tree.(clock := w0.tree.clock + 1)
    requires LeadsTo(w0.tree, s, k, w0.tree.clock)
    ensures Takable(w.tree, s) && LeadsTo(w.tree, s, k, w0.tree.clock)
  {
    ShapeClock(w0);
    WovenMeta(w0.tree);
    KeptBelowClock(w0);
    hide GcOk, Woven, Shape, Apart, AllTurn, RootsOk, LiveIndexes, OldRootsGone;
    SameLead(w0.tree, w.tree, s, k, w0.tree.clock);
    hide LeadsTo;
  }

  lemma SameLead(t0: Tree, t1: Tree, p: nat, k: nat, v: nat)
    requires LeadsTo(t0, p, k, v) && t1.pages == t0.pages && t1.roots == t0.roots
    ensures LeadsTo(t1, p, k, v)
  {
    forall s: nat | s >= v ensures ComesTo(t1, p, k, s) {
      assert ComesTo(t0, p, k, s);
      var path: seq<nat> :| RootPath(t0, path, k, s) && path[|path| - 1] == p;
      SamePath(t0, t1, path, k, s);
    }
  }

  lemma KeptBelowClock(w: World)
    requires GcOk(w)
    ensures w.tree.graveyard == [] && w.tree.horizon <= w.tree.clock
  {
    hide Woven, JobOk, WorkOk;
  }

  // ---------------------------------------------------------------- a draw below a replaced parent

  /** A page on the way of a lookup is part of the tree at its snapshot. */
  lemma PathIsAlive(t: Tree, path: seq<nat>, k: nat, s: nat, i: nat)
    requires Woven(t) && RootPath(t, path, k, s) && k <= MAX_KEY && t.horizon <= s && i < |path|
    ensures Visible(t, path[i], k, s)
  {
    RootVisible(t, k, s);
    hide Woven, Visible, NextPage, RootFor;
    WalkIsVisible(t, path, k, s);
  }

  lemma DeadIsHidden(t: Tree, p: nat, k: nat, s: nat)
    requires Woven(t) && p < |t.meta| && t.meta[p].Linked? && t.meta[p].death.Some? && t.clock <= s
    ensures !Visible(t, p, k, s)
  {
    WovenMeta(t);
    hide Woven, Apart, AllTurn, RootsOk, LiveIndexes, OldRootsGone;
  }

  /** Stores in a replaced page do not change where newer lookups go. */
  lemma LedPast(t0: Tree, t1: Tree, p: nat, c: nat, k: nat)
    requires Woven(t0) && p < |t0.meta| && t0.meta[p].Linked? && t0.meta[p].death.Some? && t0.horizon <= t0.clock
    requires LeadsTo(t0, c, k, t0.clock) && t1.roots == t0.roots && |t1.pages| == |t0.pages|
    requires forall q :: 0 <= q < |t0.pages| && q != p ==> t1.pages[q] == t0.pages[q]
    ensures LeadsTo(t1, c, k, t0.clock)
  {
    forall s: nat | s >= t0.clock ensures ComesTo(t1, c, k, s) {
      assert ComesTo(t0, c, k, s);
      var path: seq<nat> :| RootPath(t0, path, k, s) && path[|path| - 1] == c;
      hide Woven, NextPage, Visible, LeadsTo;
      forall i | 0 <= i < |path| - 1 ensures NextPage(t1, path[i], k, s, path[i + 1]) {
        assert NextPage(t0, path[i], k, s, path[i + 1]);
        PathIsAlive(t0, path, k, s, i);
        DeadIsHidden(t0, p, k, s);
        NextElsewhere(t0, t1, path[i], p, k, s, path[i + 1]);
      }
      assert RootPath(t1, path, k, s);
    }
  }

  lemma NextElsewhere(t0: Tree, t1: Tree, q: nat, p: nat, k: nat, s: nat, c: nat)
    requires NextPage(t0, q, k, s, c) && q != p && |t1.pages| == |t0.pages|
    requires forall i :: 0 <= i < |t0.pages| && i != p ==> t1.pages[i] == t0.pages[i]
    ensures NextPage(t1, q, k, s, c)
  {
  }

  /** The parent of the reorganization has been replaced, and newer lookups still come to one of its children. */
  ghost predicate Orphaned(t: Tree, k: Work, c: nat, key: nat) {
    && k.Below? && k.parent < |t.meta| && t.meta[k.parent].Linked? && t.meta[k.parent].death.Some?
    && c in Replaced(t, k.parent, k.olds) && c < |t.meta| && IsLinked(t.meta[c]) && LeadsTo(t, c, key, t.clock)
  }

  lemma OrphanedIs(w0: World, w: World, w': World, t: nat, c: nat, k: nat)
    requires GcOk(w0) && Draws(w0, w, t) && Orphaned(w0.tree, w.works[t], c, k) && Gc.Publishes(w, w', t)
    ensures t < |w.works| && Open(w.works[t]) && Registers(w.tree, w.works[t], c) && Takable(w.tree, c)
    ensures w.works[t].version == w0.clock.clock && LeadsTo(w'.tree, c, k, w0.clock.clock)
    ensures Sound(w.clock) && w.clock.clock == w0.clock.clock + 1 && w.tree.clock == w.clock.clock
  {
    hide *;
    ShapeClock(w0);
    KeptBelowClock(w0);
    DrawnClock(w0, w, t);
    WovenLength(w0.tree);
    OrphanParts(w0.tree, w.works[t], c, k);
    OrphanIsTakable(w0.tree, w.tree, w.works[t], c, k);
    PublishesPast(w0, w, w', t);
    LedPast(w0.tree, w'.tree, w.works[t].parent, c, k);
  }

  lemma WovenLength(t: Tree)
    requires Woven(t)
    ensures |t.meta| == |t.pages|
  {
    WovenMeta(t);
  }

  lemma OrphanParts(t: Tree, k: Work, c: nat, key: nat)
    requires Orphaned(t, k, c, key)
    ensures k.Below? && k.parent < |t.meta| && t.meta[k.parent].Linked? && t.meta[k.parent].death.Some?
    ensures LeadsTo(t, c, key, t.clock)
  {
    hide LeadsTo;
  }

  lemma OrphanIsTakable(t0: Tree, t1: Tree, k: Work, c: nat, key: nat)
    requires Orphaned(t0, k, c, key) && t1 == t0.(clock := t1.clock) && t0.clock <= t1.clock && |t0.meta| == |t0.pages|
    requires t0.graveyard == [] && t0.horizon <= t0.clock
    ensures Registers(t1, k, c) && Takable(t1, c)
  {
    hide LeadsTo;
  }

  lemma PublishesPast(w0: World, w: World, w': World, t: nat)
    requires t < |w.works| && w.works[t].Below? && Gc.Publishes(w, w', t) && w.tree == w0.tree.(clock := w.tree.clock)
    ensures w'.tree.roots == w0.tree.roots && |w'.tree.pages| == |w0.tree.pages|
    ensures forall q :: 0 <= q < |w0.tree.pages| && q != w.works[t].parent ==> w'.tree.pages[q] == w0.tree.pages[q]
  {
    hide SameKeys, EntriesReplaced, CopiedIndex, Born, NewMeta, Replaced, StoredRoot;
    var fs :| PublishesBelow(w, w', t, fs);
  }

  /**
   Whenever a reorganization below a replaced parent is published, with no other one under way and no
   reader pinned, while newer lookups still come to one of the children it replaces: the threads can go on
   until an allocator has that child with a pinned reader on it.
   */
  lemma OrphanLoses(w0: World, w: World, w': World, t: nat, r: nat, a: nat, c: nat, k: nat) returns (e: World)
    requires GcOk(w0) && Draws(w0, w, t) && Orphaned(w0.tree, w.works[t], c, k) && Gc.Publishes(w, w', t)
    requires OthersRest(w, t) && TwoFree(w, r, a) && PinsAbove(w.jobs, w0.clock.clock)
    ensures OthersCan(w', e, |w'.jobs|) && r < |e.jobs| && e.jobs[r].Standing? && e.jobs[r].page == c
    ensures e.jobs[r].bound > w0.clock.clock && a < |e.own| && c in e.own[a]
  {
    var v, x := w0.clock.clock, |w'.jobs|;
    hide *;
    OrphanedIs(w0, w, w', t, c, k);
    PublicationBuries(w, w', t, c);
    var d := Dead(v, 0, c);
    TwoAre(w, r, a);
    NowAllRest(w, w', t, x);
    AllTogetherPass(w'.clock, r, v + 1);
    var m := WatermarkReaches(w', x, r, v + 1);
    PinsStay(w', m, v);
    WentClaims(w', m, a, c, k, v, d);
    var f := ReaderComes(m, x, r, c, k, v);
    OthersTrans(w', m, f, x);
    IsDoomed(m, f, x, r, a, c, v, d);
    e := DoomedIsHandedOut(f, x, r, a, d);
    OthersTrans(w', f, e, x);
    StandsThere(f, r, c, v);
  }

  lemma StandsThere(w: World, r: nat, p: nat, v: nat)
    requires StandsAbove(w, r, p, v)
    ensures r < |w.jobs| && w.jobs[r].Standing? && w.jobs[r].page == p && w.jobs[r].bound > v
  {
  }

  lemma NowAllRest(w: World, w': World, t: nat, x: nat)
    requires OthersRest(w, t) && x == |w'.jobs| && w'.clock == w.clock && w'.jobs == w.jobs && t < |w.works|
    requires |w'.works| == |w.works| && |w'.own| == |w.own| && w'.tree.clock == w.tree.clock && !Open(w'.works[t])
    requires forall u :: 0 <= u < |w.works| && u != t ==> w'.works[u] == w.works[u]
    ensures OthersRest(w', x) && x == |w'.clock.slots|
  {
  }

  lemma WentClaims(w: World, m: World, a: nat, c: nat, k: nat, v: nat, d: Dead)
    requires Went(w, m) && LeadsTo(w.tree, c, k, v) && Claimable(w.tree, d) && d in w.limbo
    requires m.clock.clock >= w.clock.clock
    requires w.tree.clock == w.clock.clock && a < |w.jobs| && w.jobs[a] == Free
    ensures LeadsTo(m.tree, c, k, v) && Claimable(m.tree, d) && d in m.limbo && a < |m.jobs| && m.jobs[a] == Free
  {
    assert WentOn(w.jobs[a], m.jobs[a]);
    SameLead(w.tree, m.tree, c, k, v);
    hide LeadsTo;
  }

  lemma IsDoomed(m: World, f: World, x: nat, r: nat, a: nat, c: nat, v: nat, d: Dead)
    requires f == m.(clock := f.clock, jobs := f.jobs)
    requires f.clock == m.clock.(results := f.clock.results) && Sound(m.clock)
    requires OthersRest(f, x) && StandsAbove(f, r, c, v) && d == Dead(v, 0, c) && d in m.limbo && Claimable(m.tree, d)
    requires a < |m.jobs| == |f.jobs| && a < m.clock.registered && m.jobs[a] == Free && a != x && a != r
    requires forall u :: 0 <= u < |m.jobs| && u != r ==> f.jobs[u] == m.jobs[u]
    ensures Doomed(f, x, r, a, d)
  {
    assert forall u: nat :: u < |m.clock.pcs| ==> PcSound(m.clock, u) == PcSound(f.clock, u);
    assert forall u: nat :: Active(f.clock, u) == Active(m.clock, u);
    hide OthersRest, Claimable;
  }
}
