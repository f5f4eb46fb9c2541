/**
 The shield a reorganization needs is exact: with it no reader gets a snapshot at or above the version
 in flight, whatever the other threads do; without it they can go on until a reader has one.
 */
module GcExact {
  import opened Util
  import opened TreeModel
  import opened Clock
  import opened InFlight
  import opened Overtaking
  import opened RootReorg
  import opened ParentReorg
  import opened WeaveBelow
  import opened WeaveRoot
  import opened Gc

  /** A step that takes or drops no latch and neither draws nor publishes: no reorganization is part of it. */
  ghost predicate Plain(w: World, w': World, u: nat) { Gc.Step(w, w', u) && w'.works == w.works }

  /** `n` plain steps of threads other than `t`. */
  ghost predicate OthersLead(w: World, w': World, t: nat, n: nat)
    decreases n
  {
    if n == 0 then w' == w else exists m: World, u: nat :: u != t && Plain(w, m, u) && OthersLead(m, w', t, n - 1)
  }

  ghost predicate OthersCan(w: World, w': World, t: nat) { exists n: nat :: OthersLead(w, w', t, n) }

  /** `n` steps of any kind by threads other than `t`. */
  ghost predicate AnyLead(w: World, w': World, t: nat, n: nat)
    decreases n
  {
    if n == 0 then w' == w else exists m: World, u: nat :: u != t && Gc.Step(w, m, u) && AnyLead(m, w', t, n - 1)
  }

  ghost predicate AnyCan(w: World, w': World, t: nat) { exists n: nat :: AnyLead(w, w', t, n) }

  lemma OthersOne(w: World, w': World, t: nat, u: nat)
    requires u != t && Gc.Step(w, w', u) && w'.works == w.works
    ensures OthersCan(w, w', t)
  {
    hide Gc.Step;
    assert OthersLead(w', w', t, 0);
    assert Plain(w, w', u);
    assert OthersLead(w, w', t, 1);
  }

  lemma {:induction false} OthersJoin(a: World, b: World, c: World, t: nat, n: nat, m: nat)
    requires OthersLead(a, b, t, n) && OthersLead(b, c, t, m)
    ensures OthersLead(a, c, t, n + m)
    decreases n
  {
    hide Plain;
    if n > 0 {
      var x: World, u: nat :| u != t && Plain(a, x, u) && OthersLead(x, b, t, n - 1);
      OthersJoin(x, b, c, t, n - 1, m);
      assert OthersLead(a, c, t, n + m);
    }
  }

  lemma OthersTrans(a: World, b: World, c: World, t: nat)
    requires OthersCan(a, b, t) && OthersCan(b, c, t)
    ensures OthersCan(a, c, t)
  {
    var n: nat :| OthersLead(a, b, t, n);
    var m: nat :| OthersLead(b, c, t, m);
    OthersJoin(a, b, c, t, n, m);
  }

  // ---------------------------------------------------------------- with the shield

  /** Nobody has read at a version above the watermark. */
  ghost predicate BelowWatermark(w: World) {
    forall u :: 0 <= u < |w.jobs| && HasSnapshot(w.jobs[u]) ==> w.jobs[u].snapshot <= w.clock.globalMin
  }

  lemma StepOfClock(w: World, w': World, u: nat)
    requires Gc.Step(w, w', u) && u < |w.clock.pcs|
    ensures w'.clock == w.clock || Clock.Step(w.clock, w'.clock, u)
  {
    hide Latched, Calls, Commits, Register, Clock.Step;
    if Calling(w, w', u) { CallIsStep(w.clock, w'.clock, u); }
    if Draws(w, w', u) { DrawIsStep(w.clock, w'.clock, u); }
  }

  lemma CallIsStep(c: State, c': State, u: nat)
    requires Calls(c, c', u) && u < c.registered
    ensures Clock.Step(c, c', u)
  {
  }

  lemma DrawIsStep(c: State, c': State, u: nat)
    requires StartCommit(c, c', u) && u < c.registered
    ensures Clock.Step(c, c', u)
  {
  }

  /** A reader's snapshot is the watermark at the moment it draws it. */
  lemma StepKeepsBelow(w: World, w': World, u: nat)
    requires Gc.Step(w, w', u) && BelowWatermark(w) && w.clock.globalMin <= w'.clock.globalMin
    ensures BelowWatermark(w')
  {
    hide Latched, Calls, Commits, Clock.Step, StartCommit, Forgets, StoredBelow, StoredRoot, OnlyChild, OldsActive;
    hide LeastPin;
  }

  ghost predicate StaysBelow(w: World, t: nat, v: nat) {
    Sound(w.clock) && |w.jobs| == |w.clock.pcs| && BelowWatermark(w) && Shielded(w.clock, t, v)
  }

  lemma StepStaysBelow(w: World, w': World, t: nat, u: nat, v: nat)
    requires StaysBelow(w, t, v) && u != t && Gc.Step(w, w', u)
    ensures StaysBelow(w', t, v)
  {
    SameThreads(w, w', u);
    if u < |w.clock.pcs| {
      StepOfClock(w, w', u);
      if w'.clock != w.clock {
        StepKeepsSound(w.clock, w'.clock, u);
        OthersKeepShield(w.clock, w'.clock, t, u, v);
        ResultIsWatermark(w.clock, w'.clock, u);
      }
    } else {
      BuriesOnly(w, w', u);
    }
    hide Gc.Step, Sound, Shielded, Clock.Step;
    StepKeepsBelow(w, w', u);
  }

  lemma BuriesOnly(w: World, w': World, u: nat)
    requires Gc.Step(w, w', u) && |w.jobs| == |w.clock.pcs| <= u
    ensures w'.clock == w.clock && w'.jobs == w.jobs
  {
  }

  lemma SameThreads(w: World, w': World, u: nat)
    requires Gc.Step(w, w', u) && |w.jobs| == |w.clock.pcs|
    ensures |w'.jobs| == |w'.clock.pcs|
  {
    ClockThreads(w.clock, w'.clock, u);
    hide Latched, Forgets, StoredBelow, StoredRoot, OnlyChild, OldsActive, LeastPin, Calls, Commits, StartCommit;
    hide Clock.Step;
  }

  lemma ClockThreads(c: State, c': State, u: nat)
    ensures Calls(c, c', u) || StartCommit(c, c', u) || Clock.Step(c, c', u) ==> |c'.pcs| == |c.pcs|
  {
  }

  lemma {:induction false} RunStaysBelow(w: World, w': World, t: nat, n: nat, v: nat)
    requires StaysBelow(w, t, v) && AnyLead(w, w', t, n)
    ensures StaysBelow(w', t, v)
    decreases n
  {
    hide Gc.Step, StaysBelow;
    if n > 0 {
      var m: World, u: nat :| u != t && Gc.Step(w, m, u) && AnyLead(m, w', t, n - 1);
      StepStaysBelow(w, m, t, u, v);
      RunStaysBelow(m, w', t, n - 1, v);
    }
  }

  // ---------------------------------------------------------------- without the shield

  /** No thread other than `t` has a reorganization under way. */
  ghost predicate OthersRest(w: World, t: nat) {
    && |w.jobs| == |w.works| == |w.own| == |w.clock.pcs| == |w.clock.slots| && w.tree.clock == w.clock.clock
    && (forall u :: 0 <= u < |w.works| && u != t ==> !Open(w.works[u]))
    && forall u :: 0 <= u < |w.jobs| && Waits(w.jobs[u]) ==> u < w.clock.registered
  }

  /** Only the clock has moved on, and calls have returned to the threads that waited for them. */
  ghost predicate Went(w: World, e: World) {
    && e == w.(clock := e.clock, tree := w.tree.(clock := e.clock.clock), jobs := e.jobs) && |e.jobs| == |w.jobs|
    && forall u :: 0 <= u < |w.jobs| ==> WentOn(w.jobs[u], e.jobs[u])
  }

  /** A pin is kept, and a thread that did not wait is where it was. */
  predicate WentOn(a: Job, b: Job) {
    (!Waits(a) ==> b == a) && HoldsPin(b) == HoldsPin(a) && (HoldsPin(a) ==> b.bound == a.bound)
  }

  lemma WentTrans(a: World, b: World, c: World)
    requires Went(a, b) && Went(b, c)
    ensures Went(a, c)
  {
    forall u | 0 <= u < |a.jobs| ensures WentOn(a.jobs[u], c.jobs[u]) {
      assert WentOn(a.jobs[u], b.jobs[u]) && WentOn(b.jobs[u], c.jobs[u]);
    }
  }

  function At(w: World, c: State): World { w.(clock := c, tree := w.tree.(clock := c.clock)) }

  /** What the clock can do by steps of the others, the program can do. */
  lemma {:induction false} Lift(w: World, c: State, t: nat, n: nat) returns (e: World)
    requires OthersRest(w, t) && Reach(w.clock, c, t, n)
    ensures OthersCan(w, e, t) && OthersRest(e, t) && Went(w, e) && e.clock == c
    decreases n
  {
    hide *;
    if n == 0 {
      NoSteps(w.clock, c, t);
      e := w;
      LiftNone(w, t);
    } else {
      var m, u := FirstStep(w.clock, c, t, n);
      var x := LiftOne(w, m, t, u);
      OthersOne(w, x, t, u);
      e := Lift(x, c, t, n - 1);
      OthersTrans(w, x, e, t);
      WentTrans(w, x, e);
    }
  }

  lemma NoSteps(s: State, e: State, t: nat)
    requires Reach(s, e, t, 0)
    ensures e == s
  {
  }

  lemma FirstStep(s: State, e: State, t: nat, n: nat) returns (m: State, u: nat)
    requires Reach(s, e, t, n) && n > 0
    ensures u != t && Clock.Step(s, m, u) && Reach(m, e, t, n - 1)
  {
    hide Clock.Step;
    m, u :| u != t && Clock.Step(s, m, u) && Reach(m, e, t, n - 1);
  }

  lemma LiftNone(w: World, t: nat)
    requires OthersRest(w, t)
    ensures OthersCan(w, w, t) && Went(w, w)
  {
    hide Plain;
    assert OthersLead(w, w, t, 0);
  }

  /** A step of a call that a thread waits for may return its result; any other step leaves the jobs alone. */
  lemma LiftOne(w: World, m: State, t: nat, u: nat) returns (e: World)
    requires OthersRest(w, t) && u != t && Clock.Step(w.clock, m, u)
    ensures Gc.Step(w, e, u) && OthersRest(e, t) && Went(w, e) && e.clock == m && e.works == w.works
  {
    SameSlots(w.clock, m, u);
    StepThreads(w.clock, m, u);
    ClockCases(w.clock, m, u);
    hide Clock.Step, Commits;
    if Waits(w.jobs[u]) && Calls(w.clock, m, u) {
      CallFrame(w.clock, m, u);
      hide Calls;
      e := At(w, m).(jobs := w.jobs[u := AfterCall(w.jobs[u], w.clock, m)]);
      assert Calling(w, e, u);
    } else {
      hide Calls;
      e := At(w, m);
      assert Ticking(w, e, u);
    }
  }

  lemma ClockCases(c: State, m: State, u: nat)
    requires Clock.Step(c, m, u)
    ensures u == c.registered || Calls(c, m, u) || Commits(c, m, u)
  {
    hide Calls, Commits;
  }

  lemma SameSlots(c: State, m: State, u: nat)
    requires Clock.Step(c, m, u) && |c.pcs| == |c.slots|
    ensures |m.pcs| == |m.slots| == |c.pcs| && u < |c.pcs|
  {
  }

  /** All that has been returned since lies at or below the watermark. */
  lemma {:induction false} ReachedBelow(s: State, e: State, t: nat, n: nat, k: nat)
    requires Reach(s, e, t, n) && k <= |s.results| && forall i :: k <= i < |s.results| ==> s.results[i] <= s.globalMin
    ensures k <= |e.results| && forall i :: k <= i < |e.results| ==> e.results[i] <= e.globalMin
    decreases n
  {
    hide Clock.Step;
    if n > 0 {
      var m: State, u: nat :| u != t && Clock.Step(s, m, u) && Reach(m, e, t, n - 1);
      ResultIsWatermark(s, m, u);
      ReachedBelow(m, e, t, n - 1, k);
    }
  }

  /** A scan that owns the flag leaves it clean. */
  lemma {:induction false} OwnScanEnds(s: State, t: nat, u: nat) returns (e: State)
    requires Sound(s) && u != t && u < s.registered && s.pcs[u].Scan? && s.pcs[u].owns && s.flag == Scanning
    ensures Moved(s, e, t, u) && e.pcs[u] == Idle && e.flag == Clean
    decreases if s.pcs[u].next < s.pcs[u].limit then s.pcs[u].limit - s.pcs[u].next else 0
  {
    assert PcSound(s, u);
    if s.pcs[u].next < s.pcs[u].limit {
      var slot := s.slots[s.pcs[u].next];
      var m := To(s, u, s.pcs[u].(acc := Min(s.pcs[u].acc, slot), next := s.pcs[u].next + 1, met := s.pcs[u].met
                                  || slot != INACTIVE));
      assert ReadSlot(s, m, u);
      MoveOne(s, m, t, u);
      MovedSound(s, m, t, u);
      hide Sound, Moved;
      e := OwnScanEnds(m, t, u);
      MovedTrans(s, m, e, t, u);
    } else {
      e := OwnFetchEnds(s, t, u);
    }
  }

  lemma OwnFetchEnds(s: State, t: nat, u: nat) returns (e: State)
    requires Sound(s) && u != t && u < s.registered && s.pcs[u].Scan? && s.pcs[u].owns && s.flag == Scanning
    requires s.pcs[u].next >= s.pcs[u].limit
    ensures Moved(s, e, t, u) && e.pcs[u] == Idle && e.flag == Clean
  {
    var result := Max(s.pcs[u].acc, s.globalMin);
    var m := To(s, u, CleanUp(result)).(
      globalMin := result, results := s.results + [result],
      cover := if s.cover.runner == Some(u) then s.cover.(runner := None) else s.cover);
    assert FetchMax(s, m, u);
    MoveOne(s, m, t, u);
    MovedSound(s, m, t, u);
    e := To(m, u, Idle).(flag := Clean);
    assert MarkClean(m, e, u);
    MoveOne(m, e, t, u);
    hide Sound, Moved;
    MovedTrans(s, m, e, t, u);
  }

  /** A thread alone can turn the flag clean. */
  lemma CleansFlag(s: State, t: nat, u: nat) returns (e: State)
    requires Sound(s) && u != t && u < s.registered && u < |s.pcs|
    ensures Moved(s, e, t, u) && u < |e.pcs| && e.pcs[u] == Idle && e.flag == Clean
  {
    var a := BecomesCalm(s, t, u);
    MovedSound(s, a, t, u);
    CalmIdle(a, u);
    var b := To(a, u, Begun(a.clock));
    assert Begin(a, b, u);
    MoveOne(a, b, t, u);
    MovedSound(a, b, t, u);
    MovedTrans(s, a, b, t, u);
    e := BegunCleans(b, t, u);
    hide Sound, Moved;
    MovedTrans(s, b, e, t, u);
  }

  lemma CalmIdle(s: State, u: nat)
    requires Calm(s, u)
    ensures u < |s.pcs| && s.pcs[u] == Idle
  {
  }

  lemma BegunCleans(s: State, t: nat, u: nat) returns (e: State)
    requires Sound(s) && u != t && u < s.registered && u < |s.pcs| && s.pcs[u].Begun? && s.flag == Dirty
    ensures Moved(s, e, t, u) && u < |e.pcs| && e.pcs[u] == Idle && e.flag == Clean
  {
    var time := s.pcs[u].time;
    var c := To(s, u, TryOwn(time, true));
    assert LoadFlag(s, c, u);
    MoveOne(s, c, t, u);
    MovedSound(s, c, t, u);
    var d := To(c, u, Aggregate(time, true)).(flag := Scanning, cover := Cover(c.notified, time, Some(u)));
    assert Own(c, d, u);
    MoveOne(c, d, t, u);
    MovedSound(c, d, t, u);
    MovedTrans(s, c, d, t, u);
    var f := To(d, u, Scan(time, time, 0, d.registered, true, false));
    assert LoadCount(d, f, u);
    MoveOne(d, f, t, u);
    MovedSound(d, f, t, u);
    MovedTrans(s, d, f, t, u);
    hide Sound, Moved;
    e := OwnScanEnds(f, t, u);
    MovedTrans(s, f, e, t, u);
  }

  /** The thread can make a call that returns the watermark as it is. */
  ghost predicate CanCall(w: World, r: nat) {
    && |w.jobs| == |w.works| == |w.own| == |w.clock.pcs| == |w.clock.slots| == |w.clock.announced| && r < |w.jobs|
    && r < w.clock.registered && w.tree.clock == w.clock.clock
    && w.clock.pcs[r] == Idle && w.clock.flag == Clean && !Open(w.works[r])
  }

  lemma CallReturns(w: World, t: nat, r: nat) returns (e: World)
    requires CanCall(w, r) && r != t && Waits(w.jobs[r])
    ensures OthersCan(w, e, t) && CanCall(e, r)
    ensures var c := w.clock.(results := w.clock.results + [w.clock.globalMin]);
            e == w.(clock := c, jobs := w.jobs[r := AfterCall(w.jobs[r], w.clock, c)])
  {
    var x := At(w, To(w.clock, r, Begun(w.clock.clock)));
    assert Begin(w.clock, x.clock, r);
    assert Calling(w, x, r);
    OthersOne(w, x, t, r);
    var y := At(x, To(x.clock, r, LoadMin));
    assert LoadFlag(x.clock, y.clock, r);
    assert Calling(x, y, r);
    OthersOne(x, y, t, r);
    var c := To(y.clock, r, Idle).(results := y.clock.results + [y.clock.globalMin]);
    e := At(y, c).(jobs := y.jobs[r := AfterCall(y.jobs[r], y.clock, c)]);
    assert ReturnMin(y.clock, c, r);
    assert Calling(y, e, r);
    OthersOne(y, e, t, r);
    OthersTrans(w, x, y, t);
    OthersTrans(w, y, e, t);
    assert c == w.clock.(results := w.clock.results + [w.clock.globalMin]);
  }

  /** A free thread calls: what it waits for is the watermark. */
  lemma CallsOnce(w: World, t: nat, r: nat, j: Job) returns (e: World)
    requires CanCall(w, r) && r != t && Waits(j) && Moves(w, w.(jobs := w.jobs[r := j]), r)
    ensures OthersCan(w, e, t) && CanCall(e, r) && e == w.(clock := e.clock, jobs := e.jobs)
    ensures e.clock == w.clock.(results := w.clock.results + [w.clock.globalMin])
    ensures e.jobs == w.jobs[r := AfterCall(j, w.clock, e.clock)]
  {
    var a := w.(jobs := w.jobs[r := j]);
    OthersOne(w, a, t, r);
    hide Moves, OthersCan;
    e := CallReturns(a, t, r);
    OthersTrans(w, a, e, t);
  }

  /** With a clean flag a reader pins and draws the watermark as it is. */
  lemma ReaderDraws(w: World, t: nat, r: nat) returns (e: World)
    requires CanCall(w, r) && r != t && w.jobs[r] == Free
    ensures OthersCan(w, e, t) && CanCall(e, r) && e == w.(clock := e.clock, jobs := e.jobs)
    ensures e.clock == w.clock.(results := e.clock.results)
    ensures e.jobs == w.jobs[r := Drawn(w.clock.globalMin, w.clock.globalMin)]
  {
    var g := w.clock.globalMin;
    assert Moves(w, w.(jobs := w.jobs[r := Announcing]), r);
    var b := CallsOnce(w, t, r, Announcing);
    assert b.jobs[r] == GotBound(g);
    assert Moves(b, b.(jobs := b.jobs[r := Pinned(g)]), r);
    e := CallsOnce(b, t, r, Pinned(g));
    OthersTrans(w, b, e, t);
    assert e.jobs == w.jobs[r := Drawn(g, g)];
  }

  /** Other threads can go on until a reader has a snapshot at or above `v`. */
  ghost predicate ReaderCanPass(w: World, t: nat, v: nat) {
    exists e: World, u: nat :: OthersCan(w, e, t) && u < |e.jobs| && HasSnapshot(e.jobs[u]) && e.jobs[u].snapshot >= v
  }

  /** A free thread can clean the flag by steps of its own, so that its next call returns the watermark. */
  lemma GetsReady(w: World, t: nat, r: nat) returns (e: World)
    requires Sound(w.clock) && OthersRest(w, t) && r != t && r < |w.jobs| && r < w.clock.registered && w.jobs[r] == Free
    ensures OthersCan(w, e, t) && OthersRest(e, t) && Went(w, e) && e.clock.globalMin >= w.clock.globalMin
    ensures CanCall(e, r) && e.jobs[r] == Free && Sound(e.clock) && e.clock.clock == w.clock.clock
    ensures e.clock.registered >= w.clock.registered
  {
    var d := CleansFlag(w.clock, t, r);
    var k: nat :| Reach(w.clock, d, t, k);
    MovedSound(w.clock, d, t, r);
    MovedReach(w.clock, d, t, r);
    MovedClock(w.clock, d, t, r);
    SoundThreads(d);
    hide Sound, OthersRest, Moved, OthersCan, Went, CanReach;
    e := Lift(w, d, t, k);
    ReadyToCall(w, e, t, r);
  }

  lemma MovedClock(s: State, e: State, t: nat, u: nat)
    requires Moved(s, e, t, u)
    ensures e.clock == s.clock && e.registered == s.registered
  {
  }

  /** The others can go on until the watermark has reached the limit and `r` can call. */
  lemma WatermarkReaches(w: World, t: nat, r: nat, limit: nat) returns (e: World)
    requires Sound(w.clock) && OthersRest(w, t) && r != t && r < |w.jobs| && r < w.clock.registered && w.jobs[r] == Free
    requires CanPass(w.clock, t, limit)
    ensures OthersCan(w, e, t) && OthersRest(e, t) && Went(w, e) && e.clock.globalMin >= limit
    ensures CanCall(e, r) && e.jobs[r] == Free && Sound(e.clock) && e.clock.clock >= w.clock.clock
    ensures e.clock.registered >= w.clock.registered
  {
    var c: State :| CanReach(w.clock, c, t) && Passes(w.clock, c, limit);
    var n: nat :| Reach(w.clock, c, t, n);
    ReachedBelow(w.clock, c, t, n, |w.clock.results|);
    assert c.globalMin >= limit;
    ReachSound(w.clock, c, t, n);
    hide Sound, OthersRest, Moved, OthersCan, Went, CanReach;
    var m := Lift(w, c, t, n);
    StillFree(w, m, r);
    e := GetsReady(m, t, r);
    OthersTrans(w, m, e, t);
    WentTrans(w, m, e);
  }

  lemma StillFree(w: World, m: World, r: nat)
    requires Went(w, m) && r < |w.jobs| && w.jobs[r] == Free
    ensures r < |m.jobs| && m.jobs[r] == Free
  {
    assert WentOn(w.jobs[r], m.jobs[r]);
  }

  lemma ReadyToCall(w: World, e: World, t: nat, r: nat)
    requires OthersRest(e, t) && Went(w, e) && r != t && r < |w.jobs| && r < e.clock.registered && w.jobs[r] == Free
    requires |e.clock.announced| == |e.clock.pcs| && r < |e.clock.pcs| && e.clock.pcs[r] == Idle
    requires e.clock.flag == Clean
    ensures CanCall(e, r) && e.jobs[r] == Free
  {
    assert WentOn(w.jobs[r], e.jobs[r]);
  }

  lemma UnshieldedReaderPasses(w: World, t: nat, r: nat, v: nat)
    requires Sound(w.clock) && OthersRest(w, t) && r != t && r < |w.jobs| && r < w.clock.registered
    requires w.jobs[r] == Free && CanPass(w.clock, t, v)
    ensures ReaderCanPass(w, t, v)
  {
    hide Sound, OthersRest, CanPass, OthersCan, Went;
    var m := WatermarkReaches(w, t, r, v);
    var e := ReaderDraws(m, t, r);
    OthersTrans(w, m, e, t);
    assert HasSnapshot(e.jobs[r]);
  }

  lemma SoundThreads(s: State)
    requires Sound(s)
    ensures |s.announced| == |s.pcs| == |s.slots|
  {
  }

  lemma {:induction false} ReachSound(s: State, e: State, t: nat, n: nat)
    requires Reach(s, e, t, n) && Sound(s)
    ensures Sound(e) && e.registered >= s.registered && |e.pcs| == |s.pcs| && e.clock >= s.clock
    decreases n
  {
    hide Clock.Step, Sound;
    if n > 0 {
      var m: State, u: nat :| u != t && Clock.Step(s, m, u) && Reach(m, e, t, n - 1);
      StepKeepsSound(s, m, u);
      StepThreads(s, m, u);
      ReachSound(m, e, t, n - 1);
    }
  }

  lemma StepThreads(s: State, m: State, u: nat)
    requires Clock.Step(s, m, u)
    ensures m.registered >= s.registered && |m.pcs| == |s.pcs| && m.clock >= s.clock
  {
  }

  /** In no continuation whatever does a reader get a snapshot at or above `v`. */
  ghost predicate ReadersStayBelow(w: World, t: nat, v: nat) {
    forall e: World, u: nat :: AnyCan(w, e, t) && u < |e.jobs| && HasSnapshot(e.jobs[u]) ==> e.jobs[u].snapshot < v
  }

  lemma ShieldKeepsReaders(w: World, t: nat, v: nat)
    requires Sound(w.clock) && |w.jobs| == |w.clock.pcs| && BelowWatermark(w) && Shielded(w.clock, t, v)
    ensures ReadersStayBelow(w, t, v)
  {
    assert StaysBelow(w, t, v);
    hide Sound, Gc.Step, AnyLead, Shielded;
    forall e: World, u: nat | AnyCan(w, e, t) && u < |e.jobs| && HasSnapshot(e.jobs[u]) ensures e.jobs[u].snapshot < v {
      var n: nat :| AnyLead(w, e, t, n);
      hide StaysBelow;
      RunStaysBelow(w, e, t, n, v);
      StaysIs(e, t, v, u);
    }
  }

  lemma StaysIs(w: World, t: nat, v: nat, u: nat)
    requires StaysBelow(w, t, v) && u < |w.jobs| && HasSnapshot(w.jobs[u])
    ensures w.jobs[u].snapshot < v
  {
    hide Sound;
  }

  lemma PlainIsAny(w: World, w': World, u: nat)
    requires Plain(w, w', u)
    ensures Gc.Step(w, w', u)
  {
    hide Gc.Step;
  }

  lemma AnyNext(w: World, m: World, e: World, t: nat, u: nat, n: nat)
    requires u != t && Gc.Step(w, m, u) && AnyLead(m, e, t, n)
    ensures AnyLead(w, e, t, n + 1)
  {
    hide Gc.Step;
  }

  lemma OthersSplit(w: World, e: World, t: nat, n: nat) returns (m: World, u: nat)
    requires OthersLead(w, e, t, n)
    ensures n == 0 ==> AnyLead(w, e, t, 0)
    ensures n > 0 ==> u != t && Plain(w, m, u) && OthersLead(m, e, t, n - 1)
  {
    hide Plain, Gc.Step;
    m, u := w, t;
    if n > 0 {
      m, u :| u != t && Plain(w, m, u) && OthersLead(m, e, t, n - 1);
    }
  }

  lemma {:induction false} OthersAreAny(w: World, e: World, t: nat, n: nat)
    requires OthersLead(w, e, t, n)
    ensures AnyLead(w, e, t, n)
    decreases n
  {
    hide *;
    var m, u := OthersSplit(w, e, t, n);
    if n > 0 {
      PlainIsAny(w, m, u);
      OthersAreAny(m, e, t, n - 1);
      AnyNext(w, m, e, t, u, n - 1);
    }
  }

  /**
   The exact condition for readers: while `t` is committing version `v`, no reader gets a snapshot at or
   above `v`, whatever the other threads do, if and only if the slot of `t` shields it; and if it does
   not, plain steps of the others are enough.
   */
  lemma ShieldedIffReadersStayBelow(w: World, t: nat, r: nat, v: nat)
    requires Sound(w.clock) && OthersRest(w, t) && BelowWatermark(w)
    requires t < w.clock.registered && t < |w.jobs| && w.clock.pcs[t] == Committing(v)
    requires r != t && r < |w.jobs| && r < w.clock.registered && w.jobs[r] == Free
    ensures Shielded(w.clock, t, v) <==> ReadersStayBelow(w, t, v)
    ensures Shielded(w.clock, t, v) <==> !ReaderCanPass(w, t, v)
  {
    if Shielded(w.clock, t, v) {
      ShieldKeepsReaders(w, t, v);
    } else {
      ShieldedIffNeverPassed(w.clock, t, r);
      hide Sound, OthersRest, CanPass, Shielded;
      UnshieldedReaderPasses(w, t, r, v);
    }
    hide Sound, OthersRest, Shielded, CanPass;
    PassesIsAny(w, t, v);
  }

  lemma PassesIsAny(w: World, t: nat, v: nat)
    ensures ReaderCanPass(w, t, v) ==> !ReadersStayBelow(w, t, v)
  {
    hide OthersLead, AnyLead;
    if e: World, u: nat :| OthersCan(w, e, t) && u < |e.jobs| && HasSnapshot(e.jobs[u]) && e.jobs[u].snapshot >= v {
      var n: nat :| OthersLead(w, e, t, n);
      OthersAreAny(w, e, t, n);
      assert AnyCan(w, e, t);
    }
  }
}
