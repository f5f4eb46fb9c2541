/**
 When a commit in flight stays invisible. The condition speaks of the committing thread alone: what
 its slot holds, what has been returned, and which running scans still have to read its slot. It is
 exact: without it, the other threads can go on to return the version that is still being committed.
 */
module InFlight {
  import opened Util
  import opened Clock

  /** The running scan of `u` returns less than `limit`: it has met less, or will. */
  ghost predicate Bounded(s: State, u: nat, t: nat, limit: nat)
    requires u < |s.pcs|
  {
    s.pcs[u].Scan? ==>
      || s.pcs[u].acc < limit
      || s.pcs[u].next <= t < s.pcs[u].limit
      || (s.pcs[u].next <= u < s.pcs[u].limit && Active(s, u) && s.slots[u] < limit)
  }

  /** The slot of `t` keeps everything below `limit`: what has been returned and what is being returned. */
  ghost predicate Shielded(s: State, t: nat, limit: nat) {
    && t < s.registered && Active(s, t) && s.slots[t] < limit && s.globalMin < limit
    && forall u: nat :: u < |s.pcs| ==> Bounded(s, u, t, limit)
  }

  ghost predicate AllBelow(results: seq<nat>, start: nat,
                           limit: nat) { forall i :: start <= i < |results| ==> results[i] < limit }

  lemma CallKeepsShield(s: State, s': State, t: nat, u: nat, limit: nat)
    requires Sound(s) && Shielded(s, t, limit) && u < s.registered && Calls(s, s', u)
    ensures Shielded(s', t, limit)
  {
    assert Bounded(s, u, t, limit) && PcSound(s, u);
    forall x: nat | x < |s'.pcs| ensures Bounded(s', x, t, limit) {
      assert Bounded(s, x, t, limit);
    }
  }

  lemma CommitKeepsShield(s: State, s': State, t: nat, u: nat, limit: nat)
    requires Sound(s) && Shielded(s, t, limit) && u < s.registered && Commits(s, s', u) && u != t
    ensures Shielded(s', t, limit)
  {
    forall x: nat | x < |s'.pcs| ensures Bounded(s', x, t, limit) {
      assert Bounded(s, x, t, limit);
    }
  }

  /** Whatever the other threads do, the shield holds and they return less than its limit. */
  lemma OthersKeepShield(s: State, s': State, t: nat, u: nat, limit: nat)
    requires Sound(s) && Shielded(s, t, limit) && Step(s, s', u) && u != t
    ensures Shielded(s', t, limit) && AllBelow(s'.results, |s.results|, limit)
  {
    if Register(s, s', u) {
      forall x: nat | x < |s'.pcs| ensures Bounded(s', x, t, limit) {
        assert Bounded(s, x, t, limit);
      }
    } else if Calls(s, s', u) {
      CallKeepsShield(s, s', t, u, limit);
    } else {
      CommitKeepsShield(s, s', t, u, limit);
    }
    hide Register, Calls, Commits;
    ResultIsWatermark(s, s', u);
  }

  // ---------------------------------------------------------------- a slot that stays active

  /** Nothing returned, and nothing being returned, lies above the slot of `t`. */
  ghost predicate Watched(s: State, t: nat) { t < |s.slots| && Shielded(s, t, s.slots[t] + 1) }

  lemma HigherShield(s: State, t: nat, low: nat, high: nat)
    requires Shielded(s, t, low) && low <= high
    ensures Shielded(s, t, high)
  {
    forall u: nat | u < |s.pcs| ensures Bounded(s, u, t, high) {
      assert Bounded(s, u, t, low);
    }
  }

  lemma OwnCommitKeepsWatch(s: State, s': State, t: nat)
    requires Sound(s) && Watched(s, t) && Commits(s, s', t) && !SetInactive(s, s', t)
    ensures Watched(s', t)
  {
    assert PcSound(s, t);
    var limit := s'.slots[t] + 1;
    HigherShield(s, t, s.slots[t] + 1, limit);
    forall u: nat | u < |s'.pcs| ensures Bounded(s', u, t, limit) {
      assert Bounded(s, u, t, limit);
    }
  }

  /** The watch over a slot holds until its thread makes it inactive; the other threads are free. */
  lemma StepKeepsWatch(s: State, s': State, t: nat, u: nat)
    requires Sound(s) && Watched(s, t) && Step(s, s', u) && !(u == t && SetInactive(s, s', t))
    ensures Watched(s', t)
  {
    hide Sound, Shielded;
    if u != t {
      OthersKeepShield(s, s', t, u, s.slots[t] + 1);
      SlotStays(s, s', t, u);
    } else if Calls(s, s', t) {
      CallKeepsShield(s, s', t, t, s.slots[t] + 1);
      CallKeepsSound(s, s', t);
    } else {
      RegisteredTwice(s, s', t);
      hide Watched;
      OwnCommitKeepsWatch(s, s', t);
    }
  }

  lemma SlotStays(s: State, s': State, t: nat, u: nat)
    requires Step(s, s', u) && u != t && t < |s.slots|
    ensures |s'.slots| == |s.slots| && s'.slots[t] == s.slots[t]
  {
  }

  /** A watched thread has been registered. */
  lemma RegisteredTwice(s: State, s': State, t: nat)
    requires t < |s.slots| && Shielded(s, t, s.slots[t] + 1) && Step(s, s', t)
    ensures Calls(s, s', t) || Commits(s, s', t)
  {
    hide Calls, Commits;
  }

  /** The watch begins when a commit ends above everything returned while no running scan has missed the slot. */
  lemma WatchBegins(s: State, s': State, t: nat)
    requires Sound(s) && EndCommit(s, s', t) && t < s.registered && s.globalMin <= s.pcs[t].version
    requires forall u: nat :: u < |s.pcs| && s.pcs[u].Scan? ==>
               s.pcs[u].acc <= s.pcs[t].version || s.pcs[u].next <= t < s.pcs[u].limit
    ensures Watched(s', t)
  {
    assert PcSound(s, t);
  }

  /** In the run, thread `t` never makes its slot inactive. */
  ghost predicate StaysActive(run: seq<State>, threads: seq<nat>, t: nat) {
    |run| == |threads| + 1
    && forall i :: 0 <= i < |threads| && threads[i] == t ==> !SetInactive(run[i], run[i + 1], t)
  }

  lemma StaysActiveInit(run: seq<State>, threads: seq<nat>, t: nat)
    requires StaysActive(run, threads, t) && |threads| > 0
    ensures StaysActive(run[..|threads|], threads[..|threads| - 1], t)
    ensures threads[|threads| - 1] == t ==> !SetInactive(run[|threads| - 1], run[|threads|], t)
  {
    hide SetInactive;
    var n := |threads|;
    forall i | 0 <= i < n - 1 && threads[..n - 1][i] == t ensures !SetInactive(run[..n][i], run[..n][i + 1], t) {
      assert threads[i] == t;
    }
    assert n - 1 + 1 == n;
  }

  lemma {:induction false} RunKeepsWatch(run: seq<State>, threads: seq<nat>, t: nat)
    requires Run(run, threads) && StaysActive(run, threads, t) && Sound(run[0]) && Watched(run[0], t)
    ensures Sound(run[|run| - 1]) && Watched(run[|run| - 1], t)
  {
    RunShape(run, threads);
    hide Step, Sound, Watched, Run, StaysActive, SetInactive;
    var n := |threads|;
    if n > 0 {
      RunInit(run, threads);
      StaysActiveInit(run, threads, t);
      RunKeepsWatch(run[..n], threads[..n - 1], t);
      StepKeepsSound(run[n - 1], run[n], threads[n - 1]);
      StepKeepsWatch(run[n - 1], run[n], t, threads[n - 1]);
    }
  }

  /**
   Whatever has been returned lies below the version a watched thread is committing. All other
   threads may commit with inactive slots, reclaim and scan as they like.
   */
  lemma InFlightIsInvisible(run: seq<State>, threads: seq<nat>, t: nat, i: nat)
    requires Run(run, threads) && StaysActive(run, threads, t)
    requires Sound(run[0]) && Ordered(run[0]) && Watched(run[0], t)
    requires var s := run[|run| - 1]; t < |s.pcs| && s.pcs[t].Committing? && i < |s.results|
    ensures var s := run[|run| - 1]; s.results[i] < s.pcs[t].version
  {
    var s := run[|run| - 1];
    RunKeepsWatch(run, threads, t);
    ResultsNeverDecrease(run, threads);
    assert PcSound(s, t);
    hide Run, StaysActive;
  }

  // ---------------------------------------------------------------- what the other threads can reach

  /** `n` steps of threads other than `t`. */
  ghost predicate Reach(s: State, s': State, t: nat, n: nat)
    decreases n
  {
    if n == 0 then s' == s else exists m: State, u: nat :: u != t && Step(s, m, u) && Reach(m, s', t, n - 1)
  }

  ghost predicate CanReach(s: State, s': State, t: nat) { exists n: nat :: Reach(s, s', t, n) }

  lemma ReachSelf(s: State, t: nat)
    ensures CanReach(s, s, t)
  {
    assert Reach(s, s, t, 0);
  }

  lemma ReachStep(s: State, s': State, t: nat, u: nat)
    requires u != t && Step(s, s', u)
    ensures CanReach(s, s', t)
  {
    hide Step;
    assert Reach(s', s', t, 0);
    assert Reach(s, s', t, 1);
  }

  lemma {:induction false} ReachJoin(a: State, b: State, c: State, t: nat, n: nat, m: nat)
    requires Reach(a, b, t, n) && Reach(b, c, t, m)
    ensures Reach(a, c, t, n + m)
    decreases n
  {
    hide Step;
    if n > 0 {
      var x: State, u: nat :| u != t && Step(a, x, u) && Reach(x, b, t, n - 1);
      ReachJoin(x, b, c, t, n - 1, m);
      assert Reach(a, c, t, n + m);
    }
  }

  lemma ReachTrans(a: State, b: State, c: State, t: nat)
    requires CanReach(a, b, t) && CanReach(b, c, t)
    ensures CanReach(a, c, t)
  {
    var n: nat :| Reach(a, b, t, n);
    var m: nat :| Reach(b, c, t, m);
    ReachJoin(a, b, c, t, n, m);
  }

  lemma {:induction false} ReachKeepsShield(s: State, s': State, t: nat, n: nat, limit: nat)
    requires Reach(s, s', t, n) && Sound(s) && Shielded(s, t, limit)
    ensures Shielded(s', t, limit) && |s.results| <= |s'.results| && AllBelow(s'.results, |s.results|, limit)
    decreases n
  {
    hide Step, Sound, Shielded;
    if n > 0 {
      var m: State, u: nat :| u != t && Step(s, m, u) && Reach(m, s', t, n - 1);
      StepKeepsSound(s, m, u);
      OthersKeepShield(s, m, t, u, limit);
      ReachKeepsShield(m, s', t, n - 1, limit);
      ReachResults(s, m, s', t, u, n - 1);
    }
  }

  lemma ReachResults(s: State, m: State, s': State, t: nat, u: nat, n: nat)
    requires Step(s, m, u) && Reach(m, s', t, n)
    ensures |m.results| >= |s.results| && |s'.results| >= |m.results| && s'.results[..|m.results|] == m.results
  {
    ResultIsWatermark(s, m, u);
    hide Step;
    ResultsExtend(m, s', t, n);
  }

  lemma {:induction false} ResultsExtend(s: State, s': State, t: nat, n: nat)
    requires Reach(s, s', t, n)
    ensures |s'.results| >= |s.results| && s'.results[..|s.results|] == s.results && s'.globalMin >= s.globalMin
    decreases n
  {
    hide Step;
    if n > 0 {
      var m: State, u: nat :| u != t && Step(s, m, u) && Reach(m, s', t, n - 1);
      ResultIsWatermark(s, m, u);
      ResultsExtend(m, s', t, n - 1);
    }
  }
}
