/**
 The shield of a commit in flight is needed: wherever it is missing, the other threads can go on,
 each by steps of its own, until a call returns the version that is still being committed.
 */
module Overtaking {
  import opened Util
  import opened Clock
  import opened InFlight

  /** Thread `u` alone has moved on; nothing that was returned is lost. */
  ghost predicate Moved(s: State, e: State, t: nat, u: nat) {
    && CanReach(s, e, t) && Sound(e) && e.clock == s.clock && e.registered == s.registered
    && |e.pcs| == |s.pcs| && |e.slots| == |s.slots|
    && (forall x: nat :: x < |s.pcs| && x != u && x < |s.slots| ==> e.pcs[x] == s.pcs[x] && e.slots[x] == s.slots[x])
    && s.globalMin <= e.globalMin && |s.results| <= |e.results| && e.results[..|s.results|] == s.results
  }

  lemma MovedTrans(a: State, b: State, c: State, t: nat, u: nat)
    requires Moved(a, b, t, u) && Moved(b, c, t, u)
    ensures Moved(a, c, t, u)
  {
    ReachTrans(a, b, c, t);
    hide Sound, CanReach;
  }

  lemma MoveOne(s: State, e: State, t: nat, u: nat)
    requires Sound(s) && u != t && u < s.registered && (Calls(s, e, u) || Commits(s, e, u)) && e.clock == s.clock
    ensures Moved(s, e, t, u)
  {
    ReachStep(s, e, t, u);
    StepKeepsSound(s, e, u);
    ResultIsWatermark(s, e, u);
    if Calls(s, e, u) { CallKeepsSound(s, e, u); } else { CommitKeepsSound(s, e, u); }
    hide Calls, Commits, Sound, CanReach;
  }

  /** A call of `u` that has returned at least `bound`. */
  ghost predicate Returned(s: State, e: State, t: nat, u: nat, bound: nat) {
    && Moved(s, e, t, u) && e.slots == s.slots && u < |e.pcs| && e.pcs[u] == Idle
    && |s.results| < |e.results| && e.results[|e.results| - 1] >= bound && e.results[|e.results| - 1] >= s.globalMin
  }

  lemma ReturnedTrans(a: State, b: State, c: State, t: nat, u: nat, bound: nat)
    requires Moved(a, b, t, u) && a.slots == b.slots && Returned(b, c, t, u, bound)
    ensures Returned(a, c, t, u, bound)
  {
    MovedTrans(a, b, c, t, u);
    hide Sound, CanReach;
  }

  lemma CleanUpEnds(s: State, t: nat, u: nat) returns (e: State)
    requires Sound(s) && u != t && u < s.registered && s.pcs[u].CleanUp?
    ensures Moved(s, e, t, u) && e.slots == s.slots && e.pcs[u] == Idle && e.results == s.results
  {
    e := To(s, u, Idle).(flag := if s.flag == Scanning then Clean else s.flag);
    assert MarkClean(s, e, u);
    MoveOne(s, e, t, u);
  }

  lemma FetchEnds(s: State, t: nat, u: nat, bound: nat) returns (e: State)
    requires Sound(s) && u != t && u < s.registered && s.pcs[u].Scan? && s.pcs[u].acc >= bound
    requires s.pcs[u].next >= s.pcs[u].limit
    ensures Returned(s, e, t, u, bound)
  {
    var result := Max(s.pcs[u].acc, s.globalMin);
    var m := To(s, u, if s.pcs[u].owns then CleanUp(result) else Idle).(
      globalMin := result, results := s.results + [result],
      cover := if s.cover.runner == Some(u) then s.cover.(runner := None) else s.cover);
    assert FetchMax(s, m, u);
    MoveOne(s, m, t, u);
    if s.pcs[u].owns {
      e := CleanUpEnds(m, t, u);
      MovedTrans(s, m, e, t, u);
    } else {
      e := m;
    }
    hide Sound, CanReach;
  }

  /** A scan that has not met anything below `bound`, and will not, returns at least `bound`. */
  lemma {:induction false} ScanEnds(s: State, t: nat, u: nat, bound: nat) returns (e: State)
    requires Sound(s) && u != t && u < s.registered && s.pcs[u].Scan? && s.pcs[u].acc >= bound
    requires forall j: nat :: s.pcs[u].next <= j < s.pcs[u].limit && j < |s.slots| ==> s.slots[j] >= bound
    ensures Returned(s, e, t, u, bound)
    decreases if s.pcs[u].next < s.pcs[u].limit then s.pcs[u].limit - s.pcs[u].next else 0
  {
    assert PcSound(s, u);
    if s.pcs[u].next < s.pcs[u].limit {
      var slot := s.slots[s.pcs[u].next];
      var m := To(s, u, s.pcs[u].(acc := Min(s.pcs[u].acc, slot), next := s.pcs[u].next + 1, met := s.pcs[u].met
                                  || slot != INACTIVE));
      assert ReadSlot(s, m, u);
      MoveOne(s, m, t, u);
      hide Sound, Moved, Returned;
      MovedSound(s, m, t, u);
      e := ScanEnds(m, t, u, bound);
      ReturnedTrans(s, m, e, t, u, bound);
    } else {
      e := FetchEnds(s, t, u, bound);
    }
  }

  lemma MovedSound(s: State, e: State, t: nat, u: nat)
    requires Moved(s, e, t, u)
    ensures Sound(e) && e.registered == s.registered && |e.pcs| == |s.pcs| && |e.slots| == |s.slots|
  {
  }

  /** From the flag on, a call that scans returns at least `bound` if its reading and all slots lie there. */
  lemma CountEnds(s: State, t: nat, u: nat, bound: nat) returns (e: State)
    requires Sound(s) && u != t && u < s.registered && s.pcs[u].Aggregate? && s.pcs[u].time >= bound
    requires forall j: nat :: j < |s.slots| ==> s.slots[j] >= bound
    ensures Returned(s, e, t, u, bound)
  {
    var m := To(s, u, Scan(s.pcs[u].time, s.pcs[u].time, 0, s.registered, s.pcs[u].owns, false));
    assert LoadCount(s, m, u);
    MoveOne(s, m, t, u);
    MovedSound(s, m, t, u);
    e := ScanEnds(m, t, u, bound);
    hide Sound, Moved, Returned;
    ReturnedTrans(s, m, e, t, u, bound);
  }

  lemma OwnEnds(s: State, t: nat, u: nat, bound: nat) returns (e: State)
    requires Sound(s) && u != t && u < s.registered && s.pcs[u].TryOwn? && s.pcs[u].time >= bound
    requires forall j: nat :: j < |s.slots| ==> s.slots[j] >= bound
    ensures Returned(s, e, t, u, bound)
  {
    var owns := s.pcs[u].sawDirty && s.flag == Dirty;
    var seen := To(s, u, Aggregate(s.pcs[u].time, owns));
    var m := if owns then seen.(flag := Scanning, cover := Cover(s.notified, s.pcs[u].time, Some(u))) else seen;
    assert Own(s, m, u);
    MoveOne(s, m, t, u);
    MovedSound(s, m, t, u);
    e := CountEnds(m, t, u, bound);
    hide Sound, Moved, Returned;
    ReturnedTrans(s, m, e, t, u, bound);
  }

  lemma LoadMinEnds(s: State, t: nat, u: nat) returns (e: State)
    requires Sound(s) && u != t && u < s.registered && s.pcs[u] == LoadMin
    ensures Returned(s, e, t, u, s.globalMin)
  {
    e := To(s, u, Idle).(results := s.results + [s.globalMin]);
    assert ReturnMin(s, e, u);
    MoveOne(s, e, t, u);
  }

  /** A call that has begun returns the watermark or more, and `bound` or more if it scans slots that lie there. */
  lemma BegunEnds(s: State, t: nat, u: nat, bound: nat) returns (e: State)
    requires Sound(s) && u != t && u < s.registered && s.pcs[u].Begun? && s.pcs[u].time >= bound
    requires forall j: nat :: j < |s.slots| ==> s.slots[j] >= bound
    ensures Returned(s, e, t, u, if s.flag == Clean then s.globalMin else bound)
  {
    var m := To(s, u, if s.flag == Clean then LoadMin else TryOwn(s.pcs[u].time, s.flag == Dirty));
    assert LoadFlag(s, m, u);
    MoveOne(s, m, t, u);
    MovedSound(s, m, t, u);
    if s.flag == Clean {
      e := LoadMinEnds(m, t, u);
      hide Sound, Moved, Returned;
      ReturnedTrans(s, m, e, t, u, s.globalMin);
    } else {
      e := OwnEnds(m, t, u, bound);
      hide Sound, Moved, Returned;
      ReturnedTrans(s, m, e, t, u, bound);
    }
  }

  // ---------------------------------------------------------------- calming a thread

  /** `u` has nothing left to do, and its slot holds nobody back. */
  ghost predicate Calm(s: State, u: nat) {
    u < |s.pcs| && u < |s.slots| && s.pcs[u] == Idle && s.slots[u] == INACTIVE
  }

  lemma AnnounceEnds(s: State, t: nat, u: nat) returns (e: State)
    requires Sound(s) && u != t && u < s.registered && s.pcs[u] == Notify
    ensures Moved(s, e, t, u) && e.pcs[u] == Idle && e.slots == s.slots && e.flag == Dirty
  {
    e := To(s, u, Idle).(flag := Dirty, notified := s.notified + 1, announced := s.announced[u := s.slots[u]]);
    assert StoreDirty(s, e, u);
    MoveOne(s, e, t, u);
  }

  lemma CommitEnds(s: State, t: nat, u: nat) returns (e: State)
    requires Sound(s) && u != t && u < s.registered && s.pcs[u].Committing?
    ensures Moved(s, e, t, u) && e.pcs[u] == Idle
  {
    var m := To(s, u, Notify).(slots := s.slots[u := s.pcs[u].version]);
    assert EndCommit(s, m, u);
    MoveOne(s, m, t, u);
    MovedSound(s, m, t, u);
    e := AnnounceEnds(m, t, u);
    hide Sound, Moved;
    MovedTrans(s, m, e, t, u);
  }

  /** Every thread can finish what it is doing without the others. */
  lemma BecomesIdle(s: State, t: nat, u: nat) returns (e: State)
    requires Sound(s) && u != t && u < s.registered && u < |s.pcs|
    ensures Moved(s, e, t, u) && u < |e.pcs| && e.pcs[u] == Idle
  {
    match s.pcs[u] {
      case Idle =>
        e := s;
        ReachSelf(s, t);
      case Begun(time) => e := BegunEnds(s, t, u, 0);
      case LoadMin => e := LoadMinEnds(s, t, u);
      case TryOwn(time, sawDirty) => e := OwnEnds(s, t, u, 0);
      case Aggregate(time, owns) => e := CountEnds(s, t, u, 0);
      case Scan(time, acc, next, limit, owns, met) => e := ScanEnds(s, t, u, 0);
      case CleanUp(result) => e := CleanUpEnds(s, t, u);
      case Committing(v) => e := CommitEnds(s, t, u);
      case Notify => e := AnnounceEnds(s, t, u);
    }
  }

  lemma BecomesCalm(s: State, t: nat, u: nat) returns (e: State)
    requires Sound(s) && u != t && u < s.registered && u < |s.pcs|
    ensures Moved(s, e, t, u) && Calm(e, u) && e.flag == Dirty
  {
    var m := BecomesIdle(s, t, u);
    MovedSound(s, m, t, u);
    var d := To(m, u, Notify).(slots := m.slots[u := INACTIVE]);
    assert SetInactive(m, d, u);
    MoveOne(m, d, t, u);
    MovedSound(m, d, t, u);
    e := AnnounceEnds(d, t, u);
    hide Sound, Moved;
    MovedTrans(s, m, d, t, u);
    MovedTrans(s, d, e, t, u);
  }

  // ---------------------------------------------------------------- calming all of them

  /** Every thread below `n`, apart from `t` and `x`, is calm, and those two are where they were. */
  ghost predicate CalmBelow(s: State, e: State, t: nat, x: nat, n: nat) {
    && CanReach(s, e, t) && Sound(e) && e.clock == s.clock && e.registered == s.registered
    && |e.pcs| == |s.pcs| && |e.slots| == |s.slots|
    && s.globalMin <= e.globalMin && |s.results| <= |e.results| && e.results[..|s.results|] == s.results
    && (forall u: nat :: u < n && u != t && u != x ==> Calm(e, u))
    && (forall u: nat :: u < |s.pcs| && u < |s.slots| && (u == t || u == x || u >= n) ==>
        e.pcs[u] == s.pcs[u] && e.slots[u] == s.slots[u])
  }

  lemma CalmMore(s: State, m: State, e: State, t: nat, x: nat, n: nat)
    requires CalmBelow(s, m, t, x, n) && Moved(m, e, t, n) && Calm(e, n) && n != t && n != x
    ensures CalmBelow(s, e, t, x, n + 1)
  {
    ReachTrans(s, m, e, t);
    hide Sound, CanReach;
    forall u: nat | u < n && u != t && u != x ensures Calm(e, u) {
      assert Calm(m, u);
    }
  }

  lemma {:induction false} AllCalm(s: State, t: nat, x: nat, n: nat) returns (e: State)
    requires Sound(s) && n <= s.registered
    ensures CalmBelow(s, e, t, x, n)
  {
    if n == 0 {
      e := s;
      ReachSelf(s, t);
    } else {
      var m := AllCalm(s, t, x, n - 1);
      if n - 1 == t || n - 1 == x {
        e := m;
      } else {
        e := BecomesCalm(m, t, n - 1);
        CalmMore(s, m, e, t, x, n - 1);
      }
    }
  }

  // ---------------------------------------------------------------- overtaking

  /** Other threads can make a call return `limit` or more. */
  ghost predicate CanPass(s: State, t: nat, limit: nat) { exists e: State :: CanReach(s, e, t) && Passes(s, e, limit) }

  ghost predicate Passes(s: State, e: State, limit: nat) {
    exists i :: |s.results| <= i < |e.results| && e.results[i] >= limit
  }

  lemma PassesThrough(s: State, m: State, e: State, t: nat, u: nat, limit: nat)
    requires CanReach(s, m, t) && |s.results| <= |m.results| && Returned(m, e, t, u, limit)
    ensures CanPass(s, t, limit)
  {
    ReachTrans(s, m, e, t);
    assert e.results[|e.results| - 1] >= limit;
    assert Passes(s, e, limit);
  }

  /** The watermark has passed the limit: the next call returns it. */
  lemma WatermarkPasses(s: State, t: nat, r: nat, limit: nat)
    requires Sound(s) && r != t && r < s.registered && r < |s.pcs| && s.globalMin >= limit
    ensures CanPass(s, t, limit)
  {
    hide *;
    var m := BecomesIdle(s, t, r);
    MovedSound(s, m, t, r);
    MovedReach(s, m, t, r);
    var b := Begins(m, t, r);
    MovedTrans(s, m, b, t, r);
    MovedSound(m, b, t, r);
    MovedReach(s, b, t, r);
    MovedReach(m, b, t, r);
    var e := BegunEnds(b, t, r, 0);
    ReturnedMin(b, e, t, r, if b.flag == Clean then b.globalMin else 0, limit);
    PassesThrough(s, b, e, t, r, limit);
  }

  lemma Begins(s: State, t: nat, r: nat) returns (b: State)
    requires Sound(s) && r != t && r < s.registered && r < |s.pcs| && s.pcs[r] == Idle
    ensures Moved(s, b, t, r) && b == To(s, r, Begun(s.clock)) && r < |b.pcs| && b.pcs[r] == Begun(s.clock)
  {
    b := To(s, r, Begun(s.clock));
    assert Begin(s, b, r);
    MoveOne(s, b, t, r);
    hide Moved;
  }

  lemma ReturnedMin(s: State, e: State, t: nat, u: nat, bound: nat, limit: nat)
    requires Returned(s, e, t, u, bound) && limit <= s.globalMin
    ensures Returned(s, e, t, u, limit)
  {
    hide Moved;
  }

  lemma MovedReach(s: State, e: State, t: nat, u: nat)
    requires Moved(s, e, t, u)
    ensures CanReach(s, e, t) && |s.results| <= |e.results| && s.globalMin <= e.globalMin
  {
  }

  /** No slot holds the readers back: a call that begins now returns its clock reading. */
  lemma InactivePasses(s: State, t: nat, r: nat, limit: nat)
    requires Sound(s) && r != t && r < s.registered && t < |s.slots| && s.slots[t] == INACTIVE && limit <= s.clock
    ensures CanPass(s, t, limit)
  {
    var c := AllCalm(s, t, t, s.registered);
    var d := BecomesCalm(c, t, r);
    MovedSound(c, d, t, r);
    AllInactive(s, c, d, t, r);
    var b := To(d, r, Begun(d.clock));
    assert Begin(d, b, r);
    MoveOne(d, b, t, r);
    MovedSound(d, b, t, r);
    var e := BegunEnds(b, t, r, limit);
    hide Sound;
    MovedTrans(c, d, b, t, r);
    ReachTrans(s, c, b, t);
    PassesThrough(s, b, e, t, r, limit);
  }

  lemma AllInactive(s: State, c: State, d: State, t: nat, r: nat)
    requires Sound(s) && CalmBelow(s, c, t, t, s.registered) && Moved(c, d, t, r) && Calm(d, r)
    requires t < |s.slots| && s.slots[t] == INACTIVE
    ensures forall j: nat :: j < |d.slots| ==> d.slots[j] == INACTIVE
    ensures d.clock == s.clock
  {
    hide CanReach;
    forall j: nat | j < |d.slots| ensures d.slots[j] == INACTIVE {
      if j != r && j != t && j < s.registered { assert Calm(c, j); }
    }
  }

  /** A running scan that meets nothing below the limit any more. */
  lemma ScanPasses(s: State, t: nat, u: nat, limit: nat)
    requires Sound(s) && u != t && u < |s.pcs| && limit <= INACTIVE && !Bounded(s, u, t, limit)
    ensures CanPass(s, t, limit)
  {
    assert PcSound(s, u);
    var c := AllCalm(s, t, u, s.registered);
    forall j: nat | c.pcs[u].next <= j < c.pcs[u].limit && j < |c.slots| ensures c.slots[j] >= limit {
      if j != u && j != t { assert Calm(c, j); }
    }
    var e := ScanEnds(c, t, u, limit);
    hide Sound;
    PassesThrough(s, c, e, t, u, limit);
  }

  /** Without its shield a limit from the version in flight up to the clock can be passed. */
  lemma UnshieldedPasses(s: State, t: nat, r: nat, limit: nat)
    requires Sound(s) && t < s.registered && t < |s.pcs| && s.pcs[t].Committing? && r != t && r < s.registered
    requires s.pcs[t].version <= limit <= s.clock && !Shielded(s, t, limit)
    ensures CanPass(s, t, limit)
  {
    assert PcSound(s, t);
    if s.globalMin >= limit {
      WatermarkPasses(s, t, r, limit);
    } else if !Active(s, t) {
      InactivePasses(s, t, r, limit);
    } else {
      var u: nat :| u < |s.pcs| && !Bounded(s, u, t, limit);
      ScanPasses(s, t, u, limit);
    }
  }

  /** A committing thread is shielded exactly if the others can return nothing that reaches its version. */
  lemma ShieldedIffNeverPassed(s: State, t: nat, r: nat)
    requires Sound(s) && t < s.registered && t < |s.pcs| && s.pcs[t].Committing? && r != t && r < s.registered
    ensures Shielded(s, t, s.pcs[t].version) <==> !CanPass(s, t, s.pcs[t].version)
  {
    assert PcSound(s, t);
    if Shielded(s, t, s.pcs[t].version) {
      ShieldHolds(s, t, s.pcs[t].version);
    } else {
      UnshieldedPasses(s, t, r, s.pcs[t].version);
    }
  }

  /** With nobody left out every limit up to the clock can be passed. */
  lemma AllTogetherPass(s: State, r: nat, limit: nat)
    requires Sound(s) && r < s.registered && limit <= s.clock
    ensures CanPass(s, |s.slots|, limit)
  {
    var none := |s.slots|;
    var c := AllCalm(s, none, none, s.registered);
    var d := BecomesCalm(c, none, r);
    MovedSound(c, d, none, r);
    NoneActive(s, c, d, none, r);
    var b := Begins(d, none, r);
    MovedSound(d, b, none, r);
    var e := BegunEnds(b, none, r, limit);
    hide Sound, CalmBelow;
    MovedTrans(c, d, b, none, r);
    MovedReach(c, b, none, r);
    ReachTrans(s, c, b, none);
    PassesThrough(s, b, e, none, r, limit);
  }

  lemma NoneActive(s: State, c: State, d: State, none: nat, r: nat)
    requires Sound(s) && CalmBelow(s, c, none, none, s.registered) && Moved(c, d, none, r) && Calm(d, r)
    requires none == |s.slots|
    ensures forall j: nat :: j < |d.slots| ==> d.slots[j] == INACTIVE
    ensures d.clock == s.clock && |s.results| <= |d.results| && CanReach(s, c, none)
    ensures r < |d.pcs| && d.pcs[r] == Idle && d.registered == s.registered
  {
    hide CanReach;
    forall j: nat | j < |d.slots| ensures d.slots[j] == INACTIVE {
      if j != r && j < s.registered { assert Calm(c, j); }
    }
  }

  lemma ShieldHolds(s: State, t: nat, limit: nat)
    requires Sound(s) && Shielded(s, t, limit)
    ensures !CanPass(s, t, limit)
  {
    forall e: State | CanReach(s, e, t) ensures !Passes(s, e, limit) {
      var n: nat :| Reach(s, e, t, n);
      ReachKeepsShield(s, e, t, n, limit);
    }
  }

  /** In particular: a commit that starts with an inactive slot can be overtaken by any other thread. */
  lemma InactiveSlotIsOvertaken(s: State, s': State, t: nat, r: nat)
    requires Sound(s) && t < s.registered && StartCommit(s, s', t) && !Active(s, t) && r != t && r < s.registered
    ensures CanPass(s', t, s'.pcs[t].version)
  {
    CommitKeepsSound(s, s', t);
    ShieldedIffNeverPassed(s', t, r);
  }
}
