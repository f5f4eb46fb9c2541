/**
 What the three-state flag is worth. While it is not dirty, every announced slot store came before
 the scan that last moved it away from dirty, and what that scan leaves in the watermark is the
 smaller of its own clock reading and the slots. The watermark may stay behind the slots for good
 when the reading was old, until something else is announced.
 */
module Notices {
  import opened Util
  import opened Clock

  function Least(slots: seq<nat>): (r: nat)
    ensures forall i :: 0 <= i < |slots| ==> r <= slots[i]
    ensures r == INACTIVE || exists i :: 0 <= i < |slots| && slots[i] == r
  {
    if |slots| == 0 then INACTIVE
    else if slots[|slots| - 1] <= Least(slots[..|slots| - 1]) then slots[|slots| - 1]
    else
      assert forall i :: 0 <= i < |slots| - 1 ==> slots[..|slots| - 1][i] == slots[i];
      Least(slots[..|slots| - 1])
  }

  /** The least slot, with stores that are not announced yet counted as before and as after. */
  function Floor(s: State): nat { Min(Least(s.slots), Least(s.announced)) }

  /** The thread is in the slots of its scan, or about to be. */
  predicate Aggregating(pc: Pc) { pc.Aggregate? || pc.Scan? }

  ghost predicate Covered(s: State) {
    s.flag != Dirty ==>
      && s.cover.start == s.notified
      && match s.cover.runner
         case Some(t) =>
           && t < |s.pcs| && Aggregating(s.pcs[t]) && s.pcs[t].owns && s.pcs[t].time == s.cover.time
           && (s.pcs[t].Scan? ==> Min(s.cover.time, Floor(s)) <= s.pcs[t].acc)
         case None => Min(s.cover.time, Floor(s)) <= s.globalMin
  }

  lemma FloorDrops(s: State, s': State, t: nat)
    requires Sound(s) && t < |s.slots| && s.announced[t] == s.slots[t]
    requires |s'.slots| == |s.slots| && s'.announced == s.announced
    requires forall u :: 0 <= u < |s.slots| && u != t ==> s'.slots[u] == s.slots[u]
    ensures Floor(s') <= Floor(s)
  {
    if Least(s.slots) != INACTIVE {
      var i :| 0 <= i < |s.slots| && s.slots[i] == Least(s.slots);
      assert i != t ==> s'.slots[i] == s.slots[i];
      assert Least(s'.announced) <= s.announced[i];
    }
  }

  /** A thread that reads its next slot stays at or above the smaller of the reading and the slots. */
  lemma ReadKeepsCovered(s: State, s': State, t: nat)
    requires Covered(s) && t < |s.pcs| && ReadSlot(s, s', t) && Floor(s') == Floor(s) <= s.slots[s.pcs[t].next]
    ensures Covered(s')
  {
    hide Floor;
  }

  lemma FetchKeepsCovered(s: State, s': State, t: nat)
    requires Covered(s) && t < |s.pcs| && FetchMax(s, s', t) && Floor(s') == Floor(s)
    ensures Covered(s')
  {
    hide Floor;
  }

  lemma ScanKeepsCovered(s: State, s': State, t: nat)
    requires Covered(s) && t < |s.pcs| && PcSound(s, t) && (Own(s, s', t) || LoadCount(s, s', t))
    requires Floor(s') == Floor(s)
    ensures Covered(s')
  {
    hide Floor;
  }

  lemma OtherKeepsCovered(s: State, s': State, t: nat)
    requires Covered(s) && t < |s.pcs| && Floor(s') == Floor(s)
    requires Begin(s, s', t) || LoadFlag(s, s', t) || ReturnMin(s, s', t) || MarkClean(s, s', t)
    ensures Covered(s')
  {
    hide Floor;
  }

  lemma SameFloor(s: State, s': State, t: nat)
    requires Sound(s) && t < s.registered && Calls(s, s', t)
    ensures t < |s.pcs| && PcSound(s, t) && Floor(s') == Floor(s)
    ensures ReadSlot(s, s', t) ==> Floor(s) <= s.slots[s.pcs[t].next]
  {
    if ReadSlot(s, s', t) { assert Floor(s) <= s.slots[s.pcs[t].next]; }
  }

  lemma CallKeepsCovered(s: State, s': State, t: nat)
    requires Sound(s) && Covered(s) && t < s.registered && Calls(s, s', t)
    ensures Covered(s')
  {
    SameFloor(s, s', t);
    hide Covered, Sound, PcSound, Floor, ReadSlot, FetchMax, Own, LoadCount, Begin, LoadFlag, ReturnMin, MarkClean;
    if ReadSlot(s, s', t) {
      ReadKeepsCovered(s, s', t);
    } else if FetchMax(s, s', t) {
      FetchKeepsCovered(s, s', t);
    } else if Own(s, s', t) || LoadCount(s, s', t) {
      ScanKeepsCovered(s, s', t);
    } else {
      OtherKeepsCovered(s, s', t);
    }
  }

  lemma CommitKeepsCovered(s: State, s': State, t: nat)
    requires Sound(s) && Covered(s) && t < s.registered && Commits(s, s', t)
    ensures Covered(s')
  {
    if s.pcs[t] != Notify {
      FloorDrops(s, s', t);
    }
    hide Floor, Sound;
  }

  lemma StepKeepsCovered(s: State, s': State, t: nat)
    requires Sound(s) && Covered(s) && Step(s, s', t)
    ensures Covered(s')
  {
    hide Calls, Commits, Sound;
    if Register(s, s', t) {
      assert Floor(s') == Floor(s);
    } else if Calls(s, s', t) {
      CallKeepsCovered(s, s', t);
    } else {
      CommitKeepsCovered(s, s', t);
    }
  }

  /**
   No announcement is lost, however many scan owners overlap: unless the flag is dirty, all of them
   came before the start of one scan, which still runs on its thread or has done its fetch-max and
   left at least the smaller of its clock reading and the slots.
   */
  lemma {:induction false} RunLosesNothing(run: seq<State>, threads: seq<nat>)
    requires Run(run, threads) && Sound(run[0]) && Covered(run[0])
    ensures Sound(run[|run| - 1]) && Covered(run[|run| - 1])
  {
    RunShape(run, threads);
    hide Step, Sound, Covered, Run;
    var n := |threads|;
    if n > 0 {
      RunInit(run, threads);
      RunLosesNothing(run[..n], threads[..n - 1]);
      StepKeepsSound(run[n - 1], run[n], threads[n - 1]);
      StepKeepsCovered(run[n - 1], run[n], threads[n - 1]);
    }
  }

  // ---------------------------------------------------------------- quiet states

  /** The flag is clean, no scan is under way and every slot store has been announced. */
  ghost predicate Quiet(s: State) {
    && s.flag == Clean
    && forall t: nat :: t < |s.pcs| ==> !Aggregating(s.pcs[t]) && !s.pcs[t].TryOwn? && s.pcs[t] != Notify
  }

  lemma QuietFloor(s: State)
    requires Sound(s) && Quiet(s)
    ensures Floor(s) == Least(s.slots)
  {
    assert s.announced == s.slots;
  }

  /**
   With a clean flag and no scan under way every announcement has been taken up: the watermark is at
   least the smaller of the slots and the clock reading of the covering scan.
   */
  lemma CleanWatermark(s: State)
    requires Covered(s) && s.flag == Clean && forall t: nat :: t < |s.pcs| ==> !Aggregating(s.pcs[t])
    ensures s.cover.runner.None? && s.cover.start == s.notified
    ensures Min(s.cover.time, Floor(s)) <= s.globalMin
  {
    hide Floor;
  }

  /** If moreover no store waits for its announcement, these are the slots as they are. */
  lemma QuietWatermark(s: State)
    requires Sound(s) && Covered(s) && Quiet(s)
    ensures s.cover.runner.None? && s.cover.start == s.notified
    ensures Min(s.cover.time, Least(s.slots)) <= s.globalMin
  {
    QuietFloor(s);
    CleanWatermark(s);
    hide Floor, Least, Sound;
  }

  /** A quiet watermark that no slot lies below is the least slot, once the covering scan read the clock late enough. */
  lemma QuietIsExact(s: State)
    requires Sound(s) && Covered(s) && Quiet(s) && Least(s.slots) != INACTIVE
    requires forall t: nat :: Active(s, t) ==> s.globalMin <= s.slots[t]
    requires Least(s.slots) <= s.cover.time
    ensures s.globalMin == Least(s.slots)
  {
    QuietWatermark(s);
    var i :| 0 <= i < |s.slots| && s.slots[i] == Least(s.slots);
    assert Active(s, i);
  }

  /**
   The fetch-max of the covering scan lifts the watermark to the slots exactly if it was there
   already or the scan started from a clock reading that is.
   */
  lemma CatchesUpIff(s: State, s': State, t: nat)
    requires Sound(s) && Covered(s) && s.flag != Dirty && s.cover.runner == Some(t) && FetchMax(s, s', t)
    ensures Floor(s) <= s'.globalMin <==> Floor(s) <= s.globalMin || Floor(s) <= s.cover.time
  {
    assert PcSound(s, t);
    hide Floor;
  }

  /** From a quiet state on nothing moves the watermark, and nothing dirties the flag, but an announcement. */
  lemma QuietStep(s: State, s': State, t: nat)
    requires Step(s, s', t) && s'.notified == s.notified && s.flag == Clean
    requires forall u: nat :: u < |s.pcs| ==> !Aggregating(s.pcs[u]) && !s.pcs[u].TryOwn?
    ensures s'.globalMin == s.globalMin && s'.flag == Clean
    ensures forall u: nat :: u < |s'.pcs| ==> !Aggregating(s'.pcs[u]) && !s'.pcs[u].TryOwn?
  {
  }

  lemma NotifiedGrows(s: State, s': State, t: nat)
    requires Step(s, s', t)
    ensures s.notified <= s'.notified
  {
  }

  lemma {:induction false} RunNotifies(run: seq<State>, threads: seq<nat>)
    requires Run(run, threads)
    ensures run[0].notified <= run[|run| - 1].notified
  {
    RunShape(run, threads);
    hide Step, Run;
    if |threads| > 0 {
      RunInit(run, threads);
      RunNotifies(run[..|threads|], threads[..|threads| - 1]);
      NotifiedGrows(run[|threads| - 1], run[|threads|], threads[|threads| - 1]);
    }
  }

  lemma {:induction false} FrozenUntilAnnounced(run: seq<State>, threads: seq<nat>)
    requires Run(run, threads) && run[|run| - 1].notified == run[0].notified && run[0].flag == Clean
    requires forall u: nat :: u < |run[0].pcs| ==> !Aggregating(run[0].pcs[u]) && !run[0].pcs[u].TryOwn?
    ensures var s := run[|run| - 1];
            && s.globalMin == run[0].globalMin && s.flag == Clean
            && forall u: nat :: u < |s.pcs| ==> !Aggregating(s.pcs[u]) && !s.pcs[u].TryOwn?
  {
    RunShape(run, threads);
    hide Step, Run;
    var n := |threads|;
    if n > 0 {
      RunInit(run, threads);
      RunNotifies(run[..n], threads[..n - 1]);
      NotifiedGrows(run[n - 1], run[n], threads[n - 1]);
      FrozenUntilAnnounced(run[..n], threads[..n - 1]);
      QuietStep(run[n - 1], run[n], threads[n - 1]);
    }
  }

  // ---------------------------------------------------------------- a watermark that stays behind

  function Pair(clock: nat, slot: nat, told: nat, notified: nat, a: Pc, b: Pc): State {
    State(clock, [slot, INACTIVE], 2, 1, Dirty, [a, b], [], [told, INACTIVE], notified, Cover(0, 1, None))
  }

  function Early(registered: nat, clock: nat, slot: nat, a: Pc): State {
    State(clock, [slot, INACTIVE], registered, 1, Clean, [a, Idle], [], [INACTIVE, INACTIVE], 0, Cover(0, 1, None))
  }

  /** One thread commits 1. Another reads the clock for a call; the first commits 2 and 3 in the meantime. */
  function Committed(): (r: seq<State>)
    ensures |r| == 7
  {
    var b := Begun(2);
    [Pair(2, 1, 1, 1, Idle, b), Pair(3, 1, 1, 1, Committing(2), b), Pair(3, 2, 1, 1, Notify, b),
     Pair(3, 2, 2, 2, Idle, b), Pair(4, 2, 2, 2, Committing(3), b), Pair(4, 3, 2, 2, Notify, b),
     Pair(4, 3, 3, 3, Idle, b)]
  }

  function Late(flag: Flag, globalMin: nat, b: Pc, results: seq<nat>, runner: Option<nat>): State {
    State(4, [3, INACTIVE], 2, globalMin, flag, [Idle, b], results, [3, INACTIVE], 3, Cover(3, 2, runner))
  }

  /** Then it scans with its old reading. */
  function Scanned(): (r: seq<State>)
    ensures |r| == 8
  {
    var own := Some(1);
    [Pair(4, 3, 3, 3, Idle, Begun(2)), Pair(4, 3, 3, 3, Idle, TryOwn(2, true)),
     Late(Scanning, 1, Aggregate(2, true), [], own),
     Late(Scanning, 1, Scan(2, 2, 0, 2, true, false), [], own),
     Late(Scanning, 1, Scan(2, 2, 1, 2, true, true), [], own),
     Late(Scanning, 1, Scan(2, 2, 2, 2, true, true), [], own), Late(Scanning, 2, CleanUp(2), [2], None),
     Late(Clean, 2, Idle, [2], None)]
  }

  lemma FirstSteps()
    ensures CanRun(StartState(2), Pair(2, 1, 1, 1, Idle, Idle))
  {
    var s, a, b := StartState(2), Early(1, 1, INACTIVE, Idle), Early(2, 1, INACTIVE, Idle);
    var c, d, e := Early(2, 2, INACTIVE, Committing(1)), Early(2, 2, 1, Notify), Pair(2, 1, 1, 1, Idle, Idle);
    assert s.slots == [INACTIVE, INACTIVE] && s.pcs == [Idle, Idle];
    assert Register(s, a, 0) && Register(a, b, 1) && StartCommit(b, c, 0) && EndCommit(c, d, 0) && StoreDirty(d, e, 0);
    assert Step(s, a, 0) && Step(a, b, 1) && Step(b, c, 0) && Step(c, d, 0) && Step(d, e, 0);
    hide Step, CanRun, Register, StartCommit, EndCommit, StoreDirty;
    RunNowhere(s);
    RunOn(s, s, a, 0);
    RunOn(s, a, b, 1);
    RunOn(s, b, c, 0);
    RunOn(s, c, d, 0);
    RunOn(s, d, e, 0);
  }

  lemma CommittedSteps()
    ensures var r := Committed();
            && Step(Pair(2, 1, 1, 1, Idle, Idle), r[0], 1) && Step(r[0], r[1], 0) && Step(r[1], r[2], 0)
            && Step(r[2], r[3], 0) && Step(r[3], r[4], 0) && Step(r[4], r[5], 0) && Step(r[5], r[6], 0)
  {
    var r := Committed();
    assert Begin(Pair(2, 1, 1, 1, Idle, Idle), r[0], 1);
    assert StartCommit(r[0], r[1], 0);
    assert EndCommit(r[1], r[2], 0);
    assert StoreDirty(r[2], r[3], 0);
    assert StartCommit(r[3], r[4], 0);
    assert EndCommit(r[4], r[5], 0);
    assert StoreDirty(r[5], r[6], 0);
  }

  lemma ScannedFirst()
    ensures var r := Scanned(); Step(r[0], r[1], 1) && Step(r[1], r[2], 1) && Step(r[2], r[3], 1) && Step(r[3], r[4], 1)
  {
    var r := Scanned();
    assert LoadFlag(r[0], r[1], 1);
    assert Own(r[1], r[2], 1);
    assert LoadCount(r[2], r[3], 1);
    assert ReadSlot(r[3], r[4], 1);
  }

  lemma ScannedSecond()
    ensures var r := Scanned(); Step(r[4], r[5], 1) && Step(r[5], r[6], 1) && Step(r[6], r[7], 1)
  {
    var r := Scanned();
    assert ReadSlot(r[4], r[5], 1);
    assert FetchMax(r[5], r[6], 1);
    assert MarkClean(r[6], r[7], 1);
  }

  /** All is announced, the flag is clean, everybody is idle, and the watermark lies below every active slot. */
  ghost predicate Stale(s: State) {
    && s.flag == Clean && s.announced == s.slots && (forall t: nat :: t < |s.pcs| ==> s.pcs[t] == Idle)
    && s.globalMin < Least(s.slots) < INACTIVE
  }

  lemma StaleEnds()
    ensures Stale(Scanned()[7]) && Committed()[6] == Scanned()[0]
  {
    var slots := Scanned()[7].slots;
    assert slots == [3, INACTIVE] && Least(slots) <= slots[0];
  }

  /**
   Two commits announced and a clean flag do not mean that the watermark has followed: the clock reading
   was older. The run begins with the program.
   */
  lemma WatermarkStaysBehind() returns (e: State)
    ensures CanRun(StartState(2), e) && Stale(e)
  {
    hide *;
    var s, a, b := StartState(2), Committed(), Scanned();
    FirstSteps();
    CommittedSteps();
    ScannedFirst();
    ScannedSecond();
    StaleEnds();
    RunOn(s, Pair(2, 1, 1, 1, Idle, Idle), a[0], 1);
    RunAlone(s, a, 0, 6);
    RunAlone(s, b, 1, 7);
    e := b[7];
  }

  /** The clock as the program finds it. */
  lemma ProgramStarts(threads: nat)
    ensures var s := StartState(threads); Sound(s) && Ordered(s) && Covered(s) && Anchored(s)
  {
  }
}
