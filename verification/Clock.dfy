/**
 The commit clock as a state machine. Every load, store, fetch-max and compare-exchange of every
 thread is a step of its own, so the scans over the commit slots are not atomic.
 */
module Clock {
  import opened Util

  const INACTIVE: nat := 0xFFFF_FFFF_FFFF_FFFF

  datatype Flag = Clean | Dirty | Scanning

  /**
   Where a thread is inside a call. A scan carries the clock reading it started from, the least
   value so far, the slots it goes through and whether it has met an active one.
   */
  datatype Pc =
    | Idle
    | Begun(time: nat)
    | LoadMin
    | TryOwn(time: nat, sawDirty: bool)
    | Aggregate(time: nat, owns: bool)
    | Scan(time: nat, acc: nat, next: nat, limit: nat, owns: bool, met: bool)
    | CleanUp(result: nat)
    | Committing(version: nat)
    | Notify

  /**
   The scan that last moved the flag from dirty to scanning: how many announcements there had been,
   its clock reading, and the thread it runs on until its fetch-max.
   */
  datatype Cover = Cover(start: nat, time: nat, runner: Option<nat>)

  /**
   `results` lists what the calls return, in the order of their load or fetch-max. A slot store is
   announced by the store of the dirty mark after it: `announced` holds the slots as last announced,
   `notified` counts the announcements.
   */
  datatype State = State(
    clock: nat, slots: seq<nat>, registered: nat, globalMin: nat, flag: Flag, pcs: seq<Pc>,
    results: seq<nat>, announced: seq<nat>, notified: nat, cover: Cover)

  predicate On(s: State, t: nat) { t < |s.pcs| && t < |s.slots| && t < |s.announced| }

  predicate Active(s: State, t: nat) { t < |s.slots| && s.slots[t] != INACTIVE }

  // ---------------------------------------------------------------- the steps of thread `t`

  function To(s: State, t: nat, pc: Pc): State
    requires t < |s.pcs|
  {
    s.(pcs := s.pcs[t := pc])
  }

  ghost predicate Register(s: State, s': State, t: nat) {
    t == s.registered < |s.slots| && s' == s.(registered := t + 1)
  }

  /** A call of `committed_snapshot`, with a clock reading or with the largest version. */
  ghost predicate Begin(s: State, s': State, t: nat) {
    On(s, t) && s.pcs[t] == Idle && (s' == To(s, t, Begun(s.clock)) || s' == To(s, t, Begun(INACTIVE)))
  }

  ghost predicate LoadFlag(s: State, s': State, t: nat) {
    && On(s, t) && s.pcs[t].Begun?
    && s' == To(s, t, if s.flag == Clean then LoadMin else TryOwn(s.pcs[t].time, s.flag == Dirty))
  }

  ghost predicate ReturnMin(s: State, s': State, t: nat) {
    On(s, t) && s.pcs[t] == LoadMin && s' == To(s, t, Idle).(results := s.results + [s.globalMin])
  }

  /** The compare-exchange from dirty to scanning, if the dirty mark was seen. */
  ghost predicate Own(s: State, s': State, t: nat) {
    && On(s, t) && s.pcs[t].TryOwn?
    && var owns := s.pcs[t].sawDirty && s.flag == Dirty;
       var seen := To(s, t, Aggregate(s.pcs[t].time, owns));
       s' == if owns then seen.(flag := Scanning, cover := Cover(s.notified, s.pcs[t].time, Some(t))) else seen
  }

  /** The thread count decides which slots the scan goes through. */
  ghost predicate LoadCount(s: State, s': State, t: nat) {
    && On(s, t) && s.pcs[t].Aggregate?
    && s' == To(s, t, Scan(s.pcs[t].time, s.pcs[t].time, 0, s.registered, s.pcs[t].owns, false))
  }

  ghost predicate ReadSlot(s: State, s': State, t: nat) {
    && On(s, t) && s.pcs[t].Scan? && s.pcs[t].next < s.pcs[t].limit <= |s.slots|
    && var slot := s.slots[s.pcs[t].next];
       s' == To(s, t, s.pcs[t].(acc := Min(s.pcs[t].acc, slot), next := s.pcs[t].next + 1, met := s.pcs[t].met
                                || slot != INACTIVE))
  }

  ghost predicate FetchMax(s: State, s': State, t: nat) {
    && On(s, t) && s.pcs[t].Scan? && s.pcs[t].next >= s.pcs[t].limit
    && var result := Max(s.pcs[t].acc, s.globalMin);
       s' == To(s, t, if s.pcs[t].owns then CleanUp(result) else Idle).(
         globalMin := result, results := s.results + [result],
         cover := if s.cover.runner == Some(t) then s.cover.(runner := None) else s.cover)
  }

  ghost predicate MarkClean(s: State, s': State, t: nat) {
    && On(s, t) && s.pcs[t].CleanUp?
    && s' == To(s, t, Idle).(flag := if s.flag == Scanning then Clean else s.flag)
  }

  ghost predicate StartCommit(s: State, s': State, t: nat) {
    && On(s, t) && s.pcs[t] == Idle && s.clock + 1 < INACTIVE
    && s' == To(s, t, Committing(s.clock)).(clock := s.clock + 1)
  }

  ghost predicate EndCommit(s: State, s': State, t: nat) {
    && On(s, t) && s.pcs[t].Committing?
    && s' == To(s, t, Notify).(slots := s.slots[t := s.pcs[t].version])
  }

  ghost predicate SetInactive(s: State, s': State, t: nat) {
    On(s, t) && s.pcs[t] == Idle && s' == To(s, t, Notify).(slots := s.slots[t := INACTIVE])
  }

  ghost predicate StoreDirty(s: State, s': State, t: nat) {
    && On(s, t) && s.pcs[t] == Notify
    && s' == To(s, t, Idle).(flag := Dirty, notified := s.notified + 1, announced := s.announced[t := s.slots[t]])
  }

  /** The steps that leave the slots, the clock and the announcements alone. */
  ghost predicate Calls(s: State, s': State, t: nat) {
    || Begin(s, s', t) || LoadFlag(s, s', t) || ReturnMin(s, s', t) || Own(s, s', t) || LoadCount(s, s', t)
    || ReadSlot(s, s', t) || FetchMax(s, s', t) || MarkClean(s, s', t)
  }

  ghost predicate Commits(s: State, s': State, t: nat) {
    StartCommit(s, s', t) || EndCommit(s, s', t) || SetInactive(s, s', t) || StoreDirty(s, s', t)
  }

  /** Any step of the program. */
  ghost predicate Step(s: State, s': State, t: nat) {
    Register(s, s', t) || (t < s.registered && (Calls(s, s', t) || Commits(s, s', t)))
  }

  // ---------------------------------------------------------------- what holds in every run

  ghost predicate PcSound(s: State, t: nat)
    requires t < |s.pcs|
  {
    match s.pcs[t]
    case Begun(time) => time <= s.clock || time == INACTIVE
    case TryOwn(time, _) => time <= s.clock || time == INACTIVE
    case Aggregate(time, _) => time <= s.clock || time == INACTIVE
    case Scan(time, acc, next, limit, _, met) =>
      && (time <= s.clock || time == INACTIVE) && next <= limit <= s.registered && acc <= time
      && (if met then acc < s.clock else acc == time)
    case Committing(v) => v < s.clock && (Active(s, t) ==> s.slots[t] < v)
    case _ => true
  }

  ghost predicate Sound(s: State) {
    && |s.pcs| == |s.slots| == |s.announced| && s.registered <= |s.slots| && s.clock < INACTIVE
    && (forall t: nat :: s.registered <= t < |s.slots| ==> s.slots[t] == INACTIVE && s.pcs[t] == Idle)
    && (forall t: nat :: Active(s, t) ==> s.slots[t] < s.clock)
    && (forall t: nat :: t < |s.pcs| ==> PcSound(s, t))
    && (forall t: nat :: t < |s.pcs| && s.pcs[t] != Notify ==> s.announced[t] == s.slots[t])
  }

  lemma CallFrame(s: State, s': State, t: nat)
    requires |s.pcs| == |s.slots| && Calls(s, s', t)
    ensures s'.slots == s.slots && s'.clock == s.clock && s'.announced == s.announced && s'.registered == s.registered
    ensures |s'.pcs| == |s.pcs| && t < |s.pcs| && forall u: nat :: u < |s.pcs| && u != t ==> s'.pcs[u] == s.pcs[u]
    ensures s.pcs[t] != Notify && s'.pcs[t] != Notify
  {
  }

  lemma CallKeepsSound(s: State, s': State, t: nat)
    requires Sound(s) && t < s.registered && Calls(s, s', t)
    ensures Sound(s')
    ensures s'.slots == s.slots && s'.clock == s.clock && s'.announced == s.announced && s'.registered == s.registered
    ensures |s'.pcs| == |s.pcs| && forall u: nat :: u < |s.pcs| && u != t ==> s'.pcs[u] == s.pcs[u]
  {
    CallKeepsPc(s, s', t);
    CallFrame(s, s', t);
    hide Calls;
    forall u: nat | u < |s'.pcs| ensures PcSound(s', u) {
      assert PcSound(s, u);
    }
    assert forall u: nat :: Active(s', u) == Active(s, u);
  }

  lemma CallKeepsPc(s: State, s': State, t: nat)
    requires Sound(s) && t < s.registered && Calls(s, s', t)
    ensures t < |s'.pcs| && PcSound(s', t)
  {
    assert PcSound(s, t);
    if s.pcs[t].Scan? && s.pcs[t].next < s.pcs[t].limit {
      assert Active(s, s.pcs[t].next) ==> s.slots[s.pcs[t].next] < s.clock;
    }
  }

  lemma CommitKeepsSound(s: State, s': State, t: nat)
    requires Sound(s) && t < s.registered && Commits(s, s', t)
    ensures Sound(s')
    ensures |s'.pcs| == |s.pcs|
    ensures forall u: nat :: u < |s.pcs| && u != t ==> s'.pcs[u] == s.pcs[u] && s'.slots[u] == s.slots[u]
    ensures s'.globalMin == s.globalMin && s'.results == s.results && s'.registered == s.registered
    ensures s.clock <= s'.clock
  {
    assert PcSound(s, t);
    forall u: nat | u < |s'.pcs| ensures PcSound(s', u) {
      assert PcSound(s, u);
    }
    forall u: nat | Active(s', u) ensures s'.slots[u] < s'.clock {
      assert u != t ==> Active(s, u);
    }
  }

  lemma RegisterKeepsSound(s: State, s': State, t: nat)
    requires Sound(s) && Register(s, s', t)
    ensures Sound(s')
  {
    assert forall u: nat :: Active(s', u) == Active(s, u);
    forall u: nat | u < |s'.pcs| ensures PcSound(s', u) {
      assert PcSound(s, u);
    }
  }

  lemma StepKeepsSound(s: State, s': State, t: nat)
    requires Sound(s) && Step(s, s', t)
    ensures Sound(s')
  {
    hide Sound, Register, Calls, Commits;
    if Register(s, s', t) {
      RegisterKeepsSound(s, s', t);
    } else if Calls(s, s', t) {
      CallKeepsSound(s, s', t);
    } else {
      CommitKeepsSound(s, s', t);
    }
  }

  ghost predicate Run(run: seq<State>, threads: seq<nat>) {
    |run| == |threads| + 1 && forall i :: 0 <= i < |threads| ==> Step(run[i], run[i + 1], threads[i])
  }

  /** A run without its last step is a run. */
  lemma RunInit(run: seq<State>, threads: seq<nat>)
    requires Run(run, threads) && |threads| > 0
    ensures Run(run[..|threads|], threads[..|threads| - 1])
    ensures Step(run[|threads| - 1], run[|threads|], threads[|threads| - 1])
  {
    hide Step;
    var n := |threads|;
    forall i | 0 <= i < n - 1 ensures Step(run[..n][i], run[..n][i + 1], threads[..n - 1][i]) {
      assert Step(run[i], run[i + 1], threads[i]);
    }
    assert Step(run[n - 1], run[n - 1 + 1], threads[n - 1]);
  }

  lemma {:induction false} RunKeepsSound(run: seq<State>, threads: seq<nat>)
    requires Run(run, threads) && Sound(run[0])
    ensures Sound(run[|run| - 1])
  {
    hide Step, Sound, Run;
    if |threads| > 0 {
      RunInit(run, threads);
      RunShape(run, threads);
      RunKeepsSound(run[..|threads|], threads[..|threads| - 1]);
      StepKeepsSound(run[|threads| - 1], run[|threads|], threads[|threads| - 1]);
    } else {
      RunShape(run, threads);
    }
  }

  lemma RunShape(run: seq<State>, threads: seq<nat>)
    requires Run(run, threads)
    ensures |run| == |threads| + 1
  {
  }

  // ---------------------------------------------------------------- the watermark only grows

  /** The results so far are in order and bounded by the watermark. */
  ghost predicate Ordered(s: State) {
    && (forall i, j :: 0 <= i < j < |s.results| ==> s.results[i] <= s.results[j])
    && forall i :: 0 <= i < |s.results| ==> s.results[i] <= s.globalMin
  }

  /** Each result is the value the watermark holds right after that load or fetch-max. */
  lemma ResultIsWatermark(s: State, s': State, t: nat)
    requires Step(s, s', t)
    ensures s'.globalMin >= s.globalMin
    ensures s'.results == s.results || s'.results == s.results + [s'.globalMin]
    ensures s'.globalMin != s.globalMin ==> s'.results == s.results + [s'.globalMin]
  {
  }

  ghost predicate AllFrom(results: seq<nat>, start: nat,
                          bound: nat) { forall i :: start <= i < |results| ==> bound <= results[i] }

  /** What a call returned before bounds from below what any later call returns. */
  lemma {:induction false} ResultsNeverDecrease(run: seq<State>, threads: seq<nat>)
    requires Run(run, threads) && Ordered(run[0])
    ensures Ordered(run[|run| - 1]) && run[0].globalMin <= run[|run| - 1].globalMin
    ensures |run[0].results| <= |run[|run| - 1].results|
    ensures AllFrom(run[|run| - 1].results, |run[0].results|, run[0].globalMin)
  {
    hide Step, Run;
    RunShape(run, threads);
    var n := |threads|;
    if n > 0 {
      RunInit(run, threads);
      ResultsNeverDecrease(run[..n], threads[..n - 1]);
      ResultIsWatermark(run[n - 1], run[n], threads[n - 1]);
    }
  }

  // ---------------------------------------------------------------- the watermark and the clock

  /** The call scans on behalf of an allocation: it started from the largest version. */
  predicate Reclaims(pc: Pc) {
    (pc.Begun? || pc.TryOwn? || pc.Aggregate? || pc.Scan?) && pc.time == INACTIVE
  }

  /**
   A reclaiming call leaves the watermark at or below the clock exactly if it took the watermark as
   it was or met an active slot on its scan.
   */
  lemma ReclaimKeepsBelowIff(s: State, s': State, t: nat)
    requires Sound(s) && s.globalMin <= s.clock
    requires ReturnMin(s, s', t) || (FetchMax(s, s', t) && Reclaims(s.pcs[t]))
    ensures s'.globalMin <= s'.clock <==> s.pcs[t] == LoadMin || s.pcs[t].met
  {
    assert PcSound(s, t);
  }

  /** Any other step keeps the watermark at or below the clock. */
  lemma OthersKeepBelow(s: State, s': State, t: nat)
    requires Sound(s) && s.globalMin <= s.clock && Step(s, s', t)
    requires t < |s.pcs| && !(FetchMax(s, s', t) && Reclaims(s.pcs[t]))
    ensures s'.globalMin <= s'.clock
  {
    assert PcSound(s, t);
  }

  /** The slot of a reclaiming thread is active during its call, and its scan will meet it or has met one. */
  ghost predicate OwnSlotHolds(s: State, t: nat)
    requires t < |s.pcs|
  {
    Reclaims(s.pcs[t]) ==>
      && Active(s, t) && t < s.registered
      && (s.pcs[t].Scan? ==> t < s.pcs[t].limit && (t < s.pcs[t].next ==> s.pcs[t].met))
  }

  ghost predicate Anchored(s: State) {
    s.globalMin <= s.clock && forall t: nat :: t < |s.pcs| ==> OwnSlotHolds(s, t)
  }

  /** A step in which no thread starts a reclaiming call while its own slot is inactive. */
  ghost predicate AnchoredStep(s: State, s': State, t: nat) {
    Step(s, s', t) && (On(s, t) && s' == To(s, t, Begun(INACTIVE)) ==> Active(s, t))
  }

  lemma StepKeepsAnchored(s: State, s': State, t: nat)
    requires Sound(s) && Anchored(s) && AnchoredStep(s, s', t)
    ensures Anchored(s')
  {
    StaysBelow(s, s', t);
    forall u: nat | u < |s'.pcs| ensures OwnSlotHolds(s', u) {
      assert OwnSlotHolds(s, u);
      if u == t { OwnSlotStays(s, s', t); } else { OtherSlotStays(s, s', t, u); }
    }
  }

  lemma StaysBelow(s: State, s': State, t: nat)
    requires Sound(s) && Anchored(s) && Step(s, s', t)
    ensures s'.globalMin <= s'.clock && |s'.pcs| == |s.pcs|
  {
    if t < |s.pcs| && FetchMax(s, s', t) && Reclaims(s.pcs[t]) {
      assert OwnSlotHolds(s, t) && PcSound(s, t);
    } else if t < |s.pcs| {
      OthersKeepBelow(s, s', t);
    }
  }

  lemma OtherSlotStays(s: State, s': State, t: nat, u: nat)
    requires u < |s.pcs| && u != t && OwnSlotHolds(s, u) && Step(s, s', t) && |s'.pcs| == |s.pcs|
    ensures OwnSlotHolds(s', u)
  {
  }

  lemma OwnSlotStays(s: State, s': State, t: nat)
    requires t < |s.pcs| && OwnSlotHolds(s, t) && Sound(s) && AnchoredStep(s, s', t) && |s'.pcs| == |s.pcs|
    ensures OwnSlotHolds(s', t)
  {
    assert PcSound(s, t);
  }

  ghost predicate AnchoredRun(run: seq<State>, threads: seq<nat>) {
    Run(run, threads) && forall i :: 0 <= i < |threads| ==> AnchoredStep(run[i], run[i + 1], threads[i])
  }

  lemma AnchoredInit(run: seq<State>, threads: seq<nat>)
    requires AnchoredRun(run, threads) && |threads| > 0
    ensures AnchoredRun(run[..|threads|], threads[..|threads| - 1])
    ensures AnchoredStep(run[|threads| - 1], run[|threads|], threads[|threads| - 1])
  {
    hide Step, AnchoredStep;
    RunInit(run, threads);
    var n := |threads|;
    forall i | 0 <= i < n - 1 ensures AnchoredStep(run[..n][i], run[..n][i + 1], threads[..n - 1][i]) {
      assert AnchoredStep(run[i], run[i + 1], threads[i]);
    }
    assert AnchoredStep(run[n - 1], run[n - 1 + 1], threads[n - 1]);
  }

  /** If every reclaiming thread has an active slot of its own, no result ever passes the clock. */
  lemma {:induction false} AnchoredStaysBelow(run: seq<State>, threads: seq<nat>)
    requires AnchoredRun(run, threads) && Sound(run[0]) && Anchored(run[0]) && Ordered(run[0])
    ensures var s := run[|run| - 1]; Sound(s) && Anchored(s) && forall i :: 0 <= i < |s.results| ==>
              s.results[i] <= s.clock
  {
    RunShape(run, threads);
    AnchoredKept(run, threads);
    ResultsNeverDecrease(run, threads);
    hide Run, AnchoredStep, Sound;
  }

  lemma {:induction false} AnchoredKept(run: seq<State>, threads: seq<nat>)
    requires AnchoredRun(run, threads) && Sound(run[0]) && Anchored(run[0])
    ensures |run| > 0 && Sound(run[|run| - 1]) && Anchored(run[|run| - 1])
  {
    RunShape(run, threads);
    hide Step, Sound, Anchored, AnchoredStep, AnchoredRun, Run;
    var n := |threads|;
    if n > 0 {
      AnchoredInit(run, threads);
      AnchoredKept(run[..n], threads[..n - 1]);
      var s, s' := run[n - 1], run[n];
      IsStep(s, s', threads[n - 1]);
      StepKeepsSound(s, s', threads[n - 1]);
      StepKeepsAnchored(s, s', threads[n - 1]);
    }
  }

  lemma IsStep(s: State, s': State, t: nat)
    requires AnchoredStep(s, s', t)
    ensures Step(s, s', t)
  {
  }

  // ---------------------------------------------------------------- runs from the program's start

  /** The clock as the program finds it, with room for `n` threads. */
  function StartState(n: nat): State {
    State(1, seq(n, _ => INACTIVE), 0, 1, Clean, seq(n, _ => Idle), [], seq(n, _ => INACTIVE), 0, Cover(0, 1, None))
  }

  ghost predicate CanRun(s: State, e: State) {
    exists run: seq<State>, threads: seq<nat> :: Run(run, threads) && run[0] == s && run[|threads|] == e
  }

  lemma RunNowhere(s: State)
    ensures CanRun(s, s)
  {
    var run: seq<State>, threads: seq<nat> := [s], [];
    assert Run(run, threads);
  }

  lemma RunOn(s: State, m: State, e: State, t: nat)
    requires CanRun(s, m) && Step(m, e, t)
    ensures CanRun(s, e)
  {
    hide Step;
    var run: seq<State>, threads: seq<nat> :| Run(run, threads) && run[0] == s && run[|threads|] == m;
    var run', threads' := run + [e], threads + [t];
    forall i | 0 <= i < |threads'| ensures Step(run'[i], run'[i + 1], threads'[i]) {
      if i < |threads| { assert Step(run[i], run[i + 1], threads[i]); }
    }
    assert Run(run', threads');
  }

  /** A run in which the same thread takes all steps. */
  lemma {:induction false} RunAlone(s: State, r: seq<State>, t: nat, n: nat)
    requires n < |r| && CanRun(s, r[0]) && forall i :: 0 <= i < n ==> Step(r[i], r[i + 1], t)
    ensures CanRun(s, r[n])
  {
    hide Step, CanRun;
    if n > 0 {
      RunAlone(s, r, t, n - 1);
      assert Step(r[n - 1], r[n - 1 + 1], t);
      RunOn(s, r[n - 1], r[n], t);
    }
  }

  // ---------------------------------------------------------------- a run that drains the watermark

  function Alone(clock: nat, slot: nat, told: nat, notified: nat, flag: Flag, globalMin: nat, pc: Pc,
                 results: seq<nat>, cover: Cover): State
  {
    State(clock, [slot], 1, globalMin, flag, [pc], results, [told], notified, cover)
  }

  /** The only thread registers, commits and gives up its slot. */
  function Committing1(): (r: seq<State>)
    ensures |r| == 7
  {
    var none := Cover(0, 1, None);
    [StartState(1), Alone(1, INACTIVE, INACTIVE, 0, Clean, 1, Idle, [], none),
     Alone(2, INACTIVE, INACTIVE, 0, Clean, 1, Committing(1), [], none),
     Alone(2, 1, INACTIVE, 0, Clean, 1, Notify, [], none),
     Alone(2, 1, 1, 1, Dirty, 1, Idle, [], none), Alone(2, INACTIVE, 1, 1, Dirty, 1, Notify, [], none),
     Alone(2, INACTIVE, INACTIVE, 2, Dirty, 1, Idle, [], none)]
  }

  /** Then it allocates. */
  function Draining(): (r: seq<State>)
    ensures |r| == 7
  {
    var none, own := Cover(0, 1, None), Cover(2, INACTIVE, Some(0));
    [Drained(Dirty, 1, Idle, [], none), Drained(Dirty, 1, Begun(INACTIVE), [], none),
     Drained(Dirty, 1, TryOwn(INACTIVE, true), [], none), Drained(Scanning, 1, Aggregate(INACTIVE, true), [], own),
     Drained(Scanning, 1, Scan(INACTIVE, INACTIVE, 0, 1, true, false), [], own),
     Drained(Scanning, 1, Scan(INACTIVE, INACTIVE, 1, 1, true, false), [], own),
     Drained(Scanning, INACTIVE, CleanUp(INACTIVE), [INACTIVE], own.(runner := None))]
  }

  function Drained(flag: Flag, globalMin: nat, pc: Pc, results: seq<nat>, cover: Cover): State {
    Alone(2, INACTIVE, INACTIVE, 2, flag, globalMin, pc, results, cover)
  }

  lemma CommittingSteps()
    ensures var r := Committing1();
            && Step(r[0], r[1], 0) && Step(r[1], r[2], 0) && Step(r[2], r[3], 0) && Step(r[3], r[4], 0)
            && Step(r[4], r[5], 0) && Step(r[5], r[6], 0)
  {
    var r := Committing1();
    assert StartState(1).slots == [INACTIVE] && StartState(1).pcs == [Idle];
    assert Register(r[0], r[1], 0);
    assert StartCommit(r[1], r[2], 0);
    assert EndCommit(r[2], r[3], 0);
    assert StoreDirty(r[3], r[4], 0);
    assert SetInactive(r[4], r[5], 0);
    assert StoreDirty(r[5], r[6], 0);
  }

  lemma DrainingSteps()
    ensures var r := Draining();
            && Step(r[0], r[1], 0) && Step(r[1], r[2], 0) && Step(r[2], r[3], 0) && Step(r[3], r[4], 0)
            && Step(r[4], r[5], 0) && Step(r[5], r[6], 0)
  {
    var r := Draining();
    assert Begin(r[0], r[1], 0);
    assert LoadFlag(r[1], r[2], 0);
    assert Own(r[2], r[3], 0);
    assert LoadCount(r[3], r[4], 0);
    assert ReadSlot(r[4], r[5], 0);
    assert FetchMax(r[5], r[6], 0);
  }

  lemma CommittingRuns()
    ensures CanRun(StartState(1), Committing1()[6])
  {
    CommittingSteps();
    var r := Committing1();
    assert r[0] == StartState(1);
    hide Step, Committing1, StartState, CanRun;
    RunNowhere(r[0]);
    RunAlone(r[0], r, 0, 6);
  }

  lemma DrainingRuns()
    ensures Begin(Draining()[0], Draining()[1], 0) && CanRun(Draining()[1], Draining()[6])
  {
    DrainingSteps();
    var r := Draining();
    assert Begin(r[0], r[1], 0);
    hide Step, Draining, CanRun, Begin;
    RunNowhere(r[1]);
    RunOn(r[1], r[1], r[2], 0);
    RunOn(r[1], r[2], r[3], 0);
    RunOn(r[1], r[3], r[4], 0);
    RunOn(r[1], r[4], r[5], 0);
    RunOn(r[1], r[5], r[6], 0);
  }

  /**
   A run from the program's start, with a watermark below the clock, in which one allocation while no slot is
   active then drives the watermark to the largest version.
   */
  lemma WatermarkDrains() returns (m: State, e: State)
    ensures CanRun(StartState(1), m) && m.globalMin < m.clock && Reclaiming1(m, e) && e.globalMin == INACTIVE
  {
    CommittingRuns();
    DrainingRuns();
    m, e := Committing1()[6], Draining()[6];
    assert m == Draining()[0] && Draining()[1].pcs == [Begun(INACTIVE)];
    assert m.globalMin < m.clock && e.globalMin == INACTIVE;
    hide CanRun, Begin, Committing1, Draining;
  }

  /** Thread 0 begins a reclaiming call and takes steps of it. */
  ghost predicate Reclaiming1(s: State, e: State) {
    exists m :: Begin(s, m, 0) && m.pcs == [Begun(INACTIVE)] && CanRun(m, e)
  }
}
