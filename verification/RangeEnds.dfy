/**
 A latch-free range reader always ends: every load lowers a number, whatever writers store between
 two of them. First the bound of the rest of the interval counts, then the stack and the place on
 its top page.
 */
module RangeEnds {
  import opened Util
  import opened Fences
  import opened History
  import opened Pages
  import opened TreeModel
  import opened LeafWrites
  import opened Snapshots
  import opened TreeSteps
  import opened RangeIter
  import opened Stability
  import opened Readers
  import opened RangeReaders

  // ---------------------------------------------------------------- what is left

  ghost function Prod(a: nat, b: nat): nat { a * b }

  lemma ProdStep(a: nat, b: nat, c: nat)
    requires a < b
    ensures Prod(a, c) + c <= Prod(b, c)
  {
    Times(a + 1, b, c);
  }

  /** More than any way down and up again costs while the bound stays. */
  ghost function Round(t: Tree): nat { Prod(2 * Tallest(t.meta) + 3, Cost(t)) }

  /** The place on the top page. */
  ghost function Slots(t: Tree, at: Point): nat {
    match at
    case Looking => Cost(t)
    case Choosing(n) => n + 1
    case Taking(i, n, _) => (if i <= n then n - i else 0) + 1
    case _ => 0
  }

  /** With the bound inside the top page the reader goes down from there, otherwise it leaves one page of the stack. */
  ghost function Ground(t: Tree, pc: Ranging): nat {
    if |pc.path| == 0 then 0
    else if Contains(RangeReaders.Top(pc.path).fence, pc.lower) then HeightAt(t, RangeReaders.Top(pc.path).page)
    else Tallest(t.meta) + 1 + |pc.path|
  }

  ghost function Here(t: Tree, pc: Ranging): nat { Prod(Ground(t, pc), Cost(t)) + Slots(t, pc.at) }

  /** The leaves of the snapshot with a key at or above the bound. */
  ghost function LeavesFrom(t: Tree, s: nat, lower: nat): set<nat> {
    set p | 0 <= p < |t.meta| && LeafFrom(t, s, p, lower)
  }

  ghost predicate LeafFrom(t: Tree, s: nat, p: nat, lower: nat) {
    PartAt(t, p, s) && t.meta[p].height == 1 && t.meta[p].fence.upper >= lower
  }

  /** The last leaf is looked at once more. */
  ghost function Rounds(t: Tree, s: nat, lower: nat): nat {
    |LeavesFrom(t, s, lower)| + if lower < MAX_KEY then 1 else 0
  }

  ghost function Ahead(t: Tree, s: nat, pc: Ranging): nat {
    match pc.at
    case Starting => Prod(|t.meta| + 2, Round(t))
    case Complete => 0
    case _ => Prod(Rounds(t, s, pc.lower), Round(t)) + Here(t, pc)
  }

  lemma {:induction false} Smaller(a: set<nat>, b: set<nat>)
    requires a <= b
    ensures |a| <= |b|
  {
    if a != {} {
      var x :| x in a;
      Smaller(a - {x}, b - {x});
    }
  }

  lemma {:induction false} FewBelow(a: set<nat>, n: nat)
    requires forall x :: x in a ==> x < n
    ensures |a| <= n
  {
    if n == 0 {
      assert a == {};
    } else {
      FewBelow(a - {n - 1}, n - 1);
    }
  }

  lemma FewRounds(t: Tree, s: nat, lower: nat)
    ensures Rounds(t, s, lower) < |t.meta| + 2
  {
    FewBelow(LeavesFrom(t, s, lower), |t.meta|);
  }

  // ---------------------------------------------------------------- the stack

  /** Pages on the stack get lower and lower. */
  lemma {:induction false} StackIsLow(t: Tree, path: seq<Step>, v: nat, lower: nat, i: nat)
    requires Kept(t, v, lower) && PathOk(t, path, v, lower) && i < |path|
    ensures 1 <= HeightAt(t, path[i].page) && i + HeightAt(t, path[i].page) <= Tallest(t.meta)
  {
    StackStep(t, path, v, lower, i);
    hide *;
    NotTaller(t, path[i].page);
    if i > 0 { StackIsLow(t, path, v, lower, i - 1); }
  }

  lemma StackStep(t: Tree, path: seq<Step>, v: nat, lower: nat, i: nat)
    requires Kept(t, v, lower) && PathOk(t, path, v, lower) && i < |path|
    ensures 1 <= HeightAt(t, path[i].page)
    ensures i > 0 ==> HeightAt(t, path[i].page) < HeightAt(t, path[i - 1].page)
  {
    assert StepOk(t, path[i], v);
    if i > 0 { assert Below(t, path[i - 1], path[i]); }
    MetaOkOf(t);
    hide Inv, PathOk;
  }

  lemma GroundIsBelow(t: Tree, whole: Fence, s: nat, pc: Ranging)
    requires PathKept(t, whole, s, pc)
    ensures Ground(t, pc) <= 2 * Tallest(t.meta) + 1 && pc.lower <= MAX_KEY
  {
    hide PathOk, Shown, HeightAt, Inv;
    if |pc.path| > 0 { StackIsLow(t, pc.path, s, pc.lower, |pc.path| - 1); }
  }

  lemma HereIs(t: Tree, pc: Ranging)
    ensures Here(t, pc) == Prod(Ground(t, pc), Cost(t)) + Slots(t, pc.at)
    ensures Round(t) == Prod(2 * Tallest(t.meta) + 3, Cost(t)) && Cost(t) > 1
  {
    hide Prod, Ground, Tallest, Slots;
  }

  /** What is left on the stack is less than one round. */
  lemma HereIsBelow(t: Tree, whole: Fence, s: nat, pc: Ranging)
    requires PathKept(t, whole, s, pc) && Slots(t, pc.at) <= Cost(t)
    ensures Here(t, pc) < Round(t) && pc.lower <= MAX_KEY
  {
    hide *;
    GroundIsBelow(t, whole, s, pc);
    HereIs(t, pc);
    ProdStep(Ground(t, pc), 2 * Tallest(t.meta) + 2, Cost(t));
    ProdStep(2 * Tallest(t.meta) + 2, 2 * Tallest(t.meta) + 3, Cost(t));
  }

  /** On the same place of the stack, or one page lower or further, a look at the next page comes. */
  lemma Nearer(t: Tree, s: nat, a: Ranging, b: Ranging)
    requires b.at.Looking? && !a.at.Complete? && !a.at.Starting? && b.lower == a.lower
    requires Ground(t, b) < Ground(t, a) && Slots(t, a.at) > 0
    ensures Ahead(t, s, b) < Ahead(t, s, a)
  {
    hide Ground, Round, Rounds, Prod, Cost;
    ProdStep(Ground(t, b), Ground(t, a), Cost(t));
  }

  lemma OnPage(t: Tree, s: nat, a: Ranging, b: Ranging)
    requires b == a.(at := b.at) && !a.at.Complete? && !a.at.Starting? && !b.at.Starting?
    requires Slots(t, b.at) < Slots(t, a.at)
    ensures Ahead(t, s, b) < Ahead(t, s, a)
  {
    hide Round, Rounds, Prod;
  }

  /** The bound has moved on: a whole round is done. */
  lemma Further(t: Tree, whole: Fence, s: nat, a: Ranging, b: Ranging)
    requires b.at.Looking? && !a.at.Complete? && !a.at.Starting? && PathKept(t, whole, s, b)
    requires Rounds(t, s, b.lower) < Rounds(t, s, a.lower)
    ensures Ahead(t, s, b) < Ahead(t, s, a)
  {
    HereIsBelow(t, whole, s, b);
    hide PathKept, Round, Rounds, Prod, Here;
    ProdStep(Rounds(t, s, b.lower), Rounds(t, s, a.lower), Round(t));
  }

  // ---------------------------------------------------------------- every step

  lemma BeginsLooking(t: Tree, whole: Fence, s: nat, x: State, y: State)
    requires RangeOk(t, whole, s, y) && RangeStep(whole, s, x, y) && x.pc.at.Starting?
    ensures y.pc.at.Looking? && PathKept(t, whole, s, y.pc)
  {
    hide PathKept, StoresOk, RootFor;
  }

  lemma AheadIs(t: Tree, s: nat, pc: Ranging)
    ensures pc.at.Starting? ==> Ahead(t, s, pc) == Prod(|t.meta| + 2, Round(t))
    ensures pc.at.Looking? ==> Ahead(t, s, pc) == Prod(Rounds(t, s, pc.lower), Round(t)) + Here(t, pc)
  {
    hide Prod, Rounds, Round, Here;
  }

  lemma BeginsAhead(t: Tree, whole: Fence, s: nat, x: State, y: State)
    requires Ranges(t, whole, s) && RangeOk(t, whole, s, x) && RangeStep(whole, s, x, y) && x.pc.at.Starting?
    ensures Ahead(t, s, y.pc) < Ahead(t, s, x.pc)
  {
    hide *;
    RangeKeepsRange(t, whole, s, x, y);
    BeginsLooking(t, whole, s, x, y);
    SlotsAre(t, y.pc);
    HereIsBelow(t, whole, s, y.pc);
    FewRounds(t, s, y.pc.lower);
    ProdStep(Rounds(t, s, y.pc.lower), |t.meta| + 2, Round(t));
    AheadIs(t, s, x.pc);
    AheadIs(t, s, y.pc);
  }

  /** The page as the reader finds it has at most the slots of the widest one. */
  lemma TopFits(t: Tree, whole: Fence, s: nat, x: State)
    requires StoresOk(t, s, x) && PathKept(t, whole, s, x.pc) && |x.pc.path| > 0
    ensures var p := RangeReaders.Top(x.pc.path).page; p < |x.pages| && Sum(x.pages[p]) + 2 <= Cost(t)
  {
    var p := RangeReaders.Top(x.pc.path).page;
    TopStored(t, whole, s, x);
    hide StoresOk, PathKept, Harmless;
    WidestBounds(t.pages, p);
    SameCapacity(t.pages[p], x.pages[p], s + 1);
  }

  lemma LooksAhead(t: Tree, whole: Fence, s: nat, x: State, y: State)
    requires Ranges(t, whole, s) && RangeOk(t, whole, s, x) && RangeStep(whole, s, x, y) && x.pc.at.Looking?
    ensures Ahead(t, s, y.pc) < Ahead(t, s, x.pc)
  {
    hide *;
    LookingMoves(t, whole, s, x, y);
    if |x.pc.path| > 0 && x.pc.lower <= whole.upper { TopFits(t, whole, s, x); }
    SlotsAre(t, x.pc);
    SlotsAre(t, y.pc);
    OnPage(t, s, x.pc, y.pc);
  }

  lemma ChoosesAhead(t: Tree, whole: Fence, s: nat, x: State, y: State)
    requires Ranges(t, whole, s) && RangeOk(t, whole, s, x) && RangeStep(whole, s, x, y) && x.pc.at.Choosing?
    ensures Ahead(t, s, y.pc) < Ahead(t, s, x.pc)
  {
    hide *;
    RangeKeepsRange(t, whole, s, x, y);
    ChoosingAt(t, whole, s, x, y);
    var p, n := RangeReaders.Top(x.pc.path).page, x.pc.at.below;
    EntryDecides(x.pages[p], s, x.pc, n);
    SlotsAre(t, x.pc);
    if n == 0 {
      LeavesBehind(t, whole, s, x.pc);
      Nearer(t, s, x.pc, y.pc);
    } else if Fits(x.pages[p].entryData[n - 1], x.pc.lower, s) {
      GoesDown(t, whole, s, x, y);
      Nearer(t, s, x.pc, y.pc);
    } else {
      SlotsAre(t, y.pc);
      OnPage(t, s, x.pc, y.pc);
    }
  }

  lemma SlotsAre(t: Tree, pc: Ranging)
    ensures pc.at.Choosing? ==> Slots(t, pc.at) == pc.at.below + 1
    ensures pc.at.Taking? && pc.at.taken <= pc.at.count ==> Slots(t, pc.at) == pc.at.count - pc.at.taken + 1
    ensures pc.at.Looking? ==> Slots(t, pc.at) == Cost(t) > 1
    ensures pc.at.Complete? ==> Slots(t, pc.at) == 0
  {
  }

  /** No entry of the page has the bound: neither has its fence, and the stack gets shorter. */
  lemma LeavesBehind(t: Tree, whole: Fence, s: nat, pc: Ranging)
    requires PathKept(t, whole, s, pc) && |pc.path| > 0 && RangeReaders.Top(pc.path).page < |t.pages|
    requires t.pages[RangeReaders.Top(pc.path).page].Index?
    requires Passed(t.pages[RangeReaders.Top(pc.path).page], pc.lower, s, 0)
    ensures Popped(pc, pc.out, Looking).lower == pc.lower && Popped(pc, pc.out, Looking).at == Looking
    ensures Ground(t, Popped(pc, pc.out, Looking)) < Ground(t, pc)
  {
    TopRoute(t, pc.path, s, pc.lower);
    NoRoute(t.pages[RangeReaders.Top(pc.path).page], pc.lower, s);
    hide PathKept, PathOk, Kept, Shown, Passed, Route, StepOk, Below, HeightAt;
    if |pc.path| > 1 { NotTaller(t, pc.path[|pc.path| - 2].page); }
  }

  /** The child has the bound in its fence, as the page above it has, and is lower. */
  lemma DownOne(t: Tree, whole: Fence, s: nat, a: Ranging, b: Ranging, n: nat)
    requires PathKept(t, whole, s, a) && |a.path| > 0 && RangeReaders.Top(a.path).page < |t.pages|
    requires t.pages[RangeReaders.Top(a.path).page].Index? && 0 < n <= Sum(t.pages[RangeReaders.Top(a.path).page])
    requires Passed(t.pages[RangeReaders.Top(a.path).page], a.lower, s, n)
    requires Fits(t.pages[RangeReaders.Top(a.path).page].entryData[n - 1], a.lower, s)
    requires n <= |t.pages[RangeReaders.Top(a.path).page].entryData|
    requires var e := t.pages[RangeReaders.Top(a.path).page].entryData[n - 1];
             b == a.(path := a.path + [Step(e.fence, e.child)], at := Looking)
    ensures Ground(t, b) < Ground(t, a)
  {
    TopRoute(t, a.path, s, a.lower);
    LastIsRoute(t.pages[RangeReaders.Top(a.path).page], a.lower, s, n);
    EntersChild(t, whole, s, a, n);
    hide Kept, PathOk, Shown, Passed, Route, HeightAt, Entries, Sum, StepOk, Below;
    StackStep(t, b.path, s, b.lower, |a.path|);
  }

  lemma GoesDown(t: Tree, whole: Fence, s: nat, x: State, y: State)
    requires RangeOk(t, whole, s, x) && RangeStep(whole, s, x, y) && x.pc.at.Choosing?
    requires |x.pc.path| > 0 && RangeReaders.Top(x.pc.path).page < |x.pages| && x.pc.at.below > 0
    requires x.pages[RangeReaders.Top(x.pc.path).page].Index?
    requires x.pc.at.below <= Sum(x.pages[RangeReaders.Top(x.pc.path).page])
    requires x.pc.at.below <= |x.pages[RangeReaders.Top(x.pc.path).page].entryData|
    requires Fits(x.pages[RangeReaders.Top(x.pc.path).page].entryData[x.pc.at.below - 1], x.pc.lower, s)
    ensures y.pc.at.Looking? && y.pc.lower == x.pc.lower && Ground(t, y.pc) < Ground(t, x.pc)
  {
    hide *;
    ChoosingAt(t, whole, s, x, y);
    var p, n := RangeReaders.Top(x.pc.path).page, x.pc.at.below;
    TopStored(t, whole, s, x);
    EntryDecides(x.pages[p], s, x.pc, n);
    SlotKept(t.pages[p], x.pages[p], x.pc.lower, s, n - 1);
    FenceKept(t.pages[p], x.pages[p], s + 1, n - 1);
    DownOne(t, whole, s, x.pc, y.pc, n);
  }

  /** A leaf that is left has moved the bound on, unless it was the last one and empty. */
  lemma TakesAhead(t: Tree, whole: Fence, s: nat, x: State, y: State)
    requires Ranges(t, whole, s) && RangeOk(t, whole, s, x) && RangeStep(whole, s, x, y) && x.pc.at.Taking?
    ensures Ahead(t, s, y.pc) < Ahead(t, s, x.pc)
  {
    hide *;
    RangeKeepsRange(t, whole, s, x, y);
    TakingAt(t, whole, s, x, y);
    var p, i, n, batch := RangeReaders.Top(x.pc.path).page, x.pc.at.taken, x.pc.at.count, x.pc.at.batch;
    RecordDecides(x.pages[p], whole, s, x.pc, i, n, batch);
    SlotsAre(t, x.pc);
    if i < n {
      SlotsAre(t, y.pc);
      OnPage(t, s, x.pc, y.pc);
    } else {
      AtLeafEnd(t, whole, s, x.pc, y.pc, i, batch);
      if y.pc.at.Complete? { CompleteIsNone(t, s, x.pc, y.pc); } else { Further(t, whole, s, x.pc, y.pc); }
    }
  }

  lemma CompleteIsNone(t: Tree, s: nat, a: Ranging, b: Ranging)
    requires b.at.Complete? && !a.at.Complete? && !a.at.Starting? && Slots(t, a.at) > 0
    ensures Ahead(t, s, b) < Ahead(t, s, a)
  {
    hide Round, Rounds, Prod, Slots;
  }

  lemma AtLeafEnd(t: Tree, whole: Fence, s: nat, a: Ranging, b: Ranging, i: nat, batch: seq<Pair>)
    requires Ranges(t, whole, s) && PathKept(t, whole, s, a) && |a.path| > 0
    requires RangeReaders.Top(a.path).page < |t.pages| && t.pages[RangeReaders.Top(a.path).page].Leaf?
    requires Sum(t.pages[RangeReaders.Top(a.path).page]) <= i
    requires Took(t.pages[RangeReaders.Top(a.path).page], Fence(a.lower, whole.upper), s, i, batch)
    requires b == Popped(a, a.out + batch, if |batch| == 0 && IncKey(RangeReaders.Top(a.path).fence.upper) == MAX_KEY
                         then Complete else Looking)
    ensures b.at.Complete? || (b.at.Looking? && PathKept(t, whole, s, b)
                               && Rounds(t, s, b.lower) < Rounds(t, s, a.lower))
  {
    LeafEnds(t, whole, s, a, b, i, batch);
    var p := RangeReaders.Top(a.path).page;
    TopPage(t, a.path, s, a.lower);
    TookAll(t.pages[p], Fence(a.lower, whole.upper), s, i, batch);
    hide PathKept, PathOk, Shown, ShownAll, Took, Inv, ReadableLeaf, KeysBelowMax, Batch, LeavesFrom, Rounds;
    if a.lower == MAX_KEY { NothingTaken(t, p, s, whole); } else { OneLess(t, s, p, a.lower); }
  }

  /** The leaf is behind the bound now, or the bound has come to the largest key. */
  lemma OneLess(t: Tree, s: nat, p: nat, lower: nat)
    requires PartAt(t, p, s) && t.meta[p].height == 1 && Contains(t.meta[p].fence, lower) && lower < MAX_KEY
    ensures Rounds(t, s, IncKey(t.meta[p].fence.upper)) < Rounds(t, s, lower)
  {
    var next := IncKey(t.meta[p].fence.upper);
    var a, b := LeavesFrom(t, s, next), LeavesFrom(t, s, lower);
    assert lower < next && a <= b by { hide PartAt; assert lower < next; }
    Smaller(a, b);
    if next < MAX_KEY {
      assert p in b && p !in a;
      Smaller(a, b - {p});
    }
  }

  /** No record has the largest key. */
  lemma NothingTaken(t: Tree, leaf: nat, s: nat, whole: Fence)
    requires ReadableLeaf(t, leaf, s) && KeysBelowMax(t.history)
    ensures Pairs(Batch(Records(t.pages[leaf]), Fence(MAX_KEY, whole.upper), s)) == []
  {
    var range := Fence(MAX_KEY, whole.upper);
    var batch := Batch(Records(t.pages[leaf]), range, s);
    hide ReadableLeaf, KeysBelowMax, Batch;
    if |batch| > 0 {
      BatchMember(t, leaf, range, s, batch[0]);
    }
  }

  /** Every step of the range reader brings its end closer, whatever the writers do. */
  lemma RangeAdvances(t: Tree, whole: Fence, s: nat, x: State, y: State)
    requires Ranges(t, whole, s) && RangeOk(t, whole, s, x) && RangeStep(whole, s, x, y)
    ensures Ahead(t, s, y.pc) < Ahead(t, s, x.pc)
  {
    hide *;
    match x.pc.at {
      case Starting => BeginsAhead(t, whole, s, x, y);
      case Looking => LooksAhead(t, whole, s, x, y);
      case Choosing(_) => ChoosesAhead(t, whole, s, x, y);
      case Taking(_, _, _) => TakesAhead(t, whole, s, x, y);
      case Complete => NoStep(whole, s, x, y);
    }
  }

  // ---------------------------------------------------------------- whole runs

  lemma RunShorter(t: Tree, whole: Fence, s: nat, run: seq<State>)
    requires RangeRun(t, whole, s, run)
    ensures |run| > 1 ==>
              && RangeRun(t, whole, s, run[..|run| - 1])
              && var x, y := run[|run| - 2], run[|run| - 1]; WriterStep(t, s, x, y) || RangeStep(whole, s, x, y)
    ensures |run| == 1 ==> run[0].pc.at == Starting && Loads(run) == 0
  {
    hide StoresOk, WriterStep, RangeStep;
  }

  lemma StepIsBounded(t: Tree, whole: Fence, s: nat, x: State, y: State)
    requires Ranges(t, whole, s) && RangeOk(t, whole, s, x) && (WriterStep(t, s, x, y) || RangeStep(whole, s, x, y))
    ensures (if y.pc == x.pc then 0 else 1) + Ahead(t, s, y.pc) <= Ahead(t, s, x.pc)
  {
    hide *;
    if WriterStep(t, s, x, y) { SamePc(t, s, x, y); } else { RangeAdvances(t, whole, s, x, y); }
  }

  lemma {:induction false} LoadsBounded(t: Tree, whole: Fence, s: nat, run: seq<State>)
    requires |run| > 0 && Ranges(t, whole, s) && RangeRun(t, whole, s, run)
    ensures Loads(run) + Ahead(t, s, run[|run| - 1].pc) <= Ahead(t, s, run[0].pc) && run[0].pc.at == Starting
  {
    hide *;
    var n := |run|;
    RunShorter(t, whole, s, run);
    if n > 1 {
      var init := run[..n - 1];
      LoadsBounded(t, whole, s, init);
      RangeRunAnswers(t, whole, s, init);
      assert init[|init| - 1] == run[n - 2] && init[0] == run[0];
      StepIsBounded(t, whole, s, run[n - 2], run[n - 1]);
      LoadsStep(run, run[n - 2], run[n - 1]);
    }
  }

  /** In every interleaving the number of loads has a bound that the stores of the writers have no part in. */
  lemma RangeRunIsBounded(t: Tree, whole: Fence, s: nat, run: seq<State>)
    requires Ranges(t, whole, s) && RangeRun(t, whole, s, run)
    ensures Loads(run) <= (|t.meta| + 2) * ((2 * Tallest(t.meta) + 3) * (Widest(t.pages) + 2))
  {
    assert |run| > 0;
    hide *;
    LoadsBounded(t, whole, s, run);
    AheadIs(t, s, run[0].pc);
    RoundIs(t);
  }

  lemma RoundIs(t: Tree)
    ensures Prod(|t.meta| + 2, Round(t)) == (|t.meta| + 2) * ((2 * Tallest(t.meta) + 3) * (Widest(t.pages) + 2))
  {
    hide Tallest, Widest;
  }
}
