/**
 A latch-free range reader as a state machine: it walks the tree page by page and slot by slot, and
 any number of writers store into the same pages between its steps.
 */
module RangeReaders {
  import opened Util
  import opened Fences
  import opened History
  import opened Pages
  import opened TreeModel
  import opened LeafWrites
  import opened Snapshots
  import opened TreeSteps
  import opened RangeIter
  import opened Stability
  import opened Readers

  /** Where the reader is in its loop; `below`, `taken` and `count` are places on the page on top of the stack. */
  datatype Point =
    | Starting
    | Looking
    | Choosing(below: nat)
    | Taking(taken: nat, count: nat, batch: seq<Pair>)
    | Complete

  /** What has been delivered or buffered, the stack, and the lower bound of the rest of the interval. */
  datatype Ranging = Ranging(out: seq<Pair>, path: seq<Step>, lower: nat, at: Point)

  type State = World<Ranging>

  // ---------------------------------------------------------------- the steps

  function Top(path: seq<Step>): Step
    requires |path| > 0
  {
    path[|path| - 1]
  }

  /** Leaving the top page: the bound moves behind it. */
  function Popped(pc: Ranging, out: seq<Pair>, at: Point): Ranging
    requires |pc.path| > 0
  {
    Ranging(out, pc.path[..|pc.path| - 1], IncKey(Top(pc.path).fence.upper), at)
  }

  /** One load of the reader of interval `whole` at snapshot `s`. */
  ghost predicate RangeStep(whole: Fence, s: nat, x: State, y: State) {
    && y.pages == x.pages && y.roots == x.roots
    && match x.pc.at
       case Starting =>
         var r := RootFor(x.roots, s);
         r.Some? && y.pc == Ranging([], [Step(FULL, x.roots[r.value].page)], whole.lower, Looking)
       case Looking =>
         if |x.pc.path| == 0 || x.pc.lower > whole.upper then y.pc == x.pc.(at := Complete)
         else
           && Top(x.pc.path).page < |x.pages|
           && var page := x.pages[Top(x.pc.path).page];
              y.pc == x.pc.(at := if page.Index? then Choosing(Sum(page)) else Taking(0, Sum(page), []))
       case Choosing(n) =>
         && |x.pc.path| > 0 && Top(x.pc.path).page < |x.pages| && n <= Sum(x.pages[Top(x.pc.path).page])
         && y.pc == AfterEntry(x.pages[Top(x.pc.path).page], s, x.pc, n)
       case Taking(i, n, batch) =>
         && |x.pc.path| > 0 && Top(x.pc.path).page < |x.pages| && i <= n <= Sum(x.pages[Top(x.pc.path).page])
         && y.pc == AfterRecord(x.pages[Top(x.pc.path).page], whole, s, x.pc, i, n, batch)
       case Complete => false
  }

  /** After a look at entry `n - 1`: down to its child, or on to the entry before it, or off the page. */
  ghost function AfterEntry(page: Page, s: nat, pc: Ranging, n: nat): Ranging
    requires |pc.path| > 0 && n <= Sum(page)
  {
    if n == 0 || page.Leaf? then Popped(pc, pc.out, Looking)
    else
      var e := page.entryData[n - 1];
      if Fits(e, pc.lower, s) then pc.(path := pc.path + [Step(e.fence, e.child)], at := Looking)
      else pc.(at := Choosing(n - 1))
  }

  /**
   After a look at record `i`; at the end of the leaf its batch is delivered, and an empty one at the
   largest key ends the read.
   */
  ghost function AfterRecord(page: Page, whole: Fence, s: nat, pc: Ranging, i: nat, n: nat, batch: seq<Pair>): Ranging
    requires |pc.path| > 0 && i <= n <= Sum(page)
  {
    if i == n || page.Index? then
      Popped(pc, pc.out + batch, if |batch| == 0 && IncKey(Top(pc.path).fence.upper) == MAX_KEY then Complete
             else Looking)
    else
      var r := page.recordData[i];
      pc.(at := Taking(i + 1, n, batch + if Wanted(r, Fence(pc.lower, whole.upper), s) then [Pair(r.key, r.payload)]
                       else []))
  }

  // ---------------------------------------------------------------- the invariant of a run

  /** The pairs are those of the records collected so far, in the order of their leaves. */
  ghost predicate Shown(t: Tree, s: nat, whole: Fence, lower: nat, out: seq<Pair>) {
    exists rs: seq<Record> :: Pairs(rs) == out && Collected(t.history, s, whole, lower, rs) && Ascending(t, s, rs)
  }

  /** The pairs are those of all records of the interval. */
  ghost predicate ShownAll(t: Tree, s: nat, whole: Fence, out: seq<Pair>) {
    exists rs: seq<Record> :: Pairs(rs) == out && Everything(t.history, s, whole, rs) && Ascending(t, s, rs)
  }

  ghost predicate PathKept(t: Tree, whole: Fence, s: nat, pc: Ranging) {
    && Kept(t, s, pc.lower) && whole.lower <= pc.lower && PathOk(t, pc.path, s, pc.lower)
    && Shown(t, s, whole, pc.lower, pc.out)
  }

  /** The top page is on both sides of the stores, and there is something left of the interval. */
  ghost predicate OnTop(t: Tree, whole: Fence, x: State) {
    && |x.pc.path| > 0 && x.pc.lower <= whole.upper
    && Top(x.pc.path).page < |t.pages| && Top(x.pc.path).page < |x.pages|
    && x.pages[Top(x.pc.path).page].Leaf? == t.pages[Top(x.pc.path).page].Leaf?
  }

  /** What the reader has taken of the leaf: the pairs of its first `i` records. */
  ghost predicate Took(p: Page, range: Fence, s: nat, i: nat, batch: seq<Pair>)
    requires p.Leaf?
  {
    batch == Pairs(Batch(Records(p)[..Min(i, |Records(p)|)], range, s))
  }

  ghost predicate PointOk(t: Tree, whole: Fence, s: nat, x: State) {
    match x.pc.at
    case Starting => true
    case Looking => PathKept(t, whole, s, x.pc)
    case Choosing(n) =>
      && PathKept(t, whole, s, x.pc) && OnTop(t, whole, x) && t.pages[Top(x.pc.path).page].Index?
      && n <= Sum(x.pages[Top(x.pc.path).page]) && Passed(t.pages[Top(x.pc.path).page], x.pc.lower, s, n)
    case Taking(i, n, batch) =>
      && PathKept(t, whole, s, x.pc) && OnTop(t, whole, x) && t.pages[Top(x.pc.path).page].Leaf?
      && i <= n <= Sum(x.pages[Top(x.pc.path).page]) && Sum(t.pages[Top(x.pc.path).page]) <= n
      && Took(t.pages[Top(x.pc.path).page], Fence(x.pc.lower, whole.upper), s, i, batch)
    case Complete => ShownAll(t, s, whole, x.pc.out)
  }

  ghost predicate Ranges(t: Tree, whole: Fence, s: nat) {
    Inv(t) && KeysBelowMax(t.history) && t.horizon <= s && whole.lower <= MAX_KEY
  }

  ghost predicate RangeOk(t: Tree, whole: Fence, s: nat, x: State) { StoresOk(t, s, x) && PointOk(t, whole, s, x) }

  // ---------------------------------------------------------------- stores of others

  lemma TopIsPart(t: Tree, whole: Fence, s: nat, pc: Ranging)
    requires PathKept(t, whole, s, pc) && |pc.path| > 0
    ensures PartAt(t, Top(pc.path).page, s)
  {
    hide Kept, Shown;
    assert StepOk(t, Top(pc.path), s);
  }

  /** The top page as the reader finds it has grown by harmless stores. */
  lemma TopStored(t: Tree, whole: Fence, s: nat, x: State)
    requires StoresOk(t, s, x) && PathKept(t, whole, s, x.pc) && |x.pc.path| > 0
    ensures var p := Top(x.pc.path).page;
            && p < |x.pages| && p < |t.pages| && Harmless(t.pages[p], x.pages[p], s + 1)
            && Sum(t.pages[p]) <= Sum(x.pages[p])
            && x.pages[p].Leaf? == t.pages[p].Leaf?
  {
    TopIsPart(t, whole, s, x.pc);
    hide PathKept, Harmless;
    HarmlessGrows(t.pages[Top(x.pc.path).page], x.pages[Top(x.pc.path).page], s + 1);
    SameKind(t.pages[Top(x.pc.path).page], x.pages[Top(x.pc.path).page], s + 1);
  }

  lemma WriterKeepsRange(t: Tree, whole: Fence, s: nat, x: State, y: State)
    requires RangeOk(t, whole, s, x) && WriterStep(t, s, x, y)
    ensures RangeOk(t, whole, s, y)
  {
    WriterKeepsStores(t, s, x, y);
    SamePc(t, s, x, y);
    if x.pc.at.Choosing? || x.pc.at.Taking? {
      TopIsPart(t, whole, s, x.pc);
      TopStored(t, whole, s, y);
    }
    hide StoresOk, PathKept, Passed, Took, ShownAll, WriterStep, PartAt, Harmless;
  }

  lemma SamePc(t: Tree, s: nat, x: State, y: State)
    requires WriterStep(t, s, x, y)
    ensures y.pc == x.pc && |x.pages| <= |y.pages|
  {
  }

  // ---------------------------------------------------------------- steps of the reader

  lemma NothingShown(t: Tree, s: nat, whole: Fence)
    ensures Shown(t, s, whole, whole.lower, [])
  {
    var none: seq<Record> := [];
    assert Pairs(none) == [] && Collected(t.history, s, whole, whole.lower, none) && Ascending(t, s, none);
  }

  lemma StartingStep(t: Tree, whole: Fence, s: nat, x: State, y: State)
    requires Ranges(t, whole, s) && StoresOk(t, s, x) && x.pc.at.Starting? && RangeStep(whole, s, x, y)
    ensures PointOk(t, whole, s, y)
  {
    RootStored(t, s, x);
    NothingShown(t, s, whole);
    hide Inv, RootFor, PathOk, Shown, StoresOk;
    StartPath(t, s, whole.lower);
  }

  lemma ShownIsAll(t: Tree, whole: Fence, s: nat, lower: nat, out: seq<Pair>)
    requires KeysBelowMax(t.history) && Shown(t, s, whole, lower, out)
    requires (lower > whole.upper || lower == MAX_KEY)
    ensures ShownAll(t, s, whole, out)
  {
    hide Collected, Everything, Ascending, KeysBelowMax;
    var rs: seq<Record> :| Pairs(rs) == out && Collected(t.history, s, whole, lower, rs) && Ascending(t, s, rs);
    CollectedAll(t.history, s, whole, lower, rs);
  }

  lemma LookingMoves(t: Tree, whole: Fence, s: nat, x: State, y: State)
    requires RangeOk(t, whole, s, x) && x.pc.at.Looking? && RangeStep(whole, s, x, y)
    ensures PathKept(t, whole, s, x.pc) && StoresOk(t, s, x) && y.pages == x.pages
    ensures if |x.pc.path| == 0 || x.pc.lower > whole.upper then y.pc == x.pc.(at := Complete)
            else
              && Top(x.pc.path).page < |x.pages|
              && var page := x.pages[Top(x.pc.path).page];
                 y.pc == x.pc.(at := if page.Index? then Choosing(Sum(page)) else Taking(0, Sum(page), []))
  {
    hide StoresOk, PathKept, AfterEntry, AfterRecord;
  }

  lemma LookingStep(t: Tree, whole: Fence, s: nat, x: State, y: State)
    requires Ranges(t, whole, s) && RangeOk(t, whole, s, x) && x.pc.at.Looking? && RangeStep(whole, s, x, y)
    ensures PointOk(t, whole, s, y)
  {
    hide *;
    LookingMoves(t, whole, s, x, y);
    if |x.pc.path| == 0 || x.pc.lower > whole.upper {
      NothingLeft(t, whole, s, x.pc);
      AtEnd(t, whole, s, y);
    } else {
      TopStored(t, whole, s, x);
      var p := Top(x.pc.path).page;
      PathKeptStays(t, whole, s, x.pc, y.pc);
      OnTopIs(t, whole, y);
      if t.pages[p].Index? {
        PassedNone(t.pages[p], x.pages[p], x.pc.lower, s);
        ChoosingIs(t, whole, s, y);
      } else {
        TookNone(t.pages[p], Fence(x.pc.lower, whole.upper), s);
        TakingIs(t, whole, s, y);
      }
    }
  }

  lemma OnTopIs(t: Tree, whole: Fence, x: State)
    requires |x.pc.path| > 0 && x.pc.lower <= whole.upper && Top(x.pc.path).page < |t.pages|
    requires Top(x.pc.path).page < |x.pages|
    requires x.pages[Top(x.pc.path).page].Leaf? == t.pages[Top(x.pc.path).page].Leaf?
    ensures OnTop(t, whole, x)
  {
  }

  /** With the stack empty or the bound past the interval everything has been delivered. */
  lemma NothingLeft(t: Tree, whole: Fence, s: nat, pc: Ranging)
    requires Ranges(t, whole, s) && PathKept(t, whole, s, pc) && (|pc.path| == 0 || pc.lower > whole.upper)
    ensures ShownAll(t, s, whole, pc.out)
  {
    EmptyPath(t, pc.path, s, pc.lower);
    hide Inv, Kept, PathOk, Shown, ShownAll;
    ShownIsAll(t, whole, s, pc.lower, pc.out);
  }

  lemma PassedNone(p: Page, q: Page, k: nat, s: nat)
    requires Sum(p) <= Sum(q)
    ensures Passed(p, k, s, Sum(q))
  {
  }

  lemma TookNone(p: Page, range: Fence, s: nat)
    requires p.Leaf?
    ensures Took(p, range, s, 0, [])
  {
    assert Records(p)[..0] == [];
  }

  lemma ChoosingMoves(t: Tree, whole: Fence, s: nat, x: State, y: State)
    requires RangeOk(t, whole, s, x) && x.pc.at.Choosing? && RangeStep(whole, s, x, y)
    ensures PathKept(t, whole, s, x.pc) && OnTop(t, whole, x) && StoresOk(t, s, x) && y.pages == x.pages
    ensures var p, n := Top(x.pc.path).page, x.pc.at.below;
            && t.pages[p].Index? && n <= Sum(x.pages[p]) && Passed(t.pages[p], x.pc.lower, s, n)
            && y.pc == AfterEntry(x.pages[p], s, x.pc, n)
  {
    hide StoresOk, PathKept, AfterEntry, AfterRecord, Passed;
  }

  lemma ChoosingIs(t: Tree, whole: Fence, s: nat, x: State)
    requires x.pc.at.Choosing? && PathKept(t, whole, s, x.pc) && OnTop(t, whole, x)
    requires t.pages[Top(x.pc.path).page].Index?
    requires x.pc.at.below <= Sum(x.pages[Top(x.pc.path).page])
    requires Passed(t.pages[Top(x.pc.path).page], x.pc.lower, s, x.pc.at.below)
    ensures PointOk(t, whole, s, x)
  {
    hide PathKept, OnTop, Passed, Sum;
  }

  lemma LookingIs(t: Tree, whole: Fence, s: nat, x: State)
    requires x.pc.at.Looking? && PathKept(t, whole, s, x.pc)
    ensures PointOk(t, whole, s, x)
  {
    hide PathKept;
  }

  /** What the look at entry `n - 1` decides. */
  lemma EntryDecides(page: Page, s: nat, pc: Ranging, n: nat)
    requires |pc.path| > 0 && n <= Sum(page) && page.Index?
    ensures Sum(page) <= |page.entryData|
    ensures n == 0 ==> AfterEntry(page, s, pc, n) == Popped(pc, pc.out, Looking)
    ensures n > 0 && Fits(page.entryData[n - 1], pc.lower, s) ==>
              AfterEntry(page, s, pc, n)
              == pc.(path := pc.path + [Step(page.entryData[n - 1].fence, page.entryData[n - 1].child)], at := Looking)
    ensures n > 0 && !Fits(page.entryData[n - 1], pc.lower, s) ==>
              AfterEntry(page, s, pc, n) == pc.(at := Choosing(n - 1))
  {
    hide Fits;
  }

  lemma OnTopStays(t: Tree, whole: Fence, x: State, y: State)
    requires OnTop(t, whole, x) && y.pages == x.pages && y.pc.path == x.pc.path && y.pc.lower == x.pc.lower
    ensures OnTop(t, whole, y)
  {
  }

  lemma PathKeptStays(t: Tree, whole: Fence, s: nat, a: Ranging, b: Ranging)
    requires PathKept(t, whole, s, a) && b == a.(at := b.at)
    ensures PathKept(t, whole, s, b)
  {
    hide Kept, PathOk, Shown;
  }

  lemma ChoosingStep(t: Tree, whole: Fence, s: nat, x: State, y: State)
    requires Ranges(t, whole, s) && RangeOk(t, whole, s, x) && x.pc.at.Choosing? && RangeStep(whole, s, x, y)
    ensures PointOk(t, whole, s, y)
  {
    hide *;
    ChoosingAt(t, whole, s, x, y);
    var p, n := Top(x.pc.path).page, x.pc.at.below;
    TopStored(t, whole, s, x);
    EntryDecides(x.pages[p], s, x.pc, n);
    if n == 0 {
      LeavesIndex(t, whole, s, x.pc);
      PoppedAt(x.pc, x.pc.out, Looking);
      LookingIs(t, whole, s, y);
    } else {
      SlotKept(t.pages[p], x.pages[p], x.pc.lower, s, n - 1);
      PassedOne(t.pages[p], x.pc.lower, s, n);
      if Fits(x.pages[p].entryData[n - 1], x.pc.lower, s) {
        FenceKept(t.pages[p], x.pages[p], s + 1, n - 1);
        EntersChild(t, whole, s, x.pc, n);
        LookingIs(t, whole, s, y);
      } else {
        PathKeptStays(t, whole, s, x.pc, y.pc);
        OnTopStays(t, whole, x, y);
        ChoosingIs(t, whole, s, y);
      }
    }
  }

  lemma ChoosingAt(t: Tree, whole: Fence, s: nat, x: State, y: State)
    requires RangeOk(t, whole, s, x) && x.pc.at.Choosing? && RangeStep(whole, s, x, y)
    ensures |x.pc.path| > 0 && Top(x.pc.path).page < |t.pages| && Top(x.pc.path).page < |x.pages|
    ensures x.pages[Top(x.pc.path).page].Index?
    ensures PathKept(t, whole, s, x.pc) && OnTop(t, whole, x) && StoresOk(t, s, x) && y.pages == x.pages
    ensures var p, n := Top(x.pc.path).page, x.pc.at.below;
            && t.pages[p].Index? && n <= Sum(x.pages[p]) && Passed(t.pages[p], x.pc.lower, s, n)
            && y.pc == AfterEntry(x.pages[p], s, x.pc, n)
  {
    ChoosingMoves(t, whole, s, x, y);
    hide RangeOk, RangeStep, PathKept, StoresOk, AfterEntry, Passed, Sum;
  }

  lemma PoppedAt(pc: Ranging, out: seq<Pair>, at: Point)
    requires |pc.path| > 0
    ensures Popped(pc, out, at).at == at && Popped(pc, out, at).out == out
    ensures Popped(pc, out, at).lower == IncKey(Top(pc.path).fence.upper)
  {
  }

  lemma FenceKept(p: Page, q: Page, w: nat, i: nat)
    requires Harmless(p, q, w) && p.Index? && i < Sum(p)
    ensures i < |p.entryData| && i < |q.entryData| && q.entryData[i].fence == p.entryData[i].fence
  {
  }

  /** No entry of the top page holds the bound: it lies right behind the page. */
  lemma LeavesIndex(t: Tree, whole: Fence, s: nat, pc: Ranging)
    requires PathKept(t, whole, s, pc) && |pc.path| > 0 && Top(pc.path).page < |t.pages|
    requires t.pages[Top(pc.path).page].Index?
    requires Passed(t.pages[Top(pc.path).page], pc.lower, s, 0)
    ensures PathKept(t, whole, s, Popped(pc, pc.out, Looking))
  {
    var p := Top(pc.path).page;
    TopRoute(t, pc.path, s, pc.lower);
    NoRoute(t.pages[p], pc.lower, s);
    hide Inv, PathOk, Kept, Shown, Passed, Route;
    PopStep(t, pc.path, s, pc.lower);
    SameBound(t, s, pc.lower, IncKey(Top(pc.path).fence.upper));
  }

  lemma NoRoute(p: Page, k: nat, s: nat)
    requires p.Index? && Passed(p, k, s, 0)
    ensures Route(Entries(p), k, s).None?
  {
    assert forall i :: 0 <= i < |Entries(p)| ==> !Fits(Entries(p)[i], k, s);
  }

  lemma SameBound(t: Tree, s: nat, lower: nat, next: nat)
    requires Kept(t, s, lower) && next == lower
    ensures Kept(t, s, next)
  {
  }

  lemma EntersChild(t: Tree, whole: Fence, s: nat, pc: Ranging, n: nat)
    requires PathKept(t, whole, s, pc) && |pc.path| > 0 && Top(pc.path).page < |t.pages|
    requires t.pages[Top(pc.path).page].Index?
    requires 0 < n <= Sum(t.pages[Top(pc.path).page]) && Passed(t.pages[Top(pc.path).page], pc.lower, s, n)
    requires Fits(t.pages[Top(pc.path).page].entryData[n - 1], pc.lower, s)
    ensures n <= |t.pages[Top(pc.path).page].entryData|
    ensures var e := t.pages[Top(pc.path).page].entryData[n - 1];
            PathKept(t, whole, s, pc.(path := pc.path + [Step(e.fence, e.child)], at := Looking))
  {
    var p := t.pages[Top(pc.path).page];
    TopRoute(t, pc.path, s, pc.lower);
    LastIsRoute(p, pc.lower, s, n);
    hide Inv, PathOk, Kept, Shown, Passed, Route, StepOk, Below, Entries, Sum, Fits, Contains;
    PushStep(t, pc.path, s, pc.lower, Step(p.entryData[n - 1].fence, p.entryData[n - 1].child));
  }

  lemma LastIsRoute(p: Page, k: nat, s: nat, n: nat)
    requires p.Index? && 0 < n <= Sum(p) && Passed(p, k, s, n) && Fits(p.entryData[n - 1], k, s)
    ensures Route(Entries(p), k, s) == Some(n - 1) && n - 1 < |Entries(p)| && Entries(p)[n - 1] == p.entryData[n - 1]
  {
    var es := Entries(p);
    assert es[n - 1] == p.entryData[n - 1];
    assert forall j :: n <= j < |es| ==> !Fits(es[j], k, s);
  }

  // ---------------------------------------------------------------- leaves

  lemma TakingMoves(t: Tree, whole: Fence, s: nat, x: State, y: State)
    requires RangeOk(t, whole, s, x) && x.pc.at.Taking? && RangeStep(whole, s, x, y)
    ensures PathKept(t, whole, s, x.pc) && OnTop(t, whole, x) && StoresOk(t, s, x) && y.pages == x.pages
    ensures var p, i, n := Top(x.pc.path).page, x.pc.at.taken, x.pc.at.count;
            && t.pages[p].Leaf? && i <= n <= Sum(x.pages[p]) && Sum(t.pages[p]) <= n
            && Took(t.pages[p], Fence(x.pc.lower, whole.upper), s, i, x.pc.at.batch)
            && y.pc == AfterRecord(x.pages[p], whole, s, x.pc, i, n, x.pc.at.batch)
  {
    hide StoresOk, PathKept, AfterEntry, AfterRecord, Took;
  }

  lemma TakingIs(t: Tree, whole: Fence, s: nat, x: State)
    requires x.pc.at.Taking? && PathKept(t, whole, s, x.pc) && OnTop(t, whole, x) && t.pages[Top(x.pc.path).page].Leaf?
    requires x.pc.at.taken <= x.pc.at.count <= Sum(x.pages[Top(x.pc.path).page])
    requires Sum(t.pages[Top(x.pc.path).page]) <= x.pc.at.count
    requires Took(t.pages[Top(x.pc.path).page], Fence(x.pc.lower, whole.upper), s, x.pc.at.taken, x.pc.at.batch)
    ensures PointOk(t, whole, s, x)
  {
    hide PathKept, OnTop, Took, Sum;
  }

  lemma TakingAt(t: Tree, whole: Fence, s: nat, x: State, y: State)
    requires RangeOk(t, whole, s, x) && x.pc.at.Taking? && RangeStep(whole, s, x, y)
    ensures |x.pc.path| > 0 && Top(x.pc.path).page < |t.pages| && Top(x.pc.path).page < |x.pages|
    ensures x.pages[Top(x.pc.path).page].Leaf?
    ensures PathKept(t, whole, s, x.pc) && OnTop(t, whole, x) && StoresOk(t, s, x) && y.pages == x.pages
    ensures var p, i, n := Top(x.pc.path).page, x.pc.at.taken, x.pc.at.count;
            && t.pages[p].Leaf? && i <= n <= Sum(x.pages[p]) && Sum(t.pages[p]) <= n
            && Took(t.pages[p], Fence(x.pc.lower, whole.upper), s, i, x.pc.at.batch)
            && y.pc == AfterRecord(x.pages[p], whole, s, x.pc, i, n, x.pc.at.batch)
  {
    TakingMoves(t, whole, s, x, y);
    hide RangeOk, RangeStep, PathKept, StoresOk, AfterRecord, Took, Sum;
  }

  /** What the look at record `i` decides. */
  lemma RecordDecides(page: Page, whole: Fence, s: nat, pc: Ranging, i: nat, n: nat, batch: seq<Pair>)
    requires |pc.path| > 0 && i <= n <= Sum(page) && page.Leaf?
    ensures Sum(page) <= |page.recordData|
    ensures i == n ==> AfterRecord(page, whole, s, pc, i, n, batch)
                       == Popped(pc, pc.out + batch, if |batch| == 0
                                 && IncKey(Top(pc.path).fence.upper) == MAX_KEY then Complete else Looking)
    ensures i < n ==> var r := page.recordData[i];
                      AfterRecord(page, whole, s, pc, i, n, batch)
                      == pc.(at := Taking(i + 1, n,
                                          batch + if Wanted(r, Fence(pc.lower, whole.upper), s) then
                                            [Pair(r.key, r.payload)] else []))
  {
    hide Wanted;
  }

  lemma TakingStep(t: Tree, whole: Fence, s: nat, x: State, y: State)
    requires Ranges(t, whole, s) && RangeOk(t, whole, s, x) && x.pc.at.Taking? && RangeStep(whole, s, x, y)
    ensures PointOk(t, whole, s, y)
  {
    hide *;
    TakingAt(t, whole, s, x, y);
    var p, i, n, batch := Top(x.pc.path).page, x.pc.at.taken, x.pc.at.count, x.pc.at.batch;
    TopStored(t, whole, s, x);
    RecordDecides(x.pages[p], whole, s, x.pc, i, n, batch);
    if i == n {
      LeafEnds(t, whole, s, x.pc, y.pc, i, batch);
      AtEnd(t, whole, s, y);
    } else {
      TakesOne(t.pages[p], x.pages[p], Fence(x.pc.lower, whole.upper), s, i, batch);
      PathKeptStays(t, whole, s, x.pc, y.pc);
      OnTopStays(t, whole, x, y);
      TakingIs(t, whole, s, y);
    }
  }

  /** The end of a leaf: the read goes on behind it, or has nothing left. */
  lemma LeafEnds(t: Tree, whole: Fence, s: nat, a: Ranging, b: Ranging, i: nat, batch: seq<Pair>)
    requires Ranges(t, whole, s) && PathKept(t, whole, s, a) && |a.path| > 0
    requires Top(a.path).page < |t.pages| && t.pages[Top(a.path).page].Leaf? && Sum(t.pages[Top(a.path).page]) <= i
    requires Took(t.pages[Top(a.path).page], Fence(a.lower, whole.upper), s, i, batch)
    requires b == Popped(a, a.out + batch, if |batch| == 0 && IncKey(Top(a.path).fence.upper) == MAX_KEY then Complete
                         else Looking)
    ensures if b.at.Complete? then ShownAll(t, s, whole, b.out) else b.at.Looking? && PathKept(t, whole, s, b)
  {
    LeafShown(t, whole, s, a, i, batch);
    hide Took, ShownAll, Inv;
    if b.at.Complete? {
      PathShown(t, whole, s, b);
      hide PathKept, Shown, KeysBelowMax;
      ShownIsAll(t, whole, s, b.lower, b.out);
    }
  }

  lemma AtEnd(t: Tree, whole: Fence, s: nat, x: State)
    requires if x.pc.at.Complete? then ShownAll(t, s, whole, x.pc.out)
             else x.pc.at.Looking? && PathKept(t, whole, s, x.pc)
    ensures PointOk(t, whole, s, x)
  {
    hide ShownAll, PathKept;
  }

  lemma PathShown(t: Tree, whole: Fence, s: nat, pc: Ranging)
    requires PathKept(t, whole, s, pc)
    ensures Shown(t, s, whole, pc.lower, pc.out)
  {
  }

  /** One more record: kept if it is one of the snapshot, and then it was there before the stores. */
  lemma TakesOne(p: Page, q: Page, range: Fence, s: nat, i: nat, batch: seq<Pair>)
    requires Harmless(p, q, s + 1) && p.Leaf? && i < Sum(q) && Took(p, range, s, i, batch)
    ensures i < |q.recordData|
    ensures var r := q.recordData[i];
            Took(p, range, s, i + 1, batch + if Wanted(r, range, s) then [Pair(r.key, r.payload)] else [])
  {
    var rs, r := Records(p), q.recordData[i];
    if i < Sum(p) {
      assert RecordKept(rs[i], r, s + 1);
      SameMatch(rs[i], r, s + 1, s);
      assert rs[..i + 1] == rs[..i] + [rs[i]];
      hide Batch, Pairs, Harmless;
      BatchSnoc(rs[..i], rs[i], range, s);
    } else {
      assert !r.Matches(s);
      assert rs[..Min(i, |rs|)] == rs == rs[..Min(i + 1, |rs|)];
    }
  }

  /** At the end of the leaf the batch is what a reader alone would have taken there. */
  lemma LeafShown(t: Tree, whole: Fence, s: nat, pc: Ranging, i: nat, batch: seq<Pair>)
    requires Ranges(t, whole, s) && PathKept(t, whole, s, pc) && |pc.path| > 0
    requires Top(pc.path).page < |t.pages| && t.pages[Top(pc.path).page].Leaf? && Sum(t.pages[Top(pc.path).page]) <= i
    requires Took(t.pages[Top(pc.path).page], Fence(pc.lower, whole.upper), s, i, batch)
    ensures forall at :: PathKept(t, whole, s, Popped(pc, pc.out + batch, at))
  {
    var p, range := Top(pc.path).page, Fence(pc.lower, whole.upper);
    TookAll(t.pages[p], range, s, i, batch);
    TopPage(t, pc.path, s, pc.lower);
    BatchShown(t, p, s, whole, pc.lower, pc.out);
    hide Inv, PathOk, Kept, Shown, ReadableLeaf, Took;
    PopStep(t, pc.path, s, pc.lower);
    KeptMoves(t, s, pc.lower, IncKey(Top(pc.path).fence.upper));
    assert pc.lower <= IncKey(Top(pc.path).fence.upper);
  }

  lemma TookAll(p: Page, range: Fence, s: nat, i: nat, batch: seq<Pair>)
    requires p.Leaf? && Took(p, range, s, i, batch) && Sum(p) <= i
    ensures batch == Pairs(Batch(Records(p), range, s))
  {
    assert Records(p)[..Min(i, |Records(p)|)] == Records(p);
  }

  lemma BatchShown(t: Tree, leaf: nat, s: nat, whole: Fence, lower: nat, out: seq<Pair>)
    requires ReadableLeaf(t, leaf, s) && KeysBelowMax(t.history) && Contains(t.meta[leaf].fence, lower)
    requires whole.lower <= lower <= MAX_KEY
    requires Shown(t, s, whole, lower, out)
    ensures Shown(t, s, whole, IncKey(t.meta[leaf].fence.upper),
                  out + Pairs(Batch(Records(t.pages[leaf]), Fence(lower, whole.upper), s)))
  {
    hide Collected, Ascending, KeysBelowMax, Inv, Batch, Pairs;
    var rs: seq<Record> :| Pairs(rs) == out && Collected(t.history, s, whole, lower, rs) && Ascending(t, s, rs);
    var batch := Batch(Records(t.pages[leaf]), Fence(lower, whole.upper), s);
    BatchCollects(t, leaf, s, whole, lower, rs);
    BatchAscends(t, leaf, s, whole, lower, rs);
    PairsJoin(rs, batch);
  }

  lemma PairsJoin(a: seq<Record>, b: seq<Record>)
    ensures Pairs(a + b) == Pairs(a) + Pairs(b)
  {
  }

  // ---------------------------------------------------------------- whole runs

  lemma RangeKeepsRange(t: Tree, whole: Fence, s: nat, x: State, y: State)
    requires Ranges(t, whole, s) && RangeOk(t, whole, s, x) && RangeStep(whole, s, x, y)
    ensures RangeOk(t, whole, s, y)
  {
    SameRangeStores(t, whole, s, x, y);
    hide *;
    match x.pc.at {
      case Starting => StartingStep(t, whole, s, x, y);
      case Looking => LookingStep(t, whole, s, x, y);
      case Choosing(_) => ChoosingStep(t, whole, s, x, y);
      case Taking(_, _, _) => TakingStep(t, whole, s, x, y);
      case Complete => NoStep(whole, s, x, y);
    }
    RangeOkIs(t, whole, s, y);
  }

  lemma NoStep(whole: Fence, s: nat, x: State, y: State)
    requires RangeStep(whole, s, x, y)
    ensures !x.pc.at.Complete?
  {
  }

  lemma RangeOkIs(t: Tree, whole: Fence, s: nat, x: State)
    requires StoresOk(t, s, x) && PointOk(t, whole, s, x)
    ensures RangeOk(t, whole, s, x)
  {
    hide StoresOk, PointOk;
  }

  lemma SameRangeStores(t: Tree, whole: Fence, s: nat, x: State, y: State)
    requires RangeOk(t, whole, s, x) && RangeStep(whole, s, x, y)
    ensures StoresOk(t, s, x) && StoresOk(t, s, y)
  {
    hide Harmless, PointOk, PartAt, AfterEntry, AfterRecord;
  }

  /** The reader is never stuck before it is complete. */
  lemma RangeCanStep(t: Tree, whole: Fence, s: nat, x: State)
    requires Ranges(t, whole, s) && RangeOk(t, whole, s, x) && !x.pc.at.Complete?
    ensures exists y :: RangeStep(whole, s, x, y)
  {
    match x.pc.at {
      case Starting =>
        RootStored(t, s, x);
        StartPath(t, s, whole.lower);
        var pc := Ranging([], [Step(FULL, x.roots[RootFor(x.roots, s).value].page)], whole.lower, Looking);
        assert RangeStep(whole, s, x, x.(pc := pc));
      case Looking =>
        if |x.pc.path| == 0 || x.pc.lower > whole.upper {
          assert RangeStep(whole, s, x, x.(pc := x.pc.(at := Complete)));
        } else {
          TopStored(t, whole, s, x);
          var page := x.pages[Top(x.pc.path).page];
          assert RangeStep(whole, s, x,
                           x.(pc := x.pc.(at := if page.Index? then Choosing(Sum(page))
                                          else Taking(0, Sum(page), []))));
        }
      case Choosing(n) =>
        assert RangeStep(whole, s, x, x.(pc := AfterEntry(x.pages[Top(x.pc.path).page], s, x.pc, n)));
      case Taking(i, n, batch) =>
        assert RangeStep(whole, s, x, x.(pc := AfterRecord(x.pages[Top(x.pc.path).page], whole, s, x.pc, i, n, batch)));
    }
  }

  ghost predicate RangeRun(t: Tree, whole: Fence, s: nat, run: seq<State>) {
    && |run| > 0 && run[0].pc.at.Starting? && StoresOk(t, s, run[0])
    && forall i :: 0 < i < |run| ==> WriterStep(t, s, run[i - 1], run[i]) || RangeStep(whole, s, run[i - 1], run[i])
  }

  /**
   In every interleaving with writers above its snapshot, a range reader that is complete has the
   records of the interval, one per key, each as the history says, leaf by leaf in ascending order.
   */
  lemma {:induction false} RangeRunAnswers(t: Tree, whole: Fence, s: nat, run: seq<State>)
    requires Ranges(t, whole, s) && RangeRun(t, whole, s, run)
    ensures RangeOk(t, whole, s, run[|run| - 1])
    ensures run[|run| - 1].pc.at.Complete? ==> ShownAll(t, s, whole, run[|run| - 1].pc.out)
  {
    hide Ranges, StoresOk, WriterStep, RangeStep, ShownAll;
    var n := |run|;
    if n > 1 {
      RangeRunAnswers(t, whole, s, run[..n - 1]);
      if WriterStep(t, s, run[n - 2], run[n - 1]) {
        WriterKeepsRange(t, whole, s, run[n - 2], run[n - 1]);
      } else {
        RangeKeepsRange(t, whole, s, run[n - 2], run[n - 1]);
      }
    }
  }
}
