/**
 A latch-free point reader as a state machine: it loads a root, then for each page its length and
 its slots one by one, while any number of writers store into the same pages between its steps.
 */
module Readers {
  import opened Util
  import opened Fences
  import opened History
  import opened Pages
  import opened TreeModel
  import opened LeafWrites
  import opened Snapshots
  import opened TreeSteps
  import opened Stability

  datatype Pc =
    | Start
    | Enter(page: nat)
    | Scan(page: nat, below: nat)
    | Done(answer: Option<nat>)

  /** The pages and roots all threads share, and where one reader is. */
  datatype World<P> = World(pages: seq<Page>, roots: seq<Root>, pc: P)

  /**
   Stores of writers that commit above `s`: pages a reader at `s` can reach change by harmless
   stores only, all other pages in any way.
   */
  ghost predicate WriterStep<P>(t: Tree, s: nat, x: World<P>, y: World<P>) {
    && y.pc == x.pc && |x.pages| <= |y.pages|
    && (forall i: nat :: PartAt(t, i, s) && i < |x.pages| ==> Harmless(x.pages[i], y.pages[i], s + 1))
    && (y.roots == x.roots
        || (|y.roots| == |x.roots| + 1 && y.roots[..|x.roots|] == x.roots && y.roots[|x.roots|].version > s))
  }

  /** One load of the reader of key `k` at snapshot `s`. */
  ghost predicate ReaderStep(k: nat, s: nat, x: World<Pc>, y: World<Pc>) {
    && y.pages == x.pages && y.roots == x.roots
    && match x.pc
       case Start => var r := RootFor(x.roots, s); r.Some? && y.pc == Enter(x.roots[r.value].page)
       case Enter(p) => p < |x.pages| && y.pc == Scan(p, Sum(x.pages[p]))
       case Scan(p, n) => p < |x.pages| && n <= Sum(x.pages[p]) && y.pc == AfterSlot(x.pages[p], k, s, p, n)
       case Done(_) => false
  }

  /** What the reader does after it has looked at slot `n - 1`. */
  ghost function AfterSlot(page: Page, k: nat, s: nat, p: nat, n: nat): Pc
    requires n <= Sum(page)
  {
    if n == 0 then Done(None)
    else if page.Leaf? then
      var r := page.recordData[n - 1];
      if Hit(r, k, s) then Done(Some(r.payload)) else Scan(p, n - 1)
    else
      var e := page.entryData[n - 1];
      if Fits(e, k, s) then Enter(e.child) else Scan(p, n - 1)
  }

  // ---------------------------------------------------------------- the invariant of a run

  ghost predicate StoresOk<P>(t: Tree, s: nat, x: World<P>) {
    && (forall i: nat :: PartAt(t, i, s) ==> i < |x.pages| && i < |t.pages| && Harmless(t.pages[i], x.pages[i], s + 1))
    && |t.roots| <= |x.roots| && x.roots[..|t.roots|] == t.roots
    && forall i :: |t.roots| <= i < |x.roots| ==> x.roots[i].version > s
  }

  /** No committed slot at or above `below` is the one the reader looks for. */
  ghost predicate Passed(p: Page, k: nat, s: nat, below: nat) {
    forall i :: below <= i < Sum(p) ==> if p.Leaf? then !Hit(p.recordData[i], k, s) else !Fits(p.entryData[i], k, s)
  }

  ghost predicate PcOk(t: Tree, k: nat, s: nat, x: World<Pc>) {
    match x.pc
    case Start => true
    case Enter(p) => Visible(t, p, k, s)
    case Scan(p, n) =>
      Visible(t, p, k, s) && p < |x.pages| && p < |t.pages| && n <= Sum(x.pages[p]) && Passed(t.pages[p], k, s, n)
    case Done(a) => a == At(t.history, k, s)
  }

  ghost predicate Reading(t: Tree, k: nat, s: nat) { Inv(t) && t.horizon <= s && k <= MAX_KEY }

  ghost predicate ReaderOk(t: Tree, k: nat, s: nat, x: World<Pc>) { StoresOk(t, s, x) && PcOk(t, k, s, x) }

  /** Stores of other threads keep what a reader at `s` may rely on, wherever it is. */
  lemma WriterKeepsStores<P>(t: Tree, s: nat, x: World<P>, y: World<P>)
    requires StoresOk(t, s, x) && WriterStep(t, s, x, y)
    ensures StoresOk(t, s, y)
    ensures forall i: nat :: PartAt(t, i, s) ==> i < |x.pages| && i < |y.pages| && Sum(x.pages[i]) <= Sum(y.pages[i])
  {
    hide Harmless;
    forall i: nat | PartAt(t, i, s)
      ensures i < |y.pages| && i < |t.pages| && Harmless(t.pages[i], y.pages[i], s + 1)
      ensures Sum(x.pages[i]) <= Sum(y.pages[i])
    {
      HarmlessTrans(t.pages[i], x.pages[i], y.pages[i], s + 1);
      HarmlessGrows(x.pages[i], y.pages[i], s + 1);
    }
  }

  lemma WriterKeepsReader(t: Tree, k: nat, s: nat, x: World<Pc>, y: World<Pc>)
    requires ReaderOk(t, k, s, x) && WriterStep(t, s, x, y)
    ensures ReaderOk(t, k, s, y)
  {
    WriterKeepsStores(t, s, x, y);
    if x.pc.Scan? { assert PartAt(t, x.pc.page, s); }
    hide StoresOk, Passed, PartAt, Harmless;
  }

  lemma HarmlessGrows(p: Page, q: Page, w: nat)
    requires Harmless(p, q, w)
    ensures Sum(p) <= Sum(q)
  {
  }

  /** Roots of later versions do not matter: the reader finds the root it would have found before them. */
  lemma RootStored<P>(t: Tree, s: nat, x: World<P>)
    requires StoresOk(t, s, x)
    ensures RootFor(x.roots, s) == RootFor(t.roots, s)
    ensures RootFor(t.roots, s).Some? ==>
              x.roots[RootFor(x.roots, s).value].page == t.roots[RootFor(t.roots, s).value].page
  {
    hide Harmless, RootFor;
    var more := x.roots[|t.roots|..];
    assert x.roots == t.roots + more;
    assert forall i :: 0 <= i < |more| ==> more[i] == x.roots[|t.roots| + i];
    SameRoot(t.roots, more, s + 1, s);
  }

  lemma StartStep(t: Tree, k: nat, s: nat, x: World<Pc>)
    requires Reading(t, k, s) && StoresOk(t, s, x)
    ensures RootFor(x.roots, s).Some? && Visible(t, x.roots[RootFor(x.roots, s).value].page, k, s)
  {
    RootStored(t, s, x);
    hide Inv, RootFor, StoresOk;
    ReadRoot(t, k, s);
  }

  lemma SlotKept(p: Page, q: Page, k: nat, s: nat, i: nat)
    requires Harmless(p, q, s + 1) && i < Sum(q)
    ensures p.Leaf? ==> (Hit(q.recordData[i], k, s) <==> i < Sum(p) && Hit(p.recordData[i], k, s))
    ensures p.Leaf? && i < Sum(p) ==> q.recordData[i].payload == p.recordData[i].payload
    ensures p.Index? ==> (Fits(q.entryData[i], k, s) <==> i < Sum(p) && Fits(p.entryData[i], k, s))
    ensures p.Index? && i < Sum(p) ==> q.entryData[i].child == p.entryData[i].child
    ensures p.Index? && i < Sum(p) ==> i < |p.entryData| && i < |q.entryData|
  {
    if p.Leaf? && i < Sum(p) { SameMatch(p.recordData[i], q.recordData[i], s + 1, s); }
  }

  lemma LastFit(t: Tree, p: nat, k: nat, s: nat, n: nat)
    requires Reading(t, k, s) && Visible(t, p, k, s) && p < |t.pages| && t.pages[p].Index? && 0 < n <= Sum(t.pages[p])
    requires Passed(t.pages[p], k, s, n) && Fits(t.pages[p].entryData[n - 1], k, s)
    ensures Sum(t.pages[p]) <= |t.pages[p].entryData|
    ensures Visible(t, t.pages[p].entryData[n - 1].child, k, s)
    ensures t.meta[t.pages[p].entryData[n - 1].child].height < t.meta[p].height
  {
    hide Inv;
    PageKindAt(t, p, k, s);
    ReadStep(t, p, k, s);
    var es := Entries(t.pages[p]);
    assert es[n - 1] == t.pages[p].entryData[n - 1];
    assert forall j :: n <= j < |es| ==> !Fits(es[j], k, s);
    assert Route(es, k, s) == Some(n - 1);
  }

  lemma LastHitAnswers(t: Tree, p: nat, k: nat, s: nat, n: nat)
    requires Reading(t, k, s) && Visible(t, p, k, s) && p < |t.pages| && t.pages[p].Leaf? && 0 < n <= Sum(t.pages[p])
    requires Passed(t.pages[p], k, s, n) && Hit(t.pages[p].recordData[n - 1], k, s)
    ensures At(t.history, k, s) == Some(t.pages[p].recordData[n - 1].payload)
  {
    hide Inv, PointAnswer, At;
    PageKindAt(t, p, k, s);
    ReadLeaf(t, p, k, s);
    var rs := Records(t.pages[p]);
    assert Hit(rs[n - 1], k, s);
    PointAnswerIsLastHit(rs, k, s, Some(rs[n - 1].payload));
  }

  lemma NoHitAnswers(t: Tree, p: nat, k: nat, s: nat)
    requires Reading(t, k, s) && Visible(t, p, k, s) && p < |t.pages| && t.pages[p].Leaf? && Passed(t.pages[p], k, s, 0)
    ensures At(t.history, k, s) == None
  {
    hide Inv, PointAnswer, At;
    PageKindAt(t, p, k, s);
    ReadLeaf(t, p, k, s);
    PointAnswerIsLastHit(Records(t.pages[p]), k, s, None);
  }

  /** In an index page a reader finds an entry before it runs out of slots. */
  lemma IndexHasFit(t: Tree, p: nat, k: nat, s: nat)
    requires Reading(t, k, s) && Visible(t, p, k, s) && p < |t.pages| && t.pages[p].Index?
    ensures !Passed(t.pages[p], k, s, 0)
  {
    hide Inv;
    PageKindAt(t, p, k, s);
    ReadStep(t, p, k, s);
    var i := Route(Entries(t.pages[p]), k, s).value;
    assert Fits(t.pages[p].entryData[i], k, s);
  }

  lemma ScanStep(t: Tree, k: nat, s: nat, x: World<Pc>, y: World<Pc>)
    requires Reading(t, k, s) && ReaderOk(t, k, s, x) && ReaderStep(k, s, x, y) && x.pc.Scan?
    ensures PcOk(t, k, s, y)
  {
    var p, n := x.pc.page, x.pc.below;
    assert PartAt(t, p, s);
    SameKind(t.pages[p], x.pages[p], s + 1);
    hide Reading, Harmless, At, StoresOk, Visible, Passed, Hit, Fits;
    if n == 0 {
      if t.pages[p].Leaf? { NoHitAnswers(t, p, k, s); } else { IndexHasFit(t, p, k, s); }
    } else {
      SlotKept(t.pages[p], x.pages[p], k, s, n - 1);
      PassedOne(t.pages[p], k, s, n);
      if n <= Sum(t.pages[p]) { SlotAnswers(t, p, k, s, n); }
    }
  }

  lemma PassedOne(p: Page, k: nat, s: nat, n: nat)
    requires Passed(p, k, s, n) && n > 0
    ensures (n <= Sum(p) ==> if p.Leaf? then !Hit(p.recordData[n - 1], k, s) else !Fits(p.entryData[n - 1], k, s)) ==>
              Passed(p, k, s, n - 1)
  {
  }

  lemma SlotAnswers(t: Tree, p: nat, k: nat, s: nat, n: nat)
    requires Reading(t, k, s) && Visible(t, p, k, s) && p < |t.pages| && 0 < n <= Sum(t.pages[p])
    requires Passed(t.pages[p], k, s, n)
    ensures t.pages[p].Leaf? && Hit(t.pages[p].recordData[n - 1], k, s) ==>
              At(t.history, k, s) == Some(t.pages[p].recordData[n - 1].payload)
    ensures t.pages[p].Index? && Fits(t.pages[p].entryData[n - 1], k, s) ==>
              Visible(t, t.pages[p].entryData[n - 1].child, k, s)
  {
    hide Reading, At, Visible, Passed, Hit, Fits;
    if t.pages[p].Leaf? && Hit(t.pages[p].recordData[n - 1], k, s) { LastHitAnswers(t, p, k, s, n); }
    if t.pages[p].Index? && Fits(t.pages[p].entryData[n - 1], k, s) { LastFit(t, p, k, s, n); }
  }

  lemma SameKind(p: Page, q: Page, w: nat)
    requires Harmless(p, q, w)
    ensures p.Leaf? == q.Leaf?
  {
  }

  /** A step of the reader keeps the invariant; it is done only with the right answer. */
  lemma ReaderKeepsReader(t: Tree, k: nat, s: nat, x: World<Pc>, y: World<Pc>)
    requires Reading(t, k, s) && ReaderOk(t, k, s, x) && ReaderStep(k, s, x, y)
    ensures ReaderOk(t, k, s, y)
  {
    SameStores(t, k, s, x, y);
    hide *;
    if x.pc.Start? { BeginStep(t, k, s, x, y); }
    if x.pc.Enter? { EnterStep(t, k, s, x, y); }
    if x.pc.Scan? { ScanStep(t, k, s, x, y); }
    ReaderOkIs(t, k, s, y);
  }

  lemma ReaderOkIs(t: Tree, k: nat, s: nat, x: World<Pc>)
    ensures ReaderOk(t, k, s, x) <==> StoresOk(t, s, x) && PcOk(t, k, s, x)
  {
  }

  lemma SameStores(t: Tree, k: nat, s: nat, x: World<Pc>, y: World<Pc>)
    requires ReaderOk(t, k, s, x) && ReaderStep(k, s, x, y)
    ensures StoresOk(t, s, x) && StoresOk(t, s, y) && !x.pc.Done?
  {
    hide Harmless, PcOk, PartAt;
  }

  lemma BeginStep(t: Tree, k: nat, s: nat, x: World<Pc>, y: World<Pc>)
    requires Reading(t, k, s) && StoresOk(t, s, x) && ReaderStep(k, s, x, y) && x.pc.Start?
    ensures PcOk(t, k, s, y)
  {
    StartStep(t, k, s, x);
    hide Reading, StoresOk, Visible, RootFor;
  }

  lemma EnterStep(t: Tree, k: nat, s: nat, x: World<Pc>, y: World<Pc>)
    requires ReaderOk(t, k, s, x) && ReaderStep(k, s, x, y) && x.pc.Enter?
    ensures PcOk(t, k, s, y)
  {
    var p := x.pc.page;
    assert PartAt(t, p, s);
    HarmlessGrows(t.pages[p], x.pages[p], s + 1);
    hide Harmless;
  }

  /** The reader is never stuck: whatever the writers have stored, it has a next step until it is done. */
  lemma ReaderCanStep(t: Tree, k: nat, s: nat, x: World<Pc>)
    requires Reading(t, k, s) && ReaderOk(t, k, s, x) && !x.pc.Done?
    ensures exists y :: ReaderStep(k, s, x, y)
  {
    match x.pc {
      case Start =>
        StartStep(t, k, s, x);
        assert ReaderStep(k, s, x, x.(pc := Enter(x.roots[RootFor(x.roots, s).value].page)));
      case Enter(p) =>
        assert PartAt(t, p, s);
        assert ReaderStep(k, s, x, x.(pc := Scan(p, Sum(x.pages[p]))));
      case Scan(p, n) =>
        assert ReaderStep(k, s, x, x.(pc := AfterSlot(x.pages[p], k, s, p, n)));
      case Done(_) =>
    }
  }

  // ---------------------------------------------------------------- how far the reader still has to go

  ghost function Widest(pages: seq<Page>): nat {
    if |pages| == 0 then 0 else Max(Capacity(pages[|pages| - 1]), Widest(pages[..|pages| - 1]))
  }

  ghost function Tallest(meta: seq<Meta>): nat {
    if |meta| == 0 then 0 else Max(HeightOf(meta[|meta| - 1]), Tallest(meta[..|meta| - 1]))
  }

  ghost function HeightOf(m: Meta): nat { if m.Linked? then m.height else 0 }

  lemma {:induction false} WidestBounds(pages: seq<Page>, i: nat)
    requires i < |pages|
    ensures Capacity(pages[i]) <= Widest(pages)
  {
    if i < |pages| - 1 { WidestBounds(pages[..|pages| - 1], i); }
  }

  lemma {:induction false} TallestBounds(meta: seq<Meta>, i: nat)
    requires i < |meta|
    ensures HeightOf(meta[i]) <= Tallest(meta)
  {
    if i < |meta| - 1 { TallestBounds(meta[..|meta| - 1], i); }
  }

  ghost function HeightAt(t: Tree, p: nat): nat { if p < |t.meta| then HeightOf(t.meta[p]) else 0 }

  /** What one page costs at most. */
  ghost function Cost(t: Tree): nat { Widest(t.pages) + 2 }

  /** The loads the reader can still make: those of the pages below its own, and of what is left of its page. */
  ghost function Left(t: Tree, pc: Pc): nat {
    match pc
    case Start => (Tallest(t.meta) + 1) * Cost(t) + 1
    case Enter(p) => (HeightAt(t, p) + 1) * Cost(t)
    case Scan(p, n) => HeightAt(t, p) * Cost(t) + n + 1
    case Done(_) => 0
  }

  lemma Times(a: nat, b: nat, c: nat)
    requires a <= b
    ensures a * c <= b * c
  {
  }

  /** Every step of the reader lowers what is left, whatever the writers do: reads are wait-free. */
  lemma ReaderAdvances(t: Tree, k: nat, s: nat, x: World<Pc>, y: World<Pc>)
    requires Reading(t, k, s) && ReaderOk(t, k, s, x) && ReaderStep(k, s, x, y)
    ensures Left(t, y.pc) < Left(t, x.pc)
  {
    hide Reading, StoresOk, PcOk, At, HeightAt, Cost;
    match x.pc {
      case Start => Times(HeightAt(t, y.pc.page) + 1, Tallest(t.meta) + 1, Cost(t)) by { NotTaller(t, y.pc.page); }
      case Enter(p) => FitsPage(t, k, s, x);
      case Scan(p, n) =>
        if y.pc.Enter? {
          LowerPage(t, k, s, x, y);
          Times(HeightAt(t, y.pc.page) + 1, HeightAt(t, p), Cost(t));
        }
      case Done(_) =>
    }
  }

  lemma NotTaller(t: Tree, p: nat)
    ensures HeightAt(t, p) <= Tallest(t.meta)
  {
    if p < |t.meta| { TallestBounds(t.meta, p); }
  }

  /** The stores of writers do not change the capacity of the page. */
  lemma FitsPage(t: Tree, k: nat, s: nat, x: World<Pc>)
    requires ReaderOk(t, k, s, x) && x.pc.Enter? && x.pc.page < |x.pages|
    ensures Sum(x.pages[x.pc.page]) + 2 <= Cost(t)
    ensures (HeightAt(t, x.pc.page) + 1) * Cost(t) == HeightAt(t, x.pc.page) * Cost(t) + Cost(t)
  {
    var p := x.pc.page;
    assert PartAt(t, p, s);
    WidestBounds(t.pages, p);
    SameCapacity(t.pages[p], x.pages[p], s + 1);
  }

  lemma SameCapacity(p: Page, q: Page, w: nat)
    requires Harmless(p, q, w)
    ensures Capacity(p) == Capacity(q) && Sum(q) <= Capacity(q)
  {
  }

  lemma LowerPage(t: Tree, k: nat, s: nat, x: World<Pc>, y: World<Pc>)
    requires Reading(t, k, s) && ReaderOk(t, k, s, x) && ReaderStep(k, s, x, y) && x.pc.Scan? && y.pc.Enter?
    ensures HeightAt(t, y.pc.page) < HeightAt(t, x.pc.page)
  {
    var p, n := x.pc.page, x.pc.below;
    ScanFacts(t, k, s, x, y);
    hide *;
    SameKind(t.pages[p], x.pages[p], s + 1);
    SlotKept(t.pages[p], x.pages[p], k, s, n - 1);
    LastFit(t, p, k, s, n);
    VisibleLinked(t, p, k, s);
    VisibleLinked(t, y.pc.page, k, s);
  }

  lemma ScanFacts(t: Tree, k: nat, s: nat, x: World<Pc>, y: World<Pc>)
    requires ReaderOk(t, k, s, x) && ReaderStep(k, s, x, y) && x.pc.Scan? && y.pc.Enter?
    ensures var p, n := x.pc.page, x.pc.below;
            && p < |t.pages| && p < |x.pages| && Harmless(t.pages[p], x.pages[p], s + 1) && Visible(t, p, k, s)
            && Passed(t.pages[p], k, s, n)
            && 0 < n <= Sum(x.pages[p]) && x.pages[p].Index? && Fits(x.pages[p].entryData[n - 1], k, s)
            && y.pc.page == x.pages[p].entryData[n - 1].child
            && Sum(x.pages[p]) <= |x.pages[p].entryData|
  {
    assert PartAt(t, x.pc.page, s);
    hide Harmless, Passed, Fits;
  }

  lemma VisibleLinked(t: Tree, p: nat, k: nat, s: nat)
    requires Visible(t, p, k, s)
    ensures p < |t.meta| && t.meta[p].Linked? && HeightAt(t, p) == t.meta[p].height
  {
  }

  // ---------------------------------------------------------------- whole runs

  /** A run may begin while operations are under way, with some of their stores done. */
  ghost predicate Run(t: Tree, k: nat, s: nat, run: seq<World<Pc>>) {
    && |run| > 0 && run[0].pc.Start? && StoresOk(t, s, run[0])
    && forall i :: 0 < i < |run| ==> WriterStep(t, s, run[i - 1], run[i]) || ReaderStep(k, s, run[i - 1], run[i])
  }

  /** Between two operations is one such beginning. */
  lemma StartsOk<P>(t: Tree, s: nat, pc: P)
    requires Inv(t)
    ensures StoresOk(t, s, World(t.pages, t.roots, pc))
  {
    MetaOkOf(t);
    hide Inv, Harmless, MetaOk, PartAt;
    AllSelf(t, s);
    assert t.roots[..|t.roots|] == t.roots;
  }

  lemma AllSelf(t: Tree, s: nat)
    requires MetaOk(t)
    ensures forall i: nat :: PartAt(t, i, s) ==> i < |t.pages| && Harmless(t.pages[i], t.pages[i], s + 1)
  {
    hide MetaOk, Harmless, PartAt;
    forall i: nat | PartAt(t, i, s) ensures i < |t.pages| && Harmless(t.pages[i], t.pages[i], s + 1) {
      PartInPages(t, i, s);
      HarmlessSelf(t.pages[i], s + 1);
    }
  }

  lemma PartInPages(t: Tree, i: nat, s: nat)
    requires MetaOk(t) && PartAt(t, i, s)
    ensures i < |t.pages|
  {
  }

  lemma HarmlessSelf(p: Page, w: nat)
    ensures Harmless(p, p, w)
  {
  }

  /** In every interleaving with writers above its snapshot, a reader that is done has the history's answer. */
  lemma {:induction false} RunAnswers(t: Tree, k: nat, s: nat, run: seq<World<Pc>>)
    requires Reading(t, k, s) && Run(t, k, s, run)
    ensures ReaderOk(t, k, s, run[|run| - 1])
    ensures run[|run| - 1].pc.Done? ==> run[|run| - 1].pc.answer == At(t.history, k, s)
  {
    hide Reading, StoresOk, WriterStep, ReaderStep;
    var n := |run|;
    if n > 1 {
      RunAnswers(t, k, s, run[..n - 1]);
      if WriterStep(t, s, run[n - 2], run[n - 1]) {
        WriterKeepsReader(t, k, s, run[n - 2], run[n - 1]);
      } else {
        ReaderKeepsReader(t, k, s, run[n - 2], run[n - 1]);
      }
    }
  }

  /** The steps of a run that are steps of the reader. */
  ghost function Loads<P>(run: seq<World<P>>): nat {
    if |run| < 2 then 0
    else Loads(run[..|run| - 1]) + (if run[|run| - 1].pc == run[|run| - 2].pc then 0 else 1)
  }

  lemma RunShorter(t: Tree, k: nat, s: nat, run: seq<World<Pc>>)
    requires Run(t, k, s, run) && |run| > 1
    ensures Run(t, k, s, run[..|run| - 1])
    ensures var x, y := run[|run| - 2], run[|run| - 1]; WriterStep(t, s, x, y) || ReaderStep(k, s, x, y)
  {
    hide StoresOk, WriterStep, ReaderStep;
  }

  lemma StepIsBounded(t: Tree, k: nat, s: nat, x: World<Pc>, y: World<Pc>)
    requires Reading(t, k, s) && ReaderOk(t, k, s, x) && (WriterStep(t, s, x, y) || ReaderStep(k, s, x, y))
    ensures (if y.pc == x.pc then 0 else 1) + Left(t, y.pc) <= Left(t, x.pc)
  {
    if WriterStep(t, s, x, y) {
      hide Reading, ReaderOk, StoresOk, ReaderStep, Left;
    } else {
      hide *;
      ReaderAdvances(t, k, s, x, y);
    }
  }

  lemma LoadsStep<P>(run: seq<World<P>>, x: World<P>, y: World<P>)
    requires |run| > 1 && x == run[|run| - 2] && y == run[|run| - 1]
    ensures Loads(run) == Loads(run[..|run| - 1]) + (if y.pc == x.pc then 0 else 1)
  {
  }

  lemma NoLoads(t: Tree, k: nat, s: nat, run: seq<World<Pc>>)
    requires Run(t, k, s, run)
    ensures |run| == 1 ==> run[0].pc == Start && Loads(run) == 0
  {
    hide StoresOk;
  }

  lemma {:induction false} LoadsBounded(t: Tree, k: nat, s: nat, run: seq<World<Pc>>)
    requires |run| > 0 && Reading(t, k, s) && Run(t, k, s, run)
    ensures Loads(run) + Left(t, run[|run| - 1].pc) <= Left(t, Start)
  {
    hide *;
    var n := |run|;
    if n == 1 {
      NoLoads(t, k, s, run);
    } else {
      var init := run[..n - 1];
      RunShorter(t, k, s, run);
      LoadsBounded(t, k, s, init);
      RunAnswers(t, k, s, init);
      assert init[|init| - 1] == run[n - 2];
      StepIsBounded(t, k, s, run[n - 2], run[n - 1]);
      LoadsStep(run, run[n - 2], run[n - 1]);
    }
  }

  /** In every interleaving the reader makes no more loads than the pages of one way down have slots. */
  lemma RunIsBounded(t: Tree, k: nat, s: nat, run: seq<World<Pc>>)
    requires Reading(t, k, s) && Run(t, k, s, run)
    ensures Loads(run) <= (Tallest(t.meta) + 1) * (Widest(t.pages) + 2) + 1
  {
    RunBegins(t, k, s, run);
    hide *;
    LoadsBounded(t, k, s, run);
    StartLeft(t);
  }

  lemma RunBegins(t: Tree, k: nat, s: nat, run: seq<World<Pc>>)
    requires Run(t, k, s, run)
    ensures |run| > 0
  {
    hide StoresOk;
  }

  lemma StartLeft(t: Tree)
    ensures Left(t, Start) == (Tallest(t.meta) + 1) * (Widest(t.pages) + 2) + 1
  {
    hide Tallest, Widest;
  }
}
