/**
 The lazy range iterator: a stack of pages, a moving lower bound and a buffer of records. Between
 two calls the tree may go on changing as long as the snapshot is kept.
 */
module RangeIter {
  import opened Util
  import opened Fences
  import opened History
  import opened Pages
  import opened Smo
  import opened TreeModel
  import opened LeafWrites
  import opened Snapshots
  import opened TreeSteps
  import opened Alloc
  import opened Mvbt
  import opened Trackers

  datatype Step = Step(fence: Fence, page: nat)

  /** Keys lie strictly below the largest one, because the successor of a key saturates there. */
  ghost predicate KeysBelowMax(h: History) {
    forall i :: 0 <= i < |h| ==> h[i].op.key < MAX_KEY
  }

  lemma {:induction false} NothingAtMax(h: History, v: nat)
    requires KeysBelowMax(h)
    ensures At(h, MAX_KEY, v).None?
  {
    if |h| > 0 {
      NothingAtMax(h[..|h| - 1], v);
    }
  }

  /**
   The stack holds pages that are part of the tree at the snapshot; the bound lies in or right behind each
   of them.
   */
  ghost predicate PathOk(t: Tree, path: seq<Step>, v: nat, lower: nat) {
    && (forall i :: 0 <= i < |path| ==>
      StepOk(t, path[i], v) && path[i].fence.lower <= lower <= path[i].fence.upper + 1)
    && (forall i, j :: 0 <= i < j < |path| ==> Below(t, path[i], path[j]))
    && (if |path| == 0 then lower == MAX_KEY else path[0].fence == FULL && TopOk(t, path[|path| - 1], lower))
  }

  ghost predicate Below(t: Tree, a: Step, b: Step) {
    b.fence.upper <= a.fence.upper && a.page < |t.meta| && b.page < |t.meta| && t.meta[a.page].Linked?
      && t.meta[b.page].Linked?
    && t.meta[b.page].height < t.meta[a.page].height
  }

  /** The bound lies inside the fence of a leaf on the stack. */
  ghost predicate TopOk(t: Tree, top: Step, lower: nat) {
    top.page < |t.meta| && t.meta[top.page].Linked? && (t.meta[top.page].height == 1 ==> Contains(top.fence, lower))
  }

  ghost predicate StepOk(t: Tree, s: Step, v: nat) {
    PartAt(t, s.page, v) && t.meta[s.page].fence == s.fence && ValidFence(s.fence)
  }

  /** `out` holds exactly the records with a key of the interval below `bound`, one per key. */
  ghost predicate Collected(h: History, v: nat, range: Fence, bound: nat, out: seq<Record>) {
    && (forall i :: 0 <= i < |out| ==>
      Contains(range, out[i].key) && out[i].key < bound && At(h, out[i].key, v) == Some(out[i].payload))
    && Pairwise(out, OtherKey)
    && forall k: nat :: Contains(range, k) && k < bound && At(h, k, v).Some? ==> HasKey(out, k)
  }

  ghost predicate HasKey(out: seq<Record>, k: nat) { exists i :: 0 <= i < |out| && out[i].key == k }

  /** Exactly the records of the interval, one per key. */
  ghost predicate Everything(h: History, v: nat, range: Fence, out: seq<Record>) {
    && (forall i :: 0 <= i < |out| ==> Contains(range, out[i].key) && At(h, out[i].key, v) == Some(out[i].payload))
    && Pairwise(out, OtherKey)
    && forall k: nat :: Contains(range, k) && k <= MAX_KEY && At(h, k, v).Some? ==> HasKey(out, k)
  }

  lemma CollectedAll(h: History, v: nat, range: Fence, bound: nat, out: seq<Record>)
    requires Collected(h, v, range, bound, out) && KeysBelowMax(h) && (bound > range.upper || bound == MAX_KEY)
    ensures Everything(h, v, range, out)
  {
    NothingAtMax(h, v);
  }

  /** At the snapshot one leaf has both keys. */
  ghost predicate SameLeaf(t: Tree, v: nat, a: nat, b: nat) {
    exists p: nat :: LeafOf(t, v, p, a) && LeafOf(t, v, p, b)
  }

  ghost predicate LeafOf(t: Tree, v: nat, p: nat, k: nat) {
    PartAt(t, p, v) && t.meta[p].height == 1 && Contains(t.meta[p].fence, k)
  }

  /** Keys ascend from leaf to leaf; only records of one leaf may come in any order. */
  ghost predicate Ascending(t: Tree, v: nat, out: seq<Record>) {
    forall i, j :: 0 <= i < j < |out| ==> out[i].key < out[j].key || SameLeaf(t, v, out[i].key, out[j].key)
  }

  predicate Wanted(r: Record, range: Fence, v: nat) { r.Matches(v) && Contains(range, r.key) }

  function Batch(rs: seq<Record>, range: Fence, v: nat): seq<Record> { Filter((r: Record) => Wanted(r, range, v), rs) }

  /** The records of one leaf of the snapshot with a key from `bound` up to `upper`, in the order of its slots. */
  ghost predicate FromLeaf(t: Tree, v: nat, p: nat, bound: nat, upper: nat, rs: seq<Record>) {
    p < |t.pages| && LeafOf(t, v, p, bound) && rs == Batch(Records(t.pages[p]), Fence(bound, upper), v)
  }

  // ---------------------------------------------------------------- one leaf

  lemma HitIsAnswer(rs: seq<Record>, f: Fence, i: nat, v: nat)
    requires Tidy(rs, f) && i < |rs| && rs[i].Matches(v)
    ensures PointAnswer(rs, rs[i].key, v) == Some(rs[i].payload)
  {
    assert AnswerIs(rs, rs[i].key, v, Some(rs[i].payload)) by {
      assert Hit(rs[i], rs[i].key, v);
    }
    PointAnswerIsLastHit(rs, rs[i].key, v, Some(rs[i].payload));
  }

  lemma AnswerIsHit(rs: seq<Record>, k: nat, v: nat)
    requires PointAnswer(rs, k, v).Some?
    ensures exists i :: 0 <= i < |rs| && Hit(rs[i], k, v)
  {
    PointAnswerIsLastHit(rs, k, v, PointAnswer(rs, k, v));
  }

  lemma BatchKeys(rs: seq<Record>, f: Fence, range: Fence, v: nat)
    requires Tidy(rs, f)
    ensures Pairwise(Batch(rs, range, v), OtherKey)
  {
    FilterPairwise((r: Record) => Wanted(r, range, v), rs, OtherKey);
  }

  ghost predicate ReadableLeaf(t: Tree, leaf: nat, v: nat) {
    Inv(t) && t.horizon <= v && PartAt(t, leaf, v) && leaf < |t.pages| && t.pages[leaf].Leaf?
      && t.meta[leaf].height == 1
    && ValidFence(t.meta[leaf].fence)
  }

  lemma LeafAt(t: Tree, leaf: nat, k: nat, v: nat)
    requires ReadableLeaf(t, leaf, v)
    ensures leaf < |t.pages| && leaf < |t.meta| && t.meta[leaf].Linked? && ValidFence(t.meta[leaf].fence)
    ensures Tidy(Records(t.pages[leaf]), t.meta[leaf].fence)
    ensures Contains(t.meta[leaf].fence, k) ==> PointAnswer(Records(t.pages[leaf]), k, v) == At(t.history, k, v)
  {
    hide Inv, PointAnswer, At, Tidy;
    ServesAt(t, leaf, t.meta[leaf].fence.lower, v);
    if Contains(t.meta[leaf].fence, k) { ServesAt(t, leaf, k, v); }
  }

  /** What the batch of a leaf adds: the records with a key between the bound and the end of the leaf. */
  lemma BatchCollects(t: Tree, leaf: nat, v: nat, whole: Fence, bound: nat, out: seq<Record>)
    requires ReadableLeaf(t, leaf, v) && KeysBelowMax(t.history) && Contains(t.meta[leaf].fence, bound)
    requires whole.lower <= bound <= MAX_KEY
    requires Collected(t.history, v, whole, bound, out)
    ensures var batch := Batch(Records(t.pages[leaf]), Fence(bound, whole.upper), v);
            Collected(t.history, v, whole, IncKey(t.meta[leaf].fence.upper), out + batch)
  {
    var range := Fence(bound, whole.upper);
    var rs, f, batch := Records(t.pages[leaf]), t.meta[leaf].fence, Batch(Records(t.pages[leaf]), range, v);
    LeafAt(t, leaf, bound, v);
    BatchKeys(rs, f, range, v);
    hide ReadableLeaf, Tidy, Batch, Records, KeysBelowMax, At, Pairwise;
    forall r | r in batch
      ensures Contains(range, r.key) && r.key < IncKey(f.upper) && At(t.history, r.key, v) == Some(r.payload)
    {
      BatchMember(t, leaf, range, v, r);
    }
    forall k: nat | bound <= k < IncKey(f.upper) && Contains(whole, k) && At(t.history, k, v).Some?
      ensures HasKey(batch, k)
    {
      LeafHasKey(t, leaf, range, v, k);
    }
    CollectedJoin(t.history, v, whole, bound, IncKey(f.upper), out, batch);
  }

  lemma CollectedJoin(h: History, v: nat, whole: Fence, bound: nat, next: nat, out: seq<Record>, batch: seq<Record>)
    requires Collected(h, v, whole, bound, out) && Pairwise(batch, OtherKey) && whole.lower <= bound <= next
    requires forall r :: r in batch ==>
               Contains(Fence(bound, whole.upper), r.key) && r.key < next && At(h, r.key, v) == Some(r.payload)
    requires forall k: nat :: bound <= k < next && Contains(whole, k) && At(h, k, v).Some? ==> HasKey(batch, k)
    ensures Collected(h, v, whole, next, out + batch)
  {
    var all := out + batch;
    assert forall i :: 0 <= i < |batch| ==> batch[i] in batch;
    JoinPairwise(h, v, whole, bound, out, batch);
    forall k: nat | Contains(whole, k) && k < next && At(h, k, v).Some? ensures HasKey(all, k) {
      if k < bound {
        var i :| 0 <= i < |out| && out[i].key == k by { assert HasKey(out, k); }
        assert all[i].key == k;
      } else {
        var i :| 0 <= i < |batch| && batch[i].key == k by { assert HasKey(batch, k); }
        assert all[|out| + i].key == k;
      }
    }
  }

  lemma JoinPairwise(h: History, v: nat, whole: Fence, bound: nat, out: seq<Record>, batch: seq<Record>)
    requires Collected(h, v, whole, bound, out) && Pairwise(batch, OtherKey)
    requires forall i :: 0 <= i < |batch| ==> bound <= batch[i].key
    ensures Pairwise(out + batch, OtherKey)
  {
    var all := out + batch;
    forall i, j | 0 <= i < j < |all| ensures OtherKey(all[i], all[j]) {
      if i < |out| <= j {
        assert out[i].key < bound;
      } else if i >= |out| {
        assert OtherKey(batch[i - |out|], batch[j - |out|]);
      }
    }
  }

  lemma BatchMember(t: Tree, leaf: nat, range: Fence, v: nat, r: Record)
    requires ReadableLeaf(t, leaf, v) && KeysBelowMax(t.history) && r in Batch(Records(t.pages[leaf]), range, v)
    ensures Contains(range, r.key) && r.key <= t.meta[leaf].fence.upper && r.key < IncKey(t.meta[leaf].fence.upper)
    ensures At(t.history, r.key, v) == Some(r.payload)
  {
    var rs := Records(t.pages[leaf]);
    LeafAt(t, leaf, r.key, v);
    InBatch(rs, t.meta[leaf].fence, range, v, r);
    hide *;
    NothingAtMax(t.history, v);
    BelowNext(t.meta[leaf].fence, r.key);
  }

  lemma BelowNext(f: Fence, k: nat)
    requires ValidFence(f) && Contains(f, k) && k != MAX_KEY
    ensures k <= f.upper && k < IncKey(f.upper)
  {
  }

  lemma InBatch(rs: seq<Record>, f: Fence, range: Fence, v: nat, r: Record)
    requires Tidy(rs, f) && r in Batch(rs, range, v)
    ensures Contains(range, r.key) && Contains(f, r.key) && PointAnswer(rs, r.key, v) == Some(r.payload)
  {
    assert r in rs && Wanted(r, range, v);
    var i :| 0 <= i < |rs| && rs[i] == r;
    hide Batch, PointAnswer;
    HitIsAnswer(rs, f, i, v);
  }

  lemma LeafHasKey(t: Tree, leaf: nat, range: Fence, v: nat, k: nat)
    requires ReadableLeaf(t, leaf, v) && Contains(t.meta[leaf].fence, k) && Contains(range, k)
    requires At(t.history, k, v).Some?
    ensures HasKey(Batch(Records(t.pages[leaf]), range, v), k)
  {
    LeafAt(t, leaf, k, v);
    hide *;
    HitInBatch(Records(t.pages[leaf]), range, v, k);
  }

  lemma HitInBatch(rs: seq<Record>, range: Fence, v: nat, k: nat)
    requires Contains(range, k) && PointAnswer(rs, k, v).Some?
    ensures HasKey(Batch(rs, range, v), k)
  {
    AnswerIsHit(rs, k, v);
    hide PointAnswer;
    var i :| 0 <= i < |rs| && Hit(rs[i], k, v);
    assert rs[i] in rs && Wanted(rs[i], range, v);
    var batch := Batch(rs, range, v);
    assert rs[i] in batch;
    var j :| 0 <= j < |batch| && batch[j] == rs[i];
  }

  lemma AscendingJoin(t: Tree, v: nat, leaf: nat, out: seq<Record>, batch: seq<Record>, bound: nat)
    requires Ascending(t, v, out) && (forall i :: 0 <= i < |out| ==> out[i].key < bound)
    requires forall i :: 0 <= i < |batch| ==> bound <= batch[i].key && LeafOf(t, v, leaf, batch[i].key)
    ensures Ascending(t, v, out + batch)
  {
    hide LeafOf;
    var all := out + batch;
    forall i, j | 0 <= i < j < |all| ensures all[i].key < all[j].key || SameLeaf(t, v, all[i].key, all[j].key) {
      if j < |out| {
        hide SameLeaf;
        assert all[i] == out[i] && all[j] == out[j];
      } else if i >= |out| {
        assert LeafOf(t, v, leaf, batch[i - |out|].key) && LeafOf(t, v, leaf, batch[j - |out|].key);
      }
    }
  }

  // ---------------------------------------------------------------- one step of the stack

  /** Every snapshot a reader may use is kept, and the bound is a key. */
  ghost predicate Kept(t: Tree, v: nat, lower: nat) { Inv(t) && t.horizon <= v && lower <= MAX_KEY }

  lemma TopPage(t: Tree, path: seq<Step>, v: nat, lower: nat)
    requires Kept(t, v, lower) && PathOk(t, path, v, lower) && |path| > 0
    ensures var top := path[|path| - 1];
            && top.page < |t.pages| && top.page < |t.meta| && t.meta[top.page].Linked?
            && t.meta[top.page].fence == top.fence
            && ValidFence(top.fence) && PartAt(t, top.page, v) && t.meta[top.page].height >= 1
            && (t.pages[top.page].Index? <==> t.meta[top.page].height > 1)
            && (t.pages[top.page].Leaf? ==> Contains(top.fence, lower) && ReadableLeaf(t, top.page, v))
  {
    var top := path[|path| - 1];
    assert StepOk(t, top, v);
    hide Inv, Serves;
    PageKindAt(t, top.page, top.fence.lower, v);
  }

  /** The routed child, when the bound lies inside the fence of the top page; nothing otherwise. */
  lemma TopRoute(t: Tree, path: seq<Step>, v: nat, lower: nat)
    requires Kept(t, v, lower) && PathOk(t, path, v, lower) && |path| > 0
    requires path[|path| - 1].page < |t.pages| && t.pages[path[|path| - 1].page].Index?
    ensures var top := path[|path| - 1]; var r := Route(Entries(t.pages[top.page]), lower, v);
            && (r.Some? <==> Contains(top.fence, lower))
            && (r.None? ==> lower == IncKey(top.fence.upper) && top.fence != FULL)
            && (r.Some? ==> r.value < |Entries(t.pages[top.page])| && var e := Entries(t.pages[top.page])[r.value];
                            && StepOk(t, Step(e.fence, e.child), v) && Contains(e.fence, lower)
                            && e.fence.upper <= top.fence.upper
                            && Below(t, top, Step(e.fence, e.child)))
  {
    TopPage(t, path, v, lower);
    TopBounds(t, path, v, lower);
    var top := path[|path| - 1];
    hide Inv, ReadableLeaf, PathOk, StepOk, Route;
    TopWithin(t, top.page, top.fence, v);
    if Contains(top.fence, lower) { ServesAt(t, top.page, lower, v); RoutedFence(t, top.page, lower, v); }
  }

  lemma TopBounds(t: Tree, path: seq<Step>, v: nat, lower: nat)
    requires PathOk(t, path, v, lower) && |path| > 0
    ensures var top := path[|path| - 1]; top.fence.lower <= lower <= top.fence.upper + 1
  {
    assert StepOk(t, path[|path| - 1], v);
  }

  lemma TopWithin(t: Tree, p: nat, f: Fence, v: nat)
    requires Inv(t) && t.horizon <= v && PartAt(t, p, v) && t.meta[p].fence == f && ValidFence(f)
    requires t.meta[p].height > 1
    ensures p < |t.pages| && forall k: nat :: Route(Entries(t.pages[p]), k, v).Some? ==> Contains(f, k)
  {
    ServesAt(t, p, f.lower, v);
    hide Inv, RoutedTo, WholeFence;
    forall k: nat | Route(Entries(t.pages[p]), k, v).Some? ensures Contains(f, k) {
      assert Covers(f, Entries(t.pages[p])[Route(Entries(t.pages[p]), k, v).value].fence);
    }
  }

  lemma RoutedFence(t: Tree, p: nat, k: nat, v: nat)
    requires Inv(t) && Serves(t, p, k, v) && t.meta[p].height != 1
    ensures p < |t.pages| && Route(Entries(t.pages[p]), k, v).Some?
    ensures var e := Entries(t.pages[p])[Route(Entries(t.pages[p]), k, v).value];
            && StepOk(t, Step(e.fence, e.child), v) && Covers(t.meta[p].fence, e.fence) && Contains(e.fence, k)
            && t.meta[e.child].height < t.meta[p].height
  {
    MetaOkOf(t);
    hide Inv;
  }

  lemma PushStep(t: Tree, path: seq<Step>, v: nat, lower: nat, s: Step)
    requires PathOk(t, path, v, lower) && |path| > 0 && StepOk(t, s, v) && Contains(s.fence, lower)
    requires Below(t, path[|path| - 1], s)
    ensures PathOk(t, path + [s], v, lower)
  {
    var all := path + [s];
    forall i, j | 0 <= i < j < |all| ensures Below(t, all[i], all[j]) {
      if j == |path| && i < |path| - 1 { assert Below(t, path[i], path[|path| - 1]); }
    }
  }

  /**
   Leaving the top page: the bound moves behind it, which is inside or right behind all pages below it on
   the stack.
   */
  lemma PopStep(t: Tree, path: seq<Step>, v: nat, lower: nat)
    requires Kept(t, v, lower) && PathOk(t, path, v, lower) && |path| > 0
    requires Contains(path[|path| - 1].fence, lower)
             || (lower == IncKey(path[|path| - 1].fence.upper) && path[|path| - 1].fence != FULL)
    ensures PathOk(t, path[..|path| - 1], v, IncKey(path[|path| - 1].fence.upper))
  {
    var rest, next := path[..|path| - 1], IncKey(path[|path| - 1].fence.upper);
    TopPage(t, path, v, lower);
    hide *;
    BoundMoves(path[|path| - 1].fence, lower);
    RestStays(t, path, v, lower, next);
    PopTop(t, path, v, lower);
    PathOkIs(t, rest, v, next);
  }

  lemma BoundMoves(f: Fence, lower: nat)
    requires ValidFence(f) && (Contains(f, lower) || lower == IncKey(f.upper))
    ensures lower <= IncKey(f.upper) <= f.upper + 1
  {
  }

  lemma PathOkIs(t: Tree, path: seq<Step>, v: nat, lower: nat)
    requires forall i :: 0 <= i < |path| ==>
               StepOk(t, path[i], v) && path[i].fence.lower <= lower <= path[i].fence.upper + 1
    requires forall i, j :: 0 <= i < j < |path| ==> Below(t, path[i], path[j])
    requires if |path| == 0 then lower == MAX_KEY else path[0].fence == FULL && TopOk(t, path[|path| - 1], lower)
    ensures PathOk(t, path, v, lower)
  {
    hide StepOk, Below, TopOk;
  }

  lemma PopTop(t: Tree, path: seq<Step>, v: nat, lower: nat)
    requires PathOk(t, path, v, lower) && |path| > 0 && path[|path| - 1].page < |t.meta|
    requires t.meta[path[|path| - 1].page].Linked? && t.meta[path[|path| - 1].page].height >= 1
    ensures var rest, next := path[..|path| - 1], IncKey(path[|path| - 1].fence.upper);
            if |rest| == 0 then next == MAX_KEY else rest[0].fence == FULL && TopOk(t, rest[|rest| - 1], next)
  {
    hide StepOk;
    if |path| > 1 { assert Below(t, path[|path| - 2], path[|path| - 1]); }
  }

  lemma RestStays(t: Tree, path: seq<Step>, v: nat, lower: nat, next: nat)
    requires PathOk(t, path, v, lower) && |path| > 0 && lower <= next <= path[|path| - 1].fence.upper + 1
    ensures var rest := path[..|path| - 1];
            && (forall i :: 0 <= i < |rest| ==>
                  StepOk(t, rest[i], v) && rest[i].fence.lower <= next <= rest[i].fence.upper + 1)
            && forall i, j :: 0 <= i < j < |rest| ==> Below(t, rest[i], rest[j])
  {
    hide StepOk;
    var rest, top := path[..|path| - 1], path[|path| - 1];
    forall i | 0 <= i < |rest| ensures StepOk(t, rest[i], v) && rest[i].fence.lower <= next <= rest[i].fence.upper + 1 {
      assert StepOk(t, path[i], v) && Below(t, path[i], top);
    }
    forall i, j | 0 <= i < j < |rest| ensures Below(t, rest[i], rest[j]) {
      assert Below(t, path[i], path[j]);
    }
  }

  /** Only the bottom of the stack spans all keys. */
  lemma OthersBelow(t: Tree, path: seq<Step>, v: nat, lower: nat)
    requires PathOk(t, path, v, lower) && |path| > 0 && path[|path| - 1].fence != FULL
    ensures |path| > 1
  {
  }

  lemma KeptMoves(t: Tree, v: nat, lower: nat, next: nat)
    requires Kept(t, v, lower) && next <= MAX_KEY
    ensures Kept(t, v, next)
  {
    hide Inv;
  }

  ghost function TopHeight(t: Tree, path: seq<Step>): nat {
    if |path| > 0 && path[|path| - 1].page < |t.meta| && t.meta[path[|path| - 1].page].Linked? then
      t.meta[path[|path| - 1].page].height else 0
  }

  // ---------------------------------------------------------------- the iterator

  /** Everything an iterator relies on: its stack, its bound, and what it has delivered or buffered. */
  ghost predicate IterOk(t: Tree, v: nat, whole: Fence, range: Fence, path: seq<Step>, out: seq<Record>,
                         ended: bool) {
    && KeysBelowMax(t.history) && Kept(t, v, range.lower) && range.upper == whole.upper && whole.lower <= range.lower
    && PathOk(t, path, v, range.lower) && Collected(t.history, v, whole, range.lower, out) && Ascending(t, v, out)
    && (ended ==> range.lower > range.upper || range.lower == MAX_KEY)
  }

  lemma IterTop(t: Tree, v: nat, whole: Fence, range: Fence, path: seq<Step>, out: seq<Record>, ended: bool)
    requires IterOk(t, v, whole, range, path, out, ended) && |path| > 0
    ensures path[|path| - 1].page < |t.pages| && range.lower <= MAX_KEY
  {
    TopPage(t, path, v, range.lower);
  }

  lemma IterLeaf(t: Tree, v: nat, whole: Fence, range: Fence, path: seq<Step>, out: seq<Record>, ended: bool)
    requires IterOk(t, v, whole, range, path, out, ended) && |path| > 0 && path[|path| - 1].page < |t.pages|
    requires t.pages[path[|path| - 1].page].Leaf?
    ensures LeafOf(t, v, path[|path| - 1].page, range.lower)
  {
    TopPage(t, path, v, range.lower);
    hide Inv, Collected, Ascending, PathOk;
  }

  lemma IterAscends(t: Tree, v: nat, whole: Fence, range: Fence, path: seq<Step>, out: seq<Record>, ended: bool)
    requires IterOk(t, v, whole, range, path, out, ended)
    ensures Ascending(t, v, out)
  {
  }

  lemma IterEnds(t: Tree, v: nat, whole: Fence, range: Fence, path: seq<Step>, out: seq<Record>, ended: bool)
    requires IterOk(t, v, whole, range, path, out, ended) && (ended || range.lower == MAX_KEY)
    ensures Everything(t.history, v, whole, out)
  {
    CollectedAll(t.history, v, whole, range.lower, out);
  }

  class RangeQueryIter {
    const tree: MvbTree
    const readers: TransactionTrace
    const snapshot: nat
    ghost const whole: Fence
    var range: Fence
    var path: seq<Step>
    var buff: seq<Record>
    var isCompleted: bool
    ghost var delivered: seq<Record>

    /** The snapshot stays registered until the iterator has reported its end. */
    ghost predicate Valid()
      reads this, tree, readers
    {
      && tree.Valid() && readers.Valid()
      && IterOk(tree.T(), snapshot, whole, range, path, delivered + buff, isCompleted)
      && (!isCompleted ==> snapshot in readers.Readers())
    }

    constructor (tree: MvbTree, readers: TransactionTrace, version: nat, interval: Fence)
      requires tree.Valid() && readers.Valid() && KeysBelowMax(tree.history) && tree.horizon <= version
      requires interval.lower <= MAX_KEY
      modifies readers
      ensures Valid() && this.tree == tree && this.readers == readers && snapshot == version && whole == interval
      ensures delivered == [] && buff == [] && range == interval && !isCompleted
      ensures readers.Readers() == old(readers.Readers()) + multiset{version}
      ensures readers.Pinned() == old(readers.Pinned())
    {
      hide Inv, PathOk, Kept, KeysBelowMax, Route;
      StartPath(tree.T(), version, interval.lower);
      this.tree := tree;
      this.readers := readers;
      snapshot := version;
      whole := interval;
      range := interval;
      path := [Step(FULL, tree.roots[RootFor(tree.roots, version).value].page)];
      buff := [];
      isCompleted := false;
      delivered := [];
      new;
      readers.OnTxStart(version);
    }

    /**
     The next record; None exactly when everything in the interval has been delivered. At the end the
     iterator completes; only a call whose last leaf ends at the largest key returns without.
     */
    method Next() returns (r: Option<Record>)
      requires Valid()
      modifies this, readers
      ensures Valid() && Ascending(tree.T(), snapshot, delivered + buff)
      ensures old(isCompleted) ==> isCompleted
      ensures r.Some? ==> isCompleted == old(isCompleted)
      ensures old(buff) != [] ==>
                r == Some(old(buff)[0]) && buff == old(buff)[1..] && path == old(path) && range == old(range)
      ensures old(buff) == [] && r.Some? ==>
                exists p: nat, bound: nat :: FromLeaf(tree.T(), snapshot, p, bound, range.upper, [r.value] + buff)
      ensures old(buff) == [] && (old(isCompleted) || old(path) == [] || old(range.lower > range.upper)) ==>
                r.None? && isCompleted
      ensures r.None? && !old(isCompleted) && old(path) != [] && old(range.lower <= range.upper) ==>
                (isCompleted <==> range.lower != MAX_KEY)
      ensures readers.Pinned() == old(readers.Pinned())
      ensures readers.Readers()
              == if isCompleted && !old(isCompleted) then old(readers.Readers()) - multiset{snapshot}
                else old(readers.Readers())
      ensures r.Some? ==> delivered == old(delivered) + [r.value]
      ensures r.None? ==>
                delivered == old(delivered) && buff == [] && Everything(tree.history, snapshot, whole, delivered)
    {
      hide Inv, IterOk, Ascending, Everything, FromLeaf, GraveOrder, Sorted;
      hide TransactionTrace.Readers, TransactionTrace.Pinned;
      if |buff| > 0 {
        IterAscends(tree.T(), snapshot, whole, range, path, delivered + buff, isCompleted);
        r := PopFront();
        assert delivered + buff == old(delivered + buff);
      } else {
        assert delivered + buff == delivered;
        if isCompleted {
          IterEnds(tree.T(), snapshot, whole, range, path, delivered + buff, isCompleted);
          r := None;
        } else {
          r := Walk();
        }
        IterAscends(tree.T(), snapshot, whole, range, path, delivered + buff, isCompleted);
      }
    }

    /** Walks on until a leaf has delivered something or nothing is left. */
    method Walk() returns (r: Option<Record>)
      requires Valid() && buff == [] && !isCompleted
      modifies this, readers
      ensures Valid() && readers.Pinned() == old(readers.Pinned())
      ensures readers.Readers()
              == if isCompleted then old(readers.Readers()) - multiset{snapshot} else old(readers.Readers())
      ensures r.Some? ==> delivered == old(delivered) + [r.value] && !isCompleted
      ensures r.Some? ==>
                exists p: nat, bound: nat :: FromLeaf(tree.T(), snapshot, p, bound, range.upper, [r.value] + buff)
      ensures r.None? ==>
                delivered == old(delivered) && buff == [] && Everything(tree.history, snapshot, whole, delivered)
      ensures old(path) == [] || old(range.lower > range.upper) ==> r.None? && isCompleted
      ensures r.None? && old(path) != [] && old(range.lower <= range.upper) ==>
                (isCompleted <==> range.lower != MAX_KEY)
    {
      hide Inv, IterOk, Everything, FromLeaf, GraveOrder, Sorted;
      hide TransactionTrace.Readers, TransactionTrace.Pinned;
      ghost var t := tree.T();
      while true
        invariant Valid() && buff == [] && !isCompleted && delivered == old(delivered) && t == tree.T()
        invariant unchanged(readers)
        invariant old(path) == [] || old(range.lower > range.upper) ==> path == old(path) && range == old(range)
        invariant path == [] || range.lower > range.upper ==>
                    old(path) == [] || old(range.lower > range.upper) || range.lower != MAX_KEY
        decreases MAX_KEY + 1 - range.lower,
                  if |path| > 0 && Contains(path[|path| - 1].fence, range.lower) then 0 else 1,
                  if |path| > 0 && Contains(path[|path| - 1].fence, range.lower) then TopHeight(t, path) else |path|
      {
        if |path| == 0 || range.lower > range.upper {
          Complete();
          return None;
        }
        IterTop(t, snapshot, whole, range, path, delivered + buff, isCompleted);
        if tree.pages[path[|path| - 1].page].Index? {
          Turn();
        } else {
          r := Harvest();
          if r.Some? || range.lower == MAX_KEY {
            return;
          }
        }
      }
    }

    /** The first record of the leaf on top of the stack; the others go to the buffer. */
    method Harvest() returns (r: Option<Record>)
      requires Valid() && buff == [] && !isCompleted && |path| > 0 && range.lower <= range.upper
      requires path[|path| - 1].page < |tree.pages| && tree.pages[path[|path| - 1].page].Leaf?
      modifies this
      ensures Valid() && !isCompleted && range.upper == old(range.upper)
      ensures old(range.lower) < range.lower || range.lower == MAX_KEY
      ensures r.Some? ==>
                && delivered == old(delivered) + [r.value]
                && exists p: nat, bound: nat :: FromLeaf(tree.T(), snapshot, p, bound, range.upper, [r.value] + buff)
      ensures r.None? ==>
                && delivered == old(delivered) && buff == []
                && (range.lower == MAX_KEY ==> Everything(tree.history, snapshot, whole, delivered))
    {
      hide Inv, IterOk, Everything, FromLeaf, GraveOrder, Sorted, TransactionTrace.Readers;
      ghost var p, bound := path[|path| - 1].page, range.lower;
      TakeLeaf();
      r := None;
      if |buff| > 0 {
        ghost var batch := buff;
        r := PopFront();
        assert [r.value] + buff == batch;
      } else if range.lower == MAX_KEY {
        assert delivered + buff == delivered;
        IterEnds(tree.T(), snapshot, whole, range, path, delivered + buff, isCompleted);
      }
    }

    /** From an index page down to the child that has the bound, or back to the page below it on the stack. */
    method Turn()
      requires Valid() && buff == [] && !isCompleted && |path| > 0
      requires path[|path| - 1].page < |tree.pages| && tree.pages[path[|path| - 1].page].Index?
      modifies this`path, this`range
      ensures Valid() && |path| > 0 && range == old(range)
      ensures if old(Contains(path[|path| - 1].fence, range.lower)) then
                Contains(path[|path| - 1].fence, range.lower)
                  && TopHeight(tree.T(), path) < old(TopHeight(tree.T(), path))
              else |path| < old(|path|)
    {
      hide Inv, PathOk, Collected, Kept, KeysBelowMax, Ascending;
      hide Route, ReadableLeaf, Sorted;
      ghost var t := tree.T();
      var top := path[|path| - 1];
      TopPage(t, path, snapshot, range.lower);
      TopRoute(t, path, snapshot, range.lower);
      var es := Entries(tree.pages[top.page]);
      match Route(es, range.lower, snapshot) {
        case Some(i) =>
          PushStep(t, path, snapshot, range.lower, Step(es[i].fence, es[i].child));
          path := path + [Step(es[i].fence, es[i].child)];
        case None =>
          PopStep(t, path, snapshot, range.lower);
          OthersBelow(t, path, snapshot, range.lower);
          path := path[..|path| - 1];
          range := Fence(IncKey(top.fence.upper), range.upper);
      }
    }

    /** The end of the interval: the registration is released. */
    method Complete()
      requires Valid() && buff == [] && !isCompleted && (|path| == 0 || range.lower > range.upper)
      modifies this`isCompleted, readers
      ensures Valid() && isCompleted && Everything(tree.history, snapshot, whole, delivered)
      ensures readers.Pinned() == old(readers.Pinned())
      ensures readers.Readers() == old(readers.Readers()) - multiset{snapshot}
    {
      hide Inv, PathOk, Collected, Kept, KeysBelowMax, Ascending;
      hide Everything, TransactionTrace.Readers, TransactionTrace.Pinned, Sorted;
      assert delivered + buff == delivered;
      EmptyPath(tree.T(), path, snapshot, range.lower);
      CollectedAll(tree.history, snapshot, whole, range.lower, delivered);
      readers.OnTxCompleted(snapshot);
      isCompleted := true;
    }

    /** Reads the leaf on top of the stack: its records go to the buffer, the bound moves behind it. */
    method TakeLeaf()
      requires Valid() && buff == [] && !isCompleted && |path| > 0 && range.lower <= range.upper
      requires path[|path| - 1].page < |tree.pages| && tree.pages[path[|path| - 1].page].Leaf?
      modifies this
      ensures Valid() && !isCompleted && delivered == old(delivered)
      ensures old(range.lower) < range.lower || range.lower == MAX_KEY
      ensures FromLeaf(tree.T(), snapshot, old(path[|path| - 1].page), old(range.lower), range.upper, buff)
      ensures path == old(path[..|path| - 1])
      ensures range == Fence(IncKey(old(path[|path| - 1].fence.upper)), old(range.upper))
    {
      hide Inv, PathOk, Collected, Kept, KeysBelowMax, Ascending, ReadableLeaf, Batch;
      ghost var t := tree.T();
      var top, bound := path[|path| - 1], range.lower;
      IterLeaf(t, snapshot, whole, range, path, delivered + buff, isCompleted);
      TopPage(t, path, snapshot, bound);
      PopStep(t, path, snapshot, bound);
      assert delivered + buff == delivered;
      BatchCollects(t, top.page, snapshot, whole, bound, delivered);
      BatchAscends(t, top.page, snapshot, whole, bound, delivered);
      KeptMoves(t, snapshot, bound, IncKey(top.fence.upper));
      var batch := Batch(Records(tree.pages[top.page]), range, snapshot);
      buff := buff + batch;
      assert delivered + buff == delivered + batch;
      path := path[..|path| - 1];
      range := Fence(IncKey(top.fence.upper), range.upper);
    }

    method PopFront() returns (r: Option<Record>)
      requires Valid() && |buff| > 0
      modifies this`buff, this`delivered
      ensures Valid() && r == Some(old(buff)[0]) && delivered == old(delivered) + [r.value] && buff == old(buff)[1..]
    {
      hide Inv, PathOk, Collected, Kept, KeysBelowMax, Ascending;
      r := Some(buff[0]);
      assert delivered + buff == (delivered + [buff[0]]) + buff[1..];
      delivered := delivered + [buff[0]];
      buff := buff[1..];
    }

    /** A drop releases the registration if the end has not been reported; together with `Next` exactly once. */
    method Drop()
      requires Valid()
      modifies readers
      ensures readers.Valid() && readers.Pinned() == old(readers.Pinned())
      ensures readers.Readers() == old(readers.Readers()) - if isCompleted then multiset{} else multiset{snapshot}
    {
      if !isCompleted {
        readers.OnTxCompleted(snapshot);
      }
    }

    /**
     Between two calls other threads may run whole operations on the tree and register or release
     other readers: the iterator stays valid as long as its snapshot is kept.
     */
    twostate lemma ValidSurvives()
      requires old(Valid()) && unchanged(this) && tree.Valid() && readers.Valid()
      requires Keeps(old(tree.T()), tree.T()) && KeysBelowMax(tree.history)
      requires tree.horizon <= snapshot < old(tree.clock)
      requires !isCompleted ==> snapshot in readers.Readers()
      ensures Valid() && delivered == old(delivered)
    {
      IterStays(old(tree.T()), tree.T(), snapshot, whole, range, path, delivered + buff, isCompleted);
      hide Inv, IterOk, Sorted;
    }
  }

  lemma StartPath(t: Tree, v: nat, lower: nat)
    requires Inv(t) && t.horizon <= v && lower <= MAX_KEY
    ensures Kept(t, v, lower)
    ensures RootFor(t.roots, v).Some? && PathOk(t, [Step(FULL, t.roots[RootFor(t.roots, v).value].page)], v, lower)
  {
    hide Inv;
    ReadRoot(t, lower, v);
  }

  lemma EmptyPath(t: Tree, path: seq<Step>, v: nat, lower: nat)
    requires PathOk(t, path, v, lower)
    ensures |path| == 0 ==> lower == MAX_KEY
  {
  }

  lemma BatchAscends(t: Tree, leaf: nat, v: nat, whole: Fence, bound: nat, out: seq<Record>)
    requires ReadableLeaf(t, leaf, v) && KeysBelowMax(t.history)
    requires Collected(t.history, v, whole, bound, out) && Ascending(t, v, out)
    ensures Ascending(t, v, out + Batch(Records(t.pages[leaf]), Fence(bound, whole.upper), v))
  {
    var range := Fence(bound, whole.upper);
    var batch := Batch(Records(t.pages[leaf]), range, v);
    hide Ascending, Batch, KeysBelowMax, Inv;
    forall i | 0 <= i < |batch| ensures bound <= batch[i].key && LeafOf(t, v, leaf, batch[i].key) {
      assert batch[i] in batch;
      LeafAt(t, leaf, bound, v);
      InBatch(Records(t.pages[leaf]), t.meta[leaf].fence, range, v, batch[i]);
    }
    AscendingJoin(t, v, leaf, out, batch, bound);
  }

  lemma LeafStays(t0: Tree, t1: Tree, v: nat, out: seq<Record>)
    requires Ascending(t0, v, out) && Keeps(t0, t1) && t1.horizon <= v < t0.clock
    ensures Ascending(t1, v, out)
  {
    forall i, j | 0 <= i < j < |out| ensures out[i].key < out[j].key || SameLeaf(t1, v, out[i].key, out[j].key) {
      if out[i].key >= out[j].key {
        var p: nat :| LeafOf(t0, v, p, out[i].key) && LeafOf(t0, v, p, out[j].key);
        assert PartAt(t0, p, v) && SamePart(t0, t1, p);
        assert LeafOf(t1, v, p, out[i].key) && LeafOf(t1, v, p, out[j].key);
      }
    }
  }

  /** Whatever has been committed above the snapshot leaves the stack and what has been collected as they are. */
  lemma IterStays(t0: Tree, t1: Tree, v: nat, whole: Fence, range: Fence, path: seq<Step>, out: seq<Record>,
                  ended: bool)
    requires IterOk(t0, v, whole, range, path, out, ended) && Keeps(t0, t1)
    requires Inv(t1) && KeysBelowMax(t1.history) && t1.horizon <= v < t0.clock
    ensures IterOk(t1, v, whole, range, path, out, ended)
  {
    hide Inv, Pairwise;
    PathStays(t0, t1, path, v, range.lower);
    LeafStays(t0, t1, v, out);
    hide PathOk, KeysBelowMax, Ascending;
  }

  lemma PathStays(t0: Tree, t1: Tree, path: seq<Step>, v: nat, lower: nat)
    requires PathOk(t0, path, v, lower) && Keeps(t0, t1) && t1.horizon <= v < t0.clock
    ensures PathOk(t1, path, v, lower)
  {
    forall i | 0 <= i < |path| ensures StepOk(t1, path[i], v) && SamePart(t0, t1, path[i].page) {
      assert StepOk(t0, path[i], v) && PartAt(t0, path[i].page, v);
    }
    forall i, j | 0 <= i < j < |path| ensures Below(t1, path[i], path[j]) {
      assert Below(t0, path[i], path[j]);
    }
  }
}
