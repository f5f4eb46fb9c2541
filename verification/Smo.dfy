/**
 What a reorganization computes from the pages it replaces: which live records or active entries
 go where, and under which fences.
 */
module Smo {
  import opened Util
  import opened Fences
  import opened Pages
  import opened Fill

  datatype Body = RecordBody(rs: seq<Record>) | EntryBody(es: seq<Entry>)

  datatype Outcome =
    | ByKey(leftFence: Fence, left: Body, rightFence: Fence, right: Body)
    | ByVersion(copy: Body)

  function IsLive(r: Record): bool { r.Live() }
  function IsActive(e: Entry): bool { e.Active() }
  function RecordKey(r: Record): int { r.key }
  function RecordVersion(r: Record): int { r.ins }
  function EntryLower(e: Entry): int { e.fence.lower }
  function EntryVersion(e: Entry): int { e.version }

  function LiveRecords(p: Page): seq<Record> { Filter(IsLive, Records(p)) }
  function ActiveEntries(p: Page): seq<Entry> { Filter(IsActive, Entries(p)) }

  function LiveUnits(p: Page): nat { if p.Leaf? then |LiveRecords(p)| else |ActiveEntries(p)| }

  /** The packed counters are exact. */
  predicate Exact(p: Page) { p.active == LiveUnits(p) }

  function Size(b: Body): nat { if b.RecordBody? then |b.rs| else |b.es| }

  function KeyOrder(p: Page): seq<Record> { SortBy(RecordKey, LiveRecords(p)) }
  function FenceOrder(p: Page): seq<Entry> { SortBy(EntryLower, ActiveEntries(p)) }

  /** Cuts a key-ordered list in the middle; the first key of the second half separates the fences. */
  function HalveRecords(sorted: seq<Record>, fence: Fence): Outcome
    requires |sorted| > 0
  {
    var middle := |sorted| / 2;
    ByKey(Fence(fence.lower, DecKey(sorted[middle].key)), RecordBody(SortBy(RecordVersion, sorted[..middle])),
          Fence(sorted[middle].key, fence.upper), RecordBody(SortBy(RecordVersion, sorted[middle..])))
  }

  function HalveEntries(sorted: seq<Entry>, fence: Fence): Outcome
    requires |sorted| > 0
  {
    var middle := |sorted| / 2;
    ByKey(Fence(fence.lower, DecKey(sorted[middle].fence.lower)), EntryBody(SortBy(EntryVersion, sorted[..middle])),
          Fence(sorted[middle].fence.lower, fence.upper), EntryBody(SortBy(EntryVersion, sorted[middle..])))
  }

  function Split(p: Page, fence: Fence): Outcome
    requires Exact(p) && Capacity(p) >= MIN_CAPACITY
  {
    if p.active >= Filling80(Capacity(p)) then
      if p.Leaf? then HalveRecords(KeyOrder(p), fence) else HalveEntries(FenceOrder(p), fence)
    else if p.Leaf? then ByVersion(RecordBody(LiveRecords(p)))
    else ByVersion(EntryBody(ActiveEntries(p)))
  }

  function OlderRecord(f: Record, s: Record): bool { f.ins <= s.ins }
  function OlderEntry(f: Entry, s: Entry): bool { f.version <= s.version }
  function SmallerKey(f: Record, s: Record): bool { f.key <= s.key }
  function SmallerFence(f: Entry, s: Entry): bool { f.fence.lower < s.fence.lower }

  /** Merges an underflowing page with its sibling, or redistributes when they do not fit into 80%. */
  function Merge(p: Page, fence: Fence, sibling: Page, siblingFence: Fence): Outcome
    requires Exact(p) && Exact(sibling) && p.Leaf? == sibling.Leaf?
    requires Capacity(p) >= MIN_CAPACITY
  {
    if sibling.active + p.active <= 4 * Capacity(p) / 5 then
      if p.Leaf? then ByVersion(RecordBody(MergeBy(OlderRecord, LiveRecords(p), LiveRecords(sibling))))
      else ByVersion(EntryBody(MergeBy(OlderEntry, ActiveEntries(p), ActiveEntries(sibling))))
    else if p.Leaf? then HalveRecords(MergeBy(SmallerKey, KeyOrder(sibling), KeyOrder(p)), Merged(fence, siblingFence))
    else HalveEntries(MergeBy(SmallerFence, FenceOrder(sibling), FenceOrder(p)), Merged(fence, siblingFence))
  }

  /** The sibling to merge with: the active neighbour to the right, or else the last one to the left. */
  function Candidate(es: seq<Entry>, index: nat): (r: Option<nat>)
    requires index < |es|
  {
    match FirstRight(es, index, 0)
    case Some(i) => Some(i)
    case None => LastLeft(es, index, 0)
  }

  /** Among the active entries from `from` on, the leftmost one that starts at or after `es[index]`. */
  function FirstRight(es: seq<Entry>, index: nat, from: nat): (r: Option<nat>)
    requires index < |es|
    ensures r.Some? ==> from <= r.value < |es| && RightOf(es, index, r.value)
    ensures r.Some? ==> forall j :: from <= j < |es| && RightOf(es, index, j) ==>
              es[r.value].fence.lower <= es[j].fence.lower
    ensures r.None? ==> forall j :: from <= j < |es| ==> !RightOf(es, index, j)
    decreases |es| - from
  {
    if from >= |es| then None
    else
      var rest := FirstRight(es, index, from + 1);
      if !RightOf(es, index, from) then rest
      else if rest.Some? && es[rest.value].fence.lower < es[from].fence.lower then rest
      else Some(from)
  }

  /** Among the active entries from `from` on, the rightmost one that starts before `es[index]`. */
  function LastLeft(es: seq<Entry>, index: nat, from: nat): (r: Option<nat>)
    requires index < |es|
    ensures r.Some? ==> from <= r.value < |es| && LeftOf(es, index, r.value)
    ensures r.Some? ==> forall j :: from <= j < |es| && LeftOf(es, index, j) ==>
              es[j].fence.lower <= es[r.value].fence.lower
    ensures r.None? ==> forall j :: from <= j < |es| ==> !LeftOf(es, index, j)
    decreases |es| - from
  {
    if from >= |es| then None
    else
      var rest := LastLeft(es, index, from + 1);
      if !LeftOf(es, index, from) then rest
      else if rest.Some? && es[from].fence.lower <= es[rest.value].fence.lower then rest
      else Some(from)
  }

  predicate RightOf(es: seq<Entry>, index: nat, j: nat)
    requires index < |es| && j < |es|
  {
    j != index && es[j].Active() && es[j].fence.lower >= es[index].fence.lower
  }

  predicate LeftOf(es: seq<Entry>, index: nat, j: nat)
    requires index < |es| && j < |es|
  {
    j != index && es[j].Active() && es[j].fence.lower < es[index].fence.lower
  }

  // ---------------------------------------------------------------- contents of a page that nobody wrote to yet

  ghost predicate OtherKey(a: Record, b: Record) { a.key != b.key }

  ghost predicate OtherFence(a: Entry, b: Entry) { Disjoint(a.fence, b.fence) }

  /** Live records of pairwise different keys, all inside the fence. */
  ghost predicate Holds(rs: seq<Record>, f: Fence) {
    && (forall r :: r in rs ==> r.Live() && Contains(f, r.key))
    && Pairwise(rs, OtherKey)
  }

  ghost predicate Covered(es: seq<Entry>, k: nat) { exists e :: e in es && Contains(e.fence, k) }

  /** Active entries whose fences cover `f` without gap and without overlap. */
  ghost predicate Tiles(es: seq<Entry>, f: Fence) {
    && (forall e :: e in es ==> e.Active() && ValidFence(e.fence) && Covers(f, e.fence))
    && Pairwise(es, OtherFence)
    && forall k :: Contains(f, k) ==> Covered(es, k)
  }

  /** `left` and `right` cut `f` in two. */
  ghost predicate Cut(f: Fence, left: Fence, right: Fence) {
    && ValidFence(left) && ValidFence(right)
    && left.lower == f.lower && right.upper == f.upper && left.upper + 1 == right.lower
  }

  lemma Symmetries()
    ensures Symmetric(OtherKey) && Symmetric(OtherFence)
  {
  }

  lemma HoldsSorted(key: Record -> int, rs: seq<Record>, f: Fence)
    requires Holds(rs, f)
    ensures Holds(SortBy(key, rs), f)
  {
    Symmetries();
    SortPairwise(key, rs, OtherKey);
  }

  lemma SameCover(es: seq<Entry>, r: seq<Entry>, k: nat)
    requires Covered(es, k) && forall e :: e in es ==> e in r
    ensures Covered(r, k)
  {
    var e :| e in es && Contains(e.fence, k);
    assert e in r;
  }

  lemma TilesSorted(key: Entry -> int, es: seq<Entry>, f: Fence)
    requires Tiles(es, f)
    ensures Tiles(SortBy(key, es), f)
  {
    Symmetries();
    SortPairwise(key, es, OtherFence);
    forall k | Contains(f, k) ensures Covered(SortBy(key, es), k) {
      SameCover(es, SortBy(key, es), k);
    }
  }

  lemma LeftHalfHolds(sorted: seq<Record>, f: Fence, middle: nat)
    requires 0 < middle < |sorted| && Holds(sorted, f) && SortedBy(RecordKey, sorted)
    ensures Holds(sorted[..middle], Fence(f.lower, DecKey(sorted[middle].key)))
    ensures f.lower < sorted[middle].key <= f.upper
  {
    var first, left := sorted[..middle], Fence(f.lower, DecKey(sorted[middle].key));
    assert sorted[middle] in sorted;
    forall r | r in first ensures r.key < sorted[middle].key && f.lower <= r.key && r.Live() {
      var i :| 0 <= i < middle && sorted[i] == r;
      assert OtherKey(sorted[i], sorted[middle]) && RecordKey(sorted[i]) <= RecordKey(sorted[middle]);
      assert r in sorted;
    }
    assert sorted[0] in first;
    assert Pairwise(first, OtherKey);
  }

  lemma RightHalfHolds(sorted: seq<Record>, f: Fence, middle: nat)
    requires 0 < middle < |sorted| && Holds(sorted, f) && SortedBy(RecordKey, sorted)
    ensures Holds(sorted[middle..], Fence(sorted[middle].key, f.upper))
  {
    var second, right := sorted[middle..], Fence(sorted[middle].key, f.upper);
    forall r | r in second ensures r.Live() && Contains(right, r.key) {
      var i :| 0 <= i < |second| && second[i] == r;
      assert second[i] == sorted[middle + i];
      assert i == 0 || RecordKey(sorted[middle]) <= RecordKey(sorted[middle + i]);
      assert r in sorted;
    }
    assert Pairwise(second, OtherKey) by {
      forall i, j | 0 <= i < j < |second| ensures OtherKey(second[i], second[j]) {
        assert OtherKey(sorted[middle + i], sorted[middle + j]);
      }
    }
  }

  /** Cutting a key-ordered list in the middle gives two lists, each inside its own fence. */
  lemma HalveRecordsHolds(sorted: seq<Record>, f: Fence)
    requires |sorted| >= 2 && ValidFence(f) && Holds(sorted, f) && SortedBy(RecordKey, sorted)
    ensures var o := HalveRecords(sorted, f);
            && Cut(f, o.leftFence, o.rightFence)
            && Holds(o.left.rs, o.leftFence) && Holds(o.right.rs, o.rightFence)
            && SortedBy(RecordVersion, o.left.rs) && SortedBy(RecordVersion, o.right.rs)
            && multiset(o.left.rs) + multiset(o.right.rs) == multiset(sorted)
            && |o.left.rs| == |sorted| / 2 && |o.right.rs| == |sorted| - |sorted| / 2
    ensures CutAtRecord(HalveRecords(sorted, f))
  {
    hide SortBy, SortedBy;
    var middle := |sorted| / 2;
    var first, second, o := sorted[..middle], sorted[middle..], HalveRecords(sorted, f);
    assert sorted == first + second;
    LeftHalfHolds(sorted, f, middle);
    RightHalfHolds(sorted, f, middle);
    HoldsSorted(RecordVersion, first, o.leftFence);
    HoldsSorted(RecordVersion, second, o.rightFence);
    assert second[0] in o.right.rs && second[0].key == o.rightFence.lower;
  }

  /** The fences of two leaves meet at the first key of the second one. */
  ghost predicate CutAtRecord(o: Outcome) {
    o.ByKey? && o.right.RecordBody? ==> exists r :: r in o.right.rs && r.key == o.rightFence.lower
  }

  lemma BelowMiddle(sorted: seq<Entry>, f: Fence, i: nat, middle: nat)
    requires i < |sorted| && middle < |sorted| && Tiles(sorted, f) && SortedBy(EntryLower, sorted)
    ensures i < middle ==> sorted[i].fence.upper < sorted[middle].fence.lower
    ensures sorted[i].Active() && ValidFence(sorted[i].fence) && Covers(f, sorted[i].fence)
  {
    assert sorted[i] in sorted && sorted[middle] in sorted;
    if i < middle {
      assert OtherFence(sorted[i], sorted[middle]) && EntryLower(sorted[i]) <= EntryLower(sorted[middle]);
    }
  }

  lemma FenceOrdered(sorted: seq<Entry>, i: nat, j: nat)
    requires i < |sorted| && j < |sorted| && SortedBy(EntryLower, sorted)
    ensures i <= j ==> sorted[i].fence.lower <= sorted[j].fence.lower
  {
    assert i < j ==> EntryLower(sorted[i]) <= EntryLower(sorted[j]);
  }

  lemma LeftHalfTiles(sorted: seq<Entry>, f: Fence, middle: nat)
    requires 0 < middle < |sorted| && Tiles(sorted, f) && SortedBy(EntryLower, sorted)
    ensures Tiles(sorted[..middle], Fence(f.lower, DecKey(sorted[middle].fence.lower)))
    ensures f.lower < sorted[middle].fence.lower
  {
    hide SortedBy;
    var first, left := sorted[..middle], Fence(f.lower, DecKey(sorted[middle].fence.lower));
    forall e | e in first
      ensures e.fence.upper < sorted[middle].fence.lower && e.Active() && ValidFence(e.fence)
              && f.lower <= e.fence.lower
    {
      var i :| 0 <= i < middle && sorted[i] == e;
      BelowMiddle(sorted, f, i, middle);
    }
    BelowMiddle(sorted, f, 0, middle);
    assert Pairwise(first, OtherFence);
    forall k: nat | Contains(left, k) ensures Covered(first, k) {
      assert Contains(f, k);
      var e :| e in sorted && Contains(e.fence, k);
      var i :| 0 <= i < |sorted| && sorted[i] == e;
      FenceOrdered(sorted, middle, i);
      assert e == first[i];
    }
  }

  lemma RightHalfTiles(sorted: seq<Entry>, f: Fence, middle: nat)
    requires 0 < middle < |sorted| && Tiles(sorted, f) && SortedBy(EntryLower, sorted)
    ensures Tiles(sorted[middle..], Fence(sorted[middle].fence.lower, f.upper))
  {
    var second, right := sorted[middle..], Fence(sorted[middle].fence.lower, f.upper);
    assert sorted[middle] in sorted;
    forall e | e in second ensures e.Active() && ValidFence(e.fence) && Covers(right, e.fence) {
      var i :| 0 <= i < |second| && second[i] == e;
      assert second[i] == sorted[middle + i];
      assert i == 0 || EntryLower(sorted[middle]) <= EntryLower(sorted[middle + i]);
      assert e in sorted;
    }
    assert Pairwise(second, OtherFence) by {
      forall i, j | 0 <= i < j < |second| ensures OtherFence(second[i], second[j]) {
        assert OtherFence(sorted[middle + i], sorted[middle + j]);
      }
    }
    forall k: nat | Contains(right, k) ensures Covered(second, k) {
      assert Contains(f, k);
      var e :| e in sorted && Contains(e.fence, k);
      var i :| 0 <= i < |sorted| && sorted[i] == e;
      assert middle <= i by { BelowMiddle(sorted, f, i, middle); }
      assert e == second[i - middle];
    }
  }

  lemma TileAt(es: seq<Entry>, f: Fence, i: nat)
    requires i < |es| && Tiles(es, f)
    ensures ValidFence(es[i].fence) && Covers(f, es[i].fence) && es[i].Active()
  {
    assert es[i] in es;
  }

  /** Cutting tiles in fence order gives two lists of tiles. */
  lemma HalveEntriesTiles(sorted: seq<Entry>, f: Fence)
    requires |sorted| >= 2 && ValidFence(f) && Tiles(sorted, f) && SortedBy(EntryLower, sorted)
    ensures var o := HalveEntries(sorted, f);
            && Cut(f, o.leftFence, o.rightFence)
            && Tiles(o.left.es, o.leftFence) && Tiles(o.right.es, o.rightFence)
            && SortedBy(EntryVersion, o.left.es) && SortedBy(EntryVersion, o.right.es)
            && multiset(o.left.es) + multiset(o.right.es) == multiset(sorted)
            && |o.left.es| == |sorted| / 2 && |o.right.es| == |sorted| - |sorted| / 2
  {
    hide SortBy, SortedBy, Tiles;
    var middle := |sorted| / 2;
    var first, second, o := sorted[..middle], sorted[middle..], HalveEntries(sorted, f);
    assert sorted == first + second;
    assert ValidFence(sorted[middle].fence) && Covers(f, sorted[middle].fence) by { TileAt(sorted, f, middle); }
    LeftHalfTiles(sorted, f, middle);
    RightHalfTiles(sorted, f, middle);
    TilesSorted(EntryVersion, first, o.leftFence);
    TilesSorted(EntryVersion, second, o.rightFence);
  }

  // ---------------------------------------------------------------- reorganizations conserve the live data

  function LiveBody(p: Page): Body { if p.Leaf? then RecordBody(LiveRecords(p)) else EntryBody(ActiveEntries(p)) }

  function RecordBag(b: Body): multiset<Record> { if b.RecordBody? then multiset(b.rs) else multiset{} }
  function EntryBag(b: Body): multiset<Entry> { if b.EntryBody? then multiset(b.es) else multiset{} }

  /** What a page right after a reorganization holds: everything inside its fence, ordered by version. */
  ghost predicate GoodBody(b: Body, f: Fence) {
    match b
    case RecordBody(rs) => Holds(rs, f) && SortedBy(RecordVersion, rs)
    case EntryBody(es) => Tiles(es, f) && SortedBy(EntryVersion, es)
  }

  /** The outputs split the bag of live units, each output holding what its own fence contains. */
  ghost predicate Conserves(o: Outcome, f: Fence, records: multiset<Record>, entries: multiset<Entry>) {
    match o
    case ByVersion(copy) =>
      GoodBody(copy, f) && RecordBag(copy) == records && EntryBag(copy) == entries
    case ByKey(leftFence, left, rightFence, right) =>
      && Cut(f, leftFence, rightFence)
      && GoodBody(left, leftFence) && GoodBody(right, rightFence)
      && left.RecordBody? == right.RecordBody?
      && RecordBag(left) + RecordBag(right) == records
      && EntryBag(left) + EntryBag(right) == entries
  }

  ghost predicate SizesAre(o: Outcome, leaf: bool, total: nat) {
    match o
    case ByVersion(copy) => copy.RecordBody? == leaf && Size(copy) == total
    case ByKey(_, left, _, right) =>
      left.RecordBody? == leaf && right.RecordBody? == leaf && Size(left) == total / 2
        && Size(right) == total - total / 2
  }

  lemma SplitLeafConserves(p: Page, f: Fence)
    requires p.Leaf? && Exact(p) && Capacity(p) >= MIN_CAPACITY && ValidFence(f)
    requires p.active >= Filling80(Capacity(p)) && Holds(LiveRecords(p), f)
    ensures Conserves(HalveRecords(KeyOrder(p), f), f, multiset(LiveRecords(p)), multiset{})
    ensures SizesAre(HalveRecords(KeyOrder(p), f), true, p.active) && CutAtRecord(HalveRecords(KeyOrder(p), f))
  {
    hide SortBy, SortedBy, Holds;
    HoldsSorted(RecordKey, LiveRecords(p), f);
    HalveRecordsHolds(KeyOrder(p), f);
  }

  lemma SplitIndexConserves(p: Page, f: Fence)
    requires p.Index? && Exact(p) && Capacity(p) >= MIN_CAPACITY && ValidFence(f)
    requires p.active >= Filling80(Capacity(p)) && Tiles(ActiveEntries(p), f)
    ensures Conserves(HalveEntries(FenceOrder(p), f), f, multiset{}, multiset(ActiveEntries(p)))
    ensures SizesAre(HalveEntries(FenceOrder(p), f), false, p.active)
  {
    hide SortBy, SortedBy, Tiles;
    TilesSorted(EntryLower, ActiveEntries(p), f);
    HalveEntriesTiles(FenceOrder(p), f);
  }

  /** A split conserves the live units of the page. */
  lemma SplitConserves(p: Page, f: Fence)
    requires Exact(p) && Capacity(p) >= MIN_CAPACITY && ValidFence(f) && GoodBody(LiveBody(p), f)
    ensures Conserves(Split(p, f), f, RecordBag(LiveBody(p)), EntryBag(LiveBody(p)))
    ensures SizesAre(Split(p, f), p.Leaf?, p.active)
    ensures Split(p, f).ByKey? <==> 5 * p.active >= 4 * Capacity(p)
    ensures CutAtRecord(Split(p, f))
  {
    FillingsReach(Capacity(p), p.active);
    if p.active >= Filling80(Capacity(p)) {
      if p.Leaf? { SplitLeafConserves(p, f); } else { SplitIndexConserves(p, f); }
    }
  }

  ghost predicate Adjacent(f: Fence, g: Fence) { f.upper + 1 == g.lower || g.upper + 1 == f.lower }

  lemma JoinHolds(first: (Record, Record) -> bool, a: seq<Record>, f: Fence, b: seq<Record>, g: Fence)
    requires Holds(a, f) && Holds(b, g) && ValidFence(f) && ValidFence(g) && Adjacent(f, g)
    ensures Holds(MergeBy(first, a, b), Merged(f, g))
  {
    Symmetries();
    forall x, y | x in a && y in b ensures OtherKey(x, y) {
      assert Contains(f, x.key) && Contains(g, y.key);
    }
    MergePairwise(first, a, b, OtherKey);
  }

  lemma JoinTiles(first: (Entry, Entry) -> bool, a: seq<Entry>, f: Fence, b: seq<Entry>, g: Fence)
    requires Tiles(a, f) && Tiles(b, g) && ValidFence(f) && ValidFence(g) && Adjacent(f, g)
    ensures Tiles(MergeBy(first, a, b), Merged(f, g))
  {
    Symmetries();
    forall x, y | x in a && y in b ensures OtherFence(x, y) {
      assert Covers(f, x.fence) && Covers(g, y.fence);
    }
    MergePairwise(first, a, b, OtherFence);
    forall k | Contains(Merged(f, g), k) ensures Covered(MergeBy(first, a, b), k) {
      if Contains(f, k) {
        SameCover(a, MergeBy(first, a, b), k);
      } else {
        assert Contains(g, k);
        SameCover(b, MergeBy(first, a, b), k);
      }
    }
  }

  ghost predicate Joinable(p: Page, f: Fence, q: Page, g: Fence) {
    && Exact(p) && Exact(q) && p.Leaf? == q.Leaf? && Capacity(p) >= MIN_CAPACITY
    && ValidFence(f) && ValidFence(g) && Adjacent(f, g)
    && GoodBody(LiveBody(p), f) && GoodBody(LiveBody(q), g)
  }

  /** What a merge of two key-adjacent pages computes: all live units of both, under the joined fence. */
  ghost predicate Joined(o: Outcome, p: Page, f: Fence, q: Page, g: Fence) {
    && Conserves(o, Merged(f, g), RecordBag(LiveBody(p)) + RecordBag(LiveBody(q)),
                 EntryBag(LiveBody(p)) + EntryBag(LiveBody(q)))
    && SizesAre(o, p.Leaf?, LiveUnits(p) + LiveUnits(q))
  }

  lemma RedistributeLeaves(p: Page, f: Fence, q: Page, g: Fence)
    requires Joinable(p, f, q, g) && p.Leaf? && |LiveRecords(p)| + |LiveRecords(q)| >= 2
    ensures Joined(HalveRecords(MergeBy(SmallerKey, KeyOrder(q), KeyOrder(p)), Merged(f, g)), p, f, q, g)
    ensures CutAtRecord(HalveRecords(MergeBy(SmallerKey, KeyOrder(q), KeyOrder(p)), Merged(f, g)))
  {
    hide SortBy, SortedBy, Holds, MergeBy, HalveRecords, Filter;
    HoldsSorted(RecordKey, LiveRecords(p), f);
    HoldsSorted(RecordKey, LiveRecords(q), g);
    JoinHolds(SmallerKey, KeyOrder(q), g, KeyOrder(p), f);
    MergeSorted(SmallerKey, RecordKey, KeyOrder(q), KeyOrder(p));
    HalveRecordsHolds(MergeBy(SmallerKey, KeyOrder(q), KeyOrder(p)), Merged(f, g));
    HalveShape(MergeBy(SmallerKey, KeyOrder(q), KeyOrder(p)), [], Merged(f, g));
  }

  lemma RedistributeIndexes(p: Page, f: Fence, q: Page, g: Fence)
    requires Joinable(p, f, q, g) && p.Index? && |ActiveEntries(p)| + |ActiveEntries(q)| >= 2
    ensures Joined(HalveEntries(MergeBy(SmallerFence, FenceOrder(q), FenceOrder(p)), Merged(f, g)), p, f, q, g)
  {
    hide SortBy, SortedBy, Tiles, MergeBy, HalveEntries, Filter;
    TilesSorted(EntryLower, ActiveEntries(p), f);
    TilesSorted(EntryLower, ActiveEntries(q), g);
    JoinTiles(SmallerFence, FenceOrder(q), g, FenceOrder(p), f);
    MergeSorted(SmallerFence, EntryLower, FenceOrder(q), FenceOrder(p));
    HalveEntriesTiles(MergeBy(SmallerFence, FenceOrder(q), FenceOrder(p)), Merged(f, g));
    HalveShape([], MergeBy(SmallerFence, FenceOrder(q), FenceOrder(p)), Merged(f, g));
  }

  lemma HalveShape(rs: seq<Record>, es: seq<Entry>, f: Fence)
    ensures |rs| > 0 ==>
              HalveRecords(rs, f).ByKey? && HalveRecords(rs, f).left.RecordBody?
              && HalveRecords(rs, f).right.RecordBody?
    ensures |es| > 0 ==>
              HalveEntries(es, f).ByKey? && HalveEntries(es, f).left.EntryBody? && HalveEntries(es, f).right.EntryBody?
  {
  }

  lemma CombineLeaves(p: Page, f: Fence, q: Page, g: Fence)
    requires Joinable(p, f, q, g) && p.Leaf?
    ensures Joined(ByVersion(RecordBody(MergeBy(OlderRecord, LiveRecords(p), LiveRecords(q)))), p, f, q, g)
  {
    hide Holds, MergeBy, Filter;
    JoinHolds(OlderRecord, LiveRecords(p), f, LiveRecords(q), g);
    MergeSorted(OlderRecord, RecordVersion, LiveRecords(p), LiveRecords(q));
  }

  lemma CombineIndexes(p: Page, f: Fence, q: Page, g: Fence)
    requires Joinable(p, f, q, g) && p.Index?
    ensures Joined(ByVersion(EntryBody(MergeBy(OlderEntry, ActiveEntries(p), ActiveEntries(q)))), p, f, q, g)
  {
    hide Tiles, MergeBy, Filter;
    JoinTiles(OlderEntry, ActiveEntries(p), f, ActiveEntries(q), g);
    MergeSorted(OlderEntry, EntryVersion, ActiveEntries(p), ActiveEntries(q));
  }

  /** Merging or redistributing two key-adjacent pages conserves the live units of both. */
  lemma MergeConserves(p: Page, f: Fence, q: Page, g: Fence)
    requires Joinable(p, f, q, g)
    ensures Joined(Merge(p, f, q, g), p, f, q, g)
    ensures Merge(p, f, q, g).ByVersion? <==> p.active + q.active <= 4 * Capacity(p) / 5
    ensures CutAtRecord(Merge(p, f, q, g))
  {
    hide SortBy, MergeBy, Joined, GoodBody;
    if q.active + p.active <= 4 * Capacity(p) / 5 {
      if p.Leaf? { CombineLeaves(p, f, q, g); } else { CombineIndexes(p, f, q, g); }
    } else if p.Leaf? {
      RedistributeLeaves(p, f, q, g);
    } else {
      RedistributeIndexes(p, f, q, g);
    }
  }

  // ---------------------------------------------------------------- the merge candidate

  /** The active entries of a page, by position: disjoint, inside `f`, and covering `f`. */
  ghost predicate ActiveTiles(es: seq<Entry>, f: Fence) {
    && (forall i :: 0 <= i < |es| && es[i].Active() ==> ValidFence(es[i].fence) && Covers(f, es[i].fence))
    && (forall i, j :: 0 <= i < j < |es| && es[i].Active() && es[j].Active() ==> Disjoint(es[i].fence, es[j].fence))
    && forall k :: Contains(f, k) ==> ActiveAt(es, k)
  }

  ghost predicate ActiveAt(es: seq<Entry>, k: nat) {
    exists i :: 0 <= i < |es| && es[i].Active() && Contains(es[i].fence, k)
  }

  /** By position or filtered, it is the same tiling. */
  lemma ActiveTilesFiltered(es: seq<Entry>, f: Fence)
    requires ActiveTiles(es, f)
    ensures Tiles(Filter(IsActive, es), f)
  {
    var act := Filter(IsActive, es);
    forall e | e in act ensures e.Active() && ValidFence(e.fence) && Covers(f, e.fence) {
      var i :| 0 <= i < |es| && es[i] == e;
    }
    FilterPairwise(IsActive, es, OtherFence);
    forall k | Contains(f, k) ensures Covered(act, k) {
      var i :| 0 <= i < |es| && es[i].Active() && Contains(es[i].fence, k) by { assert ActiveAt(es, k); }
      assert es[i] in act;
    }
  }

  /**
   The merge candidate of an active entry is its key neighbour, the right one unless it is the last; and there is
   one if it is not alone.
   */
  lemma CandidateIsAdjacent(es: seq<Entry>, f: Fence, index: nat)
    requires ActiveTiles(es, f) && ValidFence(f) && index < |es| && es[index].Active()
    requires es[index].fence != f
    ensures var c := Candidate(es, index);
            && c.Some? && c.value < |es| && c.value != index && es[c.value].Active()
            && Adjacent(es[index].fence, es[c.value].fence)
            && (if es[index].fence.upper < f.upper then es[c.value].fence.lower == es[index].fence.upper + 1
                else es[c.value].fence.upper + 1 == es[index].fence.lower)
  {
    var own := es[index].fence;
    if own.upper < f.upper {
      assert ActiveAt(es, own.upper + 1);
      var j :| 0 <= j < |es| && es[j].Active() && Contains(es[j].fence, own.upper + 1);
      assert RightOf(es, index, j);
    } else {
      assert ActiveAt(es, own.lower - 1);
      var j :| 0 <= j < |es| && es[j].Active() && Contains(es[j].fence, own.lower - 1);
      assert LeftOf(es, index, j);
    }
  }

  lemma ActiveDisjoint(es: seq<Entry>, f: Fence, i: nat, j: nat)
    requires ActiveTiles(es, f) && i < |es| && j < |es| && i != j
    ensures es[i].Active() && es[j].Active() ==>
              Disjoint(es[i].fence, es[j].fence) && ValidFence(es[j].fence) && Covers(f, es[j].fence)
  {
    if i < j { assert es[i].Active() && es[j].Active() ==> Disjoint(es[i].fence, es[j].fence); }
  }

  /** An entry that spans the whole fence is the only active one. */
  lemma SpanningIsAlone(es: seq<Entry>, f: Fence, index: nat)
    requires ActiveTiles(es, f) && index < |es| && es[index].Active() && es[index].fence == f
    ensures |Filter(IsActive, es)| == 1
  {
    forall j | 0 <= j < |es| && j != index ensures !IsActive(es[j]) {
      ActiveDisjoint(es, f, index, j);
    }
    OneActive(es, index);
  }

  lemma OneActive(es: seq<Entry>, index: nat)
    requires index < |es| && IsActive(es[index])
    requires forall j :: 0 <= j < |es| && j != index ==> !IsActive(es[j])
    ensures Filter(IsActive, es) == [es[index]]
  {
    hide Filter;
    var left, right := es[..index], es[index + 1..];
    assert es == left + ([es[index]] + right);
    FilterConcat(IsActive, left, [es[index]] + right);
    FilterConcat(IsActive, [es[index]], right);
    FilterSingle(IsActive, es[index]);
    NoneActive(left);
    NoneActive(right);
  }

  lemma NoneActive(es: seq<Entry>)
    requires forall i :: 0 <= i < |es| ==> !IsActive(es[i])
    ensures Filter(IsActive, es) == []
  {
    if Filter(IsActive, es) != [] {
      assert Filter(IsActive, es)[0] in Filter(IsActive, es);
    }
  }
}
