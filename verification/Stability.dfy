/**
 Readers take no latches, so they see every single store of the writers. Each store a write or a
 reorganization makes at commit version `w` is harmless: it changes no turn, no answer and no batch
 of a reader below `w`.
 */
module Stability {
  import opened Util
  import opened Fences
  import opened History
  import opened Pages
  import opened Fill
  import opened Smo
  import opened TreeModel
  import opened LeafWrites
  import opened ParentReorg
  import opened ParentStores
  import opened LeafSteps
  import opened TreeSteps
  import opened Snapshots
  import opened RangeIter

  // ---------------------------------------------------------------- harmless stores

  /** The record is as it was, or it was live and ended at `w` or later. */
  ghost predicate RecordKept(a: Record, b: Record, w: nat) {
    b == a || (a.Live() && b.del.Some? && b.del.value >= w && b == a.(del := b.del))
  }

  /** The entry is as it was, up to its obsolete mark. */
  ghost predicate EntryKept(a: Entry, b: Entry) { b == a || b == a.(obsolete := true) }

  /** What was committed stays, and what is newly committed carries version `w` or later. */
  ghost predicate Harmless(p: Page, q: Page, w: nat) {
    && p.Leaf? == q.Leaf? && Capacity(p) == Capacity(q) && Sum(p) <= Sum(q)
    && if p.Leaf? then
         && (forall i :: 0 <= i < Sum(p) ==> RecordKept(p.recordData[i], q.recordData[i], w))
         && (forall i :: Sum(p) <= i < Sum(q) ==> q.recordData[i].ins >= w)
       else
         && (forall i :: 0 <= i < Sum(p) ==> EntryKept(p.entryData[i], q.entryData[i]))
         && (forall i :: Sum(p) <= i < Sum(q) ==> q.entryData[i].version >= w)
  }

  lemma HarmlessTrans(p: Page, q: Page, r: Page, w: nat)
    requires Harmless(p, q, w) && Harmless(q, r, w)
    ensures Harmless(p, r, w)
  {
  }

  // ---------------------------------------------------------------- what readers below `w` see

  lemma RecordsOf(p: Page, q: Page, w: nat)
    requires Harmless(p, q, w) && p.Leaf?
    ensures |Records(p)| <= |Records(q)|
    ensures forall i :: 0 <= i < |Records(p)| ==> RecordKept(Records(p)[i], Records(q)[i], w)
    ensures forall i :: |Records(p)| <= i < |Records(q)| ==> Records(q)[i].ins >= w
  {
  }

  lemma EntriesOf(p: Page, q: Page, w: nat)
    requires Harmless(p, q, w) && p.Index?
    ensures |Entries(p)| <= |Entries(q)|
    ensures forall i :: 0 <= i < |Entries(p)| ==> EntryKept(Entries(p)[i], Entries(q)[i])
    ensures forall i :: |Entries(p)| <= i < |Entries(q)| ==> Entries(q)[i].version >= w
  {
  }

  /** A reader below `w` takes the same turn before and after a harmless store. */
  lemma SameRoute(p: Page, q: Page, w: nat, k: nat, v: nat)
    requires Harmless(p, q, w) && p.Index? && v < w
    ensures Route(Entries(q), k, v) == Route(Entries(p), k, v)
    ensures Route(Entries(p), k, v).Some? ==>
              var i := Route(Entries(p), k, v).value;
              Entries(q)[i].child == Entries(p)[i].child && Entries(q)[i].fence == Entries(p)[i].fence
  {
    EntriesOf(p, q, w);
    hide Harmless, Entries;
    var es, es' := Entries(p), Entries(q);
    assert forall i :: 0 <= i < |es| ==> Fits(es'[i], k, v) == Fits(es[i], k, v);
    var a, b := Route(es, k, v), Route(es', k, v);
    if a.Some? { assert Fits(es'[a.value], k, v); }
    if b.Some? { assert Fits(es[b.value], k, v); }
  }

  lemma SameMatch(a: Record, b: Record, w: nat, v: nat)
    requires RecordKept(a, b, w) && v < w
    ensures b.Matches(v) == a.Matches(v) && b.key == a.key && b.payload == a.payload
  {
  }

  /** A point read below `w` has the same answer before and after a harmless store. */
  lemma SameAnswer(p: Page, q: Page, w: nat, k: nat, v: nat)
    requires Harmless(p, q, w) && p.Leaf? && v < w
    ensures PointAnswer(Records(q), k, v) == PointAnswer(Records(p), k, v)
  {
    RecordsOf(p, q, w);
    var rs, rs', ans := Records(p), Records(q), PointAnswer(Records(p), k, v);
    hide Harmless, Records, PointAnswer;
    forall i | 0 <= i < |rs| ensures Hit(rs'[i], k, v) == Hit(rs[i], k, v) && rs'[i].payload == rs[i].payload {
      SameMatch(rs[i], rs'[i], w, v);
    }
    PointAnswerIsLastHit(rs, k, v, ans);
    if ans.Some? {
      var i :| 0 <= i < |rs| && Hit(rs[i], k, v) && rs[i].payload == ans.value && forall j :: i < j < |rs| ==>
          !Hit(rs[j], k, v);
      assert Hit(rs'[i], k, v);
    }
    assert AnswerIs(rs', k, v, ans);
    PointAnswerIsLastHit(rs', k, v, ans);
  }

  datatype Pair = Pair(key: nat, payload: nat)

  function Pairs(rs: seq<Record>): (r: seq<Pair>)
    ensures |r| == |rs|
  {
    seq(|rs|, i requires 0 <= i < |rs| => Pair(rs[i].key, rs[i].payload))
  }

  lemma PairsSnoc(rs: seq<Record>, r: Record)
    ensures Pairs(rs + [r]) == Pairs(rs) + [Pair(r.key, r.payload)]
  {
  }

  /** A range read below `w` takes the same pairs in the same order before and after a harmless store. */
  lemma {:induction false} SameBatch(rs: seq<Record>, rs': seq<Record>, range: Fence, w: nat, v: nat)
    requires |rs| <= |rs'| && v < w
    requires forall i :: 0 <= i < |rs| ==> RecordKept(rs[i], rs'[i], w)
    requires forall i :: |rs| <= i < |rs'| ==> rs'[i].ins >= w
    ensures Pairs(Batch(rs', range, v)) == Pairs(Batch(rs, range, v))
    decreases |rs'|
  {
    if |rs'| > 0 {
      var last := |rs'| - 1;
      assert rs' == rs'[..last] + [rs'[last]];
      BatchSnoc(rs'[..last], rs'[last], range, v);
      if |rs| < |rs'| {
        SameBatch(rs, rs'[..last], range, w, v);
      } else {
        assert rs == rs[..last] + [rs[last]];
        BatchSnoc(rs[..last], rs[last], range, v);
        hide Batch, Pairs;
        SameBatch(rs[..last], rs'[..last], range, w, v);
        SameMatch(rs[last], rs'[last], w, v);
      }
    }
  }

  lemma BatchSnoc(rs: seq<Record>, r: Record, range: Fence, v: nat)
    ensures Pairs(Batch(rs + [r], range, v)) == Pairs(Batch(rs, range, v)) + if Wanted(r, range, v) then
            [Pair(r.key, r.payload)] else []
  {
    FilterSnoc((r: Record) => Wanted(r, range, v), rs, r);
    PairsSnoc(Batch(rs, range, v), r);
  }

  /** A root appended at `w` is not the root of any snapshot below `w`. */
  lemma SameRoot(roots: seq<Root>, more: seq<Root>, w: nat, v: nat)
    requires v < w && forall i :: 0 <= i < |more| ==> more[i].version >= w
    ensures RootFor(roots + more, v) == RootFor(roots, v)
  {
    var all := roots + more;
    var i, j := RootFor(all, v), RootFor(roots, v);
    assert forall n :: 0 <= n < |roots| ==> all[n] == roots[n];
    if i.Some? { assert i.value < |roots| && roots[i.value] == all[i.value]; }
    if j.Some? { assert all[j.value] == roots[j.value]; }
  }

  // ---------------------------------------------------------------- the stores of each operation, one by one

  /** Every page of the trace comes from the one before it by a harmless store. */
  ghost predicate AllHarmless(trace: seq<Page>, w: nat) {
    forall i :: 0 < i < |trace| ==> Harmless(trace[i - 1], trace[i], w)
  }

  lemma InsertStores(p: Page, r: Record)
    requires p.Leaf? && Sum(p) < Capacity(p)
    ensures var pushed := PushRecord(p, r, Sum(p)); AllHarmless([p, pushed, CommitDelta(pushed, 1, 0)], r.ins)
    ensures Inserted(p, r) == CommitDelta(PushRecord(p, r, Sum(p)), 1, 0)
  {
  }

  lemma DeleteStores(p: Page, i: nat, w: nat)
    requires p.Leaf? && i < Sum(p) && p.active >= 1 && Records(p)[i].Live()
    ensures var stamped := StampDeleted(p, i, w); AllHarmless([p, stamped, CommitDelta(stamped, -1, 1)], w)
    ensures Deleted(p, i, w) == CommitDelta(StampDeleted(p, i, w), -1, 1)
  {
  }

  /** An update shows its new record before the old one ends; readers below its version see neither. */
  lemma UpdateStores(p: Page, r: Record, i: nat)
    requires p.Leaf? && Sum(p) < Capacity(p) && i < Sum(p) && Records(p)[i].Live()
    ensures var a := PushRecord(p, r, Sum(p)); var b := CommitDelta(a, 1, 0); var c := StampDeleted(b, i, r.ins);
            AllHarmless([p, a, b, c, CommitDelta(c, -1, 1)], r.ins)
  {
    InsertStores(p, r);
    assert Inserted(p, r).recordData[i] == Records(p)[i];
    DeleteStores(Inserted(p, r), i, r.ins);
    var a := PushRecord(p, r, Sum(p));
    var b := CommitDelta(a, 1, 0);
    var c := StampDeleted(b, i, r.ins);
    var first, second := [p, a, b], [b, c, CommitDelta(c, -1, 1)];
    assert Harmless(first[0], first[1], r.ins) && Harmless(first[1], first[2], r.ins);
    assert Harmless(second[0], second[1], r.ins) && Harmless(second[1], second[2], r.ins);
  }

  /** A reorganization of one child: its pushes, the length, the mark. */
  lemma OverflowStores(p: Page, news: seq<Entry>, i: nat, w: nat)
    requires p.Index? && 1 <= |news| <= 2 && i < Sum(p) && Sum(p) + |news| <= Capacity(p)
    requires forall n :: 0 <= n < |news| ==> news[n].version == w
    ensures var a := PushEntry(p, news[0], Sum(p)); var b := if |news| == 2 then PushEntry(a, news[1], Sum(p) + 1)
            else a;
            var c := CommitDelta(b, |news| - 1, 1);
            AllHarmless([p, a, b, c, MarkObsolete(c, i)], w) && MarkObsolete(c, i) == StoredOne(p, news, i)
  {
  }

  /** A reorganization of two children: its pushes, the length, both marks. */
  lemma UnderflowStores(p: Page, news: seq<Entry>, sibling: nat, i: nat, w: nat)
    requires p.Index? && 1 <= |news| <= 2 && i < Sum(p) && sibling < Sum(p) && Sum(p) + |news| <= Capacity(p)
    requires p.active >= 1
    requires forall n :: 0 <= n < |news| ==> news[n].version == w
    ensures var a := PushEntry(p, news[0], Sum(p)); var b := if |news| == 2 then PushEntry(a, news[1], Sum(p) + 1)
            else a;
            var c := CommitDelta(b, |news| - 2, 2); var d := MarkObsolete(c, sibling);
            AllHarmless([p, a, b, c, d, MarkObsolete(d, i)], w) && MarkObsolete(d, i) == StoredTwo(p, news, sibling, i)
  {
  }
}
