/**
 The stores of insert, update and delete in their leaf, added up: what the leaf holds at the end of
 each operation, and that this is one write of the history.
 */
module LeafSteps {
  import opened Util
  import opened Fences
  import opened History
  import opened Pages
  import opened Fill
  import opened Smo
  import opened TreeModel
  import opened LeafWrites

  function Inserted(p: Page, r: Record): (q: Page)
    requires p.Leaf? && Sum(p) < Capacity(p)
  {
    CommitDelta(PushRecord(p, r, Sum(p)), 1, 0)
  }

  function Deleted(p: Page, i: nat, w: nat): (q: Page)
    requires p.Leaf? && i < Sum(p) && p.active >= 1
  {
    CommitDelta(StampDeleted(p, i, w), -1, 1)
  }

  lemma InsertedRecords(p: Page, r: Record)
    requires p.Leaf? && Sum(p) < Capacity(p)
    ensures var q := Inserted(p, r);
            && q.Leaf? && Capacity(q) == Capacity(p) && q.active == p.active + 1
            && Records(q) == Records(p) + [r]
    ensures Sum(Inserted(p, r)) == Sum(p) + 1 && Records(Inserted(p, r))[..Sum(p)] == Records(p)
  {
  }

  lemma DeletedRecords(p: Page, i: nat, w: nat)
    requires p.Leaf? && i < Sum(p) && p.active >= 1
    ensures var q := Deleted(p, i, w);
            q.Leaf? && Capacity(q) == Capacity(p) && q.active == p.active - 1
              && Records(q) == Records(p)[i := Records(p)[i].(del := Some(w))]
  {
  }

  lemma GoodLater(rs: seq<Record>, f: Fence, clock: nat)
    requires LeafGood(rs, f, clock)
    ensures LeafGood(rs, f, clock + 1)
  {
  }

  /** What a write needs of the leaf it leaves behind. */
  ghost predicate Writes(p: Page, q: Page, f: Fence, w: nat, op: Op) {
    && p.Leaf? && q.Leaf? && Capacity(q) == Capacity(p) && Exact(q)
    && LeafGood(Records(q), f, w + 1) && WritesOp(Records(p), Records(q), w, op)
  }

  lemma ExactLeaf(p: Page)
    requires p.Leaf?
    ensures Exact(p) <==> p.active == |Filter(IsLive, Records(p))|
  {
  }

  /** A new record at the end of a leaf that has no live record of its key. */
  lemma InsertWrites(p: Page, f: Fence, w: nat, key: nat, payload: nat)
    requires p.Leaf? && Exact(p) && Sum(p) < Capacity(p) && LeafGood(Records(p), f, w) && Contains(f, key)
    requires !LastIsLive(Records(p), key)
    ensures Writes(p, Inserted(p, Record(key, payload, w, None)), f, w, Op.Insert(key, payload))
  {
    var r := Record(key, payload, w, None);
    InsertedRecords(p, r);
    ExactLeaf(p);
    ExactLeaf(Inserted(p, r));
    hide Exact, Filter, Records, LeafGood, Inserted, PointAnswer, LastIsLive;
    GoodLater(Records(p), f, w);
    PushGood(Records(p), f, w, r);
    forall k: nat, v: nat
      ensures PointAnswer(Records(p) + [r], k, v) == if w <= v && k == key then Some(payload)
              else PointAnswer(Records(p), k, v)
    {
      PushAnswer(Records(p), r, k, v);
    }
  }

  lemma LastLive(rs: seq<Record>, i: nat)
    requires i < |rs| && LastWithKey(rs, rs[i].key) == Some(i) && rs[i].Live()
    ensures |Filter(IsLive, rs)| >= 1
  {
    assert rs[i] in Filter(IsLive, rs);
  }

  lemma DeleteWrites(p: Page, f: Fence, w: nat, i: nat)
    requires p.Leaf? && Exact(p) && p.active >= 1 && LeafGood(Records(p), f, w) && i < Sum(p) && Records(p)[i].Live()
    ensures Writes(p, Deleted(p, i, w), f, w, Op.Delete(Records(p)[i].key))
  {
    var rs := Records(p);
    DeletedRecords(p, i, w);
    ExactLeaf(p);
    ExactLeaf(Deleted(p, i, w));
    hide Exact, Filter, Records, LeafGood, Deleted, PointAnswer, LastIsLive;
    StampGood(rs, f, w, i);
    StampEnds(rs, f, w, i);
    hide WritesOp;
    StampWritesOp(rs, f, w, i);
  }

  lemma StampWritesOp(rs: seq<Record>, f: Fence, w: nat, i: nat)
    requires LeafGood(rs, f, w) && i < |rs| && rs[i].Live()
    ensures WritesOp(rs, rs[i := rs[i].(del := Some(w))], w, Op.Delete(rs[i].key))
  {
    hide LeafGood, PointAnswer;
    var stamped := rs[i := rs[i].(del := Some(w))];
    forall k: nat, v: nat
      ensures PointAnswer(stamped, k, v) == if w <= v && k == rs[i].key then None else PointAnswer(rs, k, v)
    {
      StampAnswer(rs, f, w, i, k, v);
    }
  }

  lemma ReplaceWritesOp(rs: seq<Record>, f: Fence, w: nat, i: nat, r: Record)
    requires LeafGood(rs, f, w) && i < |rs| && rs[i].Live() && r.Live() && r.key == rs[i].key && r.ins == w
    ensures WritesOp(rs, rs[i := rs[i].(del := Some(w))] + [r], w, Op.Update(r.key, r.payload))
  {
    hide LeafGood, PointAnswer;
    var stamped := rs[i := rs[i].(del := Some(w))];
    forall k: nat, v: nat
      ensures PointAnswer(stamped + [r], k, v) == if w <= v && k == r.key then Some(r.payload)
              else PointAnswer(rs, k, v)
    {
      StampAnswer(rs, f, w, i, k, v);
      PushAnswer(stamped, r, k, v);
    }
  }

  /** Pushing the new record first and stamping the old one then leaves the same leaf as the other order. */
  lemma UpdateRecords(p: Page, r: Record, i: nat, w: nat)
    requires p.Leaf? && Sum(p) < Capacity(p) && i < Sum(p)
    ensures var q := Deleted(Inserted(p, r), i, w);
            && q.Leaf? && Capacity(q) == Capacity(p) && q.active == p.active
            && Records(q) == Records(p)[i := Records(p)[i].(del := Some(w))] + [r]
  {
    InsertedRecords(p, r);
    DeletedRecords(Inserted(p, r), i, w);
  }

  lemma UpdateWrites(p: Page, f: Fence, w: nat, i: nat, payload: nat)
    requires p.Leaf? && Exact(p) && Sum(p) < Capacity(p) && LeafGood(Records(p), f, w) && i < Sum(p)
    requires Records(p)[i].Live()
    ensures Writes(p, Deleted(Inserted(p, Record(Records(p)[i].key, payload, w, None)), i, w), f, w,
                   Op.Update(Records(p)[i].key, payload))
  {
    var rs := Records(p);
    var key := rs[i].key;
    var r := Record(key, payload, w, None);
    var q := Deleted(Inserted(p, r), i, w);
    UpdateRecords(p, r, i, w);
    InFence(rs, f, w, i);
    ExactLeaf(p);
    ExactLeaf(q);
    hide Exact, Filter, Records, LeafGood, Deleted, Inserted, PointAnswer, LastIsLive;
    var stamped := rs[i := rs[i].(del := Some(w))];
    StampGood(rs, f, w, i);
    StampEnds(rs, f, w, i);
    PushGood(stamped, f, w, r);
    hide WritesOp;
    ReplaceWritesOp(rs, f, w, i, r);
  }

  lemma InFence(rs: seq<Record>, f: Fence, clock: nat, i: nat)
    requires LeafGood(rs, f, clock) && i < |rs| && rs[i].Live()
    ensures Contains(f, rs[i].key)
  {
  }

  /** One write in the leaf of its key, as a step of the whole tree. */
  lemma WriteStep(t0: Tree, t1: Tree, leaf: nat, q: Page, op: Op)
    requires |t0.meta| == |t0.pages| && leaf < |t0.pages| && IsLinked(t0.meta[leaf]) && t0.meta[leaf].height == 1
    requires Contains(t0.meta[leaf].fence, op.key)
    requires Writes(t0.pages[leaf], q, t0.meta[leaf].fence, t0.clock, op)
    requires t1 == t0.(pages := t0.pages[leaf := q], clock := t0.clock + 1,
                       history := t0.history + [Commit(t0.clock, op)])
    ensures LeafWrite(t0, t1, leaf, op)
  {
    hide Exact, LeafGood, WritesOp;
  }
}
