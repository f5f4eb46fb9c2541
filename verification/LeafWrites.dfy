/**
 Insert, update and delete on the leaf that holds the key: what each store changes for point
 reads at every version, and that the invariant survives with the write in the history.
 */
module LeafWrites {
  import opened Util
  import opened Fences
  import opened History
  import opened Pages
  import opened Fill
  import opened Smo
  import opened TreeModel

  function LastIsLive(rs: seq<Record>, k: nat): bool {
    var i := LastWithKey(rs, k);
    i.Some? && rs[i.value].Live()
  }

  lemma AnswerExists(rs: seq<Record>, k: nat, v: nat)
    ensures AnswerIs(rs, k, v, PointAnswer(rs, k, v))
  {
    PointAnswerIsLastHit(rs, k, v, PointAnswer(rs, k, v));
  }

  /** A pushed record of version `w` is what reads of its key find from `w` on, and nothing else changes. */
  lemma PushAnswer(rs: seq<Record>, r: Record, k: nat, v: nat)
    requires r.Live()
    ensures PointAnswer(rs + [r], k, v) == if r.ins <= v && k == r.key then Some(r.payload) else PointAnswer(rs, k, v)
  {
    var all := rs + [r];
    AnswerExists(rs, k, v);
    var ans := if r.ins <= v && k == r.key then Some(r.payload) else PointAnswer(rs, k, v);
    assert AnswerIs(all, k, v, ans) by {
      assert all[|rs|] == r;
      if ans.Some? && !(r.ins <= v && k == r.key) {
        var i :| 0 <= i < |rs| && Hit(rs[i], k, v) && rs[i].payload == ans.value && forall j :: i < j < |rs| ==>
            !Hit(rs[j], k, v);
        assert all[i] == rs[i];
      }
    }
    PointAnswerIsLastHit(all, k, v, ans);
  }

  lemma LiveIsLast(rs: seq<Record>, f: Fence, clock: nat, i: nat, j: nat)
    requires LeafGood(rs, f, clock) && i < |rs| && j < |rs| && rs[i].Live()
    ensures rs[j].key == rs[i].key ==> j <= i && (j < i ==> !rs[j].Live())
  {
  }

  /** Stamping the last record of a key ends it at `w`: reads below `w` and of other keys see no change. */
  lemma StampAnswer(rs: seq<Record>, f: Fence, w: nat, i: nat, k: nat, v: nat)
    requires LeafGood(rs, f, w) && i < |rs| && rs[i].Live()
    ensures PointAnswer(rs[i := rs[i].(del := Some(w))], k, v) == if w <= v && k == rs[i].key then None
            else PointAnswer(rs, k, v)
  {
    var all := rs[i := rs[i].(del := Some(w))];
    AnswerExists(rs, k, v);
    var ans := if w <= v && k == rs[i].key then None else PointAnswer(rs, k, v);
    if w <= v && k == rs[i].key {
      forall j | 0 <= j < |all| ensures !Hit(all[j], k, v) {
        LiveIsLast(rs, f, w, i, j);
        assert rs[j].del.Some? ==> rs[j].del.value < w;
      }
    } else {
      assert forall j :: 0 <= j < |all| ==> Hit(all[j], k, v) == Hit(rs[j], k, v);
      assert AnswerIs(all, k, v, ans) by {
        if ans.Some? {
          var j :| 0 <= j < |rs| && Hit(rs[j], k, v) && rs[j].payload == ans.value && forall m :: j < m < |rs| ==>
              !Hit(rs[m], k, v);
          assert Hit(all[j], k, v) && all[j].payload == ans.value;
        }
      }
    }
    PointAnswerIsLastHit(all, k, v, ans);
  }

  lemma StampGood(rs: seq<Record>, f: Fence, w: nat, i: nat)
    requires LeafGood(rs, f, w) && i < |rs| && rs[i].Live()
    ensures LeafGood(rs[i := rs[i].(del := Some(w))], f, w + 1)
  {
    var all := rs[i := rs[i].(del := Some(w))];
    forall a, b | 0 <= a < b < |all| && all[a].key == all[b].key
      ensures all[a].del.Some? && all[a].del.value <= all[b].ins
    {
      assert rs[a].key == rs[b].key;
    }
  }

  lemma StampEnds(rs: seq<Record>, f: Fence, w: nat, i: nat)
    requires LeafGood(rs, f, w) && i < |rs| && rs[i].Live()
    ensures var all := rs[i := rs[i].(del := Some(w))];
            !LastIsLive(all, rs[i].key) && |Filter(IsLive, all)| == |Filter(IsLive, rs)| - 1
  {
    hide Filter, LeafGood;
    var all := rs[i := rs[i].(del := Some(w))];
    FilterUpdate(IsLive, rs, i, rs[i].(del := Some(w)));
    assert all[i].key == rs[i].key;
    LiveIsLast(rs, f, w, i, LastWithKey(all, rs[i].key).value);
  }

  lemma PushGood(rs: seq<Record>, f: Fence, w: nat, r: Record)
    requires LeafGood(rs, f, w + 1) && r.ins == w && r.Live() && Contains(f, r.key) && !LastIsLive(rs, r.key)
    ensures LeafGood(rs + [r], f, w + 1)
    ensures |Filter(IsLive, rs + [r])| == |Filter(IsLive, rs)| + 1
  {
    hide Filter;
    var all := rs + [r];
    FilterSnoc(IsLive, rs, r);
    forall a, b | 0 <= a < b < |all| && all[a].key == all[b].key
      ensures all[a].del.Some? && all[a].del.value <= all[b].ins
    {
      if b == |rs| {
        var last := LastWithKey(rs, r.key).value;
        assert a < last ==> rs[a].key == rs[last].key;
      }
    }
  }

  /** What a point read at the newest versions finds in a page that is part of the tree: its live record. */
  lemma NewestAnswer(rs: seq<Record>, f: Fence, clock: nat, k: nat, v: nat)
    requires LeafGood(rs, f, clock) && clock <= v + 1
    ensures var i := LastWithKey(rs, k);
            PointAnswer(rs, k, v) == if LastIsLive(rs, k) then Some(rs[i.value].payload) else None
  {
    var i := LastWithKey(rs, k);
    forall j | 0 <= j < |rs| && !(i.Some? && j == i.value && rs[j].Live()) ensures !Hit(rs[j], k, v) {
      if rs[j].key == k {
        assert j <= i.value;
        assert j < i.value ==> rs[j].key == rs[i.value].key ==> !rs[j].Live();
      }
    }
    if LastIsLive(rs, k) {
      assert Hit(rs[i.value], k, v);
      PointAnswerIsLastHit(rs, k, v, Some(rs[i.value].payload));
    } else {
      PointAnswerIsLastHit(rs, k, v, None);
    }
  }

  // ---------------------------------------------------------------- one write, as a change of the whole tree

  /** The records of the leaf answer, at every version, as before plus the write. */
  ghost predicate WritesOp(rs0: seq<Record>, rs1: seq<Record>, w: nat, op: Op) {
    forall k: nat, v: nat :: PointAnswer(rs1, k, v) == if w <= v && k == op.key then Effect(op)
      else PointAnswer(rs0, k, v)
  }

  ghost predicate LeafWrite(t0: Tree, t1: Tree, leaf: nat, op: Op) {
    && |t0.meta| == |t0.pages| && leaf < |t0.pages| && |t1.pages| == |t0.pages|
    && IsLinked(t0.meta[leaf]) && t0.meta[leaf].height == 1 && Contains(t0.meta[leaf].fence, op.key)
    && t1 == t0.(pages := t0.pages[leaf := t1.pages[leaf]], clock := t0.clock + 1,
                 history := t0.history + [Commit(t0.clock, op)])
    && t1.pages[leaf].Leaf? && Capacity(t1.pages[leaf]) == Capacity(t0.pages[leaf])
    && Exact(t1.pages[leaf]) && LeafGood(Records(t1.pages[leaf]), t0.meta[leaf].fence, t1.clock)
    && WritesOp(Records(t0.pages[leaf]), Records(t1.pages[leaf]), t0.clock, op)
  }

  lemma WriteServes(t0: Tree, t1: Tree, leaf: nat, op: Op, i: nat, k: nat, v: nat)
    requires MetaOk(t0) && Apart(t0.meta) && AllServe(t0) && LeafWrite(t0, t1, leaf, op) && Visible(t1, i, k, v)
    ensures Serves(t1, i, k, v)
  {
    assert Visible(t0, i, k, v) && Serves(t0, i, k, v);
    AppendCommit(t0.history, t0.clock, op, k, v);
    if t0.meta[i].height == 1 && t0.clock <= v && k == op.key {
      OnlyOne(t0.meta, i, leaf, k);
    }
  }

  lemma WriteLive(t0: Tree, t1: Tree, leaf: nat, op: Op)
    requires MetaOk(t0) && LivePages(t0) && LeafWrite(t0, t1, leaf, op)
    ensures MetaOk(t1) && LivePages(t1)
  {
    hide Exact, LeafGood, IndexGood, WritesOp;
    forall i | 0 <= i < |t1.meta| && IsLinked(t1.meta[i])
      ensures LivePage(t1, t1.pages[i], t1.meta[i].fence, t1.meta[i].height)
    {
      assert LivePage(t0, t0.pages[i], t0.meta[i].fence, t0.meta[i].height);
      if i != leaf {
        LivePageFrame(t0, t1, t0.pages[i], t0.meta[i].fence, t0.meta[i].height);
      }
    }
  }

  lemma WriteRoots(t0: Tree, t1: Tree, leaf: nat, op: Op)
    requires MetaOk(t0) && RootsOk(t0) && FillOk(t0) && GraveyardOk(t0) && LeafWrite(t0, t1, leaf, op)
    requires leaf == Top(t0).page || Filling20(Capacity(t1.pages[leaf])) <= t1.pages[leaf].active
    ensures RootsOk(t1) && FillOk(t1) && GraveyardOk(t1)
  {
    hide WritesOp, LeafGood, Exact;
    forall v: nat | t1.horizon <= v ensures RootServes(t1, v) {
      assert RootServes(t0, v);
    }
  }

  /** One write on the leaf of its key keeps the invariant, with the write at the end of the history. */
  lemma WriteKeepsInv(t0: Tree, t1: Tree, leaf: nat, op: Op)
    requires Inv(t0) && LeafWrite(t0, t1, leaf, op)
    requires leaf == Top(t0).page || Filling20(Capacity(t1.pages[leaf])) <= t1.pages[leaf].active
    ensures Inv(t1)
  {
    hide LivePages, Apart, WritesOp, LeafGood, Exact, RootsOk, FillOk, GraveyardOk;
    WriteLive(t0, t1, leaf, op);
    WriteRoots(t0, t1, leaf, op);
    forall i: nat, k: nat, v: nat | Visible(t1, i, k, v) ensures Serves(t1, i, k, v) {
      hide Serves, Visible;
      WriteServes(t0, t1, leaf, op, i, k, v);
    }
  }
}
