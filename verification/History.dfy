/**
 The specification: a history of committed writes, each with the version it committed at, and
 the key-value map one gets by replaying the writes up to a version.
 */
module History {
  import opened Util

  datatype Op = Insert(key: nat, payload: nat) | Update(key: nat, payload: nat) | Delete(key: nat)

  datatype Commit = Commit(version: nat, op: Op)

  type History = seq<Commit>

  function Apply(m: map<nat, nat>, op: Op): map<nat, nat> {
    match op
    case Insert(k, p) => m[k := p]
    case Update(k, p) => m[k := p]
    case Delete(k) => m - {k}
  }

  /** Replays every write that committed at `v` or earlier. */
  function Replay(h: History, v: nat): map<nat, nat> {
    if |h| == 0 then map[]
    else
      var last := h[|h| - 1];
      var before := Replay(h[..|h| - 1], v);
      if last.version <= v then Apply(before, last.op) else before
  }

  function At(h: History, k: nat, v: nat): Option<nat> {
    var m := Replay(h, v);
    if k in m then Some(m[k]) else None
  }

  function Effect(op: Op): Option<nat> {
    if op.Delete? then None else Some(op.payload)
  }

  ghost predicate Before(h: History, clock: nat) {
    forall i :: 0 <= i < |h| ==> h[i].version < clock
  }

  /** A write changes exactly its own key, from its own version on. */
  lemma AppendCommit(h: History, w: nat, op: Op, k: nat, v: nat)
    ensures At(h + [Commit(w, op)], k, v) == if w <= v && k == op.key then Effect(op) else At(h, k, v)
  {
    var all := h + [Commit(w, op)];
    assert all[..|all| - 1] == h;
  }

  /**
   At every version a key has what the last write to it up to that version left there: its payload, or
   nothing after a delete; and nothing without any write.
   */
  lemma {:induction false} AtIsLastWrite(h: History, k: nat, v: nat, i: nat)
    requires i <= |h|
    requires i < |h| ==> h[i].version <= v && h[i].op.key == k
    requires forall j :: (if i < |h| then i + 1 else 0) <= j < |h| ==> h[j].version > v || h[j].op.key != k
    ensures i == |h| ==> At(h, k, v) == None
    ensures i < |h| ==> At(h, k, v) == if h[i].op.Delete? then None else Some(h[i].op.payload)
  {
    if |h| > 0 {
      var init, last := h[..|h| - 1], h[|h| - 1];
      assert h == init + [Commit(last.version, last.op)];
      AppendCommit(init, last.version, last.op, k, v);
      if i != |h| - 1 { AtIsLastWrite(init, k, v, if i < |h| then i else i - 1); }
    }
  }

  /** From the newest commit on, all versions agree. */
  lemma {:induction false} Latest(h: History, clock: nat, v: nat)
    requires Before(h, clock) && clock <= v + 1
    ensures Replay(h, v) == Replay(h, clock)
  {
    if |h| > 0 {
      Latest(h[..|h| - 1], clock, v);
      assert h[|h| - 1].version < clock;
    }
  }

  // ---------------------------------------------------------------- the abstract map

  /** When a write succeeds. */
  predicate Accepts(m: map<nat, nat>, op: Op) { if op.Insert? then op.key !in m else op.key in m }

  /** Executes operations on a plain map; those that do not succeed change nothing. */
  function Execute(m: map<nat, nat>, ops: seq<Op>): map<nat, nat> {
    if |ops| == 0 then m
    else
      var before := Execute(m, ops[..|ops| - 1]);
      if Accepts(before, ops[|ops| - 1]) then Apply(before, ops[|ops| - 1]) else before
  }

  /**
   What the last operation does to the map, value by value: a deleted key is gone, a key that was there is
   updated, a key that was not there is inserted, and all other keys are as before.
   */
  lemma ExecuteLast(m: map<nat, nat>, ops: seq<Op>, op: Op)
    ensures Execute(m, []) == m
    ensures var before, after := Execute(m, ops), Execute(m, ops + [op]);
            && (forall k: nat :: k != op.key ==>
                  (k in after <==> k in before) && (k in before ==> after[k] == before[k]))
            && (op.Delete? ==> op.key !in after)
            && (op.Update? ==> (op.key in after <==> op.key in before))
            && (op.Update? && op.key in before ==> after[op.key] == op.payload)
            && (op.Insert? ==> op.key in after)
            && (op.Insert? ==> after[op.key] == if op.key in before then before[op.key] else op.payload)
  {
    assert (ops + [op])[..|ops|] == ops;
  }

  /** The present after one more commit is the write applied to the present before it. */
  lemma ReplayCommit(h: History, w: nat, op: Op, clock: nat, later: nat)
    requires Before(h, clock) && clock <= w < later
    ensures Replay(h + [Commit(w, op)], later) == Apply(Replay(h, clock), op)
    ensures Before(h + [Commit(w, op)], later)
  {
    var all := h + [Commit(w, op)];
    assert all[..|all| - 1] == h;
    Latest(h, clock, later);
  }
}
