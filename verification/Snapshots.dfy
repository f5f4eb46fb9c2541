/**
 What a reader that holds a snapshot may rely on while whole operations run beside it: pages that
 are part of the tree at its snapshot stay so under the same fence, and no answer changes.
 */
module Snapshots {
  import opened Util
  import opened Fences
  import opened History
  import opened Pages
  import opened TreeModel
  import opened LeafWrites
  import opened Publish

  ghost predicate PartAt(t: Tree, i: nat, v: nat) { i < |t.meta| && AliveAt(t.meta[i], v) }

  ghost predicate SamePart(t0: Tree, t1: Tree, i: nat)
  {
    i < |t0.meta| && i < |t1.meta| && t0.meta[i].Linked? && t1.meta[i].Linked?
    && t1.meta[i].fence == t0.meta[i].fence && t1.meta[i].height == t0.meta[i].height
  }

  /** Nothing changes at the snapshots that have been drawn and are still kept. */
  ghost predicate Keeps(t0: Tree, t1: Tree) {
    && t0.horizon <= t1.horizon && t0.clock <= t1.clock
    && (forall i: nat, v: nat :: t1.horizon <= v < t0.clock && PartAt(t0, i, v) ==>
        PartAt(t1, i, v) && SamePart(t0, t1, i))
    && (forall k: nat, v: nat :: v < t0.clock ==> At(t1.history, k, v) == At(t0.history, k, v))
  }

  lemma KeepsTrans(t0: Tree, t1: Tree, t2: Tree)
    requires Keeps(t0, t1) && Keeps(t1, t2)
    ensures Keeps(t0, t2)
  {
    forall i: nat, v: nat | t2.horizon <= v < t0.clock && PartAt(t0, i, v)
      ensures PartAt(t2, i, v) && SamePart(t0, t2, i)
    {
      assert PartAt(t1, i, v) && SamePart(t0, t1, i);
    }
  }

  lemma KeepsClock(t0: Tree, t1: Tree)
    requires Keeps(t0, t1)
    ensures t0.clock <= t1.clock
  {
  }

  lemma KeepsSelf(t: Tree)
    ensures Keeps(t, t)
  {
  }

  /** Keeps, one after the other, ended by a change of the graveyard alone. */
  lemma KeepsChain(t0: Tree, t1: Tree, t2: Tree, t3: Tree)
    requires Keeps(t0, t1) && Keeps(t1, t2) && t3 == t2.(graveyard := t3.graveyard)
    ensures Keeps(t0, t3)
  {
    KeepsTrans(t0, t1, t2);
  }

  lemma ForgetKeeps(t0: Tree, t1: Tree, id: nat)
    requires Forgets(t0, t1, id)
    ensures Keeps(t0, t1)
  {
  }

  lemma NewMetaKeeps(t0: Tree, t1: Tree, dying: set<nat>, born: map<nat, Meta>)
    requires t1.meta == NewMeta(t0.meta, dying, born, t0.clock) && t1.clock == t0.clock + 1
    requires t1.horizon == t0.horizon && t1.history == t0.history
    requires forall b :: b in born ==> b < |t0.meta| && t0.meta[b] == Unlinked
    requires forall i :: i in dying ==> i < |t0.meta| && IsLinked(t0.meta[i])
    ensures Keeps(t0, t1)
  {
  }

  lemma CommitKeeps(t0: Tree, t1: Tree, op: Op)
    requires t1.meta == t0.meta && t1.clock >= t0.clock && t1.horizon == t0.horizon
    requires t1.history == t0.history || t1.history == t0.history + [Commit(t0.clock, op)]
    ensures Keeps(t0, t1)
  {
    forall k: nat, v: nat | v < t0.clock ensures At(t1.history, k, v) == At(t0.history, k, v) {
      AppendCommit(t0.history, t0.clock, op, k, v);
    }
  }
}
