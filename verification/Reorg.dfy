/**
 Publishing the outcome of a reorganization: the replaced pages die at the version `w` the
 reorganization draws, the new pages are born at `w`, and nothing a reader finds changes.
 */
module Reorg {
  import opened Util
  import opened Fences
  import opened History
  import opened Pages
  import opened Fill
  import opened Smo
  import opened TreeModel
  import opened LeafWrites

  ghost predicate MetaStep(m0: seq<Meta>, m1: seq<Meta>, dying: set<nat>, born: map<nat, Meta>, w: nat) {
    && |m1| == |m0|
    && (forall i :: i in dying ==> i < |m0| && IsLinked(m0[i]) && i !in born)
    && (forall i :: i in born ==> i < |m0| && m0[i] == Unlinked && IsLinked(born[i]) && born[i].birth == w
                                  && ValidFence(born[i].fence) && born[i].height >= 1)
    && forall i :: 0 <= i < |m0| ==>
         m1[i] == if i in born then born[i] else if i in dying then m0[i].(death := Some(w)) else m0[i]
  }

  /** No page that stays, apart from the touched ones, has a dying page below it. */
  ghost predicate NoOrphans(m0: seq<Meta>, dying: set<nat>, touched: set<nat>)
    requires forall i :: i in dying ==> i < |m0| && m0[i].Linked?
  {
    forall q, c :: 0 <= q < |m0| && IsLinked(m0[q]) && q !in dying && q !in touched && c in dying ==>
      m0[c].height + 1 == m0[q].height ==> Disjoint(m0[q].fence, m0[c].fence)
  }

  /** The new pages overlap neither each other nor a page of their height that stays. */
  ghost predicate BornApart(m0: seq<Meta>, dying: set<nat>, born: map<nat, Meta>)
  {
    && (forall b, q :: b in born && IsLinked(born[b]) && 0 <= q < |m0| && IsLinked(m0[q]) && q !in dying ==>
         m0[q].height == born[b].height ==> Disjoint(born[b].fence, m0[q].fence))
    && forall b, c :: b in born && c in born && b != c && IsLinked(born[b]) && IsLinked(born[c]) ==>
         born[b].height == born[c].height ==> Disjoint(born[b].fence, born[c].fence)
  }

  /** A page nobody wrote to since it was filled, holding what the history says at its birth. */
  ghost predicate Newborn(t: Tree, i: nat) {
    && i < |t.meta| && i < |t.pages| && t.meta[i].Linked?
    && LivePage(t, t.pages[i], t.meta[i].fence, t.meta[i].height) && t.pages[i].dead == 0
    && (t.meta[i].height == 1 ==> LeafTrue(t, i))
  }

  ghost predicate LeafTrue(t: Tree, i: nat)
    requires i < |t.meta| && i < |t.pages| && t.meta[i].Linked?
  {
    forall k: nat :: Contains(t.meta[i].fence, k) ==>
      PointAnswer(Records(t.pages[i]), k, t.meta[i].birth) == At(t.history, k, t.meta[i].birth)
  }

  ghost predicate CommitStep(t0: Tree, t1: Tree, dying: set<nat>, born: map<nat, Meta>, touched: set<nat>) {
    && |t0.meta| == |t0.pages| == |t1.pages|
    && MetaStep(t0.meta, t1.meta, dying, born, t0.clock)
    && t1 == t0.(pages := t1.pages, roots := t1.roots, clock := t0.clock + 1, meta := t1.meta)
    && (forall i :: 0 <= i < |t0.pages| && i !in touched ==> t1.pages[i] == t0.pages[i])
    && (forall i :: i in touched ==> i < |t0.meta| && IsLinked(t0.meta[i]) && i !in dying && i !in born)
  }

  // ---------------------------------------------------------------- readers

  /** A page that stays or dies, untouched, serves as before wherever it is still visible. */
  lemma OthersServe(t0: Tree, t1: Tree, dying: set<nat>, born: map<nat, Meta>, touched: set<nat>, i: nat, k: nat,
                    v: nat)
    requires MetaOk(t0) && AllServe(t0) && CommitStep(t0, t1, dying, born, touched)
    requires NoOrphans(t0.meta, dying, touched)
    requires Visible(t1, i, k, v) && i !in born && i !in touched
    ensures Serves(t1, i, k, v)
  {
    assert Visible(t0, i, k, v) && Serves(t0, i, k, v);
    if t0.meta[i].height != 1 {
      var e := Entries(t0.pages[i])[Route(Entries(t0.pages[i]), k, v).value];
      assert RoutedTo(t0, i, e, v);
    }
  }

  lemma {:induction false} FilterFull<T(!new)>(p: T -> bool, s: seq<T>)
    requires |Filter(p, s)| == |s|
    ensures forall x :: x in s ==> p(x)
  {
    if |s| > 0 {
      var last := |s| - 1;
      FilterFull(p, s[..last]);
      assert s == s[..last] + [s[last]];
    }
  }

  lemma NewLeafServes(t1: Tree, i: nat, k: nat, v: nat)
    requires Newborn(t1, i) && t1.meta[i].height == 1 && t1.clock == t1.meta[i].birth + 1
    requires Before(t1.history, t1.clock)
    requires Visible(t1, i, k, v)
    ensures Serves(t1, i, k, v)
  {
    var w := t1.meta[i].birth;
    NewestAnswer(Records(t1.pages[i]), t1.meta[i].fence, t1.clock, k, v);
    NewestAnswer(Records(t1.pages[i]), t1.meta[i].fence, t1.clock, k, w);
    Latest(t1.history, t1.clock, v);
    Latest(t1.history, t1.clock, w);
  }

  lemma NewIndexWithin(t1: Tree, i: nat)
    requires Newborn(t1, i) && t1.meta[i].height != 1
    ensures Within(Entries(t1.pages[i]), t1.meta[i].fence)
  {
    var es := Entries(t1.pages[i]);
    FilterFull(IsActive, es);
    forall j | 0 <= j < |es| ensures Covers(t1.meta[i].fence, es[j].fence) {
      assert es[j] in es && IsActive(es[j]);
    }
  }

  lemma NewIndexWhole(t1: Tree, i: nat, r: Option<nat>, v: nat)
    requires Newborn(t1, i) && t1.meta[i].height != 1
    requires (r.Some? ==> r.value < |Entries(t1.pages[i])| && Entries(t1.pages[i])[r.value].version <= v)
    ensures r.Some? ==> WholeFence(Entries(t1.pages[i]), r.value, v)
  {
    var es, f := Entries(t1.pages[i]), t1.meta[i].fence;
    FilterFull(IsActive, es);
    assert forall j :: 0 <= j < |es| ==> es[j] in es && IsActive(es[j]);
    AllActiveWhole(es, f, r, v);
  }

  lemma AllActiveWhole(es: seq<Entry>, f: Fence, r: Option<nat>, v: nat)
    requires ActiveTiles(es, f) && (forall j :: 0 <= j < |es| ==> es[j].Active())
    requires r.Some? ==> r.value < |es| && es[r.value].version <= v
    ensures r.Some? ==> WholeFence(es, r.value, v)
  {
    if r.Some? {
      forall k: nat | Contains(es[r.value].fence, k) ensures Route(es, k, v) == Some(r.value) {
        assert Fits(es[r.value], k, v);
        var j := Route(es, k, v).value;
        if j != r.value { ActiveDisjoint(es, f, r.value, j); }
      }
    }
  }

  lemma NewIndexServes(t1: Tree, i: nat, k: nat, v: nat)
    requires MetaOk(t1) && Newborn(t1, i) && t1.meta[i].height != 1 && t1.clock == t1.meta[i].birth + 1
    requires IsLinked(t1.meta[i])
    requires Visible(t1, i, k, v)
    requires forall c :: 0 <= c < |t1.meta| && t1.meta[c].Linked? ==> t1.meta[c].birth < t1.clock
    ensures Serves(t1, i, k, v)
  {
    var es := Entries(t1.pages[i]);
    NewIndexWithin(t1, i);
    NewIndexWhole(t1, i, Route(es, k, v), v);
    FilterFull(IsActive, es);
    assert ActiveAt(es, k);
    hide Within, VersionsOk, WholeFence;
    var r := Route(es, k, v);
    var j :| 0 <= j < |es| && es[j].Active() && Contains(es[j].fence, k);
    assert Fits(es[j], k, v);
    assert es[r.value] in es && IsActive(es[r.value]) && ChildOk(t1.meta, es[r.value], t1.meta[i].height);
  }

  /** All pages serve after the commit if the touched ones do. */
  lemma CommitServes(t0: Tree, t1: Tree, dying: set<nat>, born: map<nat, Meta>, touched: set<nat>)
    requires MetaOk(t0) && AllServe(t0) && CommitStep(t0, t1, dying, born, touched)
    requires NoOrphans(t0.meta, dying, touched)
    requires MetaOk(t1) && Before(t1.history, t1.clock) && (forall b :: b in born ==> Newborn(t1, b))
    requires forall i, k: nat, v: nat :: i in touched && Visible(t1, i, k, v) ==> Serves(t1, i, k, v)
    ensures AllServe(t1)
  {
    hide LivePage, LeafTrue, NoOrphans, ValidFence;
    assert forall c :: 0 <= c < |t1.meta| && t1.meta[c].Linked? ==> t1.meta[c].birth < t1.clock;
    forall i: nat, k: nat, v: nat | Visible(t1, i, k, v) ensures Serves(t1, i, k, v) {
      if i in born {
        assert Newborn(t1, i) && t1.meta[i] == born[i];
        hide Serves, Newborn;
        if t1.meta[i].height == 1 { NewLeafServes(t1, i, k, v); } else { NewIndexServes(t1, i, k, v); }
      } else if i !in touched {
        hide Serves;
        OthersServe(t0, t1, dying, born, touched, i, k, v);
      }
    }
  }

  // ---------------------------------------------------------------- writers

  lemma CommitMeta(t0: Tree, t1: Tree, dying: set<nat>, born: map<nat, Meta>, touched: set<nat>)
    requires MetaOk(t0) && Apart(t0.meta) && GraveyardOk(t0) && CommitStep(t0, t1, dying, born, touched)
    requires BornApart(t0.meta, dying, born)
    ensures MetaOk(t1) && Apart(t1.meta) && GraveyardOk(t1)
  {
    forall i, j | 0 <= i < j < |t1.meta| && IsLinked(t1.meta[i]) && IsLinked(t1.meta[j])
      && t1.meta[i].height == t1.meta[j].height
      ensures Disjoint(t1.meta[i].fence, t1.meta[j].fence)
    {
      if i in born {
        assert j !in born ==> j !in dying;
      } else if j in born {
        assert Disjoint(born[j].fence, t0.meta[i].fence);
      } else {
        assert Disjoint(t0.meta[i].fence, t0.meta[j].fence);
      }
    }
  }

  lemma OtherLive(t0: Tree, t1: Tree, dying: set<nat>, born: map<nat, Meta>, touched: set<nat>, i: nat)
    requires MetaOk(t0) && LivePages(t0) && CommitStep(t0, t1, dying, born, touched)
    requires NoOrphans(t0.meta, dying, touched)
    requires i < |t1.meta| && IsLinked(t1.meta[i]) && i !in born && i !in touched
    ensures LivePage(t1, t1.pages[i], t1.meta[i].fence, t1.meta[i].height)
  {
    hide LivePage;
    assert i !in dying && t1.meta[i] == t0.meta[i];
    assert LivePage(t0, t0.pages[i], t0.meta[i].fence, t0.meta[i].height);
    forall c | 0 <= c < |t0.meta| && IsLinked(t0.meta[c]) && t0.meta[c].height + 1 == t0.meta[i].height
      && Covers(t0.meta[i].fence, t0.meta[c].fence)
      ensures t1.meta[c] == t0.meta[c]
    {
      assert ValidFence(t0.meta[c].fence);
      assert c !in dying by { assert !Disjoint(t0.meta[i].fence, t0.meta[c].fence); }
    }
    LivePageFrame(t0, t1, t0.pages[i], t0.meta[i].fence, t0.meta[i].height);
  }

  /** Publishing a reorganization keeps the invariant, given the touched page and the new roots. */
  lemma CommitKeepsInv(t0: Tree, t1: Tree, dying: set<nat>, born: map<nat, Meta>, touched: set<nat>)
    requires Inv(t0) && CommitStep(t0, t1, dying, born, touched)
    requires NoOrphans(t0.meta, dying, touched) && BornApart(t0.meta, dying, born)
    requires forall b :: b in born ==> Newborn(t1, b)
    requires forall i :: i in touched ==> LivePage(t1, t1.pages[i], t1.meta[i].fence, t1.meta[i].height)
    requires forall i, k: nat, v: nat :: i in touched && Visible(t1, i, k, v) ==> Serves(t1, i, k, v)
    requires RootsOk(t1) && FillOk(t1)
    ensures Inv(t1)
  {
    hide LivePage, Serves, Visible, RootsOk, FillOk, Apart, BornApart, NoOrphans, GraveyardOk, LeafTrue;
    CommitMeta(t0, t1, dying, born, touched);
    CommitServes(t0, t1, dying, born, touched);
    forall i | 0 <= i < |t1.meta| && IsLinked(t1.meta[i])
      ensures LivePage(t1, t1.pages[i], t1.meta[i].fence, t1.meta[i].height)
    {
      if i in born {
        assert Newborn(t1, i);
      } else if i !in touched {
        OtherLive(t0, t1, dying, born, touched, i);
      }
    }
  }
}
