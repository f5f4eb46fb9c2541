/**
 Pages outside the tree: taking one, filling it, and handing a dead one over to the graveyard.
 None of it changes what a writer or a reader of the tree sees.
 */
module Alloc {
  import opened Util
  import opened Fences
  import opened History
  import opened Pages
  import opened Fill
  import opened Smo
  import opened TreeModel
  import opened Reorg
  import opened ParentReorg
  import opened NewPages
  import opened Publish
  import opened Snapshots

  /** The pages that are part of the tree, its roots, its clock and its history are the same. */
  ghost predicate Later(t0: Tree, t1: Tree) {
    && |t0.meta| == |t0.pages| <= |t1.pages| == |t1.meta|
    && (forall i :: 0 <= i < |t0.pages| && IsLinked(t0.meta[i]) ==>
        t1.pages[i] == t0.pages[i] && t1.meta[i] == t0.meta[i])
    && t1.fanOut == t0.fanOut && t1.numRecords == t0.numRecords && t1.roots == t0.roots && t1.clock == t0.clock
    && t1.history == t0.history
    && Keeps(t0, t1)
  }

  lemma ForgetsLater(t0: Tree, t1: Tree, id: nat)
    requires Forgets(t0, t1, id)
    ensures Later(t0, t1)
  {
    ForgetKeeps(t0, t1, id);
  }

  lemma LaterTrans(t0: Tree, t1: Tree, t2: Tree)
    requires Later(t0, t1) && Later(t1, t2)
    ensures Later(t0, t2)
  {
    KeepsTrans(t0, t1, t2);
    hide Keeps;
  }

  lemma LaterInTree(t0: Tree, t1: Tree, s: nat)
    requires Inv(t1) && Later(t0, t1) && InTree(t0, s)
    ensures InTree(t1, s) && t1.pages[s] == t0.pages[s] && t1.meta[s] == t0.meta[s]
  {
    hide LivePage, AllServe, Apart, RootsOk, FillOk, GraveyardOk;
    assert LivePage(t1, t1.pages[s], t1.meta[s].fence, t1.meta[s].height);
  }

  /** A prepared page stays prepared while another page is taken or filled. */
  lemma ReadyStays(t0: Tree, t1: Tree, id: nat, other: nat, b: Body)
    requires Ready(t0, id, b) && Forgets(t0, t1, other) && id != other
    ensures Ready(t1, id, b)
  {
  }

  /** The graveyard is ordered by death and then by registration. */
  ghost predicate GraveOrder(graveyard: seq<Dead>, serial: nat) {
    && (forall i :: 0 <= i < |graveyard| ==> graveyard[i].serial < serial)
    && forall i, j :: 0 <= i < j < |graveyard| ==>
         graveyard[i].death <= graveyard[j].death && graveyard[i].serial < graveyard[j].serial
  }

  lemma ReuseForgets(t0: Tree, t1: Tree, p: Page, oldest: nat)
    requires Inv(t0) && |t0.graveyard| > 0 && t0.graveyard[0].death < oldest && t0.horizon <= oldest <= t0.clock
    requires t0.graveyard[0].page < |t0.pages| == |t0.meta|
    requires t1 == t0.(pages := t0.pages[t0.graveyard[0].page := p], meta := t0.meta[t0.graveyard[0].page := Unlinked],
                       graveyard := t0.graveyard[1..], horizon := Max(t0.horizon, t0.graveyard[0].death))
    ensures Forgets(t0, t1, t0.graveyard[0].page)
  {
    hide LivePages, AllServe, Apart, RootsOk, FillOk;
    assert forall i :: 0 <= i < |t1.graveyard| ==> t1.graveyard[i] == t0.graveyard[i + 1];
  }

  lemma ExtendForgets(t0: Tree, t1: Tree, p: Page)
    requires Inv(t0) && t1 == t0.(pages := t0.pages + [p], meta := t0.meta + [Unlinked])
    ensures Forgets(t0, t1, |t0.pages|)
  {
    hide LivePages, AllServe, Apart, RootsOk, FillOk;
  }

  lemma FillForgets(t0: Tree, t1: Tree, id: nat, p: Page)
    requires Inv(t0) && id < |t0.pages| == |t0.meta| && t0.meta[id] == Unlinked && t1 == t0.(pages := t0.pages[id := p])
    ensures Forgets(t0, t1, id)
  {
    hide LivePages, AllServe, Apart, RootsOk, FillOk;
  }

  /** Handing a page that died over to the graveyard. */
  lemma RegisterKeepsInv(t0: Tree, t1: Tree, d: Dead)
    requires Inv(t0) && t1 == t0.(graveyard := t0.graveyard + [d])
    requires d.page < |t0.meta| && t0.meta[d.page].Linked? && t0.meta[d.page].death == Some(d.death)
    requires forall i :: 0 <= i < |t0.graveyard| ==> t0.graveyard[i].page != d.page
    ensures Inv(t1)
  {
    hide LivePages, RootsOk, FillOk, Apart;
    RegisterLive(t0, t1);
    RegisterRoots(t0, t1);
    forall i: nat, k: nat, v: nat | Visible(t1, i, k, v) ensures Serves(t1, i, k, v) {
      assert Visible(t0, i, k, v) && Serves(t0, i, k, v);
    }
  }

  lemma RegisterLive(t0: Tree, t1: Tree)
    requires MetaOk(t0) && LivePages(t0) && t1 == t0.(graveyard := t1.graveyard)
    ensures LivePages(t1)
  {
    hide LivePage;
    forall i | 0 <= i < |t1.meta| && IsLinked(t1.meta[i])
      ensures LivePage(t1, t1.pages[i], t1.meta[i].fence, t1.meta[i].height)
    {
      assert LivePage(t0, t0.pages[i], t0.meta[i].fence, t0.meta[i].height);
      LivePageFrame(t0, t1, t0.pages[i], t0.meta[i].fence, t0.meta[i].height);
    }
  }

  lemma RegisterRoots(t0: Tree, t1: Tree)
    requires MetaOk(t0) && RootsOk(t0) && FillOk(t0) && t1 == t0.(graveyard := t1.graveyard)
    ensures RootsOk(t1) && FillOk(t1)
  {
    forall v: nat | t1.horizon <= v ensures RootServes(t1, v) {
      assert RootServes(t0, v);
    }
  }

  /** A page that is part of the tree is not in the graveyard. */
  lemma LinkedIsNotBuried(t: Tree, s: nat)
    requires Inv(t) && s < |t.meta| && IsLinked(t.meta[s])
    ensures forall i :: 0 <= i < |t.graveyard| ==> t.graveyard[i].page != s
  {
    hide LivePages, AllServe, Apart, RootsOk, FillOk;
  }
}
