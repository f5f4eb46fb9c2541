/**
 The routing part of the tree while many writers are at work: the version a reorganization publishes
 was drawn earlier, and others may have published later ones since. Readers are routed to pages
 that are part of the tree at their snapshot, whatever is published around them.
 */
module Weave {
  import opened Util
  import opened Fences
  import opened History
  import opened Pages
  import opened Smo
  import opened TreeModel
  import opened LeafWrites
  import opened Reorg
  import opened ParentReorg
  import opened Publish
  import opened Snapshots

  /** A child is not older in the tree than the entry that leads to it. */
  ghost predicate Births(meta: seq<Meta>, es: seq<Entry>) {
    forall i :: 0 <= i < |es| && es[i].Active() && es[i].child < |meta| && meta[es[i].child].Linked? ==>
      meta[es[i].child].birth <= es[i].version
  }

  /** An index page that is part of the tree now. */
  ghost predicate LiveIndex(t: Tree, p: nat) {
    && p < |t.pages| && p < |t.meta| && t.meta[p].Linked? && t.pages[p].Index?
    && IndexGood(t.meta, Entries(t.pages[p]), t.meta[p].fence, t.meta[p].height, t.clock)
    && Births(t.meta, Entries(t.pages[p]))
  }

  /** A reader of `k` at `v` is passed on to a page that is part of the tree at `v`. */
  ghost predicate Turns(t: Tree, p: nat, k: nat, v: nat) {
    && p < |t.pages| && p < |t.meta| && t.meta[p].Linked?
    && if t.meta[p].height == 1 then t.pages[p].Leaf?
       else
         t.pages[p].Index? &&
         var r := Route(Entries(t.pages[p]), k, v);
         r.Some? && RoutedTo(t, p, Entries(t.pages[p])[r.value], v)
  }

  ghost predicate AllTurn(t: Tree) {
    forall p: nat, k: nat, v: nat :: Visible(t, p, k, v) ==> Turns(t, p, k, v)
  }

  ghost predicate LiveIndexes(t: Tree) {
    forall p: nat :: p < |t.meta| && IsLinked(t.meta[p]) && t.meta[p].height > 1 ==> LiveIndex(t, p)
  }

  /** A root page that is part of the tree now is the newest one. */
  ghost predicate OldRootsGone(t: Tree) {
    forall v: nat :: t.horizon <= v && RootServes(t, v) && IsLinked(t.meta[RootPageFor(t, v)]) ==>
      RootPageFor(t, v) == Top(t).page
  }

  ghost function RootPageFor(t: Tree, v: nat): nat
    requires RootServes(t, v)
  {
    t.roots[RootFor(t.roots, v).value].page
  }

  ghost predicate Woven(t: Tree) {
    MetaOk(t) && Apart(t.meta) && LiveIndexes(t) && AllTurn(t) && RootsOk(t) && OldRootsGone(t)
  }

  /** The empty tree to start from. */
  lemma EmptyIsWoven(fanOut: nat, numRecords: nat)
    ensures Woven(EmptyTree(fanOut, numRecords))
  {
    var t := EmptyTree(fanOut, numRecords);
    forall v: nat | t.horizon <= v ensures RootServes(t, v) {
      assert t.roots[0].version <= v;
    }
  }

  // ---------------------------------------------------------------- any publication

  /** Pages die and are born at `w`; of the pages that stay only the touched ones change. */
  ghost predicate Weaves(t0: Tree, t1: Tree, w: nat, dying: set<nat>, born: map<nat, Meta>, touched: set<nat>) {
    && w < t0.clock && |t0.meta| == |t0.pages| == |t1.pages| && MetaStep(t0.meta, t1.meta, dying, born, w)
    && t1 == t0.(pages := t1.pages, roots := t1.roots, meta := t1.meta)
    && (forall i :: 0 <= i < |t0.pages| && i !in touched ==> t1.pages[i] == t0.pages[i])
    && (forall i :: i in touched ==> i < |t0.meta| && IsLinked(t0.meta[i]) && i !in dying && i !in born)
  }

  /** No page that has died sends readers from `w` on to one of the pages that are about to die at `w`. */
  ghost predicate Avoids(t: Tree, w: nat, dying: set<nat>, except: set<nat>) {
    forall q: nat, k: nat, v: nat :: w <= v && q !in except && Visible(t, q, k, v) && t.meta[q].height > 1 ==>
      Turns(t, q, k, v) ==> ChildFor(t, q, k, v) !in dying
  }

  /** The child a reader of `k` at `v` is passed on to. */
  ghost function ChildFor(t: Tree, q: nat, k: nat, v: nat): nat
    requires Turns(t, q, k, v) && t.meta[q].height > 1
  {
    Entries(t.pages[q])[Route(Entries(t.pages[q]), k, v).value].child
  }

  /** A new index page: only active entries, none younger than `w`, tiling its fence. */
  ghost predicate BornIndex(t: Tree, b: nat, w: nat) {
    && LiveIndex(t, b) && t.meta[b].birth == w
    && forall i :: 0 <= i < |Entries(t.pages[b])| ==>
      Entries(t.pages[b])[i].Active() && Entries(t.pages[b])[i].version <= w
  }

  /** What makes a list of roots a good one. */
  lemma RootsAre(t: Tree, page: nat, w: nat, h: nat)
    requires |t.roots| > 0 && Top(t) == Root(page, w, h) && w <= t.clock
    requires forall i, j :: 0 <= i < j < |t.roots| ==> t.roots[i].version <= t.roots[j].version
    requires page < |t.meta| && IsLinked(t.meta[page]) && t.meta[page].fence == FULL && t.meta[page].height == h
    requires forall i :: 0 <= i < |t.meta| && IsLinked(t.meta[i]) ==> t.meta[i].height <= h
    requires forall v: nat :: t.horizon <= v ==>
               RootServes(t, v) && (IsLinked(t.meta[RootPageFor(t, v)]) ==> RootPageFor(t, v) == page)
    ensures RootsOk(t) && OldRootsGone(t)
  {
    hide RootServes, RootPageFor;
  }

  /** A live page that does not die keeps its meta data. */
  lemma LiveStays(t0: Tree, t1: Tree, w: nat, dying: set<nat>, born: map<nat, Meta>, touched: set<nat>, c: nat)
    requires Weaves(t0, t1, w, dying, born, touched) && c < |t0.meta| && IsLinked(t0.meta[c]) && c !in dying
    ensures c < |t1.meta| && t1.meta[c] == t0.meta[c] && c !in born
  {
  }

  lemma WeaveMeta(t0: Tree, t1: Tree, w: nat, dying: set<nat>, born: map<nat, Meta>, touched: set<nat>)
    requires MetaOk(t0) && Apart(t0.meta) && Weaves(t0, t1, w, dying, born, touched) && BornApart(t0.meta, dying, born)
    ensures MetaOk(t1) && Apart(t1.meta)
  {
    forall i, j | 0 <= i < j < |t1.meta| && IsLinked(t1.meta[i]) && IsLinked(t1.meta[j])
      && t1.meta[i].height == t1.meta[j].height
      ensures Disjoint(t1.meta[i].fence, t1.meta[j].fence)
    {
      if i in born {
        assert j !in born ==> j !in dying;
      } else if j in born {
        assert Disjoint(born[j].fence, t0.meta[i].fence);
      } else {
        assert Disjoint(t0.meta[i].fence, t0.meta[j].fence);
      }
    }
  }

  /** The children of a live page that is not touched stay. */
  lemma ChildrenStay(t0: Tree, t1: Tree, w: nat, dying: set<nat>, born: map<nat, Meta>, touched: set<nat>, q: nat,
                     c: nat)
    requires MetaOk(t0) && Weaves(t0, t1, w, dying, born, touched) && NoOrphans(t0.meta, dying, touched)
    requires q < |t0.meta| && IsLinked(t0.meta[q]) && q !in dying && q !in touched
    requires c < |t0.meta| && IsLinked(t0.meta[c]) && t0.meta[c].height + 1 == t0.meta[q].height
    requires Covers(t0.meta[q].fence, t0.meta[c].fence)
    ensures c !in dying && c !in born && t1.meta[c] == t0.meta[c]
  {
    assert ValidFence(t0.meta[c].fence);
    assert !Disjoint(t0.meta[q].fence, t0.meta[c].fence);
  }

  lemma OtherLives(t0: Tree, t1: Tree, w: nat, dying: set<nat>, born: map<nat, Meta>, touched: set<nat>, q: nat)
    requires MetaOk(t0) && LiveIndexes(t0) && Weaves(t0, t1, w, dying, born, touched)
    requires NoOrphans(t0.meta, dying, touched)
    requires q < |t1.meta| && IsLinked(t1.meta[q]) && t1.meta[q].height > 1 && q !in born && q !in touched
    ensures LiveIndex(t1, q)
  {
    assert q !in dying && t1.meta[q] == t0.meta[q] && LiveIndex(t0, q);
    var es := Entries(t0.pages[q]);
    forall i | 0 <= i < |es| && es[i].Active()
      ensures ChildOk(t1.meta, es[i], t0.meta[q].height) && t1.meta[es[i].child] == t0.meta[es[i].child]
    {
      assert ChildOk(t0.meta, es[i], t0.meta[q].height);
      ChildrenStay(t0, t1, w, dying, born, touched, q, es[i].child);
    }
    hide NoOrphans, MetaStep, ActiveTiles, LiveIndexes, MetaOk;
    assert ChildrenOk(t1.meta, es, t0.meta[q].height);
  }

  /** A live page that is not touched never leads to a dying page: it would be its parent. */
  lemma LiveAvoids(t0: Tree, t1: Tree, w: nat, dying: set<nat>, born: map<nat, Meta>, touched: set<nat>, q: nat,
                   e: Entry, v: nat)
    requires MetaOk(t0) && Weaves(t0, t1, w, dying, born, touched) && NoOrphans(t0.meta, dying, touched)
    requires q < |t0.meta| && IsLinked(t0.meta[q]) && q !in dying && q !in touched && RoutedTo(t0, q, e, v)
    ensures e.child !in dying && e.child !in born && t1.meta[e.child] == t0.meta[e.child]
  {
    assert ValidFence(t0.meta[e.child].fence);
    assert !Disjoint(t0.meta[q].fence, t0.meta[e.child].fence);
  }

  /** A page that is neither new nor touched routes as before. */
  lemma OthersTurn(t0: Tree, t1: Tree, w: nat, dying: set<nat>, born: map<nat, Meta>, touched: set<nat>, q: nat, k: nat,
                   v: nat)
    requires MetaOk(t0) && AllTurn(t0) && Weaves(t0, t1, w, dying, born, touched) && NoOrphans(t0.meta, dying, touched)
    requires Avoids(t0, w, dying, touched + dying) && Visible(t1, q, k, v) && q !in born && q !in touched
    ensures Turns(t1, q, k, v)
  {
    assert Visible(t0, q, k, v) && Turns(t0, q, k, v);
    if t0.meta[q].height != 1 {
      var e := Entries(t0.pages[q])[Route(Entries(t0.pages[q]), k, v).value];
      assert RoutedTo(t0, q, e, v);
      if IsLinked(t0.meta[q]) && q !in dying {
        LiveAvoids(t0, t1, w, dying, born, touched, q, e, v);
      } else if w <= v {
        assert q !in touched + dying && e.child == ChildFor(t0, q, k, v);
      }
    }
  }

  lemma BornTurns(t1: Tree, b: nat, w: nat, k: nat, v: nat)
    requires BornIndex(t1, b, w) && Visible(t1, b, k, v) && t1.meta[b].height > 1 && IsLinked(t1.meta[b])
    ensures Turns(t1, b, k, v)
  {
    var es := Entries(t1.pages[b]);
    assert ActiveAt(es, k);
    var j :| 0 <= j < |es| && es[j].Active() && Contains(es[j].fence, k);
    assert Fits(es[j], k, v);
    var i := Route(es, k, v).value;
    assert ChildOk(t1.meta, es[i], t1.meta[b].height);
  }

  /** What a publication must bring along beside the pages it leaves alone. */
  ghost predicate Sews(t0: Tree, t1: Tree, w: nat, dying: set<nat>, born: map<nat, Meta>, touched: set<nat>) {
    && Weaves(t0, t1, w, dying, born, touched)
    && NoOrphans(t0.meta, dying, touched) && BornApart(t0.meta, dying, born)
    && Avoids(t0, w, dying, touched + dying)
    && (forall b :: b in born && born[b].Linked? && born[b].height > 1 ==> BornIndex(t1, b, w))
    && (forall b :: b in born && born[b].Linked? && born[b].height == 1 ==> b < |t1.pages| && t1.pages[b].Leaf?)
    && (forall q: nat :: q in touched ==> LiveIndex(t1, q))
    && (forall q: nat, k: nat, v: nat :: q in touched && Visible(t1, q, k, v) ==> Turns(t1, q, k, v))
    && RootsOk(t1) && OldRootsGone(t1)
  }

  /** Publishing at a version drawn earlier keeps every reader on pages of its snapshot. */
  lemma SewsKeepsWoven(t0: Tree, t1: Tree, w: nat, dying: set<nat>, born: map<nat, Meta>, touched: set<nat>)
    requires Woven(t0) && Sews(t0, t1, w, dying, born, touched)
    ensures Woven(t1)
  {
    hide RootsOk, OldRootsGone, IndexGood, Births, Avoids, BornApart, Apart, NoOrphans, RoutedTo;
    WeaveMeta(t0, t1, w, dying, born, touched);
    forall q: nat | q < |t1.meta| && IsLinked(t1.meta[q]) && t1.meta[q].height > 1 ensures LiveIndex(t1, q) {
      if q in born {
        assert BornIndex(t1, q, w);
      } else if q !in touched {
        OtherLives(t0, t1, w, dying, born, touched, q);
      }
    }
    forall q: nat, k: nat, v: nat | Visible(t1, q, k, v) ensures Turns(t1, q, k, v) {
      if q in born {
        if born[q].height > 1 { assert BornIndex(t1, q, w); BornTurns(t1, q, w, k, v); }
      } else if q !in touched {
        hide Turns, Visible;
        OthersTurn(t0, t1, w, dying, born, touched, q, k, v);
      }
    }
  }
}
