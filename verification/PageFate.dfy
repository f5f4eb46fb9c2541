/**
 No page is lost: between two operations every page is part of the tree, or has died and lies in the
 graveyard, or is a root that was replaced without being registered. Inside an operation the pages
 taken and not yet published are the only other ones.
 */
module PageFate {
  import opened Util
  import opened Fences
  import opened Pages
  import opened Fill
  import opened Smo
  import opened TreeModel
  import opened Reorg
  import opened ParentReorg
  import opened NewPages
  import opened RootReorg
  import opened Publish
  import opened PublishRoot
  import opened Repairs
  import opened TreeSteps

  ghost predicate InGraveyard(t: Tree, p: nat) { exists j :: 0 <= j < |t.graveyard| && t.graveyard[j].page == p }

  /** The page was made for a root and has not been made for anything else since. */
  ghost predicate WasRoot(t: Tree, p: nat)
    requires p < |t.meta| && t.meta[p].Linked?
  {
    exists j :: 0 <= j < |t.roots| && t.roots[j].page == p && t.roots[j].version == t.meta[p].birth
  }

  /** Every page but those in `taken` is part of the tree, or dead and accounted for. */
  ghost predicate Settled(t: Tree, taken: set<nat>) {
    && (forall p: nat :: p < |t.meta| && p !in taken ==> t.meta[p].Linked?)
    && (forall p: nat :: p < |t.meta| && t.meta[p].Linked? && t.meta[p].death.Some? ==>
          InGraveyard(t, p) || WasRoot(t, p))
    && |t.roots| > 0 && Top(t).page < |t.meta| && IsLinked(t.meta[Top(t).page])
    && t.meta[Top(t).page].birth == Top(t).version
  }

  /** What the steps between the two trees have taken and not published is `more`. */
  ghost predicate Takes(t0: Tree, t1: Tree, more: set<nat>) {
    forall taken: set<nat> :: Settled(t0, taken) ==> Settled(t1, taken + more)
  }

  lemma TakesTrans(t0: Tree, t1: Tree, t2: Tree, a: set<nat>, b: set<nat>)
    requires Takes(t0, t1, a) && Takes(t1, t2, b)
    ensures Takes(t0, t2, a + b)
  {
    hide Settled;
    forall taken: set<nat> | Settled(t0, taken) ensures Settled(t2, taken + (a + b)) {
      assert Settled(t1, taken + a);
      assert taken + (a + b) == taken + a + b;
    }
  }

  lemma TakesOn(t0: Tree, t1: Tree, t2: Tree)
    requires Takes(t0, t1, {}) && Takes(t1, t2, {})
    ensures Takes(t0, t2, {})
  {
    var none: set<nat> := {};
    TakesTrans(t0, t1, t2, none, none);
    assert none + none == none;
  }

  /** With nothing taken and not published, every page has its place before and after. */
  lemma NoPageIsLost(t0: Tree, t1: Tree, p: nat)
    requires Takes(t0, t1, {}) && Settled(t0, {}) && p < |t1.meta|
    ensures t1.meta[p].Linked? && (IsLinked(t1.meta[p]) || InGraveyard(t1, p) || WasRoot(t1, p))
  {
    var none: set<nat> := {};
    assert Settled(t1, none + none);
  }

  lemma TakesTwo(t0: Tree, t1: Tree, t2: Tree, t3: Tree, t4: Tree, a: nat, b: nat)
    requires Takes(t0, t1, {a}) && Takes(t1, t2, {b}) && Takes(t2, t3, {}) && Takes(t3, t4, {})
    ensures Takes(t0, t4, {a, b})
  {
    hide Takes;
    TakesTrans(t0, t1, t2, {a}, {b});
    TakesOn(t2, t3, t4);
    TakesTrans(t0, t2, t4, {a} + {b}, {});
    assert {a} + {b} + {} == {a, b};
  }

  /** Neither pages nor their fate have changed. */
  lemma TakesNone(t0: Tree, t1: Tree)
    requires t1.meta == t0.meta && t1.roots == t0.roots && t1.graveyard == t0.graveyard
    ensures Takes(t0, t1, {})
  {
    forall taken: set<nat> | Settled(t0, taken) ensures Settled(t1, taken + {}) {
      assert forall p: nat :: InGraveyard(t0, p) ==> InGraveyard(t1, p);
      assert forall p: nat :: p < |t0.meta| && t0.meta[p].Linked? && WasRoot(t0, p) ==> WasRoot(t1, p);
    }
  }

  lemma ReuseTakes(t0: Tree, t1: Tree, id: nat)
    requires |t0.graveyard| > 0 && t0.graveyard[0].page == id && t1.graveyard == t0.graveyard[1..]
    requires id < |t0.meta| && !IsLinked(t0.meta[id]) && t1.meta == t0.meta[id := Unlinked] && t1.roots == t0.roots
    ensures Takes(t0, t1, {id})
  {
    forall taken: set<nat> | Settled(t0, taken) ensures Settled(t1, taken + {id}) {
      forall p: nat | p < |t1.meta| && t1.meta[p].Linked? && t1.meta[p].death.Some?
        ensures InGraveyard(t1, p) || WasRoot(t1, p)
      {
        if InGraveyard(t0, p) {
          var j :| 0 <= j < |t0.graveyard| && t0.graveyard[j].page == p;
          assert t1.graveyard[j - 1].page == p;
        } else {
          assert WasRoot(t0, p);
        }
      }
    }
  }

  lemma ExtendTakes(t0: Tree, t1: Tree)
    requires t1.meta == t0.meta + [Unlinked] && t1.roots == t0.roots && t1.graveyard == t0.graveyard
    ensures Takes(t0, t1, {|t0.meta|})
  {
    forall taken: set<nat> | Settled(t0, taken) ensures Settled(t1, taken + {|t0.meta|}) {
      forall p: nat | p < |t1.meta| && t1.meta[p].Linked? && t1.meta[p].death.Some?
        ensures InGraveyard(t1, p) || WasRoot(t1, p)
      {
        assert InGraveyard(t0, p) || WasRoot(t0, p);
      }
    }
  }

  /** A publication that is registered: the pages taken are part of the tree, the replaced ones in the graveyard. */
  ghost predicate Publishes(t0: Tree, t1: Tree, dying: set<nat>, born: map<nat, Meta>, w: nat) {
    && t1.meta == NewMeta(t0.meta, dying, born, w)
    && (forall b :: b in born ==> IsLinked(born[b]))
    && |t0.roots| <= |t1.roots| && t1.roots[..|t0.roots|] == t0.roots
    && |t0.graveyard| <= |t1.graveyard| && t1.graveyard[..|t0.graveyard|] == t0.graveyard
    && forall p :: p in dying ==> InGraveyard(t1, p) || (|t0.roots| > 0 && p == Top(t0).page)
  }

  /** The new top of the root index is the old one or one of the new pages. */
  ghost predicate TopSettles(t0: Tree, t1: Tree, dying: set<nat>, born: map<nat, Meta>) {
    if t1.roots == t0.roots then |t0.roots| > 0 && Top(t0).page !in dying && Top(t0).page !in born
    else |t1.roots| > 0 && Top(t1).page in born && Top(t1).page < |t0.meta| && born[Top(t1).page].Linked?
           && born[Top(t1).page].birth == Top(t1).version
  }

  lemma PublishTakes(t0: Tree, t1: Tree, t2: Tree, more: set<nat>, dying: set<nat>, born: map<nat, Meta>, w: nat)
    requires Takes(t0, t1, more) && Publishes(t1, t2, dying, born, w) && TopSettles(t1, t2, dying, born)
    requires forall p :: p in more ==> p in born
    requires forall b :: b in born ==> b < |t1.meta| && t1.meta[b] == Unlinked
    ensures Takes(t0, t2, {})
  {
    forall taken: set<nat> | Settled(t0, taken) ensures Settled(t2, taken + {}) {
      assert Settled(t1, taken + more);
      PublishSettles(t1, t2, taken, more, dying, born, w);
      assert taken + {} == taken;
    }
  }

  lemma PublishSettles(t1: Tree, t2: Tree, taken: set<nat>, more: set<nat>, dying: set<nat>,
                       born: map<nat, Meta>, w: nat)
    requires Settled(t1, taken + more) && Publishes(t1, t2, dying, born, w) && TopSettles(t1, t2, dying, born)
    requires forall p :: p in more ==> p in born
    requires forall b :: b in born ==> b < |t1.meta| && t1.meta[b] == Unlinked
    ensures Settled(t2, taken)
  {
    forall p: nat | p < |t2.meta| && t2.meta[p].Linked? && t2.meta[p].death.Some?
      ensures InGraveyard(t2, p) || WasRoot(t2, p)
    {
      if p !in dying { OldFate(t1, t2, p); } else if !InGraveyard(t2, p) { WasTop(t1, t2, p); }
    }
  }

  lemma OldFate(t1: Tree, t2: Tree, p: nat)
    requires p < |t1.meta| && p < |t2.meta| && t1.meta[p].Linked? && t2.meta[p] == t1.meta[p]
    requires |t1.roots| <= |t2.roots| && t2.roots[..|t1.roots|] == t1.roots
    requires |t1.graveyard| <= |t2.graveyard| && t2.graveyard[..|t1.graveyard|] == t1.graveyard
    requires InGraveyard(t1, p) || WasRoot(t1, p)
    ensures InGraveyard(t2, p) || WasRoot(t2, p)
  {
    if InGraveyard(t1, p) {
      var j :| 0 <= j < |t1.graveyard| && t1.graveyard[j].page == p;
      assert t2.graveyard[..|t1.graveyard|][j].page == p;
    } else {
      var j :| 0 <= j < |t1.roots| && t1.roots[j].page == p && t1.roots[j].version == t1.meta[p].birth;
      assert t2.roots[..|t1.roots|][j].page == p;
    }
  }

  lemma WasTop(t1: Tree, t2: Tree, p: nat)
    requires p < |t2.meta| && t2.meta[p].Linked? && |t1.roots| > 0 && p == Top(t1).page
    requires |t1.roots| <= |t2.roots| && t2.roots[..|t1.roots|] == t1.roots && t2.meta[p].birth == Top(t1).version
    ensures WasRoot(t2, p)
  {
    assert t2.roots[..|t1.roots|][|t1.roots| - 1] == Top(t1);
  }

  /** The tree a program starts with. */
  lemma StartsSettled(t: Tree)
    requires |t.meta| == 1 && |t.roots| == 1 && t.roots[0].page == 0 && IsLinked(t.meta[0])
    requires t.meta[0].birth == t.roots[0].version
    ensures Settled(t, {})
  {
  }

  // ---------------------------------------------------------------- the reorganizations

  ghost function IdSet(ids: Ids): set<nat> { match ids case One(p) => {p} case Two(l, r) => {l, r} }

  lemma BornIds(t: Tree, o: Outcome, f: Fence, ids: Ids, w: nat, h: nat)
    requires Prepared(t, o, ids) && o.ByVersion? == ids.One?
    ensures forall b :: b in Born(Freshes(o, f, ids), w, h) <==> b in IdSet(ids)
    ensures forall b :: b in Born(Freshes(o, f, ids), w, h) ==> IsLinked(Born(Freshes(o, f, ids), w, h)[b])
    ensures forall b :: b in IdSet(ids) ==> b < |t.meta| && t.meta[b] == Unlinked
  {
    hide Holding, Born;
    var fs := Freshes(o, f, ids);
    BornEntries(fs, w, h);
    forall b | b in Born(fs, w, h) ensures b in IdSet(ids) && IsLinked(Born(fs, w, h)[b]) {
      assert IsFresh(fs, b);
    }
    assert ids.One? ==> fs[0].page == ids.page;
    assert ids.Two? ==> fs[0].page == ids.left && fs[1].page == ids.right;
  }

  lemma TopIsLinked(t: Tree)
    requires Inv(t)
    ensures |t.roots| > 0 && Top(t).page < |t.meta| && IsLinked(t.meta[Top(t).page])
  {
    HasTop(t);
  }

  /** The child of a page is not the root. */
  lemma ChildIsNotTop(t: Tree, p: nat, i: nat, s: nat)
    requires Inv(t) && ChildAt(t, p, i, s)
    ensures |t.roots| > 0 && s != Top(t).page
  {
    ChildHeight(t, p, i, s);
    hide LivePages, AllServe, Apart, FillOk, GraveyardOk, MetaOk, InTree;
  }

  lemma RepairTakes(t0: Tree, t1: Tree, t2: Tree, ids: Ids, o: Outcome, f: Fence, dying: set<nat>, w: nat, h: nat)
    requires Takes(t0, t1, IdSet(ids)) && Inv(t1) && Prepared(t1, o, ids) && o.ByVersion? == ids.One?
    requires t2.meta == NewMeta(t1.meta, dying, Born(Freshes(o, f, ids), w, h), w) && t2.roots == t1.roots
    requires |t1.graveyard| <= |t2.graveyard| && t2.graveyard[..|t1.graveyard|] == t1.graveyard
    requires |t1.roots| > 0 && forall p :: p in dying ==> InGraveyard(t2, p) && p != Top(t1).page
    ensures Takes(t0, t2, {})
  {
    BornIds(t1, o, f, ids, w, h);
    TopIsLinked(t1);
    hide Inv, Prepared, Freshes, Born, IdSet, Takes, NewMeta, InGraveyard;
    PublishTakes(t0, t1, t2, IdSet(ids), dying, Born(Freshes(o, f, ids), w, h), w);
  }

  lemma GraveyardGrows(t1: Tree, t2: Tree, dead: seq<Dead>)
    requires t2.graveyard == t1.graveyard + dead
    ensures |t1.graveyard| <= |t2.graveyard| && t2.graveyard[..|t1.graveyard|] == t1.graveyard
    ensures forall j :: 0 <= j < |dead| ==> InGraveyard(t2, dead[j].page)
  {
    forall j | 0 <= j < |dead| ensures InGraveyard(t2, dead[j].page) {
      assert t2.graveyard[|t1.graveyard| + j].page == dead[j].page;
    }
  }

  lemma OverflowTakes(t0: Tree, t1: Tree, t2: Tree, p: nat, i: nat, s: nat, ids: Ids, o: Outcome, f: Fence, w: nat,
                      d: Dead)
    requires Takes(t0, t1, IdSet(ids)) && Inv(t1) && Prepared(t1, o, ids) && o.ByVersion? == ids.One?
    requires ChildAt(t1, p, i, s) && p < |t1.meta| && t1.meta[p].Linked? && t1.meta[p].height >= 1
    requires t2.meta == NewMeta(t1.meta, {s}, Born(Freshes(o, f, ids), w, t1.meta[p].height - 1), w)
    requires t2.roots == t1.roots && t2.graveyard == t1.graveyard + [d] && d.page == s
    ensures Takes(t0, t2, {})
  {
    hide *;
    ChildIsNotTop(t1, p, i, s);
    var dead := [d];
    GraveyardGrows(t1, t2, dead);
    assert dead[0].page == s;
    RepairTakes(t0, t1, t2, ids, o, f, {s}, w, t1.meta[p].height - 1);
  }

  lemma UnderflowTakes(t0: Tree, t1: Tree, t2: Tree, p: nat, i: nat, s: nat, c: nat, r: nat, ids: Ids, o: Outcome,
                       f: Fence, w: nat, d: Dead, e: Dead)
    requires Takes(t0, t1, IdSet(ids)) && Inv(t1) && Prepared(t1, o, ids) && o.ByVersion? == ids.One?
    requires ChildAt(t1, p, i, s) && ChildAt(t1, p, c, r)
    requires p < |t1.meta| && t1.meta[p].Linked? && t1.meta[p].height >= 1
    requires t2.meta == NewMeta(t1.meta, {s, r}, Born(Freshes(o, f, ids), w, t1.meta[p].height - 1), w)
    requires t2.roots == t1.roots && t2.graveyard == t1.graveyard + [d, e] && d.page == s && e.page == r
    ensures Takes(t0, t2, {})
  {
    hide *;
    ChildIsNotTop(t1, p, i, s);
    ChildIsNotTop(t1, p, c, r);
    var dead := [d, e];
    GraveyardGrows(t1, t2, dead);
    assert dead[0].page == s && dead[1].page == r;
    RepairTakes(t0, t1, t2, ids, o, f, {s, r}, w, t1.meta[p].height - 1);
  }

  ghost function TakenIds(ids: Ids, root: nat): set<nat> { if ids.One? then IdSet(ids) else IdSet(ids) + {root} }

  lemma RootTakes(t0: Tree, t1: Tree, t2: Tree, s: nat, ids: Ids, o: Outcome, root: nat, w: nat, h: nat, d: Dead)
    requires Takes(t0, t1, TakenIds(ids, root)) && Inv(t1) && Prepared(t1, o, ids) && o.ByVersion? == ids.One?
    requires ids.Two? ==>
               root < |t1.meta| && t1.meta[root] == Unlinked && root != ids.left && root != ids.right
    requires |t1.roots| > 0
    requires t2.meta == NewMeta(t1.meta, {Top(t1).page, s}, BornRoot(NewRootOf(o, ids, root), w, h), w)
    requires |t2.roots| == |t1.roots| + 1 && t2.roots[..|t1.roots|] == t1.roots
    requires Top(t2).page == (if ids.One? then ids.page else root) && Top(t2).version == w
    requires t2.graveyard == t1.graveyard + [d] && d.page == s
    ensures Takes(t0, t2, {})
  {
    hide Inv, Holding, NewMeta, Takes;
    var born := BornRoot(NewRootOf(o, ids, root), w, h);
    assert t2.graveyard[|t1.graveyard|].page == s;
    assert InGraveyard(t2, s);
    PublishTakes(t0, t1, t2, TakenIds(ids, root), {Top(t1).page, s}, born, w);
  }

  lemma FilledTakes(t0: Tree, t1: Tree, t2: Tree, fs: seq<Fresh>, ids: Ids, root: nat)
    requires Takes(t0, t1, IdSet(ids)) && (if |fs| == 2 then Takes(t1, t2, {root}) else t2 == t1)
    requires ids.One? <==> |fs| != 2
    ensures Takes(t0, t2, TakenIds(ids, root))
  {
    hide Takes, IdSet;
    if |fs| == 2 { TakesTrans(t0, t1, t2, IdSet(ids), {root}); }
  }

  lemma ReplacedTakes(t0: Tree, t1: Tree, t2: Tree, s: nat, fs: seq<Fresh>, ids: Ids, root: nat, w: nat, h: nat)
    requires Takes(t0, t1, TakenIds(ids, root)) && RootPrepared(t1, s, fs, ids) && RootFilled(t1, fs, root)
    requires |t1.roots| > 0 && s < |t1.pages|
    requires Exact(t1.pages[s]) && Capacity(t1.pages[s]) >= MIN_CAPACITY
    requires Split(t1.pages[s], FULL).ByVersion? == ids.One?
    requires t2.meta == NewMeta(t1.meta, {Top(t1).page, s},
                                BornRoot(NewRootOf(Split(t1.pages[s], FULL), ids, root), w, h), w)
    requires |t2.roots| == |t1.roots| + 1 && t2.roots[..|t1.roots|] == t1.roots
    requires Top(t2).page == (if |fs| == 2 then root else fs[0].page) && Top(t2).version == w
    requires |t2.graveyard| == |t1.graveyard| + 1 && t2.graveyard[..|t1.graveyard|] == t1.graveyard
    requires t2.graveyard[|t1.graveyard|].page == s && 1 <= |fs| <= 2
    ensures Takes(t0, t2, {})
  {
    hide *;
    PreparedForRoot(t1, s, fs, ids, root);
    assert |fs| == 2 <==> ids.Two?;
    var d := t2.graveyard[|t1.graveyard|];
    assert t2.graveyard == t1.graveyard + [d];
    RootTakes(t0, t1, t2, s, ids, Split(t1.pages[s], FULL), root, w, h, d);
  }

  lemma PreparedForRoot(t: Tree, s: nat, fs: seq<Fresh>, ids: Ids, root: nat)
    requires RootPrepared(t, s, fs, ids) && RootFilled(t, fs, root)
    ensures Inv(t) && s < |t.pages| && Exact(t.pages[s]) && Capacity(t.pages[s]) >= MIN_CAPACITY
    ensures var o := Split(t.pages[s], FULL);
            Prepared(t, o, ids) && o.ByVersion? == ids.One? && |fs| == (if ids.One? then 1 else 2)
    ensures ids.One? ==> fs[0].page == ids.page
    ensures ids.Two? ==> root < |t.meta| && t.meta[root] == Unlinked && root != ids.left && root != ids.right
  {
    ReplaceableParts(t, s);
    hide Inv, RootReplaceable, Split, Holding, Exact;
  }

  lemma MergedTakes(t0: Tree, t1: Tree, t2: Tree, p: nat, i: nat, s: nat, c: nat, r: nat, fs: seq<Fresh>,
                    ids: Ids, w: nat)
    requires Takes(t0, t1, IdSet(ids)) && MergeReady(t1, p, i, s, c, r, fs, ids)
    requires p < |t1.meta| && t1.meta[p].Linked? && t1.meta[p].height >= 1
    requires t2.meta == NewMeta(t1.meta, {s, r}, Born(fs, w, t1.meta[p].height - 1), w) && t2.roots == t1.roots
    requires |t2.graveyard| == |t1.graveyard| + 2 && t2.graveyard[..|t1.graveyard|] == t1.graveyard
    requires t2.graveyard[|t1.graveyard|].page == s && t2.graveyard[|t1.graveyard| + 1].page == r
    ensures Takes(t0, t2, {})
  {
    hide Takes, NewMeta, Born, Inv, ChildAt, MergeOk, Merge, Prepared, Freshes, UnsafeDegree, Exact, Adjacent, IdSet;
    var d, e := t2.graveyard[|t1.graveyard|], t2.graveyard[|t1.graveyard| + 1];
    assert t2.graveyard == t1.graveyard + [d, e];
    var f, g := t1.meta[s].fence, t1.meta[r].fence;
    UnderflowTakes(t0, t1, t2, p, i, s, c, r, ids, Merge(t1.pages[s], f, t1.pages[r], g), Merged(f, g), w, d, e);
  }
}
