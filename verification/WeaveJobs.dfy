/**
 What a writer may rely on between drawing a version and publishing at it, while other writers
 publish, pages are handed out again and versions are drawn.
 */
module WeaveJobs {
  import opened Util
  import opened Fences
  import opened History
  import opened Pages
  import opened Smo
  import opened TreeModel
  import opened Reorg
  import opened ParentReorg
  import opened RootReorg
  import opened Publish
  import opened Snapshots
  import opened Weave
  import opened WeaveBelow
  import opened WeaveRoot

  // ---------------------------------------------------------------- drawing a version

  /** Drawing a version changes nothing for routing. */
  lemma TickKeepsWoven(t: Tree)
    requires Woven(t)
    ensures Woven(t.(clock := t.clock + 1))
  {
    var t1 := t.(clock := t.clock + 1);
    hide *;
    WovenMeta(t);
    TickPages(t);
    TickTurns(t);
    TickRoots(t);
    WovenIs(t1);
  }

  lemma TickPages(t: Tree)
    requires MetaOk(t) && Apart(t.meta) && LiveIndexes(t)
    ensures var t1 := t.(clock := t.clock + 1); MetaOk(t1) && Apart(t1.meta) && LiveIndexes(t1)
  {
    var t1 := t.(clock := t.clock + 1);
    hide Apart, ActiveTiles, ChildrenOk, Births;
    forall p: nat | p < |t1.meta| && IsLinked(t1.meta[p]) && t1.meta[p].height > 1 ensures LiveIndex(t1, p) {
      assert LiveIndex(t, p);
    }
  }

  lemma WovenIs(t: Tree)
    requires MetaOk(t) && Apart(t.meta) && LiveIndexes(t) && AllTurn(t) && RootsOk(t) && OldRootsGone(t)
    ensures Woven(t)
  {
  }

  lemma TickTurns(t: Tree)
    requires AllTurn(t)
    ensures AllTurn(t.(clock := t.clock + 1))
  {
    var t1 := t.(clock := t.clock + 1);
    forall p: nat, k: nat, v: nat | Visible(t1, p, k, v) ensures Turns(t1, p, k, v) {
      assert Visible(t, p, k, v) && Turns(t, p, k, v);
    }
  }

  lemma TickRoots(t: Tree)
    requires RootsOk(t) && OldRootsGone(t)
    ensures RootsOk(t.(clock := t.clock + 1)) && OldRootsGone(t.(clock := t.clock + 1))
  {
    var t1 := t.(clock := t.clock + 1);
    forall v: nat | t1.horizon <= v
      ensures RootServes(t1, v) && (IsLinked(t1.meta[RootPageFor(t1, v)]) ==> RootPageFor(t1, v) == Top(t1).page)
    {
      assert RootServes(t, v);
      assert IsLinked(t.meta[RootPageFor(t, v)]) ==> RootPageFor(t, v) == Top(t).page;
    }
  }

  /** The pages of `kids` have no live parent outside `parents`. */
  ghost predicate OnlyParents(t: Tree, kids: set<nat>, parents: set<nat>) {
    forall q: nat, i: nat :: q < |t.meta| && IsLinked(t.meta[q]) && t.meta[q].height > 1 && q !in parents ==>
      HasEntry(t, q, i) ==> Entries(t.pages[q])[i].child !in kids
  }

  ghost predicate HasEntry(t: Tree, q: nat, i: nat) {
    q < |t.pages| && i < |Entries(t.pages[q])| && Entries(t.pages[q])[i].Active()
  }

  ghost predicate AllLinked(t: Tree, pages: set<nat>) { forall c :: c in pages ==> c < |t.meta| && IsLinked(t.meta[c]) }

  /** A parent is the only one of its children. */
  lemma BelowOnlyParent(t: Tree, p: nat, olds: set<nat>, w: nat)
    requires Woven(t) && BelowHeld(t, p, olds, w)
    ensures AllLinked(t, Replaced(t, p, olds)) && OnlyParents(t, Replaced(t, p, olds), {p} + Replaced(t, p, olds))
    ensures p !in Replaced(t, p, olds)
  {
    ParentAt(t, p, olds, w);
    WovenMeta(t);
    hide Woven, AllTurn, RootsOk, OldRootsGone, MetaOk;
    ReplacedAreChildren(t, p, olds);
    var kids := Replaced(t, p, olds);
    forall c | c in kids ensures c < |t.meta| && IsLinked(t.meta[c]) && t.meta[c].height + 1 == t.meta[p].height {
      var i := DyingBelow(t.(clock := w), p, olds, c);
    }
    forall q: nat, i: nat | q < |t.meta| && IsLinked(t.meta[q]) && t.meta[q].height > 1 && q !in {p} + kids
      && HasEntry(t, q, i)
      ensures Entries(t.pages[q])[i].child !in kids
    {
      if Entries(t.pages[q])[i].child in kids {
        var j := DyingBelow(t.(clock := w), p, olds, Entries(t.pages[q])[i].child);
        OneParent(t, p, q, i);
      }
    }
  }

  lemma OneParent(t: Tree, p: nat, q: nat, i: nat)
    requires LiveIndexes(t) && Apart(t.meta) && p < |t.meta| && IsLinked(t.meta[p])
    requires q < |t.meta| && IsLinked(t.meta[q]) && t.meta[q].height > 1 && HasEntry(t, q, i)
    requires var c := Entries(t.pages[q])[i].child;
             && c < |t.meta| && IsLinked(t.meta[c]) && t.meta[c].height + 1 == t.meta[p].height
             && Covers(t.meta[p].fence, t.meta[c].fence) && ValidFence(t.meta[c].fence)
    ensures q == p
  {
    assert LiveIndex(t, q);
    var e := Entries(t.pages[q])[i];
    assert ChildOk(t.meta, e, t.meta[q].height) && Covers(t.meta[q].fence, e.fence);
    OnlyOne(t.meta, p, q, e.fence.lower);
  }

  /** The root is nobody's child, and the child that spans the key space only the root's. */
  lemma RootOnlyParent(t: Tree, s: nat)
    requires Woven(t) && RootSource(t, s)
    ensures AllLinked(t, {Top(t).page, s}) && OnlyParents(t, {Top(t).page, s}, {Top(t).page, s})
  {
    hide *;
    RootLinked(t, s);
    RootExists(t, s);
    forall q: nat, i: nat | q < |t.meta| && LiveIndexAt(t, q) && q != Top(t).page && q != s && HasEntry(t, q, i)
      ensures q < |t.pages| && i < |Entries(t.pages[q])|
      ensures Entries(t.pages[q])[i].child != Top(t).page && Entries(t.pages[q])[i].child != s
    {
      LiveIs(t, q, i);
      NotRootsChild(t, s, q, i);
    }
    OnlyTwoParents(t, Top(t).page, s);
  }

  predicate LiveIndexAt(t: Tree, q: nat) { q < |t.meta| && IsLinked(t.meta[q]) && t.meta[q].height > 1 }

  lemma LiveIs(t: Tree, q: nat, i: nat)
    requires LiveIndexAt(t, q) && HasEntry(t, q, i)
    ensures q < |t.meta| && IsLinked(t.meta[q]) && t.meta[q].Linked? && t.meta[q].height > 1
    ensures q < |t.pages| && i < |Entries(t.pages[q])|
  {
  }

  lemma RootExists(t: Tree, s: nat)
    requires RootSource(t, s)
    ensures |t.roots| > 0
  {
  }

  lemma OnlyTwoParents(t: Tree, a: nat, b: nat)
    requires forall q: nat, i: nat :: q < |t.meta| && LiveIndexAt(t, q) && q != a && q != b && HasEntry(t, q, i) ==>
               q < |t.pages| && i < |Entries(t.pages[q])| && Entries(t.pages[q])[i].child != a
                 && Entries(t.pages[q])[i].child != b
    ensures OnlyParents(t, {a, b}, {a, b})
  {
    hide HasEntry, Entries;
    forall q: nat, i: nat | q < |t.meta| && IsLinked(t.meta[q]) && t.meta[q].height > 1 && q !in {a, b}
      && HasEntry(t, q, i)
      ensures q < |t.pages| && i < |Entries(t.pages[q])| && Entries(t.pages[q])[i].child !in {a, b}
    {
      assert LiveIndexAt(t, q);
    }
  }

  lemma RootLinked(t: Tree, s: nat)
    requires Woven(t) && RootSource(t, s)
    ensures |t.roots| > 0 && AllLinked(t, {Top(t).page, s})
  {
    hide *;
    RootExists(t, s);
    WovenMeta(t);
    SourceLinked(t, s);
    TwoLinked(t, Top(t).page, s);
  }

  lemma SourceLinked(t: Tree, s: nat)
    requires RootsOk(t) && RootSource(t, s)
    ensures Top(t).page < |t.meta| && IsLinked(t.meta[Top(t).page]) && s < |t.meta| && IsLinked(t.meta[s])
  {
    hide RootServes;
  }

  lemma TwoLinked(t: Tree, a: nat, b: nat)
    requires a < |t.meta| && IsLinked(t.meta[a]) && b < |t.meta| && IsLinked(t.meta[b])
    ensures AllLinked(t, {a, b})
  {
  }

  lemma NotRootsChild(t: Tree, s: nat, q: nat, i: nat)
    requires Woven(t) && RootSource(t, s)
    requires q < |t.meta| && IsLinked(t.meta[q]) && t.meta[q].height > 1 && q != Top(t).page && q != s
    requires HasEntry(t, q, i)
    ensures Entries(t.pages[q])[i].child != Top(t).page && Entries(t.pages[q])[i].child != s
  {
    WovenMeta(t);
    hide Woven, AllTurn, OldRootsGone, MetaOk, RootServes, LiveIndexes, Apart, HasEntry;
    EntryLeadsDown(t, q, i);
    assert ValidFence(FULL);
    if Entries(t.pages[q])[i].child == s && s != Top(t).page {
      OneParent(t, Top(t).page, q, i);
    }
  }

  lemma EntryLeadsDown(t: Tree, q: nat, i: nat)
    requires LiveIndexes(t) && q < |t.meta| && IsLinked(t.meta[q]) && t.meta[q].height > 1 && HasEntry(t, q, i)
    ensures q < |t.pages| && i < |Entries(t.pages[q])|
    ensures var c := Entries(t.pages[q])[i].child;
            && c < |t.meta| && t.meta[c].Linked?
            && t.meta[c].height + 1 == t.meta[q].height
  {
    assert LiveIndex(t, q);
    hide ActiveTiles;
    assert ChildOk(t.meta, Entries(t.pages[q])[i], t.meta[q].height);
  }

  /** At a version nobody has drawn before, only live pages count, and they lead to their own children. */
  lemma DrawAvoids(t: Tree, kids: set<nat>, parents: set<nat>)
    requires Woven(t) && AllLinked(t, kids) && OnlyParents(t, kids, parents)
    ensures Avoids(t, t.clock, kids, parents)
  {
    WovenMeta(t);
    hide Woven, AllTurn, OldRootsGone, RootsOk, LiveIndexes, Apart;
    forall q: nat, k: nat, v: nat | t.clock <= v && q !in parents && Visible(t, q, k, v) && t.meta[q].height > 1
      && Turns(t, q, k, v)
      ensures ChildFor(t, q, k, v) !in kids
    {
      var i := Route(Entries(t.pages[q]), k, v).value;
      assert RoutedTo(t, q, Entries(t.pages[q])[i], v);
      assert IsLinked(t.meta[q]);
      assert Entries(t.pages[q])[i].Active() ==> HasEntry(t, q, i);
    }
  }

  // ---------------------------------------------------------------- other publications

  /** Where a touched page leads a reader: as before, or to a new page. */
  ghost predicate TouchedTurns(t0: Tree, t1: Tree, born: map<nat, Meta>, touched: set<nat>) {
    forall q: nat, k: nat, v: nat :: q in touched && Visible(t1, q, k, v) && t1.meta[q].height > 1 ==>
      Turns(t1, q, k, v) ==>
      || ChildFor(t1, q, k, v) in born
      || (Visible(t0, q, k, v) && t0.meta[q].height > 1 && Turns(t0, q, k, v)
          && ChildFor(t1, q, k, v) == ChildFor(t0, q, k, v))
  }

  /** A page that is neither new nor touched leads where it led before. */
  lemma OtherLeads(t0: Tree, t1: Tree, w: nat, dying: set<nat>, born: map<nat, Meta>, touched: set<nat>, q: nat, k: nat,
                   x: nat)
    requires AllTurn(t0) && Weaves(t0, t1, w, dying, born, touched) && q !in born && q !in touched
    requires Visible(t1, q, k, x) && t1.meta[q].height > 1 && Turns(t1, q, k, x)
    ensures Visible(t0, q, k, x) && Turns(t0, q, k, x) && t0.meta[q].height > 1
    ensures ChildFor(t1, q, k, x) == ChildFor(t0, q, k, x)
  {
    assert Visible(t0, q, k, x) && Turns(t0, q, k, x);
  }

  lemma BornUnlinked(t0: Tree, t1: Tree, w: nat, dying: set<nat>, born: map<nat, Meta>, touched: set<nat>, b: nat)
    requires Weaves(t0, t1, w, dying, born, touched) && b in born
    ensures b < |t0.meta| && t0.meta[b] == Unlinked && b < |t1.meta| && t1.meta[b] == born[b] && IsLinked(t1.meta[b])
  {
  }

  lemma AvoidsThere(t: Tree, v: nat, kids: set<nat>, parents: set<nat>, q: nat, k: nat, x: nat)
    requires Avoids(t, v, kids, parents) && v <= x && q !in parents && Visible(t, q, k, x) && Turns(t, q, k, x)
    requires t.meta[q].height > 1
    ensures ChildFor(t, q, k, x) !in kids
  {
    hide Visible, Turns, ChildFor;
  }

  lemma TouchedLeads(t0: Tree, t1: Tree, born: map<nat, Meta>, touched: set<nat>, q: nat, k: nat, x: nat)
    requires TouchedTurns(t0, t1, born, touched) && q in touched && Visible(t1, q, k, x) && Turns(t1, q, k, x)
    requires t1.meta[q].height > 1
    ensures || ChildFor(t1, q, k, x) in born
            || (Visible(t0, q, k, x) && Turns(t0, q, k, x) && t0.meta[q].height > 1
                && ChildFor(t1, q, k, x) == ChildFor(t0, q, k, x))
  {
    hide Visible, Turns, ChildFor;
  }

  lemma BornIs(t0: Tree, t1: Tree, w: nat, dying: set<nat>, born: map<nat, Meta>, touched: set<nat>, b: nat)
    requires Sews(t0, t1, w, dying, born, touched) && b in born && b < |t1.meta| && t1.meta[b] == born[b]
    requires IsLinked(t1.meta[b])
    ensures Weaves(t0, t1, w, dying, born, touched)
    ensures t1.meta[b].height > 1 ==> BornIndex(t1, b, w) && b < |t1.pages|
  {
    hide Weaves, NoOrphans, BornApart, Avoids, RootsOk, OldRootsGone, Turns, Visible;
  }

  lemma BornChild(t: Tree, b: nat, w: nat, kids: set<nat>, parents: set<nat>, k: nat, x: nat)
    requires b < |t.meta| && IsLinked(t.meta[b]) && t.meta[b].height > 1 && BornIndex(t, b, w)
    requires OnlyParents(t, kids, parents) && b !in parents
    requires Turns(t, b, k, x)
    ensures ChildFor(t, b, k, x) !in kids
  {
    var i := Route(Entries(t.pages[b]), k, x).value;
    hide BornIndex, OnlyParents, Route;
    BornLeads(t, b, w, i, kids, parents);
  }

  lemma SewsIsWeaving(t0: Tree, t1: Tree, w: nat, dying: set<nat>, born: map<nat, Meta>, touched: set<nat>)
    requires Sews(t0, t1, w, dying, born, touched)
    ensures Weaves(t0, t1, w, dying, born, touched)
  {
    hide Weaves;
  }

  lemma LinkedKids(t: Tree, kids: set<nat>, c: nat)
    requires AllLinked(t, kids) && c < |t.meta| && t.meta[c] == Unlinked
    ensures c !in kids
  {
  }

  lemma AvoidsAt(t0: Tree, t1: Tree, w: nat, dying: set<nat>, born: map<nat, Meta>, touched: set<nat>,
                 v: nat, kids: set<nat>, parents: set<nat>, q: nat, k: nat, x: nat)
    requires Woven(t0) && Woven(t1) && Sews(t0, t1, w, dying, born, touched) && TouchedTurns(t0, t1, born, touched)
    requires Avoids(t0, v, kids, parents) && AllLinked(t0, kids) && AllLinked(t1, kids)
    requires OnlyParents(t1, kids, parents)
    requires v <= x && q !in parents && Visible(t1, q, k, x) && t1.meta[q].height > 1 && Turns(t1, q, k, x)
    ensures ChildFor(t1, q, k, x) !in kids
  {
    hide *;
    WovenMeta(t0);
    SewsIsWeaving(t0, t1, w, dying, born, touched);
    if q in born {
      BornUnlinked(t0, t1, w, dying, born, touched, q);
      BornIs(t0, t1, w, dying, born, touched, q);
      BornChild(t1, q, w, kids, parents, k, x);
    } else if q !in touched {
      OtherLeads(t0, t1, w, dying, born, touched, q, k, x);
      AvoidsThere(t0, v, kids, parents, q, k, x);
    } else {
      TouchedLeads(t0, t1, born, touched, q, k, x);
      var c := ChildFor(t1, q, k, x);
      if c in born {
        BornUnlinked(t0, t1, w, dying, born, touched, c);
        LinkedKids(t0, kids, c);
      } else {
        AvoidsThere(t0, v, kids, parents, q, k, x);
      }
    }
  }

  lemma BornLeads(t: Tree, b: nat, w: nat, i: nat, kids: set<nat>, parents: set<nat>)
    requires b < |t.meta| && IsLinked(t.meta[b]) && t.meta[b].height > 1 && BornIndex(t, b, w)
    requires OnlyParents(t, kids, parents) && b !in parents
    requires b < |t.pages| && i < |Entries(t.pages[b])|
    ensures Entries(t.pages[b])[i].child !in kids
  {
    hide LiveIndex;
    assert HasEntry(t, b, i);
  }

  /** What another writer publishes does not lead anybody to the pages a writer is about to replace. */
  lemma AvoidsStays(t0: Tree, t1: Tree, w: nat, dying: set<nat>, born: map<nat, Meta>, touched: set<nat>,
                    v: nat, kids: set<nat>, parents: set<nat>)
    requires Woven(t0) && Woven(t1) && Sews(t0, t1, w, dying, born, touched) && TouchedTurns(t0, t1, born, touched)
    requires Avoids(t0, v, kids, parents) && AllLinked(t0, kids) && AllLinked(t1, kids)
    requires OnlyParents(t1, kids, parents)
    requires forall b :: b in born ==> b !in parents
    ensures Avoids(t1, v, kids, parents)
  {
    forall q: nat, k: nat, x: nat | v <= x && q !in parents && Visible(t1, q, k, x) && t1.meta[q].height > 1
      && Turns(t1, q, k, x)
      ensures ChildFor(t1, q, k, x) !in kids
    {
      hide Woven, Sews, TouchedTurns, Avoids, AllLinked, OnlyParents, Visible, Turns, ChildFor;
      AvoidsAt(t0, t1, w, dying, born, touched, v, kids, parents, q, k, x);
    }
  }

  // ---------------------------------------------------------------- pages outside the tree

  lemma ForgetTurns(t0: Tree, t1: Tree, id: nat, p: nat, k: nat, v: nat)
    requires AllTurn(t0) && Forgets(t0, t1, id) && Visible(t1, p, k, v)
    ensures Turns(t1, p, k, v) && Visible(t0, p, k, v) && Turns(t0, p, k, v)
    ensures t1.meta[p].height > 1 ==> t0.meta[p].height > 1 && ChildFor(t1, p, k, v) == ChildFor(t0, p, k, v)
  {
    assert Visible(t0, p, k, v) && Turns(t0, p, k, v);
  }

  lemma ForgetLives(t0: Tree, t1: Tree, id: nat)
    requires MetaOk(t0) && Apart(t0.meta) && LiveIndexes(t0) && Forgets(t0, t1, id)
    ensures MetaOk(t1) && Apart(t1.meta) && LiveIndexes(t1)
  {
    hide ValidFence, Disjoint, ActiveTiles;
    forall p: nat | p < |t1.meta| && IsLinked(t1.meta[p]) && t1.meta[p].height > 1 ensures LiveIndex(t1, p) {
      assert LiveIndex(t0, p);
      var es := Entries(t0.pages[p]);
      forall i | 0 <= i < |es| && es[i].Active() ensures ChildOk(t1.meta, es[i], t0.meta[p].height) {
        assert ChildOk(t0.meta, es[i], t0.meta[p].height);
      }
    }
  }

  lemma ForgetOldRoots(t0: Tree, t1: Tree, id: nat)
    requires MetaOk(t0) && RootsOk(t0) && OldRootsGone(t0) && Forgets(t0, t1, id)
    ensures RootsOk(t1) && OldRootsGone(t1)
  {
    forall v: nat | t1.horizon <= v
      ensures RootServes(t1, v) && (IsLinked(t1.meta[RootPageFor(t1, v)]) ==> RootPageFor(t1, v) == Top(t1).page)
    {
      assert RootServes(t0, v);
      assert IsLinked(t0.meta[RootPageFor(t0, v)]) ==> RootPageFor(t0, v) == Top(t0).page;
    }
  }

  /** Taking, filling or recycling a page outside the tree keeps every kept snapshot as it is. */
  lemma ForgetKeepsWoven(t0: Tree, t1: Tree, id: nat)
    requires Woven(t0) && Forgets(t0, t1, id)
    ensures Woven(t1)
  {
    WovenMeta(t0);
    hide Woven, RootsOk, OldRootsGone, LiveIndexes, MetaOk, Apart, Forgets;
    ForgetLives(t0, t1, id);
    ForgetOldRoots(t0, t1, id);
    forall p: nat, k: nat, v: nat | Visible(t1, p, k, v) ensures Turns(t1, p, k, v) {
      hide Visible, Turns, AllTurn;
      ForgetTurns(t0, t1, id, p, k, v);
    }
    assert AllTurn(t1);
    hide AllTurn;
    WovenIs(t1);
  }

  lemma ForgetAvoids(t0: Tree, t1: Tree, id: nat, v: nat, kids: set<nat>, parents: set<nat>)
    requires Woven(t0) && Forgets(t0, t1, id) && Avoids(t0, v, kids, parents)
    ensures Avoids(t1, v, kids, parents)
  {
    WovenMeta(t0);
    hide Woven, MetaOk, Apart, RootsOk, OldRootsGone, LiveIndexes, Forgets;
    forall q: nat, k: nat, x: nat | v <= x && q !in parents && Visible(t1, q, k, x) && t1.meta[q].height > 1
      && Turns(t1, q, k, x)
      ensures ChildFor(t1, q, k, x) !in kids
    {
      hide Visible, Turns, AllTurn, ChildFor;
      ForgetTurns(t0, t1, id, q, k, x);
    }
  }

  // ---------------------------------------------------------------- records in leaves

  predicate SamePage(p: Page, q: Page) { p == q || (p.Leaf? && q.Leaf?) }

  /** The trees differ in the records of leaves only. */
  ghost predicate SameIndexes(t0: Tree, t1: Tree) {
    && |t1.pages| == |t0.pages| && t1 == t0.(pages := t1.pages)
    && forall i: nat :: i < |t0.pages| ==> SamePage(t0.pages[i], t1.pages[i])
  }

  lemma PageAlike(t0: Tree, t1: Tree, i: nat)
    requires SameIndexes(t0, t1) && i < |t0.pages|
    ensures i < |t1.pages| && Entries(t1.pages[i]) == Entries(t0.pages[i]) && t1.pages[i].Index? == t0.pages[i].Index?
    ensures t0.pages[i].Index? ==> t1.pages[i] == t0.pages[i]
  {
    assert SamePage(t0.pages[i], t1.pages[i]);
  }

  lemma WriteTurns(t0: Tree, t1: Tree, q: nat, k: nat, v: nat)
    requires SameIndexes(t0, t1)
    ensures Visible(t1, q, k, v) <==> Visible(t0, q, k, v)
    ensures Turns(t1, q, k, v) <==> Turns(t0, q, k, v)
    ensures Turns(t1, q, k, v) && t1.meta[q].height > 1 ==> ChildFor(t1, q, k, v) == ChildFor(t0, q, k, v)
  {
    if q < |t0.pages| { PageAlike(t0, t1, q); }
    hide SameIndexes, Route, Covers, Entries;
    RecordsAside(t0, t1);
  }

  lemma RecordsAside(t0: Tree, t1: Tree)
    requires SameIndexes(t0, t1)
    ensures t1 == t0.(pages := t1.pages) && |t1.pages| == |t0.pages|
  {
  }

  lemma WriteLives(t0: Tree, t1: Tree)
    requires SameIndexes(t0, t1) && LiveIndexes(t0)
    ensures LiveIndexes(t1)
  {
    RecordsAside(t0, t1);
    hide SameIndexes, ActiveTiles, ChildrenOk, Births;
    forall p: nat | p < |t1.meta| && IsLinked(t1.meta[p]) && t1.meta[p].height > 1 ensures LiveIndex(t1, p) {
      assert LiveIndex(t0, p);
      PageAlike(t0, t1, p);
    }
  }

  lemma WriteRoots(t0: Tree, t1: Tree)
    requires SameIndexes(t0, t1) && MetaOk(t0) && Apart(t0.meta) && RootsOk(t0) && OldRootsGone(t0)
    ensures MetaOk(t1) && Apart(t1.meta) && RootsOk(t1) && OldRootsGone(t1)
  {
    RecordsAside(t0, t1);
    hide SameIndexes, Apart;
    forall v: nat | t1.horizon <= v
      ensures RootServes(t1, v) && (IsLinked(t1.meta[RootPageFor(t1, v)]) ==> RootPageFor(t1, v) == Top(t1).page)
    {
      assert RootServes(t0, v);
      assert IsLinked(t0.meta[RootPageFor(t0, v)]) ==> RootPageFor(t0, v) == Top(t0).page;
    }
  }

  /** Writing records changes nothing for routing. */
  lemma WriteKeepsWoven(t0: Tree, t1: Tree)
    requires SameIndexes(t0, t1) && Woven(t0)
    ensures Woven(t1)
  {
    WovenMeta(t0);
    WriteLives(t0, t1);
    WriteRoots(t0, t1);
    hide Woven, SameIndexes, MetaOk, Apart, LiveIndexes, RootsOk, OldRootsGone, Visible, Turns;
    forall p: nat, k: nat, v: nat | Visible(t1, p, k, v) ensures Turns(t1, p, k, v) {
      WriteTurns(t0, t1, p, k, v);
    }
    assert AllTurn(t1);
    hide AllTurn;
    WovenIs(t1);
  }

  lemma WriteAvoids(t0: Tree, t1: Tree, v: nat, kids: set<nat>, parents: set<nat>)
    requires SameIndexes(t0, t1) && Avoids(t0, v, kids, parents)
    ensures Avoids(t1, v, kids, parents)
  {
    RecordsAside(t0, t1);
    hide SameIndexes, Visible, Turns, ChildFor;
    forall q: nat, k: nat, x: nat | v <= x && q !in parents && Visible(t1, q, k, x) && t1.meta[q].height > 1
      && Turns(t1, q, k, x)
      ensures ChildFor(t1, q, k, x) !in kids
    {
      WriteTurns(t0, t1, q, k, x);
    }
  }

  lemma WriteBelow(t0: Tree, t1: Tree, p: nat, olds: set<nat>, v: nat)
    requires SameIndexes(t0, t1) && BelowHeld(t0, p, olds, v)
    ensures BelowHeld(t1, p, olds, v) && Replaced(t1, p, olds) == Replaced(t0, p, olds)
  {
    RecordsAside(t0, t1);
    PageAlike(t0, t1, p);
    ReplacedAreChildren(t0, p, olds);
    ReplacedAreChildren(t1, p, olds);
    hide SameIndexes, VersionsOk, Entries;
    forall c | t0.meta[p].height > 2 && c in Children(Entries(t0.pages[p]), olds) ensures OlderThan(t1, c, v) {
      assert OlderThan(t0, c, v);
      PageAlike(t0, t1, c);
    }
  }

  lemma WriteRoot(t0: Tree, t1: Tree, s: nat, v: nat)
    requires SameIndexes(t0, t1) && RootHeld(t0, s, v)
    ensures RootHeld(t1, s, v)
  {
    RecordsAside(t0, t1);
    if s < |t0.pages| { PageAlike(t0, t1, s); }
    hide SameIndexes, VersionsOk, Entries;
  }
}
