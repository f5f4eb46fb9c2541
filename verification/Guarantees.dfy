/**
 What the invariant promises to somebody who looks at one page.
 */
module Guarantees {
  import opened Util
  import opened Fences
  import opened History
  import opened Pages
  import opened Fill
  import opened Smo
  import opened TreeModel
  import opened LeafWrites
  import opened ParentReorg
  import opened NewPages
  import Publish
  import Repairs
  import opened RootRepairs
  import opened TreeSteps

  function IsDeadRecord(r: Record): bool { !r.Live() }

  lemma {:induction false} LiveAndDead(rs: seq<Record>)
    ensures |Filter(IsLive, rs)| + |Filter(IsDeadRecord, rs)| == |rs|
  {
    if |rs| > 0 {
      LiveAndDead(rs[..|rs| - 1]);
    }
  }

  /** The packed counters of a leaf of the tree are exact, and a live record is the last one of its key. */
  lemma LeafCountersExact(t: Tree, i: nat)
    requires Inv(t) && i < |t.meta| && IsLinked(t.meta[i]) && t.meta[i].height == 1
    ensures i < |t.pages| && t.pages[i].Leaf?
    ensures t.pages[i].active == |Filter(IsLive, Records(t.pages[i]))|
    ensures t.pages[i].dead == |Filter(IsDeadRecord, Records(t.pages[i]))|
    ensures forall j: nat :: j < |Records(t.pages[i])| && Records(t.pages[i])[j].Live() ==>
              LastWithKey(Records(t.pages[i]), Records(t.pages[i])[j].key) == Some(j)
  {
    LinkedInTree(t, i);
    LiveAndDead(Records(t.pages[i]));
    LiveLeaf(t, i);
    hide *;
    LiveRecordsAreLast(Records(t.pages[i]), t.meta[i].fence, t.clock);
  }

  lemma LiveLeaf(t: Tree, i: nat)
    requires InTree(t, i) && t.meta[i].height == 1
    ensures t.pages[i].Leaf? && LeafGood(Records(t.pages[i]), t.meta[i].fence, t.clock)
    ensures t.pages[i].active == |Filter(IsLive, Records(t.pages[i]))| && |Records(t.pages[i])| == Sum(t.pages[i])
    ensures Sum(t.pages[i]) == t.pages[i].active + t.pages[i].dead
  {
    hide Filter, LeafGood;
  }

  lemma LiveRecordsAreLast(rs: seq<Record>, f: Fence, clock: nat)
    requires LeafGood(rs, f, clock)
    ensures forall j: nat :: j < |rs| && rs[j].Live() ==> LastWithKey(rs, rs[j].key) == Some(j)
  {
    hide LeafGood;
    forall j: nat | j < |rs| && rs[j].Live() ensures LastWithKey(rs, rs[j].key) == Some(j) {
      LiveIsLast(rs, f, clock, j, LastWithKey(rs, rs[j].key).value);
    }
  }

  /** At every version a page is read at, the entries readers choose tile its fence: no gap, no overlap. */
  lemma ChosenEntriesTile(t: Tree, i: nat, v: nat, k: nat, q: nat)
    requires Inv(t) && Visible(t, i, k, v) && Visible(t, i, q, v) && t.meta[i].height > 1
    ensures i < |t.pages|
    ensures var es := Entries(t.pages[i]); var a, b := Route(es, k, v), Route(es, q, v);
            && a.Some? && b.Some? && Covers(t.meta[i].fence, es[a.value].fence)
            && (es[a.value].fence == es[b.value].fence || Disjoint(es[a.value].fence, es[b.value].fence))
            && (Contains(es[a.value].fence, q) <==> a == b)
  {
    ServesAt(t, i, k, v);
    ServesAt(t, i, q, v);
    hide Inv, RoutedTo, Route;
    var es := Entries(t.pages[i]);
    var a, b := Route(es, k, v).value, Route(es, q, v).value;
    SharedFence(es, a, b, v, k, q);
  }

  lemma SharedFence(es: seq<Entry>, a: nat, b: nat, v: nat, k: nat, q: nat)
    requires WholeFence(es, a, v) && WholeFence(es, b, v) && Contains(es[a].fence, k) && Contains(es[b].fence, q)
    ensures a == b || Disjoint(es[a].fence, es[b].fence)
  {
    var m := Max(es[a].fence.lower, es[b].fence.lower);
    if Contains(es[a].fence, m) && Contains(es[b].fence, m) {
      assert Route(es, m, v) == Some(a) && Route(es, m, v) == Some(b);
    }
  }

  /** Every page of the tree but the root keeps at least a fifth of its capacity active. */
  lemma FillingHolds(t: Tree, i: nat)
    requires Inv(t) && i < |t.meta| && IsLinked(t.meta[i])
    ensures |t.roots| > 0 && i < |t.pages| && (i == Top(t).page || 5 * t.pages[i].active >= Capacity(t.pages[i]))
  {
    HasTop(t);
    hide LivePages, AllServe, Apart, GraveyardOk, RootServes;
  }

  /** The last entry of an index page is active; if it is the only active one, it spans the whole page. */
  lemma LastEntryActive(t: Tree, p: nat)
    requires Inv(t) && p < |t.meta| && IsLinked(t.meta[p]) && t.meta[p].height > 1
    ensures p < |t.pages| && |Entries(t.pages[p])| > 0
    ensures var last := Entries(t.pages[p])[|Entries(t.pages[p])| - 1];
            last.Active() && (t.pages[p].active == 1 ==> last.fence == t.meta[p].fence)
  {
    PageKind(t, p);
    Publish.ParentFromInv(t, p);
    LastActive(t, p);
    Repairs.ParentFence(t, p);
    hide Inv, ActiveTiles, Filter;
    if t.pages[p].active == 1 {
      OnlyActiveSpans(Entries(t.pages[p]), t.meta[p].fence, |Entries(t.pages[p])| - 1);
    }
  }
}
