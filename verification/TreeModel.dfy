/**
 The whole tree as one value, and its invariant. Beside the pages, the roots, the clock and the
 graveyard it carries what only the proof needs: for every page the fence it was published under,
 the versions between which it is part of the tree and its height; the history of committed
 writes; and the horizon, the oldest version whose pages have not been handed out again.
 */
module TreeModel {
  import opened Util
  import opened Fences
  import opened History
  import opened Pages
  import opened Fill
  import opened Smo

  datatype Meta = Unlinked | Linked(fence: Fence, birth: nat, death: Option<nat>, height: nat)

  datatype Root = Root(page: nat, version: nat, height: nat)

  datatype Dead = Dead(death: nat, serial: nat, page: nat)

  datatype Tree = Tree(fanOut: nat, numRecords: nat, pages: seq<Page>, roots: seq<Root>, clock: nat,
                       graveyard: seq<Dead>, meta: seq<Meta>, history: History, horizon: nat)

  /** Part of the tree at version `v`. */
  predicate AliveAt(m: Meta, v: nat) { m.Linked? && m.birth <= v && (m.death.None? || v < m.death.value) }

  /** Part of the tree now. */
  predicate IsLinked(m: Meta) { m.Linked? && m.death.None? }

  /** `root_for`: the newest root whose version is not larger than `v`. */
  function RootFor(roots: seq<Root>, v: nat): (r: Option<nat>)
    ensures r.Some? ==> r.value < |roots| && roots[r.value].version <= v && forall j :: r.value < j < |roots| ==>
              roots[j].version > v
    ensures r.None? ==> forall j :: 0 <= j < |roots| ==> roots[j].version > v
  {
    RFind((r: Root) => r.version <= v, roots)
  }

  function Top(t: Tree): Root
    requires |t.roots| > 0
  {
    t.roots[|t.roots| - 1]
  }

  // ---------------------------------------------------------------- the page a writer may change

  /** Of two records of one key, the earlier one ended when the later one began, or before. */
  ghost predicate Separate(rs: seq<Record>) {
    forall i, j :: 0 <= i < j < |rs| && rs[i].key == rs[j].key ==> rs[i].del.Some? && rs[i].del.value <= rs[j].ins
  }

  /** The records of a leaf lie inside its fence, and no two of one key overlap in time. */
  ghost predicate Tidy(rs: seq<Record>, f: Fence) {
    (forall i :: 0 <= i < |rs| ==> Contains(f, rs[i].key)) && Separate(rs)
  }

  /** The entries of an index page lie inside its fence. */
  ghost predicate Within(es: seq<Entry>, f: Fence) {
    forall i :: 0 <= i < |es| ==> Covers(f, es[i].fence)
  }

  ghost predicate LeafGood(rs: seq<Record>, f: Fence, clock: nat) {
    && (forall i :: 0 <= i < |rs| ==> rs[i].ins < clock && (rs[i].del.Some? ==> rs[i].del.value < clock))
    && Tidy(rs, f)
    && (forall i, j :: 0 <= i < j < |rs| ==> rs[i].ins <= rs[j].ins)
  }

  ghost predicate ChildOk(meta: seq<Meta>, e: Entry, h: nat) {
    && e.child < |meta| && IsLinked(meta[e.child])
    && meta[e.child].fence == e.fence && meta[e.child].height + 1 == h
  }

  ghost predicate ChildrenOk(meta: seq<Meta>, es: seq<Entry>, h: nat) {
    forall i :: 0 <= i < |es| && es[i].Active() ==> ChildOk(meta, es[i], h)
  }

  ghost predicate VersionsOk(es: seq<Entry>, clock: nat) {
    && (forall i :: 0 <= i < |es| ==> es[i].version < clock)
    && (forall i, j :: 0 <= i < j < |es| ==> es[i].version <= es[j].version)
  }

  ghost predicate IndexGood(meta: seq<Meta>, es: seq<Entry>, f: Fence, h: nat, clock: nat) {
    && |es| > 0 && es[|es| - 1].Active()
    && VersionsOk(es, clock) && ActiveTiles(es, f) && ChildrenOk(meta, es, h)
  }

  /** A page that is part of the tree now: exact counters, one live record per key, tiled fence. */
  ghost predicate LivePage(t: Tree, p: Page, f: Fence, h: nat) {
    && Exact(p)
    && if h == 1 then p.Leaf? && Capacity(p) == t.numRecords && LeafGood(Records(p), f, t.clock)
       else p.Index? && Capacity(p) == t.fanOut && IndexGood(t.meta, Entries(p), f, h, t.clock)
  }

  // ---------------------------------------------------------------- the page a reader may visit

  ghost predicate RoutedTo(t: Tree, i: nat, e: Entry, v: nat)
    requires i < |t.meta| && t.meta[i].Linked?
  {
    && e.child < |t.meta| && AliveAt(t.meta[e.child], v)
    && t.meta[e.child].fence == e.fence && t.meta[e.child].height + 1 == t.meta[i].height
    && Covers(t.meta[i].fence, e.fence)
    && (t.meta[i].death.None? ==> (e.obsolete <==> t.meta[e.child].death.Some?))
  }

  /** The entry is chosen for every key of its fence: at `v`, no other entry cuts into it. */
  ghost predicate WholeFence(es: seq<Entry>, j: nat, v: nat) {
    j < |es| && forall k: nat :: Contains(es[j].fence, k) ==> Route(es, k, v) == Some(j)
  }

  /** At `v`, page `i` sends a reader of `k` to the right child, or answers as the history does. */
  ghost predicate Serves(t: Tree, i: nat, k: nat, v: nat) {
    i < |t.pages| && i < |t.meta| && t.meta[i].Linked? &&
    if t.meta[i].height == 1 then
      && t.pages[i].Leaf? && Tidy(Records(t.pages[i]), t.meta[i].fence)
      && PointAnswer(Records(t.pages[i]), k, v) == At(t.history, k, v)
    else
      t.pages[i].Index? && Within(Entries(t.pages[i]), t.meta[i].fence) &&
      var r := Route(Entries(t.pages[i]), k, v);
      r.Some? && RoutedTo(t, i, Entries(t.pages[i])[r.value], v) && WholeFence(Entries(t.pages[i]), r.value, v)
  }

  ghost predicate Visible(t: Tree, i: nat, k: nat, v: nat) {
    i < |t.meta| && AliveAt(t.meta[i], v) && t.horizon <= v && Contains(t.meta[i].fence, k)
  }

  ghost predicate AllServe(t: Tree) {
    forall i: nat, k: nat, v: nat :: Visible(t, i, k, v) ==> Serves(t, i, k, v)
  }

  // ---------------------------------------------------------------- the invariant

  ghost predicate MetaOk(t: Tree) {
    && |t.meta| == |t.pages|
    && forall i :: 0 <= i < |t.meta| && t.meta[i].Linked? ==>
         && ValidFence(t.meta[i].fence) && t.meta[i].birth <= t.clock && t.meta[i].height >= 1
         && (t.meta[i].death.Some? ==> t.meta[i].death.value < t.clock)
  }

  /** Pages of one height that are part of the tree now do not overlap. */
  ghost predicate Apart(meta: seq<Meta>) {
    forall i, j :: 0 <= i < j < |meta| && IsLinked(meta[i]) && IsLinked(meta[j]) && meta[i].height == meta[j].height ==>
      Disjoint(meta[i].fence, meta[j].fence)
  }

  /** Two linked pages of one height that share a key are the same page. */
  lemma OnlyOne(meta: seq<Meta>, i: nat, j: nat, k: nat)
    requires Apart(meta) && i < |meta| && j < |meta| && IsLinked(meta[i]) && IsLinked(meta[j])
    requires meta[i].height == meta[j].height && Contains(meta[i].fence, k) && Contains(meta[j].fence, k)
    ensures i == j
  {
  }

  ghost predicate LivePages(t: Tree)
    requires |t.meta| == |t.pages|
  {
    forall i :: 0 <= i < |t.meta| && IsLinked(t.meta[i]) ==> LivePage(t, t.pages[i], t.meta[i].fence, t.meta[i].height)
  }

  ghost predicate RootAlive(t: Tree, r: Root, v: nat) {
    r.page < |t.meta| && AliveAt(t.meta[r.page], v) && t.meta[r.page].fence == FULL && t.meta[r.page].height == r.height
  }

  ghost predicate RootServes(t: Tree, v: nat) {
    var r := RootFor(t.roots, v);
    r.Some? && RootAlive(t, t.roots[r.value], v)
  }

  ghost predicate RootsOk(t: Tree) {
    && |t.roots| > 0
    && (forall i, j :: 0 <= i < j < |t.roots| ==> t.roots[i].version <= t.roots[j].version)
    && Top(t).version <= t.clock
    && Top(t).page < |t.meta| && IsLinked(t.meta[Top(t).page])
    && t.meta[Top(t).page].fence == FULL && t.meta[Top(t).page].height == Top(t).height
    && (forall i :: 0 <= i < |t.meta| && IsLinked(t.meta[i]) ==> t.meta[i].height <= Top(t).height)
    && forall v: nat :: t.horizon <= v ==> RootServes(t, v)
  }

  /** Every page but the root keeps at least 20% of its capacity active. */
  ghost predicate FillOk(t: Tree)
    requires |t.meta| == |t.pages| && |t.roots| > 0
  {
    forall i :: 0 <= i < |t.meta| && IsLinked(t.meta[i]) && i != Top(t).page ==>
      Filling20(Capacity(t.pages[i])) <= t.pages[i].active
  }

  ghost predicate GraveyardOk(t: Tree) {
    && (forall i :: 0 <= i < |t.graveyard| ==>
          && t.graveyard[i].page < |t.meta| && t.meta[t.graveyard[i].page].Linked?
          && t.meta[t.graveyard[i].page].death == Some(t.graveyard[i].death))
    && (forall i, j :: 0 <= i < j < |t.graveyard| ==> t.graveyard[i].page != t.graveyard[j].page)
  }

  ghost predicate Inv(t: Tree) {
    && t.fanOut >= MIN_CAPACITY && t.numRecords >= MIN_CAPACITY
    && 1 <= t.horizon <= t.clock && Before(t.history, t.clock)
    && MetaOk(t) && Apart(t.meta) && LivePages(t) && AllServe(t)
    && RootsOk(t) && FillOk(t) && GraveyardOk(t)
  }

  // ---------------------------------------------------------------- what a live page depends on

  /** The linked pages one level below `h` and inside `f` keep their meta data. */
  ghost predicate KeepsChildren(m0: seq<Meta>, m1: seq<Meta>, f: Fence, h: nat) {
    forall c :: 0 <= c < |m0| && IsLinked(m0[c]) && m0[c].height + 1 == h && Covers(f, m0[c].fence) ==>
      c < |m1| && m1[c] == m0[c]
  }

  lemma LivePageFrame(t0: Tree, t1: Tree, p: Page, f: Fence, h: nat)
    requires LivePage(t0, p, f, h) && KeepsChildren(t0.meta, t1.meta, f, h)
    requires t0.clock <= t1.clock && t0.fanOut == t1.fanOut && t0.numRecords == t1.numRecords
    ensures LivePage(t1, p, f, h)
  {
    hide Exact;
    if h != 1 {
      var es := Entries(p);
      forall i | 0 <= i < |es| && es[i].Active() ensures ChildOk(t1.meta, es[i], h) {
        assert ChildOk(t0.meta, es[i], h) && Covers(f, es[i].fence);
      }
    }
  }

  // ---------------------------------------------------------------- the empty tree

  function EmptyTree(fanOut: nat, numRecords: nat): Tree {
    Tree(fanOut, numRecords, [EmptyLeaf(numRecords)], [Root(0, 1, 1)], 1, [], [Linked(FULL, 1, None, 1)], [], 1)
  }

  lemma EmptyTreeInv(fanOut: nat, numRecords: nat)
    requires fanOut >= MIN_CAPACITY && numRecords >= MIN_CAPACITY
    ensures Inv(EmptyTree(fanOut, numRecords))
  {
    var t := EmptyTree(fanOut, numRecords);
    forall i: nat, k: nat, v: nat | Visible(t, i, k, v) ensures Serves(t, i, k, v) {
      PointAnswerIsLastHit(Records(t.pages[i]), k, v, None);
    }
    forall v: nat | t.horizon <= v ensures RootServes(t, v) {
      assert t.roots[0].version <= v;
    }
  }

  // ---------------------------------------------------------------- pages that are not part of the tree

  /** Page `id` becomes or stays unlinked; nothing else that a reader or a writer reaches changes. */
  ghost predicate Forgets(t0: Tree, t1: Tree, id: nat) {
    && |t0.meta| == |t0.pages| && |t1.meta| == |t1.pages| && id < |t1.pages|
    && (id < |t0.pages| ==> |t1.pages| == |t0.pages|) && (id >= |t0.pages| ==> |t1.pages| == id + 1 == |t0.pages| + 1)
    && (forall i :: 0 <= i < |t0.pages| && i != id ==> t1.pages[i] == t0.pages[i] && t1.meta[i] == t0.meta[i])
    && t1.meta[id] == Unlinked
    && (id < |t0.pages| ==>
        t0.meta[id] == Unlinked || (t0.meta[id].death.Some? && t0.meta[id].death.value <= t1.horizon))
    && t0.horizon <= t1.horizon <= t1.clock == t0.clock
    && t1 == t0.(pages := t1.pages, meta := t1.meta, graveyard := t1.graveyard, horizon := t1.horizon)
    && (t1.graveyard == t0.graveyard || (|t0.graveyard| > 0 && t1.graveyard == t0.graveyard[1..]))
    && (forall i :: 0 <= i < |t1.graveyard| ==> t1.graveyard[i].page != id)
  }

  lemma ForgetServes(t0: Tree, t1: Tree, id: nat, i: nat, k: nat, v: nat)
    requires Forgets(t0, t1, id) && AllServe(t0) && Visible(t1, i, k, v)
    ensures Serves(t1, i, k, v)
  {
    assert Visible(t0, i, k, v);
    assert Serves(t0, i, k, v);
  }

  lemma ForgetLive(t0: Tree, t1: Tree, id: nat)
    requires MetaOk(t0) && Apart(t0.meta) && LivePages(t0) && Forgets(t0, t1, id)
    ensures MetaOk(t1) && Apart(t1.meta) && LivePages(t1)
  {
    hide LivePage, ValidFence, Disjoint;
    forall i | 0 <= i < |t1.meta| && IsLinked(t1.meta[i])
      ensures LivePage(t1, t1.pages[i], t1.meta[i].fence, t1.meta[i].height)
    {
      assert LivePage(t0, t0.pages[i], t0.meta[i].fence, t0.meta[i].height);
      assert KeepsChildren(t0.meta, t1.meta, t0.meta[i].fence, t0.meta[i].height);
      LivePageFrame(t0, t1, t0.pages[i], t0.meta[i].fence, t0.meta[i].height);
    }
  }

  lemma ForgetRoots(t0: Tree, t1: Tree, id: nat)
    requires MetaOk(t0) && RootsOk(t0) && FillOk(t0) && Forgets(t0, t1, id)
    ensures RootsOk(t1) && FillOk(t1)
  {
    forall v: nat | t1.horizon <= v ensures RootServes(t1, v) {
      assert RootServes(t0, v);
    }
  }

  /** Allocating a page, fresh or from the graveyard, and filling it before it is published. */
  lemma ForgetKeepsInv(t0: Tree, t1: Tree, id: nat)
    requires Inv(t0) && Forgets(t0, t1, id)
    ensures Inv(t1)
  {
    hide LivePages, Apart, RootsOk, FillOk;
    ForgetLive(t0, t1, id);
    ForgetRoots(t0, t1, id);
    forall i: nat, k: nat, v: nat | Visible(t1, i, k, v) ensures Serves(t1, i, k, v) {
      hide Serves, Visible;
      ForgetServes(t0, t1, id, i, k, v);
    }
  }

  lemma DrawServes(t0: Tree, t1: Tree)
    requires AllServe(t0) && t1 == t0.(clock := t0.clock + 1)
    ensures AllServe(t1)
  {
    forall i: nat, k: nat, v: nat | Visible(t1, i, k, v) ensures Serves(t1, i, k, v) {
      assert Visible(t0, i, k, v) && Serves(t0, i, k, v);
    }
  }

  lemma DrawLive(t0: Tree, t1: Tree)
    requires |t0.meta| == |t0.pages| && LivePages(t0) && t1 == t0.(clock := t0.clock + 1)
    ensures LivePages(t1)
  {
    forall i | 0 <= i < |t1.meta| && IsLinked(t1.meta[i])
      ensures LivePage(t1, t1.pages[i], t1.meta[i].fence, t1.meta[i].height)
    {
      assert LivePage(t0, t0.pages[i], t0.meta[i].fence, t0.meta[i].height);
    }
  }

  lemma DrawRoots(t0: Tree, t1: Tree)
    requires MetaOk(t0) && RootsOk(t0) && FillOk(t0) && GraveyardOk(t0) && t1 == t0.(clock := t0.clock + 1)
    ensures MetaOk(t1) && RootsOk(t1) && FillOk(t1) && GraveyardOk(t1)
  {
    forall v: nat | t1.horizon <= v ensures RootServes(t1, v) {
      assert RootServes(t0, v);
    }
  }

  /** A version drawn and never used changes nothing. */
  lemma DrawKeepsInv(t0: Tree, t1: Tree)
    requires Inv(t0) && t1 == t0.(clock := t0.clock + 1)
    ensures Inv(t1)
  {
    hide AllServe, Apart;
    assert MetaOk(t0) && RootsOk(t0);
    hide RootsOk, FillOk, GraveyardOk;
    DrawServes(t0, t1);
    DrawLive(t0, t1);
    DrawRoots(t0, t1);
    hide MetaOk, LivePages;
  }

  lemma MetaOkOf(t: Tree)
    requires Inv(t)
    ensures MetaOk(t)
  {
  }
}
