/**
 Replacing the root: the root itself, or its only child, is copied or cut in two, and a new root
 is appended to the root index.
 */
module RootReorg {
  import opened Util
  import opened Fences
  import opened History
  import opened Pages
  import opened Fill
  import opened Smo
  import opened TreeModel
  import opened LeafWrites
  import opened Reorg

  /** `s` is the root, or the child that spans the whole key space one level below it. */
  ghost predicate RootSource(t: Tree, s: nat) {
    && |t.roots| > 0 && s < |t.meta| && IsLinked(t.meta[s]) && t.meta[s].fence == FULL && Top(t).page < |t.meta|
    && (s == Top(t).page || t.meta[s].height + 1 == Top(t).height)
  }

  /** The pages published for `s`: either one copy, or two halves and a root above them. */
  datatype NewRoot = Copied(page: nat) | Cut(leftFence: Fence, left: nat, rightFence: Fence, right: nat, root: nat)

  function RootPage(n: NewRoot): nat { if n.Copied? then n.page else n.root }

  function RootHeight(n: NewRoot, h: nat): nat { if n.Copied? then h else h + 1 }

  ghost function BornRoot(n: NewRoot, w: nat, h: nat): map<nat, Meta> {
    match n
    case Copied(p) => map[p := Linked(FULL, w, None, h)]
    case Cut(lf, l, rf, r, root) =>
      map[l := Linked(lf, w, None, h), r := Linked(rf, w, None, h), root := Linked(FULL, w, None, h + 1)]
  }

  ghost predicate RootReplaces(t0: Tree, t1: Tree, s: nat, n: NewRoot) {
    && RootSource(t0, s)
    && (n.Cut? ==>
      Smo.Cut(FULL, n.leftFence, n.rightFence) && n.left != n.right && n.left != n.root && n.right != n.root)
    && CommitStep(t0, t1, {Top(t0).page, s}, BornRoot(n, t0.clock, t0.meta[s].height), {})
    && t1.roots == t0.roots + [Root(RootPage(n), t0.clock, RootHeight(n, t0.meta[s].height))]
  }

  /** Whoever is as high as the root is the root; whoever is as high as a spanning page is that page. */
  lemma SpanningIsUnique(t: Tree, s: nat, q: nat)
    requires MetaOk(t) && Apart(t.meta) && s < |t.meta| && IsLinked(t.meta[s]) && t.meta[s].fence == FULL
    requires q < |t.meta| && IsLinked(t.meta[q]) && t.meta[q].height == t.meta[s].height
    ensures q == s
  {
    assert ValidFence(t.meta[q].fence);
    OnlyOne(t.meta, q, s, t.meta[q].fence.lower);
  }

  lemma StaysLow(t: Tree, s: nat, q: nat)
    requires MetaOk(t) && Apart(t.meta) && RootsOk(t) && RootSource(t, s)
    requires q < |t.meta| && IsLinked(t.meta[q]) && q != Top(t).page && q != s
    ensures t.meta[q].height < Top(t).height && t.meta[q].height != t.meta[s].height
  {
    hide Apart, MetaOk;
    if t.meta[q].height == Top(t).height { SpanningIsUnique(t, Top(t).page, q); }
    if t.meta[q].height == t.meta[s].height { SpanningIsUnique(t, s, q); }
  }

  lemma RootNoOrphans(t: Tree, s: nat)
    requires MetaOk(t) && Apart(t.meta) && RootsOk(t) && RootSource(t, s)
    ensures NoOrphans(t.meta, {Top(t).page, s}, {})
  {
    forall q | 0 <= q < |t.meta| && IsLinked(t.meta[q]) && q !in {Top(t).page, s}
      ensures t.meta[q].height < Top(t).height && t.meta[q].height != t.meta[s].height
    {
      StaysLow(t, s, q);
    }
  }

  lemma RootBornApart(t: Tree, s: nat, n: NewRoot, w: nat)
    requires MetaOk(t) && Apart(t.meta) && RootsOk(t) && RootSource(t, s)
    requires n.Cut? ==>
               Smo.Cut(FULL, n.leftFence, n.rightFence) && n.left != n.right && n.left != n.root && n.right != n.root
    ensures BornApart(t.meta, {Top(t).page, s}, BornRoot(n, w, t.meta[s].height))
  {
    forall q | 0 <= q < |t.meta| && IsLinked(t.meta[q]) && q !in {Top(t).page, s}
      ensures t.meta[q].height < Top(t).height && t.meta[q].height != t.meta[s].height
    {
      StaysLow(t, s, q);
    }
  }

  lemma RootForAppended(roots: seq<Root>, r: Root, v: nat)
    ensures RootFor(roots + [r], v) == if r.version <= v then Some(|roots|) else RootFor(roots, v)
  {
    var all := roots + [r];
    assert all[|roots|] == r;
    var i := RootFor(all, v);
    assert forall j :: 0 <= j < |roots| ==> all[j] == roots[j];
    if r.version > v && i.Some? { assert roots[i.value] == all[i.value]; }
  }

  lemma RootIndexOk(t0: Tree, t1: Tree, s: nat, n: NewRoot)
    requires MetaOk(t0) && Apart(t0.meta) && RootsOk(t0) && RootReplaces(t0, t1, s, n)
    ensures RootsOk(t1)
  {
    hide Apart;
    var born := BornRoot(n, t0.clock, t0.meta[s].height);
    assert RootPage(n) in born;
    forall v: nat | t1.horizon <= v ensures RootServes(t1, v) {
      hide RootsOk, MetaOk;
      RootForAppended(t0.roots, t1.roots[|t0.roots|], v);
      if v < t0.clock {
        RootServesAt(t0, v);
      }
    }
    forall i | 0 <= i < |t1.meta| && IsLinked(t1.meta[i]) ensures t1.meta[i].height <= Top(t1).height {
      if i !in born {
        StaysLow(t0, s, i);
      }
    }
  }

  lemma RootServesAt(t: Tree, v: nat)
    requires RootsOk(t) && t.horizon <= v
    ensures RootServes(t, v)
  {
  }

  lemma RootFill(t0: Tree, t1: Tree, s: nat, n: NewRoot)
    requires MetaOk(t0) && |t0.roots| > 0 && FillOk(t0) && RootReplaces(t0, t1, s, n)
    requires n.Cut? ==> (forall b :: b in {n.left, n.right} ==>
                         b < |t1.pages| && Filling20(Capacity(t1.pages[b])) <= t1.pages[b].active)
    ensures FillOk(t1)
  {
    if n.Cut? { assert n.left in {n.left, n.right} && n.right in {n.left, n.right}; }
  }

  /** Replacing the root keeps the invariant. */
  lemma RootReplaceKeepsInv(t0: Tree, t1: Tree, s: nat, n: NewRoot)
    requires Inv(t0) && RootReplaces(t0, t1, s, n)
    requires Newborn(t1, RootPage(n)) && (n.Cut? ==> Newborn(t1, n.left) && Newborn(t1, n.right))
    requires n.Cut? ==> (forall b :: b in {n.left, n.right} ==>
                         b < |t1.pages| && Filling20(Capacity(t1.pages[b])) <= t1.pages[b].active)
    ensures Inv(t1)
  {
    RootParts(t0, t1, s, n);
    hide *;
    RootNoOrphans(t0, s);
    RootBornApart(t0, s, n, t0.clock);
    RootIndexOk(t0, t1, s, n);
    RootFill(t0, t1, s, n);
    CommitKeepsInv(t0, t1, {Top(t0).page, s}, BornRoot(n, t0.clock, t0.meta[s].height), {});
  }

  lemma RootParts(t0: Tree, t1: Tree, s: nat, n: NewRoot)
    requires Inv(t0) && RootReplaces(t0, t1, s, n)
    requires Newborn(t1, RootPage(n)) && (n.Cut? ==> Newborn(t1, n.left) && Newborn(t1, n.right))
    ensures MetaOk(t0) && Apart(t0.meta) && RootsOk(t0) && FillOk(t0) && |t0.roots| > 0 && s < |t0.meta|
    ensures t0.meta[s].Linked?
    ensures Top(t0).page < |t0.meta| && t0.meta[Top(t0).page].Linked?
    ensures forall b :: b in BornRoot(n, t0.clock, t0.meta[s].height) ==> Newborn(t1, b)
    ensures RootSource(t0, s)
    ensures n.Cut? ==>
              Smo.Cut(FULL, n.leftFence, n.rightFence) && n.left != n.right && n.left != n.root && n.right != n.root
    ensures CommitStep(t0, t1, {Top(t0).page, s}, BornRoot(n, t0.clock, t0.meta[s].height), {})
  {
    hide LivePage, Newborn, LivePages, AllServe, GraveyardOk;
  }

  /** The root above two halves is a page of the tree once the halves are. */
  lemma NewRootPage(t0: Tree, t1: Tree, s: nat, n: NewRoot)
    requires MetaOk(t0) && RootReplaces(t0, t1, s, n) && n.Cut? && t1.clock == t0.clock + 1
    requires n.root < |t1.pages| && t1.pages[n.root].Index? && Capacity(t1.pages[n.root]) == t1.fanOut
    requires t1.pages[n.root].active == 2 && t1.pages[n.root].dead == 0
    requires Entries(t1.pages[n.root]) == [Entry(n.leftFence, t0.clock, false, n.left),
                                           Entry(n.rightFence, t0.clock, false, n.right)]
    ensures Newborn(t1, n.root)
  {
    hide *;
    NewRootMeta(t0, t1, s, n);
    var es := Entries(t1.pages[n.root]);
    PairTiles(es, n.leftFence, n.rightFence);
    PairGood(t1.meta, es, t0.meta[s].height + 1, t0.clock);
    PairNewborn(t1, n.root, t0.meta[s].height + 1);
  }

  lemma PairGood(meta: seq<Meta>, es: seq<Entry>, h: nat, w: nat)
    requires |es| == 2 && ActiveTiles(es, FULL) && h > 1
    requires forall i :: 0 <= i < 2 ==> es[i].version == w && !es[i].obsolete && es[i].child < |meta|
                                        && meta[es[i].child] == Linked(es[i].fence, w, None, h - 1)
    ensures IndexGood(meta, es, FULL, h, w + 1)
  {
    hide ActiveTiles;
  }

  lemma PairNewborn(t: Tree, root: nat, h: nat)
    requires root < |t.pages| && root < |t.meta| && t.meta[root].Linked? && t.meta[root].fence == FULL
    requires t.meta[root].height == h > 1
    requires t.pages[root].Index? && Capacity(t.pages[root]) == t.fanOut && t.pages[root].active == 2
    requires t.pages[root].dead == 0
    requires |Entries(t.pages[root])| == 2 && forall i :: 0 <= i < 2 ==> !Entries(t.pages[root])[i].obsolete
    requires IndexGood(t.meta, Entries(t.pages[root]), FULL, h, t.clock)
    ensures Newborn(t, root)
  {
    FilterAll(IsActive, Entries(t.pages[root]));
    hide IndexGood, Filter;
  }

  lemma NewRootMeta(t0: Tree, t1: Tree, s: nat, n: NewRoot)
    requires MetaOk(t0) && RootReplaces(t0, t1, s, n) && n.Cut?
    ensures n.left < |t1.meta| && n.right < |t1.meta| && n.root < |t1.meta| && s < |t0.meta| && t0.meta[s].Linked?
    ensures t0.meta[s].height >= 1
    ensures t1.meta[n.left] == Linked(n.leftFence, t0.clock, None, t0.meta[s].height)
    ensures t1.meta[n.right] == Linked(n.rightFence, t0.clock, None, t0.meta[s].height)
    ensures t1.meta[n.root] == Linked(FULL, t0.clock, None, t0.meta[s].height + 1)
    ensures Smo.Cut(FULL, n.leftFence, n.rightFence)
  {
    var born := BornRoot(n, t0.clock, t0.meta[s].height);
    assert n.left in born && n.right in born && n.root in born;
  }

  lemma PairTiles(es: seq<Entry>, left: Fence, right: Fence)
    requires Smo.Cut(FULL, left, right) && |es| == 2 && es[0].fence == left && es[1].fence == right && es[0].Active()
    requires es[1].Active()
    ensures ActiveTiles(es, FULL)
  {
    forall k | Contains(FULL, k) ensures ActiveAt(es, k) {
      assert Contains(es[0].fence, k) || Contains(es[1].fence, k);
    }
  }
}
