/**
 A replacement of the root, published at a version that was drawn while the root index was latched.
 */
module WeaveRoot {
  import opened Util
  import opened Fences
  import opened History
  import opened Pages
  import opened Smo
  import opened TreeModel
  import opened Reorg
  import opened ParentReorg
  import opened RootReorg
  import opened Publish
  import opened Snapshots
  import opened Weave
  import opened WeaveBelow

  /** The root index and the source page as they have been since `w` was drawn. */
  ghost predicate RootHeld(t: Tree, s: nat, w: nat) {
    && RootSource(t, s) && Top(t).version <= w && IsLinked(t.meta[Top(t).page])
    && (t.meta[s].height > 1 ==> OlderThan(t, s, w))
  }

  ghost predicate FreeFor(t: Tree, b: nat) { b < |t.pages| && b < |t.meta| && t.meta[b] == Unlinked }

  /** The pages of the new root, filled and not reachable yet. */
  ghost predicate RootFilledBy(t: Tree, s: nat, n: NewRoot, w: nat)
    requires s < |t.meta| && t.meta[s].Linked?
  {
    match n
    case Copied(p) => FreeFor(t, p) && if t.meta[s].height > 1 then CopiedIndex(t, p, FULL, {s}) else t.pages[p].Leaf?
    case Cut(lf, l, rf, r, root) =>
      && FreeFor(t, l) && FreeFor(t, r) && FreeFor(t, root) && l != r && l != root && r != root && Smo.Cut(FULL, lf, rf)
      && (if t.meta[s].height > 1 then CopiedIndex(t, l, lf, {s}) && CopiedIndex(t, r, rf, {s})
          else t.pages[l].Leaf? && t.pages[r].Leaf?)
      && t.pages[root].Index? && Entries(t.pages[root]) == [Entry(lf, w, false, l), Entry(rf, w, false, r)]
  }

  /** What a publication stores: one store of the head of the root index makes the new root visible. */
  ghost predicate StoredRoot(t0: Tree, t1: Tree, s: nat, n: NewRoot, w: nat) {
    && |t0.roots| > 0 && s < |t0.meta| == |t0.pages| && t0.meta[s].Linked? && w < t0.clock && RootFilledBy(t0, s, n, w)
    && t1 == t0.(roots := t0.roots + [Root(RootPage(n), w, RootHeight(n, t0.meta[s].height))],
                 meta := NewMeta(t0.meta, {Top(t0).page, s}, BornRoot(n, w, t0.meta[s].height), w))
  }

  /** A publication at the root, with root and source as they were when the version was drawn. */
  ghost predicate PublishedRoot(t0: Tree, t1: Tree, s: nat, n: NewRoot, w: nat) {
    RootHeld(t0, s, w) && StoredRoot(t0, t1, s, n, w)
  }

  lemma RootIds(t0: Tree, t1: Tree, s: nat, n: NewRoot, w: nat)
    requires Woven(t0) && PublishedRoot(t0, t1, s, n, w)
    ensures s < |t0.meta| && t0.meta[s].Linked? && IsLinked(t0.meta[s]) && t0.meta[s].height >= 1
    ensures t0.meta[s].fence == FULL
    ensures |t0.roots| > 0 && Top(t0).page < |t0.meta| && IsLinked(t0.meta[Top(t0).page])
    ensures t0.meta[Top(t0).page].Linked?
    ensures Top(t0).version <= w < t0.clock
    ensures |t0.pages| == |t0.meta| && RootSource(t0, s) && RootFilledBy(t0, s, n, w)
    ensures n.Cut? ==>
              Smo.Cut(FULL, n.leftFence, n.rightFence) && n.left != n.right && n.left != n.root && n.right != n.root
    ensures t1 == t0.(roots := t1.roots, meta := t1.meta)
    ensures t1.roots == t0.roots + [Root(RootPage(n), w, RootHeight(n, t0.meta[s].height))]
    ensures t1.meta == NewMeta(t0.meta, {Top(t0).page, s}, BornRoot(n, w, t0.meta[s].height), w)
  {
    WovenMeta(t0);
    hide Woven, CopiedIndex, NewMeta, BornRoot, RootsOk, AllTurn, LiveIndexes, Apart;
  }

  lemma BornIds(t0: Tree, s: nat, n: NewRoot, w: nat, h: nat)
    requires s < |t0.meta| && t0.meta[s].Linked? && RootFilledBy(t0, s, n, w) && |t0.pages| == |t0.meta| && h >= 1
    ensures forall b :: b in BornRoot(n, w, h) ==>
              && b < |t0.meta| && t0.meta[b] == Unlinked && IsLinked(BornRoot(n, w, h)[b])
              && BornRoot(n, w, h)[b].birth == w
              && ValidFence(BornRoot(n, w, h)[b].fence) && BornRoot(n, w, h)[b].height >= 1
  {
    hide CopiedIndex;
    BornKeys(n, w, h);
    assert ValidFence(FULL);
    hide BornRoot;
  }

  lemma BornKeys(n: NewRoot, w: nat, h: nat)
    ensures forall b :: b in BornRoot(n, w, h) ==>
              if n.Copied? then b == n.page else b == n.left || b == n.right || b == n.root
    ensures n.Copied? ==> n.page in BornRoot(n, w, h) && BornRoot(n, w, h)[n.page] == Linked(FULL, w, None, h)
    ensures n.Cut? && n.left != n.right && n.left != n.root && n.right != n.root ==>
              && n.left in BornRoot(n, w, h) && BornRoot(n, w, h)[n.left] == Linked(n.leftFence, w, None, h)
              && n.right in BornRoot(n, w, h) && BornRoot(n, w, h)[n.right] == Linked(n.rightFence, w, None, h)
              && n.root in BornRoot(n, w, h) && BornRoot(n, w, h)[n.root] == Linked(FULL, w, None, h + 1)
  {
  }

  lemma RootWeaves(t0: Tree, t1: Tree, s: nat, n: NewRoot, w: nat)
    requires Woven(t0) && PublishedRoot(t0, t1, s, n, w)
    ensures |t0.roots| > 0 && s < |t0.meta| && t0.meta[s].Linked?
    ensures Weaves(t0, t1, w, {Top(t0).page, s}, BornRoot(n, w, t0.meta[s].height), {})
  {
    hide *;
    RootIds(t0, t1, s, n, w);
    BornIds(t0, s, n, w, t0.meta[s].height);
    RootReady(t0.meta, Top(t0).page, s, BornRoot(n, w, t0.meta[s].height), w);
    NewMetaStep(t0.meta, {Top(t0).page, s}, BornRoot(n, w, t0.meta[s].height), w);
    RootWeavesIs(t0, t1, w, {Top(t0).page, s}, BornRoot(n, w, t0.meta[s].height));
  }

  lemma RootReady(m: seq<Meta>, a: nat, b: nat, born: map<nat, Meta>, w: nat)
    requires a < |m| && IsLinked(m[a]) && b < |m| && IsLinked(m[b])
    requires forall i :: i in born ==> i < |m| && m[i] == Unlinked && IsLinked(born[i]) && born[i].birth == w
                                       && ValidFence(born[i].fence) && born[i].height >= 1
    ensures MetaReady(m, {a, b}, born, w)
  {
  }

  lemma RootWeavesIs(t0: Tree, t1: Tree, w: nat, dying: set<nat>, born: map<nat, Meta>)
    requires w < t0.clock && |t0.meta| == |t0.pages|
    requires t1 == t0.(roots := t1.roots, meta := NewMeta(t0.meta, dying, born, w))
    requires MetaStep(t0.meta, NewMeta(t0.meta, dying, born, w), dying, born, w)
    ensures Weaves(t0, t1, w, dying, born, {})
  {
    hide MetaStep, NewMeta;
  }

  // ---------------------------------------------------------------- the new pages

  lemma BornMetaRoot(t0: Tree, t1: Tree, s: nat, n: NewRoot, w: nat, b: nat)
    requires Woven(t0) && PublishedRoot(t0, t1, s, n, w)
    requires s < |t0.meta| && t0.meta[s].Linked? && b in BornRoot(n, w, t0.meta[s].height)
    ensures b < |t1.meta| == |t1.pages| == |t0.pages| && t1.meta[b] == BornRoot(n, w, t0.meta[s].height)[b]
    ensures t1.pages[b] == t0.pages[b]
    ensures t1.clock == t0.clock && w < t1.clock
  {
    RootWeaves(t0, t1, s, n, w);
    RootIds(t0, t1, s, n, w);
    hide Woven, PublishedRoot, BornRoot;
  }

  /** An active entry of the source page keeps its child, one level further down. */
  lemma SourceEntryRoot(t0: Tree, t1: Tree, s: nat, n: NewRoot, w: nat, e: Entry)
    requires Woven(t0) && PublishedRoot(t0, t1, s, n, w) && s < |t0.meta| && t0.meta[s].Linked? && t0.meta[s].height > 1
    requires FromAny(t0, e, {s})
    ensures e.Active() && ChildOk(t1.meta, e, t0.meta[s].height) && e.version < w
    ensures e.child < |t1.meta| && t1.meta[e.child].Linked? && t1.meta[e.child].birth <= e.version
  {
    hide *;
    RootWeaves(t0, t1, s, n, w);
    RootIds(t0, t1, s, n, w);
    OldSource(t0, t1, s, n, w);
    SourceOf(t0, s, w, e);
    BelowRootStays(t0, t1, s, w, BornRoot(n, w, t0.meta[s].height), e.child);
    ChildOkStays(t0.meta, t1.meta, e, t0.meta[s].height);
  }

  lemma SourceOf(t: Tree, s: nat, w: nat, e: Entry)
    requires Woven(t) && s < |t.meta| && IsLinked(t.meta[s]) && t.meta[s].height > 1 && FromAny(t, e, {s})
    requires s < |t.pages| && VersionsOk(Entries(t.pages[s]), w)
    ensures e.Active() && ChildOk(t.meta, e, t.meta[s].height) && e.version < w && e.child < |t.meta|
    ensures IsLinked(t.meta[e.child]) && t.meta[e.child].Linked? && t.meta[e.child].height + 1 == t.meta[s].height
    ensures t.meta[e.child].birth <= e.version
  {
    WovenMeta(t);
    assert LiveIndex(t, s);
    hide Woven, MetaOk, Apart, AllTurn, RootsOk, OldRootsGone, LiveIndexes, ActiveTiles;
    var es := Entries(t.pages[s]);
    var j :| 0 <= j < |es| && es[j] == e;
    assert ChildOk(t.meta, es[j], t.meta[s].height);
  }

  lemma TopHigher(t: Tree, s: nat)
    requires RootsOk(t) && RootSource(t, s)
    ensures |t.roots| > 0 && Top(t).page < |t.meta| && t.meta[Top(t).page].Linked?
    ensures t.meta[s].height <= t.meta[Top(t).page].height
    ensures Top(t).height <= t.meta[s].height + 1
  {
    hide RootServes;
  }

  lemma NotOneOf(c: nat, a: nat, b: nat)
    requires c != a && c != b
    ensures c !in {a, b}
  {
  }

  lemma SourceIs(t: Tree, s: nat)
    requires RootSource(t, s)
    ensures s < |t.meta| && t.meta[s].Linked?
  {
  }

  /** Pages below the source keep their meta data. */
  lemma BelowRootStays(t0: Tree, t1: Tree, s: nat, w: nat, born: map<nat, Meta>, c: nat)
    requires Woven(t0) && |t0.roots| > 0 && RootSource(t0, s) && Weaves(t0, t1, w, {Top(t0).page, s}, born, {})
    requires c < |t0.meta| && IsLinked(t0.meta[c]) && t0.meta[c].height + 1 == t0.meta[s].height
    ensures c < |t1.meta| && t1.meta[c] == t0.meta[c]
  {
    hide *;
    WovenMeta(t0);
    SourceIs(t0, s);
    TopHigher(t0, s);
    NotOneOf(c, Top(t0).page, s);
    LiveStays(t0, t1, w, {Top(t0).page, s}, born, {}, c);
  }

  lemma OldSource(t0: Tree, t1: Tree, s: nat, n: NewRoot, w: nat)
    requires PublishedRoot(t0, t1, s, n, w) && s < |t0.meta| && t0.meta[s].Linked? && t0.meta[s].height > 1
    ensures s < |t0.pages| && VersionsOk(Entries(t0.pages[s]), w)
  {
    hide CopiedIndex, NewMeta, BornRoot;
  }

  lemma CopyBorn(t0: Tree, t1: Tree, s: nat, n: NewRoot, w: nat, b: nat, f: Fence)
    requires Woven(t0) && PublishedRoot(t0, t1, s, n, w) && s < |t0.meta| && t0.meta[s].Linked? && t0.meta[s].height > 1
    requires b in BornRoot(n, w, t0.meta[s].height)
    requires BornRoot(n, w, t0.meta[s].height)[b] == Linked(f, w, None, t0.meta[s].height)
    requires CopiedIndex(t0, b, f, {s})
    ensures BornIndex(t1, b, w)
  {
    hide *;
    BornMetaRoot(t0, t1, s, n, w, b);
    CopyParts(t0, b, f, {s});
    var es := Entries(t1.pages[b]);
    forall i | 0 <= i < |es|
      ensures es[i].Active() && ChildOk(t1.meta, es[i], t0.meta[s].height) && es[i].version < w
      ensures es[i].child < |t1.meta| && t1.meta[es[i].child].Linked? && t1.meta[es[i].child].birth <= es[i].version
    {
      SourceEntryRoot(t0, t1, s, n, w, es[i]);
    }
    BornIndexIs(t1, b, w);
  }

  lemma CopyParts(t: Tree, b: nat, f: Fence, dying: set<nat>)
    requires CopiedIndex(t, b, f, dying)
    ensures b < |t.pages| && t.pages[b].Index? && |Entries(t.pages[b])| > 0 && ActiveTiles(Entries(t.pages[b]), f)
    ensures forall i, m :: 0 <= i < m < |Entries(t.pages[b])| ==>
              Entries(t.pages[b])[i].version <= Entries(t.pages[b])[m].version
    ensures forall i :: 0 <= i < |Entries(t.pages[b])| ==> FromAny(t, Entries(t.pages[b])[i], dying)
  {
    hide ActiveTiles, FromAny;
  }

  lemma PairBorn(t0: Tree, t1: Tree, s: nat, n: NewRoot, w: nat)
    requires Woven(t0) && PublishedRoot(t0, t1, s, n, w) && n.Cut? && s < |t0.meta| && t0.meta[s].Linked?
    ensures BornIndex(t1, n.root, w)
  {
    hide *;
    RootIds(t0, t1, s, n, w);
    BornKeys(n, w, t0.meta[s].height);
    BornMetaRoot(t0, t1, s, n, w, n.left);
    BornMetaRoot(t0, t1, s, n, w, n.right);
    BornMetaRoot(t0, t1, s, n, w, n.root);
    PairPage(t0, s, n, w);
    PairTiles(Entries(t1.pages[n.root]), n.leftFence, n.rightFence);
    FreshChildOk(t1.meta, Entry(n.leftFence, w, false, n.left), t0.meta[s].height + 1);
    FreshChildOk(t1.meta, Entry(n.rightFence, w, false, n.right), t0.meta[s].height + 1);
    PairIndexIs(t1, n.root, w);
  }

  lemma PairIndexIs(t: Tree, b: nat, w: nat)
    requires b < |t.pages| && b < |t.meta| && t.meta[b].Linked? && t.meta[b].birth == w && t.meta[b].height > 1
    requires w < t.clock
    requires t.pages[b].Index? && |Entries(t.pages[b])| == 2 && ActiveTiles(Entries(t.pages[b]), t.meta[b].fence)
    requires var e := Entries(t.pages[b])[0];
             && !e.obsolete && ChildOk(t.meta, e, t.meta[b].height) && e.version == w
             && e.child < |t.meta| && t.meta[e.child].Linked? && t.meta[e.child].birth == w
    requires var e := Entries(t.pages[b])[1];
             && !e.obsolete && ChildOk(t.meta, e, t.meta[b].height) && e.version == w
             && e.child < |t.meta| && t.meta[e.child].Linked? && t.meta[e.child].birth == w
    ensures BornIndex(t, b, w)
  {
    hide ActiveTiles, ChildOk;
    BornIndexIs(t, b, w);
  }

  lemma PairPage(t: Tree, s: nat, n: NewRoot, w: nat)
    requires s < |t.meta| && t.meta[s].Linked? && RootFilledBy(t, s, n, w) && n.Cut?
    ensures n.root < |t.pages| && t.pages[n.root].Index?
    ensures Entries(t.pages[n.root]) == [Entry(n.leftFence, w, false, n.left), Entry(n.rightFence, w, false, n.right)]
  {
    hide CopiedIndex;
  }

  lemma BornAtRoot(t0: Tree, t1: Tree, s: nat, n: NewRoot, w: nat, b: nat)
    requires Woven(t0) && PublishedRoot(t0, t1, s, n, w) && s < |t0.meta| && t0.meta[s].Linked?
    requires b in BornRoot(n, w, t0.meta[s].height) && BornRoot(n, w, t0.meta[s].height)[b].Linked?
    ensures BornRoot(n, w, t0.meta[s].height)[b].height > 1 ==> BornIndex(t1, b, w)
    ensures BornRoot(n, w, t0.meta[s].height)[b].height == 1 ==> b < |t1.pages| && t1.pages[b].Leaf?
  {
    RootIds(t0, t1, s, n, w);
    BornKeys(n, w, t0.meta[s].height);
    BornMetaRoot(t0, t1, s, n, w, b);
    hide Woven, PublishedRoot, BornRoot, CopiedIndex;
    if n.Cut? && b == n.root {
      PairBorn(t0, t1, s, n, w);
    } else if t0.meta[s].height > 1 {
      CopyBorn(t0, t1, s, n, w, b, if n.Copied? then FULL else if b == n.left then n.leftFence else n.rightFence);
    }
  }

  // ---------------------------------------------------------------- the root index

  lemma BornLow(n: NewRoot, w: nat, h: nat, b: nat)
    requires b in BornRoot(n, w, h) && (n.Cut? ==> n.left != n.right && n.left != n.root && n.right != n.root)
    ensures BornRoot(n, w, h)[b].Linked? && BornRoot(n, w, h)[b].height <= RootHeight(n, h)
  {
  }

  lemma BornTop(n: NewRoot, w: nat, h: nat)
    requires n.Cut? ==> n.left != n.right && n.left != n.root && n.right != n.root
    ensures RootPage(n) in BornRoot(n, w, h)
    ensures BornRoot(n, w, h)[RootPage(n)] == Linked(FULL, w, None, RootHeight(n, h))
  {
  }

  /** After the publication a live page is new or was live before, and then it was not replaced. */
  lemma WasLive(t0: Tree, t1: Tree, w: nat, dying: set<nat>, born: map<nat, Meta>, touched: set<nat>, i: nat)
    requires Weaves(t0, t1, w, dying, born, touched) && i < |t1.meta| && IsLinked(t1.meta[i])
    ensures if i in born then t1.meta[i] == born[i]
            else i < |t0.meta| && i !in dying && IsLinked(t0.meta[i]) && t1.meta[i] == t0.meta[i]
  {
  }

  lemma NotReplaced(t: Tree, s: nat, i: nat)
    requires |t.roots| > 0 && i !in {Top(t).page, s}
    ensures i != Top(t).page && i != s
  {
  }

  lemma LowAfter(t0: Tree, t1: Tree, s: nat, n: NewRoot, w: nat, i: nat)
    requires Woven(t0) && PublishedRoot(t0, t1, s, n, w) && s < |t0.meta| && t0.meta[s].Linked?
    requires i < |t1.meta| && IsLinked(t1.meta[i])
    ensures t1.meta[i].height <= RootHeight(n, t0.meta[s].height)
  {
    hide *;
    RootIds(t0, t1, s, n, w);
    RootWeaves(t0, t1, s, n, w);
    WovenMeta(t0);
    TopHigher(t0, s);
    LinkedIs(t1.meta[i]);
    var h := t0.meta[s].height;
    WasLive(t0, t1, w, {Top(t0).page, s}, BornRoot(n, w, h), {}, i);
    if i in BornRoot(n, w, h) {
      BornLow(n, w, h, i);
    } else {
      NotReplaced(t0, s, i);
      StaysLow(t0, s, i);
      LinkedIs(t0.meta[i]);
      LowIs(n, h, t0.meta[i].height);
    }
  }

  lemma NewTop(t0: Tree, t1: Tree, s: nat, n: NewRoot, w: nat)
    requires Woven(t0) && PublishedRoot(t0, t1, s, n, w) && s < |t0.meta| && t0.meta[s].Linked?
    ensures RootPage(n) < |t1.meta| && t1.meta[RootPage(n)] == Linked(FULL, w, None, RootHeight(n, t0.meta[s].height))
    ensures forall i :: 0 <= i < |t1.meta| && IsLinked(t1.meta[i]) ==>
              t1.meta[i].height <= RootHeight(n, t0.meta[s].height)
  {
    RootIds(t0, t1, s, n, w);
    BornTop(n, w, t0.meta[s].height);
    hide Woven, PublishedRoot, RootPage, RootHeight, BornRoot, RootFilledBy;
    BornMetaRoot(t0, t1, s, n, w, RootPage(n));
    forall i | 0 <= i < |t1.meta| && IsLinked(t1.meta[i])
      ensures t1.meta[i].height <= RootHeight(n, t0.meta[s].height)
    {
      LowAfter(t0, t1, s, n, w, i);
    }
  }

  lemma LowIs(n: NewRoot, h: nat, low: nat)
    requires low <= h
    ensures low <= RootHeight(n, h)
  {
  }

  lemma RootAt(t0: Tree, t1: Tree, s: nat, n: NewRoot, w: nat, v: nat)
    requires Woven(t0) && PublishedRoot(t0, t1, s, n, w) && s < |t0.meta| && t0.meta[s].Linked? && t0.horizon <= v
    ensures RootServes(t1, v) && (IsLinked(t1.meta[RootPageFor(t1, v)]) ==> RootPageFor(t1, v) == RootPage(n))
  {
    RootIds(t0, t1, s, n, w);
    RootWeaves(t0, t1, s, n, w);
    NewTop(t0, t1, s, n, w);
    RootForAppended(t0.roots, t1.roots[|t0.roots|], v);
    WovenMeta(t0);
    hide Woven, PublishedRoot, BornRoot, RootFilledBy, LiveIndexes, AllTurn, Apart, RootFor, NewMeta, MetaOk;
    if v < w {
      assert RootServes(t0, v);
      var r := RootPageFor(t0, v);
      assert IsLinked(t0.meta[r]) ==> r == Top(t0).page;
      hide RootsOk, OldRootsGone;
    }
  }

  lemma RootsAt(t0: Tree, t1: Tree, s: nat, n: NewRoot, w: nat)
    requires Woven(t0) && PublishedRoot(t0, t1, s, n, w)
    ensures RootsOk(t1) && OldRootsGone(t1)
  {
    RootIds(t0, t1, s, n, w);
    NewTop(t0, t1, s, n, w);
    WovenMeta(t0);
    var page, h := RootPage(n), RootHeight(n, t0.meta[s].height);
    hide Woven, PublishedRoot, RootFilledBy, LiveIndexes, AllTurn, Apart, NewMeta;
    hide MetaOk, OldRootsGone, RootServes, RootsOk, RootSource;
    forall v: nat | t1.horizon <= v
      ensures RootServes(t1, v) && (IsLinked(t1.meta[RootPageFor(t1, v)]) ==> RootPageFor(t1, v) == page)
    {
      RootAt(t0, t1, s, n, w, v);
    }
    RootsOrdered(t0, t1, n, w, h);
    hide RootPage, RootHeight, RootPageFor, BornRoot;
    RootsAre(t1, page, w, h);
  }

  lemma RootsOrdered(t0: Tree, t1: Tree, n: NewRoot, w: nat, h: nat)
    requires RootsOk(t0) && Top(t0).version <= w && t1.roots == t0.roots + [Root(RootPage(n), w, h)]
    ensures forall i, j :: 0 <= i < j < |t1.roots| ==> t1.roots[i].version <= t1.roots[j].version
  {
    hide RootServes;
    assert forall i :: 0 <= i < |t0.roots| - 1 ==> t0.roots[i].version <= t0.roots[|t0.roots| - 1].version;
  }

  /** Replacing the root keeps every reader on pages of its snapshot. */
  lemma RootKeepsWoven(t0: Tree, t1: Tree, s: nat, n: NewRoot, w: nat)
    requires Woven(t0) && PublishedRoot(t0, t1, s, n, w) && |t0.roots| > 0
    requires Avoids(t0, w, {Top(t0).page, s}, {Top(t0).page, s})
    ensures s < |t0.meta| && t0.meta[s].Linked?
    ensures Woven(t1) && Sews(t0, t1, w, {Top(t0).page, s}, BornRoot(n, w, t0.meta[s].height), {})
  {
    hide *;
    RootIds(t0, t1, s, n, w);
    RootWeaves(t0, t1, s, n, w);
    WovenMeta(t0);
    RootNoOrphans(t0, s);
    RootBornApart(t0, s, n, w);
    RootsAt(t0, t1, s, n, w);
    var born := BornRoot(n, w, t0.meta[s].height);
    forall b | b in born && born[b].Linked?
      ensures born[b].height > 1 ==> BornIndex(t1, b, w)
      ensures born[b].height == 1 ==> b < |t1.pages| && t1.pages[b].Leaf?
    {
      BornAtRoot(t0, t1, s, n, w, b);
    }
    RootSewsIs(t0, t1, w, Top(t0).page, s, born);
    SewsKeepsWoven(t0, t1, w, {Top(t0).page, s}, born, {});
  }

  lemma RootSewsIs(t0: Tree, t1: Tree, w: nat, a: nat, b: nat, born: map<nat, Meta>)
    requires Weaves(t0, t1, w, {a, b}, born, {}) && RootsOk(t1) && OldRootsGone(t1) && Avoids(t0, w, {a, b}, {a, b})
    requires BornApart(t0.meta, {a, b}, born) && a < |t0.meta| && b < |t0.meta| && t0.meta[a].Linked?
    requires t0.meta[b].Linked?
    requires NoOrphans(t0.meta, {a, b}, {})
    requires forall i :: i in born && born[i].Linked? && born[i].height > 1 ==> BornIndex(t1, i, w)
    requires forall i :: i in born && born[i].Linked? && born[i].height == 1 ==> i < |t1.pages| && t1.pages[i].Leaf?
    ensures Sews(t0, t1, w, {a, b}, born, {})
  {
    hide Weaves, RootsOk, OldRootsGone, Avoids, BornApart, NoOrphans, BornIndex, LiveIndex, Visible, Turns;
    assert {} + {a, b} == {a, b};
  }
}
