/**
 The steps between the statements of the program: what each method of the tree needs to know of the
 state it starts from and of the pages it has prepared.
 */
module TreeSteps {
  import opened Util
  import opened Fences
  import opened History
  import opened Pages
  import opened Fill
  import opened Smo
  import opened TreeModel
  import opened LeafWrites
  import opened Reorg
  import opened ParentReorg
  import opened NewPages
  import opened RootReorg
  import opened Publish
  import opened PublishRoot
  import opened ParentStores
  import opened Repairs
  import opened RootRepairs
  import opened Alloc
  import opened LeafSteps
  import opened Snapshots

  /** A repair below `p`: nobody's data changed, and the keys of `f` lead to a safe child of `p`. */
  ghost predicate Repaired(t0: Tree, t1: Tree, p: nat, f: Fence) {
    && SameHistory(t0, t1) && t1.roots == t0.roots
    && p < |t0.meta| && p < |t1.meta| && t1.meta[p] == t0.meta[p] && p < |t1.pages| && t1.pages[p].Index?
    && forall k: nat :: Contains(f, k) ==> SafeBelow(t1, p, k)
  }

  /** The same writes have been committed, and readers are not disturbed; the clock may have moved on. */
  ghost predicate SameHistory(t0: Tree, t1: Tree) {
    t1.history == t0.history && t0.clock <= t1.clock && Keeps(t0, t1)
  }

  /** A reader starts at a root that is part of the tree at its snapshot. */
  lemma ReadRoot(t: Tree, key: nat, v: nat)
    requires Inv(t) && t.horizon <= v && key <= MAX_KEY
    ensures RootFor(t.roots, v).Some? && RootFor(t.roots, v).value < |t.roots|
    ensures Visible(t, t.roots[RootFor(t.roots, v).value].page, key, v)
    ensures var r := t.roots[RootFor(t.roots, v).value];
            r.page < |t.meta| && t.meta[r.page].Linked? && t.meta[r.page].fence == FULL
              && t.meta[r.page].height == r.height
  {
    hide AllServe, LivePages, Apart, FillOk, GraveyardOk, MetaOk, RootFor;
    assert RootServes(t, v);
  }

  lemma ServesAt(t: Tree, p: nat, key: nat, v: nat)
    requires Inv(t) && Visible(t, p, key, v)
    ensures Serves(t, p, key, v) && |t.pages| == |t.meta| && t.meta[p].Linked? && t.meta[p].height >= 1
  {
    hide LivePages, Apart, FillOk, GraveyardOk, RootsOk;
  }

  lemma PageKindAt(t: Tree, p: nat, key: nat, v: nat)
    requires Inv(t) && Visible(t, p, key, v)
    ensures p < |t.pages| == |t.meta| && t.meta[p].Linked? && t.meta[p].height >= 1
    ensures (t.pages[p].Index? <==> t.meta[p].height > 1)
  {
    ServesAt(t, p, key, v);
    hide Inv, Visible, Route;
  }

  /** A reader of an index page finds a child that is part of the tree at its snapshot, one level down. */
  lemma ReadStep(t: Tree, p: nat, key: nat, v: nat)
    requires Inv(t) && Visible(t, p, key, v) && p < |t.pages| && p < |t.meta| && t.meta[p].Linked?
    requires t.meta[p].height > 1
    ensures var r := Route(Entries(t.pages[p]), key, v);
            && r.Some? && r.value < |Entries(t.pages[p])|
            && var c := Entries(t.pages[p])[r.value].child;
               Visible(t, c, key, v) && c < |t.meta| && t.meta[c].Linked? && t.meta[c].height + 1 == t.meta[p].height
  {
    ServesAt(t, p, key, v);
    hide Inv;
  }

  lemma ReadLeaf(t: Tree, p: nat, key: nat, v: nat)
    requires Inv(t) && Visible(t, p, key, v) && p < |t.pages| && p < |t.meta| && t.meta[p].Linked?
    requires t.meta[p].height <= 1
    ensures PointAnswer(Records(t.pages[p]), key, v) == At(t.history, key, v)
  {
    ServesAt(t, p, key, v);
    hide Inv;
  }

  /** One executed operation, on the present of the tree and on a plain map. */
  lemma Executed(t0: Tree, t1: Tree, op: Op, ok: bool, w: nat)
    requires Inv(t0) && Inv(t1) && t0.clock <= t1.clock
    requires ok <==> if op.Insert? then At(t0.history, op.key, t0.clock).None?
             else At(t0.history, op.key, t0.clock).Some?
    requires if ok then t0.clock <= w < t1.clock && t1.history == t0.history + [Commit(w, op)]
             else t1.history == t0.history
    ensures ok <==> Accepts(Replay(t0.history, t0.clock), op)
    ensures Replay(t1.history, t1.clock) == if ok then Apply(Replay(t0.history, t0.clock), op)
            else Replay(t0.history, t0.clock)
  {
    CommitsAreOld(t0);
    hide Inv;
    if ok { ReplayCommit(t0.history, w, op, t0.clock, t1.clock); } else { Latest(t0.history, t0.clock, t1.clock); }
  }

  lemma CommitsAreOld(t: Tree)
    requires Inv(t)
    ensures Before(t.history, t.clock)
  {
  }

  /** The present of the key is the same before and after a descent. */
  lemma SameNow(t0: Tree, t1: Tree, key: nat)
    requires SameHistory(t0, t1) && Before(t0.history, t0.clock)
    ensures At(t1.history, key, t1.clock) == At(t0.history, key, t0.clock)
  {
    Latest(t0.history, t0.clock, t1.clock);
  }

  /** The leaf of a key, ready for a write: room for a record, and its live record is the key's present. */
  lemma LeafFacts(t: Tree, leaf: nat, key: nat)
    requires Inv(t) && Steady(t, leaf) && leaf < |t.meta| && t.meta[leaf].Linked? && t.meta[leaf].height == 1
    requires Contains(t.meta[leaf].fence, key)
    ensures leaf < |t.pages| == |t.meta| && t.pages[leaf].Leaf? && Sum(t.pages[leaf]) < Capacity(t.pages[leaf])
    ensures Exact(t.pages[leaf])
    ensures LeafGood(Records(t.pages[leaf]), t.meta[leaf].fence, t.clock)
    ensures At(t.history, key, t.clock).Some? <==> LastIsLive(Records(t.pages[leaf]), key)
    ensures t.pages[leaf].active == |Filter(IsLive, Records(t.pages[leaf]))|
  {
    SteadyTop(t, leaf);
    LinkedInTree(t, leaf);
    LeafServesNow(t, leaf, key);
    FanOutIsBig(t);
    LiveCapacity(t, leaf);
    FineHasRoom(t.pages[leaf]);
    hide Inv, Steady, Serves, UnsafeDegree, UnsafeDegreeRoot, Filter;
    NewestAnswer(Records(t.pages[leaf]), t.meta[leaf].fence, t.clock, key, t.clock);
  }

  /** No other page of the tree of that height has the key. */
  lemma OnlyLeaf(t: Tree, leaf: nat, q: nat, key: nat)
    requires Inv(t) && leaf < |t.meta| && IsLinked(t.meta[leaf]) && Contains(t.meta[leaf].fence, key)
    requires q < |t.meta| && IsLinked(t.meta[q]) && t.meta[q].height == t.meta[leaf].height
    requires Contains(t.meta[q].fence, key)
    ensures q == leaf
  {
    hide AllServe, LivePages, RootsOk, FillOk, GraveyardOk, MetaOk;
    OnlyOne(t.meta, leaf, q, key);
  }

  lemma OnlyLeafOf(t: Tree, leaf: nat, key: nat)
    requires Inv(t) && leaf < |t.meta| && IsLinked(t.meta[leaf]) && Contains(t.meta[leaf].fence, key)
    requires t.meta[leaf].height == 1
    ensures forall q: nat ::
              q < |t.meta| && IsLinked(t.meta[q]) && t.meta[q].height == 1 && Contains(t.meta[q].fence, key) ==>
                q == leaf
  {
    hide Inv;
    forall q: nat | q < |t.meta| && IsLinked(t.meta[q]) && t.meta[q].height == 1 && Contains(t.meta[q].fence, key)
      ensures q == leaf
    {
      OnlyLeaf(t, leaf, q, key);
    }
  }

  /** Exactly one page of the tree is the leaf of a key. */
  lemma OneLeafPerKey(t: Tree, key: nat) returns (leaf: nat)
    requires Inv(t) && key <= MAX_KEY
    ensures leaf < |t.meta| && IsLinked(t.meta[leaf]) && t.meta[leaf].height == 1 && Contains(t.meta[leaf].fence, key)
    ensures forall q: nat ::
              q < |t.meta| && IsLinked(t.meta[q]) && t.meta[q].height == 1 && Contains(t.meta[q].fence, key) ==>
                q == leaf
  {
    HasTop(t);
    hide Inv;
    leaf := LeafBelow(t, Top(t).page, key);
    OnlyLeafOf(t, leaf, key);
  }

  lemma {:induction false} LeafBelow(t: Tree, p: nat, key: nat) returns (leaf: nat)
    requires Inv(t) && p < |t.meta| && IsLinked(t.meta[p]) && Contains(t.meta[p].fence, key)
    ensures leaf < |t.meta| && IsLinked(t.meta[leaf]) && t.meta[leaf].height == 1 && Contains(t.meta[leaf].fence, key)
    decreases t.meta[p].height
  {
    hide Inv, ChildAt, RouteActive;
    PageKind(t, p);
    leaf := p;
    if t.meta[p].height > 1 {
      DescentStep(t, p, key);
      leaf := LeafBelow(t, Entries(t.pages[p])[RouteActive(Entries(t.pages[p]), key).value].child, key);
    }
  }

  lemma LeafServesNow(t: Tree, leaf: nat, key: nat)
    requires Inv(t) && leaf < |t.meta| && leaf < |t.pages| && IsLinked(t.meta[leaf]) && t.meta[leaf].height == 1
    requires Contains(t.meta[leaf].fence, key)
    ensures PointAnswer(Records(t.pages[leaf]), key, t.clock) == At(t.history, key, t.clock)
  {
    assert Visible(t, leaf, key, t.clock) && Serves(t, leaf, key, t.clock);
  }

  /** A finished write keeps the invariant: a safe leaf is still filled enough. */
  lemma WriteFinishes(t0: Tree, t1: Tree, leaf: nat, op: Op)
    requires Inv(t0) && Steady(t0, leaf) && LeafWrite(t0, t1, leaf, op)
    requires leaf < |t0.pages| && leaf < |t1.pages| && t1.pages[leaf].active + 1 >= t0.pages[leaf].active
    ensures Inv(t1)
  {
    SteadyTop(t0, leaf);
    WriteCapacity(t0, t1, leaf, op);
    hide Inv, LeafWrite;
    WriteKeepsInv(t0, t1, leaf, op);
  }

  lemma WriteCapacity(t0: Tree, t1: Tree, leaf: nat, op: Op)
    requires LeafWrite(t0, t1, leaf, op)
    ensures Capacity(t1.pages[leaf]) == Capacity(t0.pages[leaf])
  {
  }

  lemma ChildReplaceable(t: Tree, s: nat)
    requires Inv(t) && RootSource(t, s) && InTree(t, s) && s != Top(t).page && s < |t.pages|
    requires Top(t).page < |t.pages| && UnsafeDegreeRoot(t.pages[Top(t).page]) == ActiveUnderflow
    ensures RootReplaceable(t, s) && s < |t.meta| && t.meta[s].Linked? && t.meta[s].height + 1 == Top(t).height
  {
    hide Inv, InTree;
  }

  lemma HasTop(t: Tree)
    requires Inv(t)
    ensures |t.roots| > 0 && Top(t).page < |t.pages| == |t.meta| && IsLinked(t.meta[Top(t).page])
    ensures t.meta[Top(t).page].fence == FULL && t.meta[Top(t).page].height == Top(t).height
    ensures UnsafeDegreeRoot(t.pages[Top(t).page]) == Fine ==> Steady(t, Top(t).page)
  {
    hide AllServe, LivePages, Apart, FillOk, GraveyardOk;
  }

  lemma LinkedInTree(t: Tree, s: nat)
    requires Inv(t) && s < |t.meta| && IsLinked(t.meta[s])
    ensures s < |t.pages| == |t.meta| && InTree(t, s) && t.meta[s].height >= 1
    ensures (t.pages[s].Index? <==> t.meta[s].height > 1)
  {
    hide AllServe, Apart, FillOk, GraveyardOk, RootsOk;
    assert LivePage(t, t.pages[s], t.meta[s].fence, t.meta[s].height);
    LiveCapacity(t, s);
  }

  lemma TopReplaceable(t: Tree)
    requires Inv(t) && |t.roots| > 0 && Top(t).page < |t.pages| && UnsafeDegreeRoot(t.pages[Top(t).page]) == Overflow
    ensures RootReplaceable(t, Top(t).page) && Top(t).page < |t.meta| && t.meta[Top(t).page].Linked?
    ensures t.meta[Top(t).page].height == Top(t).height
  {
    HasTop(t);
    LinkedInTree(t, Top(t).page);
    hide Inv, InTree, UnsafeDegreeRoot;
  }

  /** The active entries tile the fence, so there is a child for the key. */
  lemma DescentStep(t: Tree, p: nat, key: nat)
    requires Inv(t) && p < |t.pages| && p < |t.meta| && IsLinked(t.meta[p]) && t.meta[p].Linked? && t.meta[p].height > 1
    requires Contains(t.meta[p].fence, key)
    ensures var i := RouteActive(Entries(t.pages[p]), key);
            && i.Some? && i.value < |Entries(t.pages[p])| && Contains(Entries(t.pages[p])[i.value].fence, key)
            && var s := Entries(t.pages[p])[i.value].child;
               && ChildAt(t, p, i.value, s) && s < |t.pages| && s < |t.meta| && IsLinked(t.meta[s])
               && Contains(t.meta[s].fence, key) && t.meta[s].height + 1 == t.meta[p].height
               && (UnsafeDegree(t.pages[s]) == Fine ==> Steady(t, s))
               && (Steady(t, p) ==> Sum(t.pages[p]) + 2 <= Capacity(t.pages[p]))
  {
    hide *;
    ParentFromInv(t, p);
    LastActive(t, p);
    PageKind(t, p);
    SomeRoute(Entries(t.pages[p]), t.meta[p].fence, key);
    var i := RouteActive(Entries(t.pages[p]), key).value;
    var s := Entries(t.pages[p])[i].child;
    ActiveChild(t, p, i);
    ChildInTree(t, p, i, s);
    ChildHeight(t, p, i, s);
    if UnsafeDegree(t.pages[s]) == Fine { ChildSteady(t, p, i, s); }
    if Steady(t, p) { SteadyRoom(t, p, i, s); }
  }

  lemma SomeRoute(es: seq<Entry>, f: Fence, key: nat)
    requires ActiveTiles(es, f) && Contains(f, key)
    ensures RouteActive(es, key).Some? && es[RouteActive(es, key).value].Active()
    ensures Contains(es[RouteActive(es, key).value].fence, key)
  {
    assert ActiveAt(es, key);
  }

  lemma ChildHeight(t: Tree, p: nat, i: nat, s: nat)
    requires ChildAt(t, p, i, s)
    ensures t.meta[s].height + 1 == t.meta[p].height
  {
    hide InTree;
  }

  lemma ChildSteady(t: Tree, p: nat, i: nat, s: nat)
    requires Inv(t) && ChildAt(t, p, i, s) && UnsafeDegree(t.pages[s]) == Fine
    ensures Steady(t, s)
  {
    hide AllServe, LivePages, Apart, FillOk, GraveyardOk, UnsafeDegree, InTree;
    ChildInTree(t, p, i, s);
  }

  lemma SafeChild(t: Tree, p: nat, key: nat)
    requires SafeBelow(t, p, key)
    ensures p < |t.pages| && RouteActive(Entries(t.pages[p]), key).Some?
    ensures var s := Entries(t.pages[p])[RouteActive(Entries(t.pages[p]), key).value].child;
            s < |t.pages| && UnsafeDegree(t.pages[s]) == Fine
  {
    hide UnsafeDegree;
  }

  lemma PageKind(t: Tree, p: nat)
    requires Inv(t) && p < |t.meta| && IsLinked(t.meta[p])
    ensures p < |t.pages| == |t.meta| && t.meta[p].height >= 1 && (t.pages[p].Index? <==> t.meta[p].height > 1)
  {
    LinkedInTree(t, p);
  }

  ghost predicate RootPrepared(t: Tree, s: nat, fs: seq<Fresh>, ids: Ids) {
    && RootReplaceable(t, s) && s < |t.pages| == |t.meta| && t.meta[s].Linked? && |t.roots| > 0
    && Exact(t.pages[s]) && Capacity(t.pages[s]) >= MIN_CAPACITY
    && var o := Split(t.pages[s], FULL);
       Prepared(t, o, ids) && o.ByVersion? == ids.One? && fs == Freshes(o, FULL, ids)
  }

  lemma RootPreparedIs(t0: Tree, t1: Tree, s: nat, fs: seq<Fresh>, ids: Ids)
    requires RootReplaceable(t0, s) && Inv(t1) && Later(t0, t1) && s < |t1.pages|
    requires Exact(t1.pages[s]) && Capacity(t1.pages[s]) >= MIN_CAPACITY
    requires var o := Split(t1.pages[s], FULL);
             && Prepared(t1, o, ids) && o.ByVersion? == ids.One?
             && fs == Freshes(o, FULL, ids)
    ensures RootPrepared(t1, s, fs, ids) && s < |t0.meta| && s < |t1.meta| && t1.meta[s] == t0.meta[s]
  {
    hide RootReplaceable, Inv, Later, Split, Prepared, Freshes, Exact;
    ReplaceableStays(t0, t1, s);
    ReplaceableParts(t1, s);
  }

  lemma PreparedMeta(t: Tree, s: nat, fs: seq<Fresh>, ids: Ids)
    requires RootPrepared(t, s, fs, ids)
    ensures s < |t.pages| == |t.meta|
  {
    hide RootReplaceable, Split, Prepared, Freshes, Exact;
  }

  /** What remains when the page above the halves has been filled. */
  lemma RootPreparedParts(t0: Tree, t1: Tree, s: nat, fs: seq<Fresh>, ids: Ids, root: nat)
    requires RootPrepared(t0, s, fs, ids) && RootPrepared(t1, s, fs, ids) && (t1 == t0 || Later(t0, t1))
    requires |fs| == 2 ==> RootFilled(t1, fs, root)
    ensures 1 <= |fs| <= 2 && RootFilled(t1, fs, root) && (|fs| == 2 <==> ids.Two?)
    ensures t1.roots == t0.roots && t1.clock == t0.clock && t1.history == t0.history && Keeps(t0, t1)
    ensures s < |t0.meta| && s < |t1.meta| == |t1.pages| && t1.meta[s] == t0.meta[s] && IsLinked(t1.meta[s])
    ensures |t1.roots| > 0
    ensures Exact(t1.pages[s]) && Capacity(t1.pages[s]) >= MIN_CAPACITY
    ensures Split(t1.pages[s], FULL).ByVersion? == ids.One?
    ensures RootReplaceable(t1, s) && Prepared(t1, Split(t1.pages[s], FULL), ids)
    ensures fs == Freshes(Split(t1.pages[s], FULL), FULL, ids)
  {
    ReplaceableParts(t0, s);
    ReplaceableParts(t1, s);
    FreshesCount(Split(t0.pages[s], FULL), FULL, ids);
    KeepsSelf(t0);
    hide Keeps, RootReplaceable, Inv, Split, Prepared, Freshes, Exact, Holding;
  }

  lemma PreparedForgets(t0: Tree, t1: Tree, s: nat, fs: seq<Fresh>, ids: Ids, id: nat)
    requires RootPrepared(t0, s, fs, ids) && Inv(t1) && Forgets(t0, t1, id) && |fs| == 2
    requires (id < |t0.pages| && id < |t0.meta| ==> t0.meta[id].Linked?) || (id != fs[0].page && id != fs[1].page)
    ensures RootPrepared(t1, s, fs, ids) && id != fs[0].page && id != fs[1].page
    ensures s < |t1.pages| && t1.pages[s] == t0.pages[s]
  {
    var o := Split(t0.pages[s], FULL);
    FreshesAre(o, FULL, ids);
    if id >= |t0.pages| || t0.meta[id].Linked? { NotTaken(t0, t1, o, ids, id); }
    hide Inv, RootReplaceable, Forgets, Split, Freshes, Exact;
    ReplaceableForgets(t0, t1, s, o, ids, id);
    ReplaceableParts(t1, s);
  }

  ghost predicate RootReplaceable(t: Tree, s: nat) {
    Inv(t) && RootSource(t, s) && InTree(t, s) && RootUnsafe(t, s)
  }

  lemma ReplaceableParts(t: Tree, s: nat)
    requires RootReplaceable(t, s)
    ensures Inv(t) && InTree(t, s) && |t.pages| == |t.meta| && s < |t.meta| && IsLinked(t.meta[s]) && t.meta[s].Linked?
    ensures t.meta[s].fence == FULL
    ensures |t.roots| > 0 && Top(t).page < |t.pages| && IsLinked(t.meta[Top(t).page])
  {
    TreeMeta(t);
    TreePage(t, s);
    InvParts(t);
    TopLinked(t);
  }

  lemma ReplaceableStays(t0: Tree, t1: Tree, s: nat)
    requires RootReplaceable(t0, s) && Inv(t1) && Later(t0, t1)
    ensures RootReplaceable(t1, s) && s < |t1.pages| == |t1.meta| && s < |t0.pages| && s < |t0.meta|
    ensures t1.pages[s] == t0.pages[s] && t1.meta[s] == t0.meta[s]
  {
    ReplaceableParts(t0, s);
    LaterInTree(t0, t1, s);
    hide InTree;
    LaterSource(t0, t1, s);
  }

  lemma LaterSource(t0: Tree, t1: Tree, s: nat)
    requires RootSource(t0, s) && RootUnsafe(t0, s) && Later(t0, t1) && IsLinked(t0.meta[Top(t0).page])
    ensures RootSource(t1, s) && RootUnsafe(t1, s)
  {
    hide UnsafeDegreeRoot;
  }

  lemma ReplaceableSplit(t: Tree, s: nat)
    requires RootReplaceable(t, s)
    ensures SplitOk(t, s) && s < |t.pages| && Exact(t.pages[s]) && Capacity(t.pages[s]) >= MIN_CAPACITY
  {
    hide *;
    ReplaceableParts(t, s);
    TreeMeta(t);
    TreePage(t, s);
    SplitComesFrom(t, s);
  }

  lemma FreshesAre(o: Outcome, f: Fence, ids: Ids)
    requires o.ByVersion? == ids.One?
    ensures ids.One? ==> Freshes(o, f, ids) == [Fresh(f, ids.page)]
    ensures ids.Two? ==> Freshes(o, f, ids) == [Fresh(o.leftFence, ids.left), Fresh(o.rightFence, ids.right)]
  {
  }

  lemma NotTaken(t0: Tree, t1: Tree, o: Outcome, ids: Ids, id: nat)
    requires Prepared(t0, o, ids) && Forgets(t0, t1, id) && (id < |t0.pages| && id < |t0.meta| ==> t0.meta[id].Linked?)
    ensures ids.One? ==> ids.page != id
    ensures ids.Two? ==> ids.left != id && ids.right != id
  {
    hide Holding;
  }

  lemma ReplaceableForgets(t0: Tree, t1: Tree, s: nat, o: Outcome, ids: Ids, id: nat)
    requires RootReplaceable(t0, s) && Inv(t1) && Forgets(t0, t1, id) && Prepared(t0, o, ids)
    requires (ids.One? ==> ids.page != id) && (ids.Two? ==> ids.left != id && ids.right != id)
    ensures RootReplaceable(t1, s) && s < |t0.pages| && s < |t1.pages| == |t1.meta| && s < |t0.meta|
    ensures t1.pages[s] == t0.pages[s] && t1.meta[s] == t0.meta[s]
    ensures Prepared(t1, o, ids)
  {
    ForgetsLater(t0, t1, id);
    ReplaceableStays(t0, t1, s);
    hide RootReplaceable, Inv, Later, Ready, Forgets;
    if ids.One? {
      ReadyStays(t0, t1, ids.page, id, o.copy);
    } else {
      ReadyStays(t0, t1, ids.left, id, o.left);
      ReadyStays(t0, t1, ids.right, id, o.right);
    }
  }

  /** The page above the two halves holds exactly their two entries. */
  ghost predicate RootFilled(t: Tree, fs: seq<Fresh>, root: nat) {
    |fs| == 2 ==>
      && root < |t.pages| == |t.meta| && t.meta[root] == Unlinked
      && Holding(t, t.pages[root], EntryBody([EntryFor(fs[0], t.clock), EntryFor(fs[1], t.clock)]))
      && root != fs[0].page && root != fs[1].page
  }

  lemma RootPairHolds(t: Tree, p: Page, fs: seq<Fresh>)
    requires p.Index? && Sum(p) == 0 && Capacity(p) == t.fanOut >= MIN_CAPACITY && |fs| == 2
    ensures Holding(t, CommitDelta(PushEntry(PushEntry(p, EntryFor(fs[0], t.clock), 0), EntryFor(fs[1], t.clock), 1),
                                   2, 0),
                    EntryBody([EntryFor(fs[0], t.clock), EntryFor(fs[1], t.clock)]))
  {
  }

  lemma RootRepairIs(t0: Tree, t1: Tree, s: nat, fs: seq<Fresh>, ids: Ids, root: nat)
    requires RootReplaceable(t0, s) && SplitOk(t0, s) && s < |t0.pages| == |t0.meta| && t0.meta[s].Linked?
    requires |t0.roots| > 0
    requires Exact(t0.pages[s]) && Capacity(t0.pages[s]) >= MIN_CAPACITY
    requires var o := Split(t0.pages[s], FULL);
             && Prepared(t0, o, ids) && o.ByVersion? == ids.One?
             && fs == Freshes(o, FULL, ids)
    requires RootFilled(t0, fs, root)
    requires var h := t0.meta[s].height;
             && (|fs| == 2 ==> t1.roots == t0.roots + [Root(root, t0.clock, h + 1)])
             && (|fs| != 2 ==> |fs| > 0 && t1.roots == t0.roots + [Root(fs[0].page, t0.clock, h)])
             && t1 == t0.(clock := t0.clock + 1, roots := t1.roots,
                          meta := NewMeta(t0.meta, {Top(t0).page, s},
                                          BornRoot(NewRootOf(Split(t0.pages[s], FULL), ids, root), t0.clock, h),
                                            t0.clock))
    ensures RootRepair(t0, t1, s, ids, root) && RootUnsafe(t0, s)
  {
    FreshesAre(Split(t0.pages[s], FULL), FULL, ids);
    RootReadyIs(t0, Split(t0.pages[s], FULL), fs, ids, root);
    hide Inv, InTree, SplitOk, Split, Exact, Ready, Freshes, Holding;
    hide BornRoot, NewMeta, UnsafeDegreeRoot, Exact, RootReady, Prepared, RootSource;
  }

  lemma RootReadyIs(t: Tree, o: Outcome, fs: seq<Fresh>, ids: Ids, root: nat)
    requires o.ByVersion? == ids.One? && fs == Freshes(o, FULL, ids) && RootFilled(t, fs, root)
    ensures RootReady(t, o, ids, root)
  {
    FreshesAre(o, FULL, ids);
    hide Holding, Freshes;
  }

  lemma RootPublished(t0: Tree, t1: Tree, s: nat, fs: seq<Fresh>, ids: Ids, root: nat)
    requires RootReplaceable(t0, s) && s < |t0.pages| == |t0.meta| && t0.meta[s].Linked? && |t0.roots| > 0
    requires Exact(t0.pages[s]) && Capacity(t0.pages[s]) >= MIN_CAPACITY
    requires var o := Split(t0.pages[s], FULL);
             && Prepared(t0, o, ids) && o.ByVersion? == ids.One?
             && fs == Freshes(o, FULL, ids)
    requires RootFilled(t0, fs, root)
    requires var h := t0.meta[s].height;
             && (|fs| == 2 ==> t1.roots == t0.roots + [Root(root, t0.clock, h + 1)])
             && (|fs| != 2 ==> |fs| > 0 && t1.roots == t0.roots + [Root(fs[0].page, t0.clock, h)])
             && t1 == t0.(clock := t0.clock + 1, roots := t1.roots,
                          meta := NewMeta(t0.meta, {Top(t0).page, s},
                                          BornRoot(NewRootOf(Split(t0.pages[s], FULL), ids, root), t0.clock, h),
                                            t0.clock))
    ensures Inv(t1) && |t1.roots| > 0 && Steady(t1, Top(t1).page) && Keeps(t0, t1)
    ensures s < |t1.meta| && t1.meta[s].Linked? && t1.meta[s].death == Some(t0.clock)
  {
    hide *;
    ReplaceableSplit(t0, s);
    ReplaceableParts(t0, s);
    RootRepairIs(t0, t1, s, fs, ids, root);
    RootRepairKeepsInv(t0, t1, s, ids, root);
    InvParts(t0);
    RootRepairMeta(t0, t1, s, ids, root);
  }

  lemma SteadyStays(t0: Tree, t1: Tree)
    requires |t0.roots| > 0 && Steady(t0, Top(t0).page) && t1.pages == t0.pages && t1.roots == t0.roots
    requires t1.meta == t0.meta
    ensures Steady(t1, Top(t1).page)
  {
  }

  lemma SafeStays(t0: Tree, t1: Tree, p: nat, f: Fence)
    requires t1.pages == t0.pages && forall k: nat :: Contains(f, k) ==> SafeBelow(t0, p, k)
    ensures forall k: nat :: Contains(f, k) ==> SafeBelow(t1, p, k)
  {
    hide UnsafeDegree;
  }

  lemma FreshesCount(o: Outcome, f: Fence, ids: Ids)
    requires o.ByVersion? == ids.One?
    ensures |Freshes(o, f, ids)| == if ids.One? then 1 else 2
  {
  }

  lemma OverflowRepairIs(t0: Tree, t1: Tree, p: nat, i: nat, s: nat, fs: seq<Fresh>, ids: Ids)
    requires ChildAt(t0, p, i, s) && SplitOk(t0, s) && |t0.pages| == |t0.meta| && s < |t0.pages| && t0.meta[s].Linked?
    requires p < |t0.pages| && t0.meta[p].Linked? && t0.meta[p].height > 1 && t0.pages[p].Index? && i < Sum(t0.pages[p])
    requires Exact(t0.pages[s]) && Capacity(t0.pages[s]) >= MIN_CAPACITY
    requires Prepared(t0, Split(t0.pages[s], t0.meta[s].fence), ids) && Sum(t0.pages[p]) + 2 <= Capacity(t0.pages[p])
    requires Split(t0.pages[s], t0.meta[s].fence).ByVersion? == ids.One?
    requires fs == Freshes(Split(t0.pages[s], t0.meta[s].fence), t0.meta[s].fence, ids) && 1 <= |fs| <= 2
    requires t1 == t0.(pages := t0.pages[p := StoredOne(t0.pages[p], NewEntries(fs, t0.clock), i)],
                       clock := t0.clock + 1,
                       meta := NewMeta(t0.meta, {s}, Born(fs, t0.clock, t0.meta[p].height - 1), t0.clock))
    ensures OverflowRepair(t0, t1, p, i, s, ids)
  {
    hide ChildAt, SplitOk, Exact, Split, Freshes, StoredOne, NewMeta, Born, Prepared, NewEntries;
  }

  /** A merge has filled its pages and is about to be published. */
  ghost predicate MergeReady(t: Tree, p: nat, i: nat, s: nat, c: nat, r: nat, fs: seq<Fresh>, ids: Ids) {
    && Inv(t) && ChildAt(t, p, i, s) && ChildAt(t, p, c, r) && i != c && s < |t.pages| == |t.meta| && r < |t.pages|
    && t.meta[s].Linked? && t.meta[r].Linked?
    && Adjacent(t.meta[s].fence, t.meta[r].fence) && MergeOk(t, s, r) && UnsafeDegree(t.pages[s]) == ActiveUnderflow
    && p < |t.pages| && t.meta[p].Linked? && t.meta[p].height > 1 && t.pages[p].Index? && i < Sum(t.pages[p])
    && c < Sum(t.pages[p])
    && Exact(t.pages[s]) && Exact(t.pages[r]) && t.pages[s].Leaf? == t.pages[r].Leaf?
    && Capacity(t.pages[s]) >= MIN_CAPACITY
    && Sum(t.pages[p]) + 2 <= Capacity(t.pages[p]) && t.pages[p].active >= 1
    && |t.roots| > 0 && (p == Top(t).page || UnsafeDegree(t.pages[p]) == Fine)
    && var o := Merge(t.pages[s], t.meta[s].fence, t.pages[r], t.meta[r].fence);
       Prepared(t, o, ids) && o.ByVersion? == ids.One?
         && fs == Freshes(o, Merged(t.meta[s].fence, t.meta[r].fence), ids)
  }

  lemma MergeReadyShape(t: Tree, p: nat, i: nat, s: nat, c: nat, r: nat, fs: seq<Fresh>, ids: Ids)
    requires MergeReady(t, p, i, s, c, r, fs, ids)
    ensures p < |t.pages| == |t.meta| && t.meta[p].Linked? && t.meta[p].height > 1 && t.pages[p].Index?
    ensures i < Sum(t.pages[p]) && c < Sum(t.pages[p])
    ensures 1 <= |fs| <= 2 && Sum(t.pages[p]) + 2 <= Capacity(t.pages[p]) && t.pages[p].active >= 1
    ensures s < |t.meta| && r < |t.meta| && IsLinked(t.meta[s]) && IsLinked(t.meta[r])
  {
    FreshesCount(Merge(t.pages[s], t.meta[s].fence, t.pages[r], t.meta[r].fence),
                 Merged(t.meta[s].fence, t.meta[r].fence), ids);
    ChildLinked(t, p, i, s);
    ChildLinked(t, p, c, r);
    hide ChildAt, MergeOk, Exact, Merge, Freshes, Prepared, Merged, Adjacent, Inv, UnsafeDegree;
  }

  lemma MergePublished(t0: Tree, t1: Tree, p: nat, i: nat, s: nat, c: nat, r: nat, fs: seq<Fresh>, ids: Ids)
    requires MergeReady(t0, p, i, s, c, r, fs, ids)
    requires p < |t0.pages| && t0.meta[p].Linked? && t0.meta[p].height > 1 && t0.pages[p].Index? && i < Sum(t0.pages[p])
    requires c < Sum(t0.pages[p])
    requires 1 <= |fs| <= 2 && Sum(t0.pages[p]) + 2 <= Capacity(t0.pages[p]) && t0.pages[p].active >= 1
    requires |t0.meta| == |t0.pages|
    requires t1 == t0.(pages := t0.pages[p := StoredTwo(t0.pages[p], NewEntries(fs, t0.clock), c, i)],
                       clock := t0.clock + 1,
                       meta := NewMeta(t0.meta, {s, r}, Born(fs, t0.clock, t0.meta[p].height - 1), t0.clock))
    ensures s < |t0.meta| && t0.meta[s].Linked? && r < |t0.meta| && t0.meta[r].Linked?
    ensures Inv(t1) && Keeps(t0, t1) && forall k: nat :: Contains(t0.meta[s].fence, k) ==> SafeBelow(t1, p, k)
    ensures p < |t1.meta| == |t0.meta| == |t1.pages| && t1.meta[p] == t0.meta[p] && t1.pages[p].Index?
    ensures t1.meta[s] == t0.meta[s].(death := Some(t0.clock)) && t1.meta[r] == t0.meta[r].(death := Some(t0.clock))
    ensures r != s
  {
    hide ChildAt, MergeOk, Exact, Merge, Freshes, Prepared, Merged, Adjacent, Inv;
    hide UnsafeDegree, StoredTwo, NewMeta, Born, NewEntries, SafeBelow, UnderflowRepair, Keeps;
    UnderflowRepairIs(t0, t1, p, i, s, c, r, fs, ids);
    UnderflowKeepsInv(t0, t1, p, i, s, c, r, ids);
    UnderflowMeta(t0, t1, p, i, s, c, r, ids);
  }

  lemma UnderflowRepairIs(t0: Tree, t1: Tree, p: nat, i: nat, s: nat, c: nat, r: nat, fs: seq<Fresh>, ids: Ids)
    requires ChildAt(t0, p, i, s) && ChildAt(t0, p, c, r) && i != c && s < |t0.pages| == |t0.meta| && r < |t0.pages|
    requires t0.meta[s].Linked? && t0.meta[r].Linked?
    requires Adjacent(t0.meta[s].fence, t0.meta[r].fence) && MergeOk(t0, s, r)
    requires p < |t0.pages| && t0.meta[p].Linked? && t0.meta[p].height > 1 && t0.pages[p].Index? && i < Sum(t0.pages[p])
    requires c < Sum(t0.pages[p])
    requires Exact(t0.pages[s]) && Exact(t0.pages[r]) && t0.pages[s].Leaf? == t0.pages[r].Leaf?
    requires Capacity(t0.pages[s]) >= MIN_CAPACITY
    requires var o := Merge(t0.pages[s], t0.meta[s].fence, t0.pages[r], t0.meta[r].fence);
             Prepared(t0, o, ids) && o.ByVersion? == ids.One?
               && fs == Freshes(o, Merged(t0.meta[s].fence, t0.meta[r].fence), ids) && 1 <= |fs| <= 2
    requires Sum(t0.pages[p]) + 2 <= Capacity(t0.pages[p]) && t0.pages[p].active >= 1
    requires t1 == t0.(pages := t0.pages[p := StoredTwo(t0.pages[p], NewEntries(fs, t0.clock), c, i)],
                       clock := t0.clock + 1,
                       meta := NewMeta(t0.meta, {s, r}, Born(fs, t0.clock, t0.meta[p].height - 1), t0.clock))
    ensures UnderflowRepair(t0, t1, p, i, s, c, r, ids)
  {
    hide ChildAt, MergeOk, Exact, Merge, Freshes, StoredTwo, NewMeta, Born, Prepared, NewEntries, Merged, Adjacent;
  }

  lemma LaterSame(t0: Tree, t1: Tree)
    requires Later(t0, t1)
    ensures t1.roots == t0.roots && t1.clock == t0.clock && t1.history == t0.history && t0.horizon <= t1.horizon
    ensures Keeps(t0, t1)
  {
  }

  lemma ActiveEntry(t: Tree, p: nat, i: nat, s: nat)
    requires ChildAt(t, p, i, s)
    ensures p < |t.pages| && i < |Entries(t.pages[p])| && Entries(t.pages[p])[i].Active()
  {
  }

  /** A safe parent has room for two entries, and something active. */
  lemma SteadyRoom(t: Tree, p: nat, i: nat, s: nat)
    requires Inv(t) && Steady(t, p) && ChildAt(t, p, i, s)
    ensures p < |t.pages| && Sum(t.pages[p]) + 2 <= Capacity(t.pages[p]) && t.pages[p].active >= 1 && |t.roots| > 0
    ensures p == Top(t).page || UnsafeDegree(t.pages[p]) == Fine
  {
    hide *;
    ChildInTree(t, p, i, s);
    ParentFromInv(t, p);
    SteadyTop(t, p);
    TreeMeta(t);
    LiveCapacity(t, p);
    FanOutIsBig(t);
    FineHasRoom(t.pages[p]);
    PageInTree(t, p);
    LastIsActive(t, p);
  }

  lemma SiblingFound(t: Tree, p: nat, i: nat, s: nat)
    requires Inv(t) && Steady(t, p) && ChildAt(t, p, i, s)
    ensures p < |t.pages| && p < |t.meta| && t.meta[p].Linked? && s < |t.meta| && t.meta[s].Linked?
    ensures |t.pages| == |t.meta|
    ensures t.pages[p].Index? && i < |Entries(t.pages[p])| && t.meta[s].fence == Entries(t.pages[p])[i].fence
    ensures var c := Candidate(Entries(t.pages[p]), i);
            && c.Some? && c.value < |Entries(t.pages[p])| && c.value != i
            && var r := Entries(t.pages[p])[c.value].child;
               && ChildAt(t, p, c.value, r) && r < |t.pages| && t.meta[r].Linked?
               && Adjacent(t.meta[s].fence, t.meta[r].fence)
               && (if t.meta[s].fence.upper < t.meta[p].fence.upper then
                     t.meta[r].fence.lower == t.meta[s].fence.upper + 1
                   else t.meta[r].fence.upper + 1 == t.meta[s].fence.lower)
    ensures Sum(t.pages[p]) + 2 <= Capacity(t.pages[p]) && t.pages[p].active >= 1 && |t.roots| > 0
    ensures p == Top(t).page || UnsafeDegree(t.pages[p]) == Fine
  {
    hide *;
    ChildInTree(t, p, i, s);
    ActiveEntry(t, p, i, s);
    SafeParentHasNeighbour(t, p, i);
    ActiveChild(t, p, Candidate(Entries(t.pages[p]), i).value);
    ChildInTree(t, p, Candidate(Entries(t.pages[p]), i).value,
                Entries(t.pages[p])[Candidate(Entries(t.pages[p]), i).value].child);
    SteadyRoom(t, p, i, s);
    TreeMeta(t);
  }

  lemma PageInTree(t: Tree, p: nat)
    requires p < |t.pages| && p < |t.meta| && IsLinked(t.meta[p])
    requires LivePage(t, t.pages[p], t.meta[p].fence, t.meta[p].height)
    requires Capacity(t.pages[p]) >= MIN_CAPACITY
    ensures InTree(t, p)
  {
  }

  lemma FanOutIsBig(t: Tree)
    requires Inv(t)
    ensures t.fanOut >= MIN_CAPACITY && t.numRecords >= MIN_CAPACITY
  {
  }

  lemma SteadyTop(t: Tree, p: nat)
    requires Steady(t, p)
    ensures |t.roots| > 0 && p < |t.pages| && (UnsafeDegree(t.pages[p]) == Fine || UnsafeDegreeRoot(t.pages[p]) == Fine)
    ensures p == Top(t).page || UnsafeDegree(t.pages[p]) == Fine
  {
  }

  lemma TreeMeta(t: Tree)
    requires Inv(t)
    ensures MetaOk(t) && |t.pages| == |t.meta|
  {
  }

  lemma TreePage(t: Tree, s: nat)
    requires InTree(t, s)
    ensures s < |t.pages| && s < |t.meta| && IsLinked(t.meta[s]) && t.meta[s].Linked? && Exact(t.pages[s])
    ensures Capacity(t.pages[s]) >= MIN_CAPACITY
  {
    LiveCapacity(t, s);
  }

  lemma SplitFits(t: Tree, s: nat)
    requires SplitOk(t, s) && InTree(t, s)
    ensures s < |t.pages| && Exact(t.pages[s]) && Capacity(t.pages[s]) >= MIN_CAPACITY && s < |t.meta|
    ensures t.meta[s].Linked?
    ensures FitsPages(t, Split(t.pages[s], t.meta[s].fence))
  {
    SplitParts(t, s);
    DegreeIs(t.pages[s]);
    hide Split, Exact, InTree, SplitOk;
  }

  lemma MergeFits(t: Tree, p: nat, i: nat, s: nat, c: nat, r: nat)
    requires Inv(t) && ChildAt(t, p, i, s) && ChildAt(t, p, c, r) && MergeOk(t, s, r)
    requires UnsafeDegree(t.pages[s]) == ActiveUnderflow
    ensures Exact(t.pages[s]) && Exact(t.pages[r]) && t.pages[s].Leaf? == t.pages[r].Leaf?
    ensures Capacity(t.pages[s]) >= MIN_CAPACITY
    ensures FitsPages(t, Merge(t.pages[s], t.meta[s].fence, t.pages[r], t.meta[r].fence))
  {
    hide *;
    ChildInTree(t, p, i, s);
    ChildInTree(t, p, c, r);
    SameHeight(t, p, i, s, c, r);
    MergeParts(t, s, r);
    TreeCapacity(t, s);
    TreeCapacity(t, r);
    DegreeIs(t.pages[s]);
    DegreeIs(t.pages[r]);
    NotTop(t, p, i, s);
    NotTop(t, p, c, r);
    var o, leaf := Merge(t.pages[s], t.meta[s].fence, t.pages[r], t.meta[r].fence), t.meta[s].height == 1;
    MergeIsFine(o, leaf, Capacity(t.pages[s]), t.pages[s].active, t.pages[s].dead, t.pages[r].active);
    FineFits(o, t, leaf, t.pages[s].active + t.pages[r].active);
  }

  lemma FineFits(o: Outcome, t: Tree, leaf: bool, n: nat)
    requires SizesAre(o, leaf, n) && FineOutcome(o, leaf, if leaf then t.numRecords else t.fanOut)
    ensures FitsPages(t, o)
  {
  }

  lemma ChildInTree(t: Tree, p: nat, i: nat, s: nat)
    requires ChildAt(t, p, i, s)
    ensures InTree(t, s) && s < |t.pages| && s < |t.meta| && IsLinked(t.meta[s]) && t.meta[s].Linked?
    ensures p < |t.pages| && p < |t.meta| && IsLinked(t.meta[p]) && t.meta[p].Linked? && t.meta[p].height > 1
    ensures t.pages[p].Index? && s != p
    ensures i < |Entries(t.pages[p])| && i < Sum(t.pages[p]) && t.meta[s].fence == Entries(t.pages[p])[i].fence
    ensures Entries(t.pages[p])[i].child == s
  {
    hide LivePage;
  }

  /** What stays when blocks outside the tree are taken: the child is still the child. */
  lemma ChildStays(t0: Tree, t1: Tree, p: nat, i: nat, s: nat)
    requires Inv(t1) && Later(t0, t1) && ChildAt(t0, p, i, s)
    ensures ChildAt(t1, p, i, s) && t1.pages[p] == t0.pages[p] && t1.pages[s] == t0.pages[s]
    ensures t1.meta[s] == t0.meta[s] && t1.meta[p] == t0.meta[p]
  {
    LaterInTree(t0, t1, s);
    hide LivePage, Inv, InTree;
    ChildInTree(t0, p, i, s);
  }

  /** The body fits into one page of its kind. */
  ghost predicate FitsPage(t: Tree, b: Body) { Size(b) <= if b.RecordBody? then t.numRecords else t.fanOut }

  ghost predicate FitsPages(t: Tree, o: Outcome) {
    match o
    case ByVersion(copy) => FitsPage(t, copy)
    case ByKey(_, left, _, right) => FitsPage(t, left) && FitsPage(t, right)
  }

  lemma ForgetsKeeps(t0: Tree, t1: Tree, id: nat, other: nat)
    requires Forgets(t0, t1, id) && other < |t0.pages| && other != id
    ensures other < |t1.pages| && other < |t0.meta| && other < |t1.meta| && t1.pages[other] == t0.pages[other]
    ensures t1.meta[other] == t0.meta[other]
  {
  }

  lemma GraveRest(graveyard: seq<Dead>, serial: nat)
    requires GraveOrder(graveyard, serial)
    ensures |graveyard| > 0 ==> GraveOrder(graveyard[1..], serial)
  {
  }

  /** If any page died below the bound the first one did, and none died before it. */
  lemma GraveFront(graveyard: seq<Dead>, serial: nat, oldest: nat)
    requires GraveOrder(graveyard, serial)
    ensures (exists d :: d in graveyard && d.death < oldest) <==> |graveyard| > 0 && graveyard[0].death < oldest
    ensures |graveyard| > 0 ==>
              forall d :: d in graveyard ==> graveyard[0].death <= d.death && graveyard[0].serial <= d.serial
  {
  }

  lemma GraveAppend(graveyard: seq<Dead>, serial: nat, d: Dead)
    requires GraveOrder(graveyard, serial) && d.serial == serial
    requires forall i :: 0 <= i < |graveyard| ==> graveyard[i].death <= d.death
    ensures GraveOrder(graveyard + [d], serial + 1)
  {
  }

  lemma BulkHolds(t: Tree, p: Page, b: Body)
    requires Sum(p) == 0 && p.Leaf? == b.RecordBody?
    requires Size(b) <= Capacity(p) == (if b.RecordBody? then t.numRecords else t.fanOut)
    ensures Holding(t, match b case RecordBody(rs) => BulkRecords(p, rs) case EntryBody(es) => BulkEntries(p, es), b)
  {
    BulkContents(p);
  }

  lemma HorizonHolds(t: Tree)
    requires Inv(t)
    ensures t.horizon <= t.clock && |t.pages| == |t.meta|
  {
    hide LivePages, AllServe, Apart, RootsOk, FillOk;
  }

  lemma SameLength(t: Tree)
    requires Inv(t)
    ensures |t.pages| == |t.meta|
  {
  }

  lemma BuriedIsLinked(t: Tree)
    requires Inv(t) && |t.graveyard| > 0
    ensures t.graveyard[0].page < |t.pages| == |t.meta| && t.meta[t.graveyard[0].page].Linked?
    ensures !IsLinked(t.meta[t.graveyard[0].page])
  {
    hide LivePages, AllServe, Apart, RootsOk, FillOk;
  }

  lemma DeathsAreOld(t: Tree)
    requires Inv(t)
    ensures forall i :: 0 <= i < |t.graveyard| ==> t.graveyard[i].death < t.clock
  {
    hide LivePages, AllServe, Apart, RootsOk, FillOk;
  }
}
