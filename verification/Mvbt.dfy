/**
 The tree as the program runs it: pages, root index, clock and graveyard are changed store by
 store. Beside them the object carries, as ghost state, the page meta data, the history of
 committed writes and the horizon.
 */
module Mvbt {
  import opened Util
  import opened Fences
  import opened History
  import opened Pages
  import opened Fill
  import opened Smo
  import opened TreeModel
  import opened LeafWrites
  import opened Reorg
  import opened ParentReorg
  import opened NewPages
  import opened RootReorg
  import opened Publish
  import opened PublishRoot
  import opened ParentStores
  import opened Repairs
  import opened RootRepairs
  import opened Alloc
  import opened LeafSteps
  import opened Snapshots
  import opened TreeSteps
  import opened PageFate

  datatype Reason = KeyAlreadyExists | KeyDoesNotExist | KeyAlreadyDeleted

  class MvbTree {
    const fanOut: nat
    const numRecords: nat
    var pages: seq<Page>
    var roots: seq<Root>
    var clock: nat
    var graveyard: seq<Dead>
    var serial: nat
    /** No reader holds or will draw a snapshot below this one. */
    var oldest: nat
    ghost var meta: seq<Meta>
    ghost var history: History
    ghost var horizon: nat

    ghost function T(): Tree
      reads this
    {
      Tree(fanOut, numRecords, pages, roots, clock, graveyard, meta, history, horizon)
    }

    ghost predicate Valid()
      reads this
    {
      Inv(T()) && horizon <= oldest <= clock && GraveOrder(graveyard, serial)
    }

    constructor (fanOut: nat, numRecords: nat)
      requires fanOut >= MIN_CAPACITY && numRecords >= MIN_CAPACITY
      ensures Valid() && history == [] && oldest == 1 && clock == 1 && graveyard == []
      ensures pages == [EmptyLeaf(numRecords)] && roots == [Root(0, 1, 1)] && Settled(T(), {})
    {
      this.fanOut := fanOut;
      this.numRecords := numRecords;
      pages := [EmptyLeaf(numRecords)];
      roots := [Root(0, 1, 1)];
      clock := 1;
      graveyard := [];
      serial := 0;
      oldest := 1;
      meta := [Linked(FULL, 1, None, 1)];
      history := [];
      horizon := 1;
      new;
      EmptyTreeInv(fanOut, numRecords);
      StartsSettled(T());
    }

    // -------------------------------------------------------------- pages outside the tree

    /** Reuses the page that died first if no reader can reach it, and takes a new one otherwise. */
    method AllocBlock(leaf: bool) returns (id: nat)
      requires Valid()
      modifies this
      ensures Valid() && Forgets(old(T()), T(), id) && oldest == old(oldest) && Takes(old(T()), T(), {id})
      ensures id < |old(pages)| <==> exists d :: d in old(graveyard) && d.death < oldest
      ensures id < |old(pages)| ==>
                && |old(graveyard)| > 0 && graveyard == old(graveyard)[1..] && id == old(graveyard)[0].page
                && forall d :: d in old(graveyard) ==>
                     old(graveyard)[0].death <= d.death && old(graveyard)[0].serial <= d.serial
      ensures id >= |old(pages)| ==> id == |old(pages)| && graveyard == old(graveyard)
      ensures id < |pages| == |meta| && meta[id] == Unlinked
      ensures (id < |old(pages)| == |old(meta)| ==> old(meta)[id].Linked?)
      ensures pages[id].Leaf? == leaf && Sum(pages[id]) == 0
      ensures Capacity(pages[id]) == (if leaf then numRecords else fanOut)
    {
      hide Inv, Forgets, GraveOrder, Takes;
      ghost var t0 := T();
      GraveRest(graveyard, serial);
      GraveFront(graveyard, serial, oldest);
      HorizonHolds(t0);
      var page: Page := if leaf then EmptyLeaf(numRecords) else EmptyIndex(fanOut);
      if |graveyard| > 0 && graveyard[0].death < oldest {
        var d := graveyard[0];
        BuriedIsLinked(t0);
        id := d.page;
        pages := pages[id := page];
        graveyard := graveyard[1..];
        meta := meta[id := Unlinked];
        horizon := Max(horizon, d.death);
        ReuseForgets(t0, T(), page, oldest);
        ReuseTakes(t0, T(), id);
      } else {
        SameLength(t0);
        id := |pages|;
        pages := pages + [page];
        meta := meta + [Unlinked];
        ExtendForgets(t0, T(), page);
        ExtendTakes(t0, T());
      }
      ForgetKeepsInv(t0, T(), id);
    }

    /** Fills a page that nobody can reach yet. */
    method BulkPush(id: nat, b: Body)
      requires Valid() && id < |pages| == |meta| && meta[id] == Unlinked && Sum(pages[id]) == 0
      requires pages[id].Leaf? == b.RecordBody?
      requires Size(b) <= Capacity(pages[id]) == (if b.RecordBody? then numRecords else fanOut)
      modifies this`pages
      ensures Valid() && Forgets(old(T()), T(), id) && Takes(old(T()), T(), {})
      ensures Ready(T(), id, b)
    {
      hide Inv, Forgets, GraveOrder, Takes;
      ghost var t0 := T();
      HorizonHolds(t0);
      match b {
        case RecordBody(rs) => pages := pages[id := BulkRecords(pages[id], rs)];
        case EntryBody(es) => pages := pages[id := BulkEntries(pages[id], es)];
      }
      BulkHolds(t0, t0.pages[id], b);
      hide Holding;
      FillForgets(t0, T(), id, pages[id]);
      ForgetKeepsInv(t0, T(), id);
      TakesNone(t0, T());
    }

    /** Takes one or two pages and writes an outcome into them: the new pages with their fences. */
    method Place(o: Outcome, fence: Fence) returns (fs: seq<Fresh>, ghost ids: Ids)
      requires Valid() && FitsPages(T(), o)
      modifies this
      ensures Valid() && Later(old(T()), T()) && oldest == old(oldest)
      ensures Prepared(T(), o, ids) && o.ByVersion? == ids.One? && fs == Freshes(o, fence, ids)
      ensures Takes(old(T()), T(), IdSet(ids))
    {
      hide Inv, Forgets, GraveOrder, Holding, Takes;
      ghost var t0 := T();
      match o {
        case ByVersion(copy) =>
          var id := AllocBlock(copy.RecordBody?);
          ghost var t1 := T();
          BulkPush(id, copy);
          ForgetsLater(t0, t1, id);
          ForgetsLater(t1, T(), id);
          LaterTrans(t0, t1, T());
          TakesTrans(t0, t1, T(), {id}, {});
          ids := One(id);
          assert {id} + {} == IdSet(ids);
          fs := [Fresh(fence, id)];
        case ByKey(leftFence, left, rightFence, right) =>
          var leftId, rightId := PlacePair(left, right);
          ids := Two(leftId, rightId);
          assert IdSet(ids) == {leftId, rightId};
          fs := [Fresh(leftFence, leftId), Fresh(rightFence, rightId)];
      }
    }

    method PlacePair(left: Body, right: Body) returns (leftId: nat, rightId: nat)
      requires Valid() && FitsPage(T(), left) && FitsPage(T(), right)
      modifies this
      ensures Valid() && Later(old(T()), T()) && oldest == old(oldest)
      ensures leftId != rightId && Ready(T(), leftId, left) && Ready(T(), rightId, right)
      ensures Takes(old(T()), T(), {leftId, rightId})
    {
      hide Inv, Forgets, GraveOrder, Later, Ready, Takes;
      ghost var t0 := T();
      leftId := AllocBlock(left.RecordBody?);
      ghost var t1 := T();
      ForgetsLater(t0, t1, leftId);
      rightId := AllocBlock(right.RecordBody?);
      ghost var t2 := T();
      ForgetsLater(t1, t2, rightId);
      LaterTrans(t0, t1, t2);
      ForgetsKeeps(t1, t2, rightId, leftId);
      BulkPush(leftId, left);
      ghost var t3 := T();
      ForgetsLater(t2, t3, leftId);
      LaterTrans(t0, t2, t3);
      ForgetsKeeps(t2, t3, leftId, rightId);
      BulkPush(rightId, right);
      ForgetsLater(t3, T(), rightId);
      LaterTrans(t0, t3, T());
      ReadyStays(t3, T(), leftId, rightId, left);
      TakesTwo(t0, t1, t2, t3, T(), leftId, rightId);
    }

    /** `split`: the live units of a page in one or two new pages. */
    method SplitBlock(s: nat, fence: Fence) returns (fs: seq<Fresh>, ghost ids: Ids)
      requires Valid() && InTree(T(), s) && fence == meta[s].fence
      modifies this
      ensures Valid() && Later(old(T()), T()) && oldest == old(oldest)
      ensures InTree(T(), s) && SplitOk(T(), s) && pages[s] == old(pages)[s] && meta[s] == old(meta)[s]
      ensures Exact(pages[s]) && Capacity(pages[s]) >= MIN_CAPACITY && Takes(old(T()), T(), IdSet(ids))
      ensures var o := Split(pages[s], fence);
              && Prepared(T(), o, ids) && o.ByVersion? == ids.One?
              && fs == Freshes(o, fence, ids)
    {
      hide Inv, GraveOrder, InTree, SplitOk, Later, Split, Exact, Prepared, FitsPages, Freshes, Takes, IdSet;
      ghost var t0 := T();
      TreeMeta(t0);
      TreePage(t0, s);
      SplitComesFrom(t0, s);
      SplitFits(t0, s);
      var o := Split(pages[s], fence);
      fs, ids := Place(o, fence);
      LaterInTree(t0, T(), s);
      TreeMeta(T());
      TreePage(T(), s);
      SplitComesFrom(T(), s);
    }

    /** `merge`: the live units of a page and of its sibling in one or two new pages. */
    method MergeBlocks(p: nat, i: nat, s: nat, c: nat, r: nat) returns (fs: seq<Fresh>, ghost ids: Ids)
      requires Valid() && ChildAt(T(), p, i, s) && ChildAt(T(), p, c, r) && UnsafeDegree(pages[s]) == ActiveUnderflow
      requires Adjacent(meta[s].fence, meta[r].fence)
      modifies this
      ensures Valid() && Later(old(T()), T()) && oldest == old(oldest)
      ensures ChildAt(T(), p, i, s) && ChildAt(T(), p, c, r) && MergeOk(T(), s, r)
      ensures pages[p] == old(pages)[p] && pages[s] == old(pages)[s] && meta[s] == old(meta)[s]
      ensures meta[p] == old(meta)[p] && meta[r] == old(meta)[r]
      ensures Exact(pages[s]) && Exact(pages[r]) && pages[s].Leaf? == pages[r].Leaf?
      ensures Capacity(pages[s]) >= MIN_CAPACITY && Takes(old(T()), T(), IdSet(ids))
      ensures var o := Merge(pages[s], meta[s].fence, pages[r], meta[r].fence);
              Prepared(T(), o, ids) && o.ByVersion? == ids.One?
                && fs == Freshes(o, Merged(meta[s].fence, meta[r].fence), ids)
    {
      hide Inv, GraveOrder, ChildAt, MergeOk, Later, Merge, Exact, Prepared, FitsPages, Freshes, InTree, UnsafeDegree;
      hide Takes, IdSet;
      ghost var t0 := T();
      TreeMeta(t0);
      ChildInTree(t0, p, i, s);
      ChildInTree(t0, p, c, r);
      SameHeight(t0, p, i, s, c, r);
      MergeComesFrom(t0, s, r);
      MergeFits(t0, p, i, s, c, r);
      var es := Entries(pages[p]);
      var o := Merge(pages[s], es[i].fence, pages[r], es[c].fence);
      fs, ids := Place(o, Merged(es[i].fence, es[c].fence));
      ChildStays(t0, T(), p, i, s);
      ChildStays(t0, T(), p, c, r);
      TreeMeta(T());
      ChildInTree(T(), p, i, s);
      ChildInTree(T(), p, c, r);
      MergeComesFrom(T(), s, r);
    }

    /** Hands a page that died over to the graveyard. */
    method RegisterDead(death: nat, page: nat)
      requires Valid() && page < |meta| && meta[page].Linked? && meta[page].death == Some(death) && death + 1 == clock
      requires forall i :: 0 <= i < |graveyard| ==> graveyard[i].page != page
      modifies this`graveyard, this`serial
      ensures Valid() && graveyard == old(graveyard) + [Dead(death, old(serial), page)] && serial == old(serial) + 1
    {
      hide Inv, GraveOrder;
      ghost var t0 := T();
      DeathsAreOld(t0);
      GraveAppend(graveyard, serial, Dead(death, serial, page));
      graveyard := graveyard + [Dead(death, serial, page)];
      serial := serial + 1;
      RegisterKeepsInv(t0, T(), Dead(death, serial - 1, page));
    }

    method RegisterDeadCol(death: nat, a: nat, b: nat)
      requires Valid() && a != b && death + 1 == clock
      requires a < |meta| && meta[a].Linked? && meta[a].death == Some(death)
      requires b < |meta| && meta[b].Linked? && meta[b].death == Some(death)
      requires forall i :: 0 <= i < |graveyard| ==> graveyard[i].page != a && graveyard[i].page != b
      modifies this`graveyard, this`serial
      ensures Valid() && graveyard == old(graveyard) + [Dead(death, old(serial), a), Dead(death, old(serial) + 1, b)]
    {
      hide Inv, GraveOrder;
      RegisterDead(death, a);
      assert graveyard[|graveyard| - 1].page == a;
      RegisterDead(death, b);
    }

    // -------------------------------------------------------------- structure modifications

    /** The pages went to the graveyard last, in this order, as dead at the version drawn last. */
    ghost predicate Buried(dead: seq<nat>)
      reads this
    {
      && |dead| <= |graveyard|
      && forall i :: 0 <= i < |dead| ==>
           graveyard[|graveyard| - |dead| + i].page == dead[i] && graveyard[|graveyard| - |dead| + i].death + 1 == clock
    }

    /** The stores in the parent that replace one child: pushes, the length, one obsolete mark. */
    method StoreOne(p: nat, fs: seq<Fresh>, index: nat, version: nat)
      requires p < |pages| && pages[p].Index? && 1 <= |fs| <= 2 && index < Sum(pages[p])
      requires Sum(pages[p]) + |fs| <= Capacity(pages[p])
      modifies this`pages
      ensures pages == old(pages)[p := StoredOne(old(pages)[p], NewEntries(fs, version), index)]
    {
      var len := Sum(pages[p]);
      pages := pages[p := PushEntry(pages[p], EntryFor(fs[0], version), len)];
      if |fs| == 2 {
        pages := pages[p := PushEntry(pages[p], EntryFor(fs[1], version), len + 1)];
        pages := pages[p := CommitDelta(pages[p], 1, 1)];
      } else {
        pages := pages[p := CommitDelta(pages[p], 0, 1)];
      }
      pages := pages[p := MarkObsolete(pages[p], index)];
    }

    /** The stores in the parent that replace two children: pushes, the length, two obsolete marks. */
    method StoreTwo(p: nat, fs: seq<Fresh>, sibling: nat, index: nat, version: nat)
      requires p < |pages| && pages[p].Index? && 1 <= |fs| <= 2 && index < Sum(pages[p]) && sibling < Sum(pages[p])
      requires Sum(pages[p]) + |fs| <= Capacity(pages[p]) && pages[p].active >= 1
      modifies this`pages
      ensures pages == old(pages)[p := StoredTwo(old(pages)[p], NewEntries(fs, version), sibling, index)]
    {
      var len := Sum(pages[p]);
      pages := pages[p := PushEntry(pages[p], EntryFor(fs[0], version), len)];
      if |fs| == 2 {
        pages := pages[p := PushEntry(pages[p], EntryFor(fs[1], version), len + 1)];
        pages := pages[p := CommitDelta(pages[p], 0, 2)];
      } else {
        pages := pages[p := CommitDelta(pages[p], -1, 2)];
      }
      pages := pages[p := MarkObsolete(pages[p], sibling)];
      pages := pages[p := MarkObsolete(pages[p], index)];
    }

    /** Splits the overflowing child `s` at `index`; afterwards its keys lead to a safe child. */
    method OnOverflow(p: nat, s: nat, index: nat)
      requires Valid() && ChildAt(T(), p, index, s)
      requires UnsafeDegree(pages[s]) == Overflow && Sum(pages[p]) + 2 <= Capacity(pages[p])
      modifies this
      ensures Repaired(old(T()), T(), p, old(Entries(pages[p])[index].fence)) && Valid() && oldest == old(oldest)
      ensures Buried([s]) && clock == old(clock) + 1 && Takes(old(T()), T(), {})
    {
      hide Inv, GraveOrder, ChildAt, SplitOk, Later, Split, Exact, Prepared, Freshes, InTree, UnsafeDegree, SafeBelow,
        Born, NewMeta, Takes, IdSet,
        OverflowRepair, NewEntries, StoredOne, Keeps;
      ghost var t0 := T();
      ChildInTree(t0, p, index, s);
      var fence := Entries(pages[p])[index].fence;
      var fs, ids := SplitBlock(s, fence);
      ghost var t1 := T();
      ChildStays(t0, t1, p, index, s);
      ChildInTree(t1, p, index, s);
      TreeMeta(t1);
      LaterSame(t0, t1);
      FreshesCount(Split(pages[s], fence), fence, ids);
      LinkedIsNotBuried(t1, s);
      var version := clock;
      clock := clock + 1;
      StoreOne(p, fs, index, version);
      meta := NewMeta(meta, {s}, Born(fs, version, meta[p].height - 1), version);
      OverflowRepairIs(t1, T(), p, index, s, fs, ids);
      OverflowKeepsInv(t1, T(), p, index, s, ids);
      OverflowMeta(t1, T(), p, index, s, ids);
      ghost var t2 := T();
      RegisterDead(version, s);
      KeepsChain(t0, t1, t2, T());
      SafeStays(t2, T(), p, fence);
      OverflowTakes(t0, t1, T(), p, index, s, ids, Split(t1.pages[s], fence), fence, version,
                    graveyard[|graveyard| - 1]);
    }

    /**
     Merges the underflowing child `s` at `index` with its key neighbour, the right one unless it is the
     last child; afterwards its keys lead to a safe child.
     */
    method OnUnderflow(p: nat, s: nat, index: nat) returns (ghost partner: nat)
      requires Valid() && ChildAt(T(), p, index, s) && Steady(T(), p) && UnsafeDegree(pages[s]) == ActiveUnderflow
      modifies this
      ensures Repaired(old(T()), T(), p, old(Entries(pages[p])[index].fence)) && Valid() && oldest == old(oldest)
      ensures Buried([s, partner]) && s < |old(meta)| && partner < |old(meta)| && old(meta)[s].Linked?
      ensures old(meta)[partner].Linked?
      ensures Adjacent(old(meta)[s].fence, old(meta)[partner].fence)
      ensures p < |old(meta)| && old(meta)[p].Linked?
      ensures if old(meta)[s].fence.upper < old(meta)[p].fence.upper then
                old(meta)[partner].fence.lower == old(meta)[s].fence.upper + 1
              else old(meta)[partner].fence.upper + 1 == old(meta)[s].fence.lower
      ensures clock == old(clock) + 1 && Takes(old(T()), T(), {})
    {
      hide Inv, GraveOrder, ChildAt, MergeOk, Later, Merge, Exact, Prepared, Freshes, InTree, UnsafeDegree, SafeBelow,
        Born, NewMeta,
        UnderflowRepair, NewEntries, StoredTwo, Candidate, Steady, Merged, Adjacent, Keeps, Takes, IdSet;
      ghost var t0 := T();
      SiblingFound(t0, p, index, s);
      var sibling := Candidate(Entries(pages[p]), index).value;
      var r := Entries(pages[p])[sibling].child;
      partner := r;
      var fs, ids := MergeBlocks(p, index, s, sibling, r);
      LaterSame(t0, T());
      ghost var t1 := T();
      TreeMeta(t1);
      ChildInTree(t1, p, index, s);
      ChildInTree(t1, p, sibling, r);
      PublishMerge(p, s, index, r, sibling, fs, ids, t0);
      KeepsTrans(t0, t1, T());
    }

    /** Publishes the pages a merge filled and buries the two pages they replace. */
    method PublishMerge(p: nat, s: nat, index: nat, r: nat, sibling: nat, fs: seq<Fresh>, ghost ids: Ids,
                        ghost before: Tree)
      requires Valid() && MergeReady(T(), p, index, s, sibling, r, fs, ids) && s < |meta| && meta[s].Linked?
      requires Takes(before, T(), IdSet(ids))
      modifies this
      ensures Repaired(old(T()), T(), p, old(meta[s].fence)) && Valid() && oldest == old(oldest) && Buried([s, r])
      ensures clock == old(clock) + 1 && Takes(before, T(), {})
    {
      hide Inv, GraveOrder, MergeReady, SafeBelow, Born, NewMeta, NewEntries, StoredTwo, Keeps, Takes, IdSet;
      ghost var t1 := T();
      MergeReadyShape(t1, p, index, s, sibling, r, fs, ids);
      LinkedIsNotBuried(t1, s);
      LinkedIsNotBuried(t1, r);
      var version := clock;
      clock := clock + 1;
      StoreTwo(p, fs, sibling, index, version);
      meta := NewMeta(meta, {s, r}, Born(fs, version, meta[p].height - 1), version);
      ghost var t2 := T();
      MergePublished(t1, t2, p, index, s, sibling, r, fs, ids);
      RegisterDeadCol(version, s, r);
      KeepsSelf(t1);
      KeepsChain(t1, t1, t2, T());
      SafeStays(t2, T(), p, meta[s].fence);
      MergedTakes(before, t1, T(), p, index, s, sibling, r, fs, ids, version);
    }

    /** The page above the two halves of a root. */
    method MakeRoot(fs: seq<Fresh>, ghost s: nat, ghost ids: Ids) returns (root: nat)
      requires Valid() && RootPrepared(T(), s, fs, ids) && |fs| == 2
      modifies this
      ensures Valid() && Later(old(T()), T()) && oldest == old(oldest) && Takes(old(T()), T(), {root})
      ensures RootPrepared(T(), s, fs, ids) && RootFilled(T(), fs, root)
      ensures s < |old(pages)| && s < |pages| && pages[s] == old(pages)[s]
    {
      hide Inv, GraveOrder, RootPrepared, Later, Forgets, Holding, Takes;
      ghost var t1 := T();
      PreparedMeta(t1, s, fs, ids);
      root := AllocBlock(false);
      ghost var t2 := T();
      PreparedForgets(t1, t2, s, fs, ids, root);
      FanOutIsBig(t2);
      RootPairHolds(t2, pages[root], fs);
      pages := pages[root := PushEntry(pages[root], EntryFor(fs[0], clock), 0)];
      pages := pages[root := PushEntry(pages[root], EntryFor(fs[1], clock), 1)];
      pages := pages[root := CommitDelta(pages[root], 2, 0)];
      ghost var t3 := T();
      HoldingStays(t2, t3, pages[root], EntryBody([EntryFor(fs[0], clock), EntryFor(fs[1], clock)]));
      FillForgets(t2, t3, root, pages[root]);
      ForgetKeepsInv(t2, t3, root);
      PreparedForgets(t2, t3, s, fs, ids, root);
      ForgetsLater(t1, t2, root);
      ForgetsLater(t2, t3, root);
      LaterTrans(t1, t2, t3);
      TakesNone(t2, t3);
      TakesTrans(t1, t2, t3, {root}, {});
      assert {root} + {} == {root};
    }

    /** Replaces the root by one or two new pages made from `s`: the root itself or its only child. */
    method SplitRoot(s: nat, height: nat)
      requires Valid() && RootReplaceable(T(), s) && height == meta[s].height
      modifies this
      ensures Valid() && oldest == old(oldest) && SameHistory(old(T()), T())
      ensures |roots| == old(|roots|) + 1 && Steady(T(), Top(T()).page)
      ensures Top(T()).height == height || Top(T()).height == height + 1
      ensures Buried([s]) && clock == old(clock) + 1 && Takes(old(T()), T(), {})
    {
      hide Inv, GraveOrder, RootReplaceable, RootPrepared, RootFilled, InTree, SplitOk, Later, Split;
      hide Exact, Prepared, Freshes, Steady, BornRoot, NewMeta, Keeps, Takes, IdSet, TakenIds;
      ghost var t0 := T();
      ReplaceableParts(t0, s);
      var fs, ids := SplitBlock(s, FULL);
      ghost var t1 := T();
      TreePage(t1, s);
      RootPreparedIs(t0, t1, s, fs, ids);
      var root := 0;
      if |fs| == 2 {
        root := MakeRoot(fs, s, ids);
      }
      ghost var filled := T();
      RootPreparedParts(t1, filled, s, fs, ids, root);
      FilledTakes(t0, t1, filled, fs, ids, root);
      LinkedIsNotBuried(filled, s);
      LaterSame(t0, t1);
      var version := clock;
      clock := clock + 1;
      if |fs| == 2 {
        roots := roots + [Root(root, version, height + 1)];
      } else {
        roots := roots + [Root(fs[0].page, version, height)];
      }
      meta := NewMeta(meta, {Top(filled).page, s},
                      BornRoot(NewRootOf(Split(filled.pages[s], FULL), ids, root), version, height), version);
      ghost var t3 := T();
      RootPublished(filled, t3, s, fs, ids, root);
      RegisterDead(version, s);
      KeepsTrans(t0, t1, filled);
      KeepsChain(t0, filled, t3, T());
      SteadyStays(t3, T());
      ReplacedTakes(t0, filled, T(), s, fs, ids, root, version, height);
    }

    /** A root with a single child gives way to new pages made from that child. */
    method MergeRoot()
      requires Valid() && |roots| > 0 && Top(T()).page < |pages|
      requires UnsafeDegreeRoot(pages[Top(T()).page]) == ActiveUnderflow
      modifies this
      ensures Valid() && oldest == old(oldest) && SameHistory(old(T()), T())
      ensures |roots| == old(|roots|) + 1 && Steady(T(), Top(T()).page)
      ensures Top(T()).height <= old(Top(T()).height) && clock == old(clock) + 1
      ensures Takes(old(T()), T(), {})
    {
      hide Inv, GraveOrder, Steady, UnsafeDegreeRoot, ChildAt, InTree, RootSource, Keeps, Takes;
      SingleChildSpans(T());
      var root := roots[|roots| - 1];
      var es := Entries(pages[root.page]);
      var child := es[|es| - 1].child;
      ChildReplaceable(T(), child);
      SplitRoot(child, root.height - 1);
    }

    /** The root a write starts from, repaired first if it is unsafe. */
    method RetrieveRoot() returns (page: nat, ghost repairs: nat)
      requires Valid()
      modifies this
      ensures Valid() && oldest == old(oldest) && SameHistory(old(T()), T())
      ensures |roots| > 0 && page == Top(T()).page && Steady(T(), page) && repairs <= 1
      ensures Top(T()).height <= old(Top(T()).height) + repairs && clock == old(clock) + repairs
      ensures Takes(old(T()), T(), {})
    {
      hide Inv, GraveOrder, UnsafeDegreeRoot, RootReplaceable, Keeps, Takes;
      TakesNone(T(), T());
      KeepsSelf(T());
      HasTop(T());
      var root := roots[|roots| - 1];
      match UnsafeDegreeRoot(pages[root.page]) {
        case Overflow =>
          TopReplaceable(T());
          SplitRoot(root.page, root.height);
          repairs := 1;
        case ActiveUnderflow =>
          MergeRoot();
          repairs := 1;
        case Fine =>
          repairs := 0;
      }
      page := roots[|roots| - 1].page;
    }

    /** Walks down to the leaf of the key and repairs unsafe pages on the way, at most one per level. */
    method WriteDescent(key: nat) returns (leaf: nat, ghost repairs: nat)
      requires Valid() && key <= MAX_KEY
      modifies this
      ensures Valid() && oldest == old(oldest) && SameHistory(old(T()), T())
      ensures Steady(T(), leaf) && leaf < |meta| && IsLinked(meta[leaf]) && meta[leaf].height == 1
      ensures Contains(meta[leaf].fence, key)
      ensures |roots| > 0 && repairs <= Top(T()).height <= old(Top(T()).height) + 1
      ensures clock == old(clock) + repairs && Takes(old(T()), T(), {})
    {
      hide Inv, GraveOrder, Steady, SafeBelow, RouteActive, UnsafeDegree, UnsafeDegreeRoot, ChildAt, Keeps, Takes;
      ghost var before := T();
      HasTop(before);
      leaf, repairs := RetrieveRoot();
      ghost var repairedHere := false;
      HasTop(T());
      PageKind(T(), leaf);
      while pages[leaf].Index?
        invariant Valid() && oldest == old(oldest) && SameHistory(before, T()) && Takes(before, T(), {})
        invariant leaf < |pages| == |meta| && IsLinked(meta[leaf]) && Contains(meta[leaf].fence, key)
        invariant pages[leaf].Index? <==> meta[leaf].height > 1
        invariant meta[leaf].height >= 1 && |roots| > 0
        invariant if repairedHere then pages[leaf].Index? && SafeBelow(T(), leaf, key) else Steady(T(), leaf)
        invariant repairs + meta[leaf].height <= Top(T()).height + (if repairedHere then 2 else 1)
        invariant Top(T()).height <= old(Top(T()).height) + 1 && clock == old(clock) + repairs
        decreases meta[leaf].height, if repairedHere then 0 else 1
      {
        ghost var previous := T();
        DescentStep(T(), leaf, key);
        var index := RouteActive(Entries(pages[leaf]), key).value;
        var child := Entries(pages[leaf])[index].child;
        if repairedHere { SafeChild(T(), leaf, key); }
        match UnsafeDegree(pages[child]) {
          case Overflow =>
            OnOverflow(leaf, child, index);
            KeepsTrans(before, previous, T());
            TakesOn(before, previous, T());
            repairedHere, repairs := true, repairs + 1;
          case ActiveUnderflow =>
            ghost var partner := OnUnderflow(leaf, child, index);
            KeepsTrans(before, previous, T());
            TakesOn(before, previous, T());
            repairedHere, repairs := true, repairs + 1;
          case Fine =>
            leaf, repairedHere := child, false;
        }
        PageKind(T(), leaf);
      }
    }

    // -------------------------------------------------------------- writes and reads

    /** From now on no reader will ask for a snapshot below `v`. */
    method Retire(v: nat)
      requires Valid() && oldest <= v <= clock
      modifies this`oldest
      ensures Valid() && oldest == v
    {
      oldest := v;
    }

    /** Inserts a key: succeeds exactly if the key is not there. */
    method Insert(key: nat, payload: nat) returns (r: Result<nat, Reason>)
      requires Valid() && key <= MAX_KEY
      modifies this
      ensures Valid() && oldest == old(oldest) && Keeps(old(T()), T()) && Takes(old(T()), T(), {})
      ensures r.Ok? <==> At(old(history), key, old(clock)).None?
      ensures r.Ok? ==>
                && old(clock) <= r.value && clock == r.value + 1
                && history == old(history) + [Commit(r.value, Op.Insert(key, payload))]
      ensures r.Err? ==> r.error == KeyAlreadyExists && history == old(history)
    {
      hide Inv, GraveOrder, Steady, Exact, LeafWrite, LastIsLive, Writes, LeafGood, Filter, Keeps, Takes;
      HorizonHolds(T());
      CommitsAreOld(T());
      ghost var before := T();
      var leaf, repairs := WriteDescent(key);
      ghost var t0 := T();
      LeafFacts(t0, leaf, key);
      SameNow(before, t0, key);
      var records := Records(pages[leaf]);
      if LastIsLive(records, key) {
        return Err(KeyAlreadyExists);
      }
      var len, version := Sum(pages[leaf]), clock;
      clock := clock + 1;
      pages := pages[leaf := PushRecord(pages[leaf], Record(key, payload, version, None), len)];
      pages := pages[leaf := CommitDelta(pages[leaf], 1, 0)];
      history := history + [Commit(version, Op.Insert(key, payload))];
      InsertWrites(t0.pages[leaf], meta[leaf].fence, version, key, payload);
      WriteStep(t0, T(), leaf, pages[leaf], Op.Insert(key, payload));
      WriteFinishes(t0, T(), leaf, Op.Insert(key, payload));
      CommitKeeps(t0, T(), Op.Insert(key, payload));
      KeepsTrans(before, t0, T());
      TakesNone(t0, T());
      TakesOn(before, t0, T());
      return Ok(version);
    }

    /** Updates a key: succeeds exactly if the key is there; first the new record, then the end of the old one. */
    method Update(key: nat, payload: nat) returns (r: Result<nat, Reason>)
      requires Valid() && key <= MAX_KEY
      modifies this
      ensures Valid() && oldest == old(oldest) && Keeps(old(T()), T()) && Takes(old(T()), T(), {})
      ensures r.Ok? <==> At(old(history), key, old(clock)).Some?
      ensures r.Ok? ==>
                && old(clock) <= r.value && clock == r.value + 1
                && history == old(history) + [Commit(r.value, Op.Update(key, payload))]
      ensures r.Err? ==> r.error in {KeyDoesNotExist, KeyAlreadyDeleted} && history == old(history)
      ensures r.Err? ==>
                forall q: nat ::
                  q < |pages| == |meta| && IsLinked(meta[q]) && meta[q].height == 1 && Contains(meta[q].fence, key) ==>
                  (r.error == KeyDoesNotExist <==>
                     forall i :: 0 <= i < |Records(pages[q])| ==> Records(pages[q])[i].key != key)
    {
      hide Inv, GraveOrder, Steady, Exact, LeafWrite, Writes, LeafGood, Filter, LastWithKey, Keeps, Takes;
      HorizonHolds(T());
      CommitsAreOld(T());
      ghost var before := T();
      var leaf, repairs := WriteDescent(key);
      ghost var t0 := T();
      LeafFacts(t0, leaf, key);
      OnlyLeafOf(t0, leaf, key);
      SameNow(before, t0, key);
      var last := LastWithKey(Records(pages[leaf]), key);
      if last.None? {
        return Err(KeyDoesNotExist);
      } else if !pages[leaf].recordData[last.value].Live() {
        return Err(KeyAlreadyDeleted);
      }
      var len, version := Sum(pages[leaf]), clock;
      clock := clock + 1;
      pages := pages[leaf := PushRecord(pages[leaf], Record(key, payload, version, None), len)];
      pages := pages[leaf := CommitDelta(pages[leaf], 1, 0)];
      InsertedRecords(t0.pages[leaf], Record(key, payload, version, None));
      var previous := LastWithKey(Records(pages[leaf])[..len], key);
      pages := pages[leaf := StampDeleted(pages[leaf], previous.value, version)];
      pages := pages[leaf := CommitDelta(pages[leaf], -1, 1)];
      history := history + [Commit(version, Op.Update(key, payload))];
      UpdateWrites(t0.pages[leaf], meta[leaf].fence, version, previous.value, payload);
      WriteStep(t0, T(), leaf, pages[leaf], Op.Update(key, payload));
      WriteFinishes(t0, T(), leaf, Op.Update(key, payload));
      CommitKeeps(t0, T(), Op.Update(key, payload));
      KeepsTrans(before, t0, T());
      TakesNone(t0, T());
      TakesOn(before, t0, T());
      return Ok(version);
    }

    /** Deletes a key: succeeds exactly if the key is there. A version is drawn in any case. */
    method Delete(key: nat) returns (r: Result<nat, Reason>)
      requires Valid() && key <= MAX_KEY
      modifies this
      ensures Valid() && oldest == old(oldest) && Keeps(old(T()), T()) && Takes(old(T()), T(), {})
      ensures r.Ok? <==> At(old(history), key, old(clock)).Some?
      ensures r.Ok? ==>
                && old(clock) <= r.value && clock == r.value + 1
                && history == old(history) + [Commit(r.value, Op.Delete(key))]
      ensures old(clock) < clock
      ensures r.Err? ==> r.error in {KeyDoesNotExist, KeyAlreadyDeleted} && history == old(history)
      ensures r.Err? ==>
                forall q: nat ::
                  q < |pages| == |meta| && IsLinked(meta[q]) && meta[q].height == 1 && Contains(meta[q].fence, key) ==>
                  (r.error == KeyDoesNotExist <==>
                     forall i :: 0 <= i < |Records(pages[q])| ==> Records(pages[q])[i].key != key)
    {
      hide Inv, GraveOrder, Steady, Exact, LeafWrite, Writes, LeafGood, Filter, LastWithKey, Keeps, Takes;
      HorizonHolds(T());
      CommitsAreOld(T());
      ghost var before := T();
      var leaf, repairs := WriteDescent(key);
      ghost var t0 := T();
      LeafFacts(t0, leaf, key);
      OnlyLeafOf(t0, leaf, key);
      SameNow(before, t0, key);
      var version := clock;
      clock := clock + 1;
      DrawKeepsInv(t0, T());
      CommitKeeps(t0, T(), Op.Delete(key));
      KeepsTrans(before, t0, T());
      TakesNone(t0, T());
      TakesOn(before, t0, T());
      var last := LastWithKey(Records(pages[leaf]), key);
      if last.None? {
        return Err(KeyDoesNotExist);
      } else if !pages[leaf].recordData[last.value].Live() {
        return Err(KeyAlreadyDeleted);
      }
      LastLive(Records(pages[leaf]), last.value);
      pages := pages[leaf := StampDeleted(pages[leaf], last.value, version)];
      pages := pages[leaf := CommitDelta(pages[leaf], -1, 1)];
      history := history + [Commit(version, Op.Delete(key))];
      DeleteWrites(t0.pages[leaf], meta[leaf].fence, version, last.value);
      WriteStep(t0, T(), leaf, pages[leaf], Op.Delete(key));
      WriteFinishes(t0, T(), leaf, Op.Delete(key));
      CommitKeeps(t0, T(), Op.Delete(key));
      KeepsTrans(before, t0, T());
      TakesNone(t0, T());
      TakesOn(before, t0, T());
      return Ok(version);
    }

    /** Whatever is executed, the present of the tree is what the same operations make of a plain map. */
    method ExecuteAll(ops: seq<Op>)
      requires Valid() && forall op :: op in ops ==> op.key <= MAX_KEY
      modifies this
      ensures Valid() && Keeps(old(T()), T()) && Takes(old(T()), T(), {})
      ensures Replay(history, clock) == Execute(old(Replay(history, clock)), ops)
      ensures |ops| > 0 ==>
                var op, now := ops[|ops| - 1], Replay(history, clock);
                var before := Execute(old(Replay(history, clock)), ops[..|ops| - 1]);
                && (forall k: nat :: k != op.key ==>
                      (k in now <==> k in before) && (k in before ==> now[k] == before[k]))
                && (op.Delete? ==> op.key !in now)
                && (op.Update? ==> (op.key in now <==> op.key in before))
                && (op.Update? && op.key in before ==> now[op.key] == op.payload)
                && (op.Insert? ==> op.key in now)
                && (op.Insert? ==> now[op.key] == if op.key in before then before[op.key] else op.payload)
    {
      hide Inv, GraveOrder, Keeps, Replay, Accepts, Apply, Takes;
      ghost var before := T();
      KeepsSelf(before);
      TakesNone(before, before);
      var i := 0;
      while i < |ops|
        invariant 0 <= i <= |ops| && Valid() && Keeps(before, T()) && Takes(before, T(), {})
        invariant Replay(history, clock) == Execute(old(Replay(history, clock)), ops[..i])
      {
        ghost var t0 := T();
        assert ops[i] in ops;
        var r: Result<nat, Reason>;
        match ops[i] {
          case Insert(key, payload) => r := Insert(key, payload);
          case Update(key, payload) => r := Update(key, payload);
          case Delete(key) => r := Delete(key);
        }
        KeepsTrans(before, t0, T());
        TakesOn(before, t0, T());
        KeepsClock(t0, T());
        Executed(t0, T(), ops[i], r.Ok?, if r.Ok? then r.value else 0);
        assert ops[..i + 1][..i] == ops[..i];
        i := i + 1;
      }
      assert ops[..i] == ops;
      if |ops| > 0 {
        assert ops == ops[..|ops| - 1] + [ops[|ops| - 1]];
        ExecuteLast(old(Replay(history, clock)), ops[..|ops| - 1], ops[|ops| - 1]);
      }
    }

    /**
       A point read at any snapshot that is still kept finds what the history says, and the leaf lies
       exactly at the height stored with the root.
     */
    method PointRead(key: nat, v: nat) returns (r: Option<nat>, ghost steps: nat)
      requires Valid() && key <= MAX_KEY && horizon <= v
      ensures r == At(history, key, v)
      ensures RootFor(roots, v).Some? && steps + 1 == roots[RootFor(roots, v).value].height
    {
      hide Inv, Route, Visible;
      ReadRoot(T(), key, v);
      var page: nat := roots[RootFor(roots, v).value].page;
      PageKindAt(T(), page, key, v);
      steps := 0;
      while pages[page].Index?
        invariant Visible(T(), page, key, v) && page < |pages| == |meta| && meta[page].Linked?
        invariant pages[page].Index? <==> meta[page].height > 1
        invariant meta[page].height >= 1 && steps + meta[page].height == roots[RootFor(roots, v).value].height
        decreases meta[page].height
      {
        ReadStep(T(), page, key, v);
        page := Entries(pages[page])[Route(Entries(pages[page]), key, v).value].child;
        PageKindAt(T(), page, key, v);
        steps := steps + 1;
      }
      ReadLeaf(T(), page, key, v);
      r := PointAnswer(Records(pages[page]), key, v);
    }
  }
}
