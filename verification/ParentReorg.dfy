/**
 Reorganizations below a parent page: one or two active entries are marked obsolete and one or
 two entries for new pages that cover the same keys are appended.
 */
module ParentReorg {
  import opened Util
  import opened Fences
  import opened History
  import opened Pages
  import opened Fill
  import opened Smo
  import opened TreeModel
  import opened LeafWrites
  import opened Reorg

  datatype Fresh = Fresh(fence: Fence, page: nat)

  ghost function Children(es: seq<Entry>, olds: set<nat>): set<nat>
    requires forall i :: i in olds ==> i < |es|
  {
    set i | i in olds :: es[i].child
  }

  ghost predicate IsFresh(fs: seq<Fresh>, b: nat) { exists i :: 0 <= i < |fs| && fs[i].page == b }

  ghost function Born(fs: seq<Fresh>, w: nat, h: nat): map<nat, Meta> {
    if |fs| == 0 then map[] else Born(fs[..|fs| - 1], w, h)[fs[|fs| - 1].page := Linked(fs[|fs| - 1].fence, w, None, h)]
  }

  lemma {:induction false} BornEntries(fs: seq<Fresh>, w: nat, h: nat)
    requires forall i, j :: 0 <= i < j < |fs| ==> fs[i].page != fs[j].page
    ensures forall i :: 0 <= i < |fs| ==>
              fs[i].page in Born(fs, w, h) && Born(fs, w, h)[fs[i].page] == Linked(fs[i].fence, w, None, h)
    ensures forall b :: b in Born(fs, w, h) ==> IsFresh(fs, b)
  {
    if |fs| > 0 {
      var init := fs[..|fs| - 1];
      assert forall i :: 0 <= i < |init| ==> init[i] == fs[i];
      BornEntries(init, w, h);
      forall b | b in Born(fs, w, h) ensures IsFresh(fs, b) {
        if b in Born(init, w, h) {
          var i :| 0 <= i < |init| && init[i].page == b;
          assert fs[i].page == b;
        }
      }
    }
  }

  /** The entries of the parent before and after. */
  ghost predicate EntriesReplaced(es: seq<Entry>, es': seq<Entry>, olds: set<nat>, fs: seq<Fresh>, w: nat) {
    && |es'| == |es| + |fs| && |fs| > 0
    && (forall i :: 0 <= i < |es| ==> es'[i] == if i in olds then es[i].(obsolete := true) else es[i])
    && forall i :: |es| <= i < |es'| ==> es'[i] == Entry(fs[i - |es|].fence, w, false, fs[i - |es|].page)
  }

  ghost predicate OldsActive(es: seq<Entry>, olds: set<nat>) {
    forall i :: i in olds ==> i < |es| && es[i].Active()
  }

  ghost predicate InOlds(es: seq<Entry>, olds: set<nat>, k: nat) {
    exists i :: i in olds && i < |es| && Contains(es[i].fence, k)
  }

  ghost predicate InFresh(fs: seq<Fresh>, k: nat) {
    exists j :: 0 <= j < |fs| && Contains(fs[j].fence, k)
  }

  /** The new fences are disjoint and cover exactly the keys of the replaced entries. */
  ghost predicate SameKeys(es: seq<Entry>, olds: set<nat>, fs: seq<Fresh>) {
    && (forall j :: 0 <= j < |fs| ==> ValidFence(fs[j].fence))
    && (forall i, j :: 0 <= i < j < |fs| ==> Disjoint(fs[i].fence, fs[j].fence) && fs[i].page != fs[j].page)
    && forall k: nat :: InOlds(es, olds, k) <==> InFresh(fs, k)
  }

  ghost predicate Replaces(t0: Tree, t1: Tree, p: nat, olds: set<nat>, fs: seq<Fresh>) {
    && p < |t0.pages| == |t0.meta| && IsLinked(t0.meta[p]) && t0.meta[p].height > 1
    && t0.pages[p].Index? && t1.roots == t0.roots
    && OldsActive(Entries(t0.pages[p]), olds)
    && SameKeys(Entries(t0.pages[p]), olds, fs)
    && CommitStep(t0, t1, Children(Entries(t0.pages[p]), olds), Born(fs, t0.clock, t0.meta[p].height - 1), {p})
    && t1.pages[p].Index? && Capacity(t1.pages[p]) == Capacity(t0.pages[p]) && Exact(t1.pages[p])
    && EntriesReplaced(Entries(t0.pages[p]), Entries(t1.pages[p]), olds, fs, t0.clock)
  }

  /** What the proofs below use of a parent before the replacement. */
  ghost predicate ParentOk(t: Tree, p: nat) {
    p < |t.pages| == |t.meta| && IsLinked(t.meta[p]) && t.meta[p].height > 1 && t.pages[p].Index?
    && IndexGood(t.meta, Entries(t.pages[p]), t.meta[p].fence, t.meta[p].height, t.clock)
  }

  lemma DyingBelow(t0: Tree, p: nat, olds: set<nat>, c: nat) returns (i: nat)
    requires ParentOk(t0, p)
    requires OldsActive(Entries(t0.pages[p]), olds)
    requires c in Children(Entries(t0.pages[p]), olds)
    ensures i in olds && i < |Entries(t0.pages[p])| && Entries(t0.pages[p])[i].child == c
    ensures Entries(t0.pages[p])[i].Active()
    ensures c < |t0.meta| && IsLinked(t0.meta[c]) && t0.meta[c].fence == Entries(t0.pages[p])[i].fence
    ensures t0.meta[c].height + 1 == t0.meta[p].height && Covers(t0.meta[p].fence, t0.meta[c].fence)
    ensures ValidFence(t0.meta[c].fence)
  {
    i :| i in olds && Entries(t0.pages[p])[i].child == c;
    assert ChildOk(t0.meta, Entries(t0.pages[p])[i], t0.meta[p].height);
  }

  /** The keys of every page are an interval. */
  ghost predicate FencesOk(meta: seq<Meta>) {
    forall i :: 0 <= i < |meta| && meta[i].Linked? ==> ValidFence(meta[i].fence)
  }

  /** The replaced children have no other parent. */
  lemma ReplaceNoOrphans(t0: Tree, p: nat, olds: set<nat>)
    requires Apart(t0.meta) && ParentOk(t0, p) && OldsActive(Entries(t0.pages[p]), olds)
    ensures forall c :: c in Children(Entries(t0.pages[p]), olds) ==> c < |t0.meta| && t0.meta[c].Linked?
    ensures NoOrphans(t0.meta, Children(Entries(t0.pages[p]), olds), {p})
  {
    forall c | c in Children(Entries(t0.pages[p]), olds) ensures c < |t0.meta| && t0.meta[c].Linked? {
      var i := DyingBelow(t0, p, olds, c);
    }
    var dying := Children(Entries(t0.pages[p]), olds);
    forall q, c | 0 <= q < |t0.meta| && IsLinked(t0.meta[q]) && q !in dying && q !in {p} && c in dying
      && t0.meta[c].height + 1 == t0.meta[q].height
      ensures Disjoint(t0.meta[q].fence, t0.meta[c].fence)
    {
      var i := DyingBelow(t0, p, olds, c);
      ApartPair(t0.meta, p, q);
    }
  }

  lemma ApartPair(meta: seq<Meta>, i: nat, j: nat)
    requires Apart(meta) && i < |meta| && j < |meta| && i != j && IsLinked(meta[i]) && IsLinked(meta[j])
    requires meta[i].height == meta[j].height
    ensures Disjoint(meta[i].fence, meta[j].fence)
  {
    if j < i { assert Disjoint(meta[j].fence, meta[i].fence); }
  }

  /** Whoever shares a key with a new fence, at the height of the children, is one of the replaced pages. */
  lemma SharedKeyDies(t0: Tree, p: nat, olds: set<nat>, fs: seq<Fresh>, j: nat, q: nat, k: nat)
    requires Apart(t0.meta) && ParentOk(t0, p) && OldsActive(Entries(t0.pages[p]), olds)
    requires SameKeys(Entries(t0.pages[p]), olds, fs)
    requires j < |fs| && q < |t0.meta| && IsLinked(t0.meta[q]) && t0.meta[q].height + 1 == t0.meta[p].height
    requires Contains(fs[j].fence, k) && Contains(t0.meta[q].fence, k)
    ensures q in Children(Entries(t0.pages[p]), olds)
  {
    var es := Entries(t0.pages[p]);
    assert InOlds(es, olds, k) by { assert InFresh(fs, k); }
    var i :| i in olds && i < |es| && Contains(es[i].fence, k);
    assert ChildOk(t0.meta, es[i], t0.meta[p].height);
    OnlyOne(t0.meta, es[i].child, q, k);
  }

  lemma FreshApart(t0: Tree, p: nat, olds: set<nat>, fs: seq<Fresh>, j: nat, q: nat)
    requires FencesOk(t0.meta) && Apart(t0.meta) && ParentOk(t0, p)
    requires OldsActive(Entries(t0.pages[p]), olds) && SameKeys(Entries(t0.pages[p]), olds, fs)
    requires j < |fs| && q < |t0.meta| && IsLinked(t0.meta[q]) && t0.meta[q].height + 1 == t0.meta[p].height
    requires q !in Children(Entries(t0.pages[p]), olds)
    ensures Disjoint(fs[j].fence, t0.meta[q].fence)
  {
    var k := Max(fs[j].fence.lower, t0.meta[q].fence.lower);
    assert ValidFence(fs[j].fence) && ValidFence(t0.meta[q].fence);
    if Contains(fs[j].fence, k) && Contains(t0.meta[q].fence, k) {
      SharedKeyDies(t0, p, olds, fs, j, q, k);
    }
  }

  lemma ReplaceBornApart(t0: Tree, p: nat, olds: set<nat>, fs: seq<Fresh>)
    requires FencesOk(t0.meta) && Apart(t0.meta) && ParentOk(t0, p)
    requires OldsActive(Entries(t0.pages[p]), olds) && SameKeys(Entries(t0.pages[p]), olds, fs)
    ensures BornApart(t0.meta, Children(Entries(t0.pages[p]), olds), Born(fs, t0.clock, t0.meta[p].height - 1))
  {
    FreshPages(Entries(t0.pages[p]), olds, fs);
    hide Apart, IndexGood, FencesOk, ValidFence;
    var dying, born := Children(Entries(t0.pages[p]), olds), Born(fs, t0.clock, t0.meta[p].height - 1);
    BornEntries(fs, t0.clock, t0.meta[p].height - 1);
    forall b, q | b in born && IsLinked(born[b]) && 0 <= q < |t0.meta| && IsLinked(t0.meta[q]) && q !in dying
      && t0.meta[q].height == born[b].height
      ensures Disjoint(born[b].fence, t0.meta[q].fence)
    {
      var j :| 0 <= j < |fs| && fs[j].page == b;
      FreshApart(t0, p, olds, fs, j, q);
    }
    forall b, c | b in born && c in born && b != c && IsLinked(born[b]) && IsLinked(born[c])
      && born[b].height == born[c].height
      ensures Disjoint(born[b].fence, born[c].fence)
    {
      var i :| 0 <= i < |fs| && fs[i].page == b;
      var j :| 0 <= j < |fs| && fs[j].page == c;
      assert Disjoint(fs[Min(i, j)].fence, fs[Max(i, j)].fence);
    }
  }

  lemma FreshMeta(t0: Tree, t1: Tree, p: nat, olds: set<nat>, fs: seq<Fresh>, j: nat)
    requires Replaces(t0, t1, p, olds, fs) && j < |fs|
    ensures fs[j].page < |t1.meta| && t1.meta[fs[j].page] == Linked(fs[j].fence, t0.clock, None, t0.meta[p].height - 1)
    ensures fs[j].page != p
  {
    hide Exact, EntriesReplaced, OldsActive;
    FreshPages(Entries(t0.pages[p]), olds, fs);
    BornEntries(fs, t0.clock, t0.meta[p].height - 1);
    assert fs[j].page in Born(fs, t0.clock, t0.meta[p].height - 1);
  }

  lemma FreshPages(es: seq<Entry>, olds: set<nat>, fs: seq<Fresh>)
    requires SameKeys(es, olds, fs)
    ensures forall i, j :: 0 <= i < j < |fs| ==> fs[i].page != fs[j].page
  {
  }

  // ---------------------------------------------------------------- readers at the parent

  lemma ParentServesOld(t0: Tree, t1: Tree, p: nat, olds: set<nat>, fs: seq<Fresh>, k: nat, v: nat)
    requires MetaOk(t0) && ParentOk(t0, p) && Serves(t0, p, k, v) && Replaces(t0, t1, p, olds, fs)
    requires v < t0.clock || !InOlds(Entries(t0.pages[p]), olds, k)
    ensures Serves(t1, p, k, v)
  {
    hide IndexGood, SameKeys, Exact;
    var es, es' := Entries(t0.pages[p]), Entries(t1.pages[p]);
    var i := Route(es, k, v).value;
    assert RoutedTo(t0, p, es[i], v);
    RouteKept(es, es', olds, fs, t0.clock, k, v);
    RoutedStays(t0, p, olds, i, k, v);
    ParentWithin(t0, t1, p, olds, fs);
    KeptWhole(t0, t1, p, olds, fs, i, k, v);
    hide Within, WholeFence;
  }

  /** An entry that stays is chosen for every key of its fence, before and after. */
  lemma KeptWhole(t0: Tree, t1: Tree, p: nat, olds: set<nat>, fs: seq<Fresh>, i: nat, k: nat, v: nat)
    requires MetaOk(t0) && ParentOk(t0, p) && Replaces(t0, t1, p, olds, fs)
    requires (v < t0.clock || !InOlds(Entries(t0.pages[p]), olds, k))
    requires Route(Entries(t0.pages[p]), k, v) == Some(i) && RoutedTo(t0, p, Entries(t0.pages[p])[i], v)
    requires WholeFence(Entries(t0.pages[p]), i, v)
    ensures p < |t1.pages| && WholeFence(Entries(t1.pages[p]), i, v)
  {
    var es := Entries(t0.pages[p]);
    ReplacesParts(t0, t1, p, olds, fs);
    ParentKept(t0, t1, p, olds, fs);
    RoutedStays(t0, p, olds, i, k, v);
    KeptActive(t0, p, i, v);
    hide IndexGood, SameKeys, Exact, Born, Children, Replaces, RoutedTo, MetaOk, EntriesReplaced;
    forall q: nat | Contains(es[i].fence, q) ensures Route(Entries(t1.pages[p]), q, v) == Some(i) {
      if v >= t0.clock { OldSharesKey(t0, p, olds, i, q); }
      RouteKept(es, Entries(t1.pages[p]), olds, fs, t0.clock, q, v);
    }
    KeptFence(es, Entries(t1.pages[p]), olds, fs, t0.clock, i);
  }

  lemma KeptFence(es: seq<Entry>, es': seq<Entry>, olds: set<nat>, fs: seq<Fresh>, w: nat, i: nat)
    requires EntriesReplaced(es, es', olds, fs, w) && i < |es|
    ensures i < |es'| && es'[i].fence == es[i].fence
  {
  }

  lemma KeptActive(t0: Tree, p: nat, i: nat, v: nat)
    requires MetaOk(t0) && ParentOk(t0, p) && i < |Entries(t0.pages[p])| && RoutedTo(t0, p, Entries(t0.pages[p])[i], v)
    ensures v >= t0.clock ==> Entries(t0.pages[p])[i].Active()
  {
    hide IndexGood;
  }

  lemma OldSharesKey(t0: Tree, p: nat, olds: set<nat>, i: nat, q: nat)
    requires ParentOk(t0, p) && OldsActive(Entries(t0.pages[p]), olds) && i < |Entries(t0.pages[p])|
    requires Entries(t0.pages[p])[i].Active()
    requires Contains(Entries(t0.pages[p])[i].fence, q)
    ensures InOlds(Entries(t0.pages[p]), olds, q) ==> i in olds
  {
    var es := Entries(t0.pages[p]);
    if InOlds(es, olds, q) {
      var m :| m in olds && m < |es| && Contains(es[m].fence, q);
      ActiveDisjointPair(es, t0.meta[p].fence, i, m);
    }
  }

  lemma ParentWithin(t0: Tree, t1: Tree, p: nat, olds: set<nat>, fs: seq<Fresh>)
    requires ParentOk(t0, p) && Replaces(t0, t1, p, olds, fs) && Within(Entries(t0.pages[p]), t0.meta[p].fence)
    ensures Within(Entries(t1.pages[p]), t0.meta[p].fence)
  {
    ReplacesParts(t0, t1, p, olds, fs);
    hide IndexGood, SameKeys, Exact, CommitStep;
    var es, es' := Entries(t0.pages[p]), Entries(t1.pages[p]);
    forall i | 0 <= i < |es'| ensures Covers(t0.meta[p].fence, es'[i].fence) {
      if i >= |es| { FreshInside(t0, p, olds, fs, i - |es|); }
    }
  }

  lemma ParentServesNew(t0: Tree, t1: Tree, p: nat, olds: set<nat>, fs: seq<Fresh>, k: nat, v: nat)
    requires MetaOk(t0) && ParentOk(t0, p) && Replaces(t0, t1, p, olds, fs)
    requires t0.clock <= v && InOlds(Entries(t0.pages[p]), olds, k) && Within(Entries(t0.pages[p]), t0.meta[p].fence)
    ensures Serves(t1, p, k, v)
  {
    hide *;
    ReplacesParts(t0, t1, p, olds, fs);
    ParentKept(t0, t1, p, olds, fs);
    ParentWithin(t0, t1, p, olds, fs);
    var es, es' := Entries(t0.pages[p]), Entries(t1.pages[p]);
    var j := RouteFresh(es, es', olds, fs, t0.clock, k, v);
    FreshInside(t0, p, olds, fs, j);
    FreshMeta(t0, t1, p, olds, fs, j);
    FreshEntry(es, es', olds, fs, t0.clock, j);
    FreshWhole(es, es', olds, fs, t0.clock, v, j);
    ServesBy(t1, p, |es| + j, k, v);
  }

  lemma ParentKept(t0: Tree, t1: Tree, p: nat, olds: set<nat>, fs: seq<Fresh>)
    requires ParentOk(t0, p) && Replaces(t0, t1, p, olds, fs)
    ensures t1.meta[p] == t0.meta[p] && t1.pages[p].Index? && t1.meta[p].Linked? && t1.meta[p].height > 1
    ensures EntriesReplaced(Entries(t0.pages[p]), Entries(t1.pages[p]), olds, fs, t0.clock)
    ensures SameKeys(Entries(t0.pages[p]), olds, fs)
  {
    hide IndexGood, SameKeys, Exact, Born, Children, EntriesReplaced;
  }

  lemma FreshEntry(es: seq<Entry>, es': seq<Entry>, olds: set<nat>, fs: seq<Fresh>, w: nat, j: nat)
    requires EntriesReplaced(es, es', olds, fs, w) && j < |fs|
    ensures |es'| == |es| + |fs| && es'[|es| + j] == Entry(fs[j].fence, w, false, fs[j].page)
  {
  }

  lemma FreshWhole(es: seq<Entry>, es': seq<Entry>, olds: set<nat>, fs: seq<Fresh>, w: nat, v: nat, j: nat)
    requires EntriesReplaced(es, es', olds, fs, w) && SameKeys(es, olds, fs) && w <= v && j < |fs|
    ensures WholeFence(es', |es| + j, v)
  {
    hide Route;
    forall q: nat | Contains(fs[j].fence, q) ensures Route(es', q, v) == Some(|es| + j) {
      assert InFresh(fs, q);
      var m := RouteFresh(es, es', olds, fs, w, q, v);
      OneFresh(fs, j, m, q);
    }
  }

  lemma OneFresh(fs: seq<Fresh>, i: nat, j: nat, k: nat)
    requires (forall i, j :: 0 <= i < j < |fs| ==> Disjoint(fs[i].fence, fs[j].fence))
    requires i < |fs| && j < |fs| && Contains(fs[i].fence, k) && Contains(fs[j].fence, k)
    ensures i == j
  {
  }

  /** A page serves a key if the routed entry leads to a page published under the entry's fence. */
  lemma ServesBy(t: Tree, p: nat, i: nat, k: nat, v: nat)
    requires p < |t.pages| && p < |t.meta| && t.meta[p].Linked? && t.meta[p].height > 1 && t.pages[p].Index?
    requires Within(Entries(t.pages[p]), t.meta[p].fence) && i < |Entries(t.pages[p])|
    requires Route(Entries(t.pages[p]), k, v) == Some(i)
    requires WholeFence(Entries(t.pages[p]), i, v)
    requires var e := Entries(t.pages[p])[i];
             && !e.obsolete && e.version <= v && e.child < |t.meta|
             && t.meta[e.child] == Linked(e.fence, e.version, None, t.meta[p].height - 1)
    ensures Serves(t, p, k, v)
  {
  }

  lemma ParentServes(t0: Tree, t1: Tree, p: nat, olds: set<nat>, fs: seq<Fresh>, k: nat, v: nat)
    requires MetaOk(t0) && ParentOk(t0, p) && AllServe(t0) && Replaces(t0, t1, p, olds, fs) && Visible(t1, p, k, v)
    ensures Serves(t1, p, k, v)
  {
    assert Visible(t0, p, k, v) && Serves(t0, p, k, v);
    hide Serves, SameKeys, IndexGood, Exact;
    if v < t0.clock || !InOlds(Entries(t0.pages[p]), olds, k) {
      ParentServesOld(t0, t1, p, olds, fs, k, v);
    } else {
      ParentServesNew(t0, t1, p, olds, fs, k, v);
    }
  }

  /** The route of a version below `w`, or of a key outside the replaced fences, stays. */
  lemma RouteKept(es: seq<Entry>, es': seq<Entry>, olds: set<nat>, fs: seq<Fresh>, w: nat, k: nat, v: nat)
    requires EntriesReplaced(es, es', olds, fs, w) && SameKeys(es, olds, fs) && Route(es, k, v).Some?
    requires v < w || !InOlds(es, olds, k)
    ensures Route(es', k, v) == Route(es, k, v)
  {
    var i := Route(es, k, v).value;
    assert Fits(es'[i], k, v);
    forall j | i < j < |es'| ensures !Fits(es'[j], k, v) {
      if j < |es| {
        assert !Fits(es[j], k, v);
      } else {
        assert Contains(fs[j - |es|].fence, k) ==> InFresh(fs, k);
      }
    }
  }

  /** From `w` on, a key of the replaced fences is routed to the one new entry that contains it. */
  lemma RouteFresh(es: seq<Entry>, es': seq<Entry>, olds: set<nat>, fs: seq<Fresh>, w: nat, k: nat,
                   v: nat) returns (j: nat)
    requires EntriesReplaced(es, es', olds, fs, w) && SameKeys(es, olds, fs) && w <= v && InOlds(es, olds, k)
    ensures j < |fs| && Contains(fs[j].fence, k) && Route(es', k, v) == Some(|es| + j)
  {
    assert InFresh(fs, k);
    j :| 0 <= j < |fs| && Contains(fs[j].fence, k);
    assert Fits(es'[|es| + j], k, v);
    forall m | |es| + j < m < |es'| ensures !Fits(es'[m], k, v) {
      assert Disjoint(fs[j].fence, fs[m - |es|].fence);
    }
  }

  /** The routed child is replaced exactly if its entry is. */
  lemma RoutedStays(t0: Tree, p: nat, olds: set<nat>, i: nat, k: nat, v: nat)
    requires ParentOk(t0, p) && Route(Entries(t0.pages[p]), k, v) == Some(i)
    requires RoutedTo(t0, p, Entries(t0.pages[p])[i], v)
    requires OldsActive(Entries(t0.pages[p]), olds)
    ensures Entries(t0.pages[p])[i].child in Children(Entries(t0.pages[p]), olds) <==> i in olds
    ensures i in olds ==> InOlds(Entries(t0.pages[p]), olds, k)
  {
    var es := Entries(t0.pages[p]);
    if es[i].child in Children(es, olds) {
      var j := DyingBelow(t0, p, olds, es[i].child);
      assert es[i].Active() && es[i].fence == es[j].fence;
      ActiveDisjointPair(es, t0.meta[p].fence, i, j);
    }
  }

  lemma ActiveDisjointPair(es: seq<Entry>, f: Fence, i: nat, j: nat)
    requires ActiveTiles(es, f) && i < |es| && j < |es| && es[i].Active() && es[j].Active()
    ensures i == j || Disjoint(es[i].fence, es[j].fence)
    ensures ValidFence(es[i].fence)
    ensures es[i].fence == es[j].fence ==> i == j
  {
    if i < j { assert Disjoint(es[i].fence, es[j].fence); }
    if j < i { assert Disjoint(es[j].fence, es[i].fence); }
  }

  /** New fences lie inside the fence of the parent. */
  lemma FreshInside(t0: Tree, p: nat, olds: set<nat>, fs: seq<Fresh>, j: nat)
    requires ParentOk(t0, p) && j < |fs| && SameKeys(Entries(t0.pages[p]), olds, fs)
    requires OldsActive(Entries(t0.pages[p]), olds)
    ensures Covers(t0.meta[p].fence, fs[j].fence)
  {
    var es := Entries(t0.pages[p]);
    var low, high := fs[j].fence.lower, fs[j].fence.upper;
    assert ValidFence(fs[j].fence) && InFresh(fs, low) && InFresh(fs, high);
    assert InOlds(es, olds, low) && InOlds(es, olds, high);
    var a :| a in olds && a < |es| && Contains(es[a].fence, low);
    var b :| b in olds && b < |es| && Contains(es[b].fence, high);
  }

  // ---------------------------------------------------------------- writers at the parent

  lemma TilesReplaced(es: seq<Entry>, es': seq<Entry>, f: Fence, olds: set<nat>, fs: seq<Fresh>, w: nat)
    requires ActiveTiles(es, f) && OldsActive(es, olds) && SameKeys(es, olds, fs)
    requires EntriesReplaced(es, es', olds, fs, w)
    requires forall j :: 0 <= j < |fs| ==> Covers(f, fs[j].fence)
    ensures ActiveTiles(es', f)
  {
    forall i | 0 <= i < |es'| && es'[i].Active() ensures ValidFence(es'[i].fence) && Covers(f, es'[i].fence) {
    }
    forall i, j | 0 <= i < j < |es'| && es'[i].Active() && es'[j].Active()
      ensures Disjoint(es'[i].fence, es'[j].fence)
    {
      if i >= |es| {
        assert Disjoint(fs[i - |es|].fence, fs[j - |es|].fence);
      } else if j >= |es| {
        KeptApart(es, f, olds, fs, i, j - |es|);
      } else {
        assert Disjoint(es[i].fence, es[j].fence);
      }
    }
    forall k: nat | Contains(f, k) ensures ActiveAt(es', k) {
      assert ActiveAt(es, k);
      var i :| 0 <= i < |es| && es[i].Active() && Contains(es[i].fence, k);
      if i in olds {
        assert InOlds(es, olds, k) && InFresh(fs, k);
        var j :| 0 <= j < |fs| && Contains(fs[j].fence, k);
        assert es'[|es| + j].Active();
      } else {
        assert es'[i].Active();
      }
    }
  }

  lemma KeptApart(es: seq<Entry>, f: Fence, olds: set<nat>, fs: seq<Fresh>, i: nat, j: nat)
    requires ActiveTiles(es, f) && OldsActive(es, olds) && SameKeys(es, olds, fs)
    requires i < |es| && i !in olds && es[i].Active() && j < |fs|
    ensures Disjoint(es[i].fence, fs[j].fence)
  {
    var k := Max(es[i].fence.lower, fs[j].fence.lower);
    assert ValidFence(es[i].fence) && ValidFence(fs[j].fence);
    if Contains(es[i].fence, k) && Contains(fs[j].fence, k) {
      assert InOlds(es, olds, k) by { assert InFresh(fs, k); }
      var m :| m in olds && m < |es| && Contains(es[m].fence, k);
      ActiveDisjointPair(es, f, i, m);
    }
  }

  lemma ChildrenReplaced(t0: Tree, t1: Tree, p: nat, olds: set<nat>, fs: seq<Fresh>)
    requires MetaOk(t0) && ParentOk(t0, p) && Replaces(t0, t1, p, olds, fs)
    ensures ChildrenOk(t1.meta, Entries(t1.pages[p]), t0.meta[p].height)
  {
    hide Exact;
    var es, es', h := Entries(t0.pages[p]), Entries(t1.pages[p]), t0.meta[p].height;
    forall i | 0 <= i < |es'| && es'[i].Active() ensures ChildOk(t1.meta, es'[i], h) {
      if i < |es| {
        assert i !in olds && ChildOk(t0.meta, es[i], h);
        KeptChild(t0, p, olds, i);
      } else {
        FreshMeta(t0, t1, p, olds, fs, i - |es|);
      }
    }
  }

  lemma KeptChild(t0: Tree, p: nat, olds: set<nat>, i: nat)
    requires ParentOk(t0, p) && OldsActive(Entries(t0.pages[p]), olds)
    requires i < |Entries(t0.pages[p])| && Entries(t0.pages[p])[i].Active() && i !in olds
    ensures Entries(t0.pages[p])[i].child !in Children(Entries(t0.pages[p]), olds)
  {
    var es := Entries(t0.pages[p]);
    if es[i].child in Children(es, olds) {
      var j := DyingBelow(t0, p, olds, es[i].child);
      assert ChildOk(t0.meta, es[i], t0.meta[p].height);
      ActiveDisjointPair(es, t0.meta[p].fence, i, j);
    }
  }

  lemma ParentLive(t0: Tree, t1: Tree, p: nat, olds: set<nat>, fs: seq<Fresh>)
    requires MetaOk(t0) && ParentOk(t0, p) && Replaces(t0, t1, p, olds, fs)
    requires LivePage(t0, t0.pages[p], t0.meta[p].fence, t0.meta[p].height)
    ensures LivePage(t1, t1.pages[p], t1.meta[p].fence, t1.meta[p].height)
  {
    hide Exact, SameKeys, ActiveTiles, ChildrenOk;
    var es, es' := Entries(t0.pages[p]), Entries(t1.pages[p]);
    forall j | 0 <= j < |fs| ensures Covers(t0.meta[p].fence, fs[j].fence) {
      FreshInside(t0, p, olds, fs, j);
    }
    TilesReplaced(es, es', t0.meta[p].fence, olds, fs, t0.clock);
    ChildrenReplaced(t0, t1, p, olds, fs);
    VersionsReplaced(es, es', olds, fs, t0.clock);
    assert es'[|es| + (|fs| - 1)].Active();
  }

  lemma VersionsReplaced(es: seq<Entry>, es': seq<Entry>, olds: set<nat>, fs: seq<Fresh>, w: nat)
    requires VersionsOk(es, w) && EntriesReplaced(es, es', olds, fs, w)
    ensures VersionsOk(es', w + 1)
  {
    forall i, j | 0 <= i < j < |es'| ensures es'[i].version <= es'[j].version {
      assert j < |es| ==> es[i].version <= es[j].version;
    }
  }

  // ---------------------------------------------------------------- roots and filling

  lemma ReplaceRoots(t0: Tree, t1: Tree, p: nat, olds: set<nat>, fs: seq<Fresh>)
    requires MetaOk(t0) && RootsOk(t0) && ParentOk(t0, p) && Replaces(t0, t1, p, olds, fs)
    ensures RootsOk(t1)
  {
    hide Exact, IndexGood, SameKeys, EntriesReplaced;
    var dying, born := Children(Entries(t0.pages[p]), olds), Born(fs, t0.clock, t0.meta[p].height - 1);
    FreshPages(Entries(t0.pages[p]), olds, fs);
    BornEntries(fs, t0.clock, t0.meta[p].height - 1);
    assert forall c :: c in dying ==> t0.meta[c].height + 1 == t0.meta[p].height by {
      forall c | c in dying ensures t0.meta[c].height + 1 == t0.meta[p].height {
        var i := DyingBelow(t0, p, olds, c);
      }
    }
    forall v: nat | t1.horizon <= v ensures RootServes(t1, v) {
      assert RootServes(t0, v);
      if t0.clock <= v {
        assert RootFor(t0.roots, v) == Some(|t0.roots| - 1);
      }
    }
  }

  lemma ParentIsOk(t0: Tree, t1: Tree, p: nat, olds: set<nat>, fs: seq<Fresh>)
    requires Inv(t0) && Replaces(t0, t1, p, olds, fs)
    ensures ParentOk(t0, p) && LivePage(t0, t0.pages[p], t0.meta[p].fence, t0.meta[p].height)
  {
    assert LivePage(t0, t0.pages[p], t0.meta[p].fence, t0.meta[p].height);
  }

  lemma ReplaceReady(t0: Tree, t1: Tree, p: nat, olds: set<nat>, fs: seq<Fresh>)
    requires MetaOk(t0) && Apart(t0.meta) && AllServe(t0) && RootsOk(t0) && ParentOk(t0, p)
    requires Replaces(t0, t1, p, olds, fs)
    requires LivePage(t0, t0.pages[p], t0.meta[p].fence, t0.meta[p].height)
    ensures NoOrphans(t0.meta, Children(Entries(t0.pages[p]), olds), {p})
    ensures BornApart(t0.meta, Children(Entries(t0.pages[p]), olds), Born(fs, t0.clock, t0.meta[p].height - 1))
    ensures p < |t1.pages| && p < |t1.meta| && t1.meta[p].Linked?
    ensures LivePage(t1, t1.pages[p], t1.meta[p].fence, t1.meta[p].height)
    ensures forall i, k: nat, v: nat :: i in {p} && Visible(t1, i, k, v) ==> Serves(t1, i, k, v)
    ensures RootsOk(t1)
  {
    ReplacesParts(t0, t1, p, olds, fs);
    hide *;
    FencesFromMeta(t0);
    ReplacesKeys(t0, t1, p, olds, fs);
    ReplaceNoOrphans(t0, p, olds);
    ReplaceBornApart(t0, p, olds, fs);
    ParentLive(t0, t1, p, olds, fs);
    forall i, k: nat, v: nat | i in {p} && Visible(t1, i, k, v) ensures Serves(t1, i, k, v) {
      ParentServes(t0, t1, p, olds, fs, k, v);
    }
    ReplaceRoots(t0, t1, p, olds, fs);
  }

  /** Replacing children of a page by new pages for the same keys keeps the invariant. */
  lemma ReplaceKeepsInv(t0: Tree, t1: Tree, p: nat, olds: set<nat>, fs: seq<Fresh>)
    requires Inv(t0) && Replaces(t0, t1, p, olds, fs)
    requires forall j :: 0 <= j < |fs| ==>
               Newborn(t1, fs[j].page) && Filling20(Capacity(t1.pages[fs[j].page])) <= t1.pages[fs[j].page].active
    requires p == Top(t0).page || Filling20(Capacity(t1.pages[p])) <= t1.pages[p].active
    ensures Inv(t1)
  {
    hide *;
    ParentIsOk(t0, t1, p, olds, fs);
    InvParts(t0);
    ReplacesParts(t0, t1, p, olds, fs);
    ReplaceFill(t0, t1, p, olds, fs);
    ReplaceReady(t0, t1, p, olds, fs);
    var dying, born := Children(Entries(t0.pages[p]), olds), Born(fs, t0.clock, t0.meta[p].height - 1);
    forall b | b in born ensures Newborn(t1, b) {
      NewbornAt(t1, fs, b);
    }
    CommitKeepsInv(t0, t1, dying, born, {p});
  }

  lemma FencesFromMeta(t: Tree)
    requires MetaOk(t)
    ensures FencesOk(t.meta)
  {
  }

  lemma ReplacesKeys(t0: Tree, t1: Tree, p: nat, olds: set<nat>, fs: seq<Fresh>)
    requires Replaces(t0, t1, p, olds, fs)
    ensures SameKeys(Entries(t0.pages[p]), olds, fs)
  {
    hide Exact, EntriesReplaced, SameKeys, CommitStep;
  }

  lemma NewbornAt(t: Tree, fs: seq<Fresh>, b: nat)
    requires IsFresh(fs, b) && forall j :: 0 <= j < |fs| ==> Newborn(t, fs[j].page)
    ensures Newborn(t, b)
  {
  }

  lemma InvParts(t: Tree)
    requires Inv(t)
    ensures MetaOk(t) && Apart(t.meta) && AllServe(t) && RootsOk(t) && FillOk(t)
  {
  }

  lemma ReplacesParts(t0: Tree, t1: Tree, p: nat, olds: set<nat>, fs: seq<Fresh>)
    requires Replaces(t0, t1, p, olds, fs)
    ensures p < |t0.meta| && p < |t0.pages| && |t1.pages| == |t0.pages| == |t1.meta| && t0.meta[p].Linked?
    ensures t0.meta[p].height > 1
    ensures OldsActive(Entries(t0.pages[p]), olds)
    ensures CommitStep(t0, t1, Children(Entries(t0.pages[p]), olds), Born(fs, t0.clock, t0.meta[p].height - 1), {p})
    ensures forall i :: i in Children(Entries(t0.pages[p]), olds) ==> i < |t0.meta| && t0.meta[i].Linked?
    ensures forall i :: i in olds ==> i < |Entries(t0.pages[p])|
    ensures forall j :: 0 <= j < |fs| ==> fs[j].page < |t1.pages|
    ensures forall b :: b in Born(fs, t0.clock, t0.meta[p].height - 1) ==> IsFresh(fs, b)
  {
    hide Exact, EntriesReplaced;
    FreshPages(Entries(t0.pages[p]), olds, fs);
    BornEntries(fs, t0.clock, t0.meta[p].height - 1);
  }

  lemma ReplaceFill(t0: Tree, t1: Tree, p: nat, olds: set<nat>, fs: seq<Fresh>)
    requires MetaOk(t0) && |t0.roots| > 0 && FillOk(t0) && Replaces(t0, t1, p, olds, fs)
    requires forall j :: 0 <= j < |fs| ==>
               Newborn(t1, fs[j].page) && Filling20(Capacity(t1.pages[fs[j].page])) <= t1.pages[fs[j].page].active
    requires p == Top(t0).page || Filling20(Capacity(t1.pages[p])) <= t1.pages[p].active
    ensures FillOk(t1)
  {
    hide Exact, SameKeys, EntriesReplaced, LivePage, LeafTrue;
    FreshPages(Entries(t0.pages[p]), olds, fs);
    BornEntries(fs, t0.clock, t0.meta[p].height - 1);
    forall i | 0 <= i < |t1.meta| && IsLinked(t1.meta[i]) && i != Top(t1).page
      ensures Filling20(Capacity(t1.pages[i])) <= t1.pages[i].active
    {
      if i in Born(fs, t0.clock, t0.meta[p].height - 1) {
        var j :| 0 <= j < |fs| && fs[j].page == i;
      }
    }
  }
}
