/**
 A reorganization below a parent page, published at a version that was drawn while the parent and
 the replaced children were latched.
 */
module WeaveBelow {
  import opened Util
  import opened Fences
  import opened History
  import opened Pages
  import opened Smo
  import opened TreeModel
  import opened LeafWrites
  import opened Reorg
  import opened ParentReorg
  import opened Publish
  import opened Snapshots
  import opened Weave

  /** The entries of page `c` are older than `w`: nothing has been published there since `w` was drawn. */
  ghost predicate OlderThan(t: Tree, c: nat, w: nat) { c < |t.pages| && VersionsOk(Entries(t.pages[c]), w) }

  /** The pages the entries in `olds` of page `p` lead to. */
  ghost function Replaced(t: Tree, p: nat, olds: set<nat>): set<nat> {
    set i | i in olds && p < |t.pages| && i < |Entries(t.pages[p])| :: Entries(t.pages[p])[i].child
  }

  lemma ReplacedAreChildren(t: Tree, p: nat, olds: set<nat>)
    requires p < |t.pages| && forall i :: i in olds ==> i < |Entries(t.pages[p])|
    ensures Replaced(t, p, olds) == Children(Entries(t.pages[p]), olds)
  {
  }

  /** Parent and children as they have been since `w` was drawn. */
  ghost predicate BelowHeld(t: Tree, p: nat, olds: set<nat>, w: nat) {
    && p < |t.pages| && p < |t.meta| && IsLinked(t.meta[p]) && t.meta[p].height > 1
    && OldsActive(Entries(t.pages[p]), olds) && OlderThan(t, p, w)
    && (t.meta[p].height > 2 ==> forall c :: c in Children(Entries(t.pages[p]), olds) ==> OlderThan(t, c, w))
  }

  /** Parent and children are as they were: the thread that holds them may still rely on them. */
  lemma HeldAgain(t0: Tree, t1: Tree, p: nat, olds: set<nat>, x: nat)
    requires BelowHeld(t0, p, olds, x) && p < |t1.pages| && p < |t1.meta| && t1.pages[p] == t0.pages[p]
    requires t1.meta[p] == t0.meta[p]
    requires forall c :: c in Replaced(t0, p, olds) ==>
               c < |t1.pages| && c < |t0.pages| && Entries(t1.pages[c]) == Entries(t0.pages[c])
    ensures BelowHeld(t1, p, olds, x) && Replaced(t1, p, olds) == Replaced(t0, p, olds)
  {
    ReplacedAreChildren(t0, p, olds);
    ReplacedAreChildren(t1, p, olds);
    hide VersionsOk, Replaced;
  }

  /** The new page holds active entries of the replaced ones. */
  ghost predicate CopiedIndex(t: Tree, b: nat, f: Fence, dying: set<nat>) {
    && b < |t.pages| && t.pages[b].Index? && |Entries(t.pages[b])| > 0
    && ActiveTiles(Entries(t.pages[b]), f)
    && (forall i, j :: 0 <= i < j < |Entries(t.pages[b])| ==>
        Entries(t.pages[b])[i].version <= Entries(t.pages[b])[j].version)
    && forall i :: 0 <= i < |Entries(t.pages[b])| ==> FromAny(t, Entries(t.pages[b])[i], dying)
  }

  ghost predicate FromAny(t: Tree, e: Entry, dying: set<nat>) { exists d :: d in dying && FromPage(t, e, d) }

  ghost predicate FromPage(t: Tree, e: Entry, d: nat) { d < |t.pages| && e.Active() && e in Entries(t.pages[d]) }

  /**
   What a publication stores: one store of the length of the parent makes the new pages visible, and the
   replaced ones count as dead. Whether the parent is still part of the tree is another matter.
   */
  ghost predicate StoredBelow(t0: Tree, t1: Tree, p: nat, olds: set<nat>, fs: seq<Fresh>, w: nat) {
    && p < |t0.pages| == |t0.meta| == |t1.pages| && t0.meta[p].Linked? && t0.meta[p].height > 1 && w < t0.clock
    && OldsActive(Entries(t0.pages[p]), olds) && SameKeys(Entries(t0.pages[p]), olds, fs)
    && (forall j :: 0 <= j < |fs| ==> fs[j].page < |t0.meta| && t0.meta[fs[j].page] == Unlinked)
    && (t0.meta[p].height > 2 ==>
          forall j :: 0 <= j < |fs| ==> CopiedIndex(t0, fs[j].page, fs[j].fence, Children(Entries(t0.pages[p]), olds)))
    && (t0.meta[p].height == 2 ==> forall j :: 0 <= j < |fs| ==> t0.pages[fs[j].page].Leaf?)
    && t1.pages[p].Index? && EntriesReplaced(Entries(t0.pages[p]), Entries(t1.pages[p]), olds, fs, w)
    && t1 == t0.(pages := t0.pages[p := t1.pages[p]],
                 meta := NewMeta(t0.meta, Children(Entries(t0.pages[p]), olds), Born(fs, w, t0.meta[p].height - 1), w))
  }

  /** A publication below a parent that is as it was when the version was drawn. */
  ghost predicate PublishedBelow(t0: Tree, t1: Tree, p: nat, olds: set<nat>, fs: seq<Fresh>, w: nat) {
    BelowHeld(t0, p, olds, w) && StoredBelow(t0, t1, p, olds, fs, w)
  }

  lemma ParentAt(t: Tree, p: nat, olds: set<nat>, w: nat)
    requires Woven(t) && BelowHeld(t, p, olds, w)
    ensures ParentOk(t.(clock := w), p) && LiveIndex(t, p)
  {
    WovenMeta(t);
    assert |t.meta| == |t.pages|;
    hide MetaOk, Apart, AllTurn, RootsOk, OldRootsGone;
    assert LiveIndex(t, p);
    hide ActiveTiles, ChildrenOk;
  }

  lemma BelowMeta(t0: Tree, t1: Tree, p: nat, olds: set<nat>, fs: seq<Fresh>, w: nat)
    requires Woven(t0) && PublishedBelow(t0, t1, p, olds, fs, w)
    ensures p < |t0.pages| && p < |t0.meta| && t0.meta[p].Linked?
    ensures forall i :: i in olds ==> i < |Entries(t0.pages[p])|
    ensures var dying, born := Children(Entries(t0.pages[p]), olds), Born(fs, w, t0.meta[p].height - 1);
            && MetaReady(t0.meta, dying, born, w) && p !in dying && p !in born
            && (forall c :: c in dying ==>
              c < |t0.meta| && t0.meta[c].Linked? && t0.meta[c].height + 1 == t0.meta[p].height)
            && (forall b :: b in born ==> born[b].Linked? && born[b].height + 1 == t0.meta[p].height)
  {
    hide *;
    BelowParts(t0, t1, p, olds, fs, w);
    ParentAt(t0, p, olds, w);
    FreshUnlinkedBelow(t0, t1, p, olds, fs, w);
    var dying, h := Children(Entries(t0.pages[p]), olds), t0.meta[p].height - 1;
    forall c | c in dying
      ensures c < |t0.meta| && IsLinked(t0.meta[c]) && t0.meta[c].Linked? && t0.meta[c].height + 1 == t0.meta[p].height
    {
      var i := DyingBelow(t0.(clock := w), p, olds, c);
      LinkedIs(t0.meta[c]);
    }
    FreshPages(Entries(t0.pages[p]), olds, fs);
    FreshFences(Entries(t0.pages[p]), olds, fs);
    BornLinked(t0.meta, fs, w, h);
    BornHeights(fs, w, h);
    ReadyFrom(t0.meta, dying, Born(fs, w, h), w, p);
  }

  lemma LinkedIs(m: Meta)
    requires IsLinked(m)
    ensures m.Linked? && m != Unlinked
  {
  }

  lemma ReadyFrom(m: seq<Meta>, dying: set<nat>, born: map<nat, Meta>, w: nat, p: nat)
    requires forall c :: c in dying ==>
               c < |m| && IsLinked(m[c]) && m[c].Linked? && p < |m| && m[p].Linked? && m[c].height + 1 == m[p].height
    requires forall b :: b in born ==> b < |m| && m[b] == Unlinked && IsLinked(born[b]) && born[b].birth == w
                                       && ValidFence(born[b].fence) && born[b].height >= 1
    requires p < |m| && IsLinked(m[p])
    ensures MetaReady(m, dying, born, w) && p !in dying && p !in born
  {
  }

  lemma FreshUnlinkedBelow(t0: Tree, t1: Tree, p: nat, olds: set<nat>, fs: seq<Fresh>, w: nat)
    requires PublishedBelow(t0, t1, p, olds, fs, w)
    ensures forall j :: 0 <= j < |fs| ==> fs[j].page < |t0.meta| && t0.meta[fs[j].page] == Unlinked
  {
    hide SameKeys, EntriesReplaced, CopiedIndex, NewMeta, Born, Children, BelowHeld;
  }

  lemma BornHeights(fs: seq<Fresh>, w: nat, h: nat)
    requires forall i, j :: 0 <= i < j < |fs| ==> fs[i].page != fs[j].page
    ensures forall b :: b in Born(fs, w, h) ==> Born(fs, w, h)[b].Linked? && Born(fs, w, h)[b].height == h
  {
    BornEntries(fs, w, h);
    hide Born;
    forall b | b in Born(fs, w, h) ensures Born(fs, w, h)[b].Linked? && Born(fs, w, h)[b].height == h {
      assert IsFresh(fs, b);
    }
  }

  lemma FreshFences(es: seq<Entry>, olds: set<nat>, fs: seq<Fresh>)
    requires SameKeys(es, olds, fs)
    ensures forall j :: 0 <= j < |fs| ==> ValidFence(fs[j].fence)
  {
  }

  lemma BelowWeaves(t0: Tree, t1: Tree, p: nat, olds: set<nat>, fs: seq<Fresh>, w: nat)
    requires Woven(t0) && PublishedBelow(t0, t1, p, olds, fs, w)
    ensures p < |t0.pages| && p < |t0.meta| && t0.meta[p].Linked? && t0.meta[p].height > 1
    ensures forall i :: i in olds ==> i < |Entries(t0.pages[p])|
    ensures Weaves(t0, t1, w, Children(Entries(t0.pages[p]), olds), Born(fs, w, t0.meta[p].height - 1), {p})
  {
    hide *;
    BelowParts(t0, t1, p, olds, fs, w);
    BelowMeta(t0, t1, p, olds, fs, w);
    BelowEquation(t0, t1, p, olds, fs, w);
    var dying, born := Children(Entries(t0.pages[p]), olds), Born(fs, w, t0.meta[p].height - 1);
    NewMetaStep(t0.meta, dying, born, w);
    WeavesIs(t0, t1, p, dying, born, w);
  }

  lemma WeavesIs(t0: Tree, t1: Tree, p: nat, dying: set<nat>, born: map<nat, Meta>, w: nat)
    requires w < t0.clock && |t0.meta| == |t0.pages| == |t1.pages| && p < |t0.pages|
    requires MetaStep(t0.meta, NewMeta(t0.meta, dying, born, w), dying, born, w)
    requires t1 == t0.(pages := t0.pages[p := t1.pages[p]], meta := NewMeta(t0.meta, dying, born, w))
    requires IsLinked(t0.meta[p]) && p !in dying && p !in born
    ensures Weaves(t0, t1, w, dying, born, {p})
  {
    hide MetaStep, NewMeta;
  }

  lemma BelowApart(t0: Tree, t1: Tree, p: nat, olds: set<nat>, fs: seq<Fresh>, w: nat)
    requires Woven(t0) && PublishedBelow(t0, t1, p, olds, fs, w)
    ensures forall c :: c in Children(Entries(t0.pages[p]), olds) ==> c < |t0.meta| && t0.meta[c].Linked?
    ensures NoOrphans(t0.meta, Children(Entries(t0.pages[p]), olds), {p})
    ensures BornApart(t0.meta, Children(Entries(t0.pages[p]), olds), Born(fs, w, t0.meta[p].height - 1))
  {
    ParentAt(t0, p, olds, w);
    WovenMeta(t0);
    FencesFromMeta(t0);
    hide Woven, MetaOk, EntriesReplaced, CopiedIndex, NewMeta, SameKeys, LiveIndex;
    hide Born, NoOrphans, BornApart, ParentOk, Apart;
    ReplaceNoOrphans(t0.(clock := w), p, olds);
    ReplaceBornApart(t0.(clock := w), p, olds, fs);
  }

  lemma WovenMeta(t: Tree)
    requires Woven(t)
    ensures MetaOk(t) && Apart(t.meta) && AllTurn(t) && RootsOk(t) && LiveIndexes(t)
  {
  }

  // ---------------------------------------------------------------- the new pages

  lemma BornStays(t0: Tree, t1: Tree, w: nat, dying: set<nat>, born: map<nat, Meta>, p: nat, b: nat)
    requires Weaves(t0, t1, w, dying, born, {p}) && b in born
    ensures b != p && b < |t1.meta| && t1.meta[b] == born[b]
    ensures b < |t1.pages| == |t0.pages| && t1.pages[b] == t0.pages[b]
  {
    assert p in {p};
  }

  lemma FreshIsBorn(t: Tree, p: nat, olds: set<nat>, fs: seq<Fresh>, w: nat, h: nat, j: nat)
    requires p < |t.pages| && SameKeys(Entries(t.pages[p]), olds, fs) && j < |fs|
    ensures fs[j].page in Born(fs, w, h) && Born(fs, w, h)[fs[j].page] == Linked(fs[j].fence, w, None, h)
  {
    FreshPages(Entries(t.pages[p]), olds, fs);
    hide SameKeys;
    BornEntries(fs, w, h);
    hide Born;
  }

  lemma FreshMetaBelow(t0: Tree, t1: Tree, p: nat, olds: set<nat>, fs: seq<Fresh>, w: nat, j: nat)
    requires Woven(t0) && PublishedBelow(t0, t1, p, olds, fs, w) && j < |fs|
    ensures fs[j].page < |t1.meta| && t1.meta[fs[j].page] == Linked(fs[j].fence, w, None, t0.meta[p].height - 1)
    ensures fs[j].page != p && fs[j].page < |t1.pages| == |t0.pages| && t1.pages[fs[j].page] == t0.pages[fs[j].page]
  {
    hide *;
    BelowParts(t0, t1, p, olds, fs, w);
    BelowWeaves(t0, t1, p, olds, fs, w);
    FreshIsBorn(t0, p, olds, fs, w, t0.meta[p].height - 1, j);
    BornStays(t0, t1, w, Children(Entries(t0.pages[p]), olds), Born(fs, w, t0.meta[p].height - 1), p, fs[j].page);
  }

  /** The children of the replaced pages lie two levels below `p` and keep their meta data. */
  lemma GrandchildStays(t0: Tree, t1: Tree, p: nat, olds: set<nat>, fs: seq<Fresh>, w: nat, c: nat)
    requires Woven(t0) && PublishedBelow(t0, t1, p, olds, fs, w)
    requires c < |t0.meta| && IsLinked(t0.meta[c]) && t0.meta[c].height + 2 == t0.meta[p].height
    ensures c < |t1.meta| && t1.meta[c] == t0.meta[c]
  {
    BelowMeta(t0, t1, p, olds, fs, w);
    hide Woven, SameKeys, EntriesReplaced, CopiedIndex, Born, BelowHeld;
    NewMetaStep(t0.meta, Children(Entries(t0.pages[p]), olds), Born(fs, w, t0.meta[p].height - 1), w);
  }

  /** An active entry of a replaced page leads to a live page that is not younger than `w`. */
  lemma SourceEntry(t0: Tree, p: nat, olds: set<nat>, w: nat, d: nat, e: Entry)
    requires Woven(t0) && BelowHeld(t0, p, olds, w) && t0.meta[p].height > 2
    requires d in Children(Entries(t0.pages[p]), olds) && FromPage(t0, e, d)
    ensures ChildOk(t0.meta, e, t0.meta[p].height - 1) && e.version < w && t0.meta[e.child].birth <= e.version
  {
    ParentAt(t0, p, olds, w);
    WovenMeta(t0);
    hide Woven, MetaOk, Apart, AllTurn, RootsOk;
    var i := DyingBelow(t0.(clock := w), p, olds, d);
    assert OlderThan(t0, d, w);
    assert LiveIndex(t0, d);
    var es := Entries(t0.pages[d]);
    var j :| 0 <= j < |es| && es[j] == e;
    assert ChildOk(t0.meta, es[j], t0.meta[d].height);
  }

  lemma FreshEntryBelow(t0: Tree, t1: Tree, p: nat, olds: set<nat>, fs: seq<Fresh>, w: nat, e: Entry)
    requires Woven(t0) && PublishedBelow(t0, t1, p, olds, fs, w) && t0.meta[p].height > 2
    requires FromAny(t0, e, Children(Entries(t0.pages[p]), olds))
    ensures e.Active() && ChildOk(t1.meta, e, t0.meta[p].height - 1) && e.version < w
    ensures e.child < |t1.meta| && t1.meta[e.child].Linked? && t1.meta[e.child].birth <= e.version
  {
    var d :| d in Children(Entries(t0.pages[p]), olds) && FromPage(t0, e, d);
    hide Woven, SameKeys, EntriesReplaced, CopiedIndex, Born, NewMeta;
    SourceEntry(t0, p, olds, w, d, e);
    GrandchildStays(t0, t1, p, olds, fs, w, e.child);
  }

  lemma FreshIndexBelow(t0: Tree, t1: Tree, p: nat, olds: set<nat>, fs: seq<Fresh>, w: nat, j: nat)
    requires Woven(t0) && PublishedBelow(t0, t1, p, olds, fs, w) && j < |fs| && t0.meta[p].height > 2
    ensures BornIndex(t1, fs[j].page, w)
  {
    hide *;
    BelowParts(t0, t1, p, olds, fs, w);
    FreshMetaBelow(t0, t1, p, olds, fs, w, j);
    FreshCopied(t0, t1, p, olds, fs, w, j);
    var es := Entries(t1.pages[fs[j].page]);
    forall i | 0 <= i < |es|
      ensures es[i].Active() && ChildOk(t1.meta, es[i], t0.meta[p].height - 1) && es[i].version < w
      ensures es[i].child < |t1.meta| && t1.meta[es[i].child].Linked? && t1.meta[es[i].child].birth <= es[i].version
    {
      FreshEntryBelow(t0, t1, p, olds, fs, w, es[i]);
    }
    BornIndexIs(t1, fs[j].page, w);
  }

  lemma FreshCopied(t0: Tree, t1: Tree, p: nat, olds: set<nat>, fs: seq<Fresh>, w: nat, j: nat)
    requires PublishedBelow(t0, t1, p, olds, fs, w) && j < |fs| && t0.meta[p].height > 2 && fs[j].page < |t1.pages|
    requires t1.pages[fs[j].page] == t0.pages[fs[j].page]
    ensures var es := Entries(t1.pages[fs[j].page]);
            && t1.pages[fs[j].page].Index? && |es| > 0 && ActiveTiles(es, fs[j].fence)
            && (forall i, m :: 0 <= i < m < |es| ==> es[i].version <= es[m].version)
            && forall i :: 0 <= i < |es| ==> FromAny(t0, es[i], Children(Entries(t0.pages[p]), olds))
  {
    assert CopiedIndex(t0, fs[j].page, fs[j].fence, Children(Entries(t0.pages[p]), olds));
    hide SameKeys, EntriesReplaced, ActiveTiles, NewMeta, Born, FromAny, Children;
  }

  lemma BornIndexIs(t: Tree, b: nat, w: nat)
    requires b < |t.pages| && b < |t.meta| && t.meta[b].Linked? && t.meta[b].birth == w && t.meta[b].height > 1
    requires w < t.clock
    requires t.pages[b].Index? && |Entries(t.pages[b])| > 0 && ActiveTiles(Entries(t.pages[b]), t.meta[b].fence)
    requires forall i, m :: 0 <= i < m < |Entries(t.pages[b])| ==>
               Entries(t.pages[b])[i].version <= Entries(t.pages[b])[m].version
    requires forall i :: 0 <= i < |Entries(t.pages[b])| ==>
               var e := Entries(t.pages[b])[i];
               e.Active() && ChildOk(t.meta, e, t.meta[b].height) && e.version <= w
               && e.child < |t.meta| && t.meta[e.child].Linked? && t.meta[e.child].birth <= e.version
    ensures BornIndex(t, b, w)
  {
    hide ActiveTiles;
  }

  lemma BornBelow(t0: Tree, t1: Tree, p: nat, olds: set<nat>, fs: seq<Fresh>, w: nat, b: nat)
    requires Woven(t0) && PublishedBelow(t0, t1, p, olds, fs, w)
    requires b in Born(fs, w, t0.meta[p].height - 1) && Born(fs, w, t0.meta[p].height - 1)[b].Linked?
    ensures Born(fs, w, t0.meta[p].height - 1)[b].height > 1 ==> BornIndex(t1, b, w)
    ensures Born(fs, w, t0.meta[p].height - 1)[b].height == 1 ==> b < |t1.pages| && t1.pages[b].Leaf?
  {
    FreshPages(Entries(t0.pages[p]), olds, fs);
    BornEntries(fs, w, t0.meta[p].height - 1);
    hide Woven, SameKeys, EntriesReplaced, CopiedIndex, Born, NewMeta;
    assert IsFresh(fs, b);
    var j :| 0 <= j < |fs| && fs[j].page == b;
    FreshMetaBelow(t0, t1, p, olds, fs, w, j);
    if t0.meta[p].height > 2 { FreshIndexBelow(t0, t1, p, olds, fs, w, j); }
  }

  // ---------------------------------------------------------------- the parent

  lemma BelowParts(t0: Tree, t1: Tree, p: nat, olds: set<nat>, fs: seq<Fresh>, w: nat)
    requires PublishedBelow(t0, t1, p, olds, fs, w)
    ensures p < |t0.pages| == |t0.meta| == |t1.pages| && IsLinked(t0.meta[p]) && t0.meta[p].Linked?
    ensures t0.meta[p].height > 1
    ensures p < |t1.pages| && t1.pages[p].Index? && BelowHeld(t0, p, olds, w)
    ensures OldsActive(Entries(t0.pages[p]), olds) && SameKeys(Entries(t0.pages[p]), olds, fs)
    ensures forall i :: i in olds ==> i < |Entries(t0.pages[p])|
    ensures EntriesReplaced(Entries(t0.pages[p]), Entries(t1.pages[p]), olds, fs, w)
    ensures VersionsOk(Entries(t0.pages[p]), w)
    ensures w < t0.clock == t1.clock && t1.horizon == t0.horizon && t1.roots == t0.roots
  {
    hide SameKeys, EntriesReplaced, CopiedIndex, NewMeta, Born, Children;
  }

  lemma BelowEquation(t0: Tree, t1: Tree, p: nat, olds: set<nat>, fs: seq<Fresh>, w: nat)
    requires PublishedBelow(t0, t1, p, olds, fs, w)
    ensures p < |t0.pages| && p < |t0.meta| && t0.meta[p].Linked? && t0.meta[p].height > 1 && p < |t1.pages|
    ensures forall i :: i in olds ==> i < |Entries(t0.pages[p])|
    ensures t1 == t0.(pages := t0.pages[p := t1.pages[p]],
                      meta := NewMeta(t0.meta, Children(Entries(t0.pages[p]), olds),
                                      Born(fs, w, t0.meta[p].height - 1), w))
  {
    hide SameKeys, EntriesReplaced, CopiedIndex, NewMeta, Born, Children;
  }

  lemma ParentMetaBelow(t0: Tree, t1: Tree, p: nat, olds: set<nat>, fs: seq<Fresh>, w: nat)
    requires Woven(t0) && PublishedBelow(t0, t1, p, olds, fs, w)
    ensures p < |t1.meta| == |t0.meta| && t1.meta[p] == t0.meta[p]
  {
    BelowMeta(t0, t1, p, olds, fs, w);
    hide Woven, SameKeys, EntriesReplaced, CopiedIndex, Born, BelowHeld;
    NewMetaStep(t0.meta, Children(Entries(t0.pages[p]), olds), Born(fs, w, t0.meta[p].height - 1), w);
  }

  /** A child of the parent that is not replaced keeps its meta data. */
  lemma KeptChildBelow(t0: Tree, t1: Tree, p: nat, olds: set<nat>, fs: seq<Fresh>, w: nat, i: nat)
    requires Woven(t0) && PublishedBelow(t0, t1, p, olds, fs, w)
    requires i < |Entries(t0.pages[p])| && Entries(t0.pages[p])[i].Active() && i !in olds
    ensures var c := Entries(t0.pages[p])[i].child;
            c < |t1.meta| && t1.meta[c] == t0.meta[c] && ChildOk(t0.meta, Entries(t0.pages[p])[i], t0.meta[p].height)
  {
    hide *;
    BelowParts(t0, t1, p, olds, fs, w);
    ParentAt(t0, p, olds, w);
    KeptChild(t0.(clock := w), p, olds, i);
    BelowWeaves(t0, t1, p, olds, fs, w);
    ActiveChild(t0, p, i);
    LiveStays(t0, t1, w, Children(Entries(t0.pages[p]), olds), Born(fs, w, t0.meta[p].height - 1), {p},
              Entries(t0.pages[p])[i].child);
  }

  lemma ActiveChild(t: Tree, p: nat, i: nat)
    requires LiveIndex(t, p) && i < |Entries(t.pages[p])| && Entries(t.pages[p])[i].Active()
    ensures ChildOk(t.meta, Entries(t.pages[p])[i], t.meta[p].height)
    ensures Entries(t.pages[p])[i].child < |t.meta| && IsLinked(t.meta[Entries(t.pages[p])[i].child])
  {
    hide ActiveTiles, Births;
    assert ChildOk(t.meta, Entries(t.pages[p])[i], t.meta[p].height);
  }

  lemma ChildBelow(t0: Tree, t1: Tree, p: nat, olds: set<nat>, fs: seq<Fresh>, w: nat, i: nat)
    requires Woven(t0) && PublishedBelow(t0, t1, p, olds, fs, w) && p < |t1.pages|
    requires i < |Entries(t1.pages[p])| && Entries(t1.pages[p])[i].Active()
    ensures p < |t0.meta| && t0.meta[p].Linked?
    ensures var e := Entries(t1.pages[p])[i];
            && ChildOk(t1.meta, e, t0.meta[p].height) && e.child < |t1.meta| && t1.meta[e.child].Linked?
            && t1.meta[e.child].birth <= e.version
  {
    hide *;
    BelowParts(t0, t1, p, olds, fs, w);
    var es, es' := Entries(t0.pages[p]), Entries(t1.pages[p]);
    ReplacedAt(es, es', olds, fs, w, i);
    if i < |es| {
      KeptChildBelow(t0, t1, p, olds, fs, w, i);
      KeptChildBirth(t0, p, olds, w, i);
      ChildOkStays(t0.meta, t1.meta, es[i], t0.meta[p].height);
    } else {
      FreshMetaBelow(t0, t1, p, olds, fs, w, i - |es|);
      FreshChildOk(t1.meta, es'[i], t0.meta[p].height);
    }
  }

  lemma ReplacedAt(es: seq<Entry>, es': seq<Entry>, olds: set<nat>, fs: seq<Fresh>, w: nat, i: nat)
    requires EntriesReplaced(es, es', olds, fs, w) && i < |es'| && es'[i].Active()
    ensures |es'| == |es| + |fs|
    ensures if i < |es| then es'[i] == es[i] && i !in olds && es[i].Active()
            else es'[i] == Entry(fs[i - |es|].fence, w, false, fs[i - |es|].page)
  {
  }

  lemma KeptChildBirth(t: Tree, p: nat, olds: set<nat>, w: nat, i: nat)
    requires Woven(t) && BelowHeld(t, p, olds, w) && i < |Entries(t.pages[p])| && Entries(t.pages[p])[i].Active()
    ensures var e := Entries(t.pages[p])[i];
            && e.child < |t.meta| && t.meta[e.child].Linked?
            && t.meta[e.child].birth <= e.version
  {
    ParentAt(t, p, olds, w);
    hide Woven;
    assert ChildOk(t.meta, Entries(t.pages[p])[i], t.meta[p].height);
  }

  lemma ChildOkStays(m0: seq<Meta>, m1: seq<Meta>, e: Entry, h: nat)
    requires ChildOk(m0, e, h) && e.child < |m1| && e.child < |m0| && m1[e.child] == m0[e.child]
    ensures ChildOk(m1, e, h)
  {
  }

  lemma FreshChildOk(meta: seq<Meta>, e: Entry, h: nat)
    requires e.child < |meta| && h > 1 && meta[e.child] == Linked(e.fence, e.version, None, h - 1)
    ensures ChildOk(meta, e, h)
  {
  }

  ghost predicate ChildFits(meta: seq<Meta>, e: Entry, h: nat) {
    ChildOk(meta, e, h) && e.child < |meta| && meta[e.child].Linked? && meta[e.child].birth <= e.version
  }

  lemma ChildrenAre(meta: seq<Meta>, es: seq<Entry>, h: nat)
    requires forall i: nat :: i < |es| && es[i].Active() ==> ChildFits(meta, es[i], h)
    ensures ChildrenOk(meta, es, h) && Births(meta, es)
  {
  }

  lemma ChildrenBelow(t0: Tree, t1: Tree, p: nat, olds: set<nat>, fs: seq<Fresh>, w: nat)
    requires Woven(t0) && PublishedBelow(t0, t1, p, olds, fs, w)
    ensures p < |t1.pages| && p < |t0.meta| && t0.meta[p].Linked?
    ensures ChildrenOk(t1.meta, Entries(t1.pages[p]), t0.meta[p].height) && Births(t1.meta, Entries(t1.pages[p]))
  {
    BelowParts(t0, t1, p, olds, fs, w);
    hide *;
    var es', h := Entries(t1.pages[p]), t0.meta[p].height;
    forall i: nat | i < |es'| && es'[i].Active() ensures ChildFits(t1.meta, es'[i], h) {
      ChildBelow(t0, t1, p, olds, fs, w, i);
      FitsIs(t1.meta, es'[i], h);
    }
    ChildrenAre(t1.meta, es', h);
  }

  lemma FitsIs(meta: seq<Meta>, e: Entry, h: nat)
    requires ChildOk(meta, e, h) && e.child < |meta| && meta[e.child].Linked? && meta[e.child].birth <= e.version
    ensures ChildFits(meta, e, h)
  {
    hide ChildOk;
  }

  lemma FencesInside(t0: Tree, t1: Tree, p: nat, olds: set<nat>, fs: seq<Fresh>, w: nat)
    requires Woven(t0) && PublishedBelow(t0, t1, p, olds, fs, w)
    ensures p < |t0.meta| && t0.meta[p].Linked? && forall j :: 0 <= j < |fs| ==> Covers(t0.meta[p].fence, fs[j].fence)
  {
    BelowParts(t0, t1, p, olds, fs, w);
    ParentAt(t0, p, olds, w);
    hide Woven, PublishedBelow, SameKeys, ParentOk, OldsActive, Covers, LiveIndex;
    forall j | 0 <= j < |fs| ensures Covers(t0.meta[p].fence, fs[j].fence) {
      FreshInside(t0.(clock := w), p, olds, fs, j);
    }
  }

  lemma TilesOf(t: Tree, p: nat)
    requires LiveIndex(t, p)
    ensures p < |t.pages| && p < |t.meta| && t.meta[p].Linked? && ActiveTiles(Entries(t.pages[p]), t.meta[p].fence)
  {
    hide ActiveTiles, ChildrenOk, Births, VersionsOk;
  }

  lemma LastIsFresh(es: seq<Entry>, es': seq<Entry>, olds: set<nat>, fs: seq<Fresh>, w: nat)
    requires EntriesReplaced(es, es', olds, fs, w)
    ensures |es'| > 0 && es'[|es'| - 1].Active()
  {
    assert es'[|es| + (|fs| - 1)].Active();
  }

  lemma LiveIs(t: Tree, p: nat, w: nat)
    requires p < |t.pages| && p < |t.meta| && IsLinked(t.meta[p]) && t.pages[p].Index? && w < t.clock
    requires |Entries(t.pages[p])| > 0 && Entries(t.pages[p])[|Entries(t.pages[p])| - 1].Active()
    requires VersionsOk(Entries(t.pages[p]), w + 1) && ActiveTiles(Entries(t.pages[p]), t.meta[p].fence)
    requires ChildrenOk(t.meta, Entries(t.pages[p]), t.meta[p].height) && Births(t.meta, Entries(t.pages[p]))
    ensures LiveIndex(t, p)
  {
    hide ActiveTiles, ChildrenOk, Births;
  }

  lemma SameClock(t0: Tree, t1: Tree, p: nat, olds: set<nat>, fs: seq<Fresh>, w: nat)
    requires PublishedBelow(t0, t1, p, olds, fs, w)
    ensures t1.clock == t0.clock && w < t1.clock
  {
    hide SameKeys, EntriesReplaced, CopiedIndex, Born, Children, BelowHeld;
  }

  lemma ParentLivesBelow(t0: Tree, t1: Tree, p: nat, olds: set<nat>, fs: seq<Fresh>, w: nat)
    requires Woven(t0) && PublishedBelow(t0, t1, p, olds, fs, w)
    ensures LiveIndex(t1, p)
  {
    hide *;
    BelowParts(t0, t1, p, olds, fs, w);
    SameClock(t0, t1, p, olds, fs, w);
    ParentMetaBelow(t0, t1, p, olds, fs, w);
    ParentAt(t0, p, olds, w);
    TilesOf(t0, p);
    var es, es' := Entries(t0.pages[p]), Entries(t1.pages[p]);
    ChildrenBelow(t0, t1, p, olds, fs, w);
    FencesInside(t0, t1, p, olds, fs, w);
    TilesReplaced(es, es', t0.meta[p].fence, olds, fs, w);
    VersionsReplaced(es, es', olds, fs, w);
    LastIsFresh(es, es', olds, fs, w);
    LiveIs(t1, p, w);
  }

  lemma KeptTurn(t0: Tree, t1: Tree, p: nat, olds: set<nat>, fs: seq<Fresh>, w: nat, k: nat, v: nat)
    requires Woven(t0) && PublishedBelow(t0, t1, p, olds, fs, w) && Turns(t0, p, k, v)
    requires v < w || !InOlds(Entries(t0.pages[p]), olds, k)
    ensures Turns(t1, p, k, v)
  {
    BelowWeaves(t0, t1, p, olds, fs, w);
    BelowParts(t0, t1, p, olds, fs, w);
    ParentMetaBelow(t0, t1, p, olds, fs, w);
    ParentAt(t0, p, olds, w);
    TurnParts(t0, p, k, v);
    var es, es' := Entries(t0.pages[p]), Entries(t1.pages[p]);
    hide Woven, PublishedBelow, SameKeys, ParentOk, Children, Route, Weaves;
    hide RoutedTo, BelowHeld, LiveIndex, Turns, EntriesReplaced;
    var i := Route(es, k, v).value;
    RouteKept(es, es', olds, fs, w, k, v);
    RoutedStays(t0.(clock := w), p, olds, i, k, v);
    RoutedLater(t0, t1, p, olds, fs, w, i, v);
    TurnIs(t1, p, i, k, v);
  }

  lemma TurnParts(t: Tree, p: nat, k: nat, v: nat)
    requires Turns(t, p, k, v) && t.meta[p].height > 1
    ensures var r := Route(Entries(t.pages[p]), k, v); r.Some? && RoutedTo(t, p, Entries(t.pages[p])[r.value], v)
  {
  }

  lemma TurnIs(t: Tree, p: nat, i: nat, k: nat, v: nat)
    requires p < |t.pages| && p < |t.meta| && t.meta[p].Linked? && t.meta[p].height > 1
    requires t.pages[p].Index? && i < |Entries(t.pages[p])|
    requires Route(Entries(t.pages[p]), k, v) == Some(i) && RoutedTo(t, p, Entries(t.pages[p])[i], v)
    ensures Turns(t, p, k, v)
  {
  }

  /** The routed child is part of the tree at `v` afterwards too, and its entry is marked exactly if it was replaced. */
  lemma RoutedLater(t0: Tree, t1: Tree, p: nat, olds: set<nat>, fs: seq<Fresh>, w: nat, i: nat, v: nat)
    requires p < |t0.pages| && p < |t1.pages| && p < |t0.meta| == |t1.meta| && t0.meta[p].Linked?
    requires t1.meta[p] == t0.meta[p] && t0.meta[p].height > 1
    requires forall j :: j in olds ==> j < |Entries(t0.pages[p])|
    requires i < |Entries(t0.pages[p])| && RoutedTo(t0, p, Entries(t0.pages[p])[i], v)
    requires EntriesReplaced(Entries(t0.pages[p]), Entries(t1.pages[p]), olds, fs, w)
    requires Weaves(t0, t1, w, Children(Entries(t0.pages[p]), olds), Born(fs, w, t0.meta[p].height - 1), {p})
    requires Entries(t0.pages[p])[i].child in Children(Entries(t0.pages[p]), olds) <==> i in olds
    requires i in olds ==> v < w
    ensures i < |Entries(t1.pages[p])| && RoutedTo(t1, p, Entries(t1.pages[p])[i], v)
  {
    hide Children, Born;
  }

  lemma FreshTurn(t0: Tree, t1: Tree, p: nat, olds: set<nat>, fs: seq<Fresh>, w: nat, k: nat, v: nat)
    requires Woven(t0) && PublishedBelow(t0, t1, p, olds, fs, w) && w <= v && InOlds(Entries(t0.pages[p]), olds, k)
    ensures Turns(t1, p, k, v)
  {
    hide *;
    BelowParts(t0, t1, p, olds, fs, w);
    ParentMetaBelow(t0, t1, p, olds, fs, w);
    FencesInside(t0, t1, p, olds, fs, w);
    var es, es' := Entries(t0.pages[p]), Entries(t1.pages[p]);
    var j := RouteFresh(es, es', olds, fs, w, k, v);
    FreshMetaBelow(t0, t1, p, olds, fs, w, j);
    FreshEntry(es, es', olds, fs, w, j);
    FreshRouted(t1, p, es'[|es| + j], v);
    TurnIs(t1, p, |es| + j, k, v);
  }

  lemma FreshRouted(t: Tree, p: nat, e: Entry, v: nat)
    requires p < |t.meta| && t.meta[p].Linked? && t.meta[p].height > 1 && e.version <= v
    requires Covers(t.meta[p].fence, e.fence)
    requires e.child < |t.meta| && t.meta[e.child] == Linked(e.fence, e.version, None, t.meta[p].height - 1)
    requires e.Active()
    ensures RoutedTo(t, p, e, v)
  {
  }

  lemma ParentTurns(t0: Tree, t1: Tree, p: nat, olds: set<nat>, fs: seq<Fresh>, w: nat, k: nat, v: nat)
    requires Woven(t0) && PublishedBelow(t0, t1, p, olds, fs, w) && Visible(t1, p, k, v)
    ensures Turns(t1, p, k, v)
  {
    ParentMetaBelow(t0, t1, p, olds, fs, w);
    SameHorizon(t0, t1, p, olds, fs, w);
    WovenMeta(t0);
    assert Visible(t0, p, k, v) && Turns(t0, p, k, v);
    hide Woven, Turns, AllTurn, PublishedBelow;
    if v < w || !InOlds(Entries(t0.pages[p]), olds, k) {
      KeptTurn(t0, t1, p, olds, fs, w, k, v);
    } else {
      FreshTurn(t0, t1, p, olds, fs, w, k, v);
    }
  }

  lemma SameHorizon(t0: Tree, t1: Tree, p: nat, olds: set<nat>, fs: seq<Fresh>, w: nat)
    requires PublishedBelow(t0, t1, p, olds, fs, w)
    ensures t1.horizon == t0.horizon && t1.roots == t0.roots && |t1.meta| == |t0.meta| && p < |t0.pages|
  {
    hide SameKeys, EntriesReplaced, CopiedIndex, Born, Children;
  }

  lemma RootsBelow(t0: Tree, t1: Tree, p: nat, olds: set<nat>, fs: seq<Fresh>, w: nat)
    requires Woven(t0) && PublishedBelow(t0, t1, p, olds, fs, w)
    ensures RootsOk(t1) && OldRootsGone(t1)
  {
    hide *;
    BelowParts(t0, t1, p, olds, fs, w);
    BelowWeaves(t0, t1, p, olds, fs, w);
    BelowMeta(t0, t1, p, olds, fs, w);
    BelowEquation(t0, t1, p, olds, fs, w);
    RootsStay(t0, t1, w, Children(Entries(t0.pages[p]), olds), Born(fs, w, t0.meta[p].height - 1), p);
  }

  /** Replacing pages below the root leaves the roots as they are. */
  lemma RootsStay(t0: Tree, t1: Tree, w: nat, dying: set<nat>, born: map<nat, Meta>, p: nat)
    requires Woven(t0) && Weaves(t0, t1, w, dying, born, {p}) && t1.roots == t0.roots && p < |t0.meta|
    requires IsLinked(t0.meta[p])
    requires forall c :: c in dying ==> c < |t0.meta| && t0.meta[c].Linked? && t0.meta[c].height < t0.meta[p].height
    requires forall b :: b in born ==> born[b].Linked? && born[b].height < t0.meta[p].height
    ensures RootsOk(t1) && OldRootsGone(t1)
  {
    WovenMeta(t0);
    TopStays(t0, t1, w, dying, born, p);
    SameBounds(t0, t1, w, dying, born, p);
    hide Woven, MetaOk, Apart, AllTurn, LiveIndexes, Weaves, MetaStep;
    assert |t0.roots| > 0;
    hide RootsOk, OldRootsGone;
    forall v: nat | t1.horizon <= v
      ensures RootServes(t1, v) && (IsLinked(t1.meta[RootPageFor(t1, v)]) ==> RootPageFor(t1, v) == Top(t1).page)
    {
      RootStays(t0, t1, w, dying, born, p, v);
    }
    RootsAgain(t0, t1);
  }

  lemma SameBounds(t0: Tree, t1: Tree, w: nat, dying: set<nat>, born: map<nat, Meta>, p: nat)
    requires Weaves(t0, t1, w, dying, born, {p})
    ensures t1.horizon == t0.horizon && t1.clock == t0.clock && |t1.meta| == |t0.meta|
  {
  }

  lemma RootsAgain(t0: Tree, t1: Tree)
    requires RootsOk(t0) && t1.roots == t0.roots && t1.clock == t0.clock && |t0.roots| > 0 && |t1.meta| == |t0.meta|
    requires Top(t0).page < |t0.meta| && t1.meta[Top(t0).page] == t0.meta[Top(t0).page]
    requires forall i :: 0 <= i < |t1.meta| && IsLinked(t1.meta[i]) ==> t1.meta[i].height <= Top(t0).height
    requires forall v: nat :: t1.horizon <= v ==>
               RootServes(t1, v) && (IsLinked(t1.meta[RootPageFor(t1, v)]) ==> RootPageFor(t1, v) == Top(t1).page)
    ensures RootsOk(t1) && OldRootsGone(t1)
  {
    hide RootServes, RootPageFor;
    RootsAre(t1, Top(t0).page, Top(t0).version, Top(t0).height);
  }

  lemma TopStays(t0: Tree, t1: Tree, w: nat, dying: set<nat>, born: map<nat, Meta>, p: nat)
    requires RootsOk(t0) && Weaves(t0, t1, w, dying, born, {p}) && t1.roots == t0.roots && p < |t0.meta|
    requires IsLinked(t0.meta[p])
    requires forall c :: c in dying ==> c < |t0.meta| && t0.meta[c].Linked? && t0.meta[c].height < t0.meta[p].height
    requires forall b :: b in born ==> born[b].Linked? && born[b].height < t0.meta[p].height
    ensures Top(t0).page !in dying && Top(t0).page !in born && t1.meta[Top(t0).page] == t0.meta[Top(t0).page]
    ensures forall i :: 0 <= i < |t1.meta| && IsLinked(t1.meta[i]) ==> t1.meta[i].height <= Top(t0).height
  {
    hide RootServes;
  }

  lemma RootStays(t0: Tree, t1: Tree, w: nat, dying: set<nat>, born: map<nat, Meta>, p: nat, v: nat)
    requires RootsOk(t0) && OldRootsGone(t0) && Weaves(t0, t1, w, dying, born, {p}) && t1.roots == t0.roots
    requires t0.horizon <= v
    requires Top(t0).page !in dying
    ensures RootServes(t1, v) && (IsLinked(t1.meta[RootPageFor(t1, v)]) ==> RootPageFor(t1, v) == Top(t1).page)
  {
    assert RootServes(t0, v);
    var r := RootPageFor(t0, v);
    assert IsLinked(t0.meta[r]) ==> r == Top(t0).page;
    hide RootsOk, OldRootsGone;
  }

  /** Publishing below a parent keeps every reader on pages of its snapshot. */
  lemma BelowKeepsWoven(t0: Tree, t1: Tree, p: nat, olds: set<nat>, fs: seq<Fresh>, w: nat)
    requires Woven(t0) && PublishedBelow(t0, t1, p, olds, fs, w)
    requires Avoids(t0, w, Replaced(t0, p, olds), {p} + Replaced(t0, p, olds))
    ensures p < |t0.meta| && t0.meta[p].Linked? && t0.meta[p].height > 1
    ensures Woven(t1) && Sews(t0, t1, w, Replaced(t0, p, olds), Born(fs, w, t0.meta[p].height - 1), {p})
  {
    hide *;
    BelowParts(t0, t1, p, olds, fs, w);
    BelowEquation(t0, t1, p, olds, fs, w);
    BelowWeaves(t0, t1, p, olds, fs, w);
    BelowApart(t0, t1, p, olds, fs, w);
    RootsBelow(t0, t1, p, olds, fs, w);
    ReplacedAreChildren(t0, p, olds);
    var dying, born := Children(Entries(t0.pages[p]), olds), Born(fs, w, t0.meta[p].height - 1);
    forall b | b in born && born[b].Linked?
      ensures born[b].height > 1 ==> BornIndex(t1, b, w)
      ensures born[b].height == 1 ==> b < |t1.pages| && t1.pages[b].Leaf?
    {
      BornBelow(t0, t1, p, olds, fs, w, b);
    }
    ParentLivesBelow(t0, t1, p, olds, fs, w);
    forall k: nat, v: nat | Visible(t1, p, k, v) ensures Turns(t1, p, k, v) {
      ParentTurns(t0, t1, p, olds, fs, w, k, v);
    }
    SewsIs(t0, t1, w, dying, born, p);
    SewsKeepsWoven(t0, t1, w, dying, born, {p});
  }

  /** Below the parent readers are led as before or to a new page. */
  lemma BelowTouched(t0: Tree, t1: Tree, p: nat, olds: set<nat>, fs: seq<Fresh>, w: nat, k: nat, v: nat)
    requires Woven(t0) && PublishedBelow(t0, t1, p, olds, fs, w) && Visible(t1, p, k, v) && Turns(t1, p, k, v)
    ensures p < |t0.meta| && t0.meta[p].Linked? && t0.meta[p].height > 1 && t1.meta[p] == t0.meta[p]
    ensures || ChildFor(t1, p, k, v) in Born(fs, w, t0.meta[p].height - 1)
            || (Visible(t0, p, k, v) && Turns(t0, p, k, v) && ChildFor(t1, p, k, v) == ChildFor(t0, p, k, v))
  {
    ParentMetaBelow(t0, t1, p, olds, fs, w);
    BelowParts(t0, t1, p, olds, fs, w);
    WovenMeta(t0);
    assert Visible(t0, p, k, v) && Turns(t0, p, k, v);
    hide Woven, PublishedBelow, AllTurn, MetaOk, Apart, LiveIndexes, RootsOk, OldRootsGone;
    hide SameKeys, Born, BelowHeld, RoutedTo, Visible, EntriesReplaced;
    TurnRoutes(t0, p, k, v);
    TurnRoutes(t1, p, k, v);
    hide Turns, Route;
    TouchedRoute(Entries(t0.pages[p]), Entries(t1.pages[p]), olds, fs, w, t0.meta[p].height - 1, k, v);
  }

  lemma TurnRoutes(t: Tree, p: nat, k: nat, v: nat)
    requires Turns(t, p, k, v) && t.meta[p].height > 1
    ensures Route(Entries(t.pages[p]), k, v).Some?
  {
  }

  lemma TouchedRoute(es: seq<Entry>, es': seq<Entry>, olds: set<nat>, fs: seq<Fresh>, w: nat, h: nat, k: nat, v: nat)
    requires EntriesReplaced(es, es', olds, fs, w) && SameKeys(es, olds, fs) && Route(es, k, v).Some?
    requires Route(es', k, v).Some?
    ensures || es'[Route(es', k, v).value].child in Born(fs, w, h)
            || es'[Route(es', k, v).value].child == es[Route(es, k, v).value].child
  {
    FreshPages(es, olds, fs);
    BornEntries(fs, w, h);
    hide Born, Route;
    if v < w || !InOlds(es, olds, k) {
      RouteKept(es, es', olds, fs, w, k, v);
    } else {
      var j := RouteFresh(es, es', olds, fs, w, k, v);
    }
  }

  lemma SewsIs(t0: Tree, t1: Tree, w: nat, dying: set<nat>, born: map<nat, Meta>, p: nat)
    requires Weaves(t0, t1, w, dying, born, {p}) && RootsOk(t1) && OldRootsGone(t1) && Avoids(t0, w, dying, {p} + dying)
    requires BornApart(t0.meta, dying, born)
    requires forall c :: c in dying ==> c < |t0.meta| && t0.meta[c].Linked?
    requires NoOrphans(t0.meta, dying, {p})
    requires forall b :: b in born && born[b].Linked? && born[b].height > 1 ==> BornIndex(t1, b, w)
    requires forall b :: b in born && born[b].Linked? && born[b].height == 1 ==> b < |t1.pages| && t1.pages[b].Leaf?
    requires LiveIndex(t1, p) && forall k: nat, v: nat :: Visible(t1, p, k, v) ==> Turns(t1, p, k, v)
    ensures Sews(t0, t1, w, dying, born, {p})
  {
    hide Weaves, RootsOk, OldRootsGone, Avoids, BornApart, NoOrphans, BornIndex, LiveIndex, Visible, Turns;
    WeavesParts(t0, t1, w, dying, born, {p});
  }

  lemma WeavesParts(t0: Tree, t1: Tree, w: nat, dying: set<nat>, born: map<nat, Meta>, touched: set<nat>)
    requires Weaves(t0, t1, w, dying, born, touched)
    ensures forall i :: i in dying ==> i < |t0.meta| && t0.meta[i].Linked?
  {
  }
}
