/**
 The stores a reorganization makes in the parent page, from the first push to the last obsolete
 mark: what they add up to, and that the packed counters are exact again at the end.
 */
module ParentStores {
  import opened Util
  import opened Fences
  import opened Pages
  import opened Fill
  import opened Smo
  import opened ParentReorg

  function EntryFor(f: Fresh, w: nat): Entry { Entry(f.fence, w, false, f.page) }

  function Marked(e: Entry): Entry { e.(obsolete := true) }

  lemma AppendActive(es: seq<Entry>, news: seq<Entry>)
    requires forall e :: e in news ==> e.Active()
    ensures |Filter(IsActive, es + news)| == |Filter(IsActive, es)| + |news|
  {
    FilterConcat(IsActive, es, news);
    FilterAll(IsActive, news);
  }

  lemma MarkOne(es: seq<Entry>, i: nat)
    requires i < |es| && es[i].Active()
    ensures |Filter(IsActive, es[i := Marked(es[i])])| == |Filter(IsActive, es)| - 1
  {
    FilterUpdate(IsActive, es, i, Marked(es[i]));
  }

  /** Pushing `news`, committing them and marking one entry. */
  function StoredOne(p: Page, news: seq<Entry>, i: nat): (q: Page)
    requires p.Index? && 1 <= |news| <= 2 && i < Sum(p) && Sum(p) + |news| <= Capacity(p)
  {
    var pushed := PushEntry(p, news[0], Sum(p));
    var all := if |news| == 2 then PushEntry(pushed, news[1], Sum(p) + 1) else pushed;
    MarkObsolete(CommitDelta(all, |news| - 1, 1), i)
  }

  /** Pushing `news`, committing them and marking two entries, the sibling first. */
  function StoredTwo(p: Page, news: seq<Entry>, sibling: nat, i: nat): (q: Page)
    requires p.Index? && 1 <= |news| <= 2 && i < Sum(p) && sibling < Sum(p) && Sum(p) + |news| <= Capacity(p)
    requires p.active >= 1
  {
    var pushed := PushEntry(p, news[0], Sum(p));
    var all := if |news| == 2 then PushEntry(pushed, news[1], Sum(p) + 1) else pushed;
    MarkObsolete(MarkObsolete(CommitDelta(all, |news| - 2, 2), sibling), i)
  }

  lemma StoredOneEntries(p: Page, news: seq<Entry>, i: nat)
    requires p.Index? && 1 <= |news| <= 2 && i < Sum(p) && Sum(p) + |news| <= Capacity(p)
    ensures var q := StoredOne(p, news, i);
            q.Index? && Capacity(q) == Capacity(p) && Entries(q) == Entries(p)[i := Marked(Entries(p)[i])] + news
  {
  }

  lemma StoredTwoEntries(p: Page, news: seq<Entry>, sibling: nat, i: nat)
    requires p.Index? && 1 <= |news| <= 2 && i < Sum(p) && sibling < Sum(p) && i != sibling
    requires Sum(p) + |news| <= Capacity(p) && p.active >= 1
    ensures var q := StoredTwo(p, news, sibling, i); var es := Entries(p);
            q.Index? && Capacity(q) == Capacity(p)
              && Entries(q) == es[sibling := Marked(es[sibling])][i := Marked(es[i])] + news
  {
  }

  function NewEntries(fs: seq<Fresh>, w: nat): (r: seq<Entry>)
    ensures |r| == |fs| && forall i :: 0 <= i < |fs| ==> r[i] == EntryFor(fs[i], w)
  {
    seq(|fs|, i requires 0 <= i < |fs| => EntryFor(fs[i], w))
  }

  lemma NewEntriesActive(fs: seq<Fresh>, w: nat)
    ensures forall e :: e in NewEntries(fs, w) ==> e.Active()
  {
  }

  /** After an overflow repair the parent is exact and holds the replacement. */
  lemma StoredOneReplaces(p: Page, fs: seq<Fresh>, w: nat, i: nat)
    requires p.Index? && Exact(p) && 1 <= |fs| <= 2 && i < Sum(p) && Sum(p) + |fs| <= Capacity(p)
    requires Entries(p)[i].Active()
    ensures var q := StoredOne(p, NewEntries(fs, w), i);
            && q.Index? && Capacity(q) == Capacity(p) && Exact(q) && q.active == p.active + |fs| - 1
            && EntriesReplaced(Entries(p), Entries(q), {i}, fs, w)
  {
    var es, news := Entries(p), NewEntries(fs, w);
    StoredOneEntries(p, news, i);
    NewEntriesActive(fs, w);
    StoredOneCount(p, news, i);
    hide Filter, StoredOne;
    MarkOne(es, i);
    AppendActive(es[i := Marked(es[i])], news);
    hide Entries, NewEntries;
    OneReplaced(es, fs, w, i);
  }

  lemma StoredOneCount(p: Page, news: seq<Entry>, i: nat)
    requires p.Index? && 1 <= |news| <= 2 && i < Sum(p) && Sum(p) + |news| <= Capacity(p)
    ensures StoredOne(p, news, i).active == p.active + |news| - 1
  {
  }

  lemma StoredTwoCount(p: Page, news: seq<Entry>, sibling: nat, i: nat)
    requires p.Index? && 1 <= |news| <= 2 && i < Sum(p) && sibling < Sum(p) && i != sibling
    requires Sum(p) + |news| <= Capacity(p) && p.active >= 1
    ensures StoredTwo(p, news, sibling, i).active == p.active + |news| - 2
  {
  }

  lemma OneReplaced(es: seq<Entry>, fs: seq<Fresh>, w: nat, i: nat)
    requires i < |es| && |fs| > 0
    ensures EntriesReplaced(es, es[i := Marked(es[i])] + NewEntries(fs, w), {i}, fs, w)
  {
  }

  lemma TwoReplaced(es: seq<Entry>, fs: seq<Fresh>, w: nat, sibling: nat, i: nat)
    requires i < |es| && sibling < |es| && i != sibling && |fs| > 0
    ensures EntriesReplaced(es, es[sibling := Marked(es[sibling])][i := Marked(es[i])] + NewEntries(fs, w),
                            {sibling, i}, fs, w)
  {
  }

  /** After an underflow repair the parent is exact and holds the replacement. */
  lemma StoredTwoReplaces(p: Page, fs: seq<Fresh>, w: nat, sibling: nat, i: nat)
    requires p.Index? && Exact(p) && 1 <= |fs| <= 2 && Sum(p) + |fs| <= Capacity(p) && p.active >= 1
    requires i < Sum(p) && sibling < Sum(p) && i != sibling && Entries(p)[i].Active() && Entries(p)[sibling].Active()
    ensures var q := StoredTwo(p, NewEntries(fs, w), sibling, i);
            && q.Index? && Capacity(q) == Capacity(p) && Exact(q) && q.active == p.active + |fs| - 2
            && EntriesReplaced(Entries(p), Entries(q), {sibling, i}, fs, w)
  {
    var es, news := Entries(p), NewEntries(fs, w);
    StoredTwoEntries(p, news, sibling, i);
    NewEntriesActive(fs, w);
    StoredTwoCount(p, news, sibling, i);
    hide Filter, StoredTwo;
    MarkOne(es, sibling);
    MarkOne(es[sibling := Marked(es[sibling])], i);
    AppendActive(es[sibling := Marked(es[sibling])][i := Marked(es[i])], news);
    hide Entries, NewEntries;
    TwoReplaced(es, fs, w, sibling, i);
  }

  lemma OneOld(es: seq<Entry>, i: nat)
    requires i < |es|
    ensures forall k: nat :: InOlds(es, {i}, k) <==> Contains(es[i].fence, k)
    ensures Children(es, {i}) == {es[i].child}
  {
    assert i in {i};
  }

  lemma TwoOlds(es: seq<Entry>, i: nat, j: nat)
    requires i < |es| && j < |es| && Adjacent(es[i].fence, es[j].fence) && ValidFence(es[i].fence)
    requires ValidFence(es[j].fence)
    ensures forall k: nat :: InOlds(es, {j, i}, k) <==> Contains(Merged(es[i].fence, es[j].fence), k)
    ensures Children(es, {j, i}) == {es[i].child, es[j].child}
  {
    assert i in {j, i} && j in {j, i};
    forall k: nat ensures InOlds(es, {j, i}, k) <==> Contains(Merged(es[i].fence, es[j].fence), k) {
      assert InOlds(es, {j, i}, k) <==> Contains(es[i].fence, k) || Contains(es[j].fence, k);
    }
    assert es[i].child in Children(es, {j, i}) && es[j].child in Children(es, {j, i});
  }
}
