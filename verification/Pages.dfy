/**
 Pages as values: a fixed region of slots of which the first `active + dead` are committed.
 The type of a page says that the committed prefix lies inside the region.
 */
module Pages {
  import opened Util
  import opened Fences

  datatype Record = Record(key: nat, payload: nat, ins: nat, del: Option<nat>) {
    predicate Live() { del.None? }

    predicate Matches(v: nat) { ins <= v && (del.None? || v < del.value) }
  }

  /** `obsolete` is the top bit of the version word; `version` is the word without it. */
  datatype Entry = Entry(fence: Fence, version: nat, obsolete: bool, child: nat) {
    predicate Active() { !obsolete }
  }

  datatype RawPage =
    | Leaf(recordData: seq<Record>, active: nat, dead: nat)
    | Index(entryData: seq<Entry>, active: nat, dead: nat)

  function Capacity(p: RawPage): nat {
    if p.Leaf? then |p.recordData| else |p.entryData|
  }

  function Sum(p: RawPage): nat { p.active + p.dead }

  type Page = p: RawPage | Sum(p) <= Capacity(p) witness Leaf([], 0, 0)

  function Records(p: Page): (r: seq<Record>) {
    if p.Leaf? then p.recordData[..Sum(p)] else []
  }

  function Entries(p: Page): (r: seq<Entry>) {
    if p.Index? then p.entryData[..Sum(p)] else []
  }

  const BLANK_RECORD := Record(0, 0, 0, None)
  const BLANK_ENTRY := Entry(Fence(0, 0), 0, false, 0)

  function EmptyLeaf(capacity: nat): (p: Page) { Leaf(seq(capacity, _ => BLANK_RECORD), 0, 0) }

  function EmptyIndex(capacity: nat): (p: Page) { Index(seq(capacity, _ => BLANK_ENTRY), 0, 0) }

  // ---------------------------------------------------------------- single stores

  /** `push_uncommitted`: writes one slot; the counters stay. */
  function PushRecord(p: Page, r: Record, index: nat): (q: Page)
    requires p.Leaf? && index < Capacity(p)
  {
    p.(recordData := p.recordData[index := r])
  }

  function PushEntry(p: Page, e: Entry, index: nat): (q: Page)
    requires p.Index? && index < Capacity(p)
  {
    p.(entryData := p.entryData[index := e])
  }

  function CommitDelta(p: Page, activeDelta: int, deadDelta: int): (q: Page)
    requires 0 <= p.active + activeDelta && 0 <= p.dead + deadDelta
    requires Sum(p) + activeDelta + deadDelta <= Capacity(p)
  {
    match p
    case Leaf(rs, active, dead) => Leaf(rs, active + activeDelta, dead + deadDelta)
    case Index(es, active, dead) => Index(es, active + activeDelta, dead + deadDelta)
  }

  function MarkObsolete(p: Page, index: nat): (q: Page)
    requires p.Index? && index < Capacity(p)
  {
    p.(entryData := p.entryData[index := p.entryData[index].(obsolete := true)])
  }

  function StampDeleted(p: Page, index: nat, del: nat): (q: Page)
    requires p.Leaf? && index < Capacity(p)
  {
    p.(recordData := p.recordData[index := p.recordData[index].(del := Some(del))])
  }

  /** `bulk_push` into an empty page: all slots first, then one store of the length. */
  function BulkRecords(p: Page, rs: seq<Record>): (q: Page)
    requires p.Leaf? && |rs| <= Capacity(p)
  {
    Leaf(rs + p.recordData[|rs|..], |rs|, 0)
  }

  function BulkEntries(p: Page, es: seq<Entry>): (q: Page)
    requires p.Index? && |es| <= Capacity(p)
  {
    Index(es + p.entryData[|es|..], |es|, 0)
  }

  lemma BulkContents(p: Page)
    ensures forall rs: seq<Record> :: p.Leaf? && |rs| <= Capacity(p) ==> Records(BulkRecords(p, rs)) == rs
    ensures forall es: seq<Entry> :: p.Index? && |es| <= Capacity(p) ==> Entries(BulkEntries(p, es)) == es
  {
  }

  // ---------------------------------------------------------------- reading a page

  predicate Fits(e: Entry, k: nat, v: nat) { e.version <= v && Contains(e.fence, k) }

  /** The child a reader at snapshot `v` follows: the last entry of version `<= v` whose fence has the key. */
  function Route(es: seq<Entry>, k: nat, v: nat): (r: Option<nat>)
    ensures r.Some? ==> r.value < |es| && Fits(es[r.value], k, v) && forall j :: r.value < j < |es| ==>
              !Fits(es[j], k, v)
    ensures r.None? ==> forall j :: 0 <= j < |es| ==> !Fits(es[j], k, v)
  {
    RFind((e: Entry) => Fits(e, k, v), es)
  }

  /** The child a writer follows: the last active entry whose fence has the key. */
  function RouteActive(es: seq<Entry>, k: nat): (r: Option<nat>)
    ensures r.Some? ==> r.value < |es| && es[r.value].Active() && Contains(es[r.value].fence, k)
    ensures r.None? ==> forall j :: 0 <= j < |es| ==> !(es[j].Active() && Contains(es[j].fence, k))
  {
    RFind((e: Entry) => e.Active() && Contains(e.fence, k), es)
  }

  function LastWithKey(rs: seq<Record>, k: nat): (r: Option<nat>)
    ensures r.Some? ==> r.value < |rs| && rs[r.value].key == k && forall j :: r.value < j < |rs| ==> rs[j].key != k
    ensures r.None? ==> forall j :: 0 <= j < |rs| ==> rs[j].key != k
  {
    RFind((r: Record) => r.key == k, rs)
  }

  predicate Hit(r: Record, k: nat, v: nat) { r.key == k && r.Matches(v) }

  /** `rev().skip_while(insert_version > v)`: without the newest records. */
  function SkipNewer(rs: seq<Record>, v: nat): (r: seq<Record>)
    ensures |r| <= |rs| && r == rs[..|r|]
    ensures forall j :: |r| <= j < |rs| ==> rs[j].ins > v
  {
    if |rs| > 0 && rs[|rs| - 1].ins > v then SkipNewer(rs[..|rs| - 1], v) else rs
  }

  /** A point read of a leaf: the newest record of the key that is live at `v`. */
  function PointAnswer(rs: seq<Record>, k: nat, v: nat): Option<nat> {
    var seen := SkipNewer(rs, v);
    match RFind((r: Record) => Hit(r, k, v), seen)
    case None => None
    case Some(i) => Some(seen[i].payload)
  }

  ghost predicate AnswerIs(rs: seq<Record>, k: nat, v: nat, ans: Option<nat>) {
    || (ans.None? && forall j :: 0 <= j < |rs| ==> !Hit(rs[j], k, v))
    || (ans.Some? && exists i :: 0 <= i < |rs| && Hit(rs[i], k, v) && rs[i].payload == ans.value
                         && forall j :: i < j < |rs| ==> !Hit(rs[j], k, v))
  }

  /** Skipping the newest records first never changes what a point read finds. */
  lemma PointAnswerIsLastHit(rs: seq<Record>, k: nat, v: nat, ans: Option<nat>)
    ensures PointAnswer(rs, k, v) == ans <==> AnswerIs(rs, k, v, ans)
  {
    var seen := SkipNewer(rs, v);
    var found := RFind((r: Record) => Hit(r, k, v), seen);
    if found.Some? {
      var i := found.value;
      assert rs[i] == seen[i] && Hit(seen[i], k, v);
      forall j | i < j < |rs| ensures !Hit(rs[j], k, v) {
        if j < |seen| { assert rs[j] == seen[j]; }
      }
      assert AnswerIs(rs, k, v, Some(seen[i].payload));
    } else {
      forall j | 0 <= j < |rs| ensures !Hit(rs[j], k, v) {
        if j < |seen| { assert rs[j] == seen[j]; }
      }
    }
  }
}
