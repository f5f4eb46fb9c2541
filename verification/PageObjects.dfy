/**
 The two kinds of pages as the program lays them out: fixed regions that are written in place and
 one packed length. Every operation is tied to the operation on page values it stands for.
 */
module PageObjects {
  import opened Util
  import opened Fences
  import opened Pages
  import opened Words

  class LeafPage {
    var len: nat
    const recordData: array<Record>

    ghost predicate Valid()
      reads this, recordData
    {
      recordData.Length < HALF && ActiveOf(len) + DeadOf(len) <= recordData.Length
    }

    ghost function Value(): Page
      reads this, recordData
      requires Valid()
    {
      Leaf(recordData[..], ActiveOf(len), DeadOf(len))
    }

    constructor (capacity: nat)
      requires capacity < HALF
      ensures Valid() && fresh(recordData) && recordData.Length == capacity && Value().Leaf? && Records(Value()) == []
      ensures Capacity(Value()) == capacity
    {
      recordData := new Record[capacity](_ => BLANK_RECORD);
      len := 0;
    }

    method Length() returns (n: nat)
      requires Valid()
      ensures n == Sum(Value()) == |Records(Value())|
    {
      n := ActiveOf(len) + DeadOf(len);
    }

    method PushUncommitted(record: Record, index: nat)
      requires Valid() && index < recordData.Length
      modifies recordData
      ensures Valid() && Value() == PushRecord(old(Value()), record, index)
    {
      recordData[index] := record;
    }

    method CommitDelta(activeDelta: int, deadDelta: int)
      requires Valid() && 0 <= ActiveOf(len) + activeDelta && 0 <= DeadOf(len) + deadDelta
      requires ActiveOf(len) + DeadOf(len) + activeDelta + deadDelta <= recordData.Length
      modifies this`len
      ensures Valid() && Value() == Pages.CommitDelta(old(Value()), activeDelta, deadDelta)
      ensures Value().active == old(Value().active) + activeDelta && Value().dead == old(Value().dead) + deadDelta
    {
      var active, dead := ActiveOf(len) + activeDelta, DeadOf(len) + deadDelta;
      Packed(active, dead);
      len := Pack(active, dead);
    }

    /** All slots first, then one store of the length. */
    method BulkPush(records: seq<Record>)
      requires Valid() && len == 0 && |records| <= recordData.Length
      modifies this`len, recordData
      ensures Valid() && Value() == BulkRecords(old(Value()), records)
      ensures Records(Value()) == records && Value().active == |records| && Value().dead == 0
    {
      ghost var slots := recordData[..];
      WriteSlots(records);
      Packed(|records|, 0);
      len := Pack(|records|, 0);
    }

    method WriteSlots(records: seq<Record>)
      requires |records| <= recordData.Length
      modifies recordData
      ensures recordData[..] == records + old(recordData[..])[|records|..]
    {
      ghost var slots := recordData[..];
      var i := 0;
      while i < |records|
        invariant 0 <= i <= |records|
        invariant forall j :: 0 <= j < recordData.Length ==> recordData[j] == if j < i then records[j] else slots[j]
      {
        recordData[i] := records[i];
        i := i + 1;
      }
    }

    /** Ends the last record of the key, if it has not ended yet. */
    method Delete(key: nat, del: nat) returns (r: Result<bool, bool>)
      requires Valid()
      modifies recordData
      ensures Valid()
      ensures var i := LastWithKey(Records(old(Value())), key);
              && (i.None? ==> r == Ok(false) && Value() == old(Value()))
              && (i.Some? && !Records(old(Value()))[i.value].Live() ==> r.Err? && Value() == old(Value()))
              && (i.Some? && Records(old(Value()))[i.value].Live() ==>
                  r == Ok(true) && Value() == StampDeleted(old(Value()), i.value, del))
    {
      r := DeleteBelow(key, del, ActiveOf(len) + DeadOf(len));
      assert Records(old(Value()))[..|Records(old(Value()))|] == Records(old(Value()));
    }

    /** The same, without looking at the newest record: the one an update has just pushed. */
    method DeleteAfterUpdate(key: nat, del: nat) returns (r: Result<bool, bool>)
      requires Valid()
      modifies recordData
      ensures Valid()
      ensures var older := Records(old(Value()))[..Max(Sum(old(Value())) - 1, 0)]; var i := LastWithKey(older, key);
              && (i.None? ==> r == Ok(false) && Value() == old(Value()))
              && (i.Some? && !older[i.value].Live() ==> r.Err? && Value() == old(Value()))
              && (i.Some? && older[i.value].Live() ==>
                r == Ok(true) && Value() == StampDeleted(old(Value()), i.value, del))
    {
      var count := ActiveOf(len) + DeadOf(len);
      r := DeleteBelow(key, del, if count == 0 then 0 else count - 1);
    }

    method DeleteBelow(key: nat, del: nat, bound: nat) returns (r: Result<bool, bool>)
      requires Valid() && bound <= ActiveOf(len) + DeadOf(len)
      modifies recordData
      ensures Valid()
      ensures var seen := Records(old(Value()))[..bound]; var i := LastWithKey(seen, key);
              && (i.None? ==> r == Ok(false) && Value() == old(Value()))
              && (i.Some? && !seen[i.value].Live() ==> r.Err? && Value() == old(Value()))
              && (i.Some? && seen[i.value].Live() ==>
                r == Ok(true) && Value() == StampDeleted(old(Value()), i.value, del))
    {
      ghost var seen := Records(Value())[..bound];
      var i := bound;
      while i > 0 && recordData[i - 1].key != key
        invariant 0 <= i <= bound
        invariant forall j :: i <= j < bound ==> seen[j].key != key
      {
        assert seen[i - 1] == recordData[i - 1];
        i := i - 1;
      }
      if i == 0 {
        NoneWithKey(seen, key);
        return Ok(false);
      }
      assert seen[i - 1] == recordData[i - 1];
      LastIs(seen, key, i - 1);
      if recordData[i - 1].del.Some? {
        return Err(false);
      }
      recordData[i - 1] := recordData[i - 1].(del := Some(del));
      return Ok(true);
    }

    method OnReuse()
      requires Valid()
      modifies this`len
      ensures Valid() && Value() == Leaf(recordData[..], 0, 0) && recordData[..] == old(recordData[..])
      ensures Records(Value()) == []
    {
      len := 0;
    }
  }

  lemma LastIs(rs: seq<Record>, k: nat, i: nat)
    requires i < |rs| && rs[i].key == k && forall j :: i < j < |rs| ==> rs[j].key != k
    ensures LastWithKey(rs, k) == Some(i)
  {
  }

  lemma NoneWithKey(rs: seq<Record>, k: nat)
    requires forall j :: 0 <= j < |rs| ==> rs[j].key != k
    ensures LastWithKey(rs, k).None?
  {
  }

  // ---------------------------------------------------------------- internal pages

  ghost function EntryAt(f: Fence, word: nat, child: nat): Entry { Entry(f, VersionOf(word), Flagged(word), child) }

  /** Three parallel regions: fences, version words, pointers. */
  class InternalPage {
    var len: nat
    const keyIntervals: array<Fence>
    const versions: array<nat>
    const pointers: array<nat>

    ghost predicate Valid()
      reads this
    {
      && keyIntervals.Length == versions.Length == pointers.Length < HALF
      && ActiveOf(len) + DeadOf(len) <= keyIntervals.Length && versions != pointers
    }

    ghost function Slots(): (r: seq<Entry>)
      reads this, keyIntervals, versions, pointers
      requires Valid()
      ensures |r| == keyIntervals.Length
      ensures forall i :: 0 <= i < |r| ==> r[i] == EntryAt(keyIntervals[i], versions[i], pointers[i])
    {
      seq(keyIntervals.Length,
          i requires 0 <= i < keyIntervals.Length reads keyIntervals, versions, pointers, this requires Valid() =>
            EntryAt(keyIntervals[i], versions[i], pointers[i]))
    }

    ghost function Value(): Page
      reads this, keyIntervals, versions, pointers
      requires Valid()
    {
      Index(Slots(), ActiveOf(len), DeadOf(len))
    }

    constructor (capacity: nat)
      requires capacity < HALF
      ensures Valid() && fresh(keyIntervals) && fresh(versions) && fresh(pointers) && keyIntervals.Length == capacity
      ensures Value().Index? && Entries(Value()) == [] && Capacity(Value()) == capacity
    {
      keyIntervals := new Fence[capacity](_ => Fence(0, 0));
      versions := new nat[capacity](_ => 0);
      pointers := new nat[capacity](_ => 0);
      len := 0;
    }

    method PushUncommitted(f: Fence, version: nat, child: nat, index: nat)
      requires Valid() && index < keyIntervals.Length && version < FLAG
      modifies keyIntervals, versions, pointers
      ensures Valid() && Value() == PushEntry(old(Value()), Entry(f, version, false, child), index)
    {
      keyIntervals[index] := f;
      versions[index] := version;
      pointers[index] := child;
      assert Slots() == old(Slots())[index := Entry(f, version, false, child)];
    }

    method CommitDelta(activeDelta: int, deadDelta: nat)
      requires Valid() && 0 <= ActiveOf(len) + activeDelta
      requires ActiveOf(len) + DeadOf(len) + activeDelta + deadDelta <= keyIntervals.Length
      modifies this`len
      ensures Valid() && Value() == Pages.CommitDelta(old(Value()), activeDelta, deadDelta)
      ensures Value().active == old(Value().active) + activeDelta && Value().dead == old(Value().dead) + deadDelta
    {
      var active, dead := ActiveOf(len) + activeDelta, DeadOf(len) + deadDelta;
      Packed(active, dead);
      len := Pack(active, dead);
      assert Slots() == old(Slots());
    }

    /** Sets the flag of one version word; the version readers compare stays. */
    method MarkVersionObsolete(index: nat)
      requires Valid() && index < keyIntervals.Length
      modifies versions
      ensures Valid() && Value() == MarkObsolete(old(Value()), index)
    {
      FlagKeepsVersion(versions[index]);
      versions[index] := WithFlag(versions[index]);
      assert Slots() == old(Slots())[index := old(Slots())[index].(obsolete := true)];
    }

    method BulkPush(entries: seq<Entry>)
      requires Valid() && len == 0 && |entries| <= keyIntervals.Length
      requires forall e :: e in entries ==> e.Active() && e.version < FLAG
      modifies this`len, keyIntervals, versions, pointers
      ensures Valid() && Value() == BulkEntries(old(Value()), entries)
      ensures Entries(Value()) == entries && Value().active == |entries| && Value().dead == 0
    {
      var i := 0;
      ghost var slots := Slots();
      while i < |entries|
        invariant 0 <= i <= |entries| && len == 0
        invariant Slots() == entries[..i] + slots[i..]
      {
        PushOne(entries, i, slots);
        i := i + 1;
      }
      assert entries[..|entries|] == entries;
      hide ActiveOf, DeadOf;
      Fill(entries, slots);
    }

    method PushOne(entries: seq<Entry>, i: nat, ghost slots: seq<Entry>)
      requires Valid() && len == 0 && i < |entries| <= keyIntervals.Length
      requires (forall e :: e in entries ==> e.Active() && e.version < FLAG)
      requires |slots| == keyIntervals.Length && Slots() == entries[..i] + slots[i..]
      modifies keyIntervals, versions, pointers
      ensures Valid() && Slots() == entries[..i + 1] + slots[i + 1..]
    {
      assert entries[i] in entries;
      var e := entries[i];
      PushUncommitted(e.fence, e.version, e.child, i);
      assert Slots() == (entries[..i] + slots[i..])[i := e];
    }

    method Fill(entries: seq<Entry>, ghost slots: seq<Entry>)
      requires Valid() && len == 0 && |entries| <= keyIntervals.Length == |slots|
      requires Slots() == entries + slots[|entries|..]
      modifies this`len
      ensures Valid() && Slots() == old(Slots()) && Value() == Index(entries + slots[|entries|..], |entries|, 0)
    {
      Packed(|entries|, 0);
      len := Pack(|entries|, 0);
      assert Slots() == old(Slots());
    }

    method LastChild() returns (child: nat)
      requires Valid() && ActiveOf(len) + DeadOf(len) > 0
      ensures child == Entries(Value())[|Entries(Value())| - 1].child
    {
      child := pointers[ActiveOf(len) + DeadOf(len) - 1];
    }

    method OnReuse()
      requires Valid()
      modifies this`len
      ensures Valid() && Value() == Index(old(Slots()), 0, 0) && Entries(Value()) == []
    {
      len := 0;
      assert Slots() == old(Slots());
    }
  }
}
