/**
 The two trackers of the garbage collector. Both keep ordered sets whose entries a sequence number
 makes unique: the readers by snapshot, the dead pages by the version they died at.
 */
module Trackers {
  import opened Util
  import opened TreeModel

  datatype Ticket = Ticket(snapshot: nat, serial: nat)

  predicate Less(a: Ticket, b: Ticket) { a.snapshot < b.snapshot || (a.snapshot == b.snapshot && a.serial < b.serial) }

  ghost predicate Sorted(s: seq<Ticket>) { Pairwise(s, Less) }

  ghost predicate SerialsBelow(s: seq<Ticket>, serial: nat) { forall i :: 0 <= i < |s| ==> s[i].serial < serial }

  /** The snapshots as a multiset: readers that share one count separately. */
  ghost function Snapshots(s: seq<Ticket>): multiset<nat> {
    if |s| == 0 then multiset{} else Snapshots(s[..|s| - 1]) + multiset{s[|s| - 1].snapshot}
  }

  lemma {:induction false} SnapshotsSplit(a: seq<Ticket>, b: seq<Ticket>)
    ensures Snapshots(a + b) == Snapshots(a) + Snapshots(b)
  {
    if |b| == 0 {
      assert a + b == a;
    } else {
      assert (a + b)[..|a + b| - 1] == a + b[..|b| - 1];
      SnapshotsSplit(a, b[..|b| - 1]);
    }
  }

  lemma SnapshotsOne(t: Ticket)
    ensures Snapshots([t]) == multiset{t.snapshot}
  {
    assert [t][..0] == [];
  }

  lemma {:induction false} SnapshotsMember(s: seq<Ticket>, v: nat)
    ensures v in Snapshots(s) <==> exists i :: 0 <= i < |s| && s[i].snapshot == v
  {
    if |s| > 0 {
      SnapshotsMember(s[..|s| - 1], v);
      assert v == s[|s| - 1].snapshot ==> s[|s| - 1].snapshot == v;
    }
  }

  /** The place of a new ticket in an ordered set. */
  function Place(s: seq<Ticket>, t: Ticket): (n: nat)
    ensures n <= |s|
    ensures n > 0 ==> Less(s[n - 1], t)
    ensures forall i :: n <= i < |s| ==> !Less(s[i], t)
  {
    if |s| == 0 then 0 else if Less(s[|s| - 1], t) then |s| else Place(s[..|s| - 1], t)
  }

  function Insert(s: seq<Ticket>, t: Ticket): seq<Ticket> { s[..Place(s, t)] + [t] + s[Place(s, t)..] }

  lemma TicketSorted(s: seq<Ticket>, t: Ticket)
    requires Sorted(s) && SerialsBelow(s, t.serial)
    ensures Sorted(Insert(s, t)) && Snapshots(Insert(s, t)) == Snapshots(s) + multiset{t.snapshot}
    ensures SerialsBelow(Insert(s, t), t.serial + 1)
  {
    hide Snapshots;
    var n := Place(s, t);
    InsertSnapshots(s, t, n);
    assert forall i :: n <= i < |s| ==> Less(t, s[i]);
    assert forall i :: 0 <= i < n ==> i == n - 1 || Less(s[i], s[n - 1]);
    PairwiseInsert(s, t, n, Less);
  }

  lemma InsertSnapshots(s: seq<Ticket>, t: Ticket, n: nat)
    requires n <= |s|
    ensures Snapshots(s[..n] + [t] + s[n..]) == Snapshots(s) + multiset{t.snapshot}
  {
    hide Snapshots;
    SnapshotsSplit(s[..n] + [t], s[n..]);
    SnapshotsSplit(s[..n], [t]);
    SnapshotsSplit(s[..n], s[n..]);
    SnapshotsOne(t);
    assert s[..n] + s[n..] == s;
  }

  lemma RemoveAt(s: seq<Ticket>, i: nat)
    requires Sorted(s) && i < |s|
    ensures Sorted(s[..i] + s[i + 1..]) && Snapshots(s[..i] + s[i + 1..]) + multiset{s[i].snapshot} == Snapshots(s)
  {
    hide Snapshots, Pairwise, Less;
    PairwiseRemove(s, i, Less);
    RemoveSnapshots(s[..i], s[i], s[i + 1..]);
    SplitAt(s, i);
  }

  lemma SplitAt(s: seq<Ticket>, i: nat)
    requires i < |s|
    ensures s == s[..i] + ([s[i]] + s[i + 1..])
  {
  }

  lemma RemoveSnapshots(a: seq<Ticket>, t: Ticket, b: seq<Ticket>)
    ensures Snapshots(a + b) + multiset{t.snapshot} == Snapshots(a + ([t] + b))
  {
    hide Snapshots;
    SnapshotsSplit(a, [t] + b);
    SnapshotsSplit([t], b);
    SnapshotsOne(t);
    SnapshotsSplit(a, b);
  }

  /** The front of an ordered set carries the smallest snapshot. */
  lemma FrontIsLeast(s: seq<Ticket>, v: nat)
    requires Sorted(s) && v in Snapshots(s)
    ensures |s| > 0 && s[0].snapshot <= v
  {
    SnapshotsMember(s, v);
    var i :| 0 <= i < |s| && s[i].snapshot == v;
    assert i > 0 ==> Less(s[0], s[i]);
  }

  ghost predicate IsLeast(r: Option<nat>, m: multiset<nat>) {
    && (r.None? <==> m == multiset{})
    && (r.Some? ==> r.value in m && forall v: nat :: v in m ==> r.value <= v)
  }

  lemma NoSnapshots(s: seq<Ticket>)
    ensures Snapshots(s) == multiset{} <==> |s| == 0
  {
    if |s| > 0 {
      assert s[|s| - 1].snapshot in Snapshots(s);
    }
  }

  /** Registered readers and pins, in one object as in the program. */
  class TransactionTrace {
    var queries: seq<Ticket>
    var pins: seq<Ticket>
    var serial: nat

    ghost predicate Valid()
      reads this
    {
      Sorted(queries) && Sorted(pins) && SerialsBelow(queries, serial) && SerialsBelow(pins, serial)
    }

    ghost function Readers(): multiset<nat>
      reads this
    {
      Snapshots(queries)
    }

    ghost function Pinned(): multiset<nat>
      reads this
    {
      Snapshots(pins)
    }

    constructor ()
      ensures Valid() && Readers() == multiset{} && Pinned() == multiset{}
    {
      queries, pins, serial := [], [], 0;
    }

    method OnTxStart(snapshot: nat)
      requires Valid()
      modifies this
      ensures Valid() && Readers() == old(Readers()) + multiset{snapshot} && Pinned() == old(Pinned())
    {
      TicketSorted(queries, Ticket(snapshot, serial));
      queries := Insert(queries, Ticket(snapshot, serial));
      serial := serial + 1;
    }

    /** Releases one registration of the snapshot; without any it does nothing. */
    method OnTxCompleted(snapshot: nat)
      requires Valid()
      modifies this`queries
      ensures Valid() && Readers() == old(Readers()) - multiset{snapshot} && Pinned() == old(Pinned())
    {
      var i := 0;
      while i < |queries| && queries[i].snapshot != snapshot
        invariant 0 <= i <= |queries|
        invariant forall j :: 0 <= j < i ==> queries[j].snapshot != snapshot
      {
        i := i + 1;
      }
      if i < |queries| {
        RemoveAt(queries, i);
        queries := queries[..i] + queries[i + 1..];
      } else {
        SnapshotsMember(queries, snapshot);
      }
    }

    method Pin(lowerBound: nat) returns (ticket: Ticket)
      requires Valid()
      modifies this
      ensures Valid() && Readers() == old(Readers()) && Pinned() == old(Pinned()) + multiset{lowerBound}
      ensures ticket in pins && ticket.snapshot == lowerBound && ticket !in old(pins)
    {
      ticket := Ticket(lowerBound, serial);
      TicketSorted(pins, ticket);
      pins := Insert(pins, ticket);
      serial := serial + 1;
    }

    method Unpin(ticket: Ticket)
      requires Valid() && ticket in pins
      modifies this`pins
      ensures Valid() && Readers() == old(Readers()) && Pinned() == old(Pinned()) - multiset{ticket.snapshot}
      ensures ticket !in pins
    {
      var i := 0;
      while pins[i] != ticket
        invariant 0 <= i < |pins| && ticket !in pins[..i]
        decreases |pins| - i
      {
        assert pins == pins[..i + 1] + pins[i + 1..] && pins[..i + 1] == pins[..i] + [pins[i]];
        assert ticket in pins[i + 1..];
        i := i + 1;
      }
      RemoveAt(pins, i);
      pins := pins[..i] + pins[i + 1..];
    }

    /** The oldest snapshot any announced reader may use. */
    method PeekMin() returns (r: Option<nat>)
      requires Valid()
      ensures IsLeast(r, Readers() + Pinned())
    {
      hide Snapshots, Sorted, Pairwise;
      NoSnapshots(queries);
      NoSnapshots(pins);
      ghost var all := Readers() + Pinned();
      forall v: nat | v in all
        ensures (v in Readers() ==> |queries| > 0 && queries[0].snapshot <= v)
                  && (v in Pinned() ==> |pins| > 0 && pins[0].snapshot <= v)
      {
        if v in Readers() { FrontIsLeast(queries, v); }
        if v in Pinned() { FrontIsLeast(pins, v); }
      }
      if |queries| > 0 {
        SnapshotsMember(queries, queries[0].snapshot);
        r := Some(queries[0].snapshot);
        if |pins| > 0 {
          SnapshotsMember(pins, pins[0].snapshot);
          r := Some(Min(queries[0].snapshot, pins[0].snapshot));
        }
      } else if |pins| > 0 {
        SnapshotsMember(pins, pins[0].snapshot);
        r := Some(pins[0].snapshot);
      } else {
        r := None;
      }
    }
  }

  // ---------------------------------------------------------------- dead pages

  predicate Earlier(a: Dead, b: Dead) { a.death < b.death || (a.death == b.death && a.serial < b.serial) }

  ghost predicate DeadSorted(s: seq<Dead>) { Pairwise(s, Earlier) }

  function DeadPlace(s: seq<Dead>, d: Dead): (n: nat)
    ensures n <= |s|
    ensures n > 0 ==> Earlier(s[n - 1], d)
    ensures forall i :: n <= i < |s| ==> !Earlier(s[i], d)
  {
    if |s| == 0 then 0 else if Earlier(s[|s| - 1], d) then |s| else DeadPlace(s[..|s| - 1], d)
  }

  function Bury(s: seq<Dead>, d: Dead): seq<Dead> { s[..DeadPlace(s, d)] + [d] + s[DeadPlace(s, d)..] }

  lemma BurySorted(s: seq<Dead>, d: Dead)
    requires DeadSorted(s) && forall i :: 0 <= i < |s| ==> s[i].serial < d.serial
    ensures DeadSorted(Bury(s, d)) && multiset(Bury(s, d)) == multiset(s) + multiset{d}
  {
    var n := DeadPlace(s, d);
    BuryBag(s, d, n);
    assert forall i :: n <= i < |s| ==> Earlier(d, s[i]);
    assert forall i :: 0 <= i < n ==> i == n - 1 || Earlier(s[i], s[n - 1]);
    PairwiseInsert(s, d, n, Earlier);
  }

  lemma BuryBag(s: seq<Dead>, d: Dead, n: nat)
    requires n <= |s|
    ensures multiset(s[..n] + [d] + s[n..]) == multiset(s) + multiset{d}
  {
    assert s == s[..n] + s[n..];
  }

  class BlockTrace {
    var dead: seq<Dead>
    var serial: nat

    ghost predicate Valid()
      reads this
    {
      DeadSorted(dead) && forall i :: 0 <= i < |dead| ==> dead[i].serial < serial
    }

    constructor ()
      ensures Valid() && dead == []
    {
      dead, serial := [], 0;
    }

    /** Adds a page and replaces none, whatever dies at the same version. */
    method RegisterDiedPage(death: nat, page: nat)
      requires Valid()
      modifies this
      ensures Valid() && multiset(dead) == multiset(old(dead)) + multiset{Dead(death, old(serial), page)}
      ensures serial == old(serial) + 1
    {
      BurySorted(dead, Dead(death, serial, page));
      MultisetMembers(Bury(dead, Dead(death, serial, page)), dead + [Dead(death, serial, page)]);
      var all := Bury(dead, Dead(death, serial, page));
      assert forall d :: d in all ==> d in dead || d == Dead(death, serial, page);
      dead := all;
      serial := serial + 1;
    }

    /** Hands out the page that died first if it died below the bound, and takes it out of the set. */
    method PopMinIf(bound: nat) returns (r: Option<Dead>)
      requires Valid()
      modifies this`dead
      ensures Valid()
      ensures r.Some? <==> exists d :: d in old(dead) && d.death < bound
      ensures r.None? ==> dead == old(dead)
      ensures r.Some? ==> r.value.death < bound && multiset(dead) + multiset{r.value} == multiset(old(dead))
      ensures r.Some? ==>
                forall d :: d in old(dead) ==>
                  d == r.value || d.death > r.value.death || (d.death == r.value.death && d.serial > r.value.serial)
    {
      if |dead| > 0 && dead[0].death < bound {
        r := Some(dead[0]);
        assert dead == [dead[0]] + dead[1..];
        forall d | d in dead
          ensures d == dead[0] || d.death > dead[0].death || (d.death == dead[0].death && d.serial > dead[0].serial)
        {
          var i :| 0 <= i < |dead| && dead[i] == d;
          assert i == 0 || Earlier(dead[0], dead[i]);
        }
        dead := dead[1..];
      } else {
        r := None;
        forall d | d in dead ensures d.death >= bound {
          var i :| 0 <= i < |dead| && dead[i] == d;
        }
      }
    }
  }
}
