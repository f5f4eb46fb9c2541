/**
 The root index: a list of root versions with a second, ridge pointer per node. Nodes never change
 once they are linked; only the head moves.
 */
module FrugalList {
  import opened Util
  import opened TreeModel

  const FLAT_LEVEL: nat := 0
  const SENTINEL_LEVEL: nat := 0xFFFF_FFFF_FFFF_FFFF

  class Node {
    const root: Root
    const level: nat
    const next: Node?
    const ridge: Node?

    constructor (root: Root, level: nat, next: Node?, ridge: Node?)
      ensures this.root == root && this.level == level && this.next == next && this.ridge == ridge
    {
      this.root, this.level, this.next, this.ridge := root, level, next, ridge;
    }
  }

  /** The ridge of node `i` leads to node `r`, the nearest older node of at least its level. */
  ghost predicate RidgeAt(nodes: seq<Node>, i: nat, r: nat) {
    && r < i < |nodes| && nodes[i].ridge == nodes[r] && nodes[r].level >= nodes[i].level
    && forall j :: r < j < i ==> nodes[j].level < nodes[i].level
  }

  /** Oldest first: the sentinel, then every node linked to the one before it. */
  ghost predicate Chain(nodes: seq<Node>) {
    && |nodes| > 0 && nodes[0].level == SENTINEL_LEVEL && nodes[0].next == null && nodes[0].ridge == null
    && (forall i :: 1 <= i < |nodes| ==>
      nodes[i].level < SENTINEL_LEVEL && nodes[i].next == nodes[i - 1] && HasRidge(nodes, i))
    && forall i, j :: 0 <= i < j < |nodes| ==> nodes[i].root.version <= nodes[j].root.version
  }

  ghost predicate HasRidge(nodes: seq<Node>, i: nat) { exists r :: RidgeAt(nodes, i, r) }

  ghost function RootsOf(nodes: seq<Node>): (r: seq<Root>)
    ensures |r| == |nodes| && forall i :: 0 <= i < |nodes| ==> r[i] == nodes[i].root
  {
    seq(|nodes|, i requires 0 <= i < |nodes| => nodes[i].root)
  }

  lemma ChainAppend(nodes: seq<Node>, n: Node, r: nat)
    requires Chain(nodes) && n.level < SENTINEL_LEVEL && n.next == nodes[|nodes| - 1]
    requires nodes[|nodes| - 1].root.version <= n.root.version
    requires RidgeAt(nodes + [n], |nodes|, r)
    ensures Chain(nodes + [n])
  {
    var all := nodes + [n];
    forall i | 1 <= i < |all| ensures HasRidge(all, i) {
      if i < |nodes| { RidgeStays(nodes, n, i); }
    }
  }

  lemma RidgeStays(nodes: seq<Node>, n: Node, i: nat)
    requires i < |nodes| && HasRidge(nodes, i)
    ensures HasRidge(nodes + [n], i)
  {
    var r: nat :| RidgeAt(nodes, i, r);
    assert RidgeAt(nodes + [n], i, r);
  }

  class AtomicFrugalList {
    var head: Node
    ghost var nodes: seq<Node>

    ghost predicate Valid()
      reads this
    {
      Chain(nodes) && head == nodes[|nodes| - 1]
    }

    ghost function Roots(): seq<Root>
      reads this
    {
      RootsOf(nodes)
    }

    constructor (root: Root)
      ensures Valid() && Roots() == [root]
    {
      var sentinel := new Node(root, SENTINEL_LEVEL, null, null);
      head := sentinel;
      nodes := [sentinel];
    }

    method AppendNext(root: Root)
      requires Valid() && head.root.version <= root.version
      modifies this
      ensures Valid() && Roots() == old(Roots()) + [root] && nodes == old(nodes) + [head]
      ensures head.root == root && head.level == 0 && head.next == old(head) && head.ridge == old(head)
    {
      var newHead := new Node(root, FLAT_LEVEL, head, head);
      ghost var all := nodes + [newHead];
      assert RidgeAt(all, |nodes|, |nodes| - 1);
      ChainAppend(nodes, newHead, |nodes| - 1);
      head := newHead;
      nodes := all;
    }

    /** Climbs along the ridges to the nearest node of at least the new level; the sentinel stops every climb. */
    method AppendTower(root: Root, level: nat)
      requires Valid() && head.root.version <= root.version && 1 <= level < SENTINEL_LEVEL
      modifies this
      ensures Valid() && Roots() == old(Roots()) + [root] && nodes == old(nodes) + [head]
      ensures head.root == root && head.level == level && head.next == old(head)
      ensures exists r: nat ::
                && r < |old(nodes)| && head.ridge == old(nodes)[r] && old(nodes)[r].level >= level
                && forall j :: r < j < |old(nodes)| ==> old(nodes)[j].level < level
    {
      var curr := head;
      ghost var c: nat := |nodes| - 1;
      while curr.level < level
        invariant 0 <= c < |nodes| && curr == nodes[c]
        invariant forall j :: c < j < |nodes| ==> nodes[j].level < level
        decreases c
      {
        assert HasRidge(nodes, c);
        ghost var r: nat :| RidgeAt(nodes, c, r);
        curr := curr.ridge;
        c := r;
      }
      var newHead := new Node(root, level, head, curr);
      ghost var all := nodes + [newHead];
      assert RidgeAt(all, |nodes|, c);
      ChainAppend(nodes, newHead, c);
      head := newHead;
      nodes := all;
    }

    /** The newest root of version at most `v`, as a scan of the whole list finds it. */
    method Find(v: nat) returns (r: Option<Root>)
      requires Valid()
      ensures r == match RootFor(Roots(), v) { case None => None case Some(i) => Some(Roots()[i]) }
      ensures r.None? <==> forall i :: 0 <= i < |nodes| ==> nodes[i].root.version > v
      ensures r.Some? ==>
                exists i :: 0 <= i < |nodes| && r.value == nodes[i].root && r.value.version <= v
                  && forall j :: i < j < |nodes| ==> nodes[j].root.version > v
    {
      var curr := head;
      ghost var c: nat := |nodes| - 1;
      while curr.level < SENTINEL_LEVEL && curr.root.version > v
        invariant 0 <= c < |nodes| && curr == nodes[c]
        invariant forall j :: c < j < |nodes| ==> nodes[j].root.version > v
        decreases c
      {
        assert HasRidge(nodes, c);
        ghost var r: nat :| RidgeAt(nodes, c, r);
        if curr.ridge != null && curr.ridge.root.version > v {
          curr := curr.ridge;
          c := r;
        } else {
          curr := curr.next;
          c := c - 1;
        }
      }
      ghost var i := RootFor(Roots(), v);
      if curr.root.version <= v {
        assert Roots()[c].version <= v;
        return Some(curr.root);
      }
      return None;
    }
  }

  /** The linked-list index scans backwards and falls back to the oldest root. */
  function LinkedRootFor(roots: seq<Root>, v: nat): Root
    requires |roots| > 0
  {
    match RootFor(roots, v)
    case Some(i) => roots[i]
    case None => roots[0]
  }

  /** Both indexes agree exactly on the snapshots the list index can answer at all. */
  lemma FindAgreesWithScan(roots: seq<Root>, v: nat)
    requires |roots| > 0 && forall i, j :: 0 <= i < j < |roots| ==> roots[i].version <= roots[j].version
    ensures RootFor(roots, v).Some? <==> roots[0].version <= v
    ensures RootFor(roots, v).Some? ==> roots[RootFor(roots, v).value] == LinkedRootFor(roots, v)
    ensures RootFor(roots, v).Some? <==> LinkedRootFor(roots, v).version <= v
  {
    if RootFor(roots, v).Some? { assert roots[0].version <= roots[RootFor(roots, v).value].version; }
  }
}
