/**
 Garbage collection as one machine: the commit clock with its scans, the tree with all its writers,
 readers that pin, draw a snapshot and walk down page by page, and allocators that compose a bound
 and hand dead pages out again. Every thread is at its own point of the program; a step is one
 access to what the threads share.
 */
module Gc {
  import opened Util
  import opened Fences
  import opened History
  import opened Pages
  import opened Smo
  import opened TreeModel
  import opened Reorg
  import opened ParentReorg
  import opened RootReorg
  import opened Publish
  import opened Snapshots
  import opened Clock
  import opened InFlight
  import opened Weave
  import opened WeaveBelow
  import opened WeaveRoot
  import opened WeaveJobs

  /** What a thread is doing as a reader or an allocator; the commit clock keeps its own account of its calls. */
  datatype Job =
    | Free
    | Announcing
    | GotBound(bound: nat)
    | Pinned(bound: nat)
    | Drawn(bound: nat, snapshot: nat)
    | Standing(bound: nat, snapshot: nat, key: nat, page: nat)
    | Reclaiming
    | SawCommitted(committed: nat)
    | SawReaders(committed: nat, least: Option<nat>)
    | HasBound(limit: nat)

  /** What it is doing as a writer: it has a page latched, or a reorganization under way. */
  datatype Work =
    | Rest
    | Holding(page: nat)
    | Below(parent: nat, olds: set<nat>, version: nat)
    | AtRoot(source: nat, version: nat)

  /**
   `own` holds the pages outside the tree that a thread has taken. A page that died waits in `limbo`
   until its writer has registered it in the graveyard.
   */
  datatype World = World(clock: State, tree: Tree, jobs: seq<Job>, works: seq<Work>, own: seq<set<nat>>,
                         limbo: set<Dead>, graveyard: set<Dead>)

  /** A reorganization that has drawn its version and has not published yet. */
  predicate Open(k: Work) { k.Below? || k.AtRoot? }

  predicate HoldsPin(j: Job) { j.Pinned? || j.Drawn? || j.Standing? }

  predicate HasSnapshot(j: Job) { j.Drawn? || j.Standing? }

  /** The thread waits for the result of a call. */
  predicate Waits(j: Job) { j.Announcing? || j.Pinned? || j.Reclaiming? }

  /** The pages the thread has latched. A thread that replaces the root has latched the root index, not the root. */
  ghost function Latched(t: Tree, k: Work): set<nat> {
    match k
    case Rest => {}
    case Holding(p) => {p}
    case Below(p, olds, _) => {p} + Replaced(t, p, olds)
    case AtRoot(s, _) => if |t.roots| > 0 && Top(t).page == s then {} else {s}
  }

  /** The pages an open reorganization is going to replace or to write to. */
  ghost function Held(t: Tree, k: Work): set<nat> {
    match k
    case Below(p, olds, _) => {p} + Replaced(t, p, olds)
    case AtRoot(s, _) => (if |t.roots| > 0 then {Top(t).page} else {}) + {s}
    case _ => {}
  }

  /** What the front of the pins shows. */
  ghost predicate LeastPin(jobs: seq<Job>, r: Option<nat>) {
    && (r.None? <==> forall i :: 0 <= i < |jobs| ==> !HoldsPin(jobs[i]))
    && (r.Some? ==>
          && (exists i :: 0 <= i < |jobs| && HoldsPin(jobs[i]) && jobs[i].bound == r.value)
          && forall i :: 0 <= i < |jobs| && HoldsPin(jobs[i]) ==> r.value <= jobs[i].bound)
  }

  function Lower(a: nat, r: Option<nat>): nat { match r case None => a case Some(v) => Min(a, v) }

  // ---------------------------------------------------------------- steps of thread `t`

  ghost predicate On(w: World, t: nat) {
    t < |w.jobs| && t < |w.works| && t < |w.own| && t < |w.clock.pcs| && t < w.clock.registered
  }

  /** A step of a call; its result, if it returns one, is what the thread has been waiting for. */
  ghost predicate Calling(w: World, w': World, t: nat) {
    && On(w, t) && Waits(w.jobs[t]) && Calls(w.clock, w'.clock, t)
    && w' == w.(clock := w'.clock, jobs := w.jobs[t := AfterCall(w.jobs[t], w.clock, w'.clock)])
  }

  function AfterCall(j: Job, c: State, c': State): Job {
    if c'.results == c.results then j
    else match j
      case Announcing => GotBound(c'.globalMin)
      case Pinned(b) => Drawn(b, c'.globalMin)
      case Reclaiming => SawCommitted(c'.globalMin)
      case other => other
  }

  /**
   Any step of the clock by a thread without an open reorganization: commits in leaves, slots that
   become inactive, calls whose result is not used here, registration.
   */
  ghost predicate Ticking(w: World, w': World, t: nat) {
    && t < |w.jobs| && t < |w.works| && !Open(w.works[t]) && Clock.Step(w.clock, w'.clock, t)
    && (Waits(w.jobs[t]) ==> Commits(w.clock, w'.clock, t))
    && w' == w.(clock := w'.clock, tree := w.tree.(clock := w'.clock.clock))
  }

  /** A thread that has latched a leaf and drawn its version writes into the leaf. */
  ghost predicate Writes(w: World, w': World, t: nat, q: Page) {
    && On(w, t) && w.works[t].Holding? && w.clock.pcs[t].Committing?
    && w.works[t].page < |w.tree.pages| && w.tree.pages[w.works[t].page].Leaf? && q.Leaf?
    && w' == w.(tree := w.tree.(pages := w.tree.pages[w.works[t].page := q]))
  }

  /** A thread takes the latch of one more page, letting go of the one before, or lets go of all. */
  ghost predicate Latches(w: World, w': World, t: nat) {
    && On(w, t) && !Open(w.works[t]) && |w'.works| == |w.works| && w' == w.(works := w.works[t := w'.works[t]])
    && (w'.works[t].Rest? || (w'.works[t].Holding? && FreeLatch(w, t, w'.works[t].page)))
  }

  ghost predicate FreeLatch(w: World, t: nat, p: nat) {
    p < |w.tree.pages| && forall u :: 0 <= u < |w.works| && u != t ==> p !in Latched(w.tree, w.works[u])
  }

  /** The only active entry of an index page. */
  predicate OnlyActive(es: seq<Entry>, i: nat) {
    i < |es| && es[i].Active() && forall j :: 0 <= j < |es| && es[j].Active() ==> j == i
  }

  /** The root has one child left. */
  ghost predicate OnlyChild(t: Tree, s: nat) {
    && |t.roots| > 0 && Top(t).page < |t.pages| && t.pages[Top(t).page].Index?
    && exists i: nat :: OnlyActive(Entries(t.pages[Top(t).page]), i) && Entries(t.pages[Top(t).page])[i].child == s
  }

  /**
   A reorganization has its latches and draws its version. Its parent may have been replaced meanwhile,
   and others may have the root latched that it replaces: the program does not look.
   */
  ghost predicate Draws(w: World, w': World, t: nat) {
    && On(w, t) && !Open(w.works[t]) && StartCommit(w.clock, w'.clock, t)
    && |w'.works| == |w.works| && Open(w'.works[t]) && w'.works[t].version == w.clock.clock
    && w' == w.(clock := w'.clock, tree := w.tree.(clock := w'.clock.clock), works := w.works[t := w'.works[t]])
    && (forall u :: 0 <= u < |w.works| && u != t ==> Compatible(w.tree, w'.works[t], w.works[u]))
    && match w'.works[t]
       case Below(p, olds, _) =>
         p < |w.tree.pages| && w.tree.pages[p].Index? && OldsActive(Entries(w.tree.pages[p]), olds)
       case AtRoot(s, _) => |w.tree.roots| > 0 && (s == Top(w.tree).page || OnlyChild(w.tree, s))
       case _ => false
  }

  /** Latches are exclusive, that of the root index too. */
  ghost predicate Compatible(t: Tree, a: Work, b: Work) {
    Latched(t, a) !! Latched(t, b) && !(a.AtRoot? && b.AtRoot?)
  }

  /** One store makes the new pages reachable below the parent, whose latch is kept; the replaced ones have died. */
  ghost predicate PublishesBelow(w: World, w': World, t: nat, fs: seq<Fresh>) {
    && On(w, t) && w.works[t].Below?
    && StoredBelow(w.tree, w'.tree, w.works[t].parent, w.works[t].olds, fs, w.works[t].version)
    && (forall j :: 0 <= j < |fs| ==> fs[j].page in w.own[t])
    && |w'.own| == |w.own| && w'.own[t] == w.own[t] - FreshIds(fs)
    && w' == w.(tree := w'.tree, works := w.works[t := Holding(w.works[t].parent)], own := w.own[t := w'.own[t]],
                limbo := w.limbo + Deaths(Replaced(w.tree, w.works[t].parent, w.works[t].olds), w.works[t].version))
  }

  ghost function FreshIds(fs: seq<Fresh>): set<nat> { set j | 0 <= j < |fs| :: fs[j].page }

  ghost function Deaths(pages: set<nat>, v: nat): set<Dead> { set p | p in pages :: Dead(v, 0, p) }

  function NewIds(n: NewRoot): set<nat> { if n.Copied? then {n.page} else {n.left, n.right, n.root} }

  /** One store makes the new root reachable. Of the replaced pages only the source is going to be registered. */
  ghost predicate PublishesRoot(w: World, w': World, t: nat, n: NewRoot) {
    && On(w, t) && w.works[t].AtRoot? && StoredRoot(w.tree, w'.tree, w.works[t].source, n, w.works[t].version)
    && NewIds(n) <= w.own[t]
    && w' == w.(tree := w'.tree, works := w.works[t := Rest], own := w.own[t := w.own[t] - NewIds(n)],
                limbo := w.limbo + {Dead(w.works[t].version, 0, w.works[t].source)})
  }

  /** A writer registers a page that has died. */
  ghost predicate Buries(w: World, w': World) {
    exists d :: d in w.limbo && w' == w.(limbo := w.limbo - {d}, graveyard := w.graveyard + {d})
  }

  /** A thread takes a page from the memory manager, or writes into one it has. */
  ghost predicate Fills(w: World, w': World, t: nat, id: nat) {
    && On(w, t) && (id == |w.tree.pages| || id in w.own[t])
    && Forgets(w.tree, w'.tree, id) && w'.tree.horizon == w.tree.horizon && w'.tree.graveyard == w.tree.graveyard
    && w' == w.(tree := w'.tree, own := w.own[t := w.own[t] + {id}])
  }

  /** An allocator hands a dead page out again; it may be written to from now on. */
  ghost predicate Claims(w: World, w': World, t: nat, d: Dead) {
    && On(w, t) && w.jobs[t].HasBound? && d in w.graveyard && d.death < w.jobs[t].limit
    && Forgets(w.tree, w'.tree, d.page) && w'.tree.horizon == Max(w.tree.horizon, d.death)
    && w'.tree.graveyard == w.tree.graveyard
    && w' == w.(tree := w'.tree, jobs := w.jobs[t := Free], own := w.own[t := w.own[t] + {d.page}],
                graveyard := w.graveyard - {d})
  }

  /** Steps that only move the thread itself: pins, lookups, the two sets of readers, giving up. */
  ghost predicate Moves(w: World, w': World, t: nat) {
    && On(w, t) && |w'.jobs| == |w.jobs| && w' == w.(jobs := w.jobs[t := w'.jobs[t]])
    && match w.jobs[t]
       case Free => w.clock.pcs[t] == Idle && (w'.jobs[t] == Announcing || w'.jobs[t] == Reclaiming)
       case GotBound(b) => w.clock.pcs[t] == Idle && w'.jobs[t] == Pinned(b)
       case Drawn(b, s) =>
         || w'.jobs[t] == Free
         || (w'.jobs[t].Standing? && w'.jobs[t].bound == b && w'.jobs[t].snapshot == s && w'.jobs[t].key <= MAX_KEY
             && RootFor(w.tree.roots, s).Some? && w'.jobs[t].page == w.tree.roots[RootFor(w.tree.roots, s).value].page)
       case Standing(b, s, k, p) =>
         || w'.jobs[t] == Drawn(b, s)
         || (p < |w.tree.pages| && w.tree.pages[p].Index? && Route(Entries(w.tree.pages[p]), k, s).Some?
             && w'.jobs[t] == Standing(b, s, k,
                                       Entries(w.tree.pages[p])[Route(Entries(w.tree.pages[p]), k, s).value].child))
       case SawCommitted(c) => w'.jobs[t].SawReaders? && w'.jobs[t].committed == c
       case SawReaders(c, least) =>
         exists pin: Option<nat> :: LeastPin(w.jobs, pin) && w'.jobs[t] == HasBound(Lower(Lower(c, least), pin))
       case HasBound(_) => w'.jobs[t] == Free
       case _ => false
  }

  ghost predicate Publishes(w: World, w': World, t: nat) {
    (exists fs :: PublishesBelow(w, w', t, fs)) || (exists n :: PublishesRoot(w, w', t, n))
  }

  ghost predicate Takes(w: World, w': World, t: nat) {
    (exists id: nat :: Fills(w, w', t, id)) || (exists d :: Claims(w, w', t, d))
  }

  /** A thread writes records, or takes or drops a latch. */
  ghost predicate Works(w: World, w': World, t: nat) { Latches(w, w', t) || exists q :: Writes(w, w', t, q) }

  ghost predicate Step(w: World, w': World, t: nat) {
    || Calling(w, w', t) || Ticking(w, w', t) || Draws(w, w', t) || Publishes(w, w', t)
    || Takes(w, w', t) || Buries(w, w') || Moves(w, w', t) || Works(w, w', t)
  }

  // ---------------------------------------------------------------- when a draw is safe

  /** Nobody who reorganizes below the root has latched it. */
  ghost predicate RootFree(t: Tree, k: Work) { |t.roots| > 0 ==> Top(t).page !in Latched(t, k) }

  /** If one of the two replaces the root, the other does not reorganize right below it. */
  ghost predicate Clear(t: Tree, a: Work, b: Work) {
    && (a.AtRoot? && b.Below? ==> RootFree(t, b))
    && (b.AtRoot? && a.Below? ==> RootFree(t, a))
  }

  /** The parent is part of the tree, and no replacement of the root is in its way. */
  ghost predicate Founded(w: World, t: nat, k: Work) {
    && (k.Below? ==> k.parent < |w.tree.meta| && IsLinked(w.tree.meta[k.parent]))
    && forall u :: 0 <= u < |w.works| && u != t ==> Clear(w.tree, k, w.works[u])
  }

  /** A step in which a reorganization draws only if it is founded and its slot keeps readers below its version. */
  ghost predicate GoodStep(w: World, w': World, t: nat) {
    && Step(w, w', t)
    && (Draws(w, w', t) ==> Founded(w, t, w'.works[t]) && Shielded(w'.clock, t, w'.works[t].version))
  }

  // ---------------------------------------------------------------- the invariant

  /** No reader that has its snapshot, and none that will draw one, lies below the limit. */
  ghost predicate BelowReaders(w: World, limit: nat) {
    && limit <= w.clock.globalMin
    && forall i :: 0 <= i < |w.jobs| && HasSnapshot(w.jobs[i]) ==> limit <= w.jobs[i].snapshot
  }

  ghost predicate SnapshotOk(w: World, bound: nat, s: nat) { bound <= s <= w.clock.globalMin && w.tree.horizon <= s }

  ghost predicate JobOk(w: World, t: nat)
    requires t < |w.jobs|
  {
    match w.jobs[t]
    case GotBound(b) => b <= w.clock.globalMin
    case Pinned(b) => b <= w.clock.globalMin
    case Drawn(b, s) => SnapshotOk(w, b, s)
    case Standing(b, s, k, p) => SnapshotOk(w, b, s) && k <= MAX_KEY && Visible(w.tree, p, k, s)
    case SawCommitted(c) => c <= w.clock.globalMin
    case SawReaders(c, _) => c <= w.clock.globalMin
    case HasBound(limit) => BelowReaders(w, limit)
    case _ => true
  }

  ghost predicate WorkOk(w: World, t: nat)
    requires t < |w.works|
  {
    match w.works[t]
    case Below(p, olds, v) =>
      && OpenOk(w, t, v) && BelowHeld(w.tree, p, olds, v)
      && Avoids(w.tree, v, Replaced(w.tree, p, olds), {p} + Replaced(w.tree, p, olds))
    case AtRoot(s, v) =>
      && OpenOk(w, t, v) && RootHeld(w.tree, s, v) && Avoids(w.tree, v, {Top(w.tree).page, s}, {Top(w.tree).page, s})
    case _ => true
  }

  /** The version is in flight, below the clock, and above whatever is and will be returned until it is published. */
  ghost predicate OpenOk(w: World, t: nat, v: nat) {
    t < |w.clock.pcs| && w.clock.pcs[t] == Committing(v) && v < w.clock.clock && Shielded(w.clock, t, v)
  }

  ghost predicate Exclusive(w: World) {
    forall t, u :: 0 <= t < |w.works| && 0 <= u < |w.works| && t != u ==>
      Held(w.tree, w.works[t]) !! Held(w.tree, w.works[u])
  }

  predicate Outside(t: Tree, b: nat) { b < |t.meta| && t.meta[b] == Unlinked }

  ghost predicate OwnsOutside(w: World, t: nat)
    requires t < |w.own|
  {
    forall b :: b in w.own[t] ==> Outside(w.tree, b)
  }

  /** What a thread has taken is outside the tree, and no other thread has it. */
  ghost predicate Owned(w: World) {
    && (forall t: nat :: t < |w.own| ==> OwnsOutside(w, t))
    && forall t, u :: 0 <= t < |w.own| && 0 <= u < |w.own| && t != u ==> w.own[t] !! w.own[u]
  }

  predicate DiedAt(t: Tree, d: Dead) {
    d.page < |t.meta| && t.meta[d.page].Linked? && t.meta[d.page].death == Some(d.death)
  }

  ghost predicate DeadLinks(w: World) {
    && (forall d :: d in w.limbo + w.graveyard ==> DiedAt(w.tree, d))
    && (forall d, e :: d in w.limbo + w.graveyard && e in w.limbo + w.graveyard && d.page == e.page ==> d == e)
    && w.limbo !! w.graveyard
  }

  ghost predicate Shape(w: World) {
    && |w.jobs| == |w.works| == |w.own| == |w.clock.pcs| && Sound(w.clock) && w.tree.clock == w.clock.clock
    && w.tree.horizon <= w.clock.globalMin && w.tree.horizon <= w.tree.clock && w.tree.graveyard == []
  }

  ghost predicate GcOk(w: World) {
    && Shape(w) && Woven(w.tree) && (forall t: nat :: t < |w.jobs| ==> JobOk(w, t))
    && (forall t: nat :: t < |w.works| ==> WorkOk(w, t))
    && Exclusive(w) && Owned(w) && DeadLinks(w)
  }
}
