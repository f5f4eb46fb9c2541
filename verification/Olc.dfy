/**
 Optimistic latch coupling as a state machine. Threads read latch versions, follow child pointers
 they have not validated yet, validate the parent after they have read the version of the child,
 and upgrade by compare-exchange; releasing a latch bumps its version.

 A reorganization is one step of the thread that holds the latches it needs; that it leaves a sound
 tree is what the sequential modules prove, and is taken from there. Pages are not reused.
 */
module Olc {
  import opened Util
  import opened Fences

  datatype Kid = Kid(fence: Fence, page: nat)

  /** `bad` is an unsafe degree as a root; `kids` are the active entries. */
  datatype Node = Node(fence: Fence, height: nat, live: bool, bad: bool, kids: seq<Kid>, ver: nat, holder: Option<nat>)

  /** `latched` says that the thread holds the latch of the page it stands on. */
  datatype Pc =
    | Start
    | GotMaster(mver: nat)
    | RootPtr(mver: nat, page: nat)
    | RootGuard(mver: nat, page: nat, ver: nat)
    | TryRoot(mver: nat, page: nat)
    | AtNode(page: nat, ver: nat, latched: bool)
    | Picked(page: nat, ver: nat, latched: bool, child: nat)
    | Borrowed(page: nat, ver: nat, latched: bool, child: nat, childVer: nat)
    | Checked(page: nat, ver: nat, latched: bool, child: nat, childVer: nat)
    | ParentLatched(page: nat, child: nat, childVer: nat)
    | BothLatched(page: nat, child: nat)
    | Locked(page: nat)

  datatype State = State(nodes: seq<Node>, root: nat, mver: nat, pcs: seq<Pc>, keys: seq<nat>)

  // ---------------------------------------------------------------- the tree

  ghost predicate KidsOk(nodes: seq<Node>, p: nat)
    requires p < |nodes|
  {
    forall i :: 0 <= i < |nodes[p].kids| ==>
      var kid := nodes[p].kids[i];
      && kid.page < |nodes| && nodes[kid.page].live && nodes[kid.page].fence == kid.fence
      && nodes[kid.page].height + 1 == nodes[p].height && Covers(nodes[p].fence, kid.fence)
  }

  ghost predicate HasKid(n: Node, k: nat) { exists i :: 0 <= i < |n.kids| && Contains(n.kids[i].fence, k) }

  /** Above the leaves, every key of the page is in one of its entries. */
  ghost predicate Spanned(n: Node) { n.height > 1 ==> forall k: nat :: Contains(n.fence, k) ==> HasKid(n, k) }

  /** Pages of one height that are part of the tree do not overlap. */
  ghost predicate LiveApart(nodes: seq<Node>) {
    forall p, q :: 0 <= p < q < |nodes| && nodes[p].live && nodes[q].live && nodes[p].height == nodes[q].height ==>
      Disjoint(nodes[p].fence, nodes[q].fence)
  }

  ghost predicate TreeOk(nodes: seq<Node>, root: nat) {
    && root < |nodes| && nodes[root].live && nodes[root].fence == FULL && LiveApart(nodes)
    && forall p :: 0 <= p < |nodes| && nodes[p].live ==>
      KidsOk(nodes, p) && Spanned(nodes[p]) && 1 <= nodes[p].height <= nodes[root].height
  }

  ghost predicate IsKid(nodes: seq<Node>, p: nat, c: nat, k: nat) {
    && p < |nodes|
    && exists i :: 0 <= i < |nodes[p].kids| && nodes[p].kids[i].page == c && Contains(nodes[p].kids[i].fence, k)
  }

  /** The page is part of the tree and its fence has the key. */
  ghost predicate Home(nodes: seq<Node>, p: nat, k: nat) { p < |nodes| && nodes[p].live && Contains(nodes[p].fence, k) }

  // ---------------------------------------------------------------- reached by the key

  /** From `p` down to `c`, always into a child whose entry has the key. */
  ghost predicate Leads(nodes: seq<Node>, p: nat, c: nat, k: nat, steps: nat)
    decreases steps
  {
    if steps == 0 then c == p else exists q: nat :: IsKid(nodes, p, q, k) && Leads(nodes, q, c, k, steps - 1)
  }

  lemma KidFor(nodes: seq<Node>, root: nat, p: nat, k: nat) returns (q: nat)
    requires TreeOk(nodes, root) && Home(nodes, p, k) && nodes[p].height > 1
    ensures IsKid(nodes, p, q, k) && Home(nodes, q, k) && nodes[q].height + 1 == nodes[p].height
  {
    assert KidsOk(nodes, p) && Spanned(nodes[p]) && HasKid(nodes[p], k);
    var i :| 0 <= i < |nodes[p].kids| && Contains(nodes[p].kids[i].fence, k);
    q := nodes[p].kids[i].page;
  }

  /** Of one height only one page that is part of the tree has the key. */
  lemma OneHome(nodes: seq<Node>, root: nat, p: nat, q: nat, k: nat)
    requires TreeOk(nodes, root) && Home(nodes, p, k) && Home(nodes, q, k) && nodes[p].height == nodes[q].height
    ensures p == q
  {
    hide KidsOk, Spanned;
  }

  lemma {:induction false} Reached(nodes: seq<Node>, root: nat, p: nat, c: nat, k: nat)
    requires TreeOk(nodes, root) && Home(nodes, p, k) && Home(nodes, c, k) && nodes[c].height <= nodes[p].height
    ensures Leads(nodes, p, c, k, nodes[p].height - nodes[c].height)
    decreases nodes[p].height
  {
    hide TreeOk;
    HeightOf(nodes, root, c);
    if nodes[p].height == nodes[c].height {
      OneHome(nodes, root, p, c, k);
    } else {
      var q := KidFor(nodes, root, p, k);
      Reached(nodes, root, q, c, k);
    }
  }

  lemma HeightOf(nodes: seq<Node>, root: nat, c: nat)
    requires TreeOk(nodes, root) && c < |nodes| && nodes[c].live
    ensures root < |nodes| && 1 <= nodes[c].height <= nodes[root].height
  {
  }

  /** The page of the tree that has the key is the one a search for the key from the root comes to. */
  lemma HomeIsReached(nodes: seq<Node>, root: nat, c: nat, k: nat)
    requires TreeOk(nodes, root) && Home(nodes, c, k) && k <= MAX_KEY
    ensures root < |nodes| && nodes[c].height <= nodes[root].height
    ensures Leads(nodes, root, c, k, nodes[root].height - nodes[c].height)
  {
    HeightOf(nodes, root, c);
    assert Home(nodes, root, k);
    hide TreeOk;
    Reached(nodes, root, root, c, k);
  }

  // ---------------------------------------------------------------- latches

  /** Nobody has latched the page since its version was read as `v`. */
  predicate Untouched(nodes: seq<Node>, p: nat, v: nat) { p < |nodes| && nodes[p].ver == v && nodes[p].holder.None? }

  predicate Holds(nodes: seq<Node>, p: nat, t: nat) { p < |nodes| && nodes[p].holder == Some(t) }

  function Latch(nodes: seq<Node>, p: nat, t: nat): seq<Node>
    requires p < |nodes|
  {
    nodes[p := nodes[p].(holder := Some(t))]
  }

  function Release(nodes: seq<Node>, p: nat): seq<Node>
    requires p < |nodes|
  {
    nodes[p := nodes[p].(holder := None, ver := nodes[p].ver + 1)]
  }

  /** Lets go of the latches the thread holds while it stands on `p`. */
  function ReleaseIf(nodes: seq<Node>, p: nat, latched: bool): seq<Node>
    requires p < |nodes|
  {
    if latched then Release(nodes, p) else nodes
  }

  // ---------------------------------------------------------------- steps of thread `t`

  function To(s: State, t: nat, pc: Pc): State
    requires t < |s.pcs|
  {
    s.(pcs := s.pcs[t := pc])
  }

  ghost predicate On(s: State, t: nat) { t < |s.pcs| == |s.keys| }

  ghost predicate ReadRoot(s: State, s': State, t: nat) {
    On(s, t) && match s.pcs[t]
    case Start => s' == To(s, t, GotMaster(s.mver))
    case GotMaster(m) => s' == To(s, t, RootPtr(m, s.root))
    case RootPtr(m, p) => p < |s.nodes| && s' == To(s, t, RootGuard(m, p, s.nodes[p].ver))
    case RootGuard(m, p, v) =>
      p < |s.nodes| && s' == To(s, t, if s.nodes[p].bad then TryRoot(m, p) else AtNode(p, v, false))
    case _ => false
  }

  /** The entries of a page that another thread has latched may look like anything. */
  ghost predicate Pick(s: State, s': State, t: nat) {
    && On(s, t) && s.pcs[t].AtNode? && s.pcs[t].page < |s.nodes| && s.nodes[s.pcs[t].page].height > 1
    && exists c: nat :: c < |s.nodes| && s' == To(s, t, Picked(s.pcs[t].page, s.pcs[t].ver, s.pcs[t].latched, c))
         && (s.nodes[s.pcs[t].page].holder.None? || s.pcs[t].latched ==> IsKid(s.nodes, s.pcs[t].page, c, s.keys[t]))
  }

  ghost predicate Borrow(s: State, s': State, t: nat) {
    && On(s, t) && s.pcs[t].Picked? && s.pcs[t].child < |s.nodes|
    && s' == To(s, t, Borrowed(s.pcs[t].page, s.pcs[t].ver, s.pcs[t].latched, s.pcs[t].child,
                               s.nodes[s.pcs[t].child].ver))
  }

  /** `is_still_live` on the parent, after the version of the child was read. */
  ghost predicate Validate(s: State, s': State, t: nat) {
    && On(s, t) && s.pcs[t].Borrowed?
    && var pc := s.pcs[t];
       s' == To(s, t, if pc.latched || Untouched(s.nodes, pc.page, pc.ver) then
                Checked(pc.page, pc.ver, pc.latched, pc.child, pc.childVer) else Start)
  }

  /** The child is safe: go on with it and drop the guard of the parent. */
  ghost predicate Descend(s: State, s': State, t: nat) {
    && On(s, t) && s.pcs[t].Checked? && s.pcs[t].page < |s.nodes|
    && var pc := s.pcs[t];
       s' == To(s, t, AtNode(pc.child, pc.childVer, false)).(nodes := ReleaseIf(s.nodes, pc.page, pc.latched))
  }

  /** The child is unsafe: upgrade the parent, then the child. A parent latched for a repair has a safe child next. */
  ghost predicate LatchParent(s: State, s': State, t: nat) {
    && On(s, t) && s.pcs[t].Checked? && !s.pcs[t].latched && s.pcs[t].page < |s.nodes|
    && var pc := s.pcs[t];
       if Untouched(s.nodes, pc.page, pc.ver) then
         s' == To(s, t, ParentLatched(pc.page, pc.child, pc.childVer)).(nodes := Latch(s.nodes, pc.page, t))
       else s' == To(s, t, Start)
  }

  ghost predicate LatchChild(s: State, s': State, t: nat) {
    && On(s, t) && s.pcs[t].ParentLatched? && s.pcs[t].page < |s.nodes| && s.pcs[t].child < |s.nodes|
    && var pc := s.pcs[t];
       if Untouched(s.nodes, pc.child, pc.childVer) then
         s' == To(s, t, BothLatched(pc.page, pc.child)).(nodes := Latch(s.nodes, pc.child, t))
       else s' == To(s, t, Start).(nodes := Release(s.nodes, pc.page))
  }

  /** Pages that a reorganization neither replaces nor creates stay as they are. */
  ghost predicate SameBut(nodes: seq<Node>, nodes': seq<Node>, changed: set<nat>) {
    && |nodes| <= |nodes'|
    && (forall q :: 0 <= q < |nodes| && q !in changed ==> nodes'[q] == nodes[q])
    && forall q :: |nodes| <= q < |nodes'| ==> nodes'[q].live && nodes'[q].holder.None? && nodes'[q].ver == 0
  }

  ghost predicate Dies(a: Node, b: Node) { b == a.(live := false, holder := None, ver := a.ver + 1) }

  /** Splitting the child, or merging it with a sibling whose latch is free. */
  ghost predicate Repair(s: State, s': State, t: nat) {
    && On(s, t) && s.pcs[t].BothLatched? && s.pcs[t].page < |s.nodes| && s.pcs[t].child < |s.nodes|
    && s.pcs[t].page != s.pcs[t].child
    && var p, c := s.pcs[t].page, s.pcs[t].child;
       && s' == To(s, t, AtNode(p, 0, true)).(nodes := s'.nodes)
       && (exists r: nat ::
             && r < |s.nodes| && r != p && (r == c || (s.nodes[r].holder.None? && s.nodes[r].live && r != s.root))
             && SameBut(s.nodes, s'.nodes, {p, c, r}) && Dies(s.nodes[r], s'.nodes[r]))
       && |s.nodes| <= |s'.nodes| && Dies(s.nodes[c], s'.nodes[c])
       && s'.nodes[p] == s.nodes[p].(kids := s'.nodes[p].kids, bad := s'.nodes[p].bad)
       && (s.nodes[p].live ==> TreeOk(s'.nodes, s.root))
  }

  ghost predicate GiveUp(s: State, s': State, t: nat) {
    && On(s, t) && s.pcs[t].BothLatched? && s.pcs[t].page < |s.nodes| && s.pcs[t].child < |s.nodes|
    && s' == To(s, t, Start).(nodes := Release(Release(s.nodes, s.pcs[t].page), s.pcs[t].child))
  }

  /** `split_root`: the root index is latched, the root page is not. */
  ghost predicate SplitRoot(s: State, s': State, t: nat) {
    && On(s, t) && s.pcs[t].TryRoot? && s.mver == s.pcs[t].mver && s.pcs[t].page < |s.nodes|
    && NewRoot(s, s', t, {s.pcs[t].page})
  }

  /** `merge_root`: in addition the only child is latched and replaced. */
  ghost predicate MergeRoot(s: State, s': State, t: nat) { exists c: nat :: MergesInto(s, s', t, c) }

  ghost predicate MergesInto(s: State, s': State, t: nat, c: nat) {
    && On(s, t) && s.pcs[t].TryRoot? && s.mver == s.pcs[t].mver && s.pcs[t].page < |s.nodes|
    && c < |s.nodes| && c != s.pcs[t].page && c != s.root && s.nodes[c].live && s.nodes[c].holder.None?
    && NewRoot(s, s', t, {s.pcs[t].page, c}) && c < |s'.nodes| && Dies(s.nodes[c], s'.nodes[c])
  }

  ghost predicate NewRoot(s: State, s': State, t: nat, replaced: set<nat>)
    requires On(s, t) && s.pcs[t].TryRoot? && s.pcs[t].page < |s.nodes|
  {
    && |s.nodes| <= s'.root < |s'.nodes|
    && s' == To(s, t, AtNode(s'.root, 0, false)).(nodes := s'.nodes, root := s'.root, mver := s.mver + 1)
    && SameBut(s.nodes, s'.nodes, replaced) && s'.nodes[s.pcs[t].page] == s.nodes[s.pcs[t].page].(live := false)
    && TreeOk(s'.nodes, s'.root) && !s'.nodes[s'.root].bad
  }

  ghost predicate RootFails(s: State, s': State, t: nat) {
    On(s, t) && s.pcs[t].TryRoot? && s' == To(s, t, Start)
  }

  ghost predicate LockLeaf(s: State, s': State, t: nat) {
    && On(s, t) && s.pcs[t].AtNode? && s.pcs[t].page < |s.nodes| && s.nodes[s.pcs[t].page].height == 1
    && !s.pcs[t].latched
    && if Untouched(s.nodes, s.pcs[t].page, s.pcs[t].ver) then
         s' == To(s, t, Locked(s.pcs[t].page)).(nodes := Latch(s.nodes, s.pcs[t].page, t))
       else s' == To(s, t, Start)
  }

  /** A write fills the leaf; a full leaf stays full. */
  ghost predicate WriteLeaf(s: State, s': State, t: nat) {
    && On(s, t) && s.pcs[t].Locked? && s.pcs[t].page < |s.nodes|
    && (s' == s || s' == s.(nodes := s.nodes[s.pcs[t].page := s.nodes[s.pcs[t].page].(bad := true)]))
  }

  ghost predicate Finish(s: State, s': State, t: nat) {
    On(s, t) && s.pcs[t].Locked? && s.pcs[t].page < |s.nodes|
      && s' == To(s, t, Start).(nodes := Release(s.nodes, s.pcs[t].page))
  }

  ghost predicate Walk(s: State, s': State, t: nat) {
    ReadRoot(s, s', t) || Pick(s, s', t) || Borrow(s, s', t) || Validate(s, s', t) || RootFails(s, s', t)
  }

  ghost predicate Latching(s: State, s': State, t: nat) {
    Descend(s, s', t) || LatchParent(s, s', t) || LatchChild(s, s', t) || GiveUp(s, s', t) || LockLeaf(s, s', t)
      || Finish(s, s', t)
  }

  ghost predicate ReplacesRoot(s: State, s': State, t: nat) { SplitRoot(s, s', t) || MergeRoot(s, s', t) }

  ghost predicate Step(s: State, s': State, t: nat) {
    Walk(s, s', t) || Latching(s, s', t) || Repair(s, s', t) || WriteLeaf(s, s', t) || ReplacesRoot(s, s', t)
  }

  // ---------------------------------------------------------------- what a thread knows

  /** A guard of the page that has not been touched since: the page is the right one, and as the root it is safe. */
  ghost predicate Trusts(s: State, p: nat, v: nat, k: nat) {
    && p < |s.nodes| && v <= s.nodes[p].ver
    && (Untouched(s.nodes, p, v) ==> Home(s.nodes, p, k) && (p == s.root ==> !s.nodes[p].bad))
  }

  /** A latched page is the right one. */
  ghost predicate Keeps(s: State, p: nat, t: nat) { On(s, t) && Holds(s.nodes, p, t) && Home(s.nodes, p, s.keys[t]) }

  ghost predicate Stands(s: State, p: nat, v: nat, latched: bool, t: nat) {
    On(s, t) && if latched then Keeps(s, p, t) else Trusts(s, p, v, s.keys[t])
  }

  /** The pointer of a child that was read while the parent was trusted. */
  ghost predicate KidSeen(s: State, p: nat, v: nat, latched: bool, c: nat, t: nat) {
    On(s, t) && c < |s.nodes| && (latched || Untouched(s.nodes, p, v) ==> IsKid(s.nodes, p, c, s.keys[t]))
  }

  /** A page that is or has been the root. */
  ghost predicate WasRoot(s: State, p: nat) {
    p < |s.nodes| && s.nodes[p].fence == FULL && (p == s.root || (!s.nodes[p].live && s.nodes[p].bad))
  }

  ghost predicate PcOk(s: State, t: nat)
  {
    On(s, t) && match s.pcs[t]
    case Start => true
    case GotMaster(m) => m <= s.mver
    case RootPtr(m, p) => m <= s.mver && WasRoot(s, p) && (m == s.mver ==> p == s.root)
    case RootGuard(m, p, v) => m <= s.mver && WasRoot(s, p) && (m == s.mver ==> p == s.root) && v <= s.nodes[p].ver
    case TryRoot(m, p) => m <= s.mver && WasRoot(s, p) && (m == s.mver ==> p == s.root && s.nodes[p].bad)
    case AtNode(p, v, latched) => Stands(s, p, v, latched, t)
    case Picked(p, v, latched, c) => Stands(s, p, v, latched, t) && KidSeen(s, p, v, latched, c, t)
    case Borrowed(p, v, latched, c, cv) =>
      Stands(s, p, v, latched, t) && KidSeen(s, p, v, latched, c, t) && cv <= s.nodes[c].ver
    case Checked(p, v, latched, c, cv) =>
      Stands(s, p, v, latched, t) && KidSeen(s, p, v, latched, c, t) && Trusts(s, c, cv, s.keys[t])
    case ParentLatched(p, c, cv) =>
      Keeps(s, p, t) && (p == s.root ==> !s.nodes[p].bad) && IsKid(s.nodes, p, c, s.keys[t]) && c < |s.nodes|
        && cv <= s.nodes[c].ver
    case BothLatched(p, c) =>
      Keeps(s, p, t) && (p == s.root ==> !s.nodes[p].bad) && IsKid(s.nodes, p, c, s.keys[t]) && Holds(s.nodes, c, t)
        && p != c
    case Locked(p) => Keeps(s, p, t) && s.nodes[p].height == 1
  }

  /** The thread is at a point of the program where it holds the latch of `p`. */
  predicate HoldsAt(pc: Pc, p: nat) {
    match pc
    case AtNode(q, _, latched) => latched && q == p
    case Picked(q, _, latched, _) => latched && q == p
    case Borrowed(q, _, latched, _, _) => latched && q == p
    case Checked(q, _, latched, _, _) => latched && q == p
    case ParentLatched(q, _, _) => q == p
    case BothLatched(q, c) => q == p || c == p
    case Locked(q) => q == p
    case _ => false
  }

  ghost predicate HoldersOk(s: State) {
    forall p: nat :: p < |s.nodes| && s.nodes[p].holder.Some? ==>
      s.nodes[p].holder.value < |s.pcs| && HoldsAt(s.pcs[s.nodes[p].holder.value], p)
  }

  ghost predicate Good(s: State) {
    |s.pcs| == |s.keys| && (forall t :: 0 <= t < |s.keys| ==> s.keys[t] <= MAX_KEY)
    && TreeOk(s.nodes, s.root) && HoldersOk(s) && forall t: nat :: t < |s.pcs| ==> PcOk(s, t)
  }

  // ---------------------------------------------------------------- what a step of `t` leaves to the others

  ghost predicate NodeFrame(s: State, s': State, q: nat, t: nat)
    requires q < |s.nodes| <= |s'.nodes|
  {
    var n, n' := s.nodes[q], s'.nodes[q];
    && n.ver <= n'.ver && n'.fence == n.fence && n'.height == n.height
    && (n'.holder.None? && n'.ver == n.ver ==> n' == n || (q == s.root && n.bad && n' == n.(live := false)))
    && (n.holder.Some? && n.holder.value != t ==> n' == n)
    && (!n.live ==> !n'.live && n'.bad == n.bad)
    && (q == s.root && n.bad ==> n'.bad)
  }

  ghost predicate RootFrame(s: State, s': State) {
    || (s'.root == s.root && s'.mver == s.mver)
    || (s'.root >= |s.nodes| && s'.mver > s.mver && s.root < |s.nodes| <= |s'.nodes| && s.nodes[s.root].bad
        && !s'.nodes[s.root].live)
  }

  ghost predicate Frame(s: State, s': State, t: nat) {
    && On(s, t) && |s'.pcs| == |s.pcs| && s'.keys == s.keys
    && (forall u :: 0 <= u < |s.pcs| && u != t ==> s'.pcs[u] == s.pcs[u])
    && |s.nodes| <= |s'.nodes| && (forall q: nat :: q < |s.nodes| ==> NodeFrame(s, s', q, t)) && RootFrame(s, s')
  }

  lemma KidSame(nodes: seq<Node>, nodes': seq<Node>, p: nat, c: nat, k: nat)
    requires p < |nodes| && p < |nodes'| && nodes'[p].kids == nodes[p].kids && IsKid(nodes, p, c, k)
    ensures IsKid(nodes', p, c, k)
  {
  }

  lemma TrustsStays(s: State, s': State, t: nat, p: nat, v: nat, k: nat)
    requires Frame(s, s', t) && Trusts(s, p, v, k)
    ensures Trusts(s', p, v, k)
    ensures Untouched(s'.nodes, p, v) ==> Untouched(s.nodes, p, v)
    ensures Untouched(s'.nodes, p, v) ==> s'.nodes[p].kids == s.nodes[p].kids
  {
    assert NodeFrame(s, s', p, t);
  }

  lemma KeepsStays(s: State, s': State, t: nat, p: nat, u: nat)
    requires Frame(s, s', t) && Keeps(s, p, u) && u != t
    ensures Keeps(s', p, u) && s'.nodes[p] == s.nodes[p]
  {
    assert NodeFrame(s, s', p, t);
  }

  lemma WasRootStays(s: State, s': State, t: nat, p: nat)
    requires Frame(s, s', t) && WasRoot(s, p)
    ensures WasRoot(s', p) && (s'.mver == s.mver && p == s.root ==> p == s'.root) && s.nodes[p].ver <= s'.nodes[p].ver
  {
    assert NodeFrame(s, s', p, t);
    assert p == s.root ==> NodeFrame(s, s', s.root, t);
  }

  lemma StandsStays(s: State, s': State, t: nat, p: nat, v: nat, latched: bool, u: nat)
    requires Frame(s, s', t) && Stands(s, p, v, latched, u) && u != t
    ensures Stands(s', p, v, latched, u)
    ensures forall c: nat :: KidSeen(s, p, v, latched, c, u) ==> KidSeen(s', p, v, latched, c, u)
  {
    if latched { KeepsStays(s, s', t, p, u); } else { TrustsStays(s, s', t, p, v, s.keys[u]); }
    forall c: nat | KidSeen(s, p, v, latched, c, u) ensures KidSeen(s', p, v, latched, c, u) {
      if latched || Untouched(s'.nodes, p, v) { KidSame(s.nodes, s'.nodes, p, c, s.keys[u]); }
    }
  }

  lemma VersionGrows(s: State, s': State, t: nat, c: nat)
    requires Frame(s, s', t) && c < |s.nodes|
    ensures s.nodes[c].ver <= s'.nodes[c].ver
  {
    assert NodeFrame(s, s', c, t);
  }

  /** A step of `t` does not disturb what another thread knows. */
  lemma OthersStay(s: State, s': State, t: nat, u: nat)
    requires Frame(s, s', t) && PcOk(s, u) && u != t
    ensures PcOk(s', u)
  {
    hide Frame, Trusts, WasRoot, KidSeen, IsKid, Home;
    FrameParts(s, s', t, u);
    match s.pcs[u] {
      case Start =>
      case GotMaster(m) =>
      case RootPtr(m, p) => WasRootStays(s, s', t, p);
      case RootGuard(m, p, v) => WasRootStays(s, s', t, p); RootNode(s, p);
      case TryRoot(m, p) => WasRootStays(s, s', t, p); RootNode(s, p); RootStaysBad(s, s', t);
      case AtNode(p, v, latched) => StandsStays(s, s', t, p, v, latched, u);
      case Picked(p, v, latched, c) => StandsStays(s, s', t, p, v, latched, u);
      case Borrowed(p, v, latched, c, cv) =>
        StandsStays(s, s', t, p, v, latched, u);
        KidNode(s, p, v, latched, c, u);
        VersionGrows(s, s', t, c);
      case Checked(p, v, latched, c, cv) =>
        StandsStays(s, s', t, p, v, latched, u);
        TrustsStays(s, s', t, c, cv, s.keys[u]);
      case ParentLatched(p, c, cv) =>
        KeepsStays(s, s', t, p, u);
        KidSame(s.nodes, s'.nodes, p, c, s.keys[u]);
        VersionGrows(s, s', t, c);
        SameRootPage(s, s', t, p);
      case BothLatched(p, c) =>
        KeepsStays(s, s', t, p, u);
        KidSame(s.nodes, s'.nodes, p, c, s.keys[u]);
        HeldStays(s, s', t, c, u);
        SameRootPage(s, s', t, p);
      case Locked(p) => KeepsStays(s, s', t, p, u);
    }
  }

  lemma FrameParts(s: State, s': State, t: nat, u: nat)
    requires Frame(s, s', t) && On(s, u) && u != t
    ensures On(s', u) && s'.pcs[u] == s.pcs[u] && s'.keys == s.keys && |s.nodes| <= |s'.nodes| && s.mver <= s'.mver
  {
  }

  lemma RootNode(s: State, p: nat)
    requires WasRoot(s, p)
    ensures p < |s.nodes|
  {
  }

  lemma KidNode(s: State, p: nat, v: nat, latched: bool, c: nat, u: nat)
    requires KidSeen(s, p, v, latched, c, u)
    ensures c < |s.nodes|
  {
  }

  lemma RootStaysBad(s: State, s': State, t: nat)
    requires Frame(s, s', t)
    ensures s'.mver == s.mver ==> s'.root == s.root
    ensures s.root < |s.nodes| && s.nodes[s.root].bad ==> s'.nodes[s.root].bad
  {
    if s.root < |s.nodes| { assert NodeFrame(s, s', s.root, t); }
  }

  lemma SameRootPage(s: State, s': State, t: nat, p: nat)
    requires Frame(s, s', t) && p < |s.nodes|
    ensures p == s'.root ==> p == s.root
  {
  }

  lemma HeldStays(s: State, s': State, t: nat, c: nat, u: nat)
    requires Frame(s, s', t) && Holds(s.nodes, c, u) && u != t
    ensures Holds(s'.nodes, c, u)
  {
    assert NodeFrame(s, s', c, t);
  }

  ghost predicate HoldersFrame(s: State, s': State, t: nat) {
    forall q: nat :: q < |s'.nodes| && s'.nodes[q].holder.Some? ==>
      if s'.nodes[q].holder == Some(t) then t < |s'.pcs| && HoldsAt(s'.pcs[t], q)
        else q < |s.nodes| && s.nodes[q].holder == s'.nodes[q].holder
  }

  lemma Assemble(s: State, s': State, t: nat)
    requires Good(s) && Frame(s, s', t) && TreeOk(s'.nodes, s'.root) && HoldersFrame(s, s', t) && PcOk(s', t)
    ensures Good(s')
  {
    forall u: nat | u < |s'.pcs| ensures PcOk(s', u) {
      if u != t { hide Good, TreeOk, HoldersFrame; PcOkOf(s, u); OthersStay(s, s', t, u); }
    }
    hide PcOk, TreeOk;
  }

  lemma PcOkOf(s: State, u: nat)
    requires Good(s)
    ensures u < |s.pcs| ==> PcOk(s, u)
  {
  }

  // ---------------------------------------------------------------- steps that only read

  lemma OnlyPc(s: State, s': State, t: nat, pc: Pc)
    requires Good(s) && On(s, t) && s' == To(s, t, pc) && (forall q: nat :: HoldsAt(s.pcs[t], q) ==> HoldsAt(pc, q))
    ensures Frame(s, s', t) && HoldersFrame(s, s', t) && TreeOk(s'.nodes, s'.root)
  {
    hide PcOk, KidsOk, Spanned, LiveApart;
  }

  /** The child of a trusted parent is part of the tree, one level down. */
  lemma KidIsHome(s: State, p: nat, c: nat, k: nat)
    requires TreeOk(s.nodes, s.root) && p < |s.nodes| && s.nodes[p].live && IsKid(s.nodes, p, c, k)
    ensures Home(s.nodes, c, k) && c != s.root && s.nodes[c].height + 1 == s.nodes[p].height && c != p
  {
    var i :| 0 <= i < |s.nodes[p].kids| && s.nodes[p].kids[i].page == c && Contains(s.nodes[p].kids[i].fence, k);
    assert KidsOk(s.nodes, p);
  }

  lemma RootStep(s: State, s': State, t: nat)
    requires Good(s) && ReadRoot(s, s', t)
    ensures Good(s')
  {
    PcOkOf(s, t);
    OnlyPc(s, s', t, s'.pcs[t]);
    assert PcOk(s', t) by { hide Frame, HoldersFrame, HoldersOk, KidsOk, Spanned, LiveApart; }
    hide PcOk, Frame, HoldersFrame, TreeOk, Good, ReadRoot;
    Assemble(s, s', t);
  }

  lemma PickStep(s: State, s': State, t: nat)
    requires Good(s) && Pick(s, s', t)
    ensures Good(s')
  {
    PcOkOf(s, t);
    OnlyPc(s, s', t, s'.pcs[t]);
    assert PcOk(s', t) by { hide Frame, HoldersFrame, HoldersOk, TreeOk, IsKid, Home; }
    hide PcOk, Frame, HoldersFrame, TreeOk, Good, Pick;
    Assemble(s, s', t);
  }

  lemma BorrowStep(s: State, s': State, t: nat)
    requires Good(s) && Borrow(s, s', t)
    ensures Good(s')
  {
    PcOkOf(s, t);
    OnlyPc(s, s', t, s'.pcs[t]);
    assert PcOk(s', t) by { hide Frame, HoldersFrame, HoldersOk, TreeOk, IsKid, Home; }
    hide PcOk, Frame, HoldersFrame, TreeOk, Good, Borrow;
    Assemble(s, s', t);
  }

  /** Validating the parent after the version of the child was read makes the guard of the child trustworthy. */
  lemma ValidateStep(s: State, s': State, t: nat)
    requires Good(s) && Validate(s, s', t)
    ensures Good(s')
  {
    OnlyPc(s, s', t, s'.pcs[t]);
    ValidatedOk(s, s', t);
    hide PcOk, Frame, HoldersFrame, TreeOk, Good, Validate;
    Assemble(s, s', t);
  }

  lemma ValidatedOk(s: State, s': State, t: nat)
    requires Good(s) && Validate(s, s', t)
    ensures PcOk(s', t)
  {
    PcOkOf(s, t);
    GoodParts(s);
    hide Good, TreeOk, HoldersOk, IsKid, Home;
    var pc := s.pcs[t];
    if pc.latched || Untouched(s.nodes, pc.page, pc.ver) {
      assert Home(s.nodes, pc.page, s.keys[t]) && IsKid(s.nodes, pc.page, pc.child, s.keys[t]);
      HomeIsLive(s.nodes, pc.page, s.keys[t]);
      KidIsHome(s, pc.page, pc.child, s.keys[t]);
    }
  }

  lemma WalkKeepsGood(s: State, s': State, t: nat)
    requires Good(s) && Walk(s, s', t)
    ensures Good(s')
  {
    hide Good, ReadRoot, Pick, Borrow, Validate;
    if ReadRoot(s, s', t) { RootStep(s, s', t); }
    if Pick(s, s', t) { PickStep(s, s', t); }
    if Borrow(s, s', t) { BorrowStep(s, s', t); }
    if Validate(s, s', t) { ValidateStep(s, s', t); }
    if RootFails(s, s', t) { FailStep(s, s', t); }
  }

  lemma FailStep(s: State, s': State, t: nat)
    requires Good(s) && RootFails(s, s', t)
    ensures Good(s')
  {
    OnlyPc(s, s', t, Start);
    assert PcOk(s', t);
    hide PcOk, Frame, HoldersFrame, TreeOk, Good;
    Assemble(s, s', t);
  }

  // ---------------------------------------------------------------- steps that take or drop latches

  /** The nodes differ in latches only. */
  ghost predicate SameTree(nodes: seq<Node>, nodes': seq<Node>) {
    |nodes| == |nodes'| && forall q :: 0 <= q < |nodes| ==>
      nodes'[q] == nodes[q].(ver := nodes'[q].ver, holder := nodes'[q].holder)
  }

  lemma SameTreeOk(nodes: seq<Node>, nodes': seq<Node>, root: nat)
    requires TreeOk(nodes, root) && SameTree(nodes, nodes')
    ensures TreeOk(nodes', root)
  {
    forall p | 0 <= p < |nodes'| && nodes'[p].live ensures KidsOk(nodes', p) {
      assert KidsOk(nodes, p);
    }
  }

  lemma LatchStep(s: State, s': State, t: nat, p: nat, pc: Pc)
    requires Good(s) && On(s, t) && p < |s.nodes| && s.nodes[p].holder.None?
    requires s' == To(s, t, pc).(nodes := Latch(s.nodes, p, t)) && HoldsAt(pc, p)
    requires (forall q: nat :: HoldsAt(s.pcs[t], q) ==> HoldsAt(pc, q))
    ensures Frame(s, s', t) && HoldersFrame(s, s', t) && TreeOk(s'.nodes, s'.root)
  {
    SameTreeOk(s.nodes, s'.nodes, s.root);
    hide PcOk, KidsOk, Spanned, LiveApart, TreeOk;
  }

  lemma ReleaseStep(s: State, s': State, t: nat, p: nat, pc: Pc)
    requires Good(s) && On(s, t) && p < |s.nodes| && Holds(s.nodes, p, t)
    requires s' == To(s, t, pc).(nodes := Release(s.nodes, p))
    requires (forall q: nat :: q != p && HoldsAt(s.pcs[t], q) ==> HoldsAt(pc, q))
    ensures Frame(s, s', t) && HoldersFrame(s, s', t) && TreeOk(s'.nodes, s'.root)
  {
    SameTreeOk(s.nodes, s'.nodes, s.root);
    hide PcOk, KidsOk, Spanned, LiveApart, TreeOk;
  }

  lemma DescendStep(s: State, s': State, t: nat)
    requires Good(s) && Descend(s, s', t)
    ensures Good(s')
  {
    PcOkOf(s, t);
    var pc := s.pcs[t];
    if pc.latched { ReleaseStep(s, s', t, pc.page, s'.pcs[t]); } else { OnlyPc(s, s', t, s'.pcs[t]); }
    TrustsStays(s, s', t, pc.child, pc.childVer, s.keys[t]);
    assert PcOk(s', t) by { hide Frame, HoldersFrame, HoldersOk, TreeOk, IsKid, Home, Trusts; }
    hide PcOk, Frame, HoldersFrame, TreeOk, Good, Descend;
    Assemble(s, s', t);
  }

  /** What a thread knows once the upgrade of the parent has succeeded. */
  lemma ParentLatchedOk(s: State, s': State, t: nat, p: nat, v: nat, c: nat, cv: nat)
    requires PcOk(s, t) && t < |s.pcs| && s.pcs[t] == Checked(p, v, false, c, cv) && Untouched(s.nodes, p, v)
    requires s' == To(s, t, ParentLatched(p, c, cv)).(nodes := Latch(s.nodes, p, t))
    ensures PcOk(s', t)
  {
    KidSame(s.nodes, s'.nodes, p, c, s.keys[t]);
    hide IsKid;
  }

  lemma LatchParentStep(s: State, s': State, t: nat)
    requires Good(s) && LatchParent(s, s', t)
    ensures Good(s')
  {
    PcOkOf(s, t);
    hide Good, TreeOk, HoldersOk, KidsOk, PcOk, Frame, HoldersFrame;
    var pc := s.pcs[t];
    if Untouched(s.nodes, pc.page, pc.ver) {
      ParentLatchedOk(s, s', t, pc.page, pc.ver, pc.child, pc.childVer);
      LatchStep(s, s', t, pc.page, s'.pcs[t]);
    } else {
      StartIsOk(s', t);
      OnlyPc(s, s', t, Start);
    }
    hide LatchParent;
    Assemble(s, s', t);
  }

  /** What a thread knows once the upgrade of the child has succeeded as well. */
  lemma BothLatchedOk(s: State, s': State, t: nat, p: nat, c: nat, cv: nat)
    requires PcOk(s, t) && t < |s.pcs| && s.pcs[t] == ParentLatched(p, c, cv) && c < |s.nodes| && p != c
    requires s' == To(s, t, BothLatched(p, c)).(nodes := Latch(s.nodes, c, t))
    ensures PcOk(s', t)
  {
    KidSame(s.nodes, s'.nodes, p, c, s.keys[t]);
    hide IsKid;
  }

  lemma ChildBelowParent(s: State, t: nat, p: nat, c: nat, cv: nat)
    requires Good(s) && t < |s.pcs| && s.pcs[t] == ParentLatched(p, c, cv)
    ensures PcOk(s, t) && p < |s.nodes| && Holds(s.nodes, p, t) && p != c
  {
    PcOkOf(s, t);
    GoodParts(s);
    hide Good, TreeOk, HoldersOk, IsKid;
    KidIsHome(s, p, c, s.keys[t]);
  }

  lemma LatchChildStep(s: State, s': State, t: nat)
    requires Good(s) && LatchChild(s, s', t)
    ensures Good(s')
  {
    var pc := s.pcs[t];
    ChildBelowParent(s, t, pc.page, pc.child, pc.childVer);
    hide Good, TreeOk, HoldersOk, KidsOk, PcOk, Frame, HoldersFrame;
    if Untouched(s.nodes, pc.child, pc.childVer) {
      BothLatchedOk(s, s', t, pc.page, pc.child, pc.childVer);
      LatchStep(s, s', t, pc.child, s'.pcs[t]);
    } else {
      StartIsOk(s', t);
      ReleaseStep(s, s', t, pc.page, Start);
    }
    hide LatchChild;
    Assemble(s, s', t);
  }

  lemma GiveUpFrames(s: State, s': State, t: nat, p: nat, c: nat)
    requires HoldersOk(s) && On(s, t) && s.pcs[t] == BothLatched(p, c) && Holds(s.nodes, p, t) && Holds(s.nodes, c, t)
    requires p != c
    requires s' == To(s, t, Start).(nodes := Release(Release(s.nodes, p), c))
    ensures Frame(s, s', t) && HoldersFrame(s, s', t) && SameTree(s.nodes, s'.nodes)
  {
  }

  lemma GivesUp(s: State, s': State, t: nat)
    requires PcOk(s, t) && GiveUp(s, s', t)
    ensures On(s, t) && s.pcs[t].BothLatched?
    ensures var p, c := s.pcs[t].page, s.pcs[t].child;
            && Holds(s.nodes, p, t) && Holds(s.nodes, c, t) && p != c && p < |s.nodes| && c < |s.nodes|
            && s' == To(s, t, Start).(nodes := Release(Release(s.nodes, p), c))
  {
    hide IsKid;
  }

  lemma GiveUpStep(s: State, s': State, t: nat)
    requires Good(s) && GiveUp(s, s', t)
    ensures Good(s')
  {
    hide *;
    Taken(s, s', t);
    PcOkOf(s, t);
    GivesUp(s, s', t);
    GoodParts(s);
    GiveUpFrames(s, s', t, s.pcs[t].page, s.pcs[t].child);
    SameTreeOk(s.nodes, s'.nodes, s.root);
    StartIsOk(s', t);
    Assemble(s, s', t);
  }

  lemma Taken(s: State, s': State, t: nat)
    requires GiveUp(s, s', t)
    ensures t < |s.pcs| == |s.keys| && t < |s'.pcs| && s'.root == s.root && s'.pcs[t] == Start && On(s', t)
  {
  }

  lemma GoodParts(s: State)
    requires Good(s)
    ensures HoldersOk(s) && TreeOk(s.nodes, s.root)
  {
    hide TreeOk, PcOk;
  }

  lemma StartIsOk(s: State, t: nat)
    requires On(s, t) && t < |s.pcs| && s.pcs[t] == Start
    ensures PcOk(s, t)
  {
  }

  /** A leaf whose upgrade succeeds is the leaf of the key, and part of the tree. */
  lemma LockLeafStep(s: State, s': State, t: nat)
    requires Good(s) && LockLeaf(s, s', t)
    ensures Good(s')
    ensures s'.pcs[t].Locked? ==> Home(s'.nodes, s'.pcs[t].page, s.keys[t]) && s'.nodes[s'.pcs[t].page].height == 1
  {
    PcOkOf(s, t);
    var pc := s.pcs[t];
    if Untouched(s.nodes, pc.page, pc.ver) {
      LatchStep(s, s', t, pc.page, s'.pcs[t]);
    } else {
      OnlyPc(s, s', t, Start);
    }
    assert PcOk(s', t) by { hide Frame, HoldersFrame, HoldersOk, TreeOk, IsKid; }
    hide Frame, HoldersFrame, TreeOk, Good, LockLeaf;
    Assemble(s, s', t);
  }

  lemma FinishStep(s: State, s': State, t: nat)
    requires Good(s) && Finish(s, s', t)
    ensures Good(s')
  {
    PcOkOf(s, t);
    ReleaseStep(s, s', t, s.pcs[t].page, Start);
    assert PcOk(s', t);
    hide PcOk, Frame, HoldersFrame, TreeOk, Good, Finish;
    Assemble(s, s', t);
  }

  lemma LatchingKeepsGood(s: State, s': State, t: nat)
    requires Good(s) && Latching(s, s', t)
    ensures Good(s')
  {
    hide Good, Descend, LatchParent, LatchChild, GiveUp, LockLeaf, Finish;
    if Descend(s, s', t) { DescendStep(s, s', t); }
    if LatchParent(s, s', t) { LatchParentStep(s, s', t); }
    if LatchChild(s, s', t) { LatchChildStep(s, s', t); }
    if GiveUp(s, s', t) { GiveUpStep(s, s', t); }
    if LockLeaf(s, s', t) { LockLeafStep(s, s', t); }
    if Finish(s, s', t) { FinishStep(s, s', t); }
  }

  /** The pages differ in their flag for an unsafe degree only. */
  lemma FlagKeepsTree(nodes: seq<Node>, root: nat, p: nat)
    requires TreeOk(nodes, root) && p < |nodes|
    ensures TreeOk(nodes[p := nodes[p].(bad := true)], root)
  {
    var nodes' := nodes[p := nodes[p].(bad := true)];
    forall q | 0 <= q < |nodes'| && nodes'[q].live
      ensures KidsOk(nodes', q) && Spanned(nodes'[q]) && 1 <= nodes'[q].height <= nodes'[root].height
    {
      assert KidsOk(nodes, q) && Spanned(nodes[q]);
    }
  }

  lemma WriteFrames(s: State, s': State, t: nat, p: nat)
    requires HoldersOk(s) && On(s, t) && s.pcs[t] == Locked(p) && PcOk(s, t)
    requires p < |s.nodes| && s' == s.(nodes := s.nodes[p := s.nodes[p].(bad := true)])
    ensures Frame(s, s', t) && HoldersFrame(s, s', t) && PcOk(s', t)
  {
  }

  lemma WriteKeepsGood(s: State, s': State, t: nat)
    requires Good(s) && WriteLeaf(s, s', t)
    ensures Good(s')
  {
    if s' != s {
      PcOkOf(s, t);
      GoodParts(s);
      var p := s.pcs[t].page;
      hide Good, TreeOk, HoldersOk, PcOk, Frame, HoldersFrame;
      FlagKeepsTree(s.nodes, s.root, p);
      WriteFrames(s, s', t, p);
      Assemble(s, s', t);
    }
  }

  // ---------------------------------------------------------------- reorganizations

  lemma RepairParts(s: State, s': State, t: nat) returns (r: nat)
    requires PcOk(s, t) && Repair(s, s', t)
    ensures On(s, t) && s.pcs[t].BothLatched? && t < |s.pcs| && t < |s.keys| && |s'.pcs| == |s.pcs|
    ensures var p, c := s.pcs[t].page, s.pcs[t].child;
            && p < |s.nodes| <= |s'.nodes| && c < |s.nodes| && r < |s.nodes| && p != c && r != p
            && Home(s.nodes, p, s.keys[t]) && IsKid(s.nodes, p, c, s.keys[t]) && (p == s.root ==> !s.nodes[p].bad)
            && s.nodes[p].live && s.nodes[p].holder == Some(t) && s.nodes[c].holder == Some(t)
            && (r == c || (s.nodes[r].holder.None? && s.nodes[r].live && r != s.root))
            && SameBut(s.nodes, s'.nodes, {p, c, r}) && Dies(s.nodes[c], s'.nodes[c]) && Dies(s.nodes[r], s'.nodes[r])
            && s'.nodes[p] == s.nodes[p].(kids := s'.nodes[p].kids, bad := s'.nodes[p].bad)
            && s.pcs[t] == BothLatched(p, c) && s'.pcs[t] == AtNode(p, 0, true)
            && s' == To(s, t, AtNode(p, 0, true)).(nodes := s'.nodes) && TreeOk(s'.nodes, s.root)
  {
    hide TreeOk, IsKid, SameBut, Dies;
    var p, c := s.pcs[t].page, s.pcs[t].child;
    r :| r < |s.nodes| && r != p && (r == c || (s.nodes[r].holder.None? && s.nodes[r].live && r != s.root))
         && SameBut(s.nodes, s'.nodes, {p, c, r}) && Dies(s.nodes[r], s'.nodes[r]);
  }

  lemma FrameIs(s: State, s': State, t: nat)
    requires On(s, t) && |s'.pcs| == |s.pcs| && s'.keys == s.keys && s' == To(s, t, s'.pcs[t]).(nodes := s'.nodes)
    requires |s.nodes| <= |s'.nodes| && forall q: nat :: q < |s.nodes| ==> NodeFrame(s, s', q, t)
    ensures Frame(s, s', t)
  {
    hide NodeFrame;
  }

  lemma AtLatched(s: State, t: nat, p: nat)
    requires On(s, t) && t < |s.pcs| && s.pcs[t] == AtNode(p, 0, true) && Holds(s.nodes, p, t)
    requires Home(s.nodes, p, s.keys[t])
    ensures PcOk(s, t)
  {
    hide Home;
  }

  lemma RepairFrames(s: State, s': State, t: nat)
    requires Good(s) && Repair(s, s', t)
    ensures Frame(s, s', t) && HoldersFrame(s, s', t) && TreeOk(s'.nodes, s'.root) && PcOk(s', t)
  {
    hide *;
    PcOkOf(s, t);
    GoodParts(s);
    OnIs(s, s', t);
    var r := RepairParts(s, s', t);
    var p, c := s.pcs[t].page, s.pcs[t].child;
    KidIsHome(s, p, c, s.keys[t]);
    HomeIsLive(s.nodes, c, s.keys[t]);
    RepairHolders(s, s', t, p, c, r);
    RepairNodes(s, s', t, p, c, r);
    ToIs(s, s', t, AtNode(p, 0, true));
    FrameIs(s, s', t);
    StaysHome(s, s', t, p);
    AtLatched(s', t, p);
  }

  lemma OnIs(s: State, s': State, t: nat)
    requires Repair(s, s', t)
    ensures t < |s.pcs| == |s.keys|
  {
    hide TreeOk, SameBut, Dies;
  }

  lemma HomeIsLive(nodes: seq<Node>, p: nat, k: nat)
    requires Home(nodes, p, k)
    ensures p < |nodes| && nodes[p].live
  {
  }

  lemma ToIs(s: State, s': State, t: nat, pc: Pc)
    requires t < |s.pcs| && s' == To(s, t, pc).(nodes := s'.nodes)
    ensures t < |s'.pcs| == |s.pcs| && s'.pcs[t] == pc && s'.keys == s.keys && s'.root == s.root && s'.mver == s.mver
    ensures On(s, t) ==> On(s', t)
  {
  }

  lemma StaysHome(s: State, s': State, t: nat, p: nat)
    requires t < |s.keys| && s'.keys == s.keys && p < |s.nodes| <= |s'.nodes| && Home(s.nodes, p, s.keys[t])
    requires s'.nodes[p] == s.nodes[p].(kids := s'.nodes[p].kids, bad := s'.nodes[p].bad)
    requires s.nodes[p].holder == Some(t)
    ensures Home(s'.nodes, p, s'.keys[t]) && Holds(s'.nodes, p, t)
  {
  }

  lemma RepairNodes(s: State, s': State, t: nat, p: nat, c: nat, r: nat)
    requires p < |s.nodes| <= |s'.nodes| && c < |s.nodes| && r < |s.nodes| && SameBut(s.nodes, s'.nodes, {p, c, r})
    requires c != p && r != p
    requires Dies(s.nodes[c], s'.nodes[c]) && Dies(s.nodes[r], s'.nodes[r]) && s.nodes[p].holder == Some(t)
    requires s.nodes[c].holder == Some(t)
    requires (r == c || (s.nodes[r].holder.None? && s.nodes[r].live && r != s.root)) && c != s.root && s.nodes[c].live
    requires s.nodes[p].live
    requires s'.nodes[p] == s.nodes[p].(kids := s'.nodes[p].kids, bad := s'.nodes[p].bad)
    requires (p == s.root ==> !s.nodes[p].bad)
    ensures forall q: nat :: q < |s.nodes| ==> NodeFrame(s, s', q, t)
  {
    forall q: nat | q < |s.nodes| ensures NodeFrame(s, s', q, t) {
      if q != p && q != c && q != r { assert q !in {p, c, r}; }
    }
  }

  lemma RepairHolders(s: State, s': State, t: nat, p: nat, c: nat, r: nat)
    requires Good(s) && On(s, t) && |s'.pcs| == |s.pcs| && s.pcs[t] == BothLatched(p, c)
    requires s'.pcs[t] == AtNode(p, 0, true)
    requires p < |s.nodes| <= |s'.nodes| && c < |s.nodes| && r < |s.nodes| && SameBut(s.nodes, s'.nodes, {p, c, r})
    requires Dies(s.nodes[c], s'.nodes[c]) && Dies(s.nodes[r], s'.nodes[r]) && s'.nodes[p].holder == Some(t)
    ensures HoldersFrame(s, s', t)
  {
    forall q: nat | q < |s'.nodes| && s'.nodes[q].holder.Some?
      ensures if s'.nodes[q].holder == Some(t) then HoldsAt(s'.pcs[t], q)
              else q < |s.nodes| && s.nodes[q].holder == s'.nodes[q].holder
    {
      if q < |s.nodes| && q !in {p, c, r} { HolderOf(s, q); }
    }
  }

  lemma HolderOf(s: State, q: nat)
    requires Good(s) && q < |s.nodes| && s.nodes[q].holder.Some?
    ensures s.nodes[q].holder.value < |s.pcs| && HoldsAt(s.pcs[s.nodes[q].holder.value], q)
  {
    hide TreeOk, PcOk;
  }

  lemma RepairKeepsGood(s: State, s': State, t: nat)
    requires Good(s) && Repair(s, s', t)
    ensures Good(s')
  {
    hide *;
    RepairFrames(s, s', t);
    Assemble(s, s', t);
  }

  lemma NewRootFrames(s: State, s': State, t: nat, c: nat)
    requires Good(s) && On(s, t) && s.pcs[t].TryRoot? && s.mver == s.pcs[t].mver && s.pcs[t].page < |s.nodes|
    requires NewRoot(s, s', t, {s.pcs[t].page, c}) && s.root < |s.nodes| && s.nodes[s.root].holder.None?
    requires c < |s.nodes| <= |s'.nodes|
    requires c != s.pcs[t].page ==>
               c != s.root && s.nodes[c].live && s.nodes[c].holder.None? && Dies(s.nodes[c], s'.nodes[c])
    ensures Frame(s, s', t) && HoldersFrame(s, s', t) && TreeOk(s'.nodes, s'.root) && PcOk(s', t)
  {
    PcOkOf(s, t);
    var p := s.pcs[t].page;
    assert p == s.root && s.nodes[p].bad;
    NewRootTrusted(s, s', t, {p, c});
    hide KidsOk, Spanned, LiveApart, TreeOk, PcOk;
    forall q: nat | q < |s.nodes| ensures NodeFrame(s, s', q, t) {
      if q != p && q != c { assert q !in {p, c}; }
    }
    forall q: nat | q < |s'.nodes| && s'.nodes[q].holder.Some?
      ensures if s'.nodes[q].holder == Some(t) then HoldsAt(s'.pcs[t], q)
              else q < |s.nodes| && s.nodes[q].holder == s'.nodes[q].holder
    {
      if q < |s.nodes| && q !in {p, c} { HolderOf(s, q); }
    }
  }

  lemma NewRootTrusted(s: State, s': State, t: nat, replaced: set<nat>)
    requires Good(s) && On(s, t) && s.pcs[t].TryRoot? && s.pcs[t].page < |s.nodes| && NewRoot(s, s', t, replaced)
    ensures PcOk(s', t) && TreeOk(s'.nodes, s'.root)
  {
    hide KidsOk, Spanned, LiveApart, PcOk;
    assert s'.nodes[s'.root].ver == 0;
    assert Home(s'.nodes, s'.root, s'.keys[t]);
    TrustsIs(s', t);
  }

  lemma TrustsIs(s: State, t: nat)
    requires On(s, t) && s.pcs[t] == AtNode(s.root, 0, false) && Home(s.nodes, s.root, s.keys[t])
    requires !s.nodes[s.root].bad
    ensures PcOk(s, t)
  {
  }

  /** The root can be replaced safely while nobody holds its latch. */
  lemma ReplaceKeepsGood(s: State, s': State, t: nat)
    requires Good(s) && ReplacesRoot(s, s', t) && s.root < |s.nodes| && s.nodes[s.root].holder.None?
    ensures Good(s')
  {
    hide Good, NewRoot, Frame, HoldersFrame, TreeOk, PcOk, KidsOk, Spanned, LiveApart;
    var p := s.pcs[t].page;
    if SplitRoot(s, s', t) {
      assert {p, p} == {p};
      GrowsNodes(s, s', t, {p});
      NewRootFrames(s, s', t, p);
    } else {
      var c: nat :| MergesInto(s, s', t, c);
      GrowsNodes(s, s', t, {p, c});
      NewRootFrames(s, s', t, c);
    }
    Assemble(s, s', t);
  }

  lemma GrowsNodes(s: State, s': State, t: nat, replaced: set<nat>)
    requires On(s, t) && s.pcs[t].TryRoot? && s.pcs[t].page < |s.nodes| && NewRoot(s, s', t, replaced)
    ensures |s.nodes| <= |s'.nodes| && s'.nodes[s.pcs[t].page] == s.nodes[s.pcs[t].page].(live := false)
  {
  }

  /**
   Replacing the root keeps what the threads rely on exactly if its latch is free. The program does
   not latch the page it replaces.
   */
  lemma ReplaceIsSafeIffUnlatched(s: State, s': State, t: nat)
    requires Good(s) && ReplacesRoot(s, s', t) && s.root < |s.nodes|
    ensures Good(s') <==> s.nodes[s.root].holder.None?
  {
    if s.nodes[s.root].holder.None? {
      ReplaceKeepsGood(s, s', t);
    } else {
      HeldRootBreaks(s, s', t);
    }
  }

  lemma HeldRootBreaks(s: State, s': State, t: nat)
    requires Good(s) && ReplacesRoot(s, s', t) && s.root < |s.nodes| && s.nodes[s.root].holder.Some?
    ensures !Good(s')
  {
    var u := s.nodes[s.root].holder.value;
    HolderOf(s, s.root);
    RootIsTried(s, s', t);
    DeadHeld(s', s.root, u);
  }

  lemma RootIsTried(s: State, s': State, t: nat)
    requires Good(s) && ReplacesRoot(s, s', t) && s.root < |s.nodes|
    ensures s.pcs[t] == TryRoot(s.mver, s.root) && s.root < |s'.nodes|
    ensures s'.nodes[s.root] == s.nodes[s.root].(live := false)
    ensures |s'.pcs| == |s.pcs| && forall u :: 0 <= u < |s.pcs| && u != t ==> s'.pcs[u] == s.pcs[u]
  {
    PcOkOf(s, t);
    hide Good, TreeOk;
    if SplitRoot(s, s', t) {
      GrowsNodes(s, s', t, {s.pcs[t].page});
    } else {
      var c: nat :| MergesInto(s, s', t, c);
      GrowsNodes(s, s', t, {s.pcs[t].page, c});
    }
  }

  /** No good state has a thread on the latch of a page that is not part of the tree. */
  lemma DeadHeld(s: State, p: nat, u: nat)
    requires p < |s.nodes| && !s.nodes[p].live && u < |s.pcs| && HoldsAt(s.pcs[u], p)
    ensures !Good(s)
  {
    if Good(s) {
      PcOkOf(s, u);
      HeldIsLive(s, u, p);
    }
  }

  lemma HeldIsLive(s: State, u: nat, p: nat)
    requires Good(s) && u < |s.pcs| && PcOk(s, u) && HoldsAt(s.pcs[u], p) && p < |s.nodes|
    ensures s.nodes[p].live
  {
    if s.pcs[u].BothLatched? { KidIsHome(s, s.pcs[u].page, s.pcs[u].child, s.keys[u]); }
  }

  // ---------------------------------------------------------------- whole runs

  /** A step in which a root is replaced only while its latch is free. */
  ghost predicate GoodStep(s: State, s': State, t: nat) {
    Step(s, s', t) && (ReplacesRoot(s, s', t) ==> s.root < |s.nodes| && s.nodes[s.root].holder.None?)
  }

  lemma StepKeepsGood(s: State, s': State, t: nat)
    requires Good(s) && GoodStep(s, s', t)
    ensures Good(s')
  {
    hide Good, Walk, Latching, Repair, WriteLeaf, ReplacesRoot;
    if Walk(s, s', t) { WalkKeepsGood(s, s', t); }
    if Latching(s, s', t) { LatchingKeepsGood(s, s', t); }
    if Repair(s, s', t) { RepairKeepsGood(s, s', t); }
    if WriteLeaf(s, s', t) { WriteKeepsGood(s, s', t); }
    if ReplacesRoot(s, s', t) { ReplaceKeepsGood(s, s', t); }
  }

  ghost predicate Run(run: seq<State>, threads: seq<nat>) {
    |run| == |threads| + 1 && forall i :: 0 <= i < |threads| ==> Step(run[i], run[i + 1], threads[i])
  }

  ghost predicate GoodRun(run: seq<State>, threads: seq<nat>) {
    |run| == |threads| + 1 && forall i :: 0 <= i < |threads| ==> GoodStep(run[i], run[i + 1], threads[i])
  }

  lemma {:induction false} GoodRunStaysGood(run: seq<State>, threads: seq<nat>)
    requires GoodRun(run, threads) && Good(run[0])
    ensures Good(run[|run| - 1])
  {
    hide Good, GoodStep;
    var n := |threads|;
    if n > 0 {
      var init := run[..n];
      assert forall i :: 0 <= i < n ==> init[i] == run[i];
      forall i | 0 <= i < n - 1 ensures GoodStep(init[i], init[i + 1], threads[..n - 1][i]) {
        assert GoodStep(run[i], run[i + 1], threads[i]);
      }
      GoodRunStaysGood(init, threads[..n - 1]);
      assert GoodStep(run[n - 1], run[n], threads[n - 1]);
      StepKeepsGood(run[n - 1], run[n], threads[n - 1]);
    }
  }

  /** A sound tree without latches, before any thread has taken a step, is a good state. */
  lemma StartsGood(s: State)
    requires AllStart(s) && |s.pcs| == |s.keys| && (forall t :: 0 <= t < |s.keys| ==> s.keys[t] <= MAX_KEY)
    requires TreeOk(s.nodes, s.root) && forall p :: 0 <= p < |s.nodes| ==> s.nodes[p].holder.None?
    ensures Good(s)
  {
    hide TreeOk;
    forall t: nat | t < |s.pcs| ensures PcOk(s, t) { assert s.pcs[t] == Start; }
  }

  /** The thread holds the leaf of its key: part of the tree, and the one a search for the key comes to. */
  ghost predicate AtHome(s: State, t: nat) {
    && t < |s.pcs| && t < |s.keys| && s.pcs[t].Locked?
    && var p, k := s.pcs[t].page, s.keys[t];
       && Home(s.nodes, p, k) && s.nodes[p].height == 1 && Holds(s.nodes, p, t)
       && s.root < |s.nodes| && s.nodes[s.root].height >= 1 && Leads(s.nodes, s.root, p, k, s.nodes[s.root].height - 1)
  }

  /** In every such interleaving, a thread that has latched its leaf holds the live leaf of its key. */
  lemma LockedLeafIsHome(run: seq<State>, threads: seq<nat>, t: nat)
    requires GoodRun(run, threads) && Good(run[0]) && t < |run[|run| - 1].pcs| && run[|run| - 1].pcs[t].Locked?
    ensures AtHome(run[|run| - 1], t)
  {
    var s := run[|run| - 1];
    hide *;
    GoodRunStaysGood(run, threads);
    LockedIsReached(s, t);
  }

  lemma LockedIsReached(s: State, t: nat)
    requires Good(s) && t < |s.pcs| && s.pcs[t].Locked?
    ensures AtHome(s, t)
  {
    PcOkOf(s, t);
    GoodParts(s);
    KeyOf(s, t);
    hide Good, TreeOk, HoldersOk, Home, Leads;
    HomeIsReached(s.nodes, s.root, s.pcs[t].page, s.keys[t]);
  }

  lemma KeyOf(s: State, t: nat)
    requires Good(s) && t < |s.pcs|
    ensures t < |s.keys| && s.keys[t] <= MAX_KEY
  {
    hide TreeOk, HoldersOk, PcOk;
  }

  /** The thread has latched a page of the tree and the child it is going to repair, which is part of the tree too. */
  ghost predicate RepairsLive(s: State, t: nat) {
    && On(s, t) && s.pcs[t].BothLatched?
    && var p, c := s.pcs[t].page, s.pcs[t].child;
       && Holds(s.nodes, p, t) && Home(s.nodes, p, s.keys[t]) && IsKid(s.nodes, p, c, s.keys[t])
       && Holds(s.nodes, c, t) && Home(s.nodes, c, s.keys[t]) && s.nodes[c].height + 1 == s.nodes[p].height
  }

  /** In every such interleaving, whoever repairs a child does it below a page that is part of the tree. */
  lemma RepairIsBelowLive(run: seq<State>, threads: seq<nat>, t: nat)
    requires GoodRun(run, threads) && Good(run[0]) && t < |run[|run| - 1].pcs| && run[|run| - 1].pcs[t].BothLatched?
    ensures RepairsLive(run[|run| - 1], t)
  {
    var s := run[|run| - 1];
    hide *;
    GoodRunStaysGood(run, threads);
    BothLive(s, t);
  }

  lemma BothLive(s: State, t: nat)
    requires Good(s) && t < |s.pcs| && s.pcs[t].BothLatched?
    ensures RepairsLive(s, t)
  {
    PcOkOf(s, t);
    GoodParts(s);
    KeyOf(s, t);
    hide Good, TreeOk, HoldersOk;
    KidIsHome(s, s.pcs[t].page, s.pcs[t].child, s.keys[t]);
  }

  ghost predicate AllStart(s: State) { forall t :: 0 <= t < |s.pcs| ==> s.pcs[t] == Start }

  /** A thread has latched a leaf that is not part of the tree. */
  ghost predicate LockedDead(s: State) {
    exists t :: 0 <= t < |s.pcs| && s.pcs[t].Locked? && s.pcs[t].page < |s.nodes| && !s.nodes[s.pcs[t].page].live
  }

  // ---------------------------------------------------------------- why the root must not be latched

  /**
   Whenever a root above a leaf is merged while another thread holds its latch on the way down, that
   thread can go on, by steps of its own, until it has latched the leaf that was replaced.
   */
  lemma MergedRootHolderIsLost(s: State, s': State, t: nat, u: nat, c: nat, v: nat)
    requires Good(s) && MergesInto(s, s', t, c) && u != t && u < |s.pcs| && s.pcs[u] == AtNode(s.root, v, true)
    requires s.nodes[c].height == 1 && IsKid(s.nodes, s.root, c, s.keys[u]) && s.nodes[s.root].height > 1
    ensures exists run: seq<State>, threads: seq<nat> ::
              && Run(run, threads) && run[0] == s' && LockedDead(run[|run| - 1])
              && forall i :: 0 <= i < |threads| ==> threads[i] == u
  {
    MergedParts(s, s', t, u, c, v);
    LostSteps(s', s.root, u, c, v);
  }

  lemma MergedParts(s: State, s': State, t: nat, u: nat, c: nat, v: nat)
    requires Good(s) && MergesInto(s, s', t, c) && u != t && u < |s.pcs| && s.pcs[u] == AtNode(s.root, v, true)
    requires s.nodes[c].height == 1 && IsKid(s.nodes, s.root, c, s.keys[u]) && s.nodes[s.root].height > 1
    ensures On(s', u) && s'.pcs[u] == AtNode(s.root, v, true) && s.root < |s'.nodes| && s'.nodes[s.root].height > 1
    ensures c < |s'.nodes| && c != s.root && IsKid(s'.nodes, s.root, c, s'.keys[u])
    ensures s'.nodes[c].holder.None? && !s'.nodes[c].live && s'.nodes[c].height == 1
  {
    PcOkOf(s, t);
    hide Good, TreeOk, IsKid;
    KidSame(s.nodes, s'.nodes, s.root, c, s.keys[u]);
  }

  lemma LostSteps(s: State, p: nat, u: nat, c: nat, v: nat)
    requires On(s, u) && s.pcs[u] == AtNode(p, v, true) && p < |s.nodes| && s.nodes[p].height > 1 && c < |s.nodes|
    requires c != p
    requires IsKid(s.nodes, p, c, s.keys[u]) && s.nodes[c].holder.None? && !s.nodes[c].live && s.nodes[c].height == 1
    ensures exists run: seq<State>, threads: seq<nat> ::
              && Run(run, threads) && run[0] == s && LockedDead(run[|run| - 1])
              && forall i :: 0 <= i < |threads| ==> threads[i] == u
  {
    hide IsKid;
    var cv := s.nodes[c].ver;
    var a, b, d := To(s, u, Picked(p, v, true, c)), To(s, u, Borrowed(p, v, true, c, cv)),
      To(s, u, Checked(p, v, true, c, cv));
    var e := To(s, u, AtNode(c, cv, false)).(nodes := Release(s.nodes, p));
    var f := To(s, u, Locked(c)).(nodes := Latch(e.nodes, c, u));
    assert Pick(s, a, u);
    assert Borrow(a, b, u);
    assert Validate(b, d, u);
    assert Descend(d, e, u);
    assert LockLeaf(e, f, u);
    assert LockedDead(f) by { assert f.pcs[u].Locked?; }
    hide Pick, Borrow, Validate, Descend, LockLeaf, LockedDead;
    var run, threads := [s, a, b, d, e, f], [u, u, u, u, u];
    assert Run(run, threads);
  }

  function Two(nodes: seq<Node>, root: nat, mver: nat, a: Pc, b: Pc): State { State(nodes, root, mver, [a, b], [5, 5]) }

  const LOW := Fence(MIN_KEY, 9)
  const HIGH := Fence(10, MAX_KEY)
  const LEAVES: seq<Node> := [Node(LOW, 1, true, false, [], 0, None), Node(HIGH, 1, true, false, [], 0, None)]
  const DEAD_LEAVES: seq<Node> := [Node(LOW, 1, false, false, [], 1, None), Node(HIGH, 1, false, false, [], 1, None)]
  const KIDS: seq<Kid> := [Kid(LOW, 1), Kid(HIGH, 2)]
  const MERGED: seq<Kid> := [Kid(FULL, 3)]

  /** A root over two leaves. */
  function Whole(rootHolder: Option<nat>, leafHolder: Option<nat>): seq<Node> {
    [Node(FULL, 2, true, false, KIDS, 0, rootHolder), LEAVES[0].(holder := leafHolder), LEAVES[1]]
  }

  /** The leaves are merged into one; the root has a single child and its latch is still held. */
  function Merging(): seq<Node> {
    [Node(FULL, 2, true, true, MERGED, 0, Some(0))] + DEAD_LEAVES + [Node(FULL, 1, true, false, [], 0, None)]
  }

  /** Another thread has replaced the root and its child. */
  function Replaced(rootVer: nat, rootHolder: Option<nat>, leafHolder: Option<nat>): seq<Node> {
    [Node(FULL, 2, false, true, MERGED, rootVer, rootHolder)] + DEAD_LEAVES
    + [Node(FULL, 1, false, false, [], 1, leafHolder), Node(FULL, 1, true, false, [], 0, None)]
  }

  function RaceDown(): (r: seq<State>)
    ensures |r| == 10
  {
    var n := Whole(None, None);
    [Two(n, 0, 0, Start, Start), Two(n, 0, 0, GotMaster(0), Start), Two(n, 0, 0, RootPtr(0, 0), Start),
     Two(n, 0, 0, RootGuard(0, 0, 0), Start),
     Two(n, 0, 0, AtNode(0, 0, false), Start), Two(n, 0, 0, Picked(0, 0, false, 1), Start),
       Two(n, 0, 0, Borrowed(0, 0, false, 1, 0), Start),
     Two(n, 0, 0, Checked(0, 0, false, 1, 0), Start), Two(Whole(Some(0), None), 0, 0, ParentLatched(0, 1, 0), Start),
     Two(Whole(Some(0), Some(0)), 0, 0, BothLatched(0, 1), Start)]
  }

  function RaceReplace(): (r: seq<State>)
    ensures |r| == 6
  {
    var n, a := Merging(), AtNode(0, 0, true);
    [Two(n, 0, 0, a, Start), Two(n, 0, 0, a, GotMaster(0)), Two(n, 0, 0, a, RootPtr(0, 0)),
     Two(n, 0, 0, a, RootGuard(0, 0, 0)),
     Two(n, 0, 0, a, TryRoot(0, 0)), Two(Replaced(0, Some(0), None), 4, 1, a, AtNode(4, 0, false))]
  }

  function RaceLock(): (r: seq<State>)
    ensures |r| == 5
  {
    var n, b := Replaced(0, Some(0), None), AtNode(4, 0, false);
    [Two(n, 4, 1, Picked(0, 0, true, 3), b), Two(n, 4, 1, Borrowed(0, 0, true, 3, 1), b),
     Two(n, 4, 1, Checked(0, 0, true, 3, 1), b),
     Two(Replaced(1, None, None), 4, 1, AtNode(3, 1, false), b), Two(Replaced(1, None, Some(0)), 4, 1, Locked(3), b)]
  }

  lemma RaceStarts()
    ensures Good(RaceDown()[0]) && AllStart(RaceDown()[0]) && LockedDead(RaceLock()[4])
  {
    var s := RaceDown()[0];
    WholeTree();
    assert s.nodes == Whole(None, None) && s.root == 0;
    assert Good(s) by { hide Whole, TreeOk, RaceDown; }
    assert RaceLock()[4].pcs[0].Locked?;
  }

  lemma WholeTree()
    ensures TreeOk(Whole(None, None), 0)
    ensures forall q :: 0 <= q < |Whole(None, None)| ==> Whole(None, None)[q].holder.None?
  {
    var n := Whole(None, None);
    assert n[0] == Node(FULL, 2, true, false, KIDS, 0, None) && n[1] == LEAVES[0] && n[2] == LEAVES[1] && |n| == 3;
    hide Whole;
    assert KidsOk(n, 0) && KidsOk(n, 1) && KidsOk(n, 2);
    assert Spanned(n[0]) by {
      forall k: nat | Contains(FULL, k) ensures HasKid(n[0], k) {
        assert Contains(n[0].kids[0].fence, k) || Contains(n[0].kids[1].fence, k);
      }
    }
  }

  /** Consecutive states of one thread. */
  ghost predicate Thread(r: seq<State>, t: nat) { forall i :: 0 < i < |r| ==> Step(r[i - 1], r[i], t) }

  lemma DownRoot()
    ensures var r := RaceDown();
            && Step(r[0], r[1], 0) && Step(r[1], r[2], 0) && Step(r[2], r[3], 0)
            && Step(r[3], r[4], 0)
  {
    var r := RaceDown();
    assert ReadRoot(r[0], r[1], 0);
    assert ReadRoot(r[1], r[2], 0);
    assert ReadRoot(r[2], r[3], 0);
    assert ReadRoot(r[3], r[4], 0);
  }

  lemma DownChild()
    ensures var r := RaceDown(); Step(r[4], r[5], 0) && Step(r[5], r[6], 0) && Step(r[6], r[7], 0)
  {
    var r := RaceDown();
    assert IsKid(r[4].nodes, 0, 1, 5) by { assert r[4].nodes[0].kids[0].page == 1; }
    assert Pick(r[4], r[5], 0);
    assert Borrow(r[5], r[6], 0);
    assert Validate(r[6], r[7], 0);
  }

  lemma DownLatches()
    ensures var r := RaceDown(); Step(r[7], r[8], 0) && Step(r[8], r[9], 0)
  {
    var r := RaceDown();
    assert LatchParent(r[7], r[8], 0);
    assert LatchChild(r[8], r[9], 0);
  }

  lemma MergingTree()
    ensures TreeOk(Merging(), 0)
  {
    var n := Merging();
    assert n[0] == Node(FULL, 2, true, true, MERGED, 0, Some(0)) && n[3] == Node(FULL, 1, true, false, [], 0, None);
    assert !n[1].live && !n[2].live && |n| == 4;
    hide Merging;
    assert KidsOk(n, 0) && KidsOk(n, 3);
    assert Spanned(n[0]) by {
      forall k: nat | Contains(FULL, k) ensures HasKid(n[0], k) { assert Contains(n[0].kids[0].fence, k); }
    }
  }

  lemma RaceMerges()
    ensures Step(RaceDown()[9], RaceReplace()[0], 0)
  {
    var s, s' := RaceDown()[9], RaceReplace()[0];
    MergingTree();
    hide TreeOk;
    assert SameBut(s.nodes, s'.nodes, {0, 1, 2}) && Dies(s.nodes[2], s'.nodes[2]);
    assert Repair(s, s', 0);
  }

  lemma ReplaceRoots()
    ensures var r := RaceReplace();
            && Step(r[0], r[1], 1) && Step(r[1], r[2], 1) && Step(r[2], r[3], 1)
            && Step(r[3], r[4], 1)
  {
    var r := RaceReplace();
    assert ReadRoot(r[0], r[1], 1);
    assert ReadRoot(r[1], r[2], 1);
    assert ReadRoot(r[2], r[3], 1);
    assert ReadRoot(r[3], r[4], 1);
  }

  lemma ReplacedTree()
    ensures TreeOk(Replaced(0, Some(0), None), 4) && !Replaced(0, Some(0), None)[4].bad
  {
    var n := Replaced(0, Some(0), None);
    assert n[4] == Node(FULL, 1, true, false, [], 0, None);
    assert !n[0].live && !n[1].live && !n[2].live && !n[3].live && |n| == 5;
    hide Replaced;
    assert KidsOk(n, 4);
  }

  lemma ReplacedNodes()
    ensures var n, n' := Merging(), Replaced(0, Some(0), None);
            SameBut(n, n', {0, 3}) && |n| == 4 && |n'| == 5 && Dies(n[3], n'[3]) && n'[0] == n[0].(live := false)
              && n[3].live && n[3].holder.None?
  {
  }

  lemma RaceReplaces()
    ensures Step(RaceReplace()[4], RaceReplace()[5], 1)
  {
    var s, s' := RaceReplace()[4], RaceReplace()[5];
    ReplacedTree();
    ReplacedNodes();
    hide TreeOk, SameBut, Merging, Replaced;
    assert NewRoot(s, s', 1, {0, 3});
    assert MergesInto(s, s', 1, 3);
  }

  lemma LockPicks()
    ensures Step(RaceReplace()[5], RaceLock()[0], 0)
  {
    var s, s' := RaceReplace()[5], RaceLock()[0];
    assert IsKid(s.nodes, 0, 3, 5) by { assert s.nodes[0].kids[0].page == 3; }
    assert Pick(s, s', 0);
  }

  lemma LockSteps()
    ensures var r := RaceLock();
            && Step(r[0], r[1], 0) && Step(r[1], r[2], 0) && Step(r[2], r[3], 0)
            && Step(r[3], r[4], 0)
  {
    var r := RaceLock();
    assert Borrow(r[0], r[1], 0);
    assert Validate(r[1], r[2], 0);
    assert Descend(r[2], r[3], 0);
    assert LockLeaf(r[3], r[4], 0);
  }

  lemma RaceThreads()
    ensures Thread(RaceDown(), 0) && Thread(RaceReplace(), 1) && Thread(RaceLock(), 0)
  {
    DownRoot();
    DownChild();
    DownLatches();
    ReplaceRoots();
    RaceReplaces();
    LockSteps();
    hide Step, RaceDown, RaceReplace, RaceLock;
  }

  lemma JoinedRuns(a: seq<State>, b: seq<State>, c: seq<State>)
    requires |a| == 10 && |b| == 6 && |c| == 5 && Thread(a, 0) && Thread(b, 1) && Thread(c, 0)
    requires Step(a[9], b[0], 0) && Step(b[5], c[0], 0)
    ensures Run(a + b + c, RaceSchedule())
  {
    hide Step;
    var run, threads := a + b + c, RaceSchedule();
    forall i | 0 <= i < |threads| ensures Step(run[i], run[i + 1], threads[i]) {
      if i < 9 { assert Step(a[i + 1 - 1], a[i + 1], 0); }
      if 10 <= i < 15 { assert Step(b[i - 9 - 1], b[i - 9], 1); }
      if 16 <= i { assert Step(c[i - 15 - 1], c[i - 15], 0); }
    }
  }

  function RaceSchedule(): (r: seq<nat>)
    ensures |r| == 20 && forall i :: 0 <= i < 20 ==> r[i] == if 10 <= i < 15 then 1 else 0
  {
    seq(20, i => if 10 <= i < 15 then 1 else 0)
  }

  /**
   As the program is, the claim fails: a thread that still holds the latch of a root another thread
   has replaced walks down into the replaced pages and latches a leaf that is not part of the tree.
   */
  lemma LatchedRootIsLost()
    ensures exists run, threads :: Run(run, threads) && Good(run[0]) && AllStart(run[0]) && LockedDead(run[|run| - 1])
  {
    RaceStarts();
    RaceThreads();
    RaceMerges();
    LockPicks();
    hide *;
    JoinedRuns(RaceDown(), RaceReplace(), RaceLock());
    var run := RaceDown() + RaceReplace() + RaceLock();
    assert run[0] == RaceDown()[0] && run[|run| - 1] == RaceLock()[4];
    assert Run(run, RaceSchedule());
  }
}
