/**
 When a page counts as unsafe, and why one repair is enough: the integer arithmetic of the 20%,
 40% and 80% fillings, for every page capacity of at least 8.
 */
module Fill {
  import opened Pages

  const MIN_CAPACITY: nat := 8

  datatype Degree = Fine | Overflow | ActiveUnderflow

  function Filling20(m: nat): nat { (m + 4) / 5 }

  function Filling80(m: nat): nat { (4 * m + 4) / 5 }

  /** An internal page keeps one slot free, because a key split adds two entries. */
  function OverflowUnits(leaf: bool, m: nat): int { if leaf then m else m - 1 }

  function DegreeOf(leaf: bool, m: nat, active: nat, dead: nat): Degree {
    if active <= Filling20(m) then ActiveUnderflow
    else if active + dead >= OverflowUnits(leaf, m) then
      if active <= Filling20(m) * 2 then ActiveUnderflow else Overflow
    else Fine
  }

  function UnsafeDegree(p: Page): Degree { DegreeOf(p.Leaf?, Capacity(p), p.active, p.dead) }

  function UnsafeDegreeRoot(p: Page): Degree {
    if p.active == 1 && !p.Leaf? then ActiveUnderflow
    else if Sum(p) >= OverflowUnits(p.Leaf?, Capacity(p)) then Overflow
    else Fine
  }

  predicate IsFine(leaf: bool, m: nat, active: nat) { DegreeOf(leaf, m, active, 0) == Fine }

  /** The fillings are the least counts that reach a fifth and four fifths of the capacity. */
  lemma FillingsReach(m: nat, a: nat)
    ensures a >= Filling20(m) <==> 5 * a >= m
    ensures a >= Filling80(m) <==> 5 * a >= 4 * m
  {
  }

  /**
   When a page is safe: one more active unit can go and a fifth is left, and the entries of one repair, or one
   record, still fit. Without room it overflows if even half of what could go leaves a fifth, and else underflows.
   */
  lemma WhenSafe(p: Page)
    ensures var room := Sum(p) + (if p.Leaf? then 1 else 2) <= Capacity(p);
            && (UnsafeDegree(p) == Fine <==> 5 * (p.active - 1) >= Capacity(p) && room)
            && (UnsafeDegree(p) == Overflow <==> 5 * ((p.active - 1) / 2) >= Capacity(p) && p.active > 0 && !room)
            && (UnsafeDegreeRoot(p) == Fine <==> (p.Leaf? || p.active != 1) && room)
            && (UnsafeDegreeRoot(p) == Overflow <==> (p.Leaf? || p.active != 1) && !room)
  {
  }

  /** Both halves of a key split of `a` live units are safe pages. */
  lemma KeySplitHalves(leaf: bool, m: nat, a: nat)
    requires m >= MIN_CAPACITY && Filling80(m) <= a <= m
    ensures IsFine(leaf, m, a / 2) && IsFine(leaf, m, a - a / 2)
  {
  }

  /** The copy a version split makes of an overflowing page is a safe page. */
  lemma VersionSplitCopy(leaf: bool, m: nat, a: nat)
    requires m >= MIN_CAPACITY && 2 * Filling20(m) < a < Filling80(m)
    ensures IsFine(leaf, m, a)
  {
  }

  /** Two pages that each hold the minimum and fit into 80% merge into a safe page. */
  lemma MergedPage(leaf: bool, m: nat, s: nat, c: nat)
    requires m >= MIN_CAPACITY && Filling20(m) <= s && Filling20(m) <= c && s + c <= 4 * m / 5
    ensures IsFine(leaf, m, s + c)
  {
  }

  /** An underflowing page and a sibling that do not fit into 80% give two safe halves, inside capacity. */
  lemma RedistributedHalves(leaf: bool, m: nat, s: nat, c: nat)
    requires m >= MIN_CAPACITY && s <= 2 * Filling20(m) && c <= m && s + c > 4 * m / 5
    ensures IsFine(leaf, m, (s + c) / 2) && IsFine(leaf, m, (s + c) - (s + c) / 2)
    ensures (s + c) - (s + c) / 2 <= m
  {
  }

  /** A safe internal page has room for the two entries of one repair below it. */
  lemma FineHasRoom(p: Page)
    requires Capacity(p) >= MIN_CAPACITY && (UnsafeDegree(p) == Fine || UnsafeDegreeRoot(p) == Fine)
    ensures Sum(p) + (if p.Leaf? then 1 else 2) <= Capacity(p)
  {
  }
}
