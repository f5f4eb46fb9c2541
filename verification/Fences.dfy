/** Closed key intervals. Keys are 64-bit words; the key space is MIN_KEY..MAX_KEY. */
module Fences {
  import opened Util

  const MIN_KEY: nat := 0
  const MAX_KEY: nat := 0xFFFF_FFFF_FFFF_FFFF

  datatype Fence = Fence(lower: nat, upper: nat)

  const FULL: Fence := Fence(MIN_KEY, MAX_KEY)

  predicate Contains(f: Fence, k: nat) { f.lower <= k <= f.upper }

  predicate Covers(f: Fence, g: Fence) { f.lower <= g.lower && g.upper <= f.upper }

  predicate Disjoint(f: Fence, g: Fence) { f.lower > g.upper || g.lower > f.upper }

  function Merged(f: Fence, g: Fence): Fence { Fence(Min(f.lower, g.lower), Max(f.upper, g.upper)) }

  /** Successor and predecessor saturate at the ends of the key space. */
  function IncKey(k: nat): nat { if k < MAX_KEY then k + 1 else MAX_KEY }

  function DecKey(k: nat): nat { if k > MIN_KEY then k - 1 else MIN_KEY }

  ghost predicate ValidFence(f: Fence) { f.lower <= f.upper <= MAX_KEY }
}
