/**
 The machine words of a page: the packed length, and versions whose top bit is a flag. Bit
 operations first, then the same words as numbers, as the page objects use them.
 */
module Words {
  import opened Util

  // ---------------------------------------------------------------- the packed length

  function ActiveBits(len: bv32): bv32 { len >> 16 }

  function DeadBits(len: bv32): bv32 { len & 0xFFFF }

  function PackBits(active: bv32, dead: bv32): bv32 { (active << 16) | dead }

  lemma PackedActive(active: bv32, dead: bv32)
    requires active <= 0xFFFF && dead <= 0xFFFF
    ensures ActiveBits(PackBits(active, dead)) == active
  {
  }

  lemma PackedDead(active: bv32, dead: bv32)
    requires active <= 0xFFFF && dead <= 0xFFFF
    ensures DeadBits(PackBits(active, dead)) == dead
  {
  }

  lemma PackedIsSum(active: bv32, dead: bv32)
    requires active <= 0xFFFF && dead <= 0xFFFF
    ensures PackBits(active, dead) == (active << 16) + dead
  {
  }

  /**
   Packing keeps both counts as long as each fits into its half of the word; shifting and masking then is the
   arithmetic the page objects use.
   */
  lemma PackedRoundTrip(active: bv32, dead: bv32)
    requires active <= 0xFFFF && dead <= 0xFFFF
    ensures ActiveBits(PackBits(active, dead)) == active && DeadBits(PackBits(active, dead)) == dead
    ensures PackBits(active, dead) == (active << 16) + dead
  {
    hide *;
    PackedActive(active, dead);
    PackedDead(active, dead);
    PackedIsSum(active, dead);
  }

  // ---------------------------------------------------------------- flagged versions

  const MARK: bv64 := 0x8000_0000_0000_0000
  const REST: bv64 := 0x7FFF_FFFF_FFFF_FFFF

  function Masked(v: bv64): bv64 { v & REST }

  function Marked(v: bv64): bv64 { v | MARK }

  /** Readers compare the version without its flag, so marking changes nothing for them; below the flag it adds it. */
  lemma MarkIsInvisible(v: bv64)
    ensures Masked(Marked(v)) == Masked(v)
    ensures v < MARK ==> Marked(v) == v + MARK
  {
  }

  // ---------------------------------------------------------------- deletion versions

  const NULL_DELETION: bv64 := 0

  function NewDeletion(v: bv64): bv64 { v | MARK }

  function GetDeletion(d: bv64): Option<bv64> { if d & MARK == 0 then None else Some(d & REST) }

  /** A deletion version is read back exactly if it fits below the flag. */
  lemma DeletionRoundTrip(v: bv64)
    ensures GetDeletion(NewDeletion(v)) == Some(v) <==> v < MARK
    ensures GetDeletion(NewDeletion(v)).Some? && GetDeletion(NULL_DELETION).None?
  {
  }

  // ---------------------------------------------------------------- the same words as numbers

  const HALF: nat := 0x1_0000
  const FLAG: nat := 0x8000_0000_0000_0000

  function ActiveOf(len: nat): nat { len / HALF }

  function DeadOf(len: nat): nat { len % HALF }

  function Pack(active: nat, dead: nat): nat { active * HALF + dead }

  lemma Packed(active: nat, dead: nat)
    requires dead < HALF
    ensures ActiveOf(Pack(active, dead)) == active && DeadOf(Pack(active, dead)) == dead
  {
  }

  function VersionOf(word: nat): nat { word % FLAG }

  predicate Flagged(word: nat) { word / FLAG % 2 == 1 }

  /** `word | FLAG`. */
  function WithFlag(word: nat): nat { if Flagged(word) then word else word + FLAG }

  lemma FlagKeepsVersion(word: nat)
    ensures VersionOf(WithFlag(word)) == VersionOf(word) && Flagged(WithFlag(word))
    ensures word < 2 * FLAG ==> WithFlag(word) < 2 * FLAG
  {
  }
}
