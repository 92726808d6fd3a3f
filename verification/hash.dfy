/**
 * `find_fast`, Paul Senzee's perfect hash over the prime product of a hand.
 *
 * All arithmetic is on 32-bit unsigned words, so the additions and the left
 * shift wrap around exactly as C `unsigned` does; `bv32` gives that for free.
 * The two intermediate indices are narrowed to `bv9` and `bv13`, so the
 * verifier proves at each narrowing that no masked or shifted value leaves
 * the range the tables are sized for.
 */
module PerfectHash {

  /** Number of entries of `hash_adjust`. */
  const AdjustSize := 512

  /** The add/xor/shift mixing of lines 135-138, wrapping modulo 2^32. */
  function Mix(u: bv32): bv32 {
    var u1 := u + 0xe91aaa35;
    var u2 := u1 ^ (u1 >> 16);
    var u3 := u2 + (u2 << 8);
    u3 ^ (u3 >> 4)
  }

  /** Line 139, `b`: bits 8..16 of the mixed word `m`. */
  function AdjustIndex(m: bv32): (b: bv9)
    ensures (b as bv32) << 8 == m & 0x1_FF00
  {
    ((m >> 8) & 0x1FF) as bv9
  }

  /** Line 140, `a`: `u + (u << 2)` is five times the mixed word, and `a` its top 13 bits. */
  function Candidate(m: bv32): (a: bv13)
    ensures (a as bv32) << 19 == (m * 5) & 0xFFF8_0000
  {
    ((m + (m << 2)) >> 19) as bv13
  }

  /**
   * Line 141: the candidate corrected by an XOR with an adjustment entry. The
   * result fits in 16 bits, its bits above bit 12 are those of the entry, and
   * XOR-ing the entry back recovers the candidate.
   */
  function Adjust(a: bv13, e: bv16): (r: bv32)
    ensures r < 0x1_0000
    ensures (r as bv16) & 0xE000 == e & 0xE000
    ensures (r as bv16) ^ e == a as bv16
  {
    (a as bv32) ^ (e as bv32)
  }

  /** `find_fast`. */
  function FindFast(adjust: seq<bv16>, u: bv32): (r: bv32)
    requires |adjust| == AdjustSize
    ensures r < 0x1_0000
  {
    var m := Mix(u);
    var b := AdjustIndex(m);
    IndexBound(b);
    Adjust(Candidate(m), adjust[b as int])
  }

  lemma IndexBound(b: bv9)
    ensures b as int < AdjustSize
  {
  }
}
