/**
 * The packed card encoding of src/phpoker.c.
 *
 * A card is one 32-bit word laid out as
 *
 *     xxxbbbbb bbbbbbbb cdhsrrrr xxpppppp
 *
 * where `b` is a one-hot rank-presence bit (bit 16 + rank), `cdhs` a one-hot
 * suit bit, `rrrr` the rank index 0..12 and `pppppp` the prime of the rank.
 * Valid cards stay below 2^29, so the C `int` and this `bv32` agree bit for bit.
 */
module Cards {
  import opened Wrappers

  /** Rank index: deuce = 0, trey = 1, ..., ace = 12. */
  type Rank = r: nat | r < 13

  datatype Suit = Club | Diamond | Heart | Spade

  datatype Card = Card(rank: Rank, suit: Suit)

  /** The prime of each rank, deuce = 2 up to ace = 41. */
  const Primes: seq<nat> := [2, 3, 5, 7, 11, 13, 17, 19, 23, 29, 31, 37, 41]

  /** Rank symbols in rank order, as written in a hand string. */
  const RankSymbols: string := "23456789TJQKA"

  /** The one-hot suit bits CLUB, DIAMOND, HEART and SPADE. */
  function SuitBit(s: Suit): bv32 {
    match s
    case Club => 0x8000
    case Diamond => 0x4000
    case Heart => 0x2000
    case Spade => 0x1000
  }

  /** Lower-case suit letter. */
  function SuitLetter(s: Suit): char {
    match s
    case Club => 'c'
    case Diamond => 'd'
    case Heart => 'h'
    case Spade => 's'
  }

  /** ASCII case folding to lower case; other characters are unchanged. */
  function ToLower(c: char): char {
    if 'A' <= c <= 'Z' then (c as int + 32) as char else c
  }

  /** ASCII case folding to upper case; other characters are unchanged. */
  function ToUpper(c: char): char {
    if 'a' <= c <= 'z' then (c as int - 32) as char else c
  }

  /** `char_to_rank`: the index of the rank symbol, either case; -1 for anything else. */
  function CharToRank(c: char): (r: int)
    ensures -1 <= r < 13
    ensures r == -1 <==> ToUpper(c) !in RankSymbols
    ensures r >= 0 ==> RankSymbols[r] == ToUpper(c)
  {
    match c
    case '2' => 0
    case '3' => 1
    case '4' => 2
    case '5' => 3
    case '6' => 4
    case '7' => 5
    case '8' => 6
    case '9' => 7
    case 'T' => 8
    case 't' => 8
    case 'J' => 9
    case 'j' => 9
    case 'Q' => 10
    case 'q' => 10
    case 'K' => 11
    case 'k' => 11
    case 'A' => 12
    case 'a' => 12
    case _ => -1
  }

  /** `char_to_suit`: the bit of the suit letter, either case; 0 for anything else. */
  function CharToSuit(c: char): (b: bv32)
    ensures b == 0 <==> ToLower(c) !in "cdhs"
    ensures b != 0 ==> SuitOfBit(b).Some? && SuitLetter(SuitOfBit(b).value) == ToLower(c)
  {
    match c
    case 'C' => 0x8000
    case 'c' => 0x8000
    case 'D' => 0x4000
    case 'd' => 0x4000
    case 'H' => 0x2000
    case 'h' => 0x2000
    case 'S' => 0x1000
    case 's' => 0x1000
    case _ => 0
  }

  /** Rank symbols decode back to their rank, in upper and lower case. */
  lemma RankSymbolRoundTrip(r: Rank)
    ensures CharToRank(RankSymbols[r]) == r
    ensures CharToRank(ToLower(RankSymbols[r])) == r
  {
    match r
    case 0 => case 1 => case 2 => case 3 => case 4 => case 5 => case 6 =>
    case 7 => case 8 => case 9 => case 10 => case 11 => case 12 =>
  }

  /** Suit letters decode back to their suit bit, in lower and upper case. */
  lemma SuitLetterRoundTrip(s: Suit)
    ensures CharToSuit(SuitLetter(s)) == SuitBit(s)
    ensures CharToSuit(ToUpper(SuitLetter(s))) == SuitBit(s)
  {
  }

  /**
   * The word of a card of rank `r` before its suit bit is added, read off the
   * layout above: bit 16 + r, then r in bits 8..11, then the prime.
   */
  function RankWord(r: Rank): bv32 {
    match r
    case 0 => 0x0001_0002
    case 1 => 0x0002_0103
    case 2 => 0x0004_0205
    case 3 => 0x0008_0307
    case 4 => 0x0010_040B
    case 5 => 0x0020_050D
    case 6 => 0x0040_0611
    case 7 => 0x0080_0713
    case 8 => 0x0100_0817
    case 9 => 0x0200_091D
    case 10 => 0x0400_0A1F
    case 11 => 0x0800_0B25
    case 12 => 0x1000_0C29
  }

  /** The word of a card. */
  function Pack(c: Card): bv32 {
    RankWord(c.rank) | SuitBit(c.suit)
  }

  /** Line 122: the card word `parse_hand` computes from a rank and a suit bit. */
  function PackBits(rank: Rank, suit: bv32): (w: bv32)
    ensures w == RankWord(rank) | suit
  {
    var r := rank as bv32;
    RankLayout(rank);
    OrMoveLast((1 as bv32) << (16 + r), r << 8, suit, Primes[rank] as bv32);
    ((1 as bv32) << (16 + r)) | (r << 8) | suit | (Primes[rank] as bv32)
  }

  /** The `RANK` macro: bits 8..11 of a card word. */
  function RankOf(x: bv32): (r: int)
    ensures 0 <= r < 16
  {
    ((x >> 8) & 0xF) as bv4 as int
  }

  /** `c & 0xff`: the low byte of a card word, its prime. */
  function PrimeOf(x: bv32): int {
    (x & 0xFF) as bv8 as int
  }

  /** `c & 0xf000`: the suit bits of a card word. */
  function SuitField(x: bv32): bv32 {
    x & 0xF000
  }

  /** The bit of a rank in a 13-bit set of ranks. */
  function RankFlag(r: Rank): bv13 {
    (1 as bv13) << r
  }

  /** The suit whose bit is `b`, if `b` is one of the four suit bits. */
  function SuitOfBit(b: bv32): (r: Option<Suit>)
    ensures r.Some? <==> exists s :: SuitBit(s) == b
    ensures r.Some? ==> SuitBit(r.value) == b
  {
    if b == 0x8000 then Some(Club)
    else if b == 0x4000 then Some(Diamond)
    else if b == 0x2000 then Some(Heart)
    else if b == 0x1000 then Some(Spade)
    else None
  }

  /** Decodes a card word; None for any word that no card packs to. */
  function Unpack(x: bv32): (r: Option<Card>)
    ensures r.Some? ==> Pack(r.value) == x
  {
    var rank := RankOf(x);
    var suit := SuitOfBit(SuitField(x));
    if rank < 13 && suit.Some? && Pack(Card(rank, suit.value)) == x then
      Some(Card(rank, suit.value))
    else
      None
  }

  predicate IsCard(x: bv32) {
    Unpack(x).Some?
  }

  /** The words of a sequence of cards. */
  function Packs(cs: seq<Card>): (ws: seq<bv32>)
    ensures |ws| == |cs|
    ensures forall k :: 0 <= k < |cs| ==> ws[k] == Pack(cs[k])
  {
    seq(|cs|, k requires 0 <= k < |cs| => Pack(cs[k]))
  }

  /** The shifts and the prime of line 122 build exactly the layout of each rank. */
  /** The rank bit, the rank field and the prime of line 122 make up `RankWord`. */
  lemma RankLayout(r: Rank)
    ensures ((1 as bv32) << (16 + r as bv32)) | ((r as bv32) << 8) | (Primes[r] as bv32) == RankWord(r)
  {
    if r < 7 { LowRankLayout(r); } else { HighRankLayout(r); }
  }

  lemma LowRankLayout(r: Rank)
    requires r < 7
    ensures ((1 as bv32) << (16 + r as bv32)) | ((r as bv32) << 8) | (Primes[r] as bv32) == RankWord(r)
  {
    match r
    case 0 => case 1 => case 2 => case 3 => case 4 => case 5 => case 6 =>
  }

  lemma HighRankLayout(r: Rank)
    requires r >= 7
    ensures ((1 as bv32) << (16 + r as bv32)) | ((r as bv32) << 8) | (Primes[r] as bv32) == RankWord(r)
  {
    match r
    case 7 => case 8 => case 9 => case 10 => case 11 => case 12 =>
  }

  lemma OrMoveLast(a: bv32, b: bv32, c: bv32, d: bv32)
    ensures a | b | c | d == (a | b | d) | c
  {
  }

  /** Every field of a card word reads back what was packed, and the fields do not overlap. */
  lemma PackFields(c: Card)
    ensures Pack(c) < 0x2000_0000
    ensures RankOf(Pack(c)) == c.rank
    ensures PrimeOf(Pack(c)) == Primes[c.rank]
    ensures SuitField(Pack(c)) == SuitBit(c.suit)
    ensures (Pack(c) >> 16) as bv13 == RankFlag(c.rank)
  {
    match c.rank
    case 0 => case 1 => case 2 => case 3 => case 4 => case 5 => case 6 =>
    case 7 => case 8 => case 9 => case 10 => case 11 => case 12 =>
  }

  lemma UnpackPack(c: Card)
    ensures Unpack(Pack(c)) == Some(c)
  {
    PackFields(c);
    assert SuitOfBit(SuitField(Pack(c))) == Some(c.suit);
  }

  lemma PackInjective(c: Card, d: Card)
    requires Pack(c) == Pack(d)
    ensures c == d
  {
    UnpackPack(c);
    UnpackPack(d);
  }

  /** A word built by line 122 from a rank and any of the four suit bits is the word of a card. */
  lemma PackBitsIsCard(r: Rank, b: bv32)
    requires b == 0x8000 || b == 0x4000 || b == 0x2000 || b == 0x1000
    ensures SuitOfBit(b).Some?
    ensures PackBits(r, b) == Pack(Card(r, SuitOfBit(b).value))
    ensures IsCard(PackBits(r, b))
  {
    UnpackPack(Card(r, SuitOfBit(b).value));
  }
}
