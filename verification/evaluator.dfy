/**
 * `eval_5cards` and `eval_5hand` of src/phpoker.c: the value of a five-card
 * hand, read from four precomputed tables. A smaller value is a better hand.
 *
 * The tables come from `arrays.h`, which is not part of this model: they are
 * parameters here. Their entries are 16-bit words, and three of their lengths
 * are fixed. `flushes` and `unique5` are indexed by the 13-bit union of the
 * cards' rank bits, `hash_adjust` by the 9-bit index of the perfect hash, and
 * `hash_values` by its 16-bit result. The length of `hash_values` is left
 * open, so a lookup past its end is modelled as None: C reads out of bounds
 * there. The `primes` table of `arrays.h` is `Cards.Primes`, fixed to the
 * thirteen primes listed at line 45.
 *
 * `Eval5` follows the bit-level C code on card words; `HandValue` states the
 * same lookup on decoded cards (same suit, set of ranks, product of rank
 * primes), and `Eval5OfCards` proves the two agree.
 */
module Evaluator {
  import opened Wrappers
  import opened Cards
  import opened PerfectHash
  import opened Folds

  /** Entries of `flushes` and of `unique5`: one per 13-bit rank set. */
  const RankSetCount := 8192

  /** The largest product of five rank primes, five aces: 41^5. */
  const MaxPrimeProduct := 115856201

  datatype Tables = Tables(flushes: seq<bv16>, unique5: seq<bv16>, hashAdjust: seq<bv16>, hashValues: seq<bv16>)
  {
    predicate Valid() {
      |flushes| == RankSetCount && |unique5| == RankSetCount && |hashAdjust| == AdjustSize
    }
  }

  /** Line 160: the `hash_values` entry in the slot `find_fast` gives for `u`. */
  function HashLookup(t: Tables, u: bv32): (r: Option<bv16>)
    requires t.Valid()
    ensures r.Some? ==> r.value in t.hashValues
    ensures r.None? ==> |t.hashValues| < 0x1_0000
  {
    var i := FindFast(t.hashAdjust, u) as bv16 as int;
    if i < |t.hashValues| then Some(t.hashValues[i]) else None
  }

  /**
   * Lines 151-160 once the three inputs are known: whether the five cards
   * share a suit, the set of ranks `q`, and the prime product `p`.
   */
  function Select(t: Tables, flush: bool, q: bv13, p: int): (r: Option<bv16>)
    requires t.Valid()
    requires 0 <= p <= MaxPrimeProduct
    ensures flush ==> r == Some(t.flushes[q as int])
    ensures !flush && t.unique5[q as int] != 0 ==> r == Some(t.unique5[q as int])
    ensures !flush && t.unique5[q as int] == 0 ==> r == HashLookup(t, p as bv32)
    ensures r.None? ==> !flush && t.unique5[q as int] == 0 && |t.hashValues| < 0x1_0000
  {
    if flush then
      Some(t.flushes[q as int])
    else if t.unique5[q as int] != 0 then
      Some(t.unique5[q as int])
    else
      HashLookup(t, p as bv32)
  }

  // ---------------------------------------------------------------------
  // Facts about card words

  lemma PrimeBound(r: Rank)
    ensures 2 <= Primes[r] <= 41
  {
  }

  /** What `eval_5cards` reads from the word of a card. */
  lemma PackedCard(c: Card)
    ensures IsCard(Pack(c))
    ensures Pack(c) < 0x2000_0000
    ensures SuitField(Pack(c)) == SuitBit(c.suit)
    ensures (Pack(c) >> 16) as bv13 == RankFlag(c.rank)
    ensures PrimeOf(Pack(c)) == Primes[c.rank]
  {
    UnpackPack(c);
    PackFields(c);
  }

  /**
   * What `eval_5cards` relies on in each argument: no bit at or above 29, so
   * `q` indexes the 8192-entry tables, and a low byte of at most 41, so the
   * product of five low bytes stays below 2^31.
   */
  predicate InRange(x: bv32) {
    x < 0x2000_0000 && PrimeOf(x) <= 41
  }

  /** Every card word is in range. */
  lemma CardWord(x: bv32)
    requires IsCard(x)
    ensures InRange(x)
    ensures 2 <= PrimeOf(x)
  {
    var c := Unpack(x).value;
    PackedCard(c);
    PrimeBound(c.rank);
  }

  lemma MulBound(x: int, y: int, xMax: int, yMax: int)
    requires 0 <= x <= xMax && 0 <= y <= yMax
    ensures 0 <= x * y <= xMax * yMax
  {
  }

  lemma PrimeProductBound(p1: int, p2: int, p3: int, p4: int, p5: int)
    requires 0 <= p1 <= 41 && 0 <= p2 <= 41 && 0 <= p3 <= 41 && 0 <= p4 <= 41 && 0 <= p5 <= 41
    ensures 0 <= p1 * p2 * p3 * p4 * p5 <= MaxPrimeProduct
  {
    MulBound(p1, p2, 41, 41);
    MulBound(p1 * p2, p3, 41 * 41, 41);
    MulBound(p1 * p2 * p3, p4, 41 * 41 * 41, 41);
    MulBound(p1 * p2 * p3 * p4, p5, 41 * 41 * 41 * 41, 41);
  }

  lemma RankUnionBound(c1: bv32, c2: bv32, c3: bv32, c4: bv32, c5: bv32)
    requires c1 < 0x2000_0000 && c2 < 0x2000_0000 && c3 < 0x2000_0000
    requires c4 < 0x2000_0000 && c5 < 0x2000_0000
    ensures (c1 | c2 | c3 | c4 | c5) >> 16 < 0x2000
  {
  }

  // ---------------------------------------------------------------------
  // The C evaluator on card words

  /** `eval_5cards` (lines 146-161); None when the hash slot lies past `hash_values`. */
  function Eval5(t: Tables, c1: bv32, c2: bv32, c3: bv32, c4: bv32, c5: bv32): (r: Option<bv16>)
    requires t.Valid()
    requires InRange(c1) && InRange(c2) && InRange(c3) && InRange(c4) && InRange(c5)
    ensures r.None? ==> |t.hashValues| < 0x1_0000
  {
    RankUnionBound(c1, c2, c3, c4, c5);
    var q := ((c1 | c2 | c3 | c4 | c5) >> 16) as bv13;
    var p := PrimeOf(c1) * PrimeOf(c2) * PrimeOf(c3) * PrimeOf(c4) * PrimeOf(c5);
    PrimeProductBound(PrimeOf(c1), PrimeOf(c2), PrimeOf(c3), PrimeOf(c4), PrimeOf(c5));
    Select(t, c1 & c2 & c3 & c4 & c5 & 0xF000 != 0, q, p)
  }

  /** `eval_5hand` (lines 164-166): the first five words of the array. */
  function Eval5Hand(t: Tables, hand: seq<bv32>): (r: Option<bv16>)
    requires t.Valid()
    requires |hand| >= 5
    requires forall k :: 0 <= k < 5 ==> InRange(hand[k])
    ensures r.None? ==> |t.hashValues| < 0x1_0000
  {
    Eval5(t, hand[0], hand[1], hand[2], hand[3], hand[4])
  }

  // ---------------------------------------------------------------------
  // The same lookup stated on cards

  /** All cards of the hand have one suit. */
  predicate SameSuit(h: seq<Card>) {
    forall c, d :: c in h && d in h ==> c.suit == d.suit
  }

  function CardFlag(c: Card): bv13 {
    RankFlag(c.rank)
  }

  function Or(a: bv13, b: bv13): bv13 {
    a | b
  }

  function CardPrime(c: Card): int {
    Primes[c.rank]
  }

  function Mul(a: int, b: int): int {
    a * b
  }

  /** The set of ranks present, one bit per rank. */
  function RankSet(h: seq<Card>): bv13 {
    Fold(CardFlag, Or, 0, h)
  }

  /** The product of the rank primes; it identifies the multiset of ranks. */
  function RankProduct(h: seq<Card>): int {
    Fold(CardPrime, Mul, 1, h)
  }

  lemma OrCommAssoc()
    ensures CommAssoc(Or)
  {
    forall a: bv13, b: bv13
      ensures Or(a, b) == Or(b, a)
    {
    }
    forall a: bv13, b: bv13, c: bv13
      ensures Or(Or(a, b), c) == Or(a, Or(b, c))
    {
    }
  }

  lemma MulCommAssoc()
    ensures CommAssoc(Mul)
  {
  }

  lemma Reassociate(p1: int, p2: int, p3: int, p4: int, p5: int)
    ensures Mul(p1, Mul(p2, Mul(p3, Mul(p4, Mul(p5, 1))))) == p1 * p2 * p3 * p4 * p5
  {
    var a := p4 * p5;
    var b := p3 * a;
    assert p1 * (p2 * b) == (p1 * p2) * b;
    assert (p1 * p2) * (p3 * a) == (p1 * p2 * p3) * a;
    assert (p1 * p2 * p3) * (p4 * p5) == (p1 * p2 * p3 * p4) * p5;
  }

  /** Product of the rank primes of a five-card hand, in the order C multiplies them. */
  lemma RankProductFive(h: seq<Card>)
    requires |h| == 5
    ensures RankProduct(h) == CardPrime(h[0]) * CardPrime(h[1]) * CardPrime(h[2]) * CardPrime(h[3]) * CardPrime(h[4])
    ensures 0 <= RankProduct(h) <= MaxPrimeProduct
  {
    FoldFive(CardPrime, Mul, 1, h);
    var p1, p2, p3, p4, p5 := CardPrime(h[0]), CardPrime(h[1]), CardPrime(h[2]), CardPrime(h[3]), CardPrime(h[4]);
    assert RankProduct(h) == Mul(p1, Mul(p2, Mul(p3, Mul(p4, Mul(p5, 1)))));
    Reassociate(p1, p2, p3, p4, p5);
    PrimeBound(h[0].rank); PrimeBound(h[1].rank); PrimeBound(h[2].rank);
    PrimeBound(h[3].rank); PrimeBound(h[4].rank);
    PrimeProductBound(p1, p2, p3, p4, p5);
  }

  /**
   * The value of a five-card hand from what it is made of: a flush is looked
   * up by its rank set in `flushes`; otherwise a nonzero `unique5` entry for
   * the rank set (five distinct ranks) is the value; otherwise the prime
   * product goes through the perfect hash into `hash_values`.
   */
  function HandValue(t: Tables, h: seq<Card>): (r: Option<bv16>)
    requires t.Valid()
    requires |h| == 5
    ensures SameSuit(h) ==> r == Some(t.flushes[RankSet(h) as int])
    ensures !SameSuit(h) && t.unique5[RankSet(h) as int] != 0 ==> r == Some(t.unique5[RankSet(h) as int])
    ensures 0 <= RankProduct(h) <= MaxPrimeProduct
    ensures !SameSuit(h) && t.unique5[RankSet(h) as int] == 0 ==> r == HashLookup(t, RankProduct(h) as bv32)
    ensures r.None? ==> !SameSuit(h) && t.unique5[RankSet(h) as int] == 0 && |t.hashValues| < 0x1_0000
  {
    RankProductFive(h);
    Select(t, SameSuit(h), RankSet(h), RankProduct(h))
  }

  // ---------------------------------------------------------------------
  // The bit tricks of eval_5cards agree with the card-level reference

  lemma SuitTest(x1: bv32, x2: bv32, x3: bv32, x4: bv32, x5: bv32)
    ensures x1 & x2 & x3 & x4 & x5 & 0xF000
         == SuitField(x1) & SuitField(x2) & SuitField(x3) & SuitField(x4) & SuitField(x5)
  {
  }

  predicate OneHotSuit(b: bv32) {
    b == 0x8000 || b == 0x4000 || b == 0x2000 || b == 0x1000
  }

  /** Five one-hot suit bits share a bit exactly when they are equal. */
  lemma OneHotAnd(b1: bv32, b2: bv32, b3: bv32, b4: bv32, b5: bv32)
    requires OneHotSuit(b1) && OneHotSuit(b2) && OneHotSuit(b3) && OneHotSuit(b4) && OneHotSuit(b5)
    ensures (b1 & b2 & b3 & b4 & b5 != 0) <==> b2 == b1 && b3 == b1 && b4 == b1 && b5 == b1
  {
  }

  lemma SuitBitInjective(a: Suit, b: Suit)
    ensures OneHotSuit(SuitBit(a))
    ensures SuitBit(a) == SuitBit(b) <==> a == b
  {
  }

  lemma SameSuitFive(h: seq<Card>)
    requires |h| == 5
    ensures SameSuit(h)
        <==> (h[1].suit == h[0].suit && h[2].suit == h[0].suit
              && h[3].suit == h[0].suit && h[4].suit == h[0].suit)
  {
    if h[1].suit == h[0].suit && h[2].suit == h[0].suit && h[3].suit == h[0].suit && h[4].suit == h[0].suit {
      forall c, d | c in h && d in h
        ensures c.suit == d.suit
      {
        var i :| 0 <= i < 5 && h[i] == c;
        var j :| 0 <= j < 5 && h[j] == d;
      }
    }
  }

  lemma RankUnion(x1: bv32, x2: bv32, x3: bv32, x4: bv32, x5: bv32)
    requires x1 < 0x2000_0000 && x2 < 0x2000_0000 && x3 < 0x2000_0000
    requires x4 < 0x2000_0000 && x5 < 0x2000_0000
    ensures ((x1 | x2 | x3 | x4 | x5) >> 16) as bv13
         == ((x1 >> 16) as bv13) | ((x2 >> 16) as bv13) | ((x3 >> 16) as bv13)
          | ((x4 >> 16) as bv13) | ((x5 >> 16) as bv13)
  {
  }

  lemma RankSetFive(h: seq<Card>)
    requires |h| == 5
    ensures RankSet(h) == CardFlag(h[0]) | CardFlag(h[1]) | CardFlag(h[2]) | CardFlag(h[3]) | CardFlag(h[4])
  {
    FoldFive(CardFlag, Or, 0, h);
  }

  /** The suit test of line 151 holds exactly for a one-suit hand. */
  lemma FlushTest(h: seq<Card>, x1: bv32, x2: bv32, x3: bv32, x4: bv32, x5: bv32)
    requires |h| == 5
    requires SuitField(x1) == SuitBit(h[0].suit) && SuitField(x2) == SuitBit(h[1].suit)
    requires SuitField(x3) == SuitBit(h[2].suit) && SuitField(x4) == SuitBit(h[3].suit)
    requires SuitField(x5) == SuitBit(h[4].suit)
    ensures (x1 & x2 & x3 & x4 & x5 & 0xF000 != 0) == SameSuit(h)
  {
    SuitTest(x1, x2, x3, x4, x5);
    SuitBitInjective(h[0].suit, h[1].suit); SuitBitInjective(h[0].suit, h[2].suit);
    SuitBitInjective(h[0].suit, h[3].suit); SuitBitInjective(h[0].suit, h[4].suit);
    SuitBitInjective(h[4].suit, h[0].suit);
    OneHotAnd(SuitField(x1), SuitField(x2), SuitField(x3), SuitField(x4), SuitField(x5));
    SameSuitFive(h);
  }

  /** The rank index `q` of line 147 is the hand's rank set. */
  lemma RankIndex(h: seq<Card>, x1: bv32, x2: bv32, x3: bv32, x4: bv32, x5: bv32)
    requires |h| == 5
    requires x1 < 0x2000_0000 && x2 < 0x2000_0000 && x3 < 0x2000_0000
    requires x4 < 0x2000_0000 && x5 < 0x2000_0000
    requires (x1 >> 16) as bv13 == RankFlag(h[0].rank) && (x2 >> 16) as bv13 == RankFlag(h[1].rank)
    requires (x3 >> 16) as bv13 == RankFlag(h[2].rank) && (x4 >> 16) as bv13 == RankFlag(h[3].rank)
    requires (x5 >> 16) as bv13 == RankFlag(h[4].rank)
    ensures ((x1 | x2 | x3 | x4 | x5) >> 16) as bv13 == RankSet(h)
  {
    RankUnion(x1, x2, x3, x4, x5);
    RankSetFive(h);
  }

  /** The decoded hand of five card words agrees with `eval_5cards` on it. */
  lemma Eval5OfWords(t: Tables, h: seq<Card>, x1: bv32, x2: bv32, x3: bv32, x4: bv32, x5: bv32)
    requires t.Valid()
    requires |h| == 5
    requires InRange(x1) && InRange(x2) && InRange(x3) && InRange(x4) && InRange(x5)
    requires (x1 & x2 & x3 & x4 & x5 & 0xF000 != 0) == SameSuit(h)
    requires ((x1 | x2 | x3 | x4 | x5) >> 16) as bv13 == RankSet(h)
    requires PrimeOf(x1) * PrimeOf(x2) * PrimeOf(x3) * PrimeOf(x4) * PrimeOf(x5) == RankProduct(h)
    ensures Eval5(t, x1, x2, x3, x4, x5) == HandValue(t, h)
  {
  }

  /** `eval_5cards` on the words of five cards is the card-level `HandValue`. */
  lemma Eval5OfCards(t: Tables, h: seq<Card>)
    requires t.Valid()
    requires |h| == 5
    ensures InRange(Pack(h[0])) && InRange(Pack(h[1])) && InRange(Pack(h[2]))
         && InRange(Pack(h[3])) && InRange(Pack(h[4]))
    ensures Eval5(t, Pack(h[0]), Pack(h[1]), Pack(h[2]), Pack(h[3]), Pack(h[4])) == HandValue(t, h)
  {
    var x1, x2, x3, x4, x5 := Pack(h[0]), Pack(h[1]), Pack(h[2]), Pack(h[3]), Pack(h[4]);
    PackedCard(h[0]); PackedCard(h[1]); PackedCard(h[2]); PackedCard(h[3]); PackedCard(h[4]);
    PrimeBound(h[0].rank); PrimeBound(h[1].rank); PrimeBound(h[2].rank);
    PrimeBound(h[3].rank); PrimeBound(h[4].rank);
    FlushTest(h, x1, x2, x3, x4, x5);
    RankIndex(h, x1, x2, x3, x4, x5);
    RankProductFive(h);
    Eval5OfWords(t, h, x1, x2, x3, x4, x5);
  }

  lemma PacksInRange(cs: seq<Card>)
    ensures forall k :: 0 <= k < |cs| ==> InRange(Packs(cs)[k])
  {
    forall k | 0 <= k < |cs|
      ensures InRange(Packs(cs)[k])
    {
      PackedCard(cs[k]);
      PrimeBound(cs[k].rank);
    }
  }

  /** `eval_5hand` on the words of five cards is the card-level `HandValue`. */
  lemma Eval5HandOfCards(t: Tables, h: seq<Card>)
    requires t.Valid()
    requires |h| == 5
    ensures forall k :: 0 <= k < 5 ==> InRange(Packs(h)[k])
    ensures Eval5Hand(t, Packs(h)) == HandValue(t, h)
  {
    PacksInRange(h);
    var w := Packs(h);
    assert w[0] == Pack(h[0]) && w[1] == Pack(h[1]) && w[2] == Pack(h[2]);
    assert w[3] == Pack(h[3]) && w[4] == Pack(h[4]);
    Eval5OfCards(t, h);
  }

  /** Two rank bits meet exactly when the ranks are equal. */
  lemma RankFlagsMeet(a: Rank, b: Rank)
    ensures (RankFlag(a) & RankFlag(b) != 0) <==> a == b
  {
  }

  lemma OrMeet(x: bv13, y: bv13, f: bv13)
    ensures ((x | y) & f != 0) <==> (x & f != 0 || y & f != 0)
  {
  }

  /** Bit `r` of the rank set is on exactly when some card of the hand has rank `r`. */
  lemma {:induction false} RankSetMembers(h: seq<Card>, r: Rank)
    ensures (RankSet(h) & RankFlag(r) != 0) <==> exists c :: c in h && c.rank == r
  {
    if h != [] {
      RankSetMembers(h[1..], r);
      RankFlagsMeet(h[0].rank, r);
      OrMeet(CardFlag(h[0]), RankSet(h[1..]), RankFlag(r));
      assert h == [h[0]] + h[1..];
      assert forall c :: c in h <==> c == h[0] || c in h[1..];
    }
  }

  /** Being of one suit does not depend on the order of the cards. */
  lemma SameSuitPermutation(a: seq<Card>, b: seq<Card>)
    requires multiset(a) == multiset(b)
    ensures SameSuit(a) == SameSuit(b)
  {
    assert forall c :: c in a <==> c in b by {
      forall c ensures c in a <==> c in b {
        assert c in a <==> c in multiset(a);
        assert c in b <==> c in multiset(b);
      }
    }
  }

  /** The value of a hand depends on its cards only, not on their order. */
  lemma HandValuePermutation(t: Tables, a: seq<Card>, b: seq<Card>)
    requires t.Valid()
    requires |a| == 5
    requires multiset(a) == multiset(b)
    ensures |b| == 5
    ensures HandValue(t, a) == HandValue(t, b)
  {
    assert |b| == |multiset(b)| == |multiset(a)| == |a|;
    OrCommAssoc();
    MulCommAssoc();
    FoldPermutation(CardFlag, Or, 0, a, b);
    FoldPermutation(CardPrime, Mul, 1, a, b);
    SameSuitPermutation(a, b);
  }
}
