/**
 * The decision logic of `poker_evaluate_hand` in src/phpoker.c: parse at most
 * five cards, insist on exactly five, evaluate them and describe the value.
 *
 * The PHP side is reduced to its outcome: `Null` is the warning followed by
 * a PHP null, `Info` the associative array with keys "value", "rank" and
 * "name". `OutOfBounds` stands for the one case the C code leaves undefined:
 * a perfect-hash slot past the end of `hash_values`.
 */
module Extension {
  import opened Wrappers
  import opened Cards
  import opened Parser
  import opened Evaluator
  import opened Classifier

  /** The number of cards a hand string must hold. */
  const HandSize := 5

  datatype HandInfo = HandInfo(value: bv16, rank: int, name: string)

  datatype Outcome = Null | Info(info: HandInfo) | OutOfBounds

  /** Lines 243-252: the array built from an evaluated value. */
  function Describe(v: Option<bv16>): (r: Outcome)
    ensures v.None? <==> r.OutOfBounds?
    ensures v.Some? ==> r.Info? && r.info.value == v.value
    ensures r.Info? ==> r.info.rank == HandRank(r.info.value) && r.info.name == HandName(r.info.rank)
    ensures r.Info? ==> 1 <= r.info.rank <= 9 && r.info.name != UnknownName
  {
    match v
    case None => OutOfBounds
    case Some(value) =>
      var rank := HandRank(value);
      Info(HandInfo(value, rank, HandName(rank)))
  }

  /** The five words `parse_hand` stored are in the range `eval_5hand` needs. */
  lemma ParsedInRange(cards: seq<bv32>)
    requires forall k :: 0 <= k < |cards| ==> IsCard(cards[k])
    ensures forall k :: 0 <= k < |cards| ==> InRange(cards[k])
  {
    forall k | 0 <= k < |cards|
      ensures InRange(cards[k])
    {
      CardWord(cards[k]);
    }
  }

  /** `poker_evaluate_hand` (lines 235-252) after the PHP argument has been read. */
  function EvaluateHand(t: Tables, hand: string): (r: Outcome)
    requires t.Valid()
    ensures r.Null? <==> !(Parse(hand, HandSize).Parsed? && |Parse(hand, HandSize).cards| == HandSize)
    ensures r.Info? ==> r.info.rank == HandRank(r.info.value) && r.info.name == HandName(r.info.rank)
    ensures r.Info? ==> r.info.name != UnknownName
  {
    match Parse(hand, HandSize)
    case Invalid => Null
    case Parsed(cards) =>
      if |cards| != HandSize then Null
      else
        ParsedInRange(cards);
        Describe(Eval5Hand(t, cards))
  }

  /** The same steps in the shape of the C function, with `parse_hand` as a loop. */
  method PokerEvaluateHand(t: Tables, hand: string) returns (r: Outcome)
    requires t.Valid()
    ensures r == EvaluateHand(t, hand)
  {
    var numCards, cards := ParseHand(hand, HandSize);
    if numCards != HandSize {
      return Null;
    }
    ParsedInRange(cards);
    var value := Eval5Hand(t, cards);
    if value.None? {
      return OutOfBounds;
    }
    var handType := HandRank(value.value);
    r := Info(HandInfo(value.value, handType, HandName(handType)));
  }

  /** What the parser reads from a hand string decides the outcome through `HandValue`. */
  lemma EvaluateParsed(t: Tables, hand: string, h: seq<Card>)
    requires t.Valid()
    requires ParseCards(hand, HandSize) == Some(h)
    ensures |h| == HandSize ==> EvaluateHand(t, hand) == Describe(HandValue(t, h))
    ensures |h| != HandSize ==> EvaluateHand(t, hand) == Null
  {
    assert Parse(hand, HandSize) == Parsed(Packs(h));
    if |h| == HandSize {
      Eval5HandOfCards(t, h);
    }
  }

  /**
   * Five cards written one after another, with blanks before each, are
   * evaluated as those five cards whatever follows them: a sixth or seventh
   * card, or any other text, is never read.
   */
  lemma EvaluateFiveCards(t: Tables, ps: seq<Piece>, cs: seq<Card>, rest: string)
    requires t.Valid()
    requires Spells(ps, cs) && |cs| == HandSize
    ensures EvaluateHand(t, Render(ps) + rest) == Describe(HandValue(t, cs))
  {
    ParseStopsAtMax(ps, cs, rest, HandSize);
    EvaluateParsed(t, Render(ps) + rest, cs);
  }

  /** Fewer than five cards, followed by blanks or by one stray character, give the null outcome. */
  lemma EvaluateTooFewCards(t: Tables, ps: seq<Piece>, cs: seq<Card>, w: string, tail: string)
    requires t.Valid()
    requires Spells(ps, cs) && |cs| < HandSize && Blanks(w)
    requires |tail| <= 1
    ensures EvaluateHand(t, Render(ps) + w + tail) == Null
  {
    if tail == [] {
      assert Render(ps) + w + tail == Render(ps) + w;
      ParseRendered(ps, cs, w, HandSize);
      EvaluateParsed(t, Render(ps) + w, cs);
    } else {
      assert tail == [tail[0]];
      ParseLoneTrailingChar(ps, cs, w, tail[0], HandSize);
      EvaluateParsed(t, Render(ps) + w + tail, cs);
    }
  }

  /** A rank or suit character that is not one within the first five cards gives the null outcome. */
  lemma EvaluateBadToken(t: Tables, ps: seq<Piece>, cs: seq<Card>, w: string,
                         rankChar: char, suitChar: char, rest: string)
    requires t.Valid()
    requires Spells(ps, cs) && |cs| < HandSize && Blanks(w)
    requires !IsBlank(rankChar) && rankChar != '\0' && suitChar != '\0'
    requires CharToRank(rankChar) < 0 || CharToSuit(suitChar) == 0
    ensures EvaluateHand(t, Render(ps) + w + [rankChar, suitChar] + rest) == Null
  {
    ParseBadToken(ps, cs, w, rankChar, suitChar, rest, HandSize);
    assert Parse(Render(ps) + w + [rankChar, suitChar] + rest, HandSize) == Invalid;
  }

  /** Two hand strings naming the same five cards, in any order, have the same outcome. */
  lemma EvaluateOrderIndependent(t: Tables, s1: string, s2: string, a: seq<Card>, b: seq<Card>)
    requires t.Valid()
    requires ParseCards(s1, HandSize) == Some(a) && ParseCards(s2, HandSize) == Some(b)
    requires multiset(a) == multiset(b)
    ensures EvaluateHand(t, s1) == EvaluateHand(t, s2)
  {
    EvaluateParsed(t, s1, a);
    EvaluateParsed(t, s2, b);
    assert |a| == |multiset(a)| == |multiset(b)| == |b|;
    if |a| == HandSize {
      HandValuePermutation(t, a, b);
    }
  }
}
