/**
 * `parse_hand`: scanning a hand string into at most `max_cards` packed cards.
 *
 * The scan looks at the C string (everything before the first NUL), skips a
 * blank (space or tab) only where a rank character is expected, reads every
 * other position as a two-character rank/suit token, stops once `max_cards`
 * cards have been read, stops without error on a lone trailing character, and
 * fails (the C returns -1) on the first token with an unknown rank or suit.
 */
module Parser {
  import opened Wrappers
  import opened Cards

  /** `Invalid` is the C return value -1; `Parsed` carries `cards[0..count)`. */
  datatype ParseResult = Invalid | Parsed(cards: seq<bv32>)

  predicate IsBlank(c: char) {
    c == ' ' || c == '\t'
  }

  /** What `strlen` sees of a string that may hold NUL characters. */
  function CString(s: string): (t: string)
    ensures t <= s
    ensures '\0' !in t
    ensures |t| < |s| ==> s[|t|] == '\0'
  {
    if |s| == 0 || s[0] == '\0' then [] else [s[0]] + CString(s[1..])
  }

  /** One rank/suit token of lines 111-119; None when either character is unknown. */
  function Token(rankChar: char, suitChar: char): (r: Option<Card>)
    ensures r.Some? <==> CharToRank(rankChar) >= 0 && CharToSuit(suitChar) != 0
    ensures r.Some? ==> r.value.rank == CharToRank(rankChar)
    ensures r.Some? ==> SuitBit(r.value.suit) == CharToSuit(suitChar)
  {
    var rank := CharToRank(rankChar);
    var suit := SuitOfBit(CharToSuit(suitChar));
    if rank < 0 || suit.None? then None else Some(Card(rank, suit.value))
  }

  /**
   * The loop of `parse_hand` on the unread rest `s` of the string, with the
   * cards `acc` already stored; None is the early return of -1.
   */
  function Scan(s: string, max: int, acc: seq<Card>): (r: Option<seq<Card>>)
    ensures r.Some? ==> acc <= r.value
    ensures r.Some? && |acc| <= max ==> |r.value| <= max
    decreases |s|
  {
    if |s| == 0 || |acc| >= max then
      Some(acc)
    else if IsBlank(s[0]) then
      Scan(s[1..], max, acc)
    else if |s| < 2 then
      Some(acc)
    else
      match Token(s[0], s[1])
      case None => None
      case Some(card) => Scan(s[2..], max, acc + [card])
  }

  /** The cards `parse_hand` reads, decoded; None when it returns -1. */
  function ParseCards(s: string, max: int): (r: Option<seq<Card>>)
    ensures r.Some? ==> |r.value| <= (if max < 0 then 0 else max)
  {
    Scan(CString(s), max, [])
  }

  /** The result of `parse_hand(hand_str, cards, max_cards)`. */
  function Parse(s: string, max: int): (r: ParseResult)
    ensures r.Parsed? ==> |r.cards| <= (if max < 0 then 0 else max)
    ensures r.Parsed? ==> forall k :: 0 <= k < |r.cards| ==> IsCard(r.cards[k])
  {
    match ParseCards(s, max)
    case None => Invalid
    case Some(cs) =>
      assert forall k :: 0 <= k < |cs| ==> IsCard(Pack(cs[k])) by {
        forall k | 0 <= k < |cs| {
          UnpackPack(cs[k]);
        }
      }
      Parsed(Packs(cs))
  }

  lemma PacksAppend(cs: seq<Card>, c: Card)
    ensures Packs(cs + [c]) == Packs(cs) + [Pack(c)]
  {
  }

  /** How one pass of the loop body of `parse_hand` ends. */
  datatype Step = Skip | Stop | Reject | Store(word: bv32)

  /**
   * The loop body of `parse_hand` at position `i`, with the cards `acc`
   * stored so far: skip a blank, stop before a lone character, reject an
   * unknown token, or store the word of the card it names.
   */
  method ReadAt(str: string, i: nat, max: int, ghost acc: seq<Card>) returns (step: Step, ghost card: Card)
    requires i < |str| && |acc| < max
    ensures step.Skip? ==> Scan(str[i..], max, acc) == Scan(str[i + 1..], max, acc)
    ensures step.Stop? ==> Scan(str[i..], max, acc) == Some(acc)
    ensures step.Reject? ==> Scan(str[i..], max, acc) == None
    ensures step.Store? ==> i + 2 <= |str| && step.word == Pack(card)
    ensures step.Store? ==> Scan(str[i..], max, acc) == Scan(str[i + 2..], max, acc + [card])
  {
    card := Card(0, Club);
    var rankChar := str[i];
    if rankChar == ' ' || rankChar == '\t' {
      assert str[i..][1..] == str[i + 1..];
      return Skip, card;
    }
    if i + 1 >= |str| {
      return Stop, card;
    }
    var suitChar := str[i + 1];
    var rank := CharToRank(rankChar);
    var suit := CharToSuit(suitChar);
    if rank < 0 || suit == 0 {
      return Reject, card;
    }
    card := Token(rankChar, suitChar).value;
    PackBitsIsCard(rank, suit);
    assert str[i..][2..] == str[i + 2..];
    step := Store(PackBits(rank, suit));
  }

  /** `parse_hand` as the C loop: the count (or -1) and the cards stored before returning. */
  method ParseHand(s: string, max: int) returns (count: int, cards: seq<bv32>)
    ensures count == -1 <==> Parse(s, max) == Invalid
    ensures count != -1 ==> Parse(s, max) == Parsed(cards) && count == |cards|
  {
    var str := CString(s);
    var len := |str|;
    var i := 0;
    count := 0;
    cards := [];
    ghost var read: seq<Card> := [];
    while i < len && count < max
      invariant 0 <= i <= len
      invariant count == |read| && cards == Packs(read)
      invariant Scan(str[i..], max, read) == ParseCards(s, max)
    {
      var step, card := ReadAt(str, i, max, read);
      match step
      case Skip =>
        i := i + 1;
      case Stop =>
        ParseOf(s, max);
        return count, cards;
      case Reject =>
        ParseOf(s, max);
        return -1, cards;
      case Store(word) =>
        PacksAppend(read, card);
        cards := cards + [word];
        read := read + [card];
        count := count + 1;
        i := i + 2;
    }
    ScanDone(str, i, max, read);
    ParseOf(s, max);
  }

  /** The scan ends with the cards read at the end of the string and at `max_cards`. */
  lemma ScanDone(t: string, i: nat, max: int, acc: seq<Card>)
    requires i <= |t|
    requires i == |t| || |acc| >= max
    ensures Scan(t[i..], max, acc) == Some(acc)
  {
  }

  lemma ParseOf(s: string, max: int)
    ensures ParseCards(s, max).None? <==> Parse(s, max) == Invalid
    ensures ParseCards(s, max).Some? ==> Parse(s, max) == Parsed(Packs(ParseCards(s, max).value))
  {
  }

  // Hand strings written piece by piece, and what the scan makes of them.

  /** A run of blanks followed by a two-character rank/suit token. */
  datatype Piece = Piece(blanks: string, rankChar: char, suitChar: char)

  predicate Blanks(w: string) {
    forall k :: 0 <= k < |w| ==> IsBlank(w[k])
  }

  /** The piece `p` is blanks and then the rank symbol and suit letter of `c`, each in either case. */
  predicate Reads(p: Piece, c: Card) {
    Blanks(p.blanks) && ToUpper(p.rankChar) == RankSymbols[c.rank] && ToLower(p.suitChar) == SuitLetter(c.suit)
  }

  /** A piece reads as `c` exactly when it is blanks and a token that decodes to `c`. */
  lemma ReadsToken(p: Piece, c: Card)
    ensures Reads(p, c) <==> Blanks(p.blanks) && Token(p.rankChar, p.suitChar) == Some(c)
  {
    var r := CharToRank(p.rankChar);
    var b := CharToSuit(p.suitChar);
    if ToUpper(p.rankChar) == RankSymbols[c.rank] {
      assert ToUpper(p.rankChar) in RankSymbols;
      RankSymbolsDistinct(r, c.rank);
    }
    if ToLower(p.suitChar) == SuitLetter(c.suit) {
      assert ToLower(p.suitChar) in "cdhs" by {
        match c.suit
        case Club => assert "cdhs"[0] == 'c';
        case Diamond => assert "cdhs"[1] == 'd';
        case Heart => assert "cdhs"[2] == 'h';
        case Spade => assert "cdhs"[3] == 's';
      }
    }
  }

  lemma RankSymbolsDistinct(i: int, j: int)
    requires 0 <= i < 13 && 0 <= j < 13
    requires RankSymbols[i] == RankSymbols[j]
    ensures i == j
  {
  }

  /** The pieces `ps` spell the cards `cs`, one card per piece. */
  predicate Spells(ps: seq<Piece>, cs: seq<Card>) {
    |ps| == |cs| && (|ps| == 0 || (Reads(ps[0], cs[0]) && Spells(ps[1..], cs[1..])))
  }

  function PieceText(p: Piece): string {
    p.blanks + [p.rankChar, p.suitChar]
  }

  /** The pieces written one after another. */
  function Render(ps: seq<Piece>): string {
    if |ps| == 0 then [] else PieceText(ps[0]) + Render(ps[1..])
  }

  /** A token that decodes starts with no blank and holds no NUL. */
  lemma TokenChars(rankChar: char, suitChar: char)
    requires Token(rankChar, suitChar).Some?
    ensures !IsBlank(rankChar) && rankChar != '\0' && suitChar != '\0'
  {
  }

  /** Every card has a spelling: its rank symbol followed by its suit letter. */
  lemma CanonicalToken(c: Card)
    ensures Token(RankSymbols[c.rank], SuitLetter(c.suit)) == Some(c)
  {
    RankSymbolRoundTrip(c.rank);
    SuitLetterRoundTrip(c.suit);
    assert SuitOfBit(SuitBit(c.suit)) == Some(c.suit);
  }

  lemma BlanksHaveNoNul(w: string)
    requires Blanks(w)
    ensures '\0' !in w
  {
    assert forall k :: 0 <= k < |w| ==> IsBlank(w[k]);
  }

  lemma {:induction false} RenderHasNoNul(ps: seq<Piece>, cs: seq<Card>)
    requires Spells(ps, cs)
    ensures '\0' !in Render(ps)
    decreases |ps|
  {
    if |ps| > 0 {
      RenderHasNoNul(ps[1..], cs[1..]);
      BlanksHaveNoNul(ps[0].blanks);
      ReadsToken(ps[0], cs[0]);
      TokenChars(ps[0].rankChar, ps[0].suitChar);
    }
  }

  lemma {:induction false} CStringAppend(a: string, b: string)
    requires '\0' !in a
    ensures CString(a + b) == a + CString(b)
    decreases |a|
  {
    if |a| == 0 {
      assert a + b == b;
    } else {
      assert (a + b)[0] == a[0];
      assert (a + b)[1..] == a[1..] + b;
      CStringAppend(a[1..], b);
      assert [a[0]] + a[1..] == a;
    }
  }

  /** A run of blanks in rank position is skipped while fewer than `max` cards are stored. */
  lemma {:induction false} SkipBlanks(w: string, rest: string, max: int, acc: seq<Card>)
    requires Blanks(w)
    requires |acc| < max
    ensures Scan(w + rest, max, acc) == Scan(rest, max, acc)
    decreases |w|
  {
    if |w| == 0 {
      assert w + rest == rest;
    } else {
      assert (w + rest)[0] == w[0];
      assert (w + rest)[1..] == w[1..] + rest;
      SkipBlanks(w[1..], rest, max, acc);
    }
  }

  /** The two characters of a token that spells a card are read back as that card. */
  lemma ReadCard(rankChar: char, suitChar: char, c: Card, rest: string, max: int, acc: seq<Card>)
    requires Token(rankChar, suitChar) == Some(c)
    requires |acc| < max
    ensures Scan([rankChar, suitChar] + rest, max, acc) == Scan(rest, max, acc + [c])
  {
    var s := [rankChar, suitChar] + rest;
    assert s[0] == rankChar && s[1] == suitChar;
    TokenChars(rankChar, suitChar);
    assert s[2..] == rest;
  }

  /** A piece that reads as `c`, at the front of `s`, is consumed and stores `c`. */
  lemma ScanPiece(p: Piece, c: Card, s: string, more: string, max: int, acc: seq<Card>)
    requires Reads(p, c) && s == PieceText(p) + more
    requires |acc| < max
    ensures Scan(s, max, acc) == Scan(more, max, acc + [c])
  {
    ReadsToken(p, c);
    var t := [p.rankChar, p.suitChar];
    assert s == p.blanks + (t + more);
    SkipBlanks(p.blanks, t + more, max, acc);
    ReadCard(p.rankChar, p.suitChar, c, more, max, acc);
  }

  /** A rendered hand is its first piece followed by the rendering of the others. */
  lemma RenderCons(ps: seq<Piece>, rest: string)
    requires |ps| > 0
    ensures Render(ps) + rest == PieceText(ps[0]) + (Render(ps[1..]) + rest)
  {
  }

  /** The first piece of a rendered hand is read as the first card, and the rest as the other cards. */
  lemma RenderStep(ps: seq<Piece>, cs: seq<Card>, rest: string, max: int, acc: seq<Card>)
    requires Spells(ps, cs) && |ps| > 0
    requires |acc| < max
    requires Scan(Render(ps[1..]) + rest, max, acc + [cs[0]]) == Scan(rest, max, acc + cs)
    ensures Scan(Render(ps) + rest, max, acc) == Scan(rest, max, acc + cs)
  {
    RenderCons(ps, rest);
    ScanPiece(ps[0], cs[0], Render(ps) + rest, Render(ps[1..]) + rest, max, acc);
  }

  lemma ConsAppend(acc: seq<Card>, cs: seq<Card>)
    requires |cs| > 0
    ensures acc + [cs[0]] + cs[1..] == acc + cs
  {
    assert [cs[0]] + cs[1..] == cs;
  }

  lemma {:induction false} ScanRendered(ps: seq<Piece>, cs: seq<Card>, rest: string, max: int, acc: seq<Card>)
    requires Spells(ps, cs)
    requires |acc| + |cs| <= max
    ensures Scan(Render(ps) + rest, max, acc) == Scan(rest, max, acc + cs)
    decreases |ps|
  {
    if |ps| == 0 {
      assert Render(ps) + rest == rest;
      assert acc + cs == acc;
    } else {
      ScanRendered(ps[1..], cs[1..], rest, max, acc + [cs[0]]);
      ConsAppend(acc, cs);
      RenderStep(ps, cs, rest, max, acc);
    }
  }

  /** Nothing after the `max`-th card is examined: any suffix leaves the result unchanged. */
  lemma ParseStopsAtMax(ps: seq<Piece>, cs: seq<Card>, rest: string, max: int)
    requires Spells(ps, cs)
    requires |cs| == max
    ensures ParseCards(Render(ps) + rest, max) == Some(cs)
  {
    var r := Render(ps);
    RenderHasNoNul(ps, cs);
    CStringAppend(r, rest);
    ScanRendered(ps, cs, CString(rest), max, []);
    assert [] + cs == cs;
  }

  /** Cards separated and followed by blanks are parsed back exactly, up to `max` of them. */
  lemma ParseRendered(ps: seq<Piece>, cs: seq<Card>, w: string, max: int)
    requires Spells(ps, cs) && Blanks(w)
    requires |cs| <= max
    ensures ParseCards(Render(ps) + w, max) == Some(cs)
  {
    var r := Render(ps);
    RenderHasNoNul(ps, cs);
    CStringAppend(r, w);
    BlanksHaveNoNul(w);
    CStringAppend(w, []);
    assert w + [] == w;
    ScanRendered(ps, cs, w, max, []);
    assert [] + cs == cs;
    if |cs| < max {
      SkipBlanks(w, [], max, cs);
    }
  }

  /** A single character left over after blanks ends the scan without an error. */
  lemma ParseLoneTrailingChar(ps: seq<Piece>, cs: seq<Card>, w: string, c: char, max: int)
    requires Spells(ps, cs) && Blanks(w)
    requires |cs| < max
    ensures ParseCards(Render(ps) + w + [c], max) == Some(cs)
  {
    var r := Render(ps);
    RenderHasNoNul(ps, cs);
    BlanksHaveNoNul(w);
    assert r + w + [c] == r + (w + [c]);
    CStringAppend(r, w + [c]);
    CStringAppend(w, [c]);
    var tail := CString([c]);
    ScanRendered(ps, cs, w + tail, max, []);
    assert [] + cs == cs;
    SkipBlanks(w, tail, max, cs);
    if c != '\0' && IsBlank(c) {
      assert tail[1..] == [];
    }
  }

  /** The first token with an unknown rank or suit character makes the whole parse fail. */
  lemma ParseBadToken(ps: seq<Piece>, cs: seq<Card>, w: string, rankChar: char, suitChar: char,
                      rest: string, max: int)
    requires Spells(ps, cs) && Blanks(w)
    requires |cs| < max
    requires !IsBlank(rankChar) && rankChar != '\0' && suitChar != '\0'
    requires CharToRank(rankChar) < 0 || CharToSuit(suitChar) == 0
    ensures ParseCards(Render(ps) + w + [rankChar, suitChar] + rest, max) == None
  {
    var r := Render(ps);
    var t := [rankChar, suitChar];
    var u := t + CString(rest);
    RenderHasNoNul(ps, cs);
    BlanksHaveNoNul(w);
    calc {
      CString(r + w + t + rest);
      { assert r + w + t + rest == r + (w + (t + rest)); }
      CString(r + (w + (t + rest)));
      { CStringAppend(r, w + (t + rest)); CStringAppend(w, t + rest); CStringAppend(t, rest); }
      r + (w + u);
    }
    calc {
      Scan(r + (w + u), max, []);
      { ScanRendered(ps, cs, w + u, max, []); assert [] + cs == cs; }
      Scan(w + u, max, cs);
      { SkipBlanks(w, u, max, cs); }
      Scan(u, max, cs);
      { assert u[0] == rankChar && u[1] == suitChar; }
      None;
    }
  }
}
