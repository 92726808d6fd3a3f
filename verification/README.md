# PHPoker hand evaluation in Dafny

This project models the hand-evaluation core of the PHPoker extension (`src/phpoker.c`) and proves properties of that model. The core behind the PHP function `poker_evaluate_hand` does the following:

- It reads a hand string such as `"As Ks Qs Js Ts"` into packed 32-bit card words (`parse_hand`).
- It evaluates exactly five of those words with Cactus Kev's table-driven evaluator (`eval_5cards`, `eval_5hand`), which uses Paul Senzee's perfect hash (`find_fast`).
- It maps the resulting value to one of nine categories (`hand_rank`) and to the name of that category (`get_hand_name`).

Modules, in the order of the program:

- `Cards` (`cards.dfy`): the card word layout, `char_to_rank`, `char_to_suit` and the packing of line 122. It also decodes a word back to a card.
- `Parser` (`parser.dfy`): `parse_hand`. The C loop is modelled twice and the two are proved equal:
  - `Scan` is the reference, written over the unread suffix of the string;
  - `ParseHand` is a method with the C loop's shape.

  Lemmas state what the parser makes of strings written card by card.
- `PerfectHash` (`hash.dfy`): `find_fast` on `bv32`, so the additions and the shift wrap around as C `unsigned` does.
- `Folds` (`folds.dfy`): folds with a commutative, associative operation, and their order independence.
- `Evaluator` (`evaluator.dfy`): two versions of the evaluator, proved to agree on every five cards.
  - `Eval5` follows `eval_5cards` bit for bit.
  - `HandValue` states the same lookup on decoded cards: whether they share a suit, the set of ranks present, and the product of the rank primes.
- `Classifier` (`classifier.dfy`): `hand_rank` and `get_hand_name`.
- `Extension` (`extension.dfy`): the decision logic of `poker_evaluate_hand`:
  - parse at most five cards;
  - give the null outcome (PHP warning and `NULL`) unless exactly five were read;
  - otherwise return the value, its category and the category name.

The four lookup tables (`flushes`, `unique5`, `hash_adjust`, `hash_values`) come from `arrays.h`, which is not part of this model. They are a parameter `Tables`. Two things are assumed about them:

- The lengths of the first three are 8192, 8192 and 512. The length of `hash_values` is left open, so a perfect-hash slot past its end is modelled as an explicit `OutOfBounds` outcome. In C that read is undefined.
- Every entry is a 16-bit word (`seq<bv16>`), as an `unsigned short` table would be. This is why the XOR of line 141 stays below 2^16 and why a lookup can miss only when `hash_values` has fewer than 2^16 entries.

`arrays.h` also holds `primes`, the prime of each rank. The model fixes it to the thirteen primes of the comment at line 45 of `src/phpoker.c` (2, 3, 5, 7, 11, 13, 17, 19, 23, 29, 31, 37, 41; `Cards.Primes`).

The PHP stub and unit tests describe something else: 5- or 7-card input, a `cards` key in the result, and exceptions for bad input. The C code does the following instead, and the model follows the C:

- `poker_evaluate_hand` evaluates five cards only. A string with six or seven cards is not rejected: parsing stops after the fifth card and the rest is never read (`Extension.EvaluateFiveCards`).
- Bad input gives a PHP warning and `NULL`, not an exception (`Extension.EvaluateTooFewCards`, `Extension.EvaluateBadToken`).
- The result has the keys `value`, `rank` and `name`. There is no card count.

Other plain facts about the C code:

- A single leftover character after the last card ends the scan without an error (`Parser.ParseLoneTrailingChar`). It is not a parse error.
- Nothing checks for duplicate cards. `"AsAsAsAsAs"` parses as five cards.
- An out-of-range category number makes `get_hand_name` return `"Unknown"` rather than fail.
- Blanks are skipped only where a rank character is expected. A blank between a rank and its suit is read as a suit character and rejected.
- Rank and suit characters are accepted in either case. The lemmas about written hands take a `Parser.Piece` for each card: a run of blanks, then a rank character and a suit character in any case.

## Model

| member | source | states |
|---|---|---|
| Cards.CharToRank | src/phpoker.c:63-80 | -1 exactly for characters that are no rank symbol in either case; otherwise the position of the upper-cased character in "23456789TJQKA" |
| Cards.CharToSuit | src/phpoker.c:83-91 | 0 exactly for characters that are not c, d, h or s in either case; otherwise the one-hot bit of the suit whose letter it is |
| Cards.RankSymbolRoundTrip | src/phpoker.c:63-80 | every rank symbol, upper or lower case, decodes to its own rank |
| Cards.SuitLetterRoundTrip | src/phpoker.c:83-91 | every suit letter, lower or upper case, decodes to the bit of its suit |
| Cards.SuitOfBit | src/phpoker.c:51-54 | a suit is found exactly for the four suit constants, and it is the suit with that constant |
| Cards.Unpack | src/phpoker.c:40-55 | a word decodes to a card only if it is exactly that card's packed word |
| Cards.PackBits | src/phpoker.c:122 | the shifts of line 122 give the layout of lines 40-49: rank bit 16+r, the rank in bits 8..11, the prime in the low byte, and the suit bit |
| Cards.RankOf | src/phpoker.c:55 | the `RANK` macro reads a 4-bit field, a number from 0 to 15 |
| Cards.PackFields | src/phpoker.c:40-55 | a card word is below 2^29, the `RANK` macro reads its rank, the low byte its prime, bits 12..15 its suit bit, and bits 16..28 its rank flag |
| Cards.UnpackPack | src/phpoker.c:40-49 | decoding the word of a card gives the card back |
| Cards.PackInjective | src/phpoker.c:40-49 | two cards with the same word are the same card |
| Cards.PackBitsIsCard | src/phpoker.c:122 | every word built by line 122 from a rank and one of the four suit bits is the word of that card |
| Parser.CString | src/phpoker.c:96 | what `strlen` sees is a prefix of the string that holds no NUL, and it ends at the first NUL if there is one |
| Parser.Token | src/phpoker.c:111-119 | a two-character token decodes exactly when its rank and suit characters are both known, to the card they name |
| Parser.Scan | src/phpoker.c:98-128 | the scan only appends to the cards already read, and never reads more than `max_cards` |
| Parser.ParseCards | src/phpoker.c:94-129 | at most `max_cards` cards are read, and none for a non-positive `max_cards` |
| Parser.Parse | src/phpoker.c:94-129 | the count never exceeds `max_cards`, and every stored word is the word of a card |
| Parser.ReadAt | src/phpoker.c:99-125 | one pass of the loop body continues the reference scan: a blank moves on by one, a lone character ends it with the cards read, an unknown token makes it fail, and a known token stores the word of its card and moves on by two |
| Parser.ScanDone | src/phpoker.c:98 | at the end of the string, or once `max_cards` cards are read, the scan returns the cards read so far |
| Parser.ParseHand | src/phpoker.c:94-129 | the C loop returns -1 exactly when the reference scan fails; otherwise it stores the same words and returns their count |
| Parser.ReadsToken | src/phpoker.c:111-119 | a piece reads as a card exactly when it is blanks followed by a token that decodes to that card, so rank and suit may be written in either case |
| Parser.TokenChars | src/phpoker.c:101-119 | a token that decodes does not start with a blank and holds no NUL, so the loop reads it as a token |
| Parser.BlanksHaveNoNul | src/phpoker.c:102 | a run of blanks holds no NUL |
| Parser.RenderHasNoNul | src/phpoker.c:96 | a hand written piece by piece holds no NUL, so `strlen` sees all of it |
| Parser.CStringAppend | src/phpoker.c:96 | `strlen` of a NUL-free prefix followed by more text reaches past the prefix |
| Parser.SkipBlanks | src/phpoker.c:101-104 | blanks in rank position are skipped while fewer than `max_cards` cards are stored |
| Parser.CanonicalToken | src/phpoker.c:111-119 | every card has a spelling: its rank symbol followed by its suit letter decodes to it |
| Parser.ReadCard | src/phpoker.c:111-125 | the two characters of a token that decodes to a card are consumed and store that card |
| Parser.ScanPiece | src/phpoker.c:99-125 | a piece that reads as a card, at the front of the unread text, is consumed and stores that card |
| Parser.RenderStep | src/phpoker.c:98-128 | the first piece of a written hand stores the first card, and the scan then goes on with the other pieces |
| Parser.ScanRendered | src/phpoker.c:98-128 | cards written one after another, each after its own blanks and in either case, are read back in order |
| Parser.ParseStopsAtMax | src/phpoker.c:98 | once `max_cards` cards are read, nothing after them is examined, whatever it is |
| Parser.ParseRendered | src/phpoker.c:94-129 | cards separated and followed by blanks, in either case, are parsed back exactly, up to `max_cards` of them |
| Parser.ParseLoneTrailingChar | src/phpoker.c:107-109 | a single character left after the last card ends the scan without an error |
| Parser.ParseBadToken | src/phpoker.c:116-119 | the first token with an unknown rank or suit makes the whole parse return -1 |
| PerfectHash.Adjust | src/phpoker.c:141 | the XOR with an adjustment entry stays below 2^16, keeps the entry's top three bits, and XOR-ing the entry again recovers the candidate |
| PerfectHash.AdjustIndex | src/phpoker.c:139 | `b` is the nine bits 8..16 of the mixed word, so it indexes the 512 entries of `hash_adjust` |
| PerfectHash.Candidate | src/phpoker.c:140 | `a` is the top thirteen bits of five times the mixed word, with the multiplication wrapping modulo 2^32 |
| PerfectHash.FindFast | src/phpoker.c:132-143 | the slot is below 2^16 |
| Evaluator.HashLookup | src/phpoker.c:160 | a found value is an entry of `hash_values`; a lookup fails only when `hash_values` has fewer than 2^16 entries |
| Evaluator.CardWord | src/phpoker.c:147-159 | every card word has no bit at or above 29 and a low byte from 2 to 41, so `q` indexes the 8192-entry tables |
| Evaluator.PrimeProductBound | src/phpoker.c:159 | the product of five low bytes of at most 41 is at most 41^5, which is below 2^31, so the `int` product does not overflow |
| Evaluator.Select | src/phpoker.c:151-160 | the flush test takes precedence, then a nonzero `unique5` entry, and only then the hash lookup on the prime product; only that lookup can fail |
| Evaluator.Eval5 | src/phpoker.c:146-161 | a lookup can fail only when `hash_values` has fewer than 2^16 entries |
| Evaluator.Eval5Hand | src/phpoker.c:164-166 | `eval_5hand` can fail only when `hash_values` has fewer than 2^16 entries |
| Evaluator.RankProductFive | src/phpoker.c:159 | the rank product of a hand is the product of its five primes in the order C multiplies them, and at most 41^5 |
| Evaluator.HandValue | src/phpoker.c:146-161 | a one-suit hand takes the `flushes` entry of its rank set; otherwise a nonzero `unique5` entry is the value; otherwise the value is the perfect-hash lookup of the rank product, which is at most 41^5; only that lookup can fail |
| Evaluator.OneHotAnd | src/phpoker.c:151 | five one-hot suit bits have a common bit exactly when they are all equal |
| Evaluator.SuitBitInjective | src/phpoker.c:51-54 | each suit constant is one-hot, and different suits have different constants |
| Evaluator.SameSuitFive | src/phpoker.c:151 | a five-card hand has one suit exactly when every card has the suit of the first |
| Evaluator.FlushTest | src/phpoker.c:151 | the AND of five card words masked with 0xf000 is nonzero exactly when the five cards share a suit |
| Evaluator.RankIndex | src/phpoker.c:147 | the OR of five card words shifted right by 16 is the set of ranks of the hand |
| Evaluator.RankSetFive | src/phpoker.c:147 | the rank set of five cards is the OR of their five rank flags |
| Evaluator.Eval5OfWords | src/phpoker.c:146-161 | five words whose suit test, rank index and prime product are those of a hand evaluate to that hand's value |
| Evaluator.Eval5OfCards | src/phpoker.c:146-161 | `eval_5cards` on the words of any five cards equals the card-level `HandValue` of those cards |
| Evaluator.PacksInRange | src/phpoker.c:164-166 | the words of any cards are valid arguments of `eval_5cards` |
| Evaluator.Eval5HandOfCards | src/phpoker.c:164-166 | `eval_5hand` on the words of five cards equals their `HandValue` |
| Evaluator.RankFlagsMeet | src/phpoker.c:147 | the rank bits of two ranks overlap exactly when the ranks are equal |
| Evaluator.RankSetMembers | src/phpoker.c:147 | bit r of the rank index is on exactly when some card of the hand has rank r |
| Evaluator.SameSuitPermutation | src/phpoker.c:151 | reordering the cards does not change whether they share a suit |
| Evaluator.HandValuePermutation | src/phpoker.c:146-161 | reordering five cards does not change the value of the hand |
| Classifier.HandRank | src/phpoker.c:169-179 | the category is 1..9, and the value lies above the last value of the previous category and at or below the last value of its own |
| Classifier.HandRankUnique | src/phpoker.c:169-179 | the category is the only one whose interval holds the value |
| Classifier.HandRankMonotone | src/phpoker.c:169-179 | a smaller (better) value never gets a worse category |
| Classifier.HandName | src/phpoker.c:182-195 | categories 1..9 get their names from best to worst; every other number gets "Unknown" |
| Classifier.RankOfName | src/phpoker.c:182-195 | the category whose name a string is, or 0 when no category has that name |
| Classifier.NameDeterminesRank | src/phpoker.c:182-195 | the name of every category 1..9 leads back to that category and is never "Unknown" |
| Classifier.HandNameInjective | src/phpoker.c:182-195 | two categories with the same name are the same category |
| Extension.Describe | src/phpoker.c:243-252 | an evaluated value gives an array whose rank is `hand_rank` of the value and whose name is that rank's name, never "Unknown"; a failed lookup gives `OutOfBounds` |
| Extension.EvaluateHand | src/phpoker.c:235-252 | the outcome is null exactly when `parse_hand` does not return 5; an array always holds a rank matching its value and a name matching its rank |
| Extension.PokerEvaluateHand | src/phpoker.c:235-252 | the step-by-step version with the looping parser has the same outcome as `EvaluateHand` |
| Extension.EvaluateParsed | src/phpoker.c:235-243 | when parsing reads five cards, the outcome describes their `HandValue`; when it reads fewer, the outcome is null |
| Extension.EvaluateFiveCards | src/phpoker.c:235-243 | five written cards, in either case, are evaluated as those five cards, whatever text follows them, so a sixth or seventh card is ignored |
| Extension.EvaluateTooFewCards | src/phpoker.c:237-240 | fewer than five cards, followed by blanks or by one stray character, give the null outcome |
| Extension.EvaluateBadToken | src/phpoker.c:237-240 | an unknown rank or suit character among the first five tokens gives the null outcome |
| Extension.EvaluateOrderIndependent | src/phpoker.c:243-246 | two strings naming the same cards in any order have the same outcome |

## Left out

- The Zend glue is not modelled: argument parsing with `zend_parse_parameters`, the module entry, MINIT, MSHUTDOWN and MINFO. The model starts from the hand string. It ends at an `Outcome` value that stands for the PHP array or `NULL`.
- The text of the PHP warning is not modelled. Only the fact that a null outcome is returned is kept.
- The contents of `flushes`, `unique5`, `hash_adjust` and `hash_values` are left out, because `arrays.h` is not part of this model. No property depends on particular table entries, so nothing here says which value a particular hand gets.
- Table coverage is not modelled. The model does not state that every hand with a repeated rank hashes inside `hash_values`, or that `unique5` is nonzero for every five distinct ranks. So `OutOfBounds` is not proved unreachable. Because there is no duplicate check, five cards of one rank in mixed suits do reach the hash lookup with a product that no real deal produces.
- `Evaluator.Eval5`, `Evaluator.Eval5Hand`: their own contracts bounds only the failure case. What it computes is stated by `Evaluator.Eval5OfCards` and `Evaluator.Eval5OfWords`.
- `PerfectHash.FindFast`: the contract bounds only the slot. The mixing is modelled bit for bit, but there is no independent definition of the hash to compare it with.
- PerfectHash.Mix: no contract. The add/xor/shift steps of lines 135-138 are each invertible modulo 2^32, so the mixing is a bijection on 32-bit words. That fact is not stated, because proving it takes more solver effort than this model allows.
- The contents of `primes` are fixed to the thirteen primes of the comment at line 45. The actual array in `arrays.h` is not part of this model.
- Table entries are assumed to be 16-bit words. `PerfectHash.FindFast`, `Evaluator.HashLookup` and the types of the results depend on this. An `arrays.h` with wider entries is not modelled.
- `Parser.ParseHand`: the loop counter `i` is a C `int` compared with a `size_t` length. Strings of 2^31 bytes or more are not modelled, because the counter is unbounded here.
- Characters are Dafny `char`s. `char_to_rank` and `char_to_suit` only compare them with ASCII letters and digits, so signedness of C `char` plays no part.
- A hand string is modelled with one `char` per byte, so a PHP byte string corresponds to a string of `char`s below U+0100. Multi-byte UTF-8 text is its sequence of bytes. `Parser.ParseLoneTrailingChar` and `Parser.ParseBadToken` accept any `char`. Only those below U+0100 stand for a real byte.
- The 7-card evaluator, the deck, shuffling and the equity simulation are not part of this source file. The PHP stubs, tests and `phpoker.h` are interface and test material, not logic.
