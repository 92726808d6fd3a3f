/**
 * `hand_rank` and `get_hand_name` of src/phpoker.c: the category of a hand
 * value and its display name. Smaller values are better hands, and
 * each category owns one contiguous block of values.
 */
module Classifier {

  /** Category names, best first: category k is `CategoryNames[k - 1]`. */
  const CategoryNames: seq<string> := [
    "Straight Flush", "Four of a Kind", "Full House", "Flush", "Straight",
    "Three of a Kind", "Two Pair", "One Pair", "High Card"
  ]

  /** The name `get_hand_name` gives any number outside 1..9. */
  const UnknownName: string := "Unknown"

  /** The last value of categories 1..8; category 9 takes every value above 6185. */
  const LastValue: seq<int> := [10, 166, 322, 1599, 1609, 2467, 3325, 6185]

  /**
   * `hand_rank`: the category of a value. A value belongs to category k
   * exactly when it lies above the last value of category k - 1 and at or
   * below the last value of category k.
   */
  function HandRank(val: bv16): (k: int)
    ensures 1 <= k <= 9
    ensures k > 1 ==> LastValue[k - 2] < val as int
    ensures k < 9 ==> val as int <= LastValue[k - 1]
  {
    if val > 6185 then 9
    else if val > 3325 then 8
    else if val > 2467 then 7
    else if val > 1609 then 6
    else if val > 1599 then 5
    else if val > 322 then 4
    else if val > 166 then 3
    else if val > 10 then 2
    else 1
  }

  /** The last values increase, so the blocks of the categories do not overlap. */
  lemma LastValueIncreasing(i: int, j: int)
    requires 0 <= i < j < |LastValue|
    ensures LastValue[i] < LastValue[j]
  {
  }

  /** Any category satisfying the interval condition is the one `hand_rank` returns. */
  lemma {:induction false} HandRankUnique(val: bv16, k: int)
    requires 1 <= k <= 9
    requires k > 1 ==> LastValue[k - 2] < val as int
    requires k < 9 ==> val as int <= LastValue[k - 1]
    ensures HandRank(val) == k
  {
    var h := HandRank(val);
    if h < k {
      LastValueIncreasing(h - 1, k - 2);
    } else if h > k {
      LastValueIncreasing(k - 1, h - 2);
    }
  }

  /** A better (smaller) value never falls in a worse category. */
  lemma HandRankMonotone(a: bv16, b: bv16)
    requires a <= b
    ensures HandRank(a) <= HandRank(b)
  {
  }

  /** `get_hand_name`. */
  function HandName(rank: int): (name: string)
    ensures 1 <= rank <= 9 ==> name == CategoryNames[rank - 1]
    ensures !(1 <= rank <= 9) ==> name == UnknownName
  {
    match rank
    case 1 => "Straight Flush"
    case 2 => "Four of a Kind"
    case 3 => "Full House"
    case 4 => "Flush"
    case 5 => "Straight"
    case 6 => "Three of a Kind"
    case 7 => "Two Pair"
    case 8 => "One Pair"
    case 9 => "High Card"
    case _ => "Unknown"
  }

  /** The category a name stands for, or 0 for a name `get_hand_name` never gives a category. */
  function RankOfName(name: string): (k: int)
    ensures 0 <= k <= 9
    ensures k > 0 ==> CategoryNames[k - 1] == name
    ensures k == 0 ==> name !in CategoryNames
  {
    if name == "Straight Flush" then 1
    else if name == "Four of a Kind" then 2
    else if name == "Full House" then 3
    else if name == "Flush" then 4
    else if name == "Straight" then 5
    else if name == "Three of a Kind" then 6
    else if name == "Two Pair" then 7
    else if name == "One Pair" then 8
    else if name == "High Card" then 9
    else 0
  }

  /** Every category has its own name, so the name determines the category. */
  lemma NameDeterminesRank(rank: int)
    requires 1 <= rank <= 9
    ensures RankOfName(HandName(rank)) == rank
    ensures HandName(rank) != UnknownName
  {
  }

  /** Names of two different categories differ. */
  lemma HandNameInjective(a: int, b: int)
    requires 1 <= a <= 9 && 1 <= b <= 9
    requires HandName(a) == HandName(b)
    ensures a == b
  {
    NameDeterminesRank(a);
    NameDeterminesRank(b);
  }
}
