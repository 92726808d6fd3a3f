/**
 * Folding a sequence with a commutative, associative operation. The
 * evaluator combines five cards twice this way, OR-ing their rank bits and
 * multiplying their primes; order independence of the hand value rests on
 * the permutation lemma here.
 */
module Folds {

  /** `op` is commutative and associative. */
  ghost predicate CommAssoc<T(!new)>(op: (T, T) -> T) {
    && (forall a, b :: op(a, b) == op(b, a))
    && (forall a, b, c :: op(op(a, b), c) == op(a, op(b, c)))
  }

  /** `f(s[0]) op (f(s[1]) op (... op unit))`. */
  function Fold<E, T>(f: E -> T, op: (T, T) -> T, unit: T, s: seq<E>): T {
    if s == [] then unit else op(f(s[0]), Fold(f, op, unit, s[1..]))
  }

  /** The fold of five elements, written out. */
  lemma FoldFive<E, T>(f: E -> T, op: (T, T) -> T, unit: T, s: seq<E>)
    requires |s| == 5
    ensures Fold(f, op, unit, s)
         == op(f(s[0]), op(f(s[1]), op(f(s[2]), op(f(s[3]), op(f(s[4]), unit)))))
  {
    assert s[4..][1..] == [];
    assert Fold(f, op, unit, s[4..]) == op(f(s[4]), unit);
    assert s[3..][1..] == s[4..];
    assert Fold(f, op, unit, s[3..]) == op(f(s[3]), Fold(f, op, unit, s[4..]));
    assert s[2..][1..] == s[3..];
    assert Fold(f, op, unit, s[2..]) == op(f(s[2]), Fold(f, op, unit, s[3..]));
    assert s[1..][1..] == s[2..];
    assert Fold(f, op, unit, s[1..]) == op(f(s[1]), Fold(f, op, unit, s[2..]));
  }

  /** Any one element can be pulled to the front of the fold. */
  lemma {:induction false} FoldRemove<E, T(!new)>(f: E -> T, op: (T, T) -> T, unit: T, s: seq<E>, j: int)
    requires CommAssoc(op)
    requires 0 <= j < |s|
    ensures Fold(f, op, unit, s) == op(f(s[j]), Fold(f, op, unit, s[..j] + s[j + 1..]))
  {
    if j == 0 {
      assert s[..0] + s[1..] == s[1..];
    } else {
      var t := s[..j] + s[j + 1..];
      var tail := s[1..];
      assert t[0] == s[0];
      assert t[1..] == tail[..j - 1] + tail[j..];
      FoldRemove(f, op, unit, tail, j - 1);
      var x, y, z := f(s[0]), f(s[j]), Fold(f, op, unit, t[1..]);
      calc {
        Fold(f, op, unit, s);
        op(x, Fold(f, op, unit, tail));
        op(x, op(y, z));
        op(op(x, y), z);
        op(op(y, x), z);
        op(y, op(x, z));
        op(y, Fold(f, op, unit, t));
      }
    }
  }

  /** Folding a commutative, associative operation ignores the order of the elements. */
  lemma {:induction false} FoldPermutation<E, T(!new)>(f: E -> T, op: (T, T) -> T, unit: T, a: seq<E>, b: seq<E>)
    requires CommAssoc(op)
    requires multiset(a) == multiset(b)
    ensures Fold(f, op, unit, a) == Fold(f, op, unit, b)
    decreases |a|
  {
    if a == [] {
      assert |b| == |multiset(b)| == 0;
    } else {
      assert a == [a[0]] + a[1..];
      assert a[0] in multiset(b);
      var j :| 0 <= j < |b| && b[j] == a[0];
      var rest := b[..j] + b[j + 1..];
      assert b == b[..j] + [b[j]] + b[j + 1..];
      assert multiset(b) == multiset(b[..j]) + multiset{b[j]} + multiset(b[j + 1..]);
      assert multiset(rest) == multiset(b[..j]) + multiset(b[j + 1..]);
      assert multiset(a) == multiset{a[0]} + multiset(a[1..]);
      assert multiset(a[1..]) == multiset(a) - multiset{a[0]};
      assert multiset(rest) == multiset(b) - multiset{b[j]};
      FoldRemove(f, op, unit, b, j);
      FoldPermutation(f, op, unit, a[1..], rest);
    }
  }
}
