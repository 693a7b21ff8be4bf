/**
 * Sums over sequences. `Sum`/`SumInt` are the reference definitions; the
 * `Fold` variants are the left-to-right accumulation `Array.prototype.reduce`
 * performs, and the lemmas show the two agree.
 */
module Sums {

  function Sum<T>(s: seq<T>, f: T -> real): real {
    if s == [] then 0.0 else f(s[0]) + Sum(s[1..], f)
  }

  function SumInt<T>(s: seq<T>, f: T -> int): int {
    if s == [] then 0 else f(s[0]) + SumInt(s[1..], f)
  }

  /** `s.reduce((acc, x) => acc + f(x), acc)`. */
  function Fold<T>(acc: real, s: seq<T>, f: T -> real): real
    decreases |s|
  {
    if s == [] then acc else Fold(acc + f(s[0]), s[1..], f)
  }

  function FoldInt<T>(acc: int, s: seq<T>, f: T -> int): int
    decreases |s|
  {
    if s == [] then acc else FoldInt(acc + f(s[0]), s[1..], f)
  }

  lemma {:induction false} FoldIsSum<T>(acc: real, s: seq<T>, f: T -> real)
    decreases |s|
    ensures Fold(acc, s, f) == acc + Sum(s, f)
  {
    if s != [] {
      FoldIsSum(acc + f(s[0]), s[1..], f);
    }
  }

  lemma {:induction false} FoldIntIsSum<T>(acc: int, s: seq<T>, f: T -> int)
    decreases |s|
    ensures FoldInt(acc, s, f) == acc + SumInt(s, f)
  {
    if s != [] {
      FoldIntIsSum(acc + f(s[0]), s[1..], f);
    }
  }

  /** A sum over a concatenation is the sum of the parts. */
  lemma {:induction false} SumAppend<T>(a: seq<T>, b: seq<T>, f: T -> real)
    ensures Sum(a + b, f) == Sum(a, f) + Sum(b, f)
  {
    if a != [] {
      assert (a + b)[1..] == a[1..] + b;
      SumAppend(a[1..], b, f);
    } else {
      assert a + b == b;
    }
  }

  lemma {:induction false} SumIntAppend<T>(a: seq<T>, b: seq<T>, f: T -> int)
    ensures SumInt(a + b, f) == SumInt(a, f) + SumInt(b, f)
  {
    if a != [] {
      assert (a + b)[1..] == a[1..] + b;
      SumIntAppend(a[1..], b, f);
    } else {
      assert a + b == b;
    }
  }
}
