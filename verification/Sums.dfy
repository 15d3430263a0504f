/** Sums of a weight over a sequence, and how they change when the sequence does. */
module Sums {

  function Sum<T>(s: seq<T>, f: T -> int): int {
    if s == [] then 0 else f(s[0]) + Sum(s[1..], f)
  }

  lemma {:induction false} SumConcat<T>(a: seq<T>, b: seq<T>, f: T -> int)
    ensures Sum(a + b, f) == Sum(a, f) + Sum(b, f)
  {
    if a == [] {
      assert a + b == b;
    } else {
      SumConcat(a[1..], b, f);
      assert (a + b)[1..] == a[1..] + b;
    }
  }

  lemma SumHead<T>(s: seq<T>, f: T -> int)
    requires s != []
    ensures Sum(s, f) == f(s[0]) + Sum(s[1..], f)
  {
  }

  lemma SumAppend<T>(s: seq<T>, x: T, f: T -> int)
    ensures Sum(s + [x], f) == Sum(s, f) + f(x)
  {
    SumConcat(s, [x], f);
  }

  lemma SumInsert<T>(s: seq<T>, k: nat, x: T, f: T -> int)
    requires k <= |s|
    ensures Sum(s[..k] + [x] + s[k..], f) == Sum(s, f) + f(x)
  {
    SumConcat(s[..k] + [x], s[k..], f);
    SumAppend(s[..k], x, f);
    SumConcat(s[..k], s[k..], f);
    assert s[..k] + s[k..] == s;
  }

  lemma SumUpdate<T>(s: seq<T>, i: nat, x: T, f: T -> int)
    requires i < |s|
    ensures Sum(s[i := x], f) == Sum(s, f) - f(s[i]) + f(x)
  {
    assert s[i := x] == s[..i] + [x] + s[i + 1..];
    assert s == s[..i] + [s[i]] + s[i + 1..];
    SumConcat(s[..i] + [x], s[i + 1..], f);
    SumConcat(s[..i] + [s[i]], s[i + 1..], f);
    SumAppend(s[..i], x, f);
    SumAppend(s[..i], s[i], f);
  }

  ghost predicate NonNegative<T(!new)>(f: T -> int) {
    forall x :: f(x) >= 0
  }

  /** A sum of non-negative weights is at least any one of its terms. */
  lemma {:induction false} SumAtLeast<T(!new)>(s: seq<T>, i: nat, f: T -> int)
    requires NonNegative(f)
    ensures Sum(s, f) >= 0
    ensures i < |s| ==> Sum(s, f) >= f(s[i])
  {
    if s != [] {
      SumAtLeast(s[1..], if i == 0 then 0 else i - 1, f);
    }
  }

  /** ... and at least any two of them. */
  lemma SumAtLeastTwo<T(!new)>(s: seq<T>, i: nat, j: nat, f: T -> int)
    requires NonNegative(f) && i < j < |s|
    ensures Sum(s, f) >= f(s[i]) + f(s[j])
  {
    assert s == s[..j] + s[j..];
    SumConcat(s[..j], s[j..], f);
    SumAtLeast(s[..j], i, f);
    SumAtLeast(s[j..], 0, f);
  }

  /** A positive sum has a positive term. */
  lemma {:induction false} SumWitness<T>(s: seq<T>, f: T -> int) returns (i: nat)
    requires Sum(s, f) > 0
    ensures i < |s| && f(s[i]) > 0
  {
    if f(s[0]) > 0 {
      i := 0;
    } else {
      var j := SumWitness(s[1..], f);
      i := j + 1;
    }
  }

  lemma {:induction false} SumZero<T>(s: seq<T>, f: T -> int)
    requires forall x :: x in s ==> f(x) == 0
    ensures Sum(s, f) == 0
  {
    if s != [] {
      assert s[0] in s && forall x :: x in s[1..] ==> x in s;
      SumZero(s[1..], f);
    }
  }

  lemma OneTimesMore(k: int, x: int, sum: int)
    ensures k * (x + sum) == k * x + k * sum
  {
  }

  /** Terms bounded by `k` times other terms have a sum bounded by `k` times their sum. */
  lemma {:induction false} SumScaled<T>(s: seq<T>, f: T -> int, g: T -> int, k: int)
    requires forall x :: x in s ==> f(x) <= k * g(x)
    ensures Sum(s, f) <= k * Sum(s, g)
  {
    if s != [] {
      assert s[0] in s && forall x :: x in s[1..] ==> x in s;
      SumScaled(s[1..], f, g, k);
      OneTimesMore(k, g(s[0]), Sum(s[1..], g));
    }
  }

  lemma {:induction false} SumOnes<T>(s: seq<T>, f: T -> int)
    requires forall x :: x in s ==> f(x) == 1
    ensures Sum(s, f) == |s|
  {
    if s != [] {
      assert s[0] in s && forall x :: x in s[1..] ==> x in s;
      SumOnes(s[1..], f);
    }
  }
}
