/**
  Sums over the threads of a pool.

  The concurrent models keep one program point per thread in a sequence.  Every
  counting argument about them is a sum over that sequence, and a step of one
  thread replaces one element.
 */
module Totals {

  function Total<T>(f: T -> int, s: seq<T>): int {
    if |s| == 0 then 0 else f(s[0]) + Total(f, s[1..])
  }

  /** Replacing one element changes the sum by the difference of its weights. */
  lemma {:induction false} TotalUpdate<T>(f: T -> int, s: seq<T>, i: nat, x: T)
    requires i < |s|
    ensures Total(f, s[i := x]) == Total(f, s) - f(s[i]) + f(x)
  {
    var u := s[i := x];
    if i == 0 {
      assert u[1..] == s[1..];
    } else {
      TotalUpdate(f, s[1..], i - 1, x);
      assert u[1..] == s[1..][i - 1 := x];
    }
  }

  /** A sum of non-negative weights is at least any one of them. */
  lemma {:induction false} TotalAtLeast<T>(f: T -> int, s: seq<T>, i: nat)
    requires i < |s|
    requires forall k | 0 <= k < |s| :: f(s[k]) >= 0
    ensures Total(f, s) >= f(s[i])
  {
    TotalNonNegative(f, s[1..]);
    if i != 0 {
      TotalAtLeast(f, s[1..], i - 1);
    }
  }

  lemma {:induction false} TotalNonNegative<T>(f: T -> int, s: seq<T>)
    requires forall k | 0 <= k < |s| :: f(s[k]) >= 0
    ensures Total(f, s) >= 0
  {
    if |s| != 0 {
      TotalNonNegative(f, s[1..]);
    }
  }

  /** A positive sum of non-negative weights has a positive summand. */
  lemma {:induction false} TotalPositive<T>(f: T -> int, s: seq<T>) returns (i: nat)
    requires Total(f, s) > 0
    ensures i < |s| && f(s[i]) > 0
  {
    if f(s[0]) > 0 {
      i := 0;
    } else {
      var k := TotalPositive(f, s[1..]);
      i := k + 1;
    }
  }

  lemma {:induction false} TotalBounded<T>(f: T -> int, s: seq<T>, b: int)
    requires forall k | 0 <= k < |s| :: f(s[k]) <= b
    ensures Total(f, s) <= b * |s|
  {
    if |s| != 0 {
      TotalBounded(f, s[1..], b);
      assert b * |s| == b + b * |s[1..]|;
    }
  }

  lemma {:induction false} TotalZero<T>(f: T -> int, s: seq<T>)
    requires forall k | 0 <= k < |s| :: f(s[k]) == 0
    ensures Total(f, s) == 0
  {
    if |s| != 0 {
      TotalZero(f, s[1..]);
    }
  }
}
