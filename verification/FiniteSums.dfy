/** Sums of natural-valued functions over 0..n-1. */
module FiniteSums {

  function SumTo(f: nat -> nat, n: nat): nat {
    if n == 0 then 0 else SumTo(f, n - 1) + f(n - 1)
  }

  lemma {:induction false} SumMono(f: nat -> nat, g: nat -> nat, n: nat)
    requires forall i: nat | i < n :: g(i) <= f(i)
    ensures SumTo(g, n) <= SumTo(f, n)
  {
    if n > 0 {
      SumMono(f, g, n - 1);
    }
  }

  lemma {:induction false} SumLess(f: nat -> nat, g: nat -> nat, n: nat, j: nat)
    requires j < n && g(j) < f(j)
    requires forall i: nat | i < n && i != j :: g(i) <= f(i)
    ensures SumTo(g, n) < SumTo(f, n)
  {
    if j == n - 1 {
      SumMono(f, g, n - 1);
    } else {
      SumLess(f, g, n - 1, j);
    }
  }

  lemma {:induction false} SumBound(f: nat -> nat, n: nat, m: nat)
    requires forall i: nat | i < n :: f(i) <= m
    ensures SumTo(f, n) <= n * m
  {
    if n > 0 {
      SumBound(f, n - 1, m);
      assert n * m == (n - 1) * m + m;
    }
  }
}
