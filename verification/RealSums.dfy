/** Maxima, sums and inner products of real-valued functions of an index. */
module RealSums {

  function Larger(x: real, y: real): real {
    if x >= y then x else y
  }

  function Sum(f: nat -> real, n: nat): real {
    if n == 0 then 0.0 else Sum(f, n - 1) + f(n - 1)
  }

  lemma SumOneMore(f: nat -> real, n: nat)
    ensures Sum(f, 0) == 0.0 && Sum(f, n + 1) == Sum(f, n) + f(n)
  {
  }

  lemma {:induction false} SumEqual(f: nat -> real, g: nat -> real, n: nat)
    requires forall k: nat | k < n :: f(k) == g(k)
    ensures Sum(f, n) == Sum(g, n)
  {
    if n > 0 {
      SumEqual(f, g, n - 1);
    }
  }

  lemma {:induction false} SumAdd(f: nat -> real, g: nat -> real, h: nat -> real, n: nat)
    requires forall k: nat | k < n :: h(k) == f(k) + g(k)
    ensures Sum(h, n) == Sum(f, n) + Sum(g, n)
  {
    if n > 0 {
      SumAdd(f, g, h, n - 1);
    }
  }

  lemma {:induction false} SumSplit(f: nat -> real, g: nat -> real, n0: nat, n: nat)
    requires forall k: nat | k < n :: g(k) == f(n0 + k)
    ensures Sum(f, n0 + n) == Sum(f, n0) + Sum(g, n)
  {
    if n > 0 {
      SumSplit(f, g, n0, n - 1);
    }
  }

  /** Inner product over the first n indices. */
  function Dot(a: nat -> real, b: nat -> real, n: nat): real {
    if n == 0 then 0.0 else Dot(a, b, n - 1) + a(n - 1) * b(n - 1)
  }

  lemma DotNothing(a: nat -> real, b: nat -> real)
    ensures Dot(a, b, 0) == 0.0
  {
  }

  lemma {:induction false} DotEqual(a: nat -> real, b: nat -> real, a': nat -> real, b': nat -> real, n: nat)
    requires forall k: nat | k < n :: a(k) == a'(k) && b(k) == b'(k)
    ensures Dot(a, b, n) == Dot(a', b', n)
  {
    if n > 0 {
      DotEqual(a, b, a', b', n - 1);
    }
  }

  /** A dot product is the dot product up to k0 plus that of the next tile of depth. */
  lemma {:induction false} DotSplit(a: nat -> real, b: nat -> real, k0: nat, n: nat, a': nat -> real, b': nat -> real)
    requires forall k: nat | k < n :: a'(k) == a(k0 + k) && b'(k) == b(k0 + k)
    ensures Dot(a, b, k0 + n) == Dot(a, b, k0) + Dot(a', b', n)
  {
    if n > 0 {
      DotSplit(a, b, k0, n - 1, a', b');
    }
  }
}
