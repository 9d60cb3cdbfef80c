/** Real vectors as sequences. */
module Vectors {
  import opened RealSums

  /** Multiplication by name, so that proofs about vectors can hide it. */
  function Times(x: real, y: real): real {
    x * y
  }

  lemma TimesLaws(x: real, y: real, z: real)
    ensures Times(x, y + z) == Times(x, y) + Times(x, z)
    ensures Times(x, y - z) == Times(x, y) - Times(x, z)
    ensures Times(Times(x, y), z) == Times(x, Times(y, z))
    ensures Times(x, y) == Times(y, x)
  {
    assert (x * y) * z == x * (y * z);
  }

  function Plus(a: seq<real>, b: seq<real>): (r: seq<real>)
    requires |a| == |b|
    ensures |r| == |a| && forall i | 0 <= i < |a| :: r[i] == a[i] + b[i]
  {
    seq(|a|, i requires 0 <= i < |a| => a[i] + b[i])
  }

  function Minus(a: seq<real>, b: seq<real>): (r: seq<real>)
    requires |a| == |b|
    ensures |r| == |a| && forall i | 0 <= i < |a| :: r[i] == a[i] - b[i]
  {
    seq(|a|, i requires 0 <= i < |a| => a[i] - b[i])
  }

  function Scale(c: real, a: seq<real>): (r: seq<real>)
    ensures |r| == |a| && forall i | 0 <= i < |a| :: r[i] == Times(c, a[i])
  {
    seq(|a|, i requires 0 <= i < |a| => Times(c, a[i]))
  }

  lemma ScaleOne(a: seq<real>)
    ensures Scale(1.0, a) == a
  {
    forall i | 0 <= i < |a| ensures Times(1.0, a[i]) == a[i] {
    }
  }

  function At(a: seq<real>): nat -> real {
    (i: nat) => if i < |a| then a[i] else 0.0
  }

  function Inner(a: seq<real>, b: seq<real>): real
    requires |a| == |b|
  {
    Dot(At(a), At(b), |a|)
  }

  lemma DotOneMore(a: seq<real>, b: seq<real>, n: nat)
    requires n < |a| == |b|
    ensures Dot(At(a), At(b), n + 1) == Dot(At(a), At(b), n) + Times(a[n], b[n])
  {
  }

  lemma InnerConcat(a: seq<real>, b: seq<real>, c: seq<real>, d: seq<real>)
    requires |a| == |c| && |b| == |d|
    ensures Inner(a + b, c + d) == Inner(a, c) + Inner(b, d)
  {
    hide Dot;
    DotSplit(At(a + b), At(c + d), |a|, |b|, At(b), At(d));
    DotEqual(At(a + b), At(c + d), At(a), At(c), |a|);
  }

  lemma ScaledTerm(c: real, x: real, y: real, rest: real)
    ensures Times(c, rest) + Times(x, Times(c, y)) == Times(c, rest + Times(x, y))
  {
    assert x * (c * y) == c * (x * y);
  }

  lemma {:induction false} DotScaleRight(a: seq<real>, c: real, b: seq<real>, n: nat)
    requires n <= |a| == |b|
    ensures Dot(At(a), At(Scale(c, b)), n) == Times(c, Dot(At(a), At(b), n))
  {
    if n > 0 {
      DotScaleRight(a, c, b, n - 1);
      DotOneMore(a, Scale(c, b), n - 1);
      DotOneMore(a, b, n - 1);
      hide Dot, At;
      ScaledTerm(c, a[n - 1], b[n - 1], Dot(At(a), At(b), n - 1));
    }
  }

  lemma {:induction false} DotCommutes(a: seq<real>, b: seq<real>, n: nat)
    requires n <= |a| == |b|
    ensures Dot(At(a), At(b), n) == Dot(At(b), At(a), n)
  {
    if n > 0 {
      DotCommutes(a, b, n - 1);
    }
  }

  /** Inner products scale with both arguments. */
  lemma InnerScale(c: real, a: seq<real>, b: seq<real>)
    requires |a| == |b|
    ensures Inner(Scale(c, a), Scale(c, b)) == Times(Times(c, c), Inner(a, b))
  {
    DotScaleRight(Scale(c, a), c, b, |a|);
    DotCommutes(Scale(c, a), b, |a|);
    DotScaleRight(b, c, a, |a|);
    DotCommutes(a, b, |a|);
    TimesLaws(c, c, Inner(a, b));
  }

  lemma ScalarParallelogram(p: real, q: real, x: real, y: real)
    ensures Times(p + q, x + y) + Times(p - q, x - y) == 2.0 * Times(p, x) + 2.0 * Times(q, y)
  {
  }

  lemma {:induction false} DotParallelogram(a: seq<real>, b: seq<real>, c: seq<real>, d: seq<real>, n: nat)
    requires n <= |a| == |b| == |c| == |d|
    ensures Dot(At(Plus(a, b)), At(Plus(c, d)), n) + Dot(At(Minus(a, b)), At(Minus(c, d)), n) ==
            2.0 * Dot(At(a), At(c), n) + 2.0 * Dot(At(b), At(d), n)
  {
    hide At, Times, Plus, Minus;
    if n > 0 {
      hide Dot;
      DotParallelogram(a, b, c, d, n - 1);
      DotOneMore(Plus(a, b), Plus(c, d), n - 1);
      DotOneMore(Minus(a, b), Minus(c, d), n - 1);
      DotOneMore(a, c, n - 1);
      DotOneMore(b, d, n - 1);
      ScalarParallelogram(a[n - 1], b[n - 1], c[n - 1], d[n - 1]);
    }
  }

  /** The parallelogram law for inner products. */
  lemma Parallelogram(a: seq<real>, b: seq<real>, c: seq<real>, d: seq<real>)
    requires |a| == |b| == |c| == |d|
    ensures Inner(Plus(a, b), Plus(c, d)) + Inner(Minus(a, b), Minus(c, d)) == 2.0 * Inner(a, c) + 2.0 * Inner(b, d)
  {
    DotParallelogram(a, b, c, d, |a|);
  }
}
