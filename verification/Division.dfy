/** Facts about quotients by a variable divisor. */
module Division {

  lemma MulMono(a: nat, b: nat, d: nat)
    ensures a <= b ==> a * d <= b * d
    ensures (a + 1) * d == a * d + d
  {
    if a <= b {
      assert b * d == a * d + (b - a) * d;
    }
  }

  lemma QuotientUnique(i: nat, d: nat, p: nat, q: nat)
    requires q * d <= i < q * d + d && p * d <= i < p * d + d
    ensures p == q
  {
    MulMono(p + 1, q, d);
    MulMono(q + 1, p, d);
    MulMono(p, p, d);
    MulMono(q, q, d);
  }

  lemma DivUnique(i: nat, d: nat, q: nat)
    requires d > 0 && q * d <= i < q * d + d
    ensures i / d == q && i % d == i - q * d
  {
    assert i == (i / d) * d + i % d;
    QuotientUnique(i, d, i / d, q);
  }

  lemma DivBelow(i: nat, d: nat, n: nat)
    requires d > 0 && i < n * d
    ensures i / d < n
  {
    var p := i / d;
    assert i == p * d + i % d;
    MulMono(n, p, d);
  }

  // Quotient and remainder as functions, so that proofs can hide the division itself.

  function Quot(n: nat, p: nat): nat
    requires p > 0
  {
    n / p
  }

  function Rem(n: nat, p: nat): nat
    requires p > 0
  {
    n % p
  }

  lemma QuotRem(n: nat, p: nat)
    requires p > 0
    ensures n == Quot(n, p) * p + Rem(n, p) && Rem(n, p) < p
  {
  }

  lemma QuotIs(n: nat, p: nat, q: nat, r: nat)
    requires n == q * p + r && r < p
    ensures Quot(n, p) == q && Rem(n, p) == r
  {
    DivUnique(n, p, q);
  }

  lemma Distribute(a: nat, p: nat, r: nat, t: nat)
    ensures (a * p + r) * t == a * (p * t) + r * t
  {
    assert (a * p) * t == a * (p * t);
  }

  /** Scaling dividend and divisor by t keeps the quotient and scales the remainder. */
  lemma ScaleDivision(n: nat, p: nat, t: nat)
    requires p > 0 && t > 0
    ensures p * t > 0
    ensures Quot(n * t, p * t) == Quot(n, p) && Rem(n * t, p * t) == Rem(n, p) * t
  {
    hide Quot, Rem;
    MulMono(1, p, t);
    QuotRem(n, p);
    Distribute(Quot(n, p), p, Rem(n, p), t);
    MulMono(Rem(n, p) + 1, p, t);
    MulMono(Rem(n, p), Rem(n, p), t);
    QuotIs(n * t, p * t, Quot(n, p), Rem(n, p) * t);
  }

  /** Adding a multiple of the divisor adds to the quotient only. */
  lemma AddMultiple(n: nat, p: nat, k: nat)
    requires p > 0
    ensures Quot(n + k * p, p) == Quot(n, p) + k && Rem(n + k * p, p) == Rem(n, p)
  {
    hide Quot, Rem;
    QuotRem(n, p);
    assert (Quot(n, p) + k) * p == Quot(n, p) * p + k * p;
    QuotIs(n + k * p, p, Quot(n, p) + k, Rem(n, p));
  }

  /** Dividing twice divides by the product. */
  lemma DivideTwice(n: nat, p: nat, r: nat)
    requires p > 0 && r > 0
    ensures p * r > 0 && Quot(n, p * r) == Quot(Quot(n, p), r)
  {
    hide Quot, Rem;
    var x, y := Quot(n, p), Rem(n, p);
    QuotRem(n, p);
    QuotRem(x, r);
    var u, v := Quot(x, r), Rem(x, r);
    MulMono(1, r, p);
    Distribute(u, r, v, p);
    MulMono(v + 1, r, p);
    MulMono(v, v, p);
    assert r * p == p * r;
    QuotIs(n, p * r, u, v * p + y);
  }
}
