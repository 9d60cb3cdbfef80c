/** The in-place fast Walsh-Hadamard transform, the transform it computes, and why that
    transform is its own inverse and an isometry up to the factor n. */
module Hadamard {
  import opened BitStream
  import opened RealSums
  import opened Vectors
  import opened Division

  // ---------- butterflies ----------

  /** Sums of a and b, then their differences. */
  function Butterfly(a: seq<real>, b: seq<real>): (r: seq<real>)
    requires |a| == |b|
    ensures |r| == 2 * |a|
  {
    Plus(a, b) + Minus(a, b)
  }

  lemma PlusConcat(a: seq<real>, b: seq<real>, c: seq<real>, d: seq<real>)
    requires |a| == |c| && |b| == |d|
    ensures Plus(a + b, c + d) == Plus(a, c) + Plus(b, d)
    ensures Minus(a + b, c + d) == Minus(a, c) + Minus(b, d)
  {
  }

  lemma ScaleConcat(c: real, a: seq<real>, b: seq<real>)
    ensures Scale(c, a + b) == Scale(c, a) + Scale(c, b)
  {
  }

  lemma ButterflyPlus(a: seq<real>, b: seq<real>, c: seq<real>, d: seq<real>)
    requires |a| == |b| == |c| == |d|
    ensures Butterfly(Plus(a, c), Plus(b, d)) == Plus(Butterfly(a, b), Butterfly(c, d))
    ensures Butterfly(Minus(a, c), Minus(b, d)) == Minus(Butterfly(a, b), Butterfly(c, d))
  {
    PlusConcat(Plus(a, b), Minus(a, b), Plus(c, d), Minus(c, d));
    assert Plus(Plus(a, c), Plus(b, d)) == Plus(Plus(a, b), Plus(c, d));
    assert Minus(Plus(a, c), Plus(b, d)) == Plus(Minus(a, b), Minus(c, d));
    assert Plus(Minus(a, c), Minus(b, d)) == Minus(Plus(a, b), Plus(c, d));
    assert Minus(Minus(a, c), Minus(b, d)) == Minus(Minus(a, b), Minus(c, d));
  }

  lemma ButterflyScale(c: real, a: seq<real>, b: seq<real>)
    requires |a| == |b|
    ensures Butterfly(Scale(c, a), Scale(c, b)) == Scale(c, Butterfly(a, b))
  {
    hide Times;
    ScaleConcat(c, Plus(a, b), Minus(a, b));
    forall i | 0 <= i < |a|
      ensures Times(c, a[i] + b[i]) == Times(c, a[i]) + Times(c, b[i])
      ensures Times(c, a[i] - b[i]) == Times(c, a[i]) - Times(c, b[i])
    {
      TimesLaws(c, a[i], b[i]);
    }
  }

  /** Butterflying twice doubles both vectors. */
  lemma ButterflyTwice(n: real, a: seq<real>, b: seq<real>)
    requires |a| == |b|
    ensures Butterfly(Plus(Scale(n, a), Scale(n, b)), Minus(Scale(n, a), Scale(n, b))) == Scale(2.0 * n, a + b)
  {
    ScaleConcat(2.0 * n, a, b);
    ScaleDouble(n, a);
    ScaleDouble(n, b);
    hide Scale;
    var p, q := Scale(n, a), Scale(n, b);
    assert Plus(Plus(p, q), Minus(p, q)) == Plus(p, p);
    assert Minus(Plus(p, q), Minus(p, q)) == Plus(q, q);
  }

  lemma ScaleDouble(n: real, a: seq<real>)
    ensures Scale(2.0 * n, a) == Plus(Scale(n, a), Scale(n, a))
  {
    forall i | 0 <= i < |a| ensures Times(2.0 * n, a[i]) == Times(n, a[i]) + Times(n, a[i]) {
    }
  }

  // ---------- the transform ----------

  /** The Walsh-Hadamard transform of a vector of length 2^k, by halves. */
  function Transform(k: nat, u: seq<real>): (r: seq<real>)
    requires |u| == Pow2(k)
    ensures |r| == |u|
    decreases k
  {
    if k == 0 then u
    else
      var h := Pow2(k - 1);
      Butterfly(Transform(k - 1, u[..h]), Transform(k - 1, u[h..]))
  }

  /** Transform of a vector given by its halves. */
  lemma TransformHalves(k: nat, lo: seq<real>, hi: seq<real>)
    requires |lo| == |hi| == Pow2(k)
    ensures |lo + hi| == Pow2(k + 1) && Pow2(k + 1) == 2 * Pow2(k)
    ensures Transform(k + 1, lo + hi) == Butterfly(Transform(k, lo), Transform(k, hi))
  {
    assert (lo + hi)[..Pow2(k)] == lo && (lo + hi)[Pow2(k)..] == hi;
  }

  /** A vector of length 2^k is its two halves. */
  lemma Halves(k: nat, u: seq<real>) returns (lo: seq<real>, hi: seq<real>)
    requires k > 0 && |u| == Pow2(k)
    ensures |lo| == |hi| == Pow2(k - 1) && u == lo + hi
    ensures Transform(k, u) == Butterfly(Transform(k - 1, lo), Transform(k - 1, hi))
  {
    lo, hi := u[..Pow2(k - 1)], u[Pow2(k - 1)..];
    assert u == lo + hi;
  }

  /** Linearity in sums and differences. */
  lemma {:induction false} TransformPlus(k: nat, u: seq<real>, v: seq<real>)
    requires |u| == |v| == Pow2(k)
    ensures Transform(k, Plus(u, v)) == Plus(Transform(k, u), Transform(k, v))
    ensures Transform(k, Minus(u, v)) == Minus(Transform(k, u), Transform(k, v))
    decreases k
  {
    if k > 0 {
      var a, b := Halves(k, u);
      var c, d := Halves(k, v);
      TransformPlus(k - 1, a, c);
      TransformPlus(k - 1, b, d);
      hide Transform, Butterfly, Plus, Minus, Pow2;
      PlusConcat(a, b, c, d);
      TransformHalves(k - 1, Plus(a, c), Plus(b, d));
      TransformHalves(k - 1, Minus(a, c), Minus(b, d));
      ButterflyPlus(Transform(k - 1, a), Transform(k - 1, b), Transform(k - 1, c), Transform(k - 1, d));
    }
  }

  /** Linearity in scalars. */
  lemma {:induction false} TransformScale(k: nat, c: real, u: seq<real>)
    requires |u| == Pow2(k)
    ensures Transform(k, Scale(c, u)) == Scale(c, Transform(k, u))
    decreases k
  {
    if k > 0 {
      var a, b := Halves(k, u);
      TransformScale(k - 1, c, a);
      TransformScale(k - 1, c, b);
      hide Transform, Butterfly, Scale, Pow2;
      ScaleConcat(c, a, b);
      TransformHalves(k - 1, Scale(c, a), Scale(c, b));
      ButterflyScale(c, Transform(k - 1, a), Transform(k - 1, b));
    }
  }

  lemma TwiceStep(k: nat, lo: seq<real>, hi: seq<real>)
    requires |lo| == |hi| == Pow2(k)
    requires Transform(k, Transform(k, lo)) == Scale(Pow2(k) as real, lo)
    requires Transform(k, Transform(k, hi)) == Scale(Pow2(k) as real, hi)
    ensures |lo + hi| == Pow2(k + 1)
    ensures Transform(k + 1, Transform(k + 1, lo + hi)) == Scale(Pow2(k + 1) as real, lo + hi)
  {
    hide Transform, Scale, Plus, Minus, Pow2;
    TransformHalves(k, lo, hi);
    var a, b := Transform(k, lo), Transform(k, hi);
    TransformHalves(k, Plus(a, b), Minus(a, b));
    TransformPlus(k, a, b);
    ButterflyTwice(Pow2(k) as real, lo, hi);
  }

  /** Applying the transform twice multiplies by the length. */
  lemma {:induction false} TransformTwice(k: nat, u: seq<real>)
    requires |u| == Pow2(k)
    ensures Transform(k, Transform(k, u)) == Scale(Pow2(k) as real, u)
    decreases k
  {
    if k > 0 {
      hide Pow2, Transform, Scale;
      var lo, hi := Halves(k, u);
      TransformTwice(k - 1, lo);
      TransformTwice(k - 1, hi);
      TwiceStep(k - 1, lo, hi);
    } else {
      ScaleOne(u);
      assert Pow2(0) == 1;
    }
  }

  lemma Doubled(n: nat, x: real, y: real)
    ensures 2.0 * Times(n as real, x) + 2.0 * Times(n as real, y) == Times((2 * n) as real, x + y)
  {
  }

  lemma InnerStep(k: nat, a: seq<real>, b: seq<real>, c: seq<real>, d: seq<real>)
    requires |a| == |b| == |c| == |d| == Pow2(k)
    requires Inner(Transform(k, a), Transform(k, c)) == Times(Pow2(k) as real, Inner(a, c))
    requires Inner(Transform(k, b), Transform(k, d)) == Times(Pow2(k) as real, Inner(b, d))
    ensures |a + b| == |c + d| == Pow2(k + 1)
    ensures Inner(Transform(k + 1, a + b), Transform(k + 1, c + d)) == Times(Pow2(k + 1) as real, Inner(a + b, c + d))
  {
    hide Transform, Pow2, Inner, Plus, Minus, Times;
    TransformHalves(k, a, b);
    TransformHalves(k, c, d);
    var A, B, C, D := Transform(k, a), Transform(k, b), Transform(k, c), Transform(k, d);
    Parallelogram(A, B, C, D);
    InnerConcat(Plus(A, B), Minus(A, B), Plus(C, D), Minus(C, D));
    InnerConcat(a, b, c, d);
    Doubled(Pow2(k), Inner(a, c), Inner(b, d));
  }

  lemma TimesOne(x: real)
    ensures Times(1.0, x) == x && Pow2(0) == 1
  {
  }

  /** The transform multiplies inner products, hence squared norms, by the length. */
  lemma {:induction false} TransformInner(k: nat, u: seq<real>, v: seq<real>)
    requires |u| == |v| == Pow2(k)
    ensures Inner(Transform(k, u), Transform(k, v)) == Times(Pow2(k) as real, Inner(u, v))
    decreases k
  {
    if k > 0 {
      hide Pow2, Transform, Inner, Times;
      var a, b := Halves(k, u);
      var c, d := Halves(k, v);
      TransformInner(k - 1, a, c);
      TransformInner(k - 1, b, d);
      InnerStep(k - 1, a, b, c, d);
    } else {
      hide Pow2, Inner, Times;
      TimesOne(Inner(u, v));
    }
  }

  // ---------- the Sylvester matrix ----------

  /** Entry (i, j) of the Hadamard matrix of order 2^k in Sylvester's order:
      H(k) = [[H(k-1), H(k-1)], [H(k-1), -H(k-1)]]. */
  function Sylvester(k: nat, i: nat, j: nat): real
    requires i < Pow2(k) && j < Pow2(k)
  {
    if k == 0 then 1.0
    else
      var h := Pow2(k - 1);
      var entry := Sylvester(k - 1, if i < h then i else i - h, if j < h then j else j - h);
      if i >= h && j >= h then -entry else entry
  }

  /** The products of row i of the matrix with u. */
  function RowTimes(k: nat, i: nat, u: seq<real>): nat -> real
    requires |u| == Pow2(k) && i < |u|
  {
    (j: nat) => if j < |u| then Times(Sylvester(k, i, j), u[j]) else 0.0
  }

  /** Index i within its half of a vector of length 2h. */
  function Half(i: nat, h: nat): nat {
    if i < h then i else i - h
  }

  /** The transform is multiplication by the Sylvester-Hadamard matrix. */
  lemma {:induction false} TransformIsMatrix(k: nat, u: seq<real>, i: nat)
    requires |u| == Pow2(k) && i < |u|
    ensures Transform(k, u)[i] == Sum(RowTimes(k, i, u), |u|)
    decreases k
  {
    hide Pow2, Sum, RowTimes, Butterfly, Sylvester;
    if k == 0 {
      OneEntry(u);
    } else {
      hide Transform;
      HalfSize(k);
      var lo, hi := Halves(k, u);
      var i' := Half(i, |lo|);
      TransformIsMatrix(k - 1, lo, i');
      TransformIsMatrix(k - 1, hi, i');
      MatrixStep(k, lo, hi, i);
    }
  }

  lemma MatrixStep(k: nat, lo: seq<real>, hi: seq<real>, i: nat)
    requires k > 0 && |lo| == |hi| == Pow2(k - 1) && |lo + hi| == Pow2(k) && i < Pow2(k)
    requires Transform(k - 1, lo)[Half(i, |lo|)] == Sum(RowTimes(k - 1, Half(i, |lo|), lo), |lo|)
    requires Transform(k - 1, hi)[Half(i, |lo|)] == Sum(RowTimes(k - 1, Half(i, |lo|), hi), |hi|)
    ensures Transform(k, lo + hi)[i] == Sum(RowTimes(k, i, lo + hi), |lo + hi|)
  {
    hide Transform, Pow2, Sum, RowTimes, Butterfly, Sylvester;
    TransformHalves(k - 1, lo, hi);
    ButterflyAt(Transform(k - 1, lo), Transform(k - 1, hi), i);
    HalfRows(k, i, lo, hi);
  }

  lemma ButterflyAt(a: seq<real>, b: seq<real>, i: nat)
    requires |a| == |b| && i < 2 * |a|
    ensures var i' := Half(i, |a|); Butterfly(a, b)[i] == if i < |a| then a[i'] + b[i'] else a[i'] - b[i']
  {
  }

  lemma OneEntry(u: seq<real>)
    requires |u| == Pow2(0)
    ensures |u| == 1 && Sum(RowTimes(0, 0, u), 1) == u[0]
  {
    var f := RowTimes(0, 0, u);
    assert Sum(f, 1) == Sum(f, 0) + f(0);
    assert Sum(f, 0) == 0.0;
    assert f(0) == Times(1.0, u[0]);
  }

  lemma HalfSize(k: nat)
    requires k > 0
    ensures Pow2(k) == 2 * Pow2(k - 1)
  {
  }

  /** Row i of the matrix splits into the row of the half-size matrix, twice, the second
      time with the sign of the lower right block. */
  lemma HalfRows(k: nat, i: nat, lo: seq<real>, hi: seq<real>)
    requires k > 0 && |lo| == |hi| == Pow2(k - 1) && |lo + hi| == Pow2(k) && i < Pow2(k)
    ensures var low, high := Sum(RowTimes(k - 1, Half(i, |lo|), lo), |lo|), Sum(RowTimes(k - 1, Half(i, |lo|), hi), |lo|);
            Sum(RowTimes(k, i, lo + hi), |lo + hi|) == if i < |lo| then low + high else low - high
  {
    hide Sum, Pow2, Sylvester, RowTimes;
    var h, i' := |lo|, Half(i, |lo|);
    var row, low, high := RowTimes(k, i, lo + hi), RowTimes(k - 1, i', lo), RowTimes(k - 1, i', hi);
    forall j: nat | j < h
      ensures row(j) == low(j) && row(h + j) == if i < h then high(j) else -high(j)
    {
      EntryHalves(k, i, j, lo, hi);
    }
    SumEqual(row, low, h);
    if i < h {
      SumSplit(row, high, h, h);
    } else {
      SumSplit(row, Negated(high), h, h);
      SumNegated(high, h);
    }
  }

  lemma TimesNegated(x: real, y: real)
    ensures Times(-x, y) == -Times(x, y)
  {
  }

  /** The four blocks of the matrix. */
  lemma EntryHalves(k: nat, i: nat, j: nat, lo: seq<real>, hi: seq<real>)
    requires k > 0 && |lo| == |hi| == Pow2(k - 1) && |lo + hi| == Pow2(k) && i < Pow2(k) && j < |lo|
    ensures RowTimes(k, i, lo + hi)(j) == RowTimes(k - 1, Half(i, |lo|), lo)(j)
    ensures var high := RowTimes(k - 1, Half(i, |lo|), hi)(j);
            RowTimes(k, i, lo + hi)(|lo| + j) == if i < |lo| then high else -high
  {
    var h, i' := |lo|, Half(i, |lo|);
    assert Sylvester(k, i, j) == Sylvester(k - 1, i', j);
    assert Sylvester(k, i, h + j) == if i < h then Sylvester(k - 1, i', j) else -Sylvester(k - 1, i', j);
    hide Pow2, Sylvester, Times;
    assert (lo + hi)[j] == lo[j] && (lo + hi)[h + j] == hi[j];
    TimesNegated(Sylvester(k - 1, i', j), hi[j]);
  }

  function Negated(f: nat -> real): nat -> real {
    (j: nat) => -f(j)
  }

  lemma {:induction false} SumNegated(f: nat -> real, n: nat)
    ensures Sum(Negated(f), n) == -Sum(f, n)
  {
    if n > 0 {
      SumNegated(f, n - 1);
    }
  }

  // ---------- the butterfly loops ----------

  /** Where block b of length 2^k starts. */
  function Start(b: nat, k: nat): nat {
    b * Pow2(k)
  }

  function Block(u: seq<real>, b: nat, k: nat): (r: seq<real>)
    requires Start(b, k) + Pow2(k) <= |u|
    ensures |r| == Pow2(k)
  {
    u[Start(b, k)..Start(b, k) + Pow2(k)]
  }

  /** Block b of `now` is the transform of block b of `was`. */
  predicate Done(now: seq<real>, was: seq<real>, b: nat, k: nat) {
    |now| == |was| && (Start(b, k) + Pow2(k) <= |was| ==> Block(now, b, k) == Transform(k, Block(was, b, k)))
  }

  lemma PairOfBlocks(c: nat, k: nat)
    ensures Start(2 * c, k) == Start(c, k + 1)
    ensures Start(2 * c + 1, k) == Start(c, k + 1) + Pow2(k)
    ensures Start(c, k + 1) + Pow2(k + 1) == Start(c + 1, k + 1)
    ensures Pow2(k + 1) == 2 * Pow2(k)
  {
    assert c * (2 * Pow2(k)) == (2 * c) * Pow2(k);
    assert (c + 1) * (2 * Pow2(k)) == c * (2 * Pow2(k)) + 2 * Pow2(k);
    assert (2 * c + 1) * Pow2(k) == (2 * c) * Pow2(k) + Pow2(k);
  }

  /** A pass over one pair of blocks turns two transforms of length 2^k into one of 2^(k+1). */
  lemma BlocksMerge(before: seq<real>, now: seq<real>, was: seq<real>, c: nat, k: nat)
    requires |before| == |now| == |was| && Start(c, k + 1) + Pow2(k + 1) <= |was|
    requires Done(before, was, 2 * c, k) && Done(before, was, 2 * c + 1, k)
    requires Butterflied(before, now, Start(c, k + 1), Pow2(k))
    ensures Done(now, was, c, k + 1)
  {
    PairOfBlocks(c, k);
    hide Start, Pow2, Transform;
    var lo, hi := Block(was, 2 * c, k), Block(was, 2 * c + 1, k);
    TransformHalves(k, lo, hi);
    assert Block(was, c, k + 1) == lo + hi;
    var a, b := Block(before, 2 * c, k), Block(before, 2 * c + 1, k);
    assert Block(now, c, k + 1) == Butterfly(a, b);
  }

  /** The effect of the inner loop: sums in the first block, differences in the second. */
  predicate Butterflied(before: seq<real>, now: seq<real>, i: nat, len: nat) {
    |before| == |now| && i + 2 * len <= |now| &&
    (forall j | i <= j < i + len :: now[j] == before[j] + before[j + len]) &&
    (forall j | i + len <= j < i + 2 * len :: now[j] == before[j - len] - before[j]) &&
    (forall j | 0 <= j < |now| && (j < i || i + 2 * len <= j) :: now[j] == before[j])
  }

  /** The inner loop has handled the pairs (x, x + len) for i <= x < j. */
  predicate Upto(before: seq<real>, now: seq<real>, i: nat, len: nat, j: nat) {
    |before| == |now| && i <= j <= i + len && i + 2 * len <= |now| &&
    (forall x | i <= x < j :: now[x] == before[x] + before[x + len]) &&
    (forall x | i + len <= x < j + len :: now[x] == before[x - len] - before[x]) &&
    (forall x | 0 <= x < |now| && (x < i || j <= x < i + len || j + len <= x) :: now[x] == before[x])
  }

  lemma OnePair(before: seq<real>, now: seq<real>, i: nat, len: nat, j: nat)
    requires Upto(before, now, i, len, j) && j < i + len
    ensures var a, b := now[j], now[j + len];
            Upto(before, now[j := a + b][j + len := a - b], i, len, j + 1)
  {
  }

  /** One butterfly. */
  method StorePair(u: array<real>, j: nat, len: nat)
    requires 0 < len && j + len < u.Length
    modifies u
    ensures u[..] == old(u[..])[j := old(u[j]) + old(u[j + len])][j + len := old(u[j]) - old(u[j + len])]
  {
    var a, b := u[j], u[j + len];
    u[j] := a + b;
    u[j + len] := a - b;
  }

  method Butterflies(u: array<real>, i: nat, len: nat)
    requires i + 2 * len <= u.Length
    modifies u
    ensures Butterflied(old(u[..]), u[..], i, len)
  {
    ghost var before := u[..];
    hide Upto, Butterflied;
    var j := i;
    NoPairs(before, i, len);
    while j < i + len
      invariant Upto(before, u[..], i, len, j)
    {
      ghost var now := u[..];
      OnePair(before, now, i, len, j);
      Inside(before, now, i, len, j);
      StorePair(u, j, len);
      j := j + 1;
    }
    AllPairs(before, u[..], i, len, j);
  }

  lemma AllPairs(before: seq<real>, now: seq<real>, i: nat, len: nat, j: nat)
    requires Upto(before, now, i, len, j) && j >= i + len
    ensures Butterflied(before, now, i, len)
  {
  }

  lemma NoPairs(u: seq<real>, i: nat, len: nat)
    requires i + 2 * len <= |u|
    ensures Upto(u, u, i, len, i)
  {
  }

  lemma Inside(before: seq<real>, now: seq<real>, i: nat, len: nat, j: nat)
    requires Upto(before, now, i, len, j)
    ensures j <= i + len && i + 2 * len <= |now|
  {
  }

  /** A block outside the butterflied range is unchanged. */
  lemma OtherBlock(before: seq<real>, now: seq<real>, was: seq<real>, i: nat, len: nat, b: nat, k: nat)
    requires Butterflied(before, now, i, len) && Done(before, was, b, k)
    requires Start(b, k) + Pow2(k) <= i || i + 2 * len <= Start(b, k)
    ensures Done(now, was, b, k)
  {
    hide Start, Pow2, Transform;
    if Start(b, k) + Pow2(k) <= |was| {
      assert Block(now, b, k) == Block(before, b, k);
    }
  }

  lemma StartMonotone(b: nat, c: nat, k: nat)
    ensures b <= c ==> Start(b, k) <= Start(c, k)
    ensures Start(b + 1, k) == Start(b, k) + Pow2(k)
  {
    MulMono(b, c, Pow2(k));
  }

  /** The first c blocks of length 2^(k+1) are transformed, the rest only up to length 2^k. */
  ghost predicate Underway(now: seq<real>, was: seq<real>, k: nat, c: nat) {
    DoneBelow(now, was, k + 1, c) && DoneFrom(now, was, k, 2 * c)
  }

  ghost predicate DoneBelow(now: seq<real>, was: seq<real>, k: nat, c: nat) {
    forall b: nat | b < c :: Done(now, was, b, k)
  }

  ghost predicate DoneFrom(now: seq<real>, was: seq<real>, k: nat, c: nat) {
    forall b: nat | c <= b :: Done(now, was, b, k)
  }

  /** One turn of the middle loop. */
  lemma Advance(before: seq<real>, now: seq<real>, was: seq<real>, k: nat, c: nat)
    requires |before| == |was| && Start(c, k + 1) + Pow2(k + 1) <= |was|
    requires Underway(before, was, k, c) && Butterflied(before, now, Start(c, k + 1), Pow2(k))
    ensures Underway(now, was, k, c + 1)
  {
    assert |now| == |before|;
    hide Start, Pow2, Transform, Done, Butterflied;
    assert Done(before, was, 2 * c, k) && Done(before, was, 2 * c + 1, k);
    BlocksMerge(before, now, was, c, k);
    KeepBelow(before, now, was, k, c);
    KeepFrom(before, now, was, k, c);
  }

  lemma KeepBelow(before: seq<real>, now: seq<real>, was: seq<real>, k: nat, c: nat)
    requires Butterflied(before, now, Start(c, k + 1), Pow2(k)) && DoneBelow(before, was, k + 1, c)
    ensures DoneBelow(now, was, k + 1, c)
  {
    hide Start, Pow2, Transform, Done, Butterflied;
    var k' := k + 1;
    forall b: nat | b < c ensures Done(now, was, b, k') {
      StartMonotone(b + 1, c, k');
      StartMonotone(b, c, k');
      OtherBlock(before, now, was, Start(c, k'), Pow2(k), b, k');
    }
  }

  lemma KeepFrom(before: seq<real>, now: seq<real>, was: seq<real>, k: nat, c: nat)
    requires Butterflied(before, now, Start(c, k + 1), Pow2(k)) && DoneFrom(before, was, k, 2 * c)
    ensures DoneFrom(now, was, k, 2 * (c + 1))
  {
    PairOfBlocks(c, k);
    PairOfBlocks(c + 1, k);
    hide Start, Pow2, Transform, Done, Butterflied;
    forall b: nat | 2 * (c + 1) <= b ensures Done(now, was, b, k) {
      StartMonotone(2 * (c + 1), b, k);
      OtherBlock(before, now, was, Start(c, k + 1), Pow2(k), b, k);
    }
  }

  /** The inner loop stays inside a prefix that holds both blocks. */
  lemma Within(before: seq<real>, now: seq<real>, i: nat, len: nat, n: nat)
    requires Butterflied(before, now, i, len) && i + 2 * len <= n <= |now|
    ensures Butterflied(before[..n], now[..n], i, len) && now[n..] == before[n..]
  {
  }

  /** One pass of span len = 2^k over the first n cells. */
  method Pass(u: array<real>, n: nat, len: nat, ghost was: seq<real>, ghost k: nat, ghost blocks: nat)
    requires len == Pow2(k) && n == Start(blocks, k + 1) == |was| && n <= u.Length
    requires Underway(u[..n], was, k, 0)
    modifies u
    ensures Underway(u[..n], was, k, blocks)
    ensures u[n..] == old(u[n..])
  {
    hide Pow2, Transform, Start, Underway;
    var i := 0;
    ghost var c := 0;
    StartZero(k + 1);
    while i < n
      invariant i == Start(c, k + 1) <= n && c <= blocks
      invariant Underway(u[..n], was, k, c)
      invariant u[n..] == old(u[n..])
      decreases n - i
    {
      ghost var before := u[..];
      PairOfBlocks(c, k);
      StartMonotone(blocks, c, k + 1);
      StartMonotone(c + 1, blocks, k + 1);
      Butterflies(u, i, len);
      Within(before, u[..], i, len, n);
      Advance(before[..n], u[..n], was, k, c);
      i, c := i + 2 * len, c + 1;
    }
    StartMonotone(c + 1, blocks, k + 1);
    StartMonotone(c, c, k + 1);
    assert c >= blocks;
  }

  lemma StartZero(k: nat)
    ensures Start(0, k) == 0
  {
  }

  /** Before the first pass every block of length 1 is its own transform. */
  lemma SpanOne(was: seq<real>)
    ensures Underway(was, was, 0, 0) && Pow2(0) == 1
  {
  }

  /** After a pass every block of twice the length is done. */
  lemma NextSpan(now: seq<real>, was: seq<real>, k: nat, blocks: nat)
    requires |was| == Start(blocks, k) && DoneBelow(now, was, k, blocks) && |now| == |was|
    ensures Underway(now, was, k, 0)
  {
    hide Start, Transform, Pow2;
    forall b: nat ensures Done(now, was, b, k) {
      if b >= blocks {
        StartMonotone(blocks, b, k);
        StartMonotone(b, b, k);
      }
    }
  }

  lemma LastSpan(now: seq<real>, was: seq<real>, k: nat)
    requires |was| == |now| == Pow2(k) && Underway(now, was, k, 0)
    ensures now == Transform(k, was)
  {
    StartZero(k);
    hide Start, Transform, Pow2;
    assert Done(now, was, 0, k);
    assert Block(now, 0, k) == now && Block(was, 0, k) == was;
  }

  /** Spans below n divide n. */
  lemma SpanDivides(k: nat, top: nat)
    ensures k < top ==> Pow2(top) == Start(Pow2(top - k - 1), k + 1)
    ensures k >= top ==> Pow2(k) >= Pow2(top)
    ensures Pow2(k + 1) == 2 * Pow2(k)
  {
    if k < top {
      Pow2Add(top - k - 1, k + 1);
    } else {
      Pow2Monotone(top, k);
    }
  }

  /** The iterative transform: spans 1, 2, 4, ... below n. It leaves exactly the transform
      in the first n cells and touches nothing else. */
  method Fwht(u: array<real>, n: nat, ghost top: nat)
    requires n == Pow2(top) <= u.Length
    modifies u
    ensures u[..n] == Transform(top, old(u[..n]))
    ensures u[n..] == old(u[n..])
  {
    hide Transform, Pow2, DoneBelow, DoneFrom, Start;
    var len := 1;
    ghost var k, was := 0, u[..n];
    SpanOne(was);
    while len < n
      invariant k <= top && len == Pow2(k)
      invariant Underway(u[..n], was, k, 0)
      invariant u[n..] == old(u[n..])
      decreases n - len
    {
      SpanDivides(k, top);
      Pass(u, n, len, was, k, Pow2(top - k - 1));
      assert DoneBelow(u[..n], was, k + 1, Pow2(top - k - 1));
      NextSpan(u[..n], was, k + 1, Pow2(top - k - 1));
      len, k := 2 * len, k + 1;
    }
    SpanBelow(k, top);
    LastSpan(u[..n], was, top);
  }

  lemma {:induction false} SpanBelow(k: nat, top: nat)
    ensures k < top ==> Pow2(k) < Pow2(top)
  {
    if k < top {
      Pow2Monotone(k, top - 1);
    }
  }

  // ---------- which lengths the loops can run on ----------

  /** Pair c of blocks of span 2^k, if the loops visit it, lies within n cells. */
  predicate PairFits(n: nat, k: nat, c: nat) {
    Pow2(k) < n && Start(c, k + 1) < n ==> Start(c, k + 1) + 2 * Pow2(k) <= n
  }

  ghost predicate SpansFit(n: nat) {
    forall k: nat, c: nat :: PairFits(n, k, c)
  }

  lemma PairsOfPowerFit(top: nat, k: nat, c: nat)
    ensures PairFits(Pow2(top), k, c)
  {
    SpanDivides(k, top);
    hide Pow2, Start;
    if k < top {
      StartMonotone(Pow2(top - k - 1), c, k + 1);
      StartMonotone(c + 1, Pow2(top - k - 1), k + 1);
      StartMonotone(c, c, k + 1);
    }
  }

  /** The largest power of two below n. */
  lemma {:induction false} LastSpanBelow(n: nat) returns (k: nat)
    requires n > 1
    ensures Pow2(k) < n <= Pow2(k + 1)
  {
    if n == 2 {
      k := 0;
      assert Pow2(1) == 2;
    } else {
      k := LastSpanBelow(n - 1);
      if n > Pow2(k + 1) {
        k := k + 1;
      }
    }
  }

  /** The loops stay inside the vector exactly for powers of two (and the empty vector). */
  lemma SpansFitIffPower(n: nat)
    ensures SpansFit(n) <==> n == 0 || exists t: nat :: n == Pow2(t)
  {
    hide Start;
    if t: nat :| n == Pow2(t) {
      forall k: nat, c: nat ensures PairFits(n, k, c) {
        PairsOfPowerFit(t, k, c);
      }
    }
    if SpansFit(n) && n == 1 {
      assert n == Pow2(0);
    } else if SpansFit(n) && n > 1 {
      var k := LastSpanBelow(n);
      StartZero(k + 1);
      assert PairFits(n, k, 0);
      assert n == Pow2(k + 1);
    }
  }
}
