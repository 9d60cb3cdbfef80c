/** The key codec in closed form: signs of the transform, group scales and stored rows. */
module KeyMeaning {
  import opened RealSums
  import opened Vectors
  import opened BitStream
  import opened Hadamard
  import opened Centroids
  import opened CodecFormat
  import opened KeyCodec

  // ---------- the signs of the transform ----------

  /** -1 to the number of positions at which both i and j have a one bit. */
  function Sign(i: nat, j: nat): real {
    if i == 0 || j == 0 then 1.0
    else (if i % 2 == 1 && j % 2 == 1 then -1.0 else 1.0) * Sign(i / 2, j / 2)
  }

  lemma SignStep(i: nat, j: nat)
    ensures Sign(i, j) == (if i % 2 == 1 && j % 2 == 1 then -1.0 else 1.0) * Sign(i / 2, j / 2)
  {
  }

  /** i with bit k added. */
  function WithTop(i: nat, top: bool, k: nat): nat {
    if top then i + Pow2(k) else i
  }

  lemma HalfWithTop(i: nat, top: bool, k: nat)
    requires k > 0 && i < Pow2(k)
    ensures WithTop(i, top, k) / 2 == WithTop(i / 2, top, k - 1) && WithTop(i, top, k) % 2 == i % 2 && i / 2 < Pow2(k - 1)
  {
  }

  lemma SmallSigns(a: bool, b: bool)
    ensures Sign(WithTop(0, a, 0), WithTop(0, b, 0)) == if a && b then -1.0 else 1.0
  {
    assert Sign(0, 0) == 1.0 && Sign(0, 1) == 1.0 && Sign(1, 0) == 1.0;
    SignStep(1, 1);
    assert Pow2(0) == 1;
  }

  /** A common top bit flips the sign. */
  lemma {:induction false} SignTop(k: nat, i: nat, j: nat, a: bool, b: bool)
    requires i < Pow2(k) && j < Pow2(k)
    ensures Sign(WithTop(i, a, k), WithTop(j, b, k)) == (if a && b then -Sign(i, j) else Sign(i, j))
  {
    if k == 0 {
      SmallSigns(a, b);
      assert Sign(0, 0) == 1.0;
    } else {
      hide Sign, Pow2, WithTop;
      HalfWithTop(i, a, k);
      HalfWithTop(j, b, k);
      SignStep(WithTop(i, a, k), WithTop(j, b, k));
      SignStep(i, j);
      SignTop(k - 1, i / 2, j / 2, a, b);
    }
  }

  /** Sylvester's matrix has at (i, j) the parity of the bits that i and j share. */
  lemma {:induction false} SylvesterIsSign(k: nat, i: nat, j: nat)
    requires i < Pow2(k) && j < Pow2(k)
    ensures Sylvester(k, i, j) == Sign(i, j)
  {
    if k > 0 {
      var h := Pow2(k - 1);
      HalfSize(k);
      var i', j' := if i < h then i else i - h, if j < h then j else j - h;
      SylvesterIsSign(k - 1, i', j');
      SignTop(k - 1, i', j', i >= h, j >= h);
    }
  }

  lemma TimesIs(x: real, y: real)
    ensures Times(x, y) == x * y
  {
  }

  lemma TwoTimes(x: real, y: real, z: real)
    ensures Times(Times(x, y), z) == x * y * z
  {
  }

  // ---------- rotation and inverse rotation ----------

  /** Element i of the rotated key: the signed sum over the key, times 1/sqrt(n). */
  lemma RotatedIs(f: KeyFormat, top: nat, key: seq<real>, i: nat)
    requires |key| == |f.signs| == Pow2(top) && i < |key|
    ensures Rotated(f, top, key)[i] ==
            f.invRoot * Sum((j: nat) => if j < |key| then Sign(i, j) * (key[j] * f.signs[j]) else 0.0, |key|)
  {
    hide Transform, Sum, Sign, Sylvester, Times;
    var u := Signed(key, f.signs);
    TransformIsMatrix(top, u, i);
    forall j: nat | j < |key| ensures RowTimes(top, i, u)(j) == Sign(i, j) * (key[j] * f.signs[j]) {
      SylvesterIsSign(top, i, j);
      TimesIs(key[j], f.signs[j]);
      TimesIs(Sign(i, j), u[j]);
    }
    SumEqual(RowTimes(top, i, u), (j: nat) => if j < |key| then Sign(i, j) * (key[j] * f.signs[j]) else 0.0, |key|);
    TimesIs(f.invRoot, Sum((j: nat) => if j < |key| then Sign(i, j) * (key[j] * f.signs[j]) else 0.0, |key|));
  }

  /** Element i of a decoded row: the signed sum over the dequantised row, times 1/sqrt(n)
      and the element's sign. */
  lemma UnrotatedIs(f: KeyFormat, top: nat, y: seq<real>, i: nat)
    requires |y| == |f.signs| == Pow2(top) && i < |y|
    ensures Unrotated(f, top, y)[i] ==
            f.invRoot * Sum((j: nat) => if j < |y| then Sign(i, j) * y[j] else 0.0, |y|) * f.signs[i]
  {
    hide Transform, Sum, Sign, Sylvester, Times;
    TransformIsMatrix(top, y, i);
    forall j: nat | j < |y| ensures RowTimes(top, i, y)(j) == Sign(i, j) * y[j] {
      SylvesterIsSign(top, i, j);
      TimesIs(Sign(i, j), y[j]);
    }
    SumEqual(RowTimes(top, i, y), (j: nat) => if j < |y| then Sign(i, j) * y[j] else 0.0, |y|);
    TwoTimes(f.invRoot, Sum((j: nat) => if j < |y| then Sign(i, j) * y[j] else 0.0, |y|), f.signs[i]);
  }

  // ---------- group scales ----------

  /** The square root is the one that is not negative. */
  ghost predicate TrueRoot(f: KeyFormat) {
    forall x: real | x >= 0.0 :: f.sqrt(x) >= 0.0 && f.sqrt(x) * f.sqrt(x) == x
  }

  lemma {:induction false} SquaresNonneg(a: seq<real>, n: nat)
    requires n <= |a|
    ensures Dot(At(a), At(a), n) >= 0.0
  {
    if n > 0 {
      SquaresNonneg(a, n - 1);
      DotOneMore(a, a, n - 1);
      SquareNonneg(a[n - 1]);
      hide Dot, Times;
    }
  }

  lemma SquareNonneg(x: real)
    ensures Times(x, x) >= 0.0
  {
  }

  lemma Thirtysecond(r: real, ss: real)
    requires r * r == ss / 32.0
    ensures 32.0 * (r * r) == ss
  {
  }

  /** The scale of group g is the fp16 rounding of its root mean square: of the r with
      32 * r * r the sum of the squares of the group's 32 elements. A scale that rounds to
      zero is replaced by one. */
  lemma ScaleIsRms(f: KeyFormat, y: seq<real>, g: nat) returns (r: real)
    requires g * 32 + 32 <= |y| && f.f16(1.0) != 0.0 && TrueRoot(f)
    ensures r >= 0.0
    ensures 32.0 * (r * r) == Dot((j: nat) => if g * 32 + j < |y| then y[g * 32 + j] else 0.0,
                                  (j: nat) => if g * 32 + j < |y| then y[g * 32 + j] else 0.0, 32)
    ensures GroupScale(f, y, g) == if f.f16(r) == 0.0 then f.f16(1.0) else f.f16(r)
  {
    hide Dot;
    var group := Group(y, g);
    SquaresNonneg(group, 32);
    var ss := Inner(group, group);
    r := f.sqrt(ss / 32.0);
    assert ss / 32.0 >= 0.0;
    Thirtysecond(r, ss);
    var e := (j: nat) => if g * 32 + j < |y| then y[g * 32 + j] else 0.0;
    DotEqual(At(group), At(group), e, e, 32);
  }

  // ---------- a key stored and loaded ----------

  /** q is a centroid times the stored scale, and no centroid times that scale is nearer
      to y; of equally near ones it is the lowest. */
  ghost predicate IsNearest(f: KeyFormat, y: real, scale: real, q: real) {
    scale != 0.0 && exists c: nat :: c < |f.centroids| && IsCode(f, y, scale, c) && q == f.centroids[c] * scale
  }

  predicate IsCode(f: KeyFormat, y: real, scale: real, c: nat)
    requires c < |f.centroids| && scale != 0.0
  {
    Nearest(y / scale, f.centroids, c) && LowerAreFarther(y / scale, f.centroids, c)
  }

  lemma CodeIs(f: KeyFormat, y: seq<real>, i: nat)
    requires i < |y| && |y| % GROUP == 0 && f.f16(1.0) != 0.0 && |f.centroids| > 0
    ensures i / 32 * 32 + 32 <= |y|
    ensures Code(f, y, i) == MidpointsBelow(y[i] / GroupScale(f, y, i / 32), f.centroids, |f.centroids| - 1)
    ensures Quantised(f, y)[i] == f.centroids[Code(f, y, i)] * GroupScale(f, y, i / 32)
  {
    hide GroupScale, MidpointsBelow;
    assert Quantised(f, y)[i] == QuantisedAt(f, y, i);
  }

  lemma CodeIsCode(f: KeyFormat, y: real, scale: real, c: nat, q: real)
    requires scale != 0.0 && c < |f.centroids| && StrictlyAscending(f.centroids)
    requires c == MidpointsBelow(y / scale, f.centroids, |f.centroids| - 1) && q == f.centroids[c] * scale
    ensures IsNearest(f, y, scale, q)
  {
    hide Nearest, LowerAreFarther, StrictlyAscending, MidpointsBelow;
    CountIsLowestNearest(y / scale, f.centroids, c);
    assert IsCode(f, y, scale, c);
  }

  /** Each quantised element, with the scale of its group of 32. */
  lemma QuantisedIs(f: KeyFormat, y: seq<real>, i: nat)
    requires i < |y| && |y| % 32 == 0 && f.f16(1.0) != 0.0 && |f.centroids| > 0 && StrictlyAscending(f.centroids)
    ensures i / 32 * 32 + 32 <= |y|
    ensures IsNearest(f, y[i], GroupScale(f, y, i / 32), Quantised(f, y)[i])
  {
    hide GroupScale, MidpointsBelow, IsNearest, StrictlyAscending, Quantised, Code;
    CodeIs(f, y, i);
    CodeIsCode(f, y[i], GroupScale(f, y, i / 32), Code(f, y, i), Quantised(f, y)[i]);
  }

  predicate IsRotated(f: KeyFormat, key: seq<real>, i: nat, v: real)
    requires |key| == |f.signs|
  {
    v == f.invRoot * Sum((j: nat) => if j < |key| then Sign(i, j) * (key[j] * f.signs[j]) else 0.0, |key|)
  }

  predicate IsRestored(f: KeyFormat, q: seq<real>, i: nat, v: real)
    requires i < |q| == |f.signs|
  {
    v == f.invRoot * Sum((j: nat) => if j < |q| then Sign(i, j) * q[j] else 0.0, |q|) * f.signs[i]
  }

  /** The whole trip in closed form: y is the rotated key, q its quantised form, and the
      output the inverse rotation of q, all as explicit sums. */
  ghost predicate IsTrip(f: KeyFormat, key: seq<real>, y: seq<real>, q: seq<real>, out: seq<real>)
    requires |key| == |y| == |q| == |out| == |f.signs| && |y| % 32 == 0 && f.f16(1.0) != 0.0
  {
    && (forall i: nat | i < |key| :: IsRotated(f, key, i, y[i]))
    && (forall i: nat | i < |key| :: IsNearest(f, y[i], GroupScale(f, y, i / 32), q[i]))
    && (forall i: nat | i < |key| :: IsRestored(f, q, i, out[i]))
  }

  lemma TripIs(f: KeyFormat, top: nat, key: seq<real>)
    requires f.Valid(top) && f.keyBits < 8 && StrictlyAscending(f.centroids) && |key| == f.headSize
    ensures |key| == |f.signs| == Pow2(top) && |key| % 32 == 0 && |f.centroids| > 0
    ensures var y := Rotated(f, top, key);
            IsTrip(f, key, y, Quantised(f, y), Unrotated(f, top, Quantised(f, y)))
  {
    hide Pow2, Rotated, Unrotated, Quantised, IsNearest, GroupScale, StrictlyAscending, Sum, Sign;
    var y := Rotated(f, top, key);
    var q := Quantised(f, y);
    forall i: nat | i < |key|
      ensures IsRotated(f, key, i, y[i])
      ensures IsNearest(f, y[i], GroupScale(f, y, i / 32), q[i])
      ensures IsRestored(f, q, i, Unrotated(f, top, q)[i])
    {
      RotatedIs(f, top, key, i);
      QuantisedIs(f, y, i);
      UnrotatedIs(f, top, q, i);
    }
  }

  /** One key written to a cache slot and read back. */
  method StoreAndLoadKey(key: seq<real>, row: array<u8>, groupScales: array<real>, f: KeyFormat,
                         out: array<real>, scratch: array<real>, ghost top: nat)
    returns (ghost y: seq<real>, ghost q: seq<real>)
    requires f.Valid(top) && f.keyBits < 8 && StrictlyAscending(f.centroids)
    requires |key| == f.headSize <= scratch.Length && f.headSize <= out.Length
    requires out != scratch && out != groupScales && scratch != groupScales
    requires RowBytes(f.headSize, f.keyBits) <= row.Length && f.headSize <= groupScales.Length * GROUP
    modifies row, groupScales, scratch, out
    ensures |y| == |q| == |key| == |f.signs| && |y| % 32 == 0 && IsTrip(f, key, y, q, out[..f.headSize])
  {
    hide Pow2, Rotated, Unrotated, Quantised, IsTrip, Inner, StrictlyAscending;
    TripIs(f, top, key);
    y := Rotated(f, top, key);
    q := Quantised(f, y);
    StoreAndLoad(key, row, groupScales, f, out, scratch, top);
  }
}
