/** The value codec without rounding of its parameters: the grid is stretched exactly over
    the group. */
module ValueMeaning {
  import opened RealSums
  import opened Vectors
  import opened BitStream
  import opened CodecFormat
  import opened ValueCodec

  /** The fp16 rounding is exact. */
  ghost predicate ExactRounding(f: ValueFormat) {
    forall x: real :: f.f16(x) == x
  }

  /** Number of steps of the grid, and its ends: -128 .. 127 for the signed 8-bit grid,
      0 .. 2^bits - 1 otherwise. Both have 2^bits - 1 steps. */
  lemma GridSteps(f: ValueFormat)
    requires f.Valid()
    ensures f.CMax() - f.CMin() == Pow2(f.valueBits) - 1 >= 3
    ensures f.CMin() == if f.valueSigned && f.valueBits == 8 then -128 else 0
  {
    GridWidth(f);
    Pow2Eight();
  }

  lemma LeastIs(x: seq<real>, g: nat, lo: real, hi: real)
    requires g * 32 + 32 <= |x|
    requires (forall i | g * 32 <= i < g * 32 + 32 :: lo <= x[i] <= hi) && lo in x[g * 32..g * 32 + 32] && hi in x[g * 32..g * 32 + 32]
    ensures Lo(x, g) == lo && Hi(x, g) == hi
  {
    hide Least, Greatest;
    Bounds(x, g * GROUP, GROUP);
    var part := x[g * 32..g * 32 + 32];
    forall v | v in part ensures lo <= v <= hi && Lo(x, g) <= v <= Hi(x, g) {
      var k :| 0 <= k < |part| && part[k] == v;
      assert x[g * 32 + k] == v;
    }
  }

  lemma ScaledUp(a: real, w: real)
    requires w > 0.0
    ensures (a / w) * w == a && (a > 0.0 ==> a / w > 0.0) && (a == 0.0 ==> a / w == 0.0)
  {
  }

  /** Steps divide a positive span into equal parts. */
  lemma StepCount(span: real, w: real)
    requires w > 0.0 && span > 0.0
    ensures span / w > 0.0 && span / (span / w) == w
  {
    ScaledUp(span, w);
    var s := span / w;
    assert s * w == span;
    assert span / s == w by {
      assert (span / s) * s == span;
      assert (span / s - w) * s == 0.0;
    }
  }

  /** The group's scale and zero, when nothing is rounded: a span is divided into the
      grid's steps with lo on the lowest point; a constant group is its own zero. */
  lemma ExactAffine(f: ValueFormat, x: seq<real>, g: nat)
    requires f.Valid() && ExactRounding(f) && g * 32 + 32 <= |x|
    ensures var a, lo, hi, w := AffineOf(f, x, g), Lo(x, g), Hi(x, g), (Pow2(f.valueBits) - 1) as real;
            && (lo < hi ==> a.scale == (hi - lo) / w && a.scale > 0.0 && a.zero == lo / a.scale - f.CMin() as real && OffsetOf(f, x, g) == f.CMin())
            && (lo == hi ==> a == Affine(1.0, lo) && OffsetOf(f, x, g) == 0)
  {
    GridSteps(f);
    hide Least, Greatest, Pow2, ValueFormat.CMin, ValueFormat.CMax;
    ScaledUp(Hi(x, g) - Lo(x, g), (Pow2(f.valueBits) - 1) as real);
  }

  lemma CoordinateIs(a: Affine, lo: real, cmin: int, v: real)
    requires a.scale > 0.0 && lo <= v && a.zero == lo / a.scale - cmin as real
    ensures Coordinate(a, v) == (v - lo) / a.scale + cmin as real
  {
    QuotientMonotone(lo, v, a.scale);
  }

  lemma RoundsToItself(c: int)
    ensures RoundHalfAway(c as real) == c
  {
  }

  /** The least value of a group is stored as the lowest grid point and the greatest as the
      highest, and both come back exactly. */
  lemma EndsAreExact(f: ValueFormat, x: seq<real>, g: nat)
    requires f.Valid() && ExactRounding(f) && g * 32 + 32 <= |x| && Lo(x, g) < Hi(x, g)
    ensures var a, lo, hi := AffineOf(f, x, g), Lo(x, g), Hi(x, g);
            && GridPoint(f, a, lo) == f.CMin() && GridPoint(f, a, hi) == f.CMin() + Pow2(f.valueBits) - 1
            && Restored(a, GridPoint(f, a, lo)) == lo && Restored(a, GridPoint(f, a, hi)) == hi
  {
    var a, lo, hi := AffineOf(f, x, g), Lo(x, g), Hi(x, g);
    hide Least, Greatest, Lo, Hi, Pow2, ValueFormat.CMin, ValueFormat.CMax, AffineOf, OffsetOf, RoundHalfAway, Restored, Coordinate, GridPoint;
    GridSteps(f);
    ExactAffine(f, x, g);
    var w := (Pow2(f.valueBits) - 1) as real;
    StepCount(hi - lo, w);
    CoordinateIs(a, lo, f.CMin(), lo);
    CoordinateIs(a, lo, f.CMin(), hi);
    assert (lo - lo) / a.scale == 0.0;
    GridPointAt(f, a, lo);
    GridPointAt(f, a, hi);
    RoundsToItself(f.CMin());
    RoundsToItself(f.CMax());
    assert f.CMin() as real + w == f.CMax() as real;
    RestoredExactly(a, lo, f.CMin());
    RestoredExactly(a, hi, f.CMax());
  }

  /** A value whose coordinate is the grid point itself comes back exactly. */
  lemma RestoredExactly(a: Affine, v: real, c: int)
    requires a.scale > 0.0 && Coordinate(a, v) == c as real
    ensures Restored(a, c) == v
  {
    RestoredError(a, v, c);
    assert Times(0.0, a.scale) == 0.0;
  }

  /** Every element of a group comes back within half a step, a step being the group's span
      over the 2^bits - 1 steps of the grid; a constant group comes back exactly. */
  lemma WithinHalfAStep(f: ValueFormat, x: seq<real>, i: nat)
    requires f.Valid() && ExactRounding(f) && i < |x| && |x| % 32 == 0
    ensures i / 32 * 32 + 32 <= |x|
    ensures var lo, hi := Lo(x, i / 32), Hi(x, i / 32);
            Abs(Restored(AffineOf(f, x, i / 32), PointOf(f, x, i)) - x[i]) <= 0.5 * ((hi - lo) / (Pow2(f.valueBits) - 1) as real)
  {
    var g := i / 32;
    var a, lo, hi := AffineOf(f, x, g), Lo(x, g), Hi(x, g);
    Bounds(x, g * GROUP, GROUP);
    hide Least, Greatest, Lo, Hi, Pow2, ValueFormat.CMin, ValueFormat.CMax, AffineOf, OffsetOf, RoundHalfAway, Restored, Coordinate, GridPoint;
    assert PointOf(f, x, i) == GridPoint(f, a, x[i]);
    assert lo <= x[i] <= hi;
    GridSteps(f);
    ExactAffine(f, x, g);
    if lo < hi {
      InsideGrid(f, a, lo, hi, x[i]);
    } else {
      ConstantGroup(f, a, x[i]);
    }
  }

  lemma InsideGrid(f: ValueFormat, a: Affine, lo: real, hi: real, v: real)
    requires f.Valid() && lo < hi && lo <= v <= hi && a.scale == (hi - lo) / (Pow2(f.valueBits) - 1) as real && a.scale > 0.0
    requires a.zero == lo / a.scale - f.CMin() as real
    ensures Abs(Restored(a, GridPoint(f, a, v)) - v) <= 0.5 * a.scale
  {
    hide Pow2, ValueFormat.CMin, ValueFormat.CMax, RoundHalfAway, Restored, Coordinate, GridPoint;
    GridSteps(f);
    StepCount(hi - lo, (Pow2(f.valueBits) - 1) as real);
    CoordinateIs(a, lo, f.CMin(), v);
    QuotientMonotone(0.0, v - lo, a.scale);
    QuotientMonotone(v - lo, hi - lo, a.scale);
    assert 0.0 / a.scale == 0.0;
    WithinHalfIff(f, a, v);
    assert Times(0.5, a.scale) == 0.5 * a.scale;
  }

  lemma ConstantGroup(f: ValueFormat, a: Affine, v: real)
    requires f.Valid() && a == Affine(1.0, v)
    ensures Restored(a, GridPoint(f, a, v)) == v
  {
    GridWidth(f);
    hide Pow2, ValueFormat.CMin, ValueFormat.CMax;
    assert Coordinate(a, v) == 0.0;
    RoundsToItself(0);
    RestoredExactly(a, v, 0);
  }

  /** When the stored scale is not below the exact step, nothing overshoots the top of the
      grid by more than the zero's own error. */
  lemma RoundedUpScale(f: ValueFormat, a: Affine, lo: real, hi: real, v: real)
    requires f.Valid() && a.scale > 0.0 && lo <= v <= hi && hi - lo <= (Pow2(f.valueBits) - 1) as real * a.scale
    ensures Abs(Restored(a, GridPoint(f, a, v)) - v) <= Times(Larger(0.5, Abs(ZeroError(a, lo, f.CMin()))), a.scale)
  {
    hide Pow2, ValueFormat.CMin, ValueFormat.CMax, RoundHalfAway, Restored, Times, GridPoint, ZeroError;
    GridSteps(f);
    ValueErrorBound(f, a, lo, hi, f.CMin(), v);
    QuotientBelow(hi - lo, (Pow2(f.valueBits) - 1) as real, a.scale);
    ScaledMonotone(WorstOvershoot(f, a, lo, hi, f.CMin()), Larger(0.5, Abs(ZeroError(a, lo, f.CMin()))), a.scale);
  }

  lemma QuotientBelow(x: real, w: real, s: real)
    requires s > 0.0 && x <= w * s
    ensures x / s <= w
  {
    assert (x / s) * s == x;
    ScaledMonotone(x / s, w, s);
  }

  /** The byte that is packed: two's complement of the grid point, of which the signed grid
      uses all 256 and the others the non-negative ones as they are. */
  lemma BytesAreTwosComplement(f: ValueFormat, c: int)
    requires f.Valid() && f.CMin() <= c <= f.CMax()
    ensures c >= 0 ==> ToByte(f, c) == c
    ensures c < 0 ==> ToByte(f, c) == 256 + c && f.valueSigned && f.valueBits == 8
    ensures FromByte(f, ToByte(f, c)) == c
  {
    GridWidth(f);
    ByteRoundTrip(f, c);
  }

  /** With any rounding, what is stored for a group: t is the exact step, the span over the
      2^bits - 1 steps; its rounding is the scale, or one if that is zero; and the zero is
      the rounding of lo in steps, less the lowest grid point unless the step vanished. */
  lemma StoredAffine(f: ValueFormat, x: seq<real>, g: nat) returns (t: real)
    requires f.Valid() && g * 32 + 32 <= |x|
    ensures t * (Pow2(f.valueBits) - 1) as real == Hi(x, g) - Lo(x, g)
    ensures AffineOf(f, x, g).scale == if f.f16(t) == 0.0 then f.f16(1.0) else f.f16(t)
    ensures f.f16(t) == 0.0 ==> AffineOf(f, x, g).zero == f.f16(Lo(x, g))
    ensures f.f16(t) != 0.0 ==>
              AffineOf(f, x, g).zero == f.f16(Lo(x, g) / f.f16(t) - if f.valueSigned && f.valueBits == 8 then -128.0 else 0.0)
  {
    GridSteps(f);
    hide Least, Greatest, Lo, Hi, Pow2, ValueFormat.CMin, ValueFormat.CMax;
    t := (Hi(x, g) - Lo(x, g)) / (Pow2(f.valueBits) - 1) as real;
    ScaledUp(Hi(x, g) - Lo(x, g), (Pow2(f.valueBits) - 1) as real);
  }
}
