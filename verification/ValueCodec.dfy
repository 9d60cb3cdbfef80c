/** Value rows: per-group affine quantisation onto an unsigned or a signed integer grid. */
module ValueCodec {
  import opened Division
  import opened BitStream
  import opened CodecFormat
  import opened RealSums
  import opened Vectors

  /** Parameters of a value cache; the fp16 rounding is a parameter. */
  datatype ValueFormat = ValueFormat(headSize: nat, valueBits: nat, valueSigned: bool, f16: real -> real)
  {
    predicate Valid() {
      headSize <= MAX_HEAD && headSize % GROUP == 0 && 2 <= valueBits <= 8 && f16(1.0) > 0.0
    }

    predicate Twos() {
      valueSigned && valueBits == 8
    }

    /** Ends of the integer grid. */
    function CMax(): int {
      if Twos() then 127 else Pow2(valueBits) - 1
    }

    function CMin(): int {
      if Twos() then -128 else 0
    }
  }

  // ---------- rounding ----------

  /** Nearest integer, halves away from zero. */
  function RoundHalfAway(t: real): int {
    if t >= 0.0 then (t + 0.5).Floor else -((0.5 - t).Floor)
  }

  function Clamp(c: int, cmin: int, cmax: int): int {
    if c < cmin then cmin else if c > cmax then cmax else c
  }

  function Gap(t: real, c: int): real {
    if t < c as real then c as real - t else t - c as real
  }

  /** Rounding is within one half, and exactly one half only away from zero. */
  lemma RoundingError(t: real)
    ensures Gap(t, RoundHalfAway(t)) <= 0.5
    ensures Gap(t, RoundHalfAway(t)) == 0.5 ==> (t >= 0.0 <==> RoundHalfAway(t) as real > t)
  {
  }

  /** Rounding and clamping picks a grid point nearest to t, whether or not t is inside
      the grid's range. */
  lemma ClampedRoundIsNearest(t: real, cmin: int, cmax: int, c: int)
    requires cmin <= c <= cmax
    ensures cmin <= Clamp(RoundHalfAway(t), cmin, cmax) <= cmax
    ensures Gap(t, Clamp(RoundHalfAway(t), cmin, cmax)) <= Gap(t, c)
  {
    RoundingError(t);
    hide RoundHalfAway;
    var r := RoundHalfAway(t);
    if r < cmin || cmax < r {
      Beyond(t, r, Clamp(r, cmin, cmax), c);
    } else if c != r {
      Apart(c, r);
    }
  }

  lemma Apart(c: int, r: int)
    ensures c < r ==> c as real + 1.0 <= r as real
    ensures r < c ==> r as real + 1.0 <= c as real
  {
  }

  /** Beyond an end of the grid that end is nearest. */
  lemma Beyond(t: real, r: int, end: int, c: int)
    requires Gap(t, r) <= 0.5 && (r < end <= c || c <= end < r)
    ensures Gap(t, end) <= Gap(t, c)
  {
    Apart(end, r);
    Apart(c, end);
  }

  // ---------- specification ----------

  /** Least and greatest of n elements from `start`. */
  function Least(x: seq<real>, start: nat, n: nat): real
    requires n > 0 && start + n <= |x|
  {
    if n == 1 then x[start]
    else
      var m, v := Least(x, start, n - 1), x[start + n - 1];
      if v < m then v else m
  }

  function Greatest(x: seq<real>, start: nat, n: nat): real
    requires n > 0 && start + n <= |x|
  {
    if n == 1 then x[start]
    else
      var m, v := Greatest(x, start, n - 1), x[start + n - 1];
      if v > m then v else m
  }

  /** They bound the elements and are among them. */
  lemma {:induction false} Bounds(x: seq<real>, start: nat, n: nat)
    requires n > 0 && start + n <= |x|
    ensures forall i | start <= i < start + n :: Least(x, start, n) <= x[i] <= Greatest(x, start, n)
    ensures Least(x, start, n) in x[start..start + n] && Greatest(x, start, n) in x[start..start + n]
  {
    if n > 1 {
      Bounds(x, start, n - 1);
      assert x[start..start + n] == x[start..start + n - 1] + [x[start + n - 1]];
    } else {
      assert x[start] in x[start..start + 1];
    }
  }

  datatype Affine = Affine(scale: real, zero: real)

  /** Scale and zero stored for values between lo and hi. */
  function GroupAffine(f: ValueFormat, lo: real, hi: real): (a: Affine)
    requires f.Valid()
    ensures a.scale != 0.0
  {
    GridWidth(f);
    var scale := f.f16((hi - lo) / (f.CMax() - f.CMin()) as real);
    if scale == 0.0 then Affine(f.f16(1.0), f.f16(lo))
    else Affine(scale, f.f16(lo / scale - f.CMin() as real))
  }

  lemma GridWidth(f: ValueFormat)
    requires f.Valid()
    ensures f.CMax() - f.CMin() >= 3 && -128 <= f.CMin() <= 0 <= f.CMax() <= 255
    ensures !f.Twos() ==> f.CMax() < Pow2(f.valueBits)
  {
    Pow2Monotone(2, f.valueBits);
    Pow2Monotone(f.valueBits, 8);
    Pow2Eight();
    assert Pow2(2) == 4;
  }

  /** The grid point stored for v. */
  function GridPoint(f: ValueFormat, a: Affine, v: real): int
    requires a.scale != 0.0
  {
    Clamp(RoundHalfAway(v / a.scale - a.zero), f.CMin(), f.CMax())
  }

  function Restored(a: Affine, c: int): real {
    (c as real + a.zero) * a.scale
  }

  /** Casts to and from the unsigned byte that is packed. */
  function ToByte(f: ValueFormat, c: int): (b: u8) {
    if f.Twos() then (c + 256) % 256 else c % 256
  }

  function FromByte(f: ValueFormat, raw: nat): int {
    if f.Twos() && raw >= 128 then raw - 256 else raw
  }

  lemma ByteRoundTrip(f: ValueFormat, c: int)
    requires f.Valid() && f.CMin() <= c <= f.CMax()
    ensures FromByte(f, ToByte(f, c)) == c && ToByte(f, c) < Pow2(f.valueBits)
  {
    GridWidth(f);
    Pow2Eight();
  }

  // ---------- the error bound ----------

  function Abs(x: real): real {
    if x < 0.0 then -x else x
  }

  /** How far the stored zero is from lo/scale - offset, where offset is the grid end that
      lo is meant to land on: cmin, or 0 for a group whose scale rounded to zero. */
  function ZeroError(a: Affine, lo: real, offset: int): real
    requires a.scale != 0.0
  {
    a.zero - (lo / a.scale - offset as real)
  }

  /** The distance from t to its grid point, when t overshoots the grid by at most `below`
      and `above`. */
  lemma GridError(t: real, cmin: int, cmax: int, below: real, above: real)
    requires cmin <= cmax
    requires cmin as real - below <= t <= cmax as real + above
    ensures Gap(t, Clamp(RoundHalfAway(t), cmin, cmax)) <= Larger(0.5, Larger(below, above))
  {
    RoundingError(t);
    hide RoundHalfAway;
    Apart(RoundHalfAway(t), cmin);
    Apart(cmax, RoundHalfAway(t));
  }

  lemma ScaledMonotone(x: real, y: real, s: real)
    requires s > 0.0
    ensures x <= y <==> Times(x, s) <= Times(y, s)
  {
  }

  lemma ScaledAbs(x: real, s: real)
    requires s > 0.0
    ensures Abs(Times(x, s)) == Times(Abs(x), s)
  {
  }

  lemma ScaledQuotient(x: real, s: real)
    requires s > 0.0
    ensures Times(x / s, s) == x
  {
  }

  lemma ScaledMinus(x: real, y: real, s: real)
    ensures Times(x - y, s) == Times(x, s) - Times(y, s)
  {
  }

  /** Where v lies on the grid. */
  function Coordinate(a: Affine, v: real): real
    requires a.scale != 0.0
  {
    v / a.scale - a.zero
  }

  /** The error in values is the distance on the grid times the scale. */
  lemma RestoredError(a: Affine, v: real, c: int)
    requires a.scale > 0.0
    ensures Abs(Restored(a, c) - v) == Times(Gap(Coordinate(a, v), c), a.scale)
  {
    var s, t := a.scale, Coordinate(a, v);
    ScaledQuotient(v, s);
    ScaledMinus(c as real + a.zero, v / s, s);
    ScaledAbs(c as real - t, s);
    assert Restored(a, c) == Times(c as real + a.zero, s);
  }

  lemma QuotientMonotone(x: real, y: real, s: real)
    requires s > 0.0 && x <= y
    ensures x / s <= y / s && (y - x) / s == y / s - x / s
  {
    hide Times;
    ScaledQuotient(x, s);
    ScaledQuotient(y, s);
    ScaledQuotient(y - x, s);
    ScaledMinus(y / s, x / s, s);
    ScaledMonotone(x / s, y / s, s);
    ScaledMonotone((y - x) / s, y / s - x / s, s);
    ScaledMonotone(y / s - x / s, (y - x) / s, s);
  }

  /** The worst of three: one half; how far the stored zero lifts lo below the grid; how
      far it pushes hi above it. */
  function WorstOvershoot(f: ValueFormat, a: Affine, lo: real, hi: real, offset: int): real
    requires a.scale != 0.0
  {
    var delta := ZeroError(a, lo, offset);
    Larger(0.5, Larger(delta - (offset - f.CMin()) as real, (hi - lo) / a.scale - (f.CMax() - offset) as real - delta))
  }

  lemma CoordinateRange(f: ValueFormat, a: Affine, lo: real, hi: real, offset: int, v: real)
    requires a.scale > 0.0 && lo <= v <= hi
    ensures var delta := ZeroError(a, lo, offset);
            f.CMin() as real - (delta - (offset - f.CMin()) as real) <= Coordinate(a, v) <=
            f.CMax() as real + ((hi - lo) / a.scale - (f.CMax() - offset) as real - delta)
  {
    hide ValueFormat.CMin, ValueFormat.CMax;
    QuotientMonotone(lo, v, a.scale);
    QuotientMonotone(v, hi, a.scale);
    QuotientMonotone(lo, hi, a.scale);
  }

  /** Every value between lo and hi is restored within the worst overshoot times the scale. */
  lemma ValueErrorBound(f: ValueFormat, a: Affine, lo: real, hi: real, offset: int, v: real)
    requires f.Valid() && a.scale > 0.0 && lo <= v <= hi
    ensures Abs(Restored(a, GridPoint(f, a, v)) - v) <= Times(WorstOvershoot(f, a, lo, hi, offset), a.scale)
  {
    GridWidth(f);
    hide RoundHalfAway, Clamp, ValueFormat.CMin, ValueFormat.CMax, Restored, Times, Coordinate, ZeroError;
    CoordinateRange(f, a, lo, hi, offset, v);
    var delta, t := ZeroError(a, lo, offset), Coordinate(a, v);
    GridError(t, f.CMin(), f.CMax(), delta - (offset - f.CMin()) as real,
              (hi - lo) / a.scale - (f.CMax() - offset) as real - delta);
    GridPointAt(f, a, v);
    RestoredError(a, v, GridPoint(f, a, v));
    ScaledMonotone(Gap(t, GridPoint(f, a, v)), WorstOvershoot(f, a, lo, hi, offset), a.scale);
  }

  lemma GridPointAt(f: ValueFormat, a: Affine, v: real)
    requires a.scale != 0.0
    ensures GridPoint(f, a, v) == Clamp(RoundHalfAway(Coordinate(a, v)), f.CMin(), f.CMax())
  {
  }

  /** A value is restored within half a scale exactly when it overshoots the grid by no
      more than one half. */
  lemma WithinHalfIff(f: ValueFormat, a: Affine, v: real)
    requires f.Valid() && a.scale > 0.0
    ensures Abs(Restored(a, GridPoint(f, a, v)) - v) <= Times(0.5, a.scale) <==>
            f.CMin() as real - 0.5 <= Coordinate(a, v) <= f.CMax() as real + 0.5
  {
    var t, c := Coordinate(a, v), GridPoint(f, a, v);
    GridWidth(f);
    GridPointAt(f, a, v);
    hide RoundHalfAway, ValueFormat.CMin, ValueFormat.CMax, Restored, Times, Coordinate, GridPoint;
    if f.CMin() as real - 0.5 <= t <= f.CMax() as real + 0.5 {
      GridError(t, f.CMin(), f.CMax(), 0.5, 0.5);
    }
    RestoredError(a, v, c);
    ScaledMonotone(Gap(t, c), 0.5, a.scale);
    Apart(c, f.CMin());
    Apart(f.CMax(), c);
  }

  /** No other grid point restores v more closely. */
  lemma GridPointIsBest(f: ValueFormat, a: Affine, v: real, c: int)
    requires f.Valid() && a.scale > 0.0 && f.CMin() <= c <= f.CMax()
    ensures f.CMin() <= GridPoint(f, a, v) <= f.CMax()
    ensures Abs(Restored(a, GridPoint(f, a, v)) - v) <= Abs(Restored(a, c) - v)
  {
    GridPointAt(f, a, v);
    hide RoundHalfAway, Clamp, ValueFormat.CMin, ValueFormat.CMax, Restored, Times, Coordinate, GridPoint;
    var t := Coordinate(a, v);
    ClampedRoundIsNearest(t, f.CMin(), f.CMax(), c);
    RestoredError(a, v, c);
    RestoredError(a, v, GridPoint(f, a, v));
    ScaledMonotone(Gap(t, GridPoint(f, a, v)), Gap(t, c), a.scale);
  }

  // ---------- whole rows ----------

  function Lo(x: seq<real>, g: nat): real
    requires g * GROUP + GROUP <= |x|
  {
    Least(x, g * GROUP, GROUP)
  }

  function Hi(x: seq<real>, g: nat): real
    requires g * GROUP + GROUP <= |x|
  {
    Greatest(x, g * GROUP, GROUP)
  }

  /** Scale and zero of group g. */
  function AffineOf(f: ValueFormat, x: seq<real>, g: nat): (a: Affine)
    requires f.Valid() && g * GROUP + GROUP <= |x|
    ensures a.scale != 0.0
  {
    GroupAffine(f, Lo(x, g), Hi(x, g))
  }

  /** The grid point of element i. */
  function PointOf(f: ValueFormat, x: seq<real>, i: nat): int
    requires f.Valid() && i < |x| && |x| % GROUP == 0
  {
    GridPoint(f, AffineOf(f, x, i / GROUP), x[i])
  }

  /** The grid end on which the least value of group g is meant to land. */
  function OffsetOf(f: ValueFormat, x: seq<real>, g: nat): int
    requires f.Valid() && g * GROUP + GROUP <= |x|
  {
    GridWidth(f);
    if f.f16((Hi(x, g) - Lo(x, g)) / (f.CMax() - f.CMin()) as real) == 0.0 then 0 else f.CMin()
  }

  /** The rounding never turns a value that is not negative into a negative one. */
  ghost predicate KeepsSign(f: ValueFormat) {
    forall x: real | x >= 0.0 :: f.f16(x) >= 0.0
  }

  /** The stored zero misses its target only by the fp16 rounding of that target, in both
      branches. */
  lemma ZeroErrorIsRounding(f: ValueFormat, x: seq<real>, g: nat)
    requires f.Valid() && g * GROUP + GROUP <= |x| && f.f16(1.0) == 1.0
    ensures var a := AffineOf(f, x, g);
            var target := Lo(x, g) / a.scale - OffsetOf(f, x, g) as real;
            ZeroError(a, Lo(x, g), OffsetOf(f, x, g)) == f.f16(target) - target
  {
    var a := AffineOf(f, x, g);
    if a.scale == 1.0 {
      assert Lo(x, g) / 1.0 == Lo(x, g);
    }
  }

  lemma ScaleIsPositive(f: ValueFormat, x: seq<real>, g: nat)
    requires f.Valid() && KeepsSign(f) && g * GROUP + GROUP <= |x|
    ensures AffineOf(f, x, g).scale > 0.0
  {
    GridWidth(f);
    var lo, hi, width := Lo(x, g), Hi(x, g), (f.CMax() - f.CMin()) as real;
    Bounds(x, g * GROUP, GROUP);
    assert lo <= x[g * GROUP] <= hi;
    QuotientMonotone(0.0, hi - lo, width);
    assert 0.0 / width == 0.0;
    assert f.f16((hi - lo) / width) >= 0.0;
  }

  /** The error bound for element i of a row. */
  lemma ElementError(f: ValueFormat, x: seq<real>, i: nat)
    requires f.Valid() && KeepsSign(f) && i < |x| && |x| % GROUP == 0
    ensures var g := i / GROUP;
            var a := AffineOf(f, x, g);
            a.scale > 0.0 &&
            Abs(Restored(a, PointOf(f, x, i)) - x[i]) <= Times(WorstOvershoot(f, a, Lo(x, g), Hi(x, g), OffsetOf(f, x, g)), a.scale)
  {
    var g := i / GROUP;
    ScaleIsPositive(f, x, g);
    Bounds(x, g * GROUP, GROUP);
    ValueErrorBound(f, AffineOf(f, x, g), Lo(x, g), Hi(x, g), OffsetOf(f, x, g), x[i]);
  }

  /** Extremes of a group. */
  method Extremes(value: seq<real>, start: nat) returns (lo: real, hi: real)
    requires start + GROUP <= |value|
    ensures lo == Least(value, start, GROUP) && hi == Greatest(value, start, GROUP)
  {
    lo := value[start];
    hi := lo;
    for j := 1 to GROUP
      invariant lo == Least(value, start, j) && hi == Greatest(value, start, j)
    {
      var v := value[start + j];
      lo := if v < lo then v else lo;
      hi := if v > hi then v else hi;
    }
  }

  /** The scale and zero of a group. */
  method FitGroup(f: ValueFormat, value: seq<real>, g: nat) returns (scale: real, zero: real)
    requires f.Valid() && g * GROUP + GROUP <= |value|
    ensures Affine(scale, zero) == AffineOf(f, value, g)
  {
    hide Pow2, ValueFormat.CMin, ValueFormat.CMax, Least, Greatest;
    var lo, hi := Extremes(value, g * GROUP);
    GridWidth(f);
    scale := f.f16((hi - lo) / (f.CMax() - f.CMin()) as real);
    if scale == 0.0 {
      scale := f.f16(1.0);
      zero := f.f16(lo);
    } else {
      zero := f.f16(lo / scale - f.CMin() as real);
    }
  }

  /** One group: scale, zero and codes. */
  method EncodeGroup(f: ValueFormat, value: seq<real>, g: nat, groupScales: array<real>, groupZeros: array<real>, codes: array<u8>)
    requires f.Valid() && |value| % GROUP == 0 && g * GROUP + GROUP <= |value| <= codes.Length
    requires g < groupScales.Length && g < groupZeros.Length && groupScales != groupZeros
    modifies groupScales, groupZeros, codes
    ensures groupScales[..] == old(groupScales[..])[g := AffineOf(f, value, g).scale]
    ensures groupZeros[..] == old(groupZeros[..])[g := AffineOf(f, value, g).zero]
    ensures forall i | g * GROUP <= i < g * GROUP + GROUP :: codes[i] == ToByte(f, PointOf(f, value, i))
    ensures forall i | 0 <= i < codes.Length && (i < g * GROUP || g * GROUP + GROUP <= i) :: codes[i] == old(codes[i])
  {
    hide RoundHalfAway, ToByte, AffineOf, ValueFormat.CMin, ValueFormat.CMax, ValueFormat.Valid, PointOf;
    var scale, zero := FitGroup(f, value, g);
    var cmin, cmax := f.CMin(), f.CMax();
    groupScales[g], groupZeros[g] := scale, zero;
    for j := 0 to GROUP
      invariant forall i | g * GROUP <= i < g * GROUP + j :: codes[i] == ToByte(f, PointOf(f, value, i))
      invariant forall i | 0 <= i < codes.Length && (i < g * GROUP || g * GROUP + GROUP <= i) :: codes[i] == old(codes[i])
      modifies codes
    {
      var v := value[g * GROUP + j];
      var c := RoundHalfAway(v / scale - zero);
      c := if c < cmin then cmin else if c > cmax then cmax else c;
      PointIs(f, value, g, j);
      codes[g * GROUP + j] := ToByte(f, c);
    }
  }

  lemma PointIs(f: ValueFormat, value: seq<real>, g: nat, j: nat)
    requires f.Valid() && |value| % GROUP == 0 && g * GROUP + GROUP <= |value| && j < GROUP
    ensures var a := AffineOf(f, value, g);
            var c := RoundHalfAway(value[g * GROUP + j] / a.scale - a.zero);
            PointOf(f, value, g * GROUP + j) ==
            if c < f.CMin() then f.CMin() else if c > f.CMax() then f.CMax() else c
  {
    assert (g * GROUP + j) / GROUP == g;
  }

  /** Row, scales and zeros encode the values. */
  ghost predicate Encodes(f: ValueFormat, value: seq<real>, row: seq<u8>, scales: seq<real>, zeros: seq<real>)
    requires f.Valid() && |value| == f.headSize && |scales| * GROUP >= f.headSize && |zeros| * GROUP >= f.headSize
    requires |row| >= RowBytes(f.headSize, f.valueBits)
  {
    (forall g | 0 <= g < f.headSize / GROUP :: Affine(scales[g], zeros[g]) == AffineOf(f, value, g)) &&
    (forall i | 0 <= i < f.headSize :: FromByte(f, Codes(row, f.headSize, f.valueBits)[i]) == PointOf(f, value, i))
  }

  method EncodeValueRow(value: seq<real>, row: array<u8>, groupScales: array<real>, groupZeros: array<real>, f: ValueFormat)
    requires f.Valid() && |value| == f.headSize && RowBytes(f.headSize, f.valueBits) <= row.Length
    requires f.headSize <= groupScales.Length * GROUP && f.headSize <= groupZeros.Length * GROUP && groupScales != groupZeros
    modifies row, groupScales, groupZeros
    ensures Encodes(f, value, row[..], groupScales[..], groupZeros[..])
    ensures row[RowBytes(f.headSize, f.valueBits)..] == old(row[RowBytes(f.headSize, f.valueBits)..])
    ensures groupScales[f.headSize / GROUP..] == old(groupScales[f.headSize / GROUP..])
    ensures groupZeros[f.headSize / GROUP..] == old(groupZeros[f.headSize / GROUP..])
  {
    hide Pow2, AffineOf, GridPoint, ToByte, FromByte, Codes, Number, Value, UnpackCode, PointOf;
    var codes := new u8[MAX_HEAD];
    for g := 0 to f.headSize / GROUP
      invariant forall k | 0 <= k < g :: groupScales[k] == AffineOf(f, value, k).scale
      invariant forall k | 0 <= k < g :: groupZeros[k] == AffineOf(f, value, k).zero
      invariant forall i | 0 <= i < g * GROUP :: codes[i] == ToByte(f, PointOf(f, value, i))
      invariant groupScales[f.headSize / GROUP..] == old(groupScales[f.headSize / GROUP..])
      invariant groupZeros[f.headSize / GROUP..] == old(groupZeros[f.headSize / GROUP..])
      modifies groupScales, groupZeros, codes
    {
      EncodeGroup(f, value, g, groupScales, groupZeros, codes);
    }
    PackCodes(codes, f.headSize, f.valueBits, row);
    assert row[..][..RowBytes(f.headSize, f.valueBits)] == row[..RowBytes(f.headSize, f.valueBits)];
    ghost var used := codes[..f.headSize];
    forall i | 0 <= i < f.headSize
      ensures used[i] < Pow2(f.valueBits) && FromByte(f, used[i]) == PointOf(f, value, i)
    {
      PointFits(f, value, i);
    }
    RowHoldsCodes(row[..], used, f.valueBits);
  }

  lemma PointFits(f: ValueFormat, value: seq<real>, i: nat)
    requires f.Valid() && i < |value| && |value| % GROUP == 0
    ensures ToByte(f, PointOf(f, value, i)) < Pow2(f.valueBits)
    ensures FromByte(f, ToByte(f, PointOf(f, value, i))) == PointOf(f, value, i)
  {
    GridWidth(f);
    ByteRoundTrip(f, PointOf(f, value, i));
  }

  method DecodeValueRow(row: array<u8>, groupScales: array<real>, groupZeros: array<real>, f: ValueFormat, out: array<real>)
    requires f.Valid() && RowBytes(f.headSize, f.valueBits) <= row.Length && f.headSize <= out.Length
    requires f.headSize <= groupScales.Length * GROUP && f.headSize <= groupZeros.Length * GROUP
    requires out != groupScales && out != groupZeros
    modifies out
    ensures forall i | 0 <= i < f.headSize :: out[i] ==
              Restored(Affine(groupScales[i / GROUP], groupZeros[i / GROUP]),
                       FromByte(f, Codes(row[..], f.headSize, f.valueBits)[i]))
    ensures out[f.headSize..] == old(out[f.headSize..])
  {
    hide Restored, FromByte, Codes, Pow2, UnpackCode;
    ghost var codes := Codes(row[..], f.headSize, f.valueBits);
    for g := 0 to f.headSize / GROUP
      invariant forall i | 0 <= i < g * GROUP :: out[i] ==
                  Restored(Affine(groupScales[i / GROUP], groupZeros[i / GROUP]), FromByte(f, codes[i]))
      invariant out[f.headSize..] == old(out[f.headSize..])
    {
      for j := 0 to GROUP
        invariant forall i | 0 <= i < g * GROUP + j :: out[i] ==
                    Restored(Affine(groupScales[i / GROUP], groupZeros[i / GROUP]), FromByte(f, codes[i]))
        invariant out[f.headSize..] == old(out[f.headSize..])
      {
        var i := g * GROUP + j;
        assert i / GROUP == g;
        assert Reaches(row[..], i, f.valueBits) && codes[i] == UnpackCode(row[..], i, f.valueBits);
        var raw := UnpackCode(row[..], i, f.valueBits);
        out[i] := Restored(Affine(groupScales[g], groupZeros[g]), FromByte(f, raw));
      }
    }
  }

  /** One row of values written to a cache slot and read back: each element comes back as
      the best grid point of its group, within the error bound. */
  method StoreAndLoad(value: seq<real>, row: array<u8>, groupScales: array<real>, groupZeros: array<real>, f: ValueFormat, out: array<real>)
    requires f.Valid() && |value| == f.headSize <= out.Length && RowBytes(f.headSize, f.valueBits) <= row.Length
    requires f.headSize <= groupScales.Length * GROUP && f.headSize <= groupZeros.Length * GROUP
    requires groupScales != groupZeros && out != groupScales && out != groupZeros
    modifies row, groupScales, groupZeros, out
    ensures forall i | 0 <= i < f.headSize :: out[i] == Restored(AffineOf(f, value, i / GROUP), PointOf(f, value, i))
    ensures KeepsSign(f) ==> forall i | 0 <= i < f.headSize ::
              var g := i / GROUP;
              var a := AffineOf(f, value, g);
              Abs(out[i] - value[i]) <= Times(WorstOvershoot(f, a, Lo(value, g), Hi(value, g), OffsetOf(f, value, g)), a.scale)
  {
    hide Restored, FromByte, Codes, Pow2, UnpackCode, PointOf, AffineOf, WorstOvershoot, Lo, Hi, OffsetOf, Times, KeepsSign;
    EncodeValueRow(value, row, groupScales, groupZeros, f);
    DecodeValueRow(row, groupScales, groupZeros, f, out);
    forall i | 0 <= i < f.headSize
      ensures out[i] == Restored(AffineOf(f, value, i / GROUP), PointOf(f, value, i))
    {
      assert Affine(groupScales[i / GROUP], groupZeros[i / GROUP]) == AffineOf(f, value, i / GROUP);
    }
    if KeepsSign(f) {
      forall i | 0 <= i < f.headSize
        ensures var g := i / GROUP;
                var a := AffineOf(f, value, g);
                Abs(out[i] - value[i]) <= Times(WorstOvershoot(f, a, Lo(value, g), Hi(value, g), OffsetOf(f, value, g)), a.scale)
      {
        ElementError(f, value, i);
      }
    }
  }
}
