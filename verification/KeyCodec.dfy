/** Key rows: random-sign rotation, per-group scale, midpoint quantiser, bit packing, and
    the way back. */
module KeyCodec {
  import opened Division
  import opened BitStream
  import opened CodecFormat
  import opened RealSums
  import opened Vectors
  import opened Hadamard
  import opened Centroids

  /** Tables and parameters of a key cache. `invRoot` stands for 1/sqrt(headSize); the
      square root, the fp16 rounding and the e4m3 conversions are parameters. */
  datatype KeyFormat = KeyFormat(centroids: seq<real>, signs: seq<real>, headSize: nat, keyBits: nat, invRoot: real,
                                 sqrt: real -> real, f16: real -> real, toE4m3: real -> u8, fromE4m3: u8 -> real)
  {
    /** What the launcher checks, and what the transform and the tables demand. */
    predicate Valid(top: nat) {
      headSize <= MAX_HEAD && headSize % GROUP == 0 && 2 <= keyBits <= 8 &&
      (keyBits < 8 ==>
         headSize == Pow2(top) && |centroids| == Pow2(keyBits) && |signs| == headSize && f16(1.0) != 0.0)
    }

    /** The rotation is orthogonal: signs are +-1 and invRoot is exact. */
    predicate Exact() {
      invRoot * invRoot * headSize as real == 1.0 && forall i | 0 <= i < |signs| :: signs[i] == 1.0 || signs[i] == -1.0
    }
  }

  /** Of the head sizes the launcher accepts, the transform takes only the powers of two:
      96, 160, 192 and 224 pass the launcher's guard but not the transform. */
  lemma HeadSizesTheTransformTakes(headSize: nat)
    requires headSize <= MAX_HEAD && headSize % GROUP == 0
    ensures SpansFit(headSize) <==> headSize in {0, 32, 64, 128, 256}
  {
    SpansFitIffPower(headSize);
    PowerNear(0);
    if t: nat :| headSize == Pow2(t) {
      PowerNear(t);
    }
  }

  lemma PowerNear(t: nat)
    ensures Pow2(5) == 32 && Pow2(6) == 64 && Pow2(7) == 128 && Pow2(8) == 256
    ensures t < 5 ==> Pow2(t) <= 16
    ensures t > 8 ==> Pow2(t) >= 512
  {
    Pow2Eight();
    assert Pow2(4) == 16 && Pow2(5) == 32 && Pow2(6) == 64 && Pow2(7) == 128;
    assert Pow2(9) == 2 * Pow2(8);
    if t > 8 {
      Pow2Monotone(9, t);
    } else if t < 5 {
      Pow2Monotone(t, 4);
    }
  }

  // ---------- specification ----------

  function Signed(x: seq<real>, signs: seq<real>): (r: seq<real>)
    requires |x| == |signs|
    ensures |r| == |x| && forall i | 0 <= i < |x| :: r[i] == Times(x[i], signs[i])
  {
    seq(|x|, i requires 0 <= i < |x| => Times(x[i], signs[i]))
  }

  /** The rotated key. */
  function Rotated(f: KeyFormat, top: nat, key: seq<real>): (r: seq<real>)
    requires |key| == |f.signs| == Pow2(top)
    ensures |r| == |key|
  {
    Scale(f.invRoot, Transform(top, Signed(key, f.signs)))
  }

  /** The inverse rotation of the row that the codes stand for. */
  function Unrotated(f: KeyFormat, top: nat, y: seq<real>): (r: seq<real>)
    requires |y| == |f.signs| == Pow2(top)
    ensures |r| == |y|
  {
    Signed(Scale(f.invRoot, Transform(top, y)), f.signs)
  }

  function Group(y: seq<real>, g: nat): (r: seq<real>)
    requires g * GROUP + GROUP <= |y|
    ensures |r| == GROUP
  {
    y[g * GROUP..g * GROUP + GROUP]
  }

  /** The stored scale of group g: the rounded root mean square, or one if that is zero. */
  function GroupScale(f: KeyFormat, y: seq<real>, g: nat): (s: real)
    requires g * GROUP + GROUP <= |y| && f.f16(1.0) != 0.0
    ensures s != 0.0
  {
    var rms := f.f16(f.sqrt(Inner(Group(y, g), Group(y, g)) / GROUP as real));
    if rms == 0.0 then f.f16(1.0) else rms
  }

  /** The code of rotated element i. */
  function Code(f: KeyFormat, y: seq<real>, i: nat): (c: nat)
    requires i < |y| && |y| % GROUP == 0 && f.f16(1.0) != 0.0 && |f.centroids| > 0
    ensures c < |f.centroids|
  {
    MidpointsBelow(y[i] / GroupScale(f, y, i / GROUP), f.centroids, |f.centroids| - 1)
  }

  /** What the code of element i stands for. */
  function QuantisedAt(f: KeyFormat, y: seq<real>, i: nat): real
    requires i < |y| && |y| % GROUP == 0 && f.f16(1.0) != 0.0 && |f.centroids| > 0
  {
    Times(f.centroids[Code(f, y, i)], GroupScale(f, y, i / GROUP))
  }

  function Quantised(f: KeyFormat, y: seq<real>): (q: seq<real>)
    requires |y| % GROUP == 0 && f.f16(1.0) != 0.0 && |f.centroids| > 0
    ensures |q| == |y| && forall i | 0 <= i < |y| :: q[i] == QuantisedAt(f, y, i)
  {
    seq(|y|, i requires 0 <= i < |y| => QuantisedAt(f, y, i))
  }

  // ---------- the error of a round trip ----------

  lemma SignsCancel(x: real, s: real)
    requires s == 1.0 || s == -1.0
    ensures Times(Times(x, s), s) == x
  {
  }

  lemma SignedTwice(x: seq<real>, signs: seq<real>)
    requires |x| == |signs| && forall i | 0 <= i < |signs| :: signs[i] == 1.0 || signs[i] == -1.0
    ensures Signed(Signed(x, signs), signs) == x
  {
    hide Times;
    forall i | 0 <= i < |x| ensures Times(Times(x[i], signs[i]), signs[i]) == x[i] {
      SignsCancel(x[i], signs[i]);
    }
  }

  lemma SignedMinus(x: seq<real>, y: seq<real>, signs: seq<real>)
    requires |x| == |y| == |signs|
    ensures Signed(Minus(x, y), signs) == Minus(Signed(x, signs), Signed(y, signs))
  {
    hide Times;
    forall i | 0 <= i < |x| ensures Times(x[i] - y[i], signs[i]) == Times(x[i], signs[i]) - Times(y[i], signs[i]) {
      TimesLaws(signs[i], x[i], y[i]);
      TimesLaws(x[i], signs[i], 0.0);
      TimesLaws(y[i], signs[i], 0.0);
      TimesLaws(x[i] - y[i], signs[i], 0.0);
    }
  }

  lemma ScaleMinus(c: real, x: seq<real>, y: seq<real>)
    requires |x| == |y|
    ensures Scale(c, Minus(x, y)) == Minus(Scale(c, x), Scale(c, y))
  {
    hide Times;
    forall i | 0 <= i < |x| ensures Times(c, x[i] - y[i]) == Times(c, x[i]) - Times(c, y[i]) {
      TimesLaws(c, x[i], y[i]);
    }
  }

  lemma SquareSigned(x: real, s: real)
    requires s == 1.0 || s == -1.0
    ensures Times(Times(x, s), Times(x, s)) == Times(x, x)
  {
  }

  lemma {:induction false} DotSigned(x: seq<real>, signs: seq<real>, n: nat)
    requires n <= |x| == |signs| && forall i | 0 <= i < |signs| :: signs[i] == 1.0 || signs[i] == -1.0
    ensures Dot(At(Signed(x, signs)), At(Signed(x, signs)), n) == Dot(At(x), At(x), n)
  {
    if n > 0 {
      DotSigned(x, signs, n - 1);
      DotOneMore(Signed(x, signs), Signed(x, signs), n - 1);
      DotOneMore(x, x, n - 1);
      SquareSigned(x[n - 1], signs[n - 1]);
      hide Dot, At, Times;
    }
  }

  lemma SignedNorm(x: seq<real>, signs: seq<real>)
    requires |x| == |signs| && forall i | 0 <= i < |signs| :: signs[i] == 1.0 || signs[i] == -1.0
    ensures Inner(Signed(x, signs), Signed(x, signs)) == Inner(x, x)
  {
    DotSigned(x, signs, |x|);
  }

  lemma ScaleTwice(c: real, n: real, u: seq<real>)
    requires c * c * n == 1.0
    ensures Scale(c, Scale(c, Scale(n, u))) == u
  {
    forall i | 0 <= i < |u| ensures Times(c, Times(c, Times(n, u[i]))) == u[i] {
      assert c * (c * (n * u[i])) == (c * c * n) * u[i];
    }
  }

  lemma Cancel(c: real, n: real, e: real)
    requires c * c * n == 1.0
    ensures Times(Times(c, c), Times(n, e)) == e
  {
    assert (c * c) * (n * e) == (c * c * n) * e;
  }

  /** The inverse rotation undoes the rotation. */
  lemma UnrotateRotated(f: KeyFormat, top: nat, x: seq<real>)
    requires |x| == |f.signs| == f.headSize == Pow2(top) && f.Exact()
    ensures Unrotated(f, top, Rotated(f, top, x)) == x
  {
    hide Transform, Times, Scale, Signed, Pow2;
    var u := Signed(x, f.signs);
    TransformScale(top, f.invRoot, Transform(top, u));
    TransformTwice(top, u);
    ScaleTwice(f.invRoot, f.headSize as real, u);
    SignedTwice(x, f.signs);
  }

  /** The inverse rotation keeps distances. */
  lemma UnrotateKeepsDistance(f: KeyFormat, top: nat, y: seq<real>, z: seq<real>)
    requires |y| == |z| == |f.signs| == f.headSize == Pow2(top) && f.Exact()
    ensures var e := Minus(Unrotated(f, top, y), Unrotated(f, top, z));
            Inner(e, e) == Inner(Minus(y, z), Minus(y, z))
  {
    hide Transform, Times, Scale, Signed, Minus, Inner, Pow2;
    var d, c := Minus(y, z), f.invRoot;
    TransformPlus(top, y, z);
    var t := Transform(top, d);
    ScaleMinus(c, Transform(top, y), Transform(top, z));
    SignedMinus(Scale(c, Transform(top, y)), Scale(c, Transform(top, z)), f.signs);
    SignedNorm(Scale(c, t), f.signs);
    InnerScale(c, t, t);
    TransformInner(top, d, d);
    Cancel(c, f.headSize as real, Inner(d, d));
  }

  /** Storing and loading a key errs, in key space, by exactly the quantisation error in
      rotated space: the rotation adds nothing. */
  lemma KeyErrorIsQuantisationError(f: KeyFormat, top: nat, key: seq<real>, q: seq<real>)
    requires |key| == |q| == |f.signs| == f.headSize == Pow2(top) && f.Exact()
    ensures var e, d := Minus(Unrotated(f, top, q), key), Minus(q, Rotated(f, top, key));
            Inner(e, e) == Inner(d, d)
  {
    UnrotateRotated(f, top, key);
    UnrotateKeepsDistance(f, top, q, Rotated(f, top, key));
  }

  /** Each rotated element is replaced by the nearest multiple centroid * scale. */
  lemma QuantisedIsNearest(f: KeyFormat, y: seq<real>, i: nat, m: nat)
    requires i < |y| && |y| % GROUP == 0 && f.f16(1.0) != 0.0
    requires m < |f.centroids| && Ascending(f.centroids)
    ensures Distance(y[i], Quantised(f, y)[i]) <= Distance(y[i], Times(f.centroids[m], GroupScale(f, y, i / GROUP)))
  {
    var s := GroupScale(f, y, i / GROUP);
    var z, c := y[i] / s, f.centroids[Code(f, y, i)];
    CountIsNearest(z, f.centroids);
    hide GroupScale, Code, Quantised;
    ScaledDistance(y[i], s, c, f.centroids[m]);
  }

  lemma ScaledDistance(y: real, s: real, c: real, d: real)
    requires s != 0.0 && Distance(y / s, c) <= Distance(y / s, d)
    ensures Distance(y, Times(c, s)) <= Distance(y, Times(d, s))
  {
    var z := y / s;
    assert z * s == y;
    assert y - c * s == (z - c) * s && y - d * s == (z - d) * s;
    var p, q := Distance(z, c), Distance(z, d);
    var r := if s < 0.0 then -s else s;
    assert Distance(y, Times(c, s)) == p * r;
    assert Distance(y, Times(d, s)) == q * r;
    SignsMultiply(q - p, r);
  }

  lemma SignsMultiply(a: real, b: real)
    requires a >= 0.0 && b >= 0.0
    ensures a * b >= 0.0
  {
  }

  /** What a row of codes stands for under the given scales. */
  function Dequantised(f: KeyFormat, codes: seq<nat>, scales: seq<real>): (q: seq<real>)
    requires |scales| * GROUP >= |codes| && forall i | 0 <= i < |codes| :: codes[i] < |f.centroids|
    ensures |q| == |codes|
    ensures forall i | 0 <= i < |codes| :: q[i] == Times(f.centroids[codes[i]], scales[i / GROUP])
  {
    seq(|codes|, i requires 0 <= i < |codes| => Times(f.centroids[codes[i]], scales[i / GROUP]))
  }

  predicate NoFarther(q: seq<real>, other: seq<real>, y: seq<real>)
    requires |q| == |other| == |y|
  {
    forall i | 0 <= i < |y| :: Distance(y[i], q[i]) <= Distance(y[i], other[i])
  }

  lemma SquareOfDistance(y: real, q: real, other: real)
    requires Distance(y, q) <= Distance(y, other)
    ensures Times(q - y, q - y) <= Times(other - y, other - y)
  {
    var p, r := Distance(y, q), Distance(y, other);
    SignsMultiply(r - p, p);
    SignsMultiply(r - p, r);
    assert (q - y) * (q - y) == p * p && (other - y) * (other - y) == r * r;
  }

  lemma {:induction false} NearerHasSmallerDot(q: seq<real>, other: seq<real>, y: seq<real>, n: nat)
    requires n <= |q| == |other| == |y| && NoFarther(q, other, y)
    ensures Dot(At(Minus(q, y)), At(Minus(q, y)), n) <= Dot(At(Minus(other, y)), At(Minus(other, y)), n)
  {
    if n > 0 {
      NearerHasSmallerDot(q, other, y, n - 1);
      DotOneMore(Minus(q, y), Minus(q, y), n - 1);
      DotOneMore(Minus(other, y), Minus(other, y), n - 1);
      hide Dot, At, Times;
      SquareOfDistance(y[n - 1], q[n - 1], other[n - 1]);
    }
  }

  lemma NearerHasSmallerNorm(q: seq<real>, other: seq<real>, y: seq<real>)
    requires |q| == |other| == |y| && NoFarther(q, other, y)
    ensures Inner(Minus(q, y), Minus(q, y)) <= Inner(Minus(other, y), Minus(other, y))
  {
    NearerHasSmallerDot(q, other, y, |y|);
  }

  /** Among all rows of codes under the stored scales, the encoder's decodes closest to the
      key. */
  lemma EncodingIsOptimal(f: KeyFormat, top: nat, key: seq<real>, codes: seq<nat>, scales: seq<real>)
    requires f.Valid(top) && f.Exact() && Ascending(f.centroids) && f.keyBits < 8
    requires |key| == |codes| == f.headSize && |scales| * GROUP == f.headSize
    requires forall i | 0 <= i < |codes| :: codes[i] < |f.centroids|
    requires forall g | 0 <= g < |scales| :: scales[g] == GroupScale(f, Rotated(f, top, key), g)
    ensures var best := Minus(Unrotated(f, top, Quantised(f, Rotated(f, top, key))), key);
            var other := Minus(Unrotated(f, top, Dequantised(f, codes, scales)), key);
            Inner(best, best) <= Inner(other, other)
  {
    hide Transform, Times, Scale, Signed, Minus, Inner, Pow2, GroupScale, Quantised, Code, Rotated, Unrotated;
    var y := Rotated(f, top, key);
    var q, other := Quantised(f, y), Dequantised(f, codes, scales);
    forall i | 0 <= i < |y| ensures Distance(y[i], q[i]) <= Distance(y[i], other[i]) {
      QuantisedIsNearest(f, y, i, codes[i]);
    }
    NearerHasSmallerNorm(q, other, y);
    KeyErrorIsQuantisationError(f, top, key, q);
    KeyErrorIsQuantisationError(f, top, key, other);
  }

  // ---------- the encoder ----------

  /** Signs, transform, scaling: scratch holds the rotated key. */
  method Rotate(key: seq<real>, f: KeyFormat, scratch: array<real>, ghost top: nat)
    requires f.Valid(top) && f.keyBits < 8 && |key| == f.headSize <= scratch.Length
    modifies scratch
    ensures scratch[..f.headSize] == Rotated(f, top, key)
  {
    hide Times, Transform, Pow2;
    for i := 0 to f.headSize
      invariant forall k | 0 <= k < i :: scratch[k] == Times(key[k], f.signs[k])
    {
      scratch[i] := Times(key[i], f.signs[i]);
    }
    assert scratch[..f.headSize] == Signed(key, f.signs);
    Fwht(scratch, f.headSize, top);
    ghost var t := scratch[..f.headSize];
    for i := 0 to f.headSize
      invariant forall k | 0 <= k < i :: scratch[k] == Times(f.invRoot, t[k])
      invariant forall k | i <= k < f.headSize :: scratch[k] == t[k]
    {
      assert scratch[i] == t[i];
      scratch[i] := Times(f.invRoot, scratch[i]);
    }
  }

  /** The scale of a group. */
  method FitGroup(f: KeyFormat, scratch: array<real>, g: nat, ghost y: seq<real>) returns (rms: real)
    requires f.f16(1.0) != 0.0 && g * GROUP + GROUP <= |y| <= scratch.Length && scratch[..|y|] == y
    ensures rms == GroupScale(f, y, g)
  {
    hide Times, Dot;
    var ss := 0.0;
    ghost var group := Group(y, g);
    DotNothing(At(group), At(group));
    for j := 0 to GROUP
      invariant ss == Dot(At(group), At(group), j)
    {
      var v := scratch[g * GROUP + j];
      assert v == group[j];
      DotOneMore(group, group, j);
      ss := ss + Times(v, v);
    }
    rms := f.f16(f.sqrt(ss / GROUP as real));
    if rms == 0.0 {
      rms := f.f16(1.0);
    }
  }

  /** One group: its scale and its codes. */
  method EncodeGroup(f: KeyFormat, scratch: array<real>, g: nat, groupScales: array<real>, codes: array<u8>, ghost y: seq<real>)
    requires f.f16(1.0) != 0.0 && 0 < |f.centroids| <= 256
    requires |y| % GROUP == 0 && g * GROUP + GROUP <= |y| <= scratch.Length && scratch[..|y|] == y
    requires |y| <= codes.Length && g < groupScales.Length && scratch != groupScales
    modifies groupScales, codes
    ensures groupScales[..] == old(groupScales[..])[g := GroupScale(f, y, g)]
    ensures forall i | g * GROUP <= i < g * GROUP + GROUP :: codes[i] == Code(f, y, i)
    ensures forall i | 0 <= i < codes.Length && (i < g * GROUP || g * GROUP + GROUP <= i) :: codes[i] == old(codes[i])
  {
    hide GroupScale;
    var rms := FitGroup(f, scratch, g, y);
    groupScales[g] := rms;
    for j := 0 to GROUP
      invariant forall i | g * GROUP <= i < g * GROUP + j :: codes[i] == Code(f, y, i)
      invariant forall i | 0 <= i < codes.Length && (i < g * GROUP || g * GROUP + GROUP <= i) :: codes[i] == old(codes[i])
      modifies codes
    {
      assert (g * GROUP + j) / GROUP == g;
      codes[g * GROUP + j] := CountMidpoints(scratch[g * GROUP + j] / rms, f.centroids);
    }
  }

  lemma CodesInRange(bits: nat)
    requires bits <= 8
    ensures Pow2(bits) <= 256
  {
    Pow2Eight();
    Pow2Monotone(bits, 8);
  }

  /** Row and scales encode the key. */
  ghost predicate Encodes(f: KeyFormat, top: nat, key: seq<real>, row: seq<u8>, scales: seq<real>)
    requires f.Valid(top) && |key| == f.headSize && |scales| * GROUP >= f.headSize
  {
    if f.keyBits == 8 then
      |row| >= f.headSize && forall i | 0 <= i < f.headSize :: row[i] == f.toE4m3(key[i])
    else
      var y := Rotated(f, top, key);
      |row| >= RowBytes(f.headSize, f.keyBits) &&
      (forall g | 0 <= g < f.headSize / GROUP :: scales[g] == GroupScale(f, y, g)) &&
      (forall i | 0 <= i < f.headSize :: Codes(row, f.headSize, f.keyBits)[i] == Code(f, y, i))
  }

  method EncodeKeyRow(key: seq<real>, row: array<u8>, groupScales: array<real>, f: KeyFormat, scratch: array<real>, ghost top: nat)
    requires f.Valid(top) && |key| == f.headSize <= scratch.Length && scratch != groupScales
    requires RowBytes(f.headSize, f.keyBits) <= row.Length && f.headSize <= groupScales.Length * GROUP
    modifies row, groupScales, scratch
    ensures Encodes(f, top, key, row[..], groupScales[..])
    ensures row[RowBytes(f.headSize, f.keyBits)..] == old(row[RowBytes(f.headSize, f.keyBits)..])
    ensures groupScales[f.headSize / GROUP..] == old(groupScales[f.headSize / GROUP..])
  {
    hide Pow2, Rotated, Code, GroupScale, UnpackCode, Codes, Number, Value;
    if f.keyBits == 8 {
      for i := 0 to f.headSize
        invariant forall k | 0 <= k < i :: row[k] == f.toE4m3(key[k])
        invariant row[f.headSize..] == old(row[f.headSize..])
        modifies row
      {
        row[i] := f.toE4m3(key[i]);
      }
      return;
    }
    Rotate(key, f, scratch, top);
    ghost var y := Rotated(f, top, key);
    CodesInRange(f.keyBits);
    var codes := new u8[MAX_HEAD];
    for g := 0 to f.headSize / GROUP
      invariant scratch[..f.headSize] == y
      invariant forall k | 0 <= k < g :: groupScales[k] == GroupScale(f, y, k)
      invariant forall i | 0 <= i < g * GROUP :: codes[i] == Code(f, y, i)
      invariant groupScales[f.headSize / GROUP..] == old(groupScales[f.headSize / GROUP..])
      modifies groupScales, codes
    {
      EncodeGroup(f, scratch, g, groupScales, codes, y);
    }
    PackCodes(codes, f.headSize, f.keyBits, row);
    assert row[..][..RowBytes(f.headSize, f.keyBits)] == row[..RowBytes(f.headSize, f.keyBits)];
    RowHoldsCodes(row[..], codes[..f.headSize], f.keyBits);
  }

  // ---------- the decoder ----------

  /** The decoder reads codes and scales only: it computes the inverse rotation of what
      they stand for. */
  method DecodeKeyRow(row: array<u8>, groupScales: array<real>, f: KeyFormat, out: array<real>, scratch: array<real>, ghost top: nat)
    requires f.Valid(top) && f.headSize <= out.Length && f.headSize <= scratch.Length
    requires out != scratch && out != groupScales && scratch != groupScales
    requires f.headSize <= groupScales.Length * GROUP && RowBytes(f.headSize, f.keyBits) <= row.Length
    modifies out, scratch
    ensures f.keyBits == 8 ==> forall i | 0 <= i < f.headSize :: out[i] == f.fromE4m3(row[i])
    ensures f.keyBits < 8 ==>
              out[..f.headSize] == Unrotated(f, top, Dequantised(f, Codes(row[..], f.headSize, f.keyBits), groupScales[..]))
    ensures out[f.headSize..] == old(out[f.headSize..])
  {
    hide Pow2, Transform, UnpackCode, Codes, Times, Low;
    if f.keyBits == 8 {
      for i := 0 to f.headSize
        invariant forall k | 0 <= k < i :: out[k] == f.fromE4m3(row[k])
        invariant out[f.headSize..] == old(out[f.headSize..])
        modifies out
      {
        out[i] := f.fromE4m3(row[i]);
      }
      return;
    }
    ghost var codes := Codes(row[..], f.headSize, f.keyBits);
    ghost var q := Dequantised(f, codes, groupScales[..]);
    for g := 0 to f.headSize / GROUP
      invariant forall i | 0 <= i < g * GROUP :: scratch[i] == q[i]
      modifies scratch
    {
      var rms := groupScales[g];
      for j := 0 to GROUP
        invariant forall i | 0 <= i < g * GROUP + j :: scratch[i] == q[i]
        modifies scratch
      {
        var i := g * GROUP + j;
        assert i / GROUP == g;
        assert Reaches(row[..], i, f.keyBits) && codes[i] == UnpackCode(row[..], i, f.keyBits);
        scratch[i] := Times(f.centroids[UnpackCode(row[..], i, f.keyBits)], rms);
      }
    }
    assert scratch[..f.headSize] == q;
    Fwht(scratch, f.headSize, top);
    ghost var t := scratch[..f.headSize];
    for i := 0 to f.headSize
      invariant forall k | 0 <= k < i :: out[k] == Times(Times(f.invRoot, t[k]), f.signs[k])
      invariant out[f.headSize..] == old(out[f.headSize..])
      modifies out
    {
      assert scratch[i] == t[i];
      out[i] := Times(Times(f.invRoot, scratch[i]), f.signs[i]);
    }
    assert out[..f.headSize] == Unrotated(f, top, q);
  }

  // ---------- store, then load ----------

  /** One key written to a cache slot and read back. */
  method StoreAndLoad(key: seq<real>, row: array<u8>, groupScales: array<real>, f: KeyFormat,
                      out: array<real>, scratch: array<real>, ghost top: nat)
    requires f.Valid(top) && |key| == f.headSize <= scratch.Length && f.headSize <= out.Length
    requires out != scratch && out != groupScales && scratch != groupScales
    requires RowBytes(f.headSize, f.keyBits) <= row.Length && f.headSize <= groupScales.Length * GROUP
    modifies row, groupScales, scratch, out
    ensures f.keyBits == 8 ==> forall i | 0 <= i < f.headSize :: out[i] == f.fromE4m3(f.toE4m3(key[i]))
    ensures f.keyBits < 8 ==> out[..f.headSize] == Unrotated(f, top, Quantised(f, Rotated(f, top, key)))
    ensures f.keyBits < 8 && f.Exact() ==>
              var y := Rotated(f, top, key);
              var e, d := Minus(out[..f.headSize], key), Minus(Quantised(f, y), y);
              Inner(e, e) == Inner(d, d)
  {
    hide Pow2, Transform, UnpackCode, Codes, Code, GroupScale, Times, Low, Rotated, Unrotated, Inner;
    EncodeKeyRow(key, row, groupScales, f, scratch, top);
    DecodeKeyRow(row, groupScales, f, out, scratch, top);
    if f.keyBits < 8 {
      ghost var y := Rotated(f, top, key);
      ghost var codes := Codes(row[..], f.headSize, f.keyBits);
      assert Dequantised(f, codes, groupScales[..]) == Quantised(f, y);
      if f.Exact() {
        KeyErrorIsQuantisationError(f, top, key, Quantised(f, y));
      }
    }
  }
}
