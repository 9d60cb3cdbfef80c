/** The LSB-first bit stream that quantised codes are packed into. */
module BitStream {
  import opened Division

  type u8 = x: nat | x < 256

  function Pow2(k: nat): (p: nat)
    ensures p > 0
  {
    if k == 0 then 1 else 2 * Pow2(k - 1)
  }

  lemma {:induction false} Pow2Add(a: nat, b: nat)
    ensures Pow2(a + b) == Pow2(a) * Pow2(b)
  {
    if a > 0 {
      Pow2Add(a - 1, b);
      assert Pow2(a + b) == 2 * Pow2(a - 1 + b);
    }
  }

  lemma {:induction false} Pow2Monotone(a: nat, b: nat)
    requires a <= b
    ensures Pow2(a) <= Pow2(b)
  {
    if a < b {
      Pow2Monotone(a, b - 1);
    }
  }

  lemma Pow2Eight()
    ensures Pow2(8) == 256
  {
    assert Pow2(4) == 16;
    Pow2Add(4, 4);
  }

  // ---------- bitwise or ----------

  /** Bitwise or of two naturals, bit by bit from the low end. */
  function Or(a: nat, b: nat): nat {
    if a == 0 then b else if b == 0 then a
    else (if a % 2 == 1 || b % 2 == 1 then 1 else 0) + 2 * Or(a / 2, b / 2)
  }

  /** Or-ing in bits above all bits of a adds them. */
  lemma {:induction false} OrAbove(a: nat, b: nat, s: nat)
    requires a < Pow2(s)
    ensures Or(a, b * Pow2(s)) == a + b * Pow2(s)
  {
    if s > 0 {
      assert a / 2 < Pow2(s - 1);
      assert b * Pow2(s) == 2 * (b * Pow2(s - 1));
      OrAbove(a / 2, b, s - 1);
    }
  }

  // ---------- shifts and masks ----------

  function ShiftLeft(v: nat, s: nat): nat {
    v * Pow2(s)
  }

  function ShiftRight(v: nat, s: nat): nat {
    Quot(v, Pow2(s))
  }

  /** The low w bits. */
  function Low(v: nat, w: nat): nat {
    Rem(v, Pow2(w))
  }

  lemma Split(v: nat, w: nat)
    ensures v == Low(v, w) + ShiftLeft(ShiftRight(v, w), w) && Low(v, w) < Pow2(w)
  {
    hide Quot, Rem, Pow2;
    QuotRem(v, Pow2(w));
  }

  lemma SplitIs(v: nat, w: nat, low: nat, high: nat)
    requires v == low + Pow2(w) * high && low < Pow2(w)
    ensures ShiftRight(v, w) == high && Low(v, w) == low
  {
    hide Quot, Rem, Pow2;
    assert Pow2(w) * high == high * Pow2(w);
    QuotIs(v, Pow2(w), high, low);
  }

  lemma LowWhole(v: nat, w: nat)
    requires v < Pow2(w)
    ensures Low(v, w) == v && ShiftRight(v, w) == 0
  {
    hide Low, ShiftRight;
    SplitIs(v, w, v, 0);
  }

  lemma ShiftAdds(n: nat, a: nat, b: nat)
    ensures ShiftRight(n, a + b) == ShiftRight(ShiftRight(n, a), b)
  {
    hide Quot, Rem, Pow2;
    Pow2Add(a, b);
    DivideTwice(n, Pow2(a), Pow2(b));
  }

  /** Shifting left and cutting at bit w keeps the low w - s bits; the rest spills. */
  lemma ShiftSplits(v: nat, s: nat, w: nat)
    requires s <= w
    ensures Low(ShiftLeft(v, s), w) == ShiftLeft(Low(v, w - s), s)
    ensures ShiftRight(ShiftLeft(v, s), w) == ShiftRight(v, w - s)
  {
    hide Quot, Rem, Pow2;
    Pow2Add(w - s, s);
    ScaleDivision(v, Pow2(w - s), Pow2(s));
  }

  /** Shifting right past s bits of the low part moves the high part down. */
  lemma ShiftDown(low: nat, high: nat, s: nat, w: nat)
    requires s <= w && low < Pow2(w)
    ensures ShiftRight(low + Pow2(w) * high, s) == ShiftRight(low, s) + Pow2(w - s) * high
    ensures ShiftRight(low, s) < Pow2(w - s)
  {
    hide Quot, Rem, Pow2;
    var p, r := Pow2(s), Pow2(w - s);
    Pow2Add(s, w - s);
    assert p * r * high == (r * high) * p;
    AddMultiple(low, p, r * high);
    QuotRem(low, p);
    MulMono(r, Quot(low, p), p);
    assert r * p == p * r;
  }

  /** Bits from w upwards do not matter to the low `bits` bits. */
  lemma DropHigh(low: nat, high: nat, w: nat, bits: nat)
    requires bits <= w
    ensures Low(low + Pow2(w) * high, bits) == Low(low, bits)
  {
    hide Quot, Rem, Pow2;
    var p, r := Pow2(bits), Pow2(w - bits);
    Pow2Add(bits, w - bits);
    assert p * r * high == (r * high) * p;
    AddMultiple(low, p, r * high);
  }

  // ---------- digit strings ----------

  /** The number whose base-2^w digits, lowest first, are `digits`. */
  function Value(w: nat, digits: seq<nat>): nat {
    if |digits| == 0 then 0 else digits[0] + Pow2(w) * Value(w, digits[1..])
  }

  predicate InRange(w: nat, digits: seq<nat>) {
    forall i | 0 <= i < |digits| :: digits[i] < Pow2(w)
  }

  lemma {:induction false} ValueConcat(w: nat, a: seq<nat>, b: seq<nat>)
    ensures Value(w, a + b) == Value(w, a) + Pow2(w * |a|) * Value(w, b)
  {
    if |a| == 0 {
      assert a + b == b;
      assert w * 0 == 0;
    } else {
      ValueConcat(w, a[1..], b);
      assert (a + b)[1..] == a[1..] + b;
      assert w * |a| == w + w * |a[1..]|;
      Pow2Add(w, w * |a[1..]|);
      Regroup(a[0], Pow2(w), Value(w, a[1..]), Pow2(w * |a[1..]|), Value(w, b));
    }
  }

  lemma Regroup(d: nat, p: nat, v: nat, r: nat, u: nat)
    ensures d + p * (v + r * u) == (d + p * v) + (p * r) * u
  {
    assert p * (r * u) == (p * r) * u;
    assert p * (v + r * u) == p * v + p * (r * u);
  }

  lemma {:induction false} ValueBound(w: nat, digits: seq<nat>)
    requires InRange(w, digits)
    ensures Value(w, digits) < Pow2(w * |digits|)
  {
    if |digits| == 0 {
      assert w * 0 == 0;
    } else {
      ValueBound(w, digits[1..]);
      assert w * |digits| == w + w * |digits[1..]|;
      Pow2Add(w, w * |digits[1..]|);
      MulMono(Value(w, digits[1..]) + 1, Pow2(w * |digits[1..]|), Pow2(w));
      MulMono(Value(w, digits[1..]), Value(w, digits[1..]), Pow2(w));
    }
  }

  lemma FirstDigit(w: nat, digits: seq<nat>, q: nat)
    requires q < |digits|
    ensures Value(w, digits[q..]) == digits[q] + Pow2(w) * Value(w, digits[q + 1..])
  {
    hide Pow2;
    assert digits[q..][1..] == digits[q + 1..];
  }

  /** The digits from q on, after division by the weight of digit q. */
  lemma DropDigits(w: nat, digits: seq<nat>, q: nat)
    requires InRange(w, digits) && q < |digits|
    ensures ShiftRight(Value(w, digits), w * q) == Value(w, digits[q..])
    ensures Value(w, digits[q..]) == digits[q] + Pow2(w) * Value(w, digits[q + 1..])
    ensures Value(w, digits) == Value(w, digits[..q]) + Pow2(w * q) * Value(w, digits[q..])
  {
    hide Value, Pow2, ShiftRight, Low;
    FirstDigit(w, digits, q);
    assert digits == digits[..q] + digits[q..];
    ValueConcat(w, digits[..q], digits[q..]);
    ValueBound(w, digits[..q]);
    SplitIs(Value(w, digits), w * q, Value(w, digits[..q]), Value(w, digits[q..]));
  }

  /** Digit i is what shifting and masking extract. */
  lemma DigitAt(w: nat, digits: seq<nat>, i: nat)
    requires InRange(w, digits) && i < |digits|
    ensures digits[i] == Low(ShiftRight(Value(w, digits), w * i), w)
  {
    hide Value, Pow2, ShiftRight, Low;
    DropDigits(w, digits, i);
    SplitIs(Value(w, digits[i..]), w, digits[i], Value(w, digits[i + 1..]));
  }

  lemma BelowTimes(p: nat, h: nat, low: nat, bound: nat)
    requires low + p * h < p * bound && p > 0
    ensures h < bound
  {
    MulMono(bound, h, p);
  }

  /** Numbers below 2^(w*q + s) have nothing above digit q, and digit q is below 2^s. */
  lemma HighDigitsClear(w: nat, digits: seq<nat>, q: nat, s: nat)
    requires InRange(w, digits) && q < |digits| && s <= w && Value(w, digits) < Pow2(w * q + s)
    ensures digits[q] < Pow2(s)
    ensures forall k | q < k < |digits| :: digits[k] == 0
  {
    hide Value, Pow2, ShiftRight, Low;
    DropDigits(w, digits, q);
    Pow2Add(w * q, s);
    var high, rest := Value(w, digits[q..]), Value(w, digits[q + 1..]);
    BelowTimes(Pow2(w * q), high, Value(w, digits[..q]), Pow2(s));
    Pow2Monotone(s, w);
    assert Pow2(w) * 1 == Pow2(w);
    BelowTimes(Pow2(w), rest, digits[q], 1);
    ValueZero(w, digits[q + 1..]);
    forall k | q < k < |digits| ensures digits[k] == 0 {
      assert digits[k] == digits[q + 1..][k - q - 1];
    }
  }

  lemma {:induction false} ValueZero(w: nat, digits: seq<nat>)
    ensures Value(w, digits) == 0 ==> forall k | 0 <= k < |digits| :: digits[k] == 0
  {
    if |digits| > 0 {
      MulMono(1, Value(w, digits[1..]), Pow2(w));
      ValueZero(w, digits[1..]);
    }
  }

  lemma ValueUpdate(w: nat, digits: seq<nat>, q: nat, x: nat)
    requires q < |digits| && digits[q] <= x
    ensures Value(w, digits[q := x]) == Value(w, digits) + Pow2(w * q) * (x - digits[q])
  {
    var low, high := digits[..q], digits[q..];
    assert digits == low + high && digits[q := x] == low + high[0 := x];
    ValueConcat(w, low, high);
    ValueConcat(w, low, high[0 := x]);
    assert high[0 := x][1..] == high[1..];
    var d, v := digits[q], Pow2(w) * Value(w, high[1..]);
    assert Pow2(w * q) * (x + v) == Pow2(w * q) * (d + v) + Pow2(w * q) * (x - d);
  }

  // ---------- packing ----------

  function RowBytes(n: nat, bits: nat): nat {
    (n * bits + 7) / 8
  }

  /** The codes as digits, each masked to `bits` bits. */
  function Masked(codes: seq<u8>, bits: nat): (m: seq<nat>)
    ensures |m| == |codes| && InRange(bits, m)
    ensures forall i | 0 <= i < |codes| :: m[i] == Low(codes[i], bits)
  {
    hide Low;
    forall i | 0 <= i < |codes| ensures Low(codes[i], bits) < Pow2(bits) {
      Split(codes[i], bits);
    }
    seq(|codes|, i requires 0 <= i < |codes| => Low(codes[i], bits))
  }

  /** A byte row as digits. */
  function Bytes(row: seq<u8>): (d: seq<nat>)
    ensures |d| == |row| && forall i | 0 <= i < |row| :: d[i] == row[i]
  {
    seq(|row|, i requires 0 <= i < |row| => row[i] as nat)
  }

  /** The number a byte row spells. */
  function Number(row: seq<u8>): nat {
    Value(8, Bytes(row))
  }

  lemma BytesInRange(row: seq<u8>)
    ensures InRange(8, Bytes(row))
  {
    Pow2Eight();
  }

  /** The byte and the bit in it where code i starts. */
  function ByteOf(i: nat, bits: nat): nat {
    (i * bits) / 8
  }

  function BitOf(i: nat, bits: nat): nat {
    (i * bits) % 8
  }

  lemma InRow(i: nat, n: nat, bits: nat)
    requires i < n && 0 < bits <= 8
    ensures ByteOf(i, bits) < RowBytes(n, bits)
    ensures BitOf(i, bits) + bits > 8 ==> ByteOf(i, bits) + 1 < RowBytes(n, bits)
    ensures 8 * ByteOf(i, bits) + BitOf(i, bits) == bits * i && BitOf(i, bits) < 8
  {
    MulMono(i + 1, n, bits);
    MulMono(i, i, bits);
    assert i * bits == bits * i;
  }

  /** What or-ing code v in at bit s adds to the byte, and to the byte after it. */
  function LowPart(v: nat, s: nat): nat {
    Low(ShiftLeft(v, s), 8)
  }

  function HighPart(v: nat, s: nat): nat
    requires s < 8
  {
    ShiftRight(v, 8 - s)
  }

  lemma PartsFit(a: nat, v: nat, s: nat, bits: nat)
    requires s < 8 && a < Pow2(s) && v < Pow2(bits) && bits <= 8
    ensures a + LowPart(v, s) < 256 && Or(a, LowPart(v, s)) == a + LowPart(v, s)
    ensures HighPart(v, s) < 256
    ensures s + bits <= 8 ==> HighPart(v, s) == 0
  {
    hide Pow2, Or, Low, ShiftRight;
    Pow2Monotone(bits, 8);
    Pow2Eight();
    ShiftSplits(v, s, 8);
    Split(v, 8 - s);
    var r := Low(v, 8 - s);
    Pow2Add(8 - s, s);
    MulMono(r + 1, Pow2(8 - s), Pow2(s));
    MulMono(r, r, Pow2(s));
    OrAbove(a, r, s);
    MulMono(1, Pow2(8 - s), HighPart(v, s));
    assert HighPart(v, s) * Pow2(8 - s) == Pow2(8 - s) * HighPart(v, s);
    if s + bits <= 8 {
      Pow2Monotone(bits, 8 - s);
      LowWhole(v, 8 - s);
    }
  }

  lemma WeighParts(q: nat, s: nat, v: nat)
    requires s < 8
    ensures Pow2(8 * q) * LowPart(v, s) + Pow2(8 * (q + 1)) * HighPart(v, s) == Pow2(8 * q + s) * v
  {
    hide Pow2, Low, ShiftRight;
    ShiftSplits(v, s, 8);
    Split(ShiftLeft(v, s), 8);
    Pow2Add(8 * q, 8);
    Pow2Add(8 * q, s);
    Distribute(HighPart(v, s), Pow2(8), LowPart(v, s), Pow2(8 * q));
    assert (v * Pow2(s)) * Pow2(8 * q) == (Pow2(8 * q) * Pow2(s)) * v;
    assert Pow2(8 * q) * LowPart(v, s) == LowPart(v, s) * Pow2(8 * q);
    assert Pow2(8 * (q + 1)) * HighPart(v, s) == HighPart(v, s) * (Pow2(8) * Pow2(8 * q));
  }

  /** The row after code v is or-ed in at bit s of byte q. */
  function Packed(row: seq<u8>, q: nat, s: nat, bits: nat, v: nat): seq<u8>
    requires q < |row| && s < 8 && row[q] + LowPart(v, s) < 256
    requires s + bits > 8 ==> q + 1 < |row| && HighPart(v, s) < 256
  {
    var low := row[q := row[q] + LowPart(v, s)];
    if s + bits > 8 then low[q + 1 := HighPart(v, s)] else low
  }

  /** Storing one code: the row's number grows by the code times its weight. */
  lemma PackStep(row: seq<u8>, q: nat, s: nat, bits: nat, v: nat)
    requires q < |row| && s < 8 && 0 < bits <= 8 && v < Pow2(bits)
    requires s + bits > 8 ==> q + 1 < |row|
    requires Number(row) < Pow2(8 * q + s)
    ensures row[q] + LowPart(v, s) < 256 && Or(row[q], LowPart(v, s)) == row[q] + LowPart(v, s)
    ensures s + bits > 8 ==> row[q + 1] == 0 && HighPart(v, s) < 256
    ensures Number(Packed(row, q, s, bits, v)) == Number(row) + Pow2(8 * q + s) * v
  {
    hide Value, Pow2, Or, LowPart, HighPart;
    BytesInRange(row);
    HighDigitsClear(8, Bytes(row), q, s);
    PartsFit(row[q], v, s, bits);
    WeighParts(q, s, v);
    var low := row[q := row[q] + LowPart(v, s)];
    ValueUpdate(8, Bytes(row), q, row[q] + LowPart(v, s));
    assert Bytes(low) == Bytes(row)[q := row[q] + LowPart(v, s)];
    if s + bits > 8 {
      ValueUpdate(8, Bytes(low), q + 1, HighPart(v, s));
      assert Bytes(low[q + 1 := HighPart(v, s)]) == Bytes(low)[q + 1 := HighPart(v, s)];
    }
  }

  /** The packing loop. Read as a base-256 number, the packed row is the codes read as a
      base-2^bits number: nothing is lost where codes straddle bytes, and all unused
      high bits are zero. Bytes past the row keep their content. */
  method PackCodes(codes: array<u8>, n: nat, bits: nat, out: array<u8>)
    requires 0 < bits <= 8 && n <= codes.Length && RowBytes(n, bits) <= out.Length && codes != out
    modifies out
    ensures Number(out[..RowBytes(n, bits)]) == Value(bits, Masked(codes[..n], bits))
    ensures Number(out[..RowBytes(n, bits)]) < Pow2(bits * n)
    ensures out[RowBytes(n, bits)..] == old(out[RowBytes(n, bits)..])
  {
    hide Value, Or, Pow2, Low, LowPart, HighPart, Number;
    var nbytes := RowBytes(n, bits);
    for b := 0 to nbytes
      invariant forall k | 0 <= k < b :: out[k] == 0
      invariant out[nbytes..] == old(out[nbytes..])
    {
      out[b] := 0;
    }
    ZeroRow(out[..nbytes]);
    NoCodes(bits);
    assert codes[..0] == [];
    for i := 0 to n
      invariant Number(out[..nbytes]) == Value(bits, Masked(codes[..i], bits))
      invariant out[nbytes..] == old(out[nbytes..])
    {
      var bit := i * bits;
      var v := Low(codes[i], bits);
      Split(codes[i], bits);
      if bits == 8 {
        v := codes[i];
        Pow2Eight();
        LowWhole(v, 8);
      }
      ghost var row := out[..nbytes];
      InRow(i, n, bits);
      ValueBound(bits, Masked(codes[..i], bits));
      PackStep(row, bit / 8, bit % 8, bits, v);
      NextCode(codes[..i], codes[i], bits);
      assert codes[..i + 1] == codes[..i] + [codes[i]];
      StoreCode(out, bit / 8, bit % 8, bits, v);
      assert out[..nbytes] == Packed(row, bit / 8, bit % 8, bits, v);
    }
    ValueBound(bits, Masked(codes[..n], bits));
  }

  /** The two or-assignments that put a code in the stream. */
  method StoreCode(out: array<u8>, q: nat, s: nat, bits: nat, v: nat)
    requires q < out.Length && s < 8
    requires out[q] + LowPart(v, s) < 256 && Or(out[q], LowPart(v, s)) == out[q] + LowPart(v, s)
    requires s + bits > 8 ==> q + 1 < out.Length && out[q + 1] == 0 && HighPart(v, s) < 256
    modifies out
    ensures out[..] == Packed(old(out[..]), q, s, bits, v)
  {
    hide Low, ShiftRight, ShiftLeft, Pow2;
    out[q] := Or(out[q], LowPart(v, s));
    if s + bits > 8 {
      out[q + 1] := Or(out[q + 1], HighPart(v, s));
    }
  }

  lemma {:induction false} ZeroRow(row: seq<u8>)
    requires forall k | 0 <= k < |row| :: row[k] == 0
    ensures Number(row) == 0
  {
    if |row| > 0 {
      ZeroRow(row[1..]);
      assert Bytes(row)[1..] == Bytes(row[1..]);
    }
  }

  lemma NoCodes(bits: nat)
    ensures Value(bits, Masked([], bits)) == 0
  {
  }

  lemma NextCode(codes: seq<u8>, code: u8, bits: nat)
    ensures Value(bits, Masked(codes + [code], bits)) ==
            Value(bits, Masked(codes, bits)) + Pow2(bits * |codes|) * Low(code, bits)
  {
    hide Low, Pow2;
    var m := Masked(codes, bits);
    assert Masked(codes + [code], bits) == m + [Low(code, bits)];
    ValueConcat(bits, m, [Low(code, bits)]);
  }

  // ---------- unpacking ----------

  /** Code i lies within the row. */
  predicate Reaches(row: seq<u8>, i: nat, bits: nat) {
    0 < bits <= 8 && ByteOf(i, bits) < |row| && (BitOf(i, bits) + bits > 8 ==> ByteOf(i, bits) + 1 < |row|)
  }

  /** Reading code i from the one or two bytes it touches. */
  function UnpackCode(row: seq<u8>, i: nat, bits: nat): nat
    requires Reaches(row, i, bits)
  {
    var q, s := ByteOf(i, bits), BitOf(i, bits);
    var low := ShiftRight(row[q], s);
    var v := if s + bits > 8 then Or(low, ShiftLeft(row[q + 1], 8 - s)) else low;
    Low(v, bits)
  }

  /** Unpacking extracts the bits [i*bits, (i+1)*bits) of the row's number. */
  lemma UnpackReads(row: seq<u8>, i: nat, bits: nat)
    requires Reaches(row, i, bits)
    ensures UnpackCode(row, i, bits) == Low(ShiftRight(Number(row), bits * i), bits)
  {
    hide Value, Pow2, Or, Low, ShiftRight, ByteOf, BitOf;
    var q, s, d := ByteOf(i, bits), BitOf(i, bits), Bytes(row);
    InRow(i, i + 1, bits);
    BytesInRange(row);
    Pow2Eight();
    DropDigits(8, d, q);
    var rest := Value(8, d[q + 1..]);
    ShiftDown(row[q], rest, s, 8);
    ShiftAdds(Number(row), 8 * q, s);
    var low := ShiftRight(row[q], s);
    if s + bits > 8 {
      OrAbove(low, row[q + 1], 8 - s);
      DropDigits(8, d, q + 1);
      SpillTail(low, row[q + 1], Value(8, d[q + 2..]), s, bits);
    } else {
      DropHigh(low, rest, 8 - s, bits);
    }
  }

  lemma SpillTail(low: nat, next: nat, tail: nat, s: nat, bits: nat)
    requires s < 8 && bits <= 8
    ensures Low(low + Pow2(8 - s) * (next + Pow2(8) * tail), bits) == Low(low + ShiftLeft(next, 8 - s), bits)
  {
    hide Pow2, Low;
    Pow2Add(8 - s, 8);
    var p := Pow2(8 - s);
    assert p * (next + Pow2(8) * tail) == next * p + (p * Pow2(8)) * tail;
    DropHigh(low + next * p, tail, 16 - s, bits);
  }

  /** Round trip: from a row that spells the codes, code i comes back, masked to its
      width, for every width and every straddling position. */
  lemma UnpackPacked(row: seq<u8>, codes: seq<u8>, bits: nat, i: nat)
    requires 0 < bits <= 8 && i < |codes| && |row| >= RowBytes(|codes|, bits)
    requires Number(row[..RowBytes(|codes|, bits)]) == Value(bits, Masked(codes, bits))
    ensures Reaches(row, i, bits)
    ensures UnpackCode(row, i, bits) == Low(codes[i], bits)
    ensures codes[i] < Pow2(bits) ==> UnpackCode(row, i, bits) == codes[i]
  {
    hide Value, Pow2, Or, Low, ShiftRight, Number, ByteOf, BitOf, RowBytes;
    var used := row[..RowBytes(|codes|, bits)];
    InRow(i, |codes|, bits);
    UnpackReads(used, i, bits);
    DigitAt(bits, Masked(codes, bits), i);
    if codes[i] < Pow2(bits) {
      LowWhole(codes[i], bits);
    }
  }

  /** The first n codes of a row. */
  function Codes(row: seq<u8>, n: nat, bits: nat): (c: seq<nat>)
    requires 0 < bits <= 8 && RowBytes(n, bits) <= |row|
    ensures |c| == n && InRange(bits, c)
    ensures forall i | 0 <= i < n :: Reaches(row, i, bits) && c[i] == UnpackCode(row, i, bits)
  {
    forall i | 0 <= i < n ensures Reaches(row, i, bits) && UnpackCode(row, i, bits) < Pow2(bits) {
      CodeFits(row, i, n, bits);
    }
    seq(n, i requires 0 <= i < n => UnpackCode(row, i, bits))
  }

  lemma CodeFits(row: seq<u8>, i: nat, n: nat, bits: nat)
    requires i < n && 0 < bits <= 8 && RowBytes(n, bits) <= |row|
    ensures Reaches(row, i, bits) && UnpackCode(row, i, bits) < Pow2(bits)
  {
    hide Pow2, Low, ByteOf, BitOf, RowBytes, Or, ShiftRight, ShiftLeft;
    InRow(i, n, bits);
    var q, s := ByteOf(i, bits), BitOf(i, bits);
    var low := ShiftRight(row[q], s);
    Split(if s + bits > 8 then Or(low, ShiftLeft(row[q + 1], 8 - s)) else low, bits);
  }

  /** Round trip of a whole row of codes, each masked to its width. */
  lemma RowHoldsCodes(row: seq<u8>, codes: seq<u8>, bits: nat)
    requires 0 < bits <= 8 && RowBytes(|codes|, bits) <= |row|
    requires Number(row[..RowBytes(|codes|, bits)]) == Value(bits, Masked(codes, bits))
    ensures Codes(row, |codes|, bits) == Masked(codes, bits)
    ensures InRange(bits, Bytes(codes)) ==> Codes(row, |codes|, bits) == Bytes(codes)
  {
    hide Pow2, UnpackCode, Number, Value, RowBytes, Low, Codes, Masked;
    forall i | 0 <= i < |codes|
      ensures Codes(row, |codes|, bits)[i] == Low(codes[i], bits)
      ensures codes[i] < Pow2(bits) ==> Codes(row, |codes|, bits)[i] == codes[i]
    {
      UnpackPacked(row, codes, bits, i);
    }
  }
}
