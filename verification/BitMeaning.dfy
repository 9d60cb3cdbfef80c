/** The packed row bit by bit: a little-endian stream of the codes' low bits. */
module BitMeaning {
  import opened Division
  import opened BitStream

  /** Bit i of x. */
  function Bit(x: nat, i: nat): nat {
    x / Pow2(i) % 2
  }

  lemma BitIs(x: nat, i: nat)
    ensures Bit(x, i) == Low(ShiftRight(x, i), 1)
  {
    assert Pow2(1) == 2;
  }

  lemma BitIsBit(x: nat, i: nat)
    ensures Bit(x, i) < 2
  {
  }

  /** Masking to `width` bits keeps the bits below. */
  lemma LowBit(x: nat, width: nat, i: nat)
    requires i < width
    ensures Bit(Low(x, width), i) == Bit(x, i)
  {
    hide Low, ShiftRight, Bit, Pow2;
    Split(x, width);
    BitIs(x, i);
    BitIs(Low(x, width), i);
    var high := ShiftRight(x, width);
    assert ShiftLeft(high, width) == Pow2(width) * high;
    ShiftDown(Low(x, width), high, i, width);
    DropHigh(ShiftRight(Low(x, width), i), high, width - i, 1);
  }

  /** Bit k of a number is bit k % w of its digit k / w. */
  lemma BitOfValue(w: nat, digits: seq<nat>, q: nat, s: nat)
    requires InRange(w, digits) && q < |digits| && s < w
    ensures Bit(Value(w, digits), w * q + s) == Bit(digits[q], s)
  {
    hide Low, ShiftRight, Bit, Pow2, Value;
    BitIs(Value(w, digits), w * q + s);
    BitIs(digits[q], s);
    DropDigits(w, digits, q);
    ShiftAdds(Value(w, digits), w * q, s);
    var rest := Value(w, digits[q + 1..]);
    ShiftDown(digits[q], rest, s, w);
    DropHigh(ShiftRight(digits[q], s), rest, w - s, 1);
  }

  /** A number below 2^k has no bits from k on. */
  lemma NoBits(x: nat, k: nat, i: nat)
    requires x < Pow2(k) && k <= i
    ensures Bit(x, i) == 0
  {
    hide Low, ShiftRight, Bit, Pow2;
    Pow2Monotone(k, i);
    LowWhole(x, i);
    BitIs(x, i);
    Pow2Monotone(0, 1);
    ZeroLow();
  }

  lemma ZeroLow()
    ensures Low(0, 1) == 0
  {
    assert Pow2(1) == 2;
  }

  /** The row is as long as its bits need, and no longer. */
  lemma RowBytesIsCeil(n: nat, bits: nat)
    ensures n * bits <= 8 * RowBytes(n, bits) < n * bits + 8
  {
  }

  /** Or works bit by bit. */
  lemma {:induction false} OrBits(a: nat, b: nat, i: nat)
    ensures Bit(Or(a, b), i) == if Bit(a, i) == 1 || Bit(b, i) == 1 then 1 else 0
    decreases i
  {
    if a == 0 || b == 0 {
      ZeroBit(i);
      BitIsBit(a, i);
      BitIsBit(b, i);
    } else if i == 0 {
      LowestBit(a);
      LowestBit(b);
      LowestBit(Or(a, b));
    } else {
      OrBits(a / 2, b / 2, i - 1);
      HalfBit(a, i);
      HalfBit(b, i);
      HalfBit(Or(a, b), i);
      assert Or(a, b) / 2 == Or(a / 2, b / 2);
    }
  }

  lemma ZeroBit(i: nat)
    ensures Bit(0, i) == 0
  {
    hide Pow2;
    DivUnique(0, Pow2(i), 0);
  }

  lemma LowestBit(x: nat)
    ensures Bit(x, 0) == x % 2
  {
    assert Pow2(0) == 1;
  }

  lemma HalfBit(x: nat, i: nat)
    requires i > 0
    ensures Bit(x, i) == Bit(x / 2, i - 1)
  {
    hide Low, ShiftRight, Bit, Pow2;
    BitIs(x, i);
    BitIs(x / 2, i - 1);
    ShiftAdds(x, 1, i - 1);
    HalfIs(x);
  }

  lemma HalfIs(x: nat)
    ensures ShiftRight(x, 1) == x / 2
  {
    assert Pow2(1) == 2;
  }

  /** The code that stream bit k belongs to, and the bit of that code. */
  function CodeOf(k: nat, bits: nat): nat
    requires bits > 0
  {
    k / bits
  }

  function PlaceOf(k: nat, bits: nat): nat
    requires bits > 0
  {
    k % bits
  }

  lemma PlaceIn(k: nat, bits: nat, n: nat)
    requires bits > 0
    ensures bits * CodeOf(k, bits) + PlaceOf(k, bits) == k && PlaceOf(k, bits) < bits
    ensures k < n * bits ==> CodeOf(k, bits) < n
  {
    if k < n * bits {
      DivBelow(k, bits, n);
    }
  }

  /** Bit k of a row that spells the codes. */
  lemma PackedBit(row: seq<u8>, codes: seq<u8>, bits: nat, k: nat)
    requires 0 < bits <= 8 && |row| == RowBytes(|codes|, bits) && k < 8 * |row|
    requires Number(row) == Value(bits, Masked(codes, bits))
    ensures k < |codes| * bits ==> CodeOf(k, bits) < |codes|
    ensures Bit(row[k / 8], k % 8) == if k < |codes| * bits then Bit(codes[CodeOf(k, bits)], PlaceOf(k, bits)) else 0
  {
    hide Low, ShiftRight, Bit, Pow2, Value, RowBytes, Masked, CodeOf, PlaceOf;
    var digits := Masked(codes, bits);
    BytesInRange(row);
    BitOfValue(8, Bytes(row), k / 8, k % 8);
    PlaceIn(k, bits, |codes|);
    if k < |codes| * bits {
      var q, s := CodeOf(k, bits), PlaceOf(k, bits);
      BitOfValue(bits, digits, q, s);
      LowBit(codes[q], bits, s);
    } else {
      ValueBound(bits, digits);
      Commute(bits, |codes|);
      NoBits(Value(bits, digits), bits * |codes|, k);
    }
  }

  lemma Commute(a: nat, b: nat)
    ensures a * b == b * a
  {
  }

  /** Packing, bit by bit: bit k of the row, lowest bit of the first byte first, is bit
      k % bits of code k / bits; the bits after the last code are zero, and the bytes after
      the row keep their content. */
  method PackBits(codes: array<u8>, n: nat, bits: nat, out: array<u8>)
    requires 0 < bits <= 8 && n <= codes.Length && RowBytes(n, bits) <= out.Length && codes != out
    modifies out
    ensures forall k: nat | k < 8 * RowBytes(n, bits) ::
              StreamBit(codes[..n], bits, k, Bit(out[k / 8], k % 8))
    ensures forall x | RowBytes(n, bits) <= x < out.Length :: out[x] == old(out[x])
  {
    hide Bit, Pow2, Value, Number, Masked, CodeOf, PlaceOf, RowBytes;
    PackCodes(codes, n, bits, out);
    var size := RowBytes(n, bits);
    forall k: nat | k < 8 * size ensures StreamBit(codes[..n], bits, k, Bit(out[k / 8], k % 8)) {
      PackedBit(out[..size], codes[..n], bits, k);
    }
    assert forall x | size <= x < out.Length :: out[x] == out[size..][x - size] && old(out[x]) == old(out[size..])[x - size];
  }

  /** Bit k of the stream is b: the bit of its code, or zero past the last code. */
  predicate StreamBit(codes: seq<u8>, bits: nat, k: nat, b: nat)
    requires bits > 0
  {
    if k < |codes| * bits then CodeOf(k, bits) < |codes| && b == Bit(codes[CodeOf(k, bits)], PlaceOf(k, bits)) else b == 0
  }
}
