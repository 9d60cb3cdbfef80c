/** The fused Qwen decode step in terms of its buffers. */
module QwenMeaning {
  import opened Division
  import opened RealSums
  import opened Softmax
  import opened Vectors
  import opened DeltaRule
  import opened GatedDelta
  import opened DeltaMeaning
  import opened QwenStep

  /** The fixed query scale is the reciprocal root of the head size, to the last digit of
      its literal. */
  lemma QueryScaleIsRoot()
    ensures -0.000000000000001 < QUERY_SCALE * QUERY_SCALE * 128.0 - 1.0 < 0.000000000000001
    ensures QUERY_SCALE > 0.0
  {
  }

  /** Component i of the query of value head hv in batch entry t: the first 2048 columns of
      a row of 8192 hold 16 query heads of 128, each shared by two value heads. */
  function RawQuery(z: Qwen, t: nat, hv: nat): nat -> real {
    (i: nat) => Peek(z.mixed, t * 8192 + hv / 2 * 128 + i)
  }

  /** The next 2048 columns hold the keys. */
  function RawKey(z: Qwen, t: nat, hv: nat): nat -> real {
    (i: nat) => Peek(z.mixed, t * 8192 + 2048 + hv / 2 * 128 + i)
  }

  /** A head divided by its guarded norm. */
  function Unit(z: Qwen, raw: nat -> real): nat -> real {
    (i: nat) => raw(i) * z.rsqrt(Dot(raw, raw, 128) + 0.000001)
  }

  /** The last 4096 columns hold 32 value heads of 128. */
  function RawValue(z: Qwen, t: nat, hv: nat, d: nat): real {
    Peek(z.mixed, t * 8192 + 4096 + hv * 128 + d)
  }

  /** A row of 64 holds the 32 strengths and then the 32 gates. */
  function RawStrength(z: Qwen, t: nat, hv: nat): real
    requires z.maths.Positive()
  {
    z.maths.Sigmoid(Peek(z.ba, t * 64 + hv))
  }

  function RawDecay(z: Qwen, t: nat, hv: nat): real {
    z.maths.Decay(Peek(z.aLog, hv), Peek(z.ba, t * 64 + 32 + hv) + Peek(z.dtBias, hv))
  }

  lemma NormalisedIs(z: Qwen, row: seq<real>, raw: nat -> real, i: nat)
    requires |row| == 128 && i < 128 && forall j: nat | j < 128 :: row[j] == raw(j)
    ensures z.Normalised(row)[i] == Unit(z, raw)(i)
  {
    hide Dot;
    DotEqual(At(row), At(row), raw, raw, 128);
    TimesLaws(row[i], z.rsqrt(Dot(raw, raw, 128) + 0.000001), 0.0);
  }

  lemma HeadReads(z: Qwen, t: nat, hv: nat, j: nat)
    requires z.Valid() && t < |z.slots| && hv < VALUE_HEADS && j < 128
    ensures z.Query(t, QueryHead(hv))[j] == RawQuery(z, t, hv)(j)
    ensures z.Key(t, QueryHead(hv))[j] == RawKey(z, t, hv)(j)
  {
    assert CONV_DIM == 8192 && QUERY_DIM == 2048 && HEAD == 128 && QueryHead(hv) == hv / 2 && hv / 2 < 16;
    assert t * 8192 + 8192 <= |z.mixed|;
    assert z.Query(t, QueryHead(hv))[j] == z.mixed[t * 8192 + hv / 2 * 128 + j];
    assert z.Key(t, QueryHead(hv))[j] == z.mixed[t * 8192 + 2048 + hv / 2 * 128 + j];
    assert RawQuery(z, t, hv)(j) == Peek(z.mixed, t * 8192 + hv / 2 * 128 + j);
    assert RawKey(z, t, hv)(j) == Peek(z.mixed, t * 8192 + 2048 + hv / 2 * 128 + j);
  }

  /** The token of the fused lane, read from the buffers. */
  lemma FusedReads(z: Qwen, w: Lane, i: nat)
    requires z.Valid() && w.s < |z.slots| && w.hv < VALUE_HEADS && w.d < HEAD && i < 128
    ensures TokenOfStep(z, w).q[i] == Unit(z, RawQuery(z, w.s, w.hv))(i)
    ensures TokenOfStep(z, w).k[i] == Unit(z, RawKey(z, w.s, w.hv))(i)
    ensures TokenOfStep(z, w).v == RawValue(z, w.s, w.hv, w.d)
    ensures TokenOfStep(z, w).beta == RawStrength(z, w.s, w.hv) && TokenOfStep(z, w).g == RawDecay(z, w.s, w.hv)
  {
    hide Unit, Qwen.Normalised, Maths.Decay, Maths.Sigmoid, RawQuery, RawKey, Qwen.Query, Qwen.Key;
    forall j: nat | j < 128
      ensures z.Query(w.s, QueryHead(w.hv))[j] == RawQuery(z, w.s, w.hv)(j) && z.Key(w.s, QueryHead(w.hv))[j] == RawKey(z, w.s, w.hv)(j)
    {
      HeadReads(z, w.s, w.hv, j);
    }
    NormalisedIs(z, z.Query(w.s, QueryHead(w.hv)), RawQuery(z, w.s, w.hv), i);
    NormalisedIs(z, z.Key(w.s, QueryHead(w.hv)), RawKey(z, w.s, w.hv), i);
  }

  /** One state row of the fused step: from s to next. */
  ghost predicate FusedRow(z: Qwen, w: Lane, s: nat -> real, next: nat -> real)
    requires z.maths.Positive()
  {
    var g, key := RawDecay(z, w.s, w.hv), Unit(z, RawKey(z, w.s, w.hv));
    var prediction := Dot((j: nat) => g * s(j), key, 128);
    forall i: nat | i < 128 ::
      next(i) == g * s(i) + key(i) * ((RawValue(z, w.s, w.hv, w.d) - prediction) * RawStrength(z, w.s, w.hv))
  }

  /** The state row of the lane. */
  function StateCells(z: Qwen, w: Lane, ssm: seq<real>): nat -> real
    requires w.s < |z.slots|
  {
    (i: nat) => Peek(ssm, ((z.slots[w.s] * 32 + w.hv) * 128 + w.d) * 128 + i)
  }

  /** What the fused lane does to the state and the output: a lane with a slot takes one
      step on its state row and emits the new row's product with the scaled query; a lane
      without one emits zero. */
  ghost predicate FusedMeans(z: Qwen, w: Lane, was: seq<real>, ssm: seq<real>, out: seq<real>)
    requires z.maths.Positive() && w.s < |z.slots|
  {
    if 0 <= z.slots[w.s] < z.nslots then
      FusedRow(z, w, StateCells(z, w, was), StateCells(z, w, ssm)) &&
      Peek(out, (w.s * 32 + w.hv) * 128 + w.d) ==
      QUERY_SCALE * Dot(StateCells(z, w, ssm), Unit(z, RawQuery(z, w.s, w.hv)), 128)
    else Peek(out, (w.s * 32 + w.hv) * 128 + w.d) == 0.0
  }

  /** One general step by the fused lane's token is a fused row. */
  lemma StepIsFused(z: Qwen, w: Lane, s: seq<real>, i: nat)
    requires z.Valid() && w.s < |z.slots| && w.hv < VALUE_HEADS && w.d < HEAD && |s| == 128 && i < 128
    ensures var g, key := RawDecay(z, w.s, w.hv), Unit(z, RawKey(z, w.s, w.hv));
            Next(s, TokenOfStep(z, w))[i] ==
            g * s[i] + key(i) * ((RawValue(z, w.s, w.hv, w.d) - Dot((j: nat) => g * Peek(s, j), key, 128)) * RawStrength(z, w.s, w.hv))
  {
    hide Unit, Dot, Next, TokenOfStep, RawDecay, RawStrength, RawValue, RawKey;
    var x, g, key := TokenOfStep(z, w), RawDecay(z, w.s, w.hv), Unit(z, RawKey(z, w.s, w.hv));
    FusedReads(z, w, i);
    StepIs(s, x, i);
    forall j: nat | j < 128 ensures Peek(x.k, j) == key(j) {
      FusedReads(z, w, j);
    }
    DotEqual((j: nat) => x.g * Peek(s, j), (j: nat) => Peek(x.k, j), (j: nat) => g * Peek(s, j), key, 128);
  }

  lemma ReadIsFused(z: Qwen, w: Lane, s: seq<real>)
    requires z.Valid() && w.s < |z.slots| && w.hv < VALUE_HEADS && w.d < HEAD && |s| == 128
    ensures Output(s, TokenOfStep(z, w)) ==
            Dot((j: nat) => Peek(Next(s, TokenOfStep(z, w)), j), Unit(z, RawQuery(z, w.s, w.hv)), 128)
  {
    hide Unit, Dot, Next, TokenOfStep, Output, RawQuery;
    var x := TokenOfStep(z, w);
    ReadIs(s, x);
    forall j: nat | j < 128 ensures Peek(x.q, j) == Unit(z, RawQuery(z, w.s, w.hv))(j) {
      FusedReads(z, w, j);
    }
    DotEqual((j: nat) => Peek(Next(s, x), j), (j: nat) => Peek(x.q, j), (j: nat) => Peek(Next(s, x), j), Unit(z, RawQuery(z, w.s, w.hv)), 128);
  }

  /** The state row and the output cell of a fused lane, as the buffers hold them. */
  lemma FusedCells(z: Qwen, batch: Batch, w: Lane, was: seq<real>, ssm: seq<real>, out: seq<real>)
    requires SameStep(z, batch) && ModelOf(z).Valid() && ValidLane(ModelOf(z), batch, w)
    requires StateSized(ModelOf(z), was) && StateSized(ModelOf(z), ssm) && OutSized(ModelOf(z), batch, out)
    requires RanScaled(ModelOf(z), batch, w, QUERY_SCALE, was, ssm, out)
    ensures Peek(out, (w.s * 32 + w.hv) * 128 + w.d) ==
            if batch.SlotOk(ModelOf(z), w.s)
            then Times(QUERY_SCALE, Output(SlotRow(ModelOf(z), batch, w, was), TokenOfStep(z, w))) else 0.0
    ensures batch.SlotOk(ModelOf(z), w.s) ==>
              SlotRow(ModelOf(z), batch, w, ssm) == Next(SlotRow(ModelOf(z), batch, w, was), TokenOfStep(z, w))
  {
    var m := ModelOf(z);
    AtLane(z, batch, w);
    hide SameStep, Next, Output, TokenOfStep, SlotRow, Model.Valid, Batch.Sized, StateSized, OutSized, Final, LaneOutputs;
    OneStep(z, batch, w, SlotRow(m, batch, w, was));
    CellInside(m, batch, w, 0, out);
    assert ReadOutputs(m, batch, w, out)[0] == OutputAt(m, batch, w, 0, out);
    assert OutCell(m, w.s, w.hv, w.d) == (w.s * 32 + w.hv) * 128 + w.d;
    assert Times(QUERY_SCALE, 0.0) == 0.0;
  }

  /** A row that is the general step of the row read is a fused row. */
  lemma RowIsFused(z: Qwen, w: Lane, s: seq<real>, before: nat -> real, after: nat -> real)
    requires z.Valid() && w.s < |z.slots| && w.hv < VALUE_HEADS && w.d < HEAD && |s| == 128
    requires forall i: nat | i < 128 :: s[i] == before(i) && Next(s, TokenOfStep(z, w))[i] == after(i)
    ensures FusedRow(z, w, before, after)
    ensures Output(s, TokenOfStep(z, w)) == Dot(after, Unit(z, RawQuery(z, w.s, w.hv)), 128)
  {
    hide Unit, Dot, Next, Output, TokenOfStep, RawDecay, RawStrength, RawValue, RawKey, RawQuery;
    var g, key := RawDecay(z, w.s, w.hv), Unit(z, RawKey(z, w.s, w.hv));
    DotEqual((j: nat) => g * Peek(s, j), key, (j: nat) => g * before(j), key, 128);
    forall i: nat | i < 128
      ensures after(i) == g * before(i) + key(i) * ((RawValue(z, w.s, w.hv, w.d) - Dot((j: nat) => g * before(j), key, 128)) * RawStrength(z, w.s, w.hv))
    {
      StepIsFused(z, w, s, i);
    }
    ReadIsFused(z, w, s);
    DotEqual((j: nat) => Peek(Next(s, TokenOfStep(z, w)), j), Unit(z, RawQuery(z, w.s, w.hv)), after, Unit(z, RawQuery(z, w.s, w.hv)), 128);
  }

  lemma SlotIsCells(z: Qwen, batch: Batch, w: Lane, ssm: seq<real>, i: nat)
    requires SameStep(z, batch) && ModelOf(z).Valid() && ValidLane(ModelOf(z), batch, w) && StateSized(ModelOf(z), ssm)
    requires batch.SlotOk(ModelOf(z), w.s) && i < 128
    ensures SlotRow(ModelOf(z), batch, w, ssm)[i] == StateCells(z, w, ssm)(i)
  {
    hide SlotRow, Model.Valid, Batch.Sized, StateSized;
    SlotCells(ModelOf(z), batch, w, ssm, i);
  }

  /** What the fused launch leaves is what the buffers' contents say it must. */
  lemma FusedLaneMeans(z: Qwen, batch: Batch, w: Lane, was: seq<real>, ssm: seq<real>, out: seq<real>)
    requires SameStep(z, batch) && ModelOf(z).Valid() && ValidLane(ModelOf(z), batch, w)
    requires StateSized(ModelOf(z), was) && StateSized(ModelOf(z), ssm) && OutSized(ModelOf(z), batch, out)
    requires RanScaled(ModelOf(z), batch, w, QUERY_SCALE, was, ssm, out)
    ensures z.maths.Positive() && w.s < |z.slots| && FusedMeans(z, w, was, ssm, out)
  {
    hide Next, Output, TokenOfStep, SlotRow, StateCells, Model.Valid, Batch.Valid, StateSized, OutSized, RanScaled, Dot, Unit, FusedRow;
    FusedCells(z, batch, w, was, ssm, out);
    var m := ModelOf(z);
    if batch.SlotOk(m, w.s) {
      var s := SlotRow(m, batch, w, was);
      forall i: nat | i < 128
        ensures s[i] == StateCells(z, w, was)(i) && SlotRow(m, batch, w, ssm)[i] == StateCells(z, w, ssm)(i)
      {
        SlotIsCells(z, batch, w, was, i);
        SlotIsCells(z, batch, w, ssm, i);
      }
      RowIsFused(z, w, s, StateCells(z, w, was), StateCells(z, w, ssm));
    }
  }

  /** The fused launch, its work-items in any order, in those terms. */
  method FusedBatch(z: Qwen, ssm: array<real>, out: array<real>, order: seq<Lane>)
    requires z.Valid() && ModelOf(z).Valid() && BatchOf(z).Valid(ModelOf(z)) && SlotsApart(ModelOf(z), BatchOf(z))
    requires Schedule(ModelOf(z), BatchOf(z), order) && ssm != out
    requires StateSized(ModelOf(z), ssm[..]) && OutSized(ModelOf(z), BatchOf(z), out[..])
    modifies ssm, out
    ensures forall w: Lane | w.s < |z.slots| && w.hv < 32 && w.d < 128 :: FusedMeans(z, w, old(ssm[..]), ssm[..], out[..])
    ensures forall x: nat | x < ssm.Length && Spared(ModelOf(z), BatchOf(z), x) :: ssm[x] == old(ssm[x])
  {
    hide FusedMeans, RanScaled, SameStep, Spared, Silent, StateSized, OutSized, SlotsApart, Schedule, Model.Valid, Batch.Valid;
    ghost var was := ssm[..];
    BatchOfIsSameStep(z);
    FusedLaunch(z, BatchOf(z), ssm, out, order);
    forall w: Lane | w.s < |z.slots| && w.hv < 32 && w.d < 128 ensures FusedMeans(z, w, was, ssm[..], out[..]) {
      assert ValidLane(ModelOf(z), BatchOf(z), w);
      FusedLaneMeans(z, BatchOf(z), w, was, ssm[..], out[..]);
    }
  }
}
