/** The fused Qwen decode step, and why it is one token of the general kernel. */
module QwenStep {
  import opened RealSums
  import opened Vectors
  import opened Softmax
  import opened DeltaRule
  import opened GatedDelta

  const QUERY_HEADS: nat := 16
  const VALUE_HEADS: nat := 32
  const HEAD: nat := 128
  const QUERY_DIM: nat := QUERY_HEADS * HEAD
  const KEY_DIM: nat := QUERY_HEADS * HEAD
  const VALUE_DIM: nat := VALUE_HEADS * HEAD
  const CONV_DIM: nat := QUERY_DIM + KEY_DIM + VALUE_DIM
  const BA_DIM: nat := 2 * VALUE_HEADS
  const EPS: real := 0.000001
  const QUERY_SCALE: real := 0.08838834764831845

  /** The inputs of one decode step: one token for each entry of the batch. */
  datatype Qwen = Qwen(maths: Maths, rsqrt: real -> real, mixed: seq<real>, ba: seq<real>, aLog: seq<real>, dtBias: seq<real>,
                       slots: seq<int>, nslots: nat)
  {
    ghost predicate Valid() {
      maths.Positive() && |aLog| == |dtBias| == VALUE_HEADS &&
      |mixed| >= |slots| * CONV_DIM && |ba| >= |slots| * BA_DIM
    }

    function Query(t: nat, hk: nat): (r: seq<real>)
      requires |mixed| >= |slots| * CONV_DIM && t < |slots| && hk < QUERY_HEADS
      ensures |r| == HEAD
    {
      mixed[t * CONV_DIM + hk * HEAD..t * CONV_DIM + hk * HEAD + HEAD]
    }

    function Key(t: nat, hk: nat): (r: seq<real>)
      requires |mixed| >= |slots| * CONV_DIM && t < |slots| && hk < QUERY_HEADS
      ensures |r| == HEAD
    {
      mixed[t * CONV_DIM + QUERY_DIM + hk * HEAD..t * CONV_DIM + QUERY_DIM + hk * HEAD + HEAD]
    }

    function Value(t: nat, hv: nat, d: nat): real
      requires |mixed| >= |slots| * CONV_DIM && t < |slots| && hv < VALUE_HEADS && d < HEAD
    {
      mixed[t * CONV_DIM + QUERY_DIM + KEY_DIM + hv * HEAD + d]
    }

    function B(t: nat, hv: nat): real
      requires |ba| >= |slots| * BA_DIM && t < |slots| && hv < VALUE_HEADS
    {
      ba[t * BA_DIM + hv]
    }

    function A(t: nat, hv: nat): real
      requires |ba| >= |slots| * BA_DIM && t < |slots| && hv < VALUE_HEADS
    {
      ba[t * BA_DIM + VALUE_HEADS + hv]
    }

    function Normalised(row: seq<real>): (r: seq<real>)
      ensures |r| == |row|
    {
      DeltaRule.Normalised(row, rsqrt, EPS)
    }
  }

  /** The general kernel's parameters for these shapes. */
  function ModelOf(z: Qwen): Model {
    Model(z.maths, z.aLog, Some(z.dtBias), QUERY_HEADS, HEAD, VALUE_HEADS, HEAD, z.nslots)
  }

  /** The batch of the general kernel that holds the same step: one token a sequence, query
      and key normalised beforehand, the same values and gates. */
  ghost predicate SameStep(z: Qwen, batch: Batch) {
    z.Valid() && batch.Valid(ModelOf(z)) && batch.slots == z.slots && batch.hasInitial == None &&
    (forall s: nat | s < |batch.cu| :: batch.cu[s] == s) &&
    (forall t: nat, hk: nat | t < |z.slots| && hk < QUERY_HEADS :: SameHead(z, batch, t, hk)) &&
    (forall t: nat, hv: nat | t < |z.slots| && hv < VALUE_HEADS :: SameGates(z, batch, t, hv)) &&
    (forall t: nat, hv: nat, d: nat | t < |z.slots| && hv < VALUE_HEADS && d < HEAD :: SameValue(z, batch, t, hv, d))
  }

  predicate SameHead(z: Qwen, batch: Batch, t: nat, hk: nat)
    requires |z.mixed| >= |z.slots| * CONV_DIM && t < |z.slots| && hk < QUERY_HEADS
  {
    var r := Index(t, hk, QUERY_HEADS);
    Index(r, 0, HEAD) + HEAD <= |batch.q| && Row(batch.q, r, HEAD) == z.Normalised(z.Query(t, hk)) &&
    Index(r, 0, HEAD) + HEAD <= |batch.k| && Row(batch.k, r, HEAD) == z.Normalised(z.Key(t, hk))
  }

  predicate SameGates(z: Qwen, batch: Batch, t: nat, hv: nat)
    requires |z.ba| >= |z.slots| * BA_DIM && t < |z.slots| && hv < VALUE_HEADS
  {
    var h := Index(t, hv, VALUE_HEADS);
    h < |batch.b| && batch.b[h] == z.B(t, hv) && h < |batch.a| && batch.a[h] == z.A(t, hv)
  }

  predicate SameValue(z: Qwen, batch: Batch, t: nat, hv: nat, d: nat)
    requires |z.mixed| >= |z.slots| * CONV_DIM && t < |z.slots| && hv < VALUE_HEADS && d < HEAD
  {
    var c := OutCell(ModelOf(z), t, hv, d);
    c < |batch.v| && batch.v[c] == z.Value(t, hv, d)
  }

  // ---------- one lane ----------

  /** The prediction loop: the row is read, decayed on the fly and not written. */
  method Predict(ssm: array<real>, base: nat, decay: real, key: seq<real>) returns (prediction: real)
    requires |key| == HEAD && base + HEAD <= ssm.Length
    ensures prediction == Inner(Scale(decay, ssm[base..base + HEAD]), key)
  {
    hide Times, Dot;
    ghost var decayed := Scale(decay, ssm[base..base + HEAD]);
    prediction := 0.0;
    DotNothing(At(decayed), At(key));
    for k := 0 to HEAD
      invariant prediction == Dot(At(decayed), At(key), k)
    {
      DotOneMore(decayed, key, k);
      prediction := prediction + Times(Times(decay, ssm[base + k]), key[k]);
    }
  }

  /** The update loop: each cell is decayed and corrected in place while the output builds. */
  method Update(ssm: array<real>, base: nat, decay: real, key: seq<real>, delta: real, query: seq<real>) returns (output: real)
    requires |key| == |query| == HEAD && base + HEAD <= ssm.Length
    modifies ssm
    ensures ssm[base..base + HEAD] == Corrected(Scale(decay, old(ssm[base..base + HEAD])), key, delta)
    ensures output == Inner(Corrected(Scale(decay, old(ssm[base..base + HEAD])), key, delta), query)
    ensures ssm[..base] == old(ssm[..base]) && ssm[base + HEAD..] == old(ssm[base + HEAD..])
  {
    hide Times, Dot;
    ghost var next := Corrected(Scale(decay, ssm[base..base + HEAD]), key, delta);
    output := 0.0;
    DotNothing(At(next), At(query));
    for k := 0 to HEAD
      invariant forall j | 0 <= j < k :: ssm[base + j] == next[j]
      invariant forall x | 0 <= x < ssm.Length && !(base <= x < base + k) :: ssm[x] == old(ssm[x])
      invariant output == Dot(At(next), At(query), k)
    {
      var updated := Times(decay, ssm[base + k]) + Times(delta, key[k]);
      TimesLaws(delta, key[k], 0.0);
      ssm[base + k] := updated;
      DotOneMore(next, query, k);
      output := output + Times(updated, query[k]);
    }
  }

  function QueryHead(hv: nat): nat
    requires hv < VALUE_HEADS
  {
    hv / (VALUE_HEADS / QUERY_HEADS)
  }

  /** The token that the general kernel's lane w reads. */
  function TokenOfStep(z: Qwen, w: Lane): (x: Token)
    requires z.Valid() && w.s < |z.slots| && w.hv < VALUE_HEADS && w.d < HEAD
    ensures Fits(x, HEAD)
  {
    var decay := z.maths.Decay(z.aLog[w.hv], z.A(w.s, w.hv) + z.dtBias[w.hv]);
    Token(z.Normalised(z.Query(w.s, QueryHead(w.hv))), z.Normalised(z.Key(w.s, QueryHead(w.hv))),
          z.Value(w.s, w.hv, w.d), z.maths.Sigmoid(z.B(w.s, w.hv)), decay)
  }

  /** What a step's batch says about lane w. */
  lemma AtLane(z: Qwen, batch: Batch, w: Lane)
    requires SameStep(z, batch) && ValidLane(ModelOf(z), batch, w)
    ensures batch.Len(w.s) == 1 && batch.cu[w.s] == w.s && batch.cu[|batch.slots|] == |batch.slots|
    ensures SameHead(z, batch, w.s, QueryHead(w.hv)) && SameGates(z, batch, w.s, w.hv) && SameValue(z, batch, w.s, w.hv, w.d)
  {
    hide SameHead, SameGates, SameValue, Batch.Sized;
  }

  lemma SameKeyHead(z: Qwen, hv: nat)
    requires hv < VALUE_HEADS
    ensures ModelOf(z).KeyHead(hv) == QueryHead(hv)
  {
  }

  lemma InStep(z: Qwen, batch: Batch, w: Lane)
    requires SameStep(z, batch) && ValidLane(ModelOf(z), batch, w) && ModelOf(z).Valid()
    ensures InBatch(ModelOf(z), batch, w.s, w.hv, w.d)
  {
    AtLane(z, batch, w);
  }

  lemma SameRows(z: Qwen, batch: Batch, w: Lane)
    requires InBatch(ModelOf(z), batch, w.s, w.hv, w.d) && w.s < |z.slots| && z.Valid()
    requires SameHead(z, batch, w.s, QueryHead(w.hv))
    ensures TokenAt(ModelOf(z), batch, w.s, w.hv, w.d).q == TokenOfStep(z, w).q
    ensures TokenAt(ModelOf(z), batch, w.s, w.hv, w.d).k == TokenOfStep(z, w).k
  {
    SameKeyHead(z, w.hv);
    hide Index, Qwen.Normalised, Qwen.Query, Qwen.Key, QueryHead, Model.KeyHead, Batch.Valid, Model.Valid, Row,
         BetaAt, GateAt, ValueAt, Maths.Sigmoid, Maths.Decay, Qwen.A, Qwen.B, Qwen.Value;
  }

  lemma SameScalars(z: Qwen, batch: Batch, w: Lane)
    requires InBatch(ModelOf(z), batch, w.s, w.hv, w.d) && w.s < |z.slots| && z.Valid()
    requires SameGates(z, batch, w.s, w.hv) && SameValue(z, batch, w.s, w.hv, w.d)
    ensures TokenAt(ModelOf(z), batch, w.s, w.hv, w.d).beta == TokenOfStep(z, w).beta
    ensures TokenAt(ModelOf(z), batch, w.s, w.hv, w.d).g == TokenOfStep(z, w).g
    ensures TokenAt(ModelOf(z), batch, w.s, w.hv, w.d).v == TokenOfStep(z, w).v
  {
    hide Index, OutCell, Qwen.A, Qwen.B, Qwen.Value, Batch.Valid, Maths.Sigmoid, Maths.Decay, QueryAt, KeyAt, Qwen.Normalised,
         Qwen.Query, Qwen.Key, QueryHead;
  }

  lemma SameTokenAt(z: Qwen, batch: Batch, w: Lane)
    requires SameStep(z, batch) && ValidLane(ModelOf(z), batch, w) && ModelOf(z).Valid()
    ensures InBatch(ModelOf(z), batch, w.s, w.hv, w.d)
    ensures TokenAt(ModelOf(z), batch, w.s, w.hv, w.d) == TokenOfStep(z, w)
  {
    AtLane(z, batch, w);
    InStep(z, batch, w);
    hide InBatch, TokenAt, TokenOfStep, SameHead, SameGates, SameValue, Batch.Valid, Model.Valid;
    SameRows(z, batch, w);
    SameScalars(z, batch, w);
  }

  lemma SameToken(z: Qwen, batch: Batch, w: Lane)
    requires SameStep(z, batch) && ValidLane(ModelOf(z), batch, w) && ModelOf(z).Valid()
    ensures batch.Len(w.s) == 1 && Tokens(ModelOf(z), batch, w) == [TokenOfStep(z, w)]
  {
    var m := ModelOf(z);
    AtLane(z, batch, w);
    SameTokenAt(z, batch, w);
    hide Model.Valid, Batch.Sized, SameHead, SameGates, SameValue, TokenAt, TokenOfStep;
    assert Tokens(m, batch, w)[0] == TokenOf(m, batch, w, 0);
  }

  /** A one-token run. */
  lemma OneToken(s: seq<real>, x: Token)
    requires Fits(x, |s|)
    ensures Run(s, [x]) == Next(s, x) && Outputs(s, [x]) == [Output(s, x)]
  {
    hide Next, Output;
    assert RunTo(s, [x], 1) == Next(RunTo(s, [x], 0), x);
    assert OutputsTo(s, [x], 1) == OutputsTo(s, [x], 0) + [Output(RunTo(s, [x], 0), x)];
  }

  /** What the general kernel's lane does in one such step. */
  lemma OneStep(z: Qwen, batch: Batch, w: Lane, row: seq<real>)
    requires SameStep(z, batch) && ValidLane(ModelOf(z), batch, w) && |row| == HEAD && ModelOf(z).Valid()
    ensures batch.Len(w.s) == 1
    ensures var m, x := ModelOf(z), TokenOfStep(z, w);
            if batch.SlotOk(m, w.s) then
              Final(m, batch, w, row) == Next(row, x) && LaneOutputs(m, batch, w, row) == [Output(row, x)]
            else
              Final(m, batch, w, row) == row && LaneOutputs(m, batch, w, row) == [0.0]
  {
    SameToken(z, batch, w);
    hide Next, Output, TokenOfStep, Tokens, SameStep, Run, Outputs;
    OneToken(row, TokenOfStep(z, w));
  }

  /** The fused lane leaves in the slot row what the general kernel's lane leaves, and
      emits that lane's output times the fixed query scale. */
  method FusedLane(z: Qwen, ghost batch: Batch, w: Lane, ssm: array<real>, out: array<real>)
    requires SameStep(z, batch) && ModelOf(z).Valid() && ValidLane(ModelOf(z), batch, w) && ssm != out
    requires StateSized(ModelOf(z), ssm[..]) && OutSized(ModelOf(z), batch, out[..])
    modifies ssm, out
    ensures SlotRow(ModelOf(z), batch, w, ssm[..]) == Final(ModelOf(z), batch, w, SlotRow(ModelOf(z), batch, w, old(ssm[..])))
    ensures forall x: nat | x < ssm.Length && !Touches(ModelOf(z), batch, w, x) :: ssm[x] == old(ssm[x])
    ensures batch.Len(w.s) == 1
    ensures StateSized(ModelOf(z), ssm[..]) && OutSized(ModelOf(z), batch, out[..])
    ensures ReadOutputs(ModelOf(z), batch, w, out[..]) ==
            Scale(QUERY_SCALE, LaneOutputs(ModelOf(z), batch, w, SlotRow(ModelOf(z), batch, w, old(ssm[..]))))
    ensures SameElsewhere(ModelOf(z), batch, w, old(out[..]), out[..])
  {
    ghost var m := ModelOf(z);
    ghost var row := SlotRow(m, batch, w, ssm[..]);
    OneStep(z, batch, w, row);
    var cell := Index(Index(w.s, w.hv, VALUE_HEADS), w.d, HEAD);
    ghost var emitted := out[..];
    var slot := z.slots[w.s];
    var y := 0.0;
    if 0 <= slot < z.nslots {
      y := FusedStep(z, batch, w, ssm);
    }
    StoreCell(z, batch, w, emitted, y);
    out[cell] := y;
    assert out[..] == emitted[cell := y];
    assert [y] == Scale(QUERY_SCALE, LaneOutputs(m, batch, w, row));
  }

  lemma StoreCell(z: Qwen, batch: Batch, w: Lane, out: seq<real>, y: real)
    requires SameStep(z, batch) && ModelOf(z).Valid() && ValidLane(ModelOf(z), batch, w) && OutSized(ModelOf(z), batch, out)
    ensures var cell := Index(Index(w.s, w.hv, VALUE_HEADS), w.d, HEAD);
            cell < |out| && OutSized(ModelOf(z), batch, out[cell := y]) &&
            ReadOutputs(ModelOf(z), batch, w, out[cell := y]) == [y] && SameElsewhere(ModelOf(z), batch, w, out, out[cell := y])
  {
    var m := ModelOf(z);
    assert batch.Len(w.s) == 1 && batch.cu[w.s] == w.s;
    hide SameStep, Index, Model.Valid, Batch.Sized;
    StoreOutput(m, batch, w, 0, out, y);
    assert OutCell(m, w.s, w.hv, w.d) == Index(Index(w.s, w.hv, VALUE_HEADS), w.d, HEAD);
  }

  /** The loops on the state row, for a given token. */
  method FusedLoops(x: Token, ssm: array<real>, base: nat) returns (output: real)
    requires Fits(x, HEAD) && base + HEAD <= ssm.Length
    modifies ssm
    ensures ssm[base..base + HEAD] == Next(old(ssm[base..base + HEAD]), x)
    ensures output == Times(QUERY_SCALE, Output(old(ssm[base..base + HEAD]), x))
    ensures forall k: nat | k < ssm.Length && !(base <= k < base + HEAD) :: ssm[k] == old(ssm[k])
  {
    hide Times, Dot, Scale, Corrected;
    ghost var row := ssm[base..base + HEAD];
    var query := Scale(QUERY_SCALE, x.q);
    var prediction := Predict(ssm, base, x.g, x.k);
    var delta := Times(x.v - prediction, x.beta);
    output := Update(ssm, base, x.g, x.k, delta, query);
    DotScaleRight(Next(row, x), QUERY_SCALE, x.q, HEAD);
    Outside(old(ssm[..]), ssm[..], base);
  }

  lemma Outside(before: seq<real>, now: seq<real>, base: nat)
    requires |before| == |now| && base + HEAD <= |now|
    ensures now[..base] == before[..base] && now[base + HEAD..] == before[base + HEAD..] ==>
              forall x: nat | x < |now| && !(base <= x < base + HEAD) :: now[x] == before[x]
  {
    forall x: nat | x < |now| && !(base <= x < base + HEAD) && now[..base] == before[..base] && now[base + HEAD..] == before[base + HEAD..]
      ensures now[x] == before[x]
    {
      if x < base {
        assert now[..base][x] == before[..base][x];
      } else {
        assert now[base + HEAD..][x - base - HEAD] == before[base + HEAD..][x - base - HEAD];
      }
    }
  }

  /** Where the lane's state row starts. */
  function Base(z: Qwen, w: Lane): nat
    requires w.s < |z.slots| && z.slots[w.s] >= 0
  {
    Index(Index(Index(z.slots[w.s], w.hv, VALUE_HEADS), w.d, HEAD), 0, HEAD)
  }

  lemma RowAtBase(z: Qwen, batch: Batch, w: Lane, ssm: seq<real>)
    requires SameStep(z, batch) && ValidLane(ModelOf(z), batch, w) && batch.SlotOk(ModelOf(z), w.s) && StateSized(ModelOf(z), ssm)
    ensures z.slots[w.s] >= 0 && Base(z, w) + HEAD <= |ssm|
    ensures SlotRow(ModelOf(z), batch, w, ssm) == ssm[Base(z, w)..Base(z, w) + HEAD]
    ensures forall x: nat :: Touches(ModelOf(z), batch, w, x) <==> Base(z, w) <= x < Base(z, w) + HEAD
  {
    StateRowIn(ModelOf(z), batch, w, ssm);
    AtLane(z, batch, w);
    hide Batch.Sized, StateSized, Index;
  }

  /** The work on the state row. */
  method FusedStep(z: Qwen, ghost batch: Batch, w: Lane, ssm: array<real>) returns (output: real)
    requires SameStep(z, batch) && ModelOf(z).Valid() && ValidLane(ModelOf(z), batch, w) && batch.SlotOk(ModelOf(z), w.s)
    requires StateSized(ModelOf(z), ssm[..])
    modifies ssm
    ensures StateSized(ModelOf(z), ssm[..])
    ensures var row := SlotRow(ModelOf(z), batch, w, old(ssm[..]));
            SlotRow(ModelOf(z), batch, w, ssm[..]) == Next(row, TokenOfStep(z, w)) &&
            output == Times(QUERY_SCALE, Output(row, TokenOfStep(z, w)))
    ensures forall x: nat | x < ssm.Length && !Touches(ModelOf(z), batch, w, x) :: ssm[x] == old(ssm[x])
  {
    RowAtBase(z, batch, w, ssm[..]);
    hide TokenOfStep, Next, Output, Times, Base, SlotRow, Touches;
    var base := Base(z, w);
    output := FusedLoops(TokenOfStep(z, w), ssm, base);
    RowAtBase(z, batch, w, ssm[..]);
  }

  // ---------- the whole launch ----------

  /** The fused launch, its work-items in any order: every slot row ends as the general
      kernel leaves it, every output is the general kernel's times the query scale, and
      nothing else moves. */
  method FusedLaunch(z: Qwen, ghost batch: Batch, ssm: array<real>, out: array<real>, order: seq<Lane>)
    requires SameStep(z, batch) && ModelOf(z).Valid() && SlotsApart(ModelOf(z), batch)
    requires Schedule(ModelOf(z), batch, order) && ssm != out
    requires StateSized(ModelOf(z), ssm[..]) && OutSized(ModelOf(z), batch, out[..])
    modifies ssm, out
    ensures StateSized(ModelOf(z), ssm[..]) && OutSized(ModelOf(z), batch, out[..])
    ensures forall w: Lane | ValidLane(ModelOf(z), batch, w) ::
              RanScaled(ModelOf(z), batch, w, QUERY_SCALE, old(ssm[..]), ssm[..], out[..])
    ensures forall x: nat | x < ssm.Length && Spared(ModelOf(z), batch, x) :: ssm[x] == old(ssm[x])
    ensures forall x: nat | x < out.Length && Silent(ModelOf(z), batch, x) :: out[x] == old(out[x])
  {
    ghost var m := ModelOf(z);
    hide SameStep, Model.Valid, Batch.Valid, SlotRow, Final, LaneOutputs, ReadOutputs, Touches, Emits, Writes, SlotsApart, Schedule,
         Progress, ValidLane, ModelOf, StateSized, OutSized;
    ghost var was, out0 := ssm[..], out[..];
    StepBatchValid(z, batch);
    NoLaneYet(m, batch, QUERY_SCALE, order, was, out0);
    for k := 0 to |order|
      invariant Progress(m, batch, QUERY_SCALE, order, k, was, out0, ssm[..], out[..])
    {
      ghost var before, emitted := ssm[..], out[..];
      Sizes(m, batch, QUERY_SCALE, order, k, was, out0, before, emitted);
      FusedLane(z, batch, order[k], ssm, out);
      OneLane(m, batch, QUERY_SCALE, order, k, was, out0, before, emitted, ssm[..], out[..]);
    }
    AllLanes(m, batch, QUERY_SCALE, order, was, out0, ssm[..], out[..]);
  }

  lemma StepBatchValid(z: Qwen, batch: Batch)
    requires SameStep(z, batch)
    ensures batch.Valid(ModelOf(z))
  {
  }

  // ---------- a batch for every step ----------

  /** Head row R of the normalised queries, or of the keys. */
  function HeadRow(z: Qwen, keys: bool, R: nat): (r: seq<real>)
    requires |z.mixed| >= |z.slots| * CONV_DIM && R < |z.slots| * QUERY_HEADS
    ensures |r| == HEAD
  {
    z.Normalised(if keys then z.Key(R / QUERY_HEADS, R % QUERY_HEADS) else z.Query(R / QUERY_HEADS, R % QUERY_HEADS))
  }

  /** All head rows, one after the other. */
  function Heads(z: Qwen, keys: bool): (r: seq<real>)
    requires |z.mixed| >= |z.slots| * CONV_DIM
    ensures |r| == |z.slots| * QUERY_HEADS * HEAD
    ensures forall x: nat | x < |r| :: r[x] == HeadRow(z, keys, x / HEAD)[x % HEAD]
  {
    seq(|z.slots| * QUERY_HEADS * HEAD, x requires 0 <= x < |z.slots| * QUERY_HEADS * HEAD => HeadRow(z, keys, x / HEAD)[x % HEAD])
  }

  function Values(z: Qwen): (r: seq<real>)
    requires |z.mixed| >= |z.slots| * CONV_DIM
    ensures |r| == |z.slots| * VALUE_HEADS * HEAD
    ensures forall x: nat | x < |r| :: r[x] == z.Value(x / HEAD / VALUE_HEADS, x / HEAD % VALUE_HEADS, x % HEAD)
  {
    seq(|z.slots| * VALUE_HEADS * HEAD, x requires 0 <= x < |z.slots| * VALUE_HEADS * HEAD =>
      z.Value(x / HEAD / VALUE_HEADS, x / HEAD % VALUE_HEADS, x % HEAD))
  }

  function Gates(z: Qwen, a: bool): (r: seq<real>)
    requires |z.ba| >= |z.slots| * BA_DIM
    ensures |r| == |z.slots| * VALUE_HEADS
    ensures forall x: nat | x < |r| ::
              r[x] == if a then z.A(x / VALUE_HEADS, x % VALUE_HEADS) else z.B(x / VALUE_HEADS, x % VALUE_HEADS)
  {
    seq(|z.slots| * VALUE_HEADS, x requires 0 <= x < |z.slots| * VALUE_HEADS =>
      if a then z.A(x / VALUE_HEADS, x % VALUE_HEADS) else z.B(x / VALUE_HEADS, x % VALUE_HEADS))
  }

  /** The inputs that the general kernel is given for the same step. */
  function BatchOf(z: Qwen): Batch
    requires |z.mixed| >= |z.slots| * CONV_DIM && |z.ba| >= |z.slots| * BA_DIM
  {
    Batch(Heads(z, false), Heads(z, true), Values(z), Gates(z, false), Gates(z, true),
          seq(|z.slots| + 1, (i: nat) => i), z.slots, None)
  }

  lemma HeadOf(z: Qwen, keys: bool, t: nat, hk: nat)
    requires |z.mixed| >= |z.slots| * CONV_DIM && t < |z.slots| && hk < QUERY_HEADS
    ensures var R := Index(t, hk, QUERY_HEADS);
            R < |z.slots| * QUERY_HEADS && Index(R, 0, HEAD) + HEAD <= |Heads(z, keys)| &&
            Row(Heads(z, keys), R, HEAD) == z.Normalised(if keys then z.Key(t, hk) else z.Query(t, hk))
  {
    hide Qwen.Normalised, Qwen.Key, Qwen.Query;
    var R := Index(t, hk, QUERY_HEADS);
    assert R / QUERY_HEADS == t && R % QUERY_HEADS == hk;
    forall i: nat | i < HEAD ensures Heads(z, keys)[Index(R, 0, HEAD) + i] == HeadRow(z, keys, R)[i] {
      assert (Index(R, 0, HEAD) + i) / HEAD == R && (Index(R, 0, HEAD) + i) % HEAD == i;
    }
    assert Row(Heads(z, keys), R, HEAD) == HeadRow(z, keys, R);
  }

  lemma ScalarsOf(z: Qwen, t: nat, hv: nat, d: nat)
    requires z.Valid() && t < |z.slots| && hv < VALUE_HEADS && d < HEAD
    ensures SameGates(z, BatchOf(z), t, hv) && SameValue(z, BatchOf(z), t, hv, d)
  {
    hide Qwen.A, Qwen.B, Qwen.Value;
    var h := Index(t, hv, VALUE_HEADS);
    assert h / VALUE_HEADS == t && h % VALUE_HEADS == hv;
    var c := OutCell(ModelOf(z), t, hv, d);
    assert c / HEAD == h && c % HEAD == d;
  }

  /** Every fused step is a step of the general kernel. */
  lemma BatchOfIsSameStep(z: Qwen)
    requires z.Valid()
    ensures ModelOf(z).Valid() && SameStep(z, BatchOf(z))
  {
    var batch := BatchOf(z);
    hide Qwen.Normalised, Index, OutCell, Row;
    forall t: nat, hk: nat | t < |z.slots| && hk < QUERY_HEADS ensures SameHead(z, batch, t, hk) {
      HeadOf(z, false, t, hk);
      HeadOf(z, true, t, hk);
    }
    hide SameHead, SameGates, SameValue;
    forall t: nat, hv: nat, d: nat | t < |z.slots| && hv < VALUE_HEADS && d < HEAD
      ensures SameGates(z, batch, t, hv) && SameValue(z, batch, t, hv, d)
    {
      ScalarsOf(z, t, hv, d);
    }
    forall t: nat, hv: nat | t < |z.slots| && hv < VALUE_HEADS ensures SameGates(z, batch, t, hv) {
      ScalarsOf(z, t, hv, 0);
    }
  }
}
