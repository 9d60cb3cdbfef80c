/** The gated delta rule launch in terms of its buffers: for every lane there is a sequence
    of state rows, from the one read to the one stored, that obeys the recurrence. */
module DeltaMeaning {
  import opened Division
  import opened RealSums
  import opened Softmax
  import opened Vectors
  import opened DeltaRule
  import opened GatedDelta

  function Peek(x: seq<real>, a: int): real {
    if 0 <= a < |x| then x[a] else 0.0
  }

  // ---------- one token ----------

  lemma PredictionIs(s: seq<real>, x: Token)
    requires Fits(x, |s|)
    ensures Inner(Scale(x.g, s), x.k) == Dot((j: nat) => x.g * Peek(s, j), (j: nat) => Peek(x.k, j), |s|)
  {
    hide Dot;
    DotEqual((j: nat) => x.g * Peek(s, j), (j: nat) => Peek(x.k, j), At(Scale(x.g, s)), At(x.k), |s|);
  }

  /** One step on a row, component by component. */
  lemma StepIs(s: seq<real>, x: Token, i: nat)
    requires Fits(x, |s|) && i < |s|
    ensures var kv := Dot((j: nat) => x.g * Peek(s, j), (j: nat) => Peek(x.k, j), |s|);
            Next(s, x)[i] == x.g * s[i] + x.k[i] * ((x.v - kv) * x.beta)
  {
    hide Inner, Dot;
    PredictionIs(s, x);
    ElementIs(x.g, s[i], x.k[i], x.v - Inner(Scale(x.g, s), x.k), x.beta);
    hide Times;
    assert Next(s, x)[i] == Times(x.g, s[i]) + Times(x.k[i], Times(x.v - Inner(Scale(x.g, s), x.k), x.beta));
  }

  lemma ElementIs(g: real, s: real, k: real, e: real, beta: real)
    ensures Times(g, s) + Times(k, Times(e, beta)) == g * s + k * (e * beta)
  {
  }

  lemma ReadIs(s: seq<real>, x: Token)
    requires Fits(x, |s|)
    ensures Output(s, x) == Dot((j: nat) => Peek(Next(s, x), j), (j: nat) => Peek(x.q, j), |s|)
  {
    hide Dot, Next;
    DotEqual((j: nat) => Peek(Next(s, x), j), (j: nat) => Peek(x.q, j), At(Next(s, x)), At(x.q), |s|);
  }

  // ---------- what a token is, in the inputs ----------

  /** The key head of value head hv: Hv / Hk consecutive value heads share one. */
  function HeadOf(m: Model, hv: nat): nat
    requires m.Hk > 0 && m.Hv / m.Hk > 0
  {
    hv / (m.Hv / m.Hk)
  }

  function QueryIn(m: Model, B: Batch, t: nat, hv: nat, i: nat): real
    requires m.Hk > 0 && m.Hv / m.Hk > 0
  {
    Peek(B.q, (t * m.Hk + HeadOf(m, hv)) * m.dk + i)
  }

  function KeyIn(m: Model, B: Batch, t: nat, hv: nat, i: nat): real
    requires m.Hk > 0 && m.Hv / m.Hk > 0
  {
    Peek(B.k, (t * m.Hk + HeadOf(m, hv)) * m.dk + i)
  }

  function ValueIn(m: Model, B: Batch, t: nat, hv: nat, d: nat): real {
    Peek(B.v, (t * m.Hv + hv) * m.dv + d)
  }

  function StrengthIn(m: Model, B: Batch, t: nat, hv: nat): real
    requires m.maths.Positive()
  {
    m.maths.Sigmoid(Peek(B.b, t * m.Hv + hv))
  }

  function DecayIn(m: Model, B: Batch, t: nat, hv: nat): real {
    m.maths.Decay(Peek(m.aLog, hv), Peek(B.a, t * m.Hv + hv) + if m.dtBias.Some? then Peek(m.dtBias.value, hv) else 0.0)
  }

  lemma HeadsShared(m: Model, hv: nat)
    requires m.Valid() && hv < m.Hv
    ensures m.Hv / m.Hk > 0 && HeadOf(m, hv) < m.Hk && m.KeyHead(hv) == HeadOf(m, hv)
  {
    GroupedHeads(hv, m.Hv, m.Hk);
  }

  /** The token that lane (hv, d) takes at position t is read from these places. */
  lemma TokenReads(m: Model, B: Batch, t: nat, hv: nat, d: nat, i: nat)
    requires InBatch(m, B, t, hv, d) && i < m.dk
    ensures m.Hk > 0 && m.Hv / m.Hk > 0
    ensures TokenAt(m, B, t, hv, d).q[i] == QueryIn(m, B, t, hv, i)
    ensures TokenAt(m, B, t, hv, d).k[i] == KeyIn(m, B, t, hv, i)
  {
    HeadsShared(m, hv);
    TokenInside(m, B, t, hv, d);
    hide Model.KeyHead, Batch.Valid, BetaAt, GateAt, ValueAt, HeadOf;
  }

  lemma TokenScalars(m: Model, B: Batch, t: nat, hv: nat, d: nat)
    requires InBatch(m, B, t, hv, d)
    ensures TokenAt(m, B, t, hv, d).v == ValueIn(m, B, t, hv, d)
    ensures TokenAt(m, B, t, hv, d).beta == StrengthIn(m, B, t, hv)
    ensures TokenAt(m, B, t, hv, d).g == DecayIn(m, B, t, hv)
  {
    TokenInside(m, B, t, hv, d);
    hide Model.KeyHead, Batch.Valid, QueryAt, KeyAt, Maths.Decay, Maths.Sigmoid;
  }

  // ---------- a lane's trace ----------

  /** Row t + 1 of the trace follows row t by the token at position cu[s] + t, and the
      output cell of that token holds its reading with the query (0 without a slot). */
  ghost predicate Follows(m: Model, B: Batch, w: Lane, trace: seq<seq<real>>, t: nat, out: seq<real>)
    requires m.Hk > 0 && m.Hv / m.Hk > 0 && w.s < |B.cu| && w.s < |B.slots| && t + 1 < |trace|
    requires |trace[t]| == |trace[t + 1]| == m.dk && m.maths.Positive()
  {
    var T, s, next := B.cu[w.s] + t, trace[t], trace[t + 1];
    var g, beta := DecayIn(m, B, T, w.hv), Peek(B.b, T * m.Hv + w.hv);
    var kv := Dot((j: nat) => g * Peek(s, j), (j: nat) => KeyIn(m, B, T, w.hv, j), m.dk);
    && (forall i | 0 <= i < m.dk ::
          next[i] == g * s[i] + KeyIn(m, B, T, w.hv, i) * ((ValueIn(m, B, T, w.hv, w.d) - kv) * m.maths.Sigmoid(beta)))
    && Peek(out, (T * m.Hv + w.hv) * m.dv + w.d) ==
       if 0 <= B.slots[w.s] < m.nslots then Dot((j: nat) => Peek(next, j), (j: nat) => QueryIn(m, B, T, w.hv, j), m.dk) else 0.0
  }

  /** Cell i of the state row of a lane. */
  function StateAt(m: Model, B: Batch, w: Lane, ssm: seq<real>, i: nat): real
    requires w.s < |B.slots|
  {
    Peek(ssm, ((B.slots[w.s] * m.Hv + w.hv) * m.dv + w.d) * m.dk + i)
  }

  /** The lane reads its slot, or starts from zeros; each token follows; the last row is
      stored when there is a slot and a token. */
  ghost predicate IsTrace(m: Model, B: Batch, w: Lane, was: seq<real>, trace: seq<seq<real>>, ssm: seq<real>, out: seq<real>)
    requires m.Valid() && B.Valid(m) && ValidLane(m, B, w)
  {
    var n := B.cu[w.s + 1] - B.cu[w.s];
    var slotOk := 0 <= B.slots[w.s] < m.nslots;
    && |trace| == n + 1 && m.Hv / m.Hk > 0 && (forall t | 0 <= t <= n :: |trace[t]| == m.dk)
    && (forall i | 0 <= i < m.dk ::
          trace[0][i] == if slotOk && (B.hasInitial.Some? ==> B.hasInitial.value[w.s]) then StateAt(m, B, w, was, i) else 0.0)
    && (forall t: nat | t < n :: Follows(m, B, w, trace, t, out))
    && (slotOk && n > 0 ==> forall i | 0 <= i < m.dk :: StateAt(m, B, w, ssm, i) == trace[n][i])
  }

  lemma {:induction false} OutputsAt(s: seq<real>, xs: seq<Token>, n: nat, t: nat)
    requires AllFit(xs, |s|) && t < n <= |xs|
    ensures OutputsTo(s, xs, n)[t] == Output(RunTo(s, xs, t), xs[t])
  {
    hide Next, Output;
    if t < n - 1 {
      OutputsAt(s, xs, n - 1, t);
    }
  }

  function TraceOf(m: Model, B: Batch, w: Lane, was: seq<real>): (trace: seq<seq<real>>)
    requires m.Valid() && B.Valid(m) && ValidLane(m, B, w) && StateSized(m, was)
    ensures |trace| == B.Len(w.s) + 1
    ensures forall t | 0 <= t <= B.Len(w.s) :: |trace[t]| == m.dk && trace[t] == RunTo(Initial(m, B, w, SlotRow(m, B, w, was)), Tokens(m, B, w), t)
  {
    seq(B.Len(w.s) + 1, t requires 0 <= t <= B.Len(w.s) => RunTo(Initial(m, B, w, SlotRow(m, B, w, was)), Tokens(m, B, w), t))
  }

  /** The row read from or written to the slot, cell by cell. */
  lemma SlotCells(m: Model, B: Batch, w: Lane, ssm: seq<real>, i: nat)
    requires m.Valid() && B.Valid(m) && ValidLane(m, B, w) && StateSized(m, ssm) && B.SlotOk(m, w.s) && i < m.dk
    ensures SlotRow(m, B, w, ssm)[i] == StateAt(m, B, w, ssm, i)
  {
    hide Model.Valid, Batch.Valid, StateSized;
    StateRowIn(m, B, w, ssm);
  }

  /** One step by the token at position T, in terms of the inputs. */
  lemma StepInInputs(m: Model, B: Batch, T: nat, hv: nat, d: nat, s: seq<real>, i: nat)
    requires InBatch(m, B, T, hv, d) && |s| == m.dk && i < m.dk
    ensures m.Hk > 0 && m.Hv / m.Hk > 0
    ensures var x, g := TokenAt(m, B, T, hv, d), DecayIn(m, B, T, hv);
            var kv := Dot((j: nat) => g * Peek(s, j), (j: nat) => KeyIn(m, B, T, hv, j), m.dk);
            Next(s, x)[i] == g * s[i] + KeyIn(m, B, T, hv, i) * ((ValueIn(m, B, T, hv, d) - kv) * StrengthIn(m, B, T, hv))
  {
    hide Dot, InBatch, TokenAt, Next, DecayIn, ValueIn, StrengthIn, KeyIn, QueryIn;
    TokenScalars(m, B, T, hv, d);
    TokenReads(m, B, T, hv, d, i);
    var x, g := TokenAt(m, B, T, hv, d), DecayIn(m, B, T, hv);
    StepIs(s, x, i);
    forall j: nat | j < m.dk ensures Peek(x.k, j) == KeyIn(m, B, T, hv, j) {
      TokenReads(m, B, T, hv, d, j);
    }
    DotEqual((j: nat) => x.g * Peek(s, j), (j: nat) => Peek(x.k, j), (j: nat) => g * Peek(s, j), (j: nat) => KeyIn(m, B, T, hv, j), m.dk);
  }

  lemma ReadInInputs(m: Model, B: Batch, T: nat, hv: nat, d: nat, s: seq<real>)
    requires InBatch(m, B, T, hv, d) && |s| == m.dk
    ensures m.Hk > 0 && m.Hv / m.Hk > 0
    ensures var x := TokenAt(m, B, T, hv, d);
            Output(s, x) == Dot((j: nat) => Peek(Next(s, x), j), (j: nat) => QueryIn(m, B, T, hv, j), m.dk)
  {
    hide Dot, InBatch, TokenAt, Next, Output, KeyIn, QueryIn;
    var x := TokenAt(m, B, T, hv, d);
    GroupSize(m, B, T, hv, d);
    ReadIs(s, x);
    forall j: nat | j < m.dk ensures Peek(x.q, j) == QueryIn(m, B, T, hv, j) {
      TokenReads(m, B, T, hv, d, j);
    }
    DotEqual((j: nat) => Peek(Next(s, x), j), (j: nat) => Peek(x.q, j), (j: nat) => Peek(Next(s, x), j), (j: nat) => QueryIn(m, B, T, hv, j), m.dk);
  }

  lemma GroupSize(m: Model, B: Batch, T: nat, hv: nat, d: nat)
    requires InBatch(m, B, T, hv, d)
    ensures m.Hk > 0 && m.Hv / m.Hk > 0
  {
    HeadsShared(m, hv);
  }

  /** The trace takes one token at a time. */
  lemma TraceStep(m: Model, B: Batch, w: Lane, was: seq<real>, t: nat)
    requires m.Valid() && B.Valid(m) && ValidLane(m, B, w) && StateSized(m, was) && t < B.Len(w.s)
    ensures InBatch(m, B, B.cu[w.s] + t, w.hv, w.d)
    ensures TraceOf(m, B, w, was)[t + 1] == Next(TraceOf(m, B, w, was)[t], TokenAt(m, B, B.cu[w.s] + t, w.hv, w.d))
  {
    hide Next, TokenAt, SlotRow, Initial, Model.Valid, Batch.Sized, StateSized;
    Ordered(m, B, w.s, |B.slots|);
    var xs := Tokens(m, B, w);
    assert xs[t] == TokenOf(m, B, w, t);
  }

  /** The output cell of token t, when the lane has a slot and when it has none. */
  lemma CellOf(m: Model, B: Batch, w: Lane, was: seq<real>, ssm: seq<real>, out: seq<real>, t: nat)
    requires m.Valid() && B.Valid(m) && ValidLane(m, B, w) && StateSized(m, was) && StateSized(m, ssm) && OutSized(m, B, out)
    requires t < B.Len(w.s) && Ran(m, B, w, was, ssm, out)
    ensures InBatch(m, B, B.cu[w.s] + t, w.hv, w.d)
    ensures Peek(out, ((B.cu[w.s] + t) * m.Hv + w.hv) * m.dv + w.d) ==
            if B.SlotOk(m, w.s) then Output(TraceOf(m, B, w, was)[t], TokenAt(m, B, B.cu[w.s] + t, w.hv, w.d)) else 0.0
  {
    hide Next, Output, TokenAt, SlotRow, Initial, Model.Valid, Batch.Sized, StateSized, OutSized, Final;
    TraceStep(m, B, w, was, t);
    CellInside(m, B, w, t, out);
    assert ReadOutputs(m, B, w, out)[t] == OutputAt(m, B, w, t, out);
    var xs := Tokens(m, B, w);
    assert xs[t] == TokenOf(m, B, w, t);
    OutputsAt(Initial(m, B, w, SlotRow(m, B, w, was)), xs, |xs|, t);
  }

  /** One token of the trace. */
  lemma TokenFollows(m: Model, B: Batch, w: Lane, was: seq<real>, ssm: seq<real>, out: seq<real>, t: nat)
    requires m.Valid() && B.Valid(m) && ValidLane(m, B, w) && StateSized(m, was) && StateSized(m, ssm) && OutSized(m, B, out)
    requires t < B.Len(w.s) && Ran(m, B, w, was, ssm, out)
    ensures m.Hv / m.Hk > 0 && Follows(m, B, w, TraceOf(m, B, w, was), t, out)
  {
    hide Dot, InBatch, TokenAt, Next, Output, DecayIn, ValueIn, KeyIn, QueryIn, Ran, TraceOf, Model.Valid, Batch.Sized,
         StateSized, OutSized, Maths.Sigmoid, Maths.Positive;
    HeadsShared(m, w.hv);
    TraceStep(m, B, w, was, t);
    CellOf(m, B, w, was, ssm, out, t);
    var T, s := B.cu[w.s] + t, TraceOf(m, B, w, was)[t];
    MathsPositive(m);
    ReadInInputs(m, B, T, w.hv, w.d, s);
    forall i: nat | i < m.dk
      ensures TraceOf(m, B, w, was)[t + 1][i] == Next(s, TokenAt(m, B, T, w.hv, w.d))[i]
      ensures var g := DecayIn(m, B, T, w.hv);
              var kv := Dot((j: nat) => g * Peek(s, j), (j: nat) => KeyIn(m, B, T, w.hv, j), m.dk);
              Next(s, TokenAt(m, B, T, w.hv, w.d))[i] ==
              g * s[i] + KeyIn(m, B, T, w.hv, i) * ((ValueIn(m, B, T, w.hv, w.d) - kv) * StrengthIn(m, B, T, w.hv))
    {
      StepInInputs(m, B, T, w.hv, w.d, s, i);
    }
  }

  lemma MathsPositive(m: Model)
    requires m.Valid()
    ensures m.maths.Positive()
  {
  }

  /** The trace starts from what the lane reads and ends in what it stores. */
  lemma TraceEnds(m: Model, B: Batch, w: Lane, was: seq<real>)
    requires m.Valid() && B.Valid(m) && ValidLane(m, B, w) && StateSized(m, was)
    ensures TraceOf(m, B, w, was)[0] == Initial(m, B, w, SlotRow(m, B, w, was))
    ensures Writes(m, B, w) ==> TraceOf(m, B, w, was)[B.Len(w.s)] == Final(m, B, w, SlotRow(m, B, w, was))
  {
    hide Next, Tokens, SlotRow, Model.Valid, Batch.Sized, StateSized, Initial;
  }

  /** The first row of the trace, cell by cell. */
  lemma TraceStarts(m: Model, B: Batch, w: Lane, was: seq<real>, i: nat)
    requires m.Valid() && B.Valid(m) && ValidLane(m, B, w) && StateSized(m, was) && i < m.dk
    ensures TraceOf(m, B, w, was)[0][i] ==
            if 0 <= B.slots[w.s] < m.nslots && (B.hasInitial.Some? ==> B.hasInitial.value[w.s]) then StateAt(m, B, w, was, i) else 0.0
  {
    hide TraceOf, SlotRow, StateAt, Model.Valid, Batch.Sized, StateSized, Final;
    TraceEnds(m, B, w, was);
    if B.SlotOk(m, w.s) {
      SlotCells(m, B, w, was, i);
    }
  }

  /** The stored row, cell by cell. */
  lemma TraceStored(m: Model, B: Batch, w: Lane, was: seq<real>, ssm: seq<real>, out: seq<real>, i: nat)
    requires m.Valid() && B.Valid(m) && ValidLane(m, B, w) && StateSized(m, was) && StateSized(m, ssm) && OutSized(m, B, out)
    requires Ran(m, B, w, was, ssm, out) && i < m.dk && Writes(m, B, w)
    ensures StateAt(m, B, w, ssm, i) == TraceOf(m, B, w, was)[B.Len(w.s)][i]
  {
    hide TraceOf, SlotRow, StateAt, Model.Valid, Batch.Sized, StateSized, Final, ReadOutputs, LaneOutputs, OutSized;
    TraceEnds(m, B, w, was);
    SlotCells(m, B, w, ssm, i);
  }

  /** Every lane of the launch has a trace. */
  lemma LaneHasTrace(m: Model, B: Batch, w: Lane, was: seq<real>, ssm: seq<real>, out: seq<real>)
    requires m.Valid() && B.Valid(m) && ValidLane(m, B, w) && StateSized(m, was) && StateSized(m, ssm) && OutSized(m, B, out)
    requires Ran(m, B, w, was, ssm, out)
    ensures IsTrace(m, B, w, was, TraceOf(m, B, w, was), ssm, out)
  {
    hide TraceOf, SlotRow, StateAt, Batch.Sized, StateSized, OutSized, Follows, Ran;
    HeadsShared(m, w.hv);
    var trace := TraceOf(m, B, w, was);
    forall t: nat | t < B.Len(w.s) ensures Follows(m, B, w, trace, t, out) {
      TokenFollows(m, B, w, was, ssm, out, t);
    }
    forall i: nat | i < m.dk
      ensures trace[0][i] == if 0 <= B.slots[w.s] < m.nslots && (B.hasInitial.Some? ==> B.hasInitial.value[w.s]) then StateAt(m, B, w, was, i) else 0.0
    {
      TraceStarts(m, B, w, was, i);
    }
    if Writes(m, B, w) {
      forall i: nat | i < m.dk ensures StateAt(m, B, w, ssm, i) == trace[B.Len(w.s)][i] {
        TraceStored(m, B, w, was, ssm, out, i);
      }
    }
  }

  /** The launch, its work-items in any order, in terms of its buffers. */
  method DeltaBatch(m: Model, B: Batch, ssm: array<real>, out: array<real>, order: seq<Lane>)
    requires m.Valid() && B.Valid(m) && SlotsApart(m, B) && Schedule(m, B, order) && ssm != out
    requires StateSized(m, ssm[..]) && OutSized(m, B, out[..])
    modifies ssm, out
    ensures forall w: Lane | ValidLane(m, B, w) ::
              exists trace: seq<seq<real>> :: IsTrace(m, B, w, old(ssm[..]), trace, ssm[..], out[..])
    ensures forall x: nat | x < ssm.Length && Spared(m, B, x) :: ssm[x] == old(ssm[x])
    ensures forall x: nat | x < out.Length && Silent(m, B, x) :: out[x] == old(out[x])
  {
    hide IsTrace, Ran, Spared, Silent, Model.Valid, Batch.Valid, SlotsApart, Schedule, ValidLane, StateSized, OutSized;
    ghost var was := ssm[..];
    Launch(m, B, ssm, out, order);
    forall w: Lane | ValidLane(m, B, w)
      ensures exists trace: seq<seq<real>> :: IsTrace(m, B, w, was, trace, ssm[..], out[..])
    {
      LaneHasTrace(m, B, w, was, ssm[..], out[..]);
    }
  }
}
