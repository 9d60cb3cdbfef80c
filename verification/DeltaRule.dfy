/** The gated delta rule on one state row: decay, predict, correct, read out. */
module DeltaRule {
  import opened RealSums
  import opened Vectors

  /** What one token contributes to one lane: normalised query and key, the lane's value,
      the write strength and the decay. */
  datatype Token = Token(q: seq<real>, k: seq<real>, v: real, beta: real, g: real)

  predicate Fits(x: Token, n: nat) {
    |x.q| == n && |x.k| == n
  }

  predicate AllFit(xs: seq<Token>, n: nat) {
    forall i | 0 <= i < |xs| :: Fits(xs[i], n)
  }

  function Corrected(s: seq<real>, k: seq<real>, delta: real): (r: seq<real>)
    requires |s| == |k|
    ensures |r| == |s| && forall i | 0 <= i < |s| :: r[i] == s[i] + Times(k[i], delta)
  {
    seq(|s|, i requires 0 <= i < |s| => s[i] + Times(k[i], delta))
  }

  /** The state row after one token. */
  function Next(s: seq<real>, x: Token): (r: seq<real>)
    requires Fits(x, |s|)
    ensures |r| == |s|
  {
    var decayed := Scale(x.g, s);
    Corrected(decayed, x.k, Times(x.v - Inner(decayed, x.k), x.beta))
  }

  /** The lane's output for that token. */
  function Output(s: seq<real>, x: Token): real
    requires Fits(x, |s|)
  {
    Inner(Next(s, x), x.q)
  }

  /** The state row after the first n tokens. */
  function RunTo(s: seq<real>, xs: seq<Token>, n: nat): (r: seq<real>)
    requires AllFit(xs, |s|) && n <= |xs|
    ensures |r| == |s|
  {
    if n == 0 then s else Next(RunTo(s, xs, n - 1), xs[n - 1])
  }

  /** The outputs of the first n tokens. */
  function OutputsTo(s: seq<real>, xs: seq<Token>, n: nat): (r: seq<real>)
    requires AllFit(xs, |s|) && n <= |xs|
    ensures |r| == n
  {
    if n == 0 then [] else OutputsTo(s, xs, n - 1) + [Output(RunTo(s, xs, n - 1), xs[n - 1])]
  }

  function Run(s: seq<real>, xs: seq<Token>): (r: seq<real>)
    requires AllFit(xs, |s|)
    ensures |r| == |s|
  {
    RunTo(s, xs, |xs|)
  }

  function Outputs(s: seq<real>, xs: seq<Token>): (r: seq<real>)
    requires AllFit(xs, |s|)
    ensures |r| == |xs|
  {
    OutputsTo(s, xs, |xs|)
  }

  lemma {:induction false} PrefixKept(s: seq<real>, xs: seq<Token>, ys: seq<Token>, n: nat)
    requires AllFit(xs, |s|) && AllFit(xs + ys, |s|) && n <= |xs|
    ensures RunTo(s, xs + ys, n) == RunTo(s, xs, n)
    ensures OutputsTo(s, xs + ys, n) == OutputsTo(s, xs, n)
  {
    hide Next, Output;
    if n > 0 {
      PrefixKept(s, xs, ys, n - 1);
      assert (xs + ys)[n - 1] == xs[n - 1];
    }
  }

  lemma {:induction false} SuffixRuns(s: seq<real>, xs: seq<Token>, ys: seq<Token>, n: nat)
    requires AllFit(xs, |s|) && AllFit(ys, |s|) && AllFit(xs + ys, |s|) && n <= |ys|
    ensures RunTo(s, xs + ys, |xs| + n) == RunTo(Run(s, xs), ys, n)
    ensures OutputsTo(s, xs + ys, |xs| + n) == Outputs(s, xs) + OutputsTo(Run(s, xs), ys, n)
  {
    hide Next, Output;
    if n > 0 {
      SuffixRuns(s, xs, ys, n - 1);
      assert (xs + ys)[|xs| + n - 1] == ys[n - 1];
    } else {
      PrefixKept(s, xs, ys, |xs|);
    }
  }

  lemma JoinFits(xs: seq<Token>, ys: seq<Token>, n: nat)
    requires AllFit(xs, n) && AllFit(ys, n)
    ensures AllFit(xs + ys, n)
  {
    hide Fits;
  }

  /** Running two pieces one after the other is running them joined. */
  lemma RunConcat(s: seq<real>, xs: seq<Token>, ys: seq<Token>)
    requires AllFit(xs, |s|) && AllFit(ys, |s|)
    ensures AllFit(xs + ys, |s|)
    ensures Run(s, xs + ys) == Run(Run(s, xs), ys)
    ensures Outputs(s, xs + ys) == Outputs(s, xs) + Outputs(Run(s, xs), ys)
  {
    JoinFits(xs, ys, |s|);
    SuffixRuns(s, xs, ys, |ys|);
  }

  // ---------- what a step does to the memory ----------

  lemma {:induction false} DotCorrected(s: seq<real>, k: seq<real>, delta: real, w: seq<real>, n: nat)
    requires |s| == |k| == |w| && n <= |s|
    ensures Dot(At(Corrected(s, k, delta)), At(w), n) == Dot(At(s), At(w), n) + Times(delta, Dot(At(k), At(w), n))
  {
    if n > 0 {
      DotCorrected(s, k, delta, w, n - 1);
      CorrectedTerm(s[n - 1], k[n - 1], delta, w[n - 1], Dot(At(k), At(w), n - 1));
    }
  }

  lemma CorrectedTerm(s: real, k: real, delta: real, w: real, rest: real)
    ensures (s + Times(k, delta)) * w + Times(delta, rest) == s * w + Times(delta, rest + k * w)
  {
    assert (k * delta) * w == delta * (k * w);
  }

  /** After a step, reading with any vector w sees the decayed memory plus the correction
      weighted by how much w overlaps the key: memory orthogonal to the key only decays. */
  lemma ReadAfterStep(s: seq<real>, x: Token, w: seq<real>)
    requires Fits(x, |s|) && |w| == |s|
    ensures var decayed := Scale(x.g, s);
            Inner(Next(s, x), w) == Inner(decayed, w) + Times(Times(x.v - Inner(decayed, x.k), x.beta), Inner(x.k, w))
  {
    hide Dot;
    var decayed := Scale(x.g, s);
    DotCorrected(decayed, x.k, Times(x.v - Inner(decayed, x.k), x.beta), w, |s|);
  }

  /** With a unit key the value recalled at that key moves from the decayed recall to the
      new value by the fraction beta; beta = 1 stores the value exactly. */
  lemma RecallAfterStep(s: seq<real>, x: Token)
    requires Fits(x, |s|) && Inner(x.k, x.k) == 1.0
    ensures var recall := Inner(Scale(x.g, s), x.k);
            Inner(Next(s, x), x.k) == recall + Times(x.v - recall, x.beta)
    ensures x.beta == 1.0 ==> Inner(Next(s, x), x.k) == x.v
  {
    hide Next;
    ReadAfterStep(s, x, x.k);
    hide Inner;
  }

  // ---------- the loops ----------

  /** First loop: decay the row and predict the value at the key. */
  method DecayAndPredict(state: array<real>, x: Token) returns (kv: real)
    requires Fits(x, state.Length)
    modifies state
    ensures state[..] == Scale(x.g, old(state[..]))
    ensures kv == Inner(Scale(x.g, old(state[..])), x.k)
  {
    hide Times, Dot;
    ghost var decayed := Scale(x.g, state[..]);
    kv := 0.0;
    DotNothing(At(decayed), At(x.k));
    for i := 0 to state.Length
      invariant forall j | 0 <= j < i :: state[j] == decayed[j]
      invariant forall j | i <= j < state.Length :: state[j] == old(state[j])
      invariant kv == Dot(At(decayed), At(x.k), i)
    {
      state[i] := Times(x.g, state[i]);
      DotOneMore(decayed, x.k, i);
      kv := kv + Times(state[i], x.k[i]);
    }
  }

  /** Second loop: add the correction along the key and read with the query. */
  method CorrectAndRead(state: array<real>, x: Token, delta: real) returns (out: real)
    requires Fits(x, state.Length)
    modifies state
    ensures state[..] == Corrected(old(state[..]), x.k, delta)
    ensures out == Inner(Corrected(old(state[..]), x.k, delta), x.q)
  {
    hide Times, Dot;
    ghost var next := Corrected(state[..], x.k, delta);
    out := 0.0;
    DotNothing(At(next), At(x.q));
    for i := 0 to state.Length
      invariant forall j | 0 <= j < i :: state[j] == next[j]
      invariant forall j | i <= j < state.Length :: state[j] == old(state[j])
      invariant out == Dot(At(next), At(x.q), i)
    {
      state[i] := state[i] + Times(x.k[i], delta);
      DotOneMore(next, x.q, i);
      out := out + Times(state[i], x.q[i]);
    }
  }

  /** One token, on the state row in place. */
  method StepInPlace(state: array<real>, x: Token) returns (out: real)
    requires Fits(x, state.Length)
    modifies state
    ensures state[..] == Next(old(state[..]), x)
    ensures out == Output(old(state[..]), x)
  {
    hide Inner;
    var kv := DecayAndPredict(state, x);
    out := CorrectAndRead(state, x, Times(x.v - kv, x.beta));
  }

  // ---------- normalisation of queries and keys ----------

  /** A head vector divided by its guarded Euclidean norm. */
  function Normalised(row: seq<real>, rsqrt: real -> real, eps: real): (r: seq<real>)
    ensures |r| == |row|
  {
    Scale(rsqrt(Inner(row, row) + eps), row)
  }

  /** The in-place normalisation pass over one head vector. */
  method NormaliseInPlace(qk: array<real>, base: nat, dk: nat, rsqrt: real -> real, eps: real)
    requires base + dk <= qk.Length
    modifies qk
    ensures qk[base..base + dk] == Normalised(old(qk[base..base + dk]), rsqrt, eps)
    ensures forall x | 0 <= x < qk.Length && !(base <= x < base + dk) :: qk[x] == old(qk[x])
  {
    hide Times, Dot;
    ghost var row := qk[base..base + dk];
    var ss := 0.0;
    DotNothing(At(row), At(row));
    for i := 0 to dk
      invariant ss == Dot(At(row), At(row), i)
      invariant qk[..] == old(qk[..])
    {
      assert qk[base + i] == row[i];
      DotOneMore(row, row, i);
      ss := ss + Times(qk[base + i], qk[base + i]);
    }
    var inv := rsqrt(ss + eps);
    for i := 0 to dk
      invariant forall j | 0 <= j < i :: qk[base + j] == Times(inv, row[j])
      invariant forall x | 0 <= x < qk.Length && !(base <= x < base + i) :: qk[x] == old(qk[x])
    {
      qk[base + i] := Times(inv, qk[base + i]);
    }
  }
}
