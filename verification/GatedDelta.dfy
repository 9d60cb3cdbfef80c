/** The variable-length gated delta rule kernel: many sequences, slot state in place. */
module GatedDelta {
  import opened Division
  import opened Softmax
  import opened Vectors
  import opened DeltaRule

  const MAX_DK: nat := 128

  /** Exponential and logarithm of the device. */
  datatype Maths = Maths(exp: real -> real, log: real -> real) {
    ghost predicate Positive() {
      forall x: real :: exp(x) > 0.0
    }

    function Sigmoid(x: real): real
      requires Positive()
    {
      1.0 / (1.0 + exp(-x))
    }

    function Softplus(x: real): real {
      if x <= 20.0 then log(1.0 + exp(x)) else x
    }

    /** The logarithm of the decay. */
    function Rate(aLog: real, x: real): real {
      -exp(aLog) * Softplus(x)
    }

    function Decay(aLog: real, x: real): real {
      exp(Rate(aLog, x))
    }
  }

  /** What does not change between calls. */
  datatype Model = Model(maths: Maths, aLog: seq<real>, dtBias: Option<seq<real>>, Hk: nat, dk: nat, Hv: nat, dv: nat, nslots: nat)
  {
    ghost predicate Valid() {
      Hk > 0 && Hv % Hk == 0 && dk <= MAX_DK && |aLog| == Hv && (dtBias.Some? ==> |dtBias.value| == Hv) && maths.Positive()
    }

    /** The key head that serves value head hv. */
    function KeyHead(hv: nat): (hk: nat)
      requires Hk > 0 && Hv % Hk == 0 && hv < Hv
      ensures hk < Hk
    {
      GroupedHeads(hv, Hv, Hk);
      hv / (Hv / Hk)
    }

    function Bias(hv: nat): real
      requires hv < Hv && (dtBias.Some? ==> |dtBias.value| == Hv)
    {
      if dtBias.Some? then dtBias.value[hv] else 0.0
    }

    /** Decay of a head for input a. */
    function Gate(hv: nat, a: real): real
      requires Valid() && hv < Hv
    {
      maths.Decay(aLog[hv], a + Bias(hv))
    }
  }

  lemma GroupedHeads(hv: nat, Hv: nat, Hk: nat)
    requires Hk > 0 && Hv % Hk == 0 && hv < Hv
    ensures Hv / Hk > 0 && hv / (Hv / Hk) < Hk
  {
    var per := Hv / Hk;
    assert Hv == per * Hk;
    DivBelow(hv, per, Hk);
  }

  /** The inputs of one call. */
  datatype Batch = Batch(q: seq<real>, k: seq<real>, v: seq<real>, b: seq<real>, a: seq<real>,
                         cu: seq<nat>, slots: seq<int>, hasInitial: Option<seq<bool>>)
  {
    predicate Valid(m: Model) {
      |cu| == |slots| + 1 && (hasInitial.Some? ==> |hasInitial.value| == |slots|) &&
      (forall i, j | 0 <= i <= j < |cu| :: cu[i] <= cu[j]) && Sized(m, cu[|slots|])
    }

    /** The inputs hold all tokens. */
    predicate Sized(m: Model, tokens: nat) {
      |q| >= tokens * m.Hk * m.dk && |k| >= tokens * m.Hk * m.dk && |v| >= tokens * m.Hv * m.dv &&
      |b| >= tokens * m.Hv && |a| >= tokens * m.Hv
    }

    predicate SlotOk(m: Model, s: nat)
      requires s < |slots|
    {
      0 <= slots[s] < m.nslots
    }

    predicate UseInit(m: Model, s: nat)
      requires s < |slots| && (hasInitial.Some? ==> |hasInitial.value| == |slots|)
    {
      SlotOk(m, s) && (hasInitial.None? || hasInitial.value[s])
    }

    function Len(s: nat): nat
      requires s < |slots| && |cu| == |slots| + 1 && cu[s] <= cu[s + 1]
    {
      cu[s + 1] - cu[s]
    }
  }

  /** One work-item: a sequence, a value head and a value dimension. */
  datatype Lane = Lane(s: nat, hv: nat, d: nat)

  predicate ValidLane(m: Model, B: Batch, w: Lane) {
    w.s < |B.slots| && w.hv < m.Hv && w.d < m.dv
  }

  /** The lane of work-item d of work-group shv. */
  function LaneOf(m: Model, shv: nat, d: nat): Lane
    requires m.Hv > 0
  {
    Lane(shv / m.Hv, shv % m.Hv, d)
  }

  /** Work-groups and lanes correspond one to one. */
  lemma WorkItemsAreLanes(m: Model, B: Batch, shv: nat, w: Lane)
    requires m.Hv > 0
    ensures w.d < m.dv && shv < |B.slots| * m.Hv ==> ValidLane(m, B, LaneOf(m, shv, w.d))
    ensures ValidLane(m, B, w) ==> w.s * m.Hv + w.hv < |B.slots| * m.Hv && LaneOf(m, w.s * m.Hv + w.hv, w.d) == w
  {
    if shv < |B.slots| * m.Hv {
      DivBelow(shv, m.Hv, |B.slots|);
    }
    if ValidLane(m, B, w) {
      MulMono(w.s + 1, |B.slots|, m.Hv);
      MulMono(w.s, w.s, m.Hv);
      DivUnique(w.s * m.Hv + w.hv, m.Hv, w.s);
    }
  }

  // ---------- addresses ----------

  /** Position of (x, y) in a matrix with n columns. */
  function Index(x: nat, y: nat, n: nat): nat {
    x * n + y
  }

  lemma IndexInside(x: nat, y: nat, rows: nat, n: nat)
    requires x < rows && y < n
    ensures Index(x, y, n) < rows * n && Index(x, 0, n) + n <= rows * n
  {
    MulMono(x + 1, rows, n);
    MulMono(x, x, n);
  }

  lemma IndexUnique(x: nat, y: nat, x': nat, y': nat, n: nat)
    requires y < n && y' < n
    ensures Index(x, y, n) == Index(x', y', n) <==> x == x' && y == y'
  {
    if Index(x, y, n) == Index(x', y', n) {
      QuotientUnique(Index(x, y, n), n, x, x');
    }
  }

  /** The state row of a slot, head and dimension; the output cell of a token. */
  function StateRow(m: Model, slot: nat, hv: nat, d: nat): nat {
    Index(Index(slot, hv, m.Hv), d, m.dv)
  }

  function OutCell(m: Model, t: nat, hv: nat, d: nat): nat {
    Index(Index(t, hv, m.Hv), d, m.dv)
  }

  lemma StateRowUnique(m: Model, slot: nat, hv: nat, d: nat, slot': nat, hv': nat, d': nat)
    requires hv < m.Hv && hv' < m.Hv && d < m.dv && d' < m.dv
    ensures StateRow(m, slot, hv, d) == StateRow(m, slot', hv', d') <==> slot == slot' && hv == hv' && d == d'
  {
    hide Index;
    IndexUnique(Index(slot, hv, m.Hv), d, Index(slot', hv', m.Hv), d', m.dv);
    IndexUnique(slot, hv, slot', hv', m.Hv);
  }

  lemma StateRowInside(m: Model, slot: nat, hv: nat, d: nat, slots: nat)
    requires slot < slots && hv < m.Hv && d < m.dv
    ensures StateRow(m, slot, hv, d) < slots * m.Hv * m.dv
    ensures Index(StateRow(m, slot, hv, d), 0, m.dk) + m.dk <= slots * m.Hv * m.dv * m.dk
  {
    IndexInside(slot, hv, slots, m.Hv);
    IndexInside(Index(slot, hv, m.Hv), d, slots * m.Hv, m.dv);
    hide Index;
    var R := StateRow(m, slot, hv, d);
    RowInside(R, slots * m.Hv * m.dv, m.dk);
  }

  lemma RowInside(R: nat, rows: nat, n: nat)
    requires R < rows
    ensures Index(R, 0, n) + n <= rows * n
  {
    MulMono(R + 1, rows, n);
    MulMono(R, R, n);
  }

  function Row(ssm: seq<real>, R: nat, n: nat): (r: seq<real>)
    requires Index(R, 0, n) + n <= |ssm|
    ensures |r| == n
  {
    ssm[Index(R, 0, n)..Index(R, 0, n) + n]
  }

  predicate InRow(R: nat, n: nat, x: nat) {
    Index(R, 0, n) <= x < Index(R, 0, n) + n
  }

  lemma RowsApart(R: nat, R': nat, n: nat, x: nat)
    requires InRow(R, n, x) && InRow(R', n, x)
    ensures R == R'
  {
    QuotientUnique(x, n, R, R');
  }

  // ---------- specification of a call ----------

  lemma TokenInside(m: Model, B: Batch, t: nat, hv: nat, d: nat)
    requires m.Valid() && B.Valid(m) && t < B.cu[|B.slots|] && hv < m.Hv && d < m.dv
    ensures Index(Index(t, m.KeyHead(hv), m.Hk), 0, m.dk) + m.dk <= |B.q|
    ensures Index(Index(t, m.KeyHead(hv), m.Hk), 0, m.dk) + m.dk <= |B.k|
    ensures Index(t, hv, m.Hv) < |B.b| && Index(t, hv, m.Hv) < |B.a| && OutCell(m, t, hv, d) < |B.v|
    ensures OutCell(m, t, hv, d) < B.cu[|B.slots|] * m.Hv * m.dv
  {
    var tokens := B.cu[|B.slots|];
    IndexInside(t, m.KeyHead(hv), tokens, m.Hk);
    RowInside(Index(t, m.KeyHead(hv), m.Hk), tokens * m.Hk, m.dk);
    IndexInside(t, hv, tokens, m.Hv);
    IndexInside(Index(t, hv, m.Hv), d, tokens * m.Hv, m.dv);
  }

  /** Token t, head hv and dimension d are in range. */
  ghost predicate InBatch(m: Model, B: Batch, t: nat, hv: nat, d: nat) {
    m.Valid() && B.Valid(m) && t < B.cu[|B.slots|] && hv < m.Hv && d < m.dv
  }

  /** The query and key rows of the head that serves hv. */
  function QueryAt(m: Model, B: Batch, t: nat, hv: nat, d: nat): (r: seq<real>)
    requires InBatch(m, B, t, hv, d)
    ensures |r| == m.dk
  {
    TokenInside(m, B, t, hv, d);
    Row(B.q, Index(t, m.KeyHead(hv), m.Hk), m.dk)
  }

  function KeyAt(m: Model, B: Batch, t: nat, hv: nat, d: nat): (r: seq<real>)
    requires InBatch(m, B, t, hv, d)
    ensures |r| == m.dk
  {
    TokenInside(m, B, t, hv, d);
    Row(B.k, Index(t, m.KeyHead(hv), m.Hk), m.dk)
  }

  function ValueAt(m: Model, B: Batch, t: nat, hv: nat, d: nat): real
    requires InBatch(m, B, t, hv, d)
  {
    TokenInside(m, B, t, hv, d);
    B.v[OutCell(m, t, hv, d)]
  }

  function BetaAt(m: Model, B: Batch, t: nat, hv: nat, d: nat): real
    requires InBatch(m, B, t, hv, d)
  {
    TokenInside(m, B, t, hv, d);
    m.maths.Sigmoid(B.b[Index(t, hv, m.Hv)])
  }

  function GateAt(m: Model, B: Batch, t: nat, hv: nat, d: nat): real
    requires InBatch(m, B, t, hv, d)
  {
    TokenInside(m, B, t, hv, d);
    m.Gate(hv, B.a[Index(t, hv, m.Hv)])
  }

  /** What token t brings to head hv, dimension d. */
  function TokenAt(m: Model, B: Batch, t: nat, hv: nat, d: nat): (x: Token)
    requires InBatch(m, B, t, hv, d)
    ensures Fits(x, m.dk)
  {
    Token(QueryAt(m, B, t, hv, d), KeyAt(m, B, t, hv, d), ValueAt(m, B, t, hv, d), BetaAt(m, B, t, hv, d), GateAt(m, B, t, hv, d))
  }

  /** Token i of lane w's sequence. */
  function TokenOf(m: Model, B: Batch, w: Lane, i: nat): (x: Token)
    requires m.Valid() && B.Valid(m) && ValidLane(m, B, w) && i < B.Len(w.s)
    ensures Fits(x, m.dk)
  {
    Ordered(m, B, w.s, |B.slots|);
    TokenAt(m, B, B.cu[w.s] + i, w.hv, w.d)
  }

  lemma Ordered(m: Model, B: Batch, s: nat, s': nat)
    requires B.Valid(m) && s < |B.slots| && s' <= |B.slots|
    ensures s < s' ==> B.cu[s + 1] <= B.cu[s']
  {
    hide Batch.Sized;
  }

  /** The tokens of a lane's sequence, in order. */
  function Tokens(m: Model, B: Batch, w: Lane): (xs: seq<Token>)
    requires m.Valid() && B.Valid(m) && ValidLane(m, B, w)
    ensures |xs| == B.Len(w.s) && AllFit(xs, m.dk)
    ensures forall i | 0 <= i < |xs| :: xs[i] == TokenOf(m, B, w, i)
  {
    seq(B.Len(w.s), i requires 0 <= i < B.Len(w.s) => TokenOf(m, B, w, i))
  }

  function Zeros(n: nat): (r: seq<real>)
    ensures |r| == n && forall i | 0 <= i < n :: r[i] == 0.0
  {
    seq(n, i => 0.0)
  }

  /** The state a lane starts from, when its slot row holds `row`. */
  function Initial(m: Model, B: Batch, w: Lane, row: seq<real>): (r: seq<real>)
    requires B.Valid(m) && ValidLane(m, B, w) && |row| == m.dk
    ensures |r| == m.dk
  {
    if B.UseInit(m, w.s) then row else Zeros(m.dk)
  }

  /** The slot row after the call. */
  function Final(m: Model, B: Batch, w: Lane, row: seq<real>): (r: seq<real>)
    requires m.Valid() && B.Valid(m) && ValidLane(m, B, w) && |row| == m.dk
    ensures |r| == m.dk
  {
    if B.SlotOk(m, w.s) && B.Len(w.s) > 0 then Run(Initial(m, B, w, row), Tokens(m, B, w)) else row
  }

  /** The lane's outputs: zeros when the slot is not one of the cache's. */
  function LaneOutputs(m: Model, B: Batch, w: Lane, row: seq<real>): (r: seq<real>)
    requires m.Valid() && B.Valid(m) && ValidLane(m, B, w) && |row| == m.dk
    ensures |r| == B.Len(w.s)
  {
    if B.SlotOk(m, w.s) then Outputs(Initial(m, B, w, row), Tokens(m, B, w)) else Zeros(B.Len(w.s))
  }

  /** Lane w stores a state row. */
  predicate Writes(m: Model, B: Batch, w: Lane)
    requires B.Valid(m) && ValidLane(m, B, w)
  {
    B.SlotOk(m, w.s) && B.Len(w.s) > 0
  }

  /** Lane w stores state cell x. */
  predicate Touches(m: Model, B: Batch, w: Lane, x: nat)
    requires B.Valid(m) && ValidLane(m, B, w)
  {
    Writes(m, B, w) && InRow(StateRow(m, B.slots[w.s], w.hv, w.d), m.dk, x)
  }

  /** Lane w stores output cell x. */
  predicate Emits(m: Model, B: Batch, w: Lane, x: nat)
    requires B.Valid(m) && ValidLane(m, B, w)
  {
    exists t | B.cu[w.s] <= t < B.cu[w.s + 1] :: x == OutCell(m, t, w.hv, w.d)
  }

  /** No two sequences that have tokens share a slot. */
  predicate SlotsApart(m: Model, B: Batch)
    requires B.Valid(m)
  {
    forall s, s' | 0 <= s < |B.slots| && 0 <= s' < |B.slots| && B.slots[s] == B.slots[s'] && B.SlotOk(m, s) &&
                   B.Len(s) > 0 && B.Len(s') > 0 :: s == s'
  }

  lemma StatesApart(m: Model, B: Batch, w: Lane, w': Lane, x: nat)
    requires B.Valid(m) && ValidLane(m, B, w) && ValidLane(m, B, w') && SlotsApart(m, B)
    requires Touches(m, B, w, x) && Touches(m, B, w', x)
    ensures w == w'
  {
    hide Index;
    RowsApart(StateRow(m, B.slots[w.s], w.hv, w.d), StateRow(m, B.slots[w'.s], w'.hv, w'.d), m.dk, x);
    StateRowUnique(m, B.slots[w.s], w.hv, w.d, B.slots[w'.s], w'.hv, w'.d);
  }

  lemma OutputsApart(m: Model, B: Batch, w: Lane, w': Lane, x: nat)
    requires B.Valid(m) && ValidLane(m, B, w) && ValidLane(m, B, w')
    requires Emits(m, B, w, x) && Emits(m, B, w', x)
    ensures w == w'
  {
    hide Index;
    var t :| B.cu[w.s] <= t < B.cu[w.s + 1] && x == OutCell(m, t, w.hv, w.d);
    var t' :| B.cu[w'.s] <= t' < B.cu[w'.s + 1] && x == OutCell(m, t', w'.hv, w'.d);
    StateRowUnique(m, t, w.hv, w.d, t', w'.hv, w'.d);
    Ordered(m, B, w.s, w'.s);
    Ordered(m, B, w'.s, w.s);
  }

  // ---------- the kernel ----------

  /** What lane w finds in its slot row; a lane without a slot reads nothing. */
  function SlotRow(m: Model, B: Batch, w: Lane, ssm: seq<real>): (r: seq<real>)
    requires B.Valid(m) && ValidLane(m, B, w) && StateSized(m, ssm)
    ensures |r| == m.dk
  {
    if B.SlotOk(m, w.s) then
      StateRowInside(m, B.slots[w.s], w.hv, w.d, m.nslots);
      Row(ssm, StateRow(m, B.slots[w.s], w.hv, w.d), m.dk)
    else Zeros(m.dk)
  }

  predicate StateSized(m: Model, ssm: seq<real>) {
    |ssm| >= m.nslots * m.Hv * m.dv * m.dk
  }

  predicate OutSized(m: Model, B: Batch, out: seq<real>)
    requires B.Valid(m)
  {
    |out| >= B.cu[|B.slots|] * m.Hv * m.dv
  }

  /** Token i's output cell of lane w is inside the output. */
  lemma CellInside(m: Model, B: Batch, w: Lane, i: nat, out: seq<real>)
    requires m.Valid() && B.Valid(m) && ValidLane(m, B, w) && i < B.Len(w.s) && OutSized(m, B, out)
    ensures OutCell(m, B.cu[w.s] + i, w.hv, w.d) < |out|
  {
    Ordered(m, B, w.s, |B.slots|);
    TokenInside(m, B, B.cu[w.s] + i, w.hv, w.d);
  }

  /** The lane's outputs, read back from the output buffer. */
  function ReadOutputs(m: Model, B: Batch, w: Lane, out: seq<real>): (r: seq<real>)
    requires m.Valid() && B.Valid(m) && ValidLane(m, B, w) && OutSized(m, B, out)
    ensures |r| == B.Len(w.s)
  {
    seq(B.Len(w.s), i requires 0 <= i < B.Len(w.s) => OutputAt(m, B, w, i, out))
  }

  function OutputAt(m: Model, B: Batch, w: Lane, i: nat, out: seq<real>): real
    requires m.Valid() && B.Valid(m) && ValidLane(m, B, w) && OutSized(m, B, out) && i < B.Len(w.s)
  {
    CellInside(m, B, w, i, out);
    out[OutCell(m, B.cu[w.s] + i, w.hv, w.d)]
  }

  method Load(m: Model, B: Batch, w: Lane, ssm: array<real>) returns (state: array<real>)
    requires m.Valid() && B.Valid(m) && ValidLane(m, B, w) && StateSized(m, ssm[..])
    ensures fresh(state) && state.Length == m.dk && state[..] == Initial(m, B, w, SlotRow(m, B, w, ssm[..]))
  {
    hide StateRow, Model.Valid, Batch.Sized, StateSized;
    ghost var row := SlotRow(m, B, w, ssm[..]);
    state := new real[m.dk];
    if B.UseInit(m, w.s) {
      StateRowIn(m, B, w, ssm[..]);
      var base := Index(StateRow(m, B.slots[w.s], w.hv, w.d), 0, m.dk);
      hide Index;
      for i := 0 to m.dk
        invariant forall j | 0 <= j < i :: state[j] == row[j]
      {
        state[i] := ssm[base + i];
      }
    } else {
      for i := 0 to m.dk
        invariant forall j | 0 <= j < i :: state[j] == 0.0
      {
        state[i] := 0.0;
      }
    }
  }

  lemma StateRowIn(m: Model, B: Batch, w: Lane, ssm: seq<real>)
    requires B.Valid(m) && ValidLane(m, B, w) && StateSized(m, ssm) && B.SlotOk(m, w.s)
    ensures Index(StateRow(m, B.slots[w.s], w.hv, w.d), 0, m.dk) + m.dk <= |ssm|
  {
    StateRowInside(m, B.slots[w.s], w.hv, w.d, m.nslots);
  }

  /** Storing output i changes that output and no other of the lane. */
  lemma StoreOutput(m: Model, B: Batch, w: Lane, i: nat, out: seq<real>, y: real)
    requires m.Valid() && B.Valid(m) && ValidLane(m, B, w) && OutSized(m, B, out) && i < B.Len(w.s)
    ensures var cell := OutCell(m, B.cu[w.s] + i, w.hv, w.d);
            cell < |out| && Emits(m, B, w, cell) && OutSized(m, B, out[cell := y]) &&
            forall j: nat | j < B.Len(w.s) ::
              OutputAt(m, B, w, j, out[cell := y]) == if j == i then y else OutputAt(m, B, w, j, out)
  {
    CellInside(m, B, w, i, out);
    var cell := OutCell(m, B.cu[w.s] + i, w.hv, w.d);
    hide OutCell, Index, Model.Valid, Batch.Sized;
    assert B.cu[w.s] <= B.cu[w.s] + i < B.cu[w.s + 1];
    forall j: nat | j < B.Len(w.s)
      ensures OutputAt(m, B, w, j, out[cell := y]) == if j == i then y else OutputAt(m, B, w, j, out)
    {
      CellInside(m, B, w, j, out);
      CellUnique(m, B.cu[w.s] + i, B.cu[w.s] + j, w.hv, w.d);
    }
  }

  lemma CellUnique(m: Model, t: nat, t': nat, hv: nat, d: nat)
    requires hv < m.Hv && d < m.dv
    ensures OutCell(m, t, hv, d) == OutCell(m, t', hv, d) <==> t == t'
  {
    StateRowUnique(m, t, hv, d, t', hv, d);
  }

  /** Only cells that lane w emits may differ. */
  predicate SameElsewhere(m: Model, B: Batch, w: Lane, before: seq<real>, now: seq<real>)
    requires B.Valid(m) && ValidLane(m, B, w)
  {
    |before| == |now| && forall x: nat | x < |now| && !Emits(m, B, w, x) :: now[x] == before[x]
  }

  /** The first n outputs of lane w are `outs`. */
  predicate Emitted(m: Model, B: Batch, w: Lane, out: seq<real>, outs: seq<real>, n: nat)
    requires m.Valid() && B.Valid(m) && ValidLane(m, B, w) && OutSized(m, B, out) && n <= B.Len(w.s)
  {
    |outs| == n && forall j: nat | j < n :: OutputAt(m, B, w, j, out) == outs[j]
  }

  lemma EmitOneMore(m: Model, B: Batch, w: Lane, i: nat, start: seq<real>, out: seq<real>, outs: seq<real>, y: real)
    requires m.Valid() && B.Valid(m) && ValidLane(m, B, w) && OutSized(m, B, out) && i < B.Len(w.s)
    requires Emitted(m, B, w, out, outs, i) && SameElsewhere(m, B, w, start, out)
    ensures var cell := OutCell(m, B.cu[w.s] + i, w.hv, w.d);
            cell < |out| && OutSized(m, B, out[cell := y]) && Emitted(m, B, w, out[cell := y], outs + [y], i + 1) &&
            SameElsewhere(m, B, w, start, out[cell := y])
  {
    StoreOutput(m, B, w, i, out, y);
    hide OutCell, OutputAt, Emits, Model.Valid, Batch.Sized, OutSized;
  }

  /** What the lane's first i tokens make it emit. */
  function EmittedBy(m: Model, B: Batch, w: Lane, start: seq<real>, i: nat): (r: seq<real>)
    requires m.Valid() && B.Valid(m) && ValidLane(m, B, w) && |start| == m.dk && i <= B.Len(w.s)
    ensures |r| == i
  {
    if B.SlotOk(m, w.s) then OutputsTo(start, Tokens(m, B, w), i) else Zeros(i)
  }

  /** State and outputs after i tokens. */
  ghost predicate AtToken(m: Model, B: Batch, w: Lane, start: seq<real>, was: seq<real>, state: seq<real>, out: seq<real>, i: nat)
    requires m.Valid() && B.Valid(m) && ValidLane(m, B, w) && |start| == m.dk && i <= B.Len(w.s)
  {
    state == RunTo(start, Tokens(m, B, w), i) && OutSized(m, B, out) &&
    Emitted(m, B, w, out, EmittedBy(m, B, w, start, i), i) && SameElsewhere(m, B, w, was, out)
  }

  lemma TokenDone(m: Model, B: Batch, w: Lane, start: seq<real>, was: seq<real>, state: seq<real>, out: seq<real>, i: nat)
    requires m.Valid() && B.Valid(m) && ValidLane(m, B, w) && |start| == m.dk && i < B.Len(w.s)
    requires AtToken(m, B, w, start, was, state, out, i)
    ensures Fits(TokenOf(m, B, w, i), |state|)
    ensures var cell, x := OutCell(m, B.cu[w.s] + i, w.hv, w.d), TokenOf(m, B, w, i);
            var y := if B.SlotOk(m, w.s) then Output(state, x) else 0.0;
            cell < |out| && AtToken(m, B, w, start, was, Next(state, x), out[cell := y], i + 1)
  {
    hide Model.Valid, Batch.Sized, OutCell, Emitted, SameElsewhere, OutSized, Next, Output, Zeros, TokenOf;
    var xs := Tokens(m, B, w);
    assert xs[i] == TokenOf(m, B, w, i);
    var y := if B.SlotOk(m, w.s) then Output(state, xs[i]) else 0.0;
    assert RunTo(start, xs, i + 1) == Next(state, xs[i]);
    assert Zeros(i + 1) == Zeros(i) + [0.0];
    assert EmittedBy(m, B, w, start, i + 1) == EmittedBy(m, B, w, start, i) + [y];
    EmitOneMore(m, B, w, i, was, out, EmittedBy(m, B, w, start, i), y);
  }

  /** The token loop of one lane. */
  method TokenLoop(m: Model, B: Batch, w: Lane, state: array<real>, out: array<real>)
    requires m.Valid() && B.Valid(m) && ValidLane(m, B, w) && OutSized(m, B, out[..]) && state.Length == m.dk && state != out
    modifies state, out
    ensures state[..] == Run(old(state[..]), Tokens(m, B, w))
    ensures ReadOutputs(m, B, w, out[..]) ==
            if B.SlotOk(m, w.s) then Outputs(old(state[..]), Tokens(m, B, w)) else Zeros(B.Len(w.s))
    ensures SameElsewhere(m, B, w, old(out[..]), out[..])
  {
    var n := B.Len(w.s);
    hide Model.Valid, Batch.Valid, OutCell, OutSized, Next, Output, AtToken;
    ghost var start, was := state[..], out[..];
    NothingYet(m, B, w, start, was);
    for i := 0 to n
      invariant AtToken(m, B, w, start, was, state[..], out[..], i)
    {
      ghost var s, emitted := state[..], out[..];
      TokenDone(m, B, w, start, was, s, emitted, i);
      var x := TokenOf(m, B, w, i);
      var o := StepInPlace(state, x);
      out[OutCell(m, B.cu[w.s] + i, w.hv, w.d)] := if B.SlotOk(m, w.s) then o else 0.0;
      assert out[..] == emitted[OutCell(m, B.cu[w.s] + i, w.hv, w.d) := if B.SlotOk(m, w.s) then o else 0.0];
    }
    AllEmitted(m, B, w, start, was, state[..], out[..]);
  }

  lemma NothingYet(m: Model, B: Batch, w: Lane, start: seq<real>, out: seq<real>)
    requires m.Valid() && B.Valid(m) && ValidLane(m, B, w) && OutSized(m, B, out) && |start| == m.dk
    ensures AtToken(m, B, w, start, out, start, out, 0)
  {
    hide Model.Valid, Batch.Sized, OutSized, OutputAt, Emits;
  }

  lemma AllEmitted(m: Model, B: Batch, w: Lane, start: seq<real>, was: seq<real>, state: seq<real>, out: seq<real>)
    requires m.Valid() && B.Valid(m) && ValidLane(m, B, w) && |start| == m.dk
    requires AtToken(m, B, w, start, was, state, out, B.Len(w.s))
    ensures OutSized(m, B, out) && state == Run(start, Tokens(m, B, w)) && SameElsewhere(m, B, w, was, out)
    ensures ReadOutputs(m, B, w, out) == if B.SlotOk(m, w.s) then Outputs(start, Tokens(m, B, w)) else Zeros(B.Len(w.s))
  {
    hide OutputAt, Model.Valid, Batch.Sized, OutSized;
  }

  /** The whole work of one work-item. */
  method LaneKernel(m: Model, B: Batch, w: Lane, ssm: array<real>, out: array<real>)
    requires m.Valid() && B.Valid(m) && ValidLane(m, B, w) && ssm != out
    requires StateSized(m, ssm[..]) && OutSized(m, B, out[..])
    modifies ssm, out
    ensures SlotRow(m, B, w, ssm[..]) == Final(m, B, w, SlotRow(m, B, w, old(ssm[..])))
    ensures forall x: nat | x < ssm.Length && !Touches(m, B, w, x) :: ssm[x] == old(ssm[x])
    ensures ReadOutputs(m, B, w, out[..]) == LaneOutputs(m, B, w, SlotRow(m, B, w, old(ssm[..])))
    ensures SameElsewhere(m, B, w, old(out[..]), out[..])
  {
    hide Model.Valid, OutSized, Run, Outputs, SameElsewhere, ReadOutputs, StateRow, Index, Batch.Sized, StateSized, Tokens, Zeros;
    ghost var row := SlotRow(m, B, w, ssm[..]);
    var state := Load(m, B, w, ssm);
    TokenLoop(m, B, w, state, out);
    if B.SlotOk(m, w.s) && B.cu[w.s] < B.cu[w.s + 1] {
      StateRowIn(m, B, w, ssm[..]);
      var base := Index(StateRow(m, B.slots[w.s], w.hv, w.d), 0, m.dk);
      ghost var emitted := out[..];
      for i := 0 to m.dk
        invariant forall j | 0 <= j < i :: ssm[base + j] == state[j]
        invariant forall x: nat | x < ssm.Length && !(base <= x < base + m.dk) :: ssm[x] == old(ssm[x])
        modifies ssm
      {
        ssm[base + i] := state[i];
      }
      assert out[..] == emitted;
      assert Row(ssm[..], StateRow(m, B.slots[w.s], w.hv, w.d), m.dk) == state[..];
    }
  }

  // ---------- the launch ----------

  /** The lanes of the launch, each once, in the order the device happens to run them. */
  ghost predicate Schedule(m: Model, B: Batch, order: seq<Lane>) {
    (forall k | 0 <= k < |order| :: ValidLane(m, B, order[k])) &&
    (forall j, k | 0 <= j < |order| && 0 <= k < |order| && order[j] == order[k] :: j == k) &&
    (forall w: Lane | ValidLane(m, B, w) :: w in order)
  }

  /** Lane w has run: its state row is what the specification says, and its outputs are
      the specified ones times c. */
  predicate RanScaled(m: Model, B: Batch, w: Lane, c: real, was: seq<real>, ssm: seq<real>, out: seq<real>)
    requires m.Valid() && B.Valid(m) && ValidLane(m, B, w) && StateSized(m, was) && StateSized(m, ssm) && OutSized(m, B, out)
  {
    (Writes(m, B, w) ==> SlotRow(m, B, w, ssm) == Final(m, B, w, SlotRow(m, B, w, was))) &&
    ReadOutputs(m, B, w, out) == Scale(c, LaneOutputs(m, B, w, SlotRow(m, B, w, was)))
  }

  /** Lane w has run: its state row and outputs are what the specification says. */
  predicate Ran(m: Model, B: Batch, w: Lane, was: seq<real>, ssm: seq<real>, out: seq<real>)
    requires m.Valid() && B.Valid(m) && ValidLane(m, B, w) && StateSized(m, was) && StateSized(m, ssm) && OutSized(m, B, out)
  {
    (Writes(m, B, w) ==> SlotRow(m, B, w, ssm) == Final(m, B, w, SlotRow(m, B, w, was))) &&
    ReadOutputs(m, B, w, out) == LaneOutputs(m, B, w, SlotRow(m, B, w, was))
  }

  /** Lane w sees its slot row as it was before the launch. */
  predicate Pending(m: Model, B: Batch, w: Lane, was: seq<real>, ssm: seq<real>)
    requires B.Valid(m) && ValidLane(m, B, w) && StateSized(m, was) && StateSized(m, ssm)
  {
    Writes(m, B, w) ==> SlotRow(m, B, w, ssm) == SlotRow(m, B, w, was)
  }

  /** Any other lane leaves a lane's slot row alone. */
  lemma OthersKeepRow(m: Model, B: Batch, w: Lane, w': Lane, before: seq<real>, now: seq<real>)
    requires B.Valid(m) && ValidLane(m, B, w) && ValidLane(m, B, w') && w != w' && SlotsApart(m, B)
    requires |before| == |now| && StateSized(m, now)
    requires forall x: nat | x < |now| && !Touches(m, B, w, x) :: now[x] == before[x]
    ensures Writes(m, B, w') ==> SlotRow(m, B, w', now) == SlotRow(m, B, w', before)
  {
    hide StateRow, Batch.Valid, Index;
    if Writes(m, B, w') {
      var R := StateRow(m, B.slots[w'.s], w'.hv, w'.d);
      StateRowIn(m, B, w', now);
      forall x: nat | InRow(R, m.dk, x) ensures now[x] == before[x] {
        if Touches(m, B, w, x) {
          StatesApart(m, B, w, w', x);
        }
      }
      assert Row(now, R, m.dk) == Row(before, R, m.dk);
    }
  }

  /** Any other lane leaves a lane's outputs alone. */
  lemma OthersKeepOutputs(m: Model, B: Batch, w: Lane, w': Lane, before: seq<real>, now: seq<real>)
    requires m.Valid() && B.Valid(m) && ValidLane(m, B, w) && ValidLane(m, B, w') && w != w'
    requires OutSized(m, B, before) && OutSized(m, B, now) && SameElsewhere(m, B, w, before, now)
    ensures ReadOutputs(m, B, w', now) == ReadOutputs(m, B, w', before)
  {
    hide OutCell, Model.Valid, Batch.Sized, OutSized, OutputAt;
    forall i: nat | i < B.Len(w'.s)
      ensures OutputAt(m, B, w', i, now) == OutputAt(m, B, w', i, before)
    {
      OthersKeepOutput(m, B, w, w', i, before, now);
    }
  }

  lemma OthersKeepOutput(m: Model, B: Batch, w: Lane, w': Lane, i: nat, before: seq<real>, now: seq<real>)
    requires m.Valid() && B.Valid(m) && ValidLane(m, B, w) && ValidLane(m, B, w') && w != w' && i < B.Len(w'.s)
    requires OutSized(m, B, before) && OutSized(m, B, now) && SameElsewhere(m, B, w, before, now)
    ensures OutputAt(m, B, w', i, now) == OutputAt(m, B, w', i, before)
  {
    CellInside(m, B, w', i, now);
    CellInside(m, B, w', i, before);
    var t := B.cu[w'.s] + i;
    assert B.cu[w'.s] <= t < B.cu[w'.s + 1];
    hide OutCell, Model.Valid, Batch.Valid, OutSized;
    var x := OutCell(m, t, w'.hv, w'.d);
    assert Emits(m, B, w', x);
    if Emits(m, B, w, x) {
      OutputsApart(m, B, w, w', x);
    }
  }

  /** A lane that stores no row emits the same whatever its slot holds. */
  lemma IdleOutputs(m: Model, B: Batch, w: Lane, row: seq<real>, row': seq<real>)
    requires m.Valid() && B.Valid(m) && ValidLane(m, B, w) && !Writes(m, B, w) && |row| == |row'| == m.dk
    ensures LaneOutputs(m, B, w, row) == LaneOutputs(m, B, w, row')
  {
    hide Tokens, Model.Valid, Batch.Sized;
  }

  /** No lane stores state cell x; no lane stores output cell x. */
  ghost predicate Spared(m: Model, B: Batch, x: nat)
    requires B.Valid(m)
  {
    forall w: Lane | ValidLane(m, B, w) :: !Touches(m, B, w, x)
  }

  ghost predicate Silent(m: Model, B: Batch, x: nat)
    requires B.Valid(m)
  {
    forall w: Lane | ValidLane(m, B, w) :: !Emits(m, B, w, x)
  }

  /** After k lanes of the schedule. */
  ghost predicate Progress(m: Model, B: Batch, c: real, order: seq<Lane>, k: nat, was: seq<real>, out0: seq<real>, ssm: seq<real>, out: seq<real>)
    requires m.Valid() && B.Valid(m) && Schedule(m, B, order) && k <= |order|
  {
    |ssm| == |was| && |out| == |out0| && StateSized(m, ssm) && OutSized(m, B, out) &&
    (forall j | 0 <= j < k :: RanScaled(m, B, order[j], c, was, ssm, out)) &&
    (forall j | k <= j < |order| :: Pending(m, B, order[j], was, ssm)) &&
    (forall x: nat | x < |ssm| && Spared(m, B, x) :: ssm[x] == was[x]) &&
    (forall x: nat | x < |out| && Silent(m, B, x) :: out[x] == out0[x])
  }

  lemma OneLane(m: Model, B: Batch, c: real, order: seq<Lane>, k: nat, was: seq<real>, out0: seq<real>,
                before: seq<real>, emitted: seq<real>, ssm: seq<real>, out: seq<real>)
    requires m.Valid() && B.Valid(m) && Schedule(m, B, order) && SlotsApart(m, B) && k < |order|
    requires Progress(m, B, c, order, k, was, out0, before, emitted)
    requires |ssm| == |before|
    requires SlotRow(m, B, order[k], ssm) == Final(m, B, order[k], SlotRow(m, B, order[k], before))
    requires forall x: nat | x < |ssm| && !Touches(m, B, order[k], x) :: ssm[x] == before[x]
    requires SameElsewhere(m, B, order[k], emitted, out)
    requires ReadOutputs(m, B, order[k], out) == Scale(c, LaneOutputs(m, B, order[k], SlotRow(m, B, order[k], before)))
    ensures Progress(m, B, c, order, k + 1, was, out0, ssm, out)
  {
    hide Model.Valid, Batch.Valid, SlotRow, Final, LaneOutputs, ReadOutputs, Touches, Emits, Writes, SlotsApart;
    var w := order[k];
    assert Pending(m, B, w, was, before);
    if !Writes(m, B, w) {
      IdleOutputs(m, B, w, SlotRow(m, B, w, before), SlotRow(m, B, w, was));
    }
    forall j | 0 <= j < |order| && j != k
      ensures j < k ==> RanScaled(m, B, order[j], c, was, ssm, out)
      ensures j > k ==> Pending(m, B, order[j], was, ssm)
    {
      OthersKeepRow(m, B, w, order[j], before, ssm);
      OthersKeepOutputs(m, B, w, order[j], emitted, out);
    }
  }

  /** One launch, whatever order its lanes run in: every lane's slot row and outputs are
      those of the specification on the state before the launch, and nothing else moves. */
  method Launch(m: Model, B: Batch, ssm: array<real>, out: array<real>, order: seq<Lane>)
    requires m.Valid() && B.Valid(m) && SlotsApart(m, B) && Schedule(m, B, order) && ssm != out
    requires StateSized(m, ssm[..]) && OutSized(m, B, out[..])
    modifies ssm, out
    ensures StateSized(m, ssm[..]) && OutSized(m, B, out[..])
    ensures forall w: Lane | ValidLane(m, B, w) :: Ran(m, B, w, old(ssm[..]), ssm[..], out[..])
    ensures forall x: nat | x < ssm.Length && Spared(m, B, x) :: ssm[x] == old(ssm[x])
    ensures forall x: nat | x < out.Length && Silent(m, B, x) :: out[x] == old(out[x])
  {
    hide Model.Valid, Batch.Valid, SlotRow, Final, LaneOutputs, ReadOutputs, Touches, Emits, Writes, SlotsApart, Schedule, Progress, ValidLane;
    ghost var was, out0 := ssm[..], out[..];
    NoLaneYet(m, B, 1.0, order, was, out0);
    for k := 0 to |order|
      invariant Progress(m, B, 1.0, order, k, was, out0, ssm[..], out[..])
    {
      ghost var before, emitted := ssm[..], out[..];
      Sizes(m, B, 1.0, order, k, was, out0, before, emitted);
      LaneKernel(m, B, order[k], ssm, out);
      ScaleOne(LaneOutputs(m, B, order[k], SlotRow(m, B, order[k], before)));
      OneLane(m, B, 1.0, order, k, was, out0, before, emitted, ssm[..], out[..]);
    }
    AllLanes(m, B, 1.0, order, was, out0, ssm[..], out[..]);
    forall w: Lane | ValidLane(m, B, w) ensures Ran(m, B, w, was, ssm[..], out[..]) {
      ScaleOne(LaneOutputs(m, B, w, SlotRow(m, B, w, was)));
    }
  }

  lemma NoLaneYet(m: Model, B: Batch, c: real, order: seq<Lane>, was: seq<real>, out0: seq<real>)
    requires m.Valid() && B.Valid(m) && Schedule(m, B, order) && StateSized(m, was) && OutSized(m, B, out0)
    ensures Progress(m, B, c, order, 0, was, out0, was, out0)
  {
    hide Model.Valid, Batch.Valid, SlotRow;
  }

  lemma Sizes(m: Model, B: Batch, c: real, order: seq<Lane>, k: nat, was: seq<real>, out0: seq<real>, ssm: seq<real>, out: seq<real>)
    requires m.Valid() && B.Valid(m) && Schedule(m, B, order) && k < |order| && Progress(m, B, c, order, k, was, out0, ssm, out)
    ensures ValidLane(m, B, order[k]) && StateSized(m, ssm) && OutSized(m, B, out)
  {
  }

  lemma AllLanes(m: Model, B: Batch, c: real, order: seq<Lane>, was: seq<real>, out0: seq<real>, ssm: seq<real>, out: seq<real>)
    requires m.Valid() && B.Valid(m) && Schedule(m, B, order) && Progress(m, B, c, order, |order|, was, out0, ssm, out)
    ensures |ssm| == |was| && |out| == |out0| && StateSized(m, ssm) && StateSized(m, was) && OutSized(m, B, out)
    ensures forall w: Lane | ValidLane(m, B, w) :: RanScaled(m, B, w, c, was, ssm, out)
    ensures forall x: nat | x < |ssm| && Spared(m, B, x) :: ssm[x] == was[x]
    ensures forall x: nat | x < |out| && Silent(m, B, x) :: out[x] == out0[x]
  {
    hide Model.Valid, Batch.Valid, RanScaled;
    forall w: Lane | ValidLane(m, B, w) ensures RanScaled(m, B, w, c, was, ssm, out) {
      var j :| 0 <= j < |order| && order[j] == w;
    }
  }

  /** Slots that no sequence with tokens names keep every cell. */
  lemma UnnamedSlotSpared(m: Model, B: Batch, slot: nat, hv: nat, d: nat, x: nat)
    requires B.Valid(m) && hv < m.Hv && d < m.dv && InRow(StateRow(m, slot, hv, d), m.dk, x)
    requires forall s: nat | s < |B.slots| && B.slots[s] == slot :: B.Len(s) == 0
    ensures Spared(m, B, x)
  {
    hide Index, Batch.Sized;
    forall w: Lane | ValidLane(m, B, w) ensures !Touches(m, B, w, x) {
      if Touches(m, B, w, x) {
        RowsApart(StateRow(m, B.slots[w.s], w.hv, w.d), StateRow(m, slot, hv, d), m.dk, x);
        StateRowUnique(m, B.slots[w.s], w.hv, w.d, slot, hv, d);
      }
    }
  }
}
