/** Varlen prefill attention, paged or dense, and its agreement with decode. */
module PagedPrefill {
  import opened Division
  import opened RealSums
  import opened Softmax
  import opened PagedAttention

  /** One prefill launch. Sequence b's query tokens are cuQ[b] .. cuQ[b + 1] - 1; its
      keys number cuK[b + 1] - cuK[b]. isPrefill masks sequences out. A negative window
      bound means unbounded. */
  datatype Prefill = Prefill(E: ExpLog, pg: Paging, paged: bool, maxSeqlenK: nat, caches: Caches,
                             query: (nat, nat) -> real, cuQ: seq<nat>, cuK: seq<nat>, isPrefill: Option<nat -> bool>,
                             heads: nat, smScale: real, causal: bool, windowLeft: int, windowRight: int,
                             sinks: Option<nat -> real>)
  {
    predicate Ascending(cu: seq<nat>) {
      forall i, j | 0 <= i <= j < |cu| :: cu[i] <= cu[j]
    }

    ghost predicate Valid() {
      && E.Lawful() && pg.Valid() && heads >= pg.kvHeads
      && |cuQ| == |cuK| >= 2 && cuQ[0] == 0 && Ascending(cuQ) && Ascending(cuK)
    }

    function Batch(): nat
      requires |cuQ| >= 2
    {
      |cuQ| - 1
    }

    /** Sequence b owns query token tok. */
    predicate Owns(b: nat, tok: nat) {
      b + 1 < |cuQ| && cuQ[b] <= tok < cuQ[b + 1]
    }

    predicate Skipped(b: nat) {
      isPrefill.Some? && !isPrefill.value(b)
    }

    function SeqK(b: nat): nat
      requires b + 1 < |cuK| && Ascending(cuK)
    {
      cuK[b + 1] - cuK[b]
    }

    /** The key position that token tok of sequence b stands at, queries end-aligned. */
    function Center(b: nat, tok: nat): int
      requires b + 1 < |cuQ| == |cuK| && Ascending(cuQ) && Ascending(cuK)
    {
      (tok - cuQ[b]) + SeqK(b) - (cuQ[b + 1] - cuQ[b])
    }

    function BandLo(b: nat, tok: nat): nat
      requires b + 1 < |cuQ| == |cuK| && Ascending(cuQ) && Ascending(cuK)
    {
      if windowLeft >= 0 && Center(b, tok) - windowLeft > 0 then Center(b, tok) - windowLeft else 0
    }

    /** One past the last key of the band. */
    function BandEnd(b: nat, tok: nat): nat
      requires b + 1 < |cuQ| == |cuK| && Ascending(cuQ) && Ascending(cuK)
    {
      var last := SeqK(b) - 1;
      var limit :=
        if causal then Center(b, tok)
        else if windowRight >= 0 then Center(b, tok) + windowRight
        else last;
      var hi := if limit < last then limit else last;
      if hi < 0 then 0 else hi + 1
    }

    /** The output row of (tok, h). */
    function Row(tok: nat, h: nat): nat {
      tok * heads + h
    }

    function Query(tok: nat, h: nat): nat -> real {
      (j: nat) => query(Row(tok, h), j)
    }

    function Bases(b: nat, h: nat): nat -> Option<nat>
      requires pg.Valid() && heads >= pg.kvHeads
    {
      var kvh := h / (heads / pg.kvHeads);
      if paged then PagedBases(pg, b, kvh) else DenseBases(pg, maxSeqlenK, b, kvh)
    }

    /** The keys that token tok of sequence b attends to in head h. */
    function RowKeys(b: nat, tok: nat, h: nat): seq<Key>
      requires pg.Valid() && heads >= pg.kvHeads
      requires b + 1 < |cuQ| == |cuK| && Ascending(cuQ) && Ascending(cuK)
    {
      Kept(KeysAt(caches, Query(tok, h), pg.d, smScale, Bases(b, h)), BandLo(b, tok), BandEnd(b, tok))
    }

    function Sink(h: nat): Option<real> {
      if sinks.Some? then Some(sinks.value(h)) else None
    }
  }

  /** The linear scan for the owning sequence. */
  method Locate(P: Prefill, tok: nat) returns (b: nat)
    requires P.Valid() && tok < P.cuQ[P.Batch()]
    ensures P.Owns(b, tok)
  {
    b := 0;
    while b + 1 < P.Batch() && tok >= P.cuQ[b + 1]
      invariant b < P.Batch() && P.cuQ[b] <= tok
    {
      b := b + 1;
    }
  }

  /** The band arithmetic, in signed integers as the kernel does it. */
  method Band(P: Prefill, b: nat, tok: nat) returns (lo64: int, hi64: int)
    requires P.Valid() && P.Owns(b, tok)
    ensures lo64 == P.BandLo(b, tok)
    ensures hi64 + 1 == P.BandEnd(b, tok) || (hi64 < 0 && P.BandEnd(b, tok) == 0)
  {
    var qi := tok - P.cuQ[b];
    var seqQ, seqK := P.cuQ[b + 1] - P.cuQ[b], P.cuK[b + 1] - P.cuK[b];
    var center := qi + seqK - seqQ;
    lo64 := 0;
    hi64 := seqK - 1;
    if P.causal {
      hi64 := if center < hi64 then center else hi64;
    }
    if P.windowLeft >= 0 {
      var l2 := center - P.windowLeft;
      lo64 := if l2 > lo64 then l2 else lo64;
    }
    if P.windowRight >= 0 && !P.causal {
      var r2 := center + P.windowRight;
      hi64 := if r2 < hi64 then r2 else hi64;
    }
  }

  /** Adding the sink to the running sum, at the running scale. */
  lemma SinkAdded(E: ExpLog, keys: seq<Key>, sink: Option<real>, m: Ext, l: real, l': real)
    requires E.Lawful() && TracksSum(E, keys, m, l) && m.Fin?
    requires l' == l + (if sink.Some? then E.e(sink.value - m.v) else 0.0)
    ensures AtScale(E, m.v, l', Den(E, keys) + SinkTerm(E, sink))
  {
    if sink.Some? {
      DiffTimes(E, Fin(sink.value), m.v);
    }
    assert l' * E.e(m.v) == l * E.e(m.v) + (l' - l) * E.e(m.v);
  }

  /** m + log(l) is the log of the sum that l stands for at scale exp(m). */
  lemma LogAtScale(E: ExpLog, m: real, l: real, total: real)
    requires E.Lawful() && AtScale(E, m, l, total) && l > 0.0
    ensures m + E.ln(l) == E.ln(total)
  {
    assert E.Adds(m, E.ln(l));
    assert E.e(m + E.ln(l)) == E.e(m) * l;
    assert E.ln(E.e(m + E.ln(l))) == m + E.ln(l);
  }

  /** What work-item (tok, h) of an unmasked sequence b has to leave behind: the plain
      two-pass softmax over the band, holes skipped, and its log-sum-exp. */
  ghost predicate RowDone(P: Prefill, b: nat, tok: nat, h: nat, out: array2<real>, lse: array<Ext>)
    requires P.Valid() && P.Owns(b, tok)
    requires P.Row(tok, h) < out.Length0 == lse.Length && out.Length1 == P.pg.d
    reads out, lse
  {
    && (forall j: nat | j < P.pg.d ::
          out[P.Row(tok, h), j] == TwoPass(P.E, P.RowKeys(b, tok, h), P.Sink(h), j))
    && lse[P.Row(tok, h)] == LogSumExp(P.E, P.RowKeys(b, tok, h), P.Sink(h))
  }

  /** Everything outside row `row` is as before. */
  twostate predicate OtherRowsKept(out: array2<real>, lse: array<Ext>, row: nat)
    reads out, lse
  {
    && (forall r: nat, j: nat | r < out.Length0 && j < out.Length1 && r != row :: out[r, j] == old(out[r, j]))
    && (forall r: nat | r < lse.Length && r != row :: lse[r] == old(lse[r]))
  }

  /** Work-item (tok, h): rows of masked sequences are left alone. */
  method PrefillRow(P: Prefill, tok: nat, h: nat, out: array2<real>, lse: array<Ext>) returns (b: nat)
    requires P.Valid() && tok < P.cuQ[P.Batch()] && h < P.heads
    requires P.Row(tok, h) < out.Length0 == lse.Length && out.Length1 == P.pg.d
    modifies out, lse
    ensures P.Owns(b, tok)
    ensures P.Skipped(b) ==> unchanged(out) && unchanged(lse)
    ensures !P.Skipped(b) ==> RowDone(P, b, tok, h, out, lse) && OtherRowsKept(out, lse, P.Row(tok, h))
  {
    b := Locate(P, tok);
    if P.Skipped(b) {
      return;
    }
    ComputeRow(P, b, tok, h, out, lse);
  }

  /** The online loop over the band. */
  method BandLoop(P: Prefill, b: nat, tok: nat, h: nat) returns (m: Ext, l: real, acc: array<real>)
    requires P.Valid() && P.Owns(b, tok)
    ensures fresh(acc) && acc.Length == P.pg.d && TracksSum(P.E, P.RowKeys(b, tok, h), m, l)
    ensures forall j: nat | j < acc.Length :: TracksValue(P.E, P.RowKeys(b, tok, h), m, acc[j], j)
  {
    var lo64, hi64 := Band(P, b, tok);
    var end: nat := if hi64 < 0 then 0 else hi64 + 1;
    hide Prefill.Valid, Prefill.Owns, Prefill.Center, Prefill.BandLo, Prefill.BandEnd, Prefill.Bases, Prefill.Query, Prefill.RowKeys,
         TracksSum, TracksValue, Kept, KeysAt, ExpLog.Exponential, ExpLog.Lawful;
    assert end == P.BandEnd(b, tok);
    BandKeys(P, b, tok, h);
    m, l, acc := OnlineRange(P.E, P.caches, P.Query(tok, h), P.pg.d, P.smScale, P.Bases(b, h), lo64, end, false);
  }

  /** The keys of a row, as the online loop names them. */
  lemma BandKeys(P: Prefill, b: nat, tok: nat, h: nat)
    requires P.Valid() && P.Owns(b, tok)
    ensures P.RowKeys(b, tok, h) ==
            Kept(KeysAt(P.caches, P.Query(tok, h), P.pg.d, P.smScale, P.Bases(b, h)), P.BandLo(b, tok), P.BandEnd(b, tok))
    ensures P.E.Exponential() && P.pg.Valid() && P.heads >= P.pg.kvHeads
  {
    hide Kept, KeysAt;
  }

  method ComputeRow(P: Prefill, b: nat, tok: nat, h: nat, out: array2<real>, lse: array<Ext>)
    requires P.Valid() && P.Owns(b, tok)
    requires P.Row(tok, h) < out.Length0 == lse.Length && out.Length1 == P.pg.d
    modifies out, lse
    ensures RowDone(P, b, tok, h, out, lse) && OtherRowsKept(out, lse, P.Row(tok, h))
  {
    hide Prefill.RowKeys, Prefill.Row, TwoPass, LogSumExp, TracksSum, TracksValue;
    var m, l, acc := BandLoop(P, b, tok, h);
    var row := P.Row(tok, h);
    ghost var keys := P.RowKeys(b, tok, h);
    l := Finish(P.E, keys, P.Sink(h), m, l, acc, out, row);
    lse[row] := if m.Fin? then Fin(m.v + P.E.ln(l)) else NegInf;
  }

  // ---------- the whole launch ----------

  lemma RowsApart(P: Prefill, tok: nat, h: nat, tok': nat, h': nat)
    requires h < P.heads && h' < P.heads && P.Row(tok, h) == P.Row(tok', h')
    ensures tok == tok' && h == h'
  {
    QuotientUnique(P.Row(tok, h), P.heads, tok, tok');
  }

  lemma RowInside(P: Prefill, tok: nat, h: nat, tokens: nat)
    requires tok < tokens && h < P.heads
    ensures P.Row(tok, h) < tokens * P.heads
  {
    MulMono(tok + 1, tokens, P.heads);
    MulMono(tok, tok, P.heads);
  }

  /** out and lse hold one row for each query token and head. */
  predicate Shaped(P: Prefill, out: array2<real>, lse: array<Ext>)
    requires |P.cuQ| >= 2
  {
    out.Length0 == lse.Length == P.cuQ[P.Batch()] * P.heads && out.Length1 == P.pg.d
  }

  /** Work-item w has done what is asked of it, if anything is. */
  ghost predicate ItemDone(P: Prefill, w: (nat, nat), out: array2<real>, lse: array<Ext>)
    requires P.Valid() && Shaped(P, out, lse)
    reads out, lse
  {
    forall b: nat | P.Owns(b, w.0) && w.1 < P.heads && !P.Skipped(b) ::
      P.Row(w.0, w.1) < out.Length0 && RowDone(P, b, w.0, w.1, out, lse)
  }

  /** Row `row` of both results is as before. */
  twostate predicate RowKept(out: array2<real>, lse: array<Ext>, row: nat)
    requires row < out.Length0 == lse.Length
    reads out, lse
  {
    (forall j: nat | j < out.Length1 :: out[row, j] == old(out[row, j])) && lse[row] == old(lse[row])
  }

  /** A row that no computed work-item owns. */
  ghost predicate Masked(P: Prefill, row: nat)
    requires P.Valid()
  {
    forall tok: nat, h: nat, b: nat | P.Owns(b, tok) && h < P.heads && P.Row(tok, h) == row :: P.Skipped(b)
  }

  /** One work-item; what the others have done stays done. */
  method PrefillStep(P: Prefill, w: (nat, nat), out: array2<real>, lse: array<Ext>, ghost earlier: seq<(nat, nat)>)
    requires P.Valid() && Shaped(P, out, lse) && w.0 < P.cuQ[P.Batch()] && w.1 < P.heads
    requires forall v | v in earlier :: ItemDone(P, v, out, lse)
    modifies out, lse
    ensures forall v | v in earlier || v == w :: ItemDone(P, v, out, lse)
    ensures forall row: nat | row < lse.Length && Masked(P, row) :: RowKept(out, lse, row)
  {
    RowInside(P, w.0, w.1, P.cuQ[P.Batch()]);
    var b := PrefillRow(P, w.0, w.1, out, lse);
    hide Prefill.Row, Prefill.RowKeys, TwoPass, LogSumExp;
    forall c: nat | P.Owns(c, w.0) ensures c == b {
      OwnerUnique(P, w.0, b, c);
    }
    forall v | v in earlier && v != w ensures ItemDone(P, v, out, lse) {
      assert old(ItemDone(P, v, out, lse));
      forall c: nat | P.Owns(c, v.0) && v.1 < P.heads && !P.Skipped(c)
        ensures P.Row(v.0, v.1) < out.Length0 && RowDone(P, c, v.0, v.1, out, lse)
      {
        assert old(RowDone(P, c, v.0, v.1, out, lse));
        if P.Row(v.0, v.1) == P.Row(w.0, w.1) {
          RowsApart(P, v.0, v.1, w.0, w.1);
        }
      }
    }
  }

  lemma NothingAsked(P: Prefill, w: (nat, nat), out: array2<real>, lse: array<Ext>)
    requires P.Valid() && Shaped(P, out, lse) && !(w.0 < P.cuQ[P.Batch()] && w.1 < P.heads)
    ensures ItemDone(P, w, out, lse)
  {
  }

  lemma AskedOf(P: Prefill, b: nat, tok: nat, h: nat, out: array2<real>, lse: array<Ext>)
    requires P.Valid() && Shaped(P, out, lse) && P.Owns(b, tok) && h < P.heads && !P.Skipped(b)
    requires tok < P.cuQ[P.Batch()] ==> ItemDone(P, (tok, h), out, lse)
    ensures tok < P.cuQ[P.Batch()] && P.Row(tok, h) < lse.Length && RowDone(P, b, tok, h, out, lse)
  {
  }

  /** The whole launch, its work-items in any order: for every query token and head of an
      unmasked sequence the output row and its log-sum-exp are those of two-pass softmax
      over the kept keys of its band; the rows of masked sequences are untouched. */
  method PrefillLaunch(P: Prefill, out: array2<real>, lse: array<Ext>, order: seq<(nat, nat)>)
    requires P.Valid() && Shaped(P, out, lse)
    requires forall tok: nat, h: nat | tok < P.cuQ[P.Batch()] && h < P.heads :: (tok, h) in order
    modifies out, lse
    ensures forall b: nat, tok: nat, h: nat | P.Owns(b, tok) && h < P.heads && !P.Skipped(b) ::
              P.Row(tok, h) < lse.Length && RowDone(P, b, tok, h, out, lse)
    ensures forall row: nat | row < lse.Length && Masked(P, row) :: RowKept(out, lse, row)
  {
    hide ItemDone, Masked;
    for i := 0 to |order|
      invariant forall v | v in order[..i] :: ItemDone(P, v, out, lse)
      invariant forall row: nat | row < lse.Length && Masked(P, row) :: RowKept(out, lse, row)
    {
      var w := order[i];
      assert order[..i + 1] == order[..i] + [w];
      if w.0 < P.cuQ[P.Batch()] && w.1 < P.heads {
        PrefillStep(P, w, out, lse, order[..i]);
      } else {
        NothingAsked(P, w, out, lse);
      }
    }
    assert order[..|order|] == order;
    forall b: nat, tok: nat, h: nat | P.Owns(b, tok) && h < P.heads && !P.Skipped(b)
      ensures P.Row(tok, h) < lse.Length && RowDone(P, b, tok, h, out, lse)
    {
      AskedOf(P, b, tok, h, out, lse);
    }
  }

  /** The scan finds the one sequence that owns the token. */
  lemma OwnerUnique(P: Prefill, tok: nat, b: nat, c: nat)
    requires P.Valid() && P.Owns(b, tok) && P.Owns(c, tok)
    ensures b == c
  {
  }

  /** The epilogue: sink, quotient, and the sum whose logarithm is wanted. */
  method Finish(E: ExpLog, ghost keys: seq<Key>, sink: Option<real>, m: Ext, l0: real, acc: array<real>,
                out: array2<real>, row: nat) returns (l: real)
    requires E.Lawful() && TracksSum(E, keys, m, l0)
    requires forall j: nat | j < acc.Length :: TracksValue(E, keys, m, acc[j], j)
    requires row < out.Length0 && out.Length1 == acc.Length
    modifies out
    ensures forall j: nat | j < acc.Length :: out[row, j] == TwoPass(E, keys, sink, j)
    ensures forall r: nat, j: nat | r < out.Length0 && j < out.Length1 && r != row :: out[r, j] == old(out[r, j])
    ensures (if m.Fin? then Fin(m.v + E.ln(l)) else NegInf) == LogSumExp(E, keys, sink)
  {
    l := l0;
    if sink.Some? && m.Fin? {
      l := l + E.e(sink.value - m.v);
    }
    var inv := if l > 0.0 then 1.0 / l else 0.0;
    WriteRow(acc, inv, out, row);
    MaxOfSome(keys);
    if m.Fin? {
      SinkAdded(E, keys, sink, m, l0, l);
    }
    forall j: nat | j < acc.Length
      ensures out[row, j] == TwoPass(E, keys, sink, j)
    {
      FinishValue(E, keys, sink, j, m, l, acc[j]);
    }
    if m.Fin? {
      FinishLog(E, keys, sink, m.v, l);
    }
  }

  lemma FinishValue(E: ExpLog, keys: seq<Key>, sink: Option<real>, j: nat, m: Ext, l: real, acc: real)
    requires E.Lawful() && m == MaxScore(keys) && TracksValue(E, keys, m, acc, j)
    requires if m.Fin? then AtScale(E, m.v, l, Den(E, keys) + SinkTerm(E, sink)) else l == 0.0
    ensures acc * (if l > 0.0 then 1.0 / l else 0.0) == TwoPass(E, keys, sink, j)
  {
    MaxOfSome(keys);
    if m.Fin? {
      hide AtScale, Den, Num, TwoPass, MaxScore;
      ScaledQuotient(E, keys, sink, j, m.v, l, acc);
    }
  }

  lemma FinishLog(E: ExpLog, keys: seq<Key>, sink: Option<real>, m: real, l: real)
    requires E.Lawful() && |keys| > 0 && AtScale(E, m, l, Den(E, keys) + SinkTerm(E, sink))
    ensures Fin(m + E.ln(l)) == LogSumExp(E, keys, sink)
  {
    DenPositive(E, keys);
    hide Den;
    assert SinkTerm(E, sink) >= 0.0;
    PositiveFactor(l, E.e(m));
    LogAtScale(E, m, l, Den(E, keys) + SinkTerm(E, sink));
  }

  /** The keys that a decode query and a prefill query with equal components see are
      the same ones. */
  lemma SameKeys(caches: Caches, q: nat -> real, q': nat -> real, d: nat, smScale: real, bases: nat -> Option<nat>,
                 lo: nat, hi: nat)
    requires forall j: nat | j < d :: q(j) == q'(j)
    ensures Kept(KeysAt(caches, q, d, smScale, bases), lo, hi) == Kept(KeysAt(caches, q', d, smScale, bases), lo, hi)
  {
    forall k: nat
      ensures KeysAt(caches, q, d, smScale, bases)(k) == KeysAt(caches, q', d, smScale, bases)(k)
    {
      match bases(k)
      case None =>
      case Some(base) =>
        DotEqual(q, At(caches.k, base), q', At(caches.k, base), d);
        assert KeyAt(caches, q, d, smScale, base) == KeyAt(caches, q', d, smScale, base);
    }
    KeptEqual(KeysAt(caches, q, d, smScale, bases), KeysAt(caches, q', d, smScale, bases), lo, hi);
  }

  /** The band of the only query of a causal sequence is decode's window. */
  lemma BandIsWindow(P: Prefill, D: Decode, b: nat, bh: nat)
    requires P.Valid() && D.Valid() && b < P.Batch() && P.causal && P.cuQ[b + 1] == P.cuQ[b] + 1
    requires D.windowLeft == P.windowLeft && D.Ctx(bh) == P.SeqK(b)
    ensures P.BandLo(b, P.cuQ[b]) == D.Lo(bh) && P.BandEnd(b, P.cuQ[b]) == D.Ctx(bh)
  {
  }

  /** A causal one-query prefill row and the decode row of the same sequence, head,
      window, cache and sink attend to the same keys, so for every split count they
      give the same output. */
  lemma OneQueryPrefillIsDecode(P: Prefill, D: Decode, b: nat, h: nat, bh: nat, j: nat)
    requires P.Valid() && D.Valid() && b < P.Batch() && h < P.heads && bh == b * D.heads + h
    requires P.paged && P.causal && P.cuQ[b + 1] == P.cuQ[b] + 1
    requires D.E == P.E && D.pg == P.pg && D.caches == P.caches && D.heads == P.heads && D.smScale == P.smScale
    requires D.windowLeft == P.windowLeft && D.sinks == P.sinks
    requires D.seqLens(b) == P.SeqK(b)
    requires forall j: nat | j < P.pg.d :: D.Query(bh)(j) == P.Query(P.cuQ[b], h)(j)
    ensures DecodeResult(D, bh, j) == TwoPass(P.E, P.RowKeys(b, P.cuQ[b], h), P.Sink(h), j)
  {
    DivUnique(bh, D.heads, b);
    assert D.Ctx(bh) == P.SeqK(b) && D.Bases(bh) == P.Bases(b, h) && D.Sink(bh) == P.Sink(h);
    BandIsWindow(P, D, b, bh);
    hide Prefill.BandLo, Prefill.BandEnd, Prefill.Center, Decode.Lo, Decode.Ctx, Prefill.Bases, Decode.Bases, KeysAt, TwoPass, Kept;
    SameKeys(P.caches, D.Query(bh), P.Query(P.cuQ[b], h), P.pg.d, P.smScale, P.Bases(b, h), D.Lo(bh), D.Ctx(bh));
  }
}
