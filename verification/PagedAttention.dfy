/** Split-KV paged decode attention and paged prefill attention. */
module PagedAttention {
  import opened Division
  import opened RealSums
  import opened Softmax

  const LANES: nat := 16

  /** How key positions are found in the caches: blockTable(b * maxPages + page index)
      names a page or, when negative, a hole. */
  datatype Paging = Paging(blockTable: nat -> int, maxPages: nat, pageSize: nat, pageStride: nat,
                           kvHeads: nat, d: nat)
  {
    predicate Valid() {
      pageSize > 0 && kvHeads > 0
    }

    function PageAt(b: nat, k: nat): int
      requires Valid()
    {
      blockTable(b * maxPages + k / pageSize)
    }

    /** First element of the key's vector. */
    function Base(page: nat, k: nat, kvh: nat): nat
      requires Valid()
    {
      page * pageStride + ((k % pageSize) * kvHeads + kvh) * d
    }
  }

  /** Decoded cache elements, the fp8 scale included. */
  datatype Caches = Caches(k: nat -> real, v: nat -> real)

  /** The vector that starts at `base`. */
  function At(cache: nat -> real, base: nat): nat -> real {
    (j: nat) => cache(base + j)
  }

  /** A key as query q sees it. */
  function KeyAt(caches: Caches, q: nat -> real, d: nat, smScale: real, base: nat): Key {
    Key(Dot(q, At(caches.k, base), d) * smScale, At(caches.v, base))
  }

  /** Where the vectors of a sequence's keys start, holes excepted: through the page
      table, or in the contiguous layout. */
  function PagedBases(pg: Paging, b: nat, kvh: nat): nat -> Option<nat>
    requires pg.Valid()
  {
    (k: nat) => if pg.PageAt(b, k) < 0 then None else Some(pg.Base(pg.PageAt(b, k), k, kvh))
  }

  function DenseBases(pg: Paging, maxSeqlenK: nat, b: nat, kvh: nat): nat -> Option<nat> {
    (k: nat) => Some(((b * maxSeqlenK + k) * pg.kvHeads + kvh) * pg.d)
  }

  /** The keys of a sequence as query q sees them. */
  function KeysAt(caches: Caches, q: nat -> real, d: nat, smScale: real, bases: nat -> Option<nat>): nat -> Option<Key> {
    (k: nat) => match bases(k) case None => None case Some(base) => Some(KeyAt(caches, q, d, smScale, base))
  }

  // ---------- scores ----------

  function Products(q: nat -> real, row: nat -> real): nat -> real {
    (j: nat) => q(j) * row(j)
  }

  lemma {:induction false} DotIsSum(q: nat -> real, row: nat -> real, n: nat)
    ensures Dot(q, row, n) == Sum(Products(q, row), n)
  {
    if n > 0 {
      DotIsSum(q, row, n - 1);
    }
  }

  /** What lane `lane` adds up: elements lane, lane + lanes, ... of its register slice. */
  function LanePart(f: nat -> real, lanes: nat, lane: nat, slices: nat): real {
    if slices == 0 then 0.0 else LanePart(f, lanes, lane, slices - 1) + f((slices - 1) * lanes + lane)
  }

  function LaneParts(f: nat -> real, lanes: nat, slices: nat): nat -> real {
    (lane: nat) => LanePart(f, lanes, lane, slices)
  }

  /** The sub-group reduction of the lane-interleaved partial sums is the plain sum. */
  lemma {:induction false} LanesSumAll(f: nat -> real, lanes: nat, slices: nat)
    ensures Sum(LaneParts(f, lanes, slices), lanes) == Sum(f, slices * lanes)
  {
    if slices == 0 {
      SumZero(LaneParts(f, lanes, 0), lanes);
    } else {
      LanesSumAll(f, lanes, slices - 1);
      var done := (slices - 1) * lanes;
      MulMono(slices - 1, slices, lanes);
      var added := (lane: nat) => f(done + lane);
      SumAdd(LaneParts(f, lanes, slices - 1), added, LaneParts(f, lanes, slices), lanes);
      SumSplit(f, added, done, lanes);
    }
  }

  lemma {:induction false} SumZero(f: nat -> real, n: nat)
    requires forall k: nat | k < n :: f(k) == 0.0
    ensures Sum(f, n) == 0.0
  {
    if n > 0 {
      SumZero(f, n - 1);
    }
  }

  /** The products of one lane's register slice. */
  method LaneSum(q: nat -> real, row: nat -> real, lane: nat, slices: nat) returns (partial: real)
    ensures partial == LanePart(Products(q, row), LANES, lane, slices)
  {
    partial := 0.0;
    for i := 0 to slices
      invariant partial == LanePart(Products(q, row), LANES, lane, i)
    {
      partial := partial + q(i * LANES + lane) * row(i * LANES + lane);
    }
  }

  /** The decode kernel's score: interleaved over the lanes, then reduced over the sub-group. */
  method LaneScore(q: nat -> real, row: nat -> real, d: nat, smScale: real) returns (score: real)
    requires d % LANES == 0
    ensures score == Dot(q, row, d) * smScale
  {
    hide LanePart, Dot;
    var slices := d / LANES;
    var total := 0.0;
    for lane := 0 to LANES
      invariant total == Sum(LaneParts(Products(q, row), LANES, slices), lane)
    {
      var partial := LaneSum(q, row, lane, slices);
      total := total + partial;
    }
    LanesSumAll(Products(q, row), LANES, slices);
    DotIsSum(q, row, d);
    score := total * smScale;
  }

  /** The prefill kernel's score: one sequential loop. */
  method PlainScore(q: nat -> real, row: nat -> real, d: nat, smScale: real) returns (score: real)
    ensures score == Dot(q, row, d) * smScale
  {
    score := 0.0;
    for j := 0 to d
      invariant score == Dot(q, row, j)
    {
      score := score + q(j) * row(j);
    }
    score := score * smScale;
  }

  // ---------- the online loop over a key range ----------

  /** The state of the recurrence after the kept keys of [lo, k). */
  ghost predicate Tracks(E: ExpLog, source: nat -> Option<Key>, lo: nat, k: nat, m: Ext, l: real, acc: seq<real>) {
    && TracksSum(E, Kept(source, lo, k), m, l)
    && forall j: nat | j < |acc| :: TracksValue(E, Kept(source, lo, k), m, acc[j], j)
  }

  method Rescale(E: ExpLog, m: Ext, score: real, acc: array<real>, value: nat -> real)
    modifies acc
    ensures forall j: nat | j < acc.Length :: acc[j] == NextValue(E, m, old(acc[j]), score, value(j))
  {
    var mNew := Max(m, Fin(score));
    var corr := E.Diff(m, mNew.v);
    var p := E.e(score - mNew.v);
    for j := 0 to acc.Length
      invariant forall i: nat | i < j :: acc[i] == NextValue(E, m, old(acc[i]), score, value(i))
      invariant forall i: nat | j <= i < acc.Length :: acc[i] == old(acc[i])
    {
      acc[j] := acc[j] * corr + p * value(j);
    }
  }

  lemma TracksOneMore(E: ExpLog, source: nat -> Option<Key>, lo: nat, k: nat, m: Ext, l: real, acc: seq<real>,
                      key: Key, acc': seq<real>)
    requires E.Exponential() && lo <= k && Tracks(E, source, lo, k, m, l, acc) && source(k) == Some(key)
    requires |acc'| == |acc|
    requires forall j: nat | j < |acc| :: acc'[j] == NextValue(E, m, acc[j], key.score, key.value(j))
    ensures Tracks(E, source, lo, k + 1, Max(m, Fin(key.score)), NextSum(E, m, l, key.score), acc')
  {
    var keys := Kept(source, lo, k);
    assert Kept(source, lo, k + 1) == keys + [key];
    hide Kept, TracksValue, NextValue, NextSum, Max, Den, Num;
    OnlineSum(E, keys, m, l, key);
    forall j: nat | j < |acc'| ensures TracksValue(E, keys + [key], Max(m, Fin(key.score)), acc'[j], j) {
      OnlineValue(E, keys, m, acc[j], key, j);
    }
  }

  /** One kept key of the online loop. */
  method OnlineKey(E: ExpLog, caches: Caches, q: nat -> real, d: nat, smScale: real, base: nat, lanes: bool,
                   m: Ext, l: real, acc: array<real>) returns (m': Ext, l': real)
    requires acc.Length == d && (lanes ==> d % LANES == 0)
    modifies acc
    ensures var key := KeyAt(caches, q, d, smScale, base);
            && m' == Max(m, Fin(key.score)) && l' == NextSum(E, m, l, key.score)
            && forall j: nat | j < d :: acc[j] == NextValue(E, m, old(acc[j]), key.score, key.value(j))
  {
    var score: real;
    if lanes {
      score := LaneScore(q, At(caches.k, base), d, smScale);
    } else {
      score := PlainScore(q, At(caches.k, base), d, smScale);
    }
    m' := Max(m, Fin(score));
    l' := l * E.Diff(m, m'.v) + E.e(score - m'.v);
    assert l' == NextSum(E, m, l, score) && KeyAt(caches, q, d, smScale, base).score == score;
    hide NextValue, NextSum, Max, Dot;
    Rescale(E, m, score, acc, At(caches.v, base));
  }

  /** The online softmax loop over the key positions lo..hi-1, holes skipped; `lanes`
      says whether scores are summed as in the decode or as in the prefill kernel. */
  method OnlineRange(E: ExpLog, caches: Caches, q: nat -> real, d: nat, smScale: real, bases: nat -> Option<nat>,
                     lo: nat, hi: nat, lanes: bool) returns (m: Ext, l: real, acc: array<real>)
    requires E.Exponential() && (lanes ==> d % LANES == 0)
    ensures fresh(acc) && acc.Length == d
    ensures Tracks(E, KeysAt(caches, q, d, smScale, bases), lo, hi, m, l, acc[..])
  {
    ghost var source := KeysAt(caches, q, d, smScale, bases);
    hide Tracks, KeyAt, Max, NextSum, NextValue, ExpLog.Exponential;
    m, l := NegInf, 0.0;
    acc := new real[d](_ => 0.0);
    NothingTracked(E, source, lo, lo, acc[..]);
    NothingTracked(E, source, lo, hi, acc[..]);
    var k := lo;
    while k < hi
      invariant lo <= k && (lo <= hi ==> k <= hi) && (hi <= lo ==> k == lo)
      invariant fresh(acc)
      invariant Tracks(E, source, lo, k, m, l, acc[..])
      invariant hi <= lo ==> Tracks(E, source, lo, hi, m, l, acc[..])
    {
      ghost var m0, l0, acc0 := m, l, acc[..];
      if bases(k).Some? {
        m, l := OnlineKey(E, caches, q, d, smScale, bases(k).value, lanes, m, l, acc);
        TracksOneMore(E, source, lo, k, m0, l0, acc0, KeyAt(caches, q, d, smScale, bases(k).value), acc[..]);
      } else {
        TracksHole(E, source, lo, k, m, l, acc[..]);
      }
      k := k + 1;
    }
  }

  /** Over an empty range the initial values are right. */
  lemma NothingTracked(E: ExpLog, source: nat -> Option<Key>, lo: nat, hi: nat, acc: seq<real>)
    requires forall j | 0 <= j < |acc| :: acc[j] == 0.0
    ensures hi <= lo ==> Tracks(E, source, lo, hi, NegInf, 0.0, acc)
  {
    if hi <= lo {
      assert Kept(source, lo, hi) == [];
    }
  }

  lemma TracksHole(E: ExpLog, source: nat -> Option<Key>, lo: nat, k: nat, m: Ext, l: real, acc: seq<real>)
    requires lo <= k && source(k).None? && Tracks(E, source, lo, k, m, l, acc)
    ensures Tracks(E, source, lo, k + 1, m, l, acc)
  {
    assert Kept(source, lo, k + 1) == Kept(source, lo, k);
  }

  // ---------- decode ----------

  /** One decode launch: a query per (sequence, head) pair, flattened to bh. */
  datatype Decode = Decode(E: ExpLog, pg: Paging, caches: Caches, query: (nat, nat) -> real, seqLens: nat -> nat,
                           heads: nat, splits: nat, smScale: real, windowLeft: int, sinks: Option<nat -> real>)
  {
    ghost predicate Valid() {
      E.Exponential() && pg.Valid() && pg.d % LANES == 0 && splits > 0 && heads >= pg.kvHeads
    }

    function Query(bh: nat): nat -> real {
      (j: nat) => query(bh, j)
    }

    function KvHead(bh: nat): nat
      requires pg.kvHeads > 0 && heads >= pg.kvHeads
    {
      (bh % heads) / (heads / pg.kvHeads)
    }

    function Bases(bh: nat): nat -> Option<nat>
      requires pg.Valid() && heads >= pg.kvHeads
    {
      PagedBases(pg, bh / heads, KvHead(bh))
    }

    function Keys(bh: nat): nat -> Option<Key>
      requires pg.Valid() && heads >= pg.kvHeads
    {
      KeysAt(caches, Query(bh), pg.d, smScale, Bases(bh))
    }

    function Sink(bh: nat): Option<real>
      requires heads > 0
    {
      if sinks.Some? then Some(sinks.value(bh % heads)) else None
    }

    /** The keys of sequence b that the window lets through are Lo(b) .. Ctx(b) - 1. */
    function Ctx(bh: nat): nat
      requires heads > 0
    {
      seqLens(bh / heads)
    }

    function Lo(bh: nat): nat
      requires heads > 0
    {
      if windowLeft >= 0 && Ctx(bh) > windowLeft + 1 then Ctx(bh) - (windowLeft + 1)
      else 0
    }

    function Per(bh: nat): nat
      requires heads > 0 && splits > 0
    {
      (Ctx(bh) - Lo(bh) + splits - 1) / splits
    }

    function K0(bh: nat, sp: nat): nat
      requires heads > 0 && splits > 0
    {
      Lo(bh) + sp * Per(bh)
    }

    function K1(bh: nat, sp: nat): nat
      requires heads > 0 && splits > 0
    {
      if K0(bh, sp) + Per(bh) < Ctx(bh) then K0(bh, sp) + Per(bh) else Ctx(bh)
    }

    /** Where the first sp splits end. */
    function Through(bh: nat, sp: nat): nat
      requires heads > 0 && splits > 0
    {
      if K0(bh, sp) < Ctx(bh) then K0(bh, sp) else Ctx(bh)
    }
  }

  /** Split sp takes up exactly where the first sp splits stop. */
  lemma SplitsChain(D: Decode, bh: nat, sp: nat)
    requires D.Valid()
    ensures D.Lo(bh) <= D.Through(bh, sp) <= D.Through(bh, sp + 1)
    ensures Kept(D.Keys(bh), D.Lo(bh), D.Through(bh, sp + 1)) ==
            Kept(D.Keys(bh), D.Lo(bh), D.Through(bh, sp)) + Kept(D.Keys(bh), D.K0(bh, sp), D.K1(bh, sp))
  {
    MulMono(sp, sp, D.Per(bh));
    if D.K0(bh, sp) < D.Ctx(bh) {
      KeptConcat(D.Keys(bh), D.Lo(bh), D.Through(bh, sp), D.Through(bh, sp + 1));
    }
  }

  /** Together the splits cover the window, for every split count. */
  lemma SplitsCover(D: Decode, bh: nat)
    requires D.Valid()
    ensures D.Through(bh, 0) == D.Lo(bh) && D.Through(bh, D.splits) == D.Ctx(bh)
  {
    var span := D.Ctx(bh) - D.Lo(bh);
    assert span + D.splits - 1 == D.Per(bh) * D.splits + (span + D.splits - 1) % D.splits;
    assert D.splits * D.Per(bh) == D.Per(bh) * D.splits >= span;
  }

  /** The caller-owned workspaces of a launch. */
  class Workspace {
    const expSums: array2<real>
    const maxLogits: array2<Ext>
    const tmpOut: array3<real>

    constructor (rows: nat, splits: nat, d: nat)
      ensures fresh(expSums) && fresh(maxLogits) && fresh(tmpOut)
      ensures Sized(rows, splits, d)
    {
      expSums := new real[rows, splits]((_, _) => 0.0);
      maxLogits := new Ext[rows, splits]((_, _) => NegInf);
      tmpOut := new real[rows, splits, d]((_, _, _) => 0.0);
    }

    predicate Sized(rows: nat, splits: nat, d: nat) {
      && expSums.Length0 == maxLogits.Length0 == tmpOut.Length0 == rows
      && expSums.Length1 == maxLogits.Length1 == tmpOut.Length1 == splits
      && tmpOut.Length2 == d
    }
  }

  /** Row (bh, sp) of the workspace holds the recurrence's state for that split. */
  ghost predicate PartialDone(D: Decode, w: Workspace, rows: nat, bh: nat, sp: nat)
    requires D.Valid() && w.Sized(rows, D.splits, D.pg.d) && bh < rows && sp < D.splits
    reads w.expSums, w.maxLogits, w.tmpOut
  {
    var keys := Kept(D.Keys(bh), D.K0(bh, sp), D.K1(bh, sp));
    && TracksSum(D.E, keys, w.maxLogits[bh, sp], w.expSums[bh, sp])
    && forall j: nat | j < D.pg.d :: TracksValue(D.E, keys, w.maxLogits[bh, sp], w.tmpOut[bh, sp, j], j)
  }

  /** Only row (bh, sp) may differ from before. */
  twostate predicate OtherRowsKept(w: Workspace, rows: nat, splits: nat, d: nat, bh: nat, sp: nat)
    requires w.Sized(rows, splits, d)
    reads w.expSums, w.maxLogits, w.tmpOut
  {
    forall r: nat, s: nat | r < rows && s < splits && (r != bh || s != sp) :: RowKept(w, rows, splits, d, r, s)
  }

  twostate predicate RowKept(w: Workspace, rows: nat, splits: nat, d: nat, r: nat, s: nat)
    requires w.Sized(rows, splits, d) && r < rows && s < splits
    reads w.expSums, w.maxLogits, w.tmpOut
  {
    && w.expSums[r, s] == old(w.expSums[r, s]) && w.maxLogits[r, s] == old(w.maxLogits[r, s])
    && forall j: nat | j < d :: w.tmpOut[r, s, j] == old(w.tmpOut[r, s, j])
  }

  method StorePartial(w: Workspace, rows: nat, splits: nat, d: nat, bh: nat, sp: nat, m: Ext, l: real, acc: array<real>)
    requires w.Sized(rows, splits, d) && bh < rows && sp < splits && acc.Length == d
    modifies w.expSums, w.maxLogits, w.tmpOut
    ensures w.expSums[bh, sp] == l && w.maxLogits[bh, sp] == m
    ensures forall j: nat | j < d :: w.tmpOut[bh, sp, j] == acc[j]
    ensures OtherRowsKept(w, rows, splits, d, bh, sp)
  {
    w.expSums[bh, sp] := l;
    w.maxLogits[bh, sp] := m;
    for j := 0 to d
      invariant w.expSums[bh, sp] == l && w.maxLogits[bh, sp] == m
      invariant forall i: nat | i < j :: w.tmpOut[bh, sp, i] == acc[i]
      invariant forall r: nat, s: nat | r < rows && s < splits && (r != bh || s != sp) ::
                  w.expSums[r, s] == old(w.expSums[r, s]) && w.maxLogits[r, s] == old(w.maxLogits[r, s])
      invariant forall r: nat, s: nat, i: nat | r < rows && s < splits && i < d && (r != bh || s != sp) ::
                  w.tmpOut[r, s, i] == old(w.tmpOut[r, s, i])
    {
      w.tmpOut[bh, sp, j] := acc[j];
    }
    forall r: nat, s: nat | r < rows && s < splits && (r != bh || s != sp)
      ensures RowKept(w, rows, splits, d, r, s)
    {
      assert w.expSums[r, s] == old(w.expSums[r, s]);
    }
  }

  /** Work-group (bh, sp) of the partial kernel; it writes its own workspace row only. */
  method PartialKernel(D: Decode, w: Workspace, rows: nat, bh: nat, sp: nat)
    requires D.Valid() && w.Sized(rows, D.splits, D.pg.d) && bh < rows && sp < D.splits
    modifies w.expSums, w.maxLogits, w.tmpOut
    ensures PartialDone(D, w, rows, bh, sp)
    ensures OtherRowsKept(w, rows, D.splits, D.pg.d, bh, sp)
  {
    hide Decode.K0, Decode.K1, Kept, TracksSum, TracksValue;
    var m, l, acc := OnlineRange(D.E, D.caches, D.Query(bh), D.pg.d, D.smScale, D.Bases(bh), D.K0(bh, sp), D.K1(bh, sp), true);
    label computed:
    StorePartial(w, rows, D.splits, D.pg.d, bh, sp, m, l, acc);
    forall r: nat, s: nat | r < rows && s < D.splits && (r != bh || s != sp)
      ensures RowKept(w, rows, D.splits, D.pg.d, r, s)
    {
      assert RowKept@computed(w, rows, D.splits, D.pg.d, r, s);
      assert old@computed(w.expSums[r, s]) == old(w.expSums[r, s]);
      assert old@computed(w.maxLogits[r, s]) == old(w.maxLogits[r, s]);
      forall j: nat | j < D.pg.d ensures w.tmpOut[r, s, j] == old(w.tmpOut[r, s, j]) {
        assert old@computed(w.tmpOut[r, s, j]) == old(w.tmpOut[r, s, j]);
      }
    }
  }

  // ---------- the reduction over the splits ----------

  /** Running sums of the reduction, at the scale of the overall maximum. */
  ghost predicate Merging(D: Decode, bh: nat, sp: nat, M: real, denom: real, acc: seq<real>)
    requires D.Valid()
  {
    var keys := Kept(D.Keys(bh), D.Lo(bh), D.Through(bh, sp));
    && AtScale(D.E, M, denom, Den(D.E, keys) + SinkTerm(D.E, D.Sink(bh)))
    && forall j: nat | j < |acc| :: AtScale(D.E, M, acc[j], Num(D.E, keys, j))
  }

  /** A split's contribution at the overall scale. */
  function Weighted(E: ExpLog, msp: real, M: real, total: real, x: real): real {
    total + x * E.e(msp - M)
  }

  /** Adding a split's partial sum x, known at scale exp(msp), at scale exp(M). */
  lemma MergeOne(E: ExpLog, msp: real, M: real, x: real, total: real, part: real, sum: real)
    requires E.Exponential() && AtScale(E, msp, x, part) && AtScale(E, M, total, sum)
    ensures AtScale(E, M, Weighted(E, msp, M, total, x), sum + part)
  {
    var w, e := E.e(msp - M), E.e(M);
    DiffTimes(E, Fin(msp), M);
    assert (x * w) * e == x * (w * e);
    assert (total + x * w) * e == total * e + (x * w) * e;
  }

  lemma NothingKept(D: Decode, bh: nat)
    requires D.Valid()
    ensures MaxScore(Kept(D.Keys(bh), D.Lo(bh), D.Through(bh, 0))) == NegInf
  {
    SplitsCover(D, bh);
    hide Decode.Keys, Decode.Lo;
    assert Kept(D.Keys(bh), D.Lo(bh), D.Through(bh, 0)) == [];
  }

  /** One more split in the running maximum. */
  lemma NextMax(D: Decode, bh: nat, sp: nat, M: Ext, m: Ext, l: real)
    requires D.Valid() && sp < D.splits && M == MaxScore(Kept(D.Keys(bh), D.Lo(bh), D.Through(bh, sp)))
    requires TracksSum(D.E, Kept(D.Keys(bh), D.K0(bh, sp), D.K1(bh, sp)), m, l)
    ensures Max(M, m) == MaxScore(Kept(D.Keys(bh), D.Lo(bh), D.Through(bh, sp + 1)))
  {
    hide Decode.K0, Decode.K1, Decode.Through, Decode.Ctx, Decode.Lo, Decode.Keys, AtScale, Kept, Den, Num;
    SplitsChain(D, bh, sp);
    DenConcat(D.E, Kept(D.Keys(bh), D.Lo(bh), D.Through(bh, sp)), Kept(D.Keys(bh), D.K0(bh, sp), D.K1(bh, sp)), 0);
  }

  /** The first loop of the reduction: the maximum over the splits is the maximum score. */
  method MaxOverSplits(D: Decode, w: Workspace, rows: nat, bh: nat) returns (M: Ext)
    requires D.Valid() && w.Sized(rows, D.splits, D.pg.d) && bh < rows
    requires forall sp: nat | sp < D.splits :: PartialDone(D, w, rows, bh, sp)
    ensures M == MaxScore(Kept(D.Keys(bh), D.Lo(bh), D.Ctx(bh)))
    ensures forall sp: nat | sp < D.splits && w.maxLogits[bh, sp].Fin? :: M.Fin?
  {
    hide Decode.K0, Decode.K1, Decode.Through, Decode.Ctx, Decode.Lo, Decode.Keys, AtScale, Kept;
    SplitsCover(D, bh);
    NothingKept(D, bh);
    hide MaxScore;
    M := NegInf;
    for sp := 0 to D.splits
      invariant M == MaxScore(Kept(D.Keys(bh), D.Lo(bh), D.Through(bh, sp)))
      invariant forall s: nat | s < sp && w.maxLogits[bh, s].Fin? :: M.Fin?
    {
      assert PartialDone(D, w, rows, bh, sp);
      NextMax(D, bh, sp, M, w.maxLogits[bh, sp], w.expSums[bh, sp]);
      M := Max(M, w.maxLogits[bh, sp]);
    }
  }

  /** The sums over the first sp + 1 splits are those over the first sp plus one split's. */
  lemma SplitSums(D: Decode, bh: nat, sp: nat, j: nat)
    requires D.Valid()
    ensures var keys := D.Keys(bh);
            var done, mine, next := Kept(keys, D.Lo(bh), D.Through(bh, sp)), Kept(keys, D.K0(bh, sp), D.K1(bh, sp)),
                                    Kept(keys, D.Lo(bh), D.Through(bh, sp + 1));
            && Den(D.E, next) == Den(D.E, done) + Den(D.E, mine)
            && Num(D.E, next, j) == Num(D.E, done, j) + Num(D.E, mine, j)
  {
    SplitsChain(D, bh, sp);
    hide Decode.K0, Decode.K1, Decode.Through, Decode.Lo, Decode.Keys, Num, Den;
    DenConcat(D.E, Kept(D.Keys(bh), D.Lo(bh), D.Through(bh, sp)), Kept(D.Keys(bh), D.K0(bh, sp), D.K1(bh, sp)), j);
  }

  /** An empty split adds nothing. */
  lemma SkipSplit(D: Decode, bh: nat, sp: nat, M: real, denom: real, acc: seq<real>)
    requires D.Valid() && Merging(D, bh, sp, M, denom, acc)
    requires MaxScore(Kept(D.Keys(bh), D.K0(bh, sp), D.K1(bh, sp))).NegInf?
    ensures Merging(D, bh, sp + 1, M, denom, acc)
  {
    hide Decode.K0, Decode.K1, Decode.Through, Decode.Lo, Decode.Keys, AtScale, Kept;
    MaxOfSome(Kept(D.Keys(bh), D.K0(bh, sp), D.K1(bh, sp)));
    SplitSums(D, bh, sp, 0);
    forall j: nat | j < |acc|
      ensures AtScale(D.E, M, acc[j], Num(D.E, Kept(D.Keys(bh), D.Lo(bh), D.Through(bh, sp + 1)), j))
    {
      SplitSums(D, bh, sp, j);
    }
  }

  lemma MergeSplit(D: Decode, bh: nat, sp: nat, M: real, denom: real, acc: seq<real>,
                   msp: real, l: real, part: seq<real>, denom': real, acc': seq<real>)
    requires D.Valid() && Merging(D, bh, sp, M, denom, acc) && |part| == |acc| == |acc'|
    requires var mine := Kept(D.Keys(bh), D.K0(bh, sp), D.K1(bh, sp));
             && AtScale(D.E, msp, l, Den(D.E, mine))
             && forall j: nat | j < |part| :: AtScale(D.E, msp, part[j], Num(D.E, mine, j))
    requires denom' == Weighted(D.E, msp, M, denom, l)
    requires forall j: nat | j < |acc| :: acc'[j] == Weighted(D.E, msp, M, acc[j], part[j])
    ensures Merging(D, bh, sp + 1, M, denom', acc')
  {
    hide Decode.K0, Decode.K1, Decode.Through, Decode.Lo, Decode.Keys, AtScale, Weighted, Kept, Den, Num;
    var done, mine := Kept(D.Keys(bh), D.Lo(bh), D.Through(bh, sp)), Kept(D.Keys(bh), D.K0(bh, sp), D.K1(bh, sp));
    SplitSums(D, bh, sp, 0);
    MergeOne(D.E, msp, M, l, denom, Den(D.E, mine), Den(D.E, done) + SinkTerm(D.E, D.Sink(bh)));
    forall j: nat | j < |acc|
      ensures AtScale(D.E, M, acc'[j], Num(D.E, Kept(D.Keys(bh), D.Lo(bh), D.Through(bh, sp + 1)), j))
    {
      SplitSums(D, bh, sp, j);
      MergeOne(D.E, msp, M, part[j], acc[j], Num(D.E, mine, j), Num(D.E, done, j));
    }
  }

  /** The value loop of one split. */
  method AddValues(E: ExpLog, msp: real, M: real, part: seq<real>, acc: array<real>)
    requires |part| == acc.Length
    modifies acc
    ensures forall j: nat | j < acc.Length :: acc[j] == Weighted(E, msp, M, old(acc[j]), part[j])
  {
    var weight := E.e(msp - M);
    for j := 0 to acc.Length
      invariant forall i: nat | j <= i < acc.Length :: acc[i] == old(acc[i])
      invariant forall i: nat | i < j :: acc[i] == Weighted(E, msp, M, old(acc[i]), part[i])
    {
      acc[j] := acc[j] + part[j] * weight;
    }
  }

  /** Row (bh, sp) of the value workspace. */
  function PartRow(w: Workspace, bh: nat, sp: nat): (part: seq<real>)
    requires bh < w.tmpOut.Length0 && sp < w.tmpOut.Length1
    reads w.tmpOut
    ensures |part| == w.tmpOut.Length2 && forall j: nat | j < |part| :: part[j] == w.tmpOut[bh, sp, j]
  {
    seq(w.tmpOut.Length2, j requires 0 <= j < w.tmpOut.Length2 && bh < w.tmpOut.Length0 && sp < w.tmpOut.Length1
      reads w.tmpOut => w.tmpOut[bh, sp, j])
  }

  /** One split of the second loop; empty splits are passed over. */
  method AddSplit(D: Decode, w: Workspace, rows: nat, bh: nat, sp: nat, M: real, denom: real, acc: array<real>)
    returns (denom': real)
    requires D.Valid() && w.Sized(rows, D.splits, D.pg.d) && bh < rows && sp < D.splits
    requires PartialDone(D, w, rows, bh, sp) && acc.Length == D.pg.d
    requires Merging(D, bh, sp, M, denom, acc[..]) && w.maxLogits[bh, sp].Fin?
    modifies acc
    ensures Merging(D, bh, sp + 1, M, denom', acc[..])
  {
    hide Den, Num, Kept, Decode.Keys, Decode.K0, Decode.K1, Decode.Lo, Decode.Through, AtScale, Merging;
    var msp := w.maxLogits[bh, sp].v;
    ghost var acc0 := acc[..];
    var part := PartRow(w, bh, sp);
    denom' := denom + w.expSums[bh, sp] * D.E.e(msp - M);
    assert denom' == Weighted(D.E, msp, M, denom, w.expSums[bh, sp]);
    hide Weighted;
    AddValues(D.E, msp, M, part, acc);
    MergeSplit(D, bh, sp, M, denom, acc0, msp, w.expSums[bh, sp], part, denom', acc[..]);
  }

  /** The second loop of the reduction. */
  method MergeSplits(D: Decode, w: Workspace, rows: nat, bh: nat, M: Ext) returns (denom: real, acc: array<real>)
    requires D.Valid() && w.Sized(rows, D.splits, D.pg.d) && bh < rows
    requires forall sp: nat | sp < D.splits :: PartialDone(D, w, rows, bh, sp)
    requires forall sp: nat | sp < D.splits && w.maxLogits[bh, sp].Fin? :: M.Fin?
    ensures fresh(acc) && acc.Length == D.pg.d
    ensures M.NegInf? ==> denom == 0.0 && forall j: nat | j < D.pg.d :: acc[j] == 0.0
    ensures M.Fin? ==> Merging(D, bh, D.splits, M.v, denom, acc[..])
  {
    denom := 0.0;
    var sink := D.Sink(bh);
    if sink.Some? && M.Fin? {
      denom := denom + D.E.e(sink.value - M.v);
    }
    acc := new real[D.pg.d](_ => 0.0);
    if M.Fin? {
      NothingMerged(D, bh, M.v, denom, acc[..]);
    }
    hide Merging, Decode.Keys, Decode.Lo, Decode.Through, Decode.K0, Decode.K1, Decode.Sink, Kept, Den, Num, AtScale;
    for sp := 0 to D.splits
      invariant fresh(acc)
      invariant M.NegInf? ==> denom == 0.0 && forall j: nat | j < D.pg.d :: acc[j] == 0.0
      invariant M.Fin? ==> Merging(D, bh, sp, M.v, denom, acc[..])
    {
      assert PartialDone(D, w, rows, bh, sp);
      if w.maxLogits[bh, sp].NegInf? {
        if M.Fin? {
          SkipSplit(D, bh, sp, M.v, denom, acc[..]);
        }
      } else {
        denom := AddSplit(D, w, rows, bh, sp, M.v, denom, acc);
      }
    }
  }

  lemma NothingMerged(D: Decode, bh: nat, M: real, denom: real, acc: seq<real>)
    requires D.Valid() && denom == (if D.Sink(bh).Some? then D.E.e(D.Sink(bh).value - M) else 0.0)
    requires forall j: nat | j < |acc| :: acc[j] == 0.0
    ensures Merging(D, bh, 0, M, denom, acc)
  {
    SplitsCover(D, bh);
    if D.Sink(bh).Some? {
      DiffTimes(D.E, Fin(D.Sink(bh).value), M);
    }
  }

  /** What decode has to leave in O[bh, j]: the plain two-pass softmax average over the
      keys that the window keeps and the page table holds. */
  function DecodeResult(D: Decode, bh: nat, j: nat): real
    requires D.pg.Valid() && D.heads > 0 && D.heads >= D.pg.kvHeads
  {
    TwoPass(D.E, Kept(D.Keys(bh), D.Lo(bh), D.Ctx(bh)), D.Sink(bh), j)
  }

  /** From sums at a common scale to the quotient. */
  lemma ScaledQuotient(E: ExpLog, keys: seq<Key>, sink: Option<real>, j: nat, M: real, denom: real, acc: real)
    requires E.Exponential() && |keys| > 0
    requires AtScale(E, M, denom, Den(E, keys) + SinkTerm(E, sink)) && AtScale(E, M, acc, Num(E, keys, j))
    ensures denom > 0.0 && acc * (1.0 / denom) == TwoPass(E, keys, sink, j)
  {
    TwoPassIsRatio(E, keys, sink, j);
    hide TwoPass, Den, Num, SinkTerm;
    PositiveFactor(denom, E.e(M));
    RatioOf(acc, denom, E.e(M), Num(E, keys, j), Den(E, keys) + SinkTerm(E, sink));
    TimesInverse(acc, denom);
  }

  lemma TimesInverse(x: real, d: real)
    requires d != 0.0
    ensures x * (1.0 / d) == x / d
  {
  }

  /** Work-item bh of the reduce kernel. */
  method ReduceKernel(D: Decode, w: Workspace, rows: nat, bh: nat, out: array2<real>)
    requires D.Valid() && w.Sized(rows, D.splits, D.pg.d) && bh < rows
    requires forall sp: nat | sp < D.splits :: PartialDone(D, w, rows, bh, sp)
    requires out.Length0 == rows && out.Length1 == D.pg.d && out != w.expSums
    modifies out
    ensures forall j: nat | j < D.pg.d :: out[bh, j] == DecodeResult(D, bh, j)
    ensures forall r: nat, j: nat | r < rows && j < D.pg.d && r != bh :: out[r, j] == old(out[r, j])
  {
    hide DecodeResult, Merging, PartialDone, MaxScore, Kept, Decode.Keys, Decode.Ctx, Decode.Lo;
    var M := MaxOverSplits(D, w, rows, bh);
    var denom, acc := MergeSplits(D, w, rows, bh, M);
    var inv := if denom > 0.0 then 1.0 / denom else 0.0;
    WriteRow(acc, inv, out, bh);
    forall j: nat | j < D.pg.d
      ensures out[bh, j] == DecodeResult(D, bh, j)
    {
      Quotient(D, bh, j, M, denom, acc[..]);
    }
  }

  method WriteRow(acc: array<real>, inv: real, out: array2<real>, row: nat)
    requires row < out.Length0 && acc.Length == out.Length1
    modifies out
    ensures forall j: nat | j < acc.Length :: out[row, j] == acc[j] * inv
    ensures forall r: nat, j: nat | r < out.Length0 && j < out.Length1 && r != row :: out[r, j] == old(out[r, j])
  {
    for j := 0 to acc.Length
      invariant forall i: nat | i < j :: out[row, i] == acc[i] * inv
      invariant forall r: nat, i: nat | r < out.Length0 && i < out.Length1 && r != row :: out[r, i] == old(out[r, i])
    {
      out[row, j] := acc[j] * inv;
    }
  }

  lemma Quotient(D: Decode, bh: nat, j: nat, M: Ext, denom: real, acc: seq<real>)
    requires D.Valid() && j < |acc|
    requires M == MaxScore(Kept(D.Keys(bh), D.Lo(bh), D.Ctx(bh)))
    requires M.NegInf? ==> denom == 0.0 && acc[j] == 0.0
    requires M.Fin? ==> Merging(D, bh, D.splits, M.v, denom, acc)
    ensures acc[j] * (if denom > 0.0 then 1.0 / denom else 0.0) == DecodeResult(D, bh, j)
  {
    SplitsCover(D, bh);
    MaxOfSome(Kept(D.Keys(bh), D.Lo(bh), D.Ctx(bh)));
    if M.Fin? {
      hide Decode.Keys, Decode.Lo, Decode.Ctx, Kept, AtScale, MaxScore, Num, Den, TwoPass;
      ScaledQuotient(D.E, Kept(D.Keys(bh), D.Lo(bh), D.Ctx(bh)), D.Sink(bh), j, M.v, denom, acc[j]);
    }
  }

  /** The whole decode: the partial kernel's work-groups in any order, then the reduce
      kernel's work-items in any order. For every split count, window, page table with
      holes and optional sink, O is the plain two-pass softmax average. */
  method DecodeLaunch(D: Decode, batch: nat, out: array2<real>, w: Workspace,
                      partialOrder: seq<(nat, nat)>, reduceOrder: seq<nat>)
    requires D.Valid() && w.Sized(batch * D.heads, D.splits, D.pg.d)
    requires out.Length0 == batch * D.heads && out.Length1 == D.pg.d && out != w.expSums
    requires forall bh: nat, sp: nat | bh < batch * D.heads && sp < D.splits :: (bh, sp) in partialOrder
    requires forall bh: nat | bh < batch * D.heads :: bh in reduceOrder
    modifies out, w.expSums, w.maxLogits, w.tmpOut
    ensures forall bh: nat, j: nat | bh < batch * D.heads && j < D.pg.d :: out[bh, j] == DecodeResult(D, bh, j)
  {
    var rows := batch * D.heads;
    hide PartialDone, DecodeResult;
    for i := 0 to |partialOrder|
      invariant forall bh: nat, sp: nat | bh < rows && sp < D.splits && (bh, sp) in partialOrder[..i] ::
                  PartialDone(D, w, rows, bh, sp)
    {
      var (bh, sp) := partialOrder[i];
      assert partialOrder[..i + 1] == partialOrder[..i] + [partialOrder[i]];
      if bh < rows && sp < D.splits {
        PartialStep(D, w, rows, bh, sp, partialOrder[..i]);
      }
    }
    assert partialOrder[..|partialOrder|] == partialOrder;
    for i := 0 to |reduceOrder|
      invariant forall bh: nat, sp: nat | bh < rows && sp < D.splits :: PartialDone(D, w, rows, bh, sp)
      invariant forall bh: nat, j: nat | bh < rows && j < D.pg.d && bh in reduceOrder[..i] ::
                  out[bh, j] == DecodeResult(D, bh, j)
    {
      assert reduceOrder[..i + 1] == reduceOrder[..i] + [reduceOrder[i]];
      if reduceOrder[i] < rows {
        ReduceKernel(D, w, rows, reduceOrder[i], out);
      }
    }
    assert reduceOrder[..|reduceOrder|] == reduceOrder;
  }

  method PartialStep(D: Decode, w: Workspace, rows: nat, bh: nat, sp: nat, ghost earlier: seq<(nat, nat)>)
    requires D.Valid() && w.Sized(rows, D.splits, D.pg.d) && bh < rows && sp < D.splits
    requires forall r: nat, s: nat | r < rows && s < D.splits && (r, s) in earlier :: PartialDone(D, w, rows, r, s)
    modifies w.expSums, w.maxLogits, w.tmpOut
    ensures PartialDone(D, w, rows, bh, sp)
    ensures forall r: nat, s: nat | r < rows && s < D.splits && (r, s) in earlier :: PartialDone(D, w, rows, r, s)
  {
    PartialKernel(D, w, rows, bh, sp);
    hide TracksSum, TracksValue, Kept, Decode.K0, Decode.K1, Decode.Keys;
    forall r: nat, s: nat | r < rows && s < D.splits && (r, s) in earlier
      ensures PartialDone(D, w, rows, r, s)
    {
      if r != bh || s != sp {
        assert old(PartialDone(D, w, rows, r, s));
        assert RowKept(w, rows, D.splits, D.pg.d, r, s);
      }
    }
  }
}
