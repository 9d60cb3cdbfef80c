/** What the prefill kernel computes, position by position, and its agreement with decode
    for every token of a causal sequence. */
module PrefillMeaning {
  import opened Division
  import opened RealSums
  import opened Softmax
  import opened PagedAttention
  import opened PagedPrefill
  import opened AttentionMeaning

  /** Position k of sequence b is admitted for token tok. Queries are aligned with the end
      of the keys: the token stands cuQ[b + 1] - tok positions before it. Causal tokens see
      up to their own position; a left window reaches windowLeft back from it, a right
      window (of a non-causal call) windowRight ahead; a hole of the page table is not seen. */
  function PrefillAdmits(P: Prefill, b: nat, tok: nat): nat -> bool
    requires b + 1 < |P.cuQ| == |P.cuK| && P.pg.pageSize > 0
  {
    (k: nat) =>
      k + P.cuK[b] < P.cuK[b + 1] &&
      (P.causal ==> k + (P.cuQ[b + 1] - tok) <= P.cuK[b + 1] - P.cuK[b]) &&
      (P.windowLeft >= 0 ==> k + P.windowLeft + (P.cuQ[b + 1] - tok) >= P.cuK[b + 1] - P.cuK[b]) &&
      (P.windowRight >= 0 && !P.causal ==> k + (P.cuQ[b + 1] - tok) <= P.cuK[b + 1] - P.cuK[b] + P.windowRight) &&
      (P.paged ==> Entry(P.pg, b, k) >= 0)
  }

  /** Component i of position k: in its page, or in row b of the contiguous layout. */
  function PrefillFetch(P: Prefill, cache: nat -> real, b: nat, h: nat, k: nat, i: nat): real
    requires P.pg.pageSize > 0 && P.heads >= P.pg.kvHeads > 0
  {
    if P.paged then Fetch(P.pg, cache, b, P.heads, h, k, i)
    else cache(((b * P.maxSeqlenK + k) * P.pg.kvHeads + KvHeadOf(P.heads, P.pg.kvHeads, h)) * P.pg.d + i)
  }

  function PrefillScore(P: Prefill, b: nat, tok: nat, h: nat): nat -> real
    requires P.pg.pageSize > 0 && P.heads >= P.pg.kvHeads > 0
  {
    (k: nat) => Dot((i: nat) => P.query(tok * P.heads + h, i), (i: nat) => PrefillFetch(P, P.caches.k, b, h, k, i), P.pg.d) *
                P.smScale
  }

  function PrefillValue(P: Prefill, b: nat, h: nat, j: nat): nat -> real
    requires P.pg.pageSize > 0 && P.heads >= P.pg.kvHeads > 0
  {
    (k: nat) => PrefillFetch(P, P.caches.v, b, h, k, j)
  }

  /** The band holds exactly the positions that the masks admit. */
  lemma BandAdmits(P: Prefill, b: nat, tok: nat, k: nat)
    requires P.Valid() && P.Owns(b, tok)
    ensures PrefillAdmits(P, b, tok)(k) <==>
            P.BandLo(b, tok) <= k < P.BandEnd(b, tok) && (P.paged ==> Entry(P.pg, b, k) >= 0)
    ensures P.BandEnd(b, tok) <= P.cuK[b + 1] - P.cuK[b]
  {
    hide Entry;
  }

  lemma PrefillFetchIs(P: Prefill, cache: nat -> real, b: nat, h: nat, k: nat)
    requires P.Valid() && h < P.heads
    ensures P.Bases(b, h)(k).Some? <==> (P.paged ==> Entry(P.pg, b, k) >= 0)
    ensures P.Bases(b, h)(k).Some? ==>
              forall i: nat :: PrefillFetch(P, cache, b, h, k, i) == At(cache, P.Bases(b, h)(k).value)(i)
  {
    FetchIs(P.pg, cache, b, P.heads, h, k, 0);
    hide Fetch, Paging.Base, Paging.PageAt, Entry;
    if P.paged && P.Bases(b, h)(k).Some? {
      forall i: nat ensures PrefillFetch(P, cache, b, h, k, i) == At(cache, P.Bases(b, h)(k).value)(i) {
        FetchIs(P.pg, cache, b, P.heads, h, k, i);
      }
    }
  }

  lemma PrefillKey(P: Prefill, b: nat, tok: nat, h: nat, k: nat, j: nat)
    requires P.Valid() && P.Owns(b, tok) && h < P.heads
    ensures var source := KeysAt(P.caches, P.Query(tok, h), P.pg.d, P.smScale, P.Bases(b, h));
            (source(k).Some? <==> (P.paged ==> Entry(P.pg, b, k) >= 0)) &&
            (source(k).Some? ==>
               source(k).value.score == PrefillScore(P, b, tok, h)(k) && source(k).value.value(j) == PrefillValue(P, b, h, j)(k))
  {
    hide Dot, PrefillFetch, Prefill.Bases, At;
    PrefillFetchIs(P, P.caches.k, b, h, k);
    PrefillFetchIs(P, P.caches.v, b, h, k);
    if P.Bases(b, h)(k).Some? {
      var base := P.Bases(b, h)(k).value;
      forall i: nat ensures PrefillFetch(P, P.caches.k, b, h, k, i) == At(P.caches.k, base)(i) {
      }
      assert P.Row(tok, h) == tok * P.heads + h;
      DotEqual((i: nat) => P.query(tok * P.heads + h, i), (i: nat) => PrefillFetch(P, P.caches.k, b, h, k, i),
               P.Query(tok, h), At(P.caches.k, base), P.pg.d);
    }
  }

  lemma PrefillLists(P: Prefill, b: nat, tok: nat, h: nat, j: nat)
    requires P.Valid() && P.Owns(b, tok) && h < P.heads
    ensures Lists(KeysAt(P.caches, P.Query(tok, h), P.pg.d, P.smScale, P.Bases(b, h)), P.BandLo(b, tok), P.BandEnd(b, tok),
                  P.SeqK(b), PrefillAdmits(P, b, tok), PrefillScore(P, b, tok, h), PrefillValue(P, b, h, j), j)
  {
    hide KeysAt, PrefillAdmits, PrefillScore, PrefillValue, Prefill.BandLo, Prefill.BandEnd, Prefill.Bases, Entry;
    BandAdmits(P, b, tok, 0);
    forall k: nat
      ensures var source := KeysAt(P.caches, P.Query(tok, h), P.pg.d, P.smScale, P.Bases(b, h));
              && (PrefillAdmits(P, b, tok)(k) <==> P.BandLo(b, tok) <= k < P.BandEnd(b, tok) && source(k).Some?)
              && (PrefillAdmits(P, b, tok)(k) ==>
                    source(k).value.score == PrefillScore(P, b, tok, h)(k) && source(k).value.value(j) == PrefillValue(P, b, h, j)(k))
    {
      BandAdmits(P, b, tok, k);
      PrefillKey(P, b, tok, h, k, j);
    }
  }

  /** o and l are output j and log-sum-exp of token tok and head h. */
  ghost predicate RowMeans(P: Prefill, b: nat, tok: nat, h: nat, j: nat, o: real, l: Ext)
    requires P.Valid() && P.Owns(b, tok)
  {
    var sink := if P.sinks.Some? then Some(P.sinks.value(h)) else None;
    && IsAttention(P.E, P.cuK[b + 1] - P.cuK[b], PrefillAdmits(P, b, tok), PrefillScore(P, b, tok, h), PrefillValue(P, b, h, j), sink, o)
    && IsLogSumExp(P.E, P.cuK[b + 1] - P.cuK[b], PrefillAdmits(P, b, tok), PrefillScore(P, b, tok, h), sink, l)
  }

  /** The row and the log-sum-exp of token tok and head h, in terms of the buffers. */
  lemma PrefillRowMeaning(P: Prefill, b: nat, tok: nat, h: nat, j: nat)
    requires P.Valid() && P.Owns(b, tok) && h < P.heads
    ensures RowMeans(P, b, tok, h, j, TwoPass(P.E, P.RowKeys(b, tok, h), P.Sink(h), j),
                     LogSumExp(P.E, P.RowKeys(b, tok, h), P.Sink(h)))
  {
    hide KeysAt, PrefillAdmits, PrefillScore, PrefillValue, Prefill.BandLo, Prefill.BandEnd, Prefill.Bases, Lists, Kept, TwoPass,
         LogSumExp, IsAttention, IsLogSumExp;
    PrefillLists(P, b, tok, h, j);
    var source := KeysAt(P.caches, P.Query(tok, h), P.pg.d, P.smScale, P.Bases(b, h));
    KeptIsAttention(P.E, source, P.BandLo(b, tok), P.BandEnd(b, tok), P.SeqK(b), PrefillAdmits(P, b, tok),
                    PrefillScore(P, b, tok, h), PrefillValue(P, b, h, j), P.Sink(h), j);
    KeptIsLogSumExp(P.E, source, P.BandLo(b, tok), P.BandEnd(b, tok), P.SeqK(b), PrefillAdmits(P, b, tok),
                    PrefillScore(P, b, tok, h), PrefillValue(P, b, h, j), P.Sink(h), j);
  }

  /** What work-item (tok, h) of sequence b leaves in its row. */
  ghost predicate ItemMeans(P: Prefill, b: nat, tok: nat, h: nat, row: nat, out: array2<real>, lse: array<Ext>)
    requires P.Valid() && P.Owns(b, tok) && Shaped(P, out, lse)
    reads out, lse
  {
    row < lse.Length && forall j: nat | j < P.pg.d :: RowMeans(P, b, tok, h, j, out[row, j], lse[row])
  }

  lemma RowDoneMeans(P: Prefill, b: nat, tok: nat, h: nat, out: array2<real>, lse: array<Ext>, row: nat)
    requires P.Valid() && P.Owns(b, tok) && h < P.heads && Shaped(P, out, lse) && row == tok * P.heads + h
    requires P.Row(tok, h) < lse.Length && RowDone(P, b, tok, h, out, lse)
    ensures ItemMeans(P, b, tok, h, row, out, lse)
  {
    hide RowMeans, Prefill.RowKeys, TwoPass, LogSumExp;
    forall j: nat | j < P.pg.d ensures RowMeans(P, b, tok, h, j, out[row, j], lse[row]) {
      PrefillRowMeaning(P, b, tok, h, j);
    }
  }

  /** The whole launch, its work-items in any order, in those terms. */
  method PrefillBatch(P: Prefill, out: array2<real>, lse: array<Ext>, order: seq<(nat, nat)>)
    requires P.Valid() && Shaped(P, out, lse)
    requires forall tok: nat, h: nat | tok < P.cuQ[P.Batch()] && h < P.heads :: (tok, h) in order
    modifies out, lse
    ensures forall b: nat, tok: nat, h: nat, row: nat |
              b + 1 < |P.cuQ| && P.cuQ[b] <= tok < P.cuQ[b + 1] && (P.isPrefill.Some? ==> P.isPrefill.value(b)) &&
              h < P.heads && row == tok * P.heads + h ::
              ItemMeans(P, b, tok, h, row, out, lse)
    ensures forall row: nat | row < lse.Length && Masked(P, row) :: PagedPrefill.RowKept(out, lse, row)
  {
    hide ItemMeans, RowDone, Masked, Prefill.Row;
    PrefillLaunch(P, out, lse, order);
    forall b: nat, tok: nat, h: nat, row: nat | P.Owns(b, tok) && h < P.heads && !P.Skipped(b) && row == tok * P.heads + h
      ensures ItemMeans(P, b, tok, h, row, out, lse)
    {
      RowDoneMeans(P, b, tok, h, out, lse, row);
    }
  }

  // ---------- every causal token is a decode ----------

  lemma CausalBandIsWindow(P: Prefill, D: Decode, b: nat, tok: nat, bh: nat)
    requires P.Valid() && D.Valid() && P.Owns(b, tok) && P.causal && D.windowLeft == P.windowLeft
    requires D.Ctx(bh) + (P.cuQ[b + 1] - tok) == P.cuK[b + 1] - P.cuK[b] + 1 ||
             (D.Ctx(bh) == 0 && P.cuQ[b + 1] - tok > P.cuK[b + 1] - P.cuK[b])
    ensures P.BandEnd(b, tok) == D.Ctx(bh) && (D.Ctx(bh) > 0 ==> P.BandLo(b, tok) == D.Lo(bh))
  {
  }

  /** Every token of a causal sequence, not only a lone one: its prefill row is the decode
      row of the same query, head, window, cache and sink at the context length that ends
      at the token's own position (nothing, when the token stands before the first key). */
  lemma CausalRowIsDecode(P: Prefill, D: Decode, b: nat, tok: nat, h: nat, bh: nat, row: nat, j: nat)
    requires P.Valid() && D.Valid() && P.Owns(b, tok) && h < P.heads && P.paged && P.causal
    requires D.E == P.E && D.pg == P.pg && D.caches == P.caches && D.heads == P.heads && D.smScale == P.smScale
    requires D.windowLeft == P.windowLeft && D.sinks == P.sinks
    requires D.seqLens(b) + (P.cuQ[b + 1] - tok) == P.cuK[b + 1] - P.cuK[b] + 1 ||
             (D.seqLens(b) == 0 && P.cuQ[b + 1] - tok > P.cuK[b + 1] - P.cuK[b])
    requires bh == b * D.heads + h && row == tok * P.heads + h
    requires forall i: nat | i < P.pg.d :: D.query(bh, i) == P.query(row, i)
    ensures DecodeResult(D, bh, j) == TwoPass(P.E, P.RowKeys(b, tok, h), P.Sink(h), j)
  {
    hide Prefill.BandLo, Prefill.BandEnd, Prefill.Center, Decode.Lo, KeysAt, TwoPass, Kept, PagedBases;
    DecodeAt(P, D, b, h, bh);
    CausalBandIsWindow(P, D, b, tok, bh);
    hide Decode.Ctx, Decode.Bases, Prefill.Bases, Decode.Sink, Prefill.Sink;
    assert P.Row(tok, h) == row;
    SameKeys(P.caches, D.Query(bh), P.Query(tok, h), P.pg.d, P.smScale, P.Bases(b, h), D.Lo(bh), D.Ctx(bh));
    if D.Ctx(bh) == 0 {
      EmptyRange(KeysAt(P.caches, P.Query(tok, h), P.pg.d, P.smScale, P.Bases(b, h)), D.Lo(bh), P.BandLo(b, tok));
    }
  }

  lemma DecodeAt(P: Prefill, D: Decode, b: nat, h: nat, bh: nat)
    requires P.Valid() && D.Valid() && h < P.heads && bh == b * D.heads + h && P.paged
    requires D.pg == P.pg && D.heads == P.heads && D.sinks == P.sinks
    ensures D.Ctx(bh) == D.seqLens(b) && D.Bases(bh) == P.Bases(b, h) && D.Sink(bh) == P.Sink(h)
  {
    hide PagedBases;
    DivUnique(bh, D.heads, b);
  }

  lemma EmptyRange(source: nat -> Option<Key>, lo: nat, lo': nat)
    ensures Kept(source, lo, 0) == Kept(source, lo', 0) == []
  {
  }
}
