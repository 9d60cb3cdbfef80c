/** What the attention kernels compute, position by position: weighted averages over the
    key positions that are admitted, with the caches and the page table read in place. */
module AttentionMeaning {
  import opened Division
  import opened RealSums
  import opened Softmax
  import opened PagedAttention
  import opened PagedCache

  // ---------- attention over positions ----------

  /** Sum of exp(score) over the admitted positions below n, and the sink's share. */
  function Total(E: ExpLog, n: nat, admitted: nat -> bool, score: nat -> real, sink: Option<real>): real {
    Sum((k: nat) => if admitted(k) then E.e(score(k)) else 0.0, n) + (if sink.Some? then E.e(sink.value) else 0.0)
  }

  /** o is the average of value over the admitted positions below n, weighted by
      exp(score) against the total; it is 0 when none is admitted. */
  ghost predicate IsAttention(E: ExpLog, n: nat, admitted: nat -> bool, score: nat -> real, value: nat -> real,
                              sink: Option<real>, o: real)
  {
    if exists k: nat :: k < n && admitted(k) then
      Total(E, n, admitted, score, sink) > 0.0 &&
      o * Total(E, n, admitted, score, sink) == Sum((k: nat) => if admitted(k) then E.e(score(k)) * value(k) else 0.0, n)
    else o == 0.0
  }

  /** lse is the logarithm of the total, minus infinity when no position is admitted. */
  ghost predicate IsLogSumExp(E: ExpLog, n: nat, admitted: nat -> bool, score: nat -> real, sink: Option<real>, lse: Ext) {
    if exists k: nat :: k < n && admitted(k) then lse.Fin? && E.e(lse.v) == Total(E, n, admitted, score, sink)
    else lse == NegInf
  }

  function Weights(E: ExpLog, admitted: nat -> bool, score: nat -> real): nat -> real {
    (k: nat) => if admitted(k) then E.e(score(k)) else 0.0
  }

  function Weighed(E: ExpLog, admitted: nat -> bool, score: nat -> real, value: nat -> real): nat -> real {
    (k: nat) => if admitted(k) then E.e(score(k)) * value(k) else 0.0
  }

  /** The key list of a range holds the admitted positions, with their scores and values. */
  ghost predicate Lists(source: nat -> Option<Key>, lo: nat, hi: nat, n: nat, admitted: nat -> bool, score: nat -> real,
                        value: nat -> real, j: nat)
  {
    && hi <= n
    && (forall k: nat | k < n :: admitted(k) <==> lo <= k < hi && source(k).Some?)
    && (forall k: nat | k < n && admitted(k) :: source(k).value.score == score(k) && source(k).value.value(j) == value(k))
  }

  lemma KeptStep(source: nat -> Option<Key>, lo: nat, m: nat)
    ensures m == 0 ==> Kept(source, lo, m) == []
    ensures m > 0 && lo <= m - 1 && source(m - 1).Some? ==> Kept(source, lo, m) == Kept(source, lo, m - 1) + [source(m - 1).value]
    ensures m > 0 && !(lo <= m - 1 && source(m - 1).Some?) ==> Kept(source, lo, m) == Kept(source, lo, m - 1)
  {
  }

  lemma {:induction false} KeptSums(E: ExpLog, source: nat -> Option<Key>, lo: nat, hi: nat, n: nat, admitted: nat -> bool,
                                    score: nat -> real, value: nat -> real, j: nat, m: nat)
    requires Lists(source, lo, hi, n, admitted, score, value, j) && m <= hi
    ensures Den(E, Kept(source, lo, m)) == Sum(Weights(E, admitted, score), m)
    ensures Num(E, Kept(source, lo, m), j) == Sum(Weighed(E, admitted, score, value), m)
    ensures |Kept(source, lo, m)| > 0 <==> exists k: nat :: k < m && admitted(k)
  {
    hide Den, Num, Sum, Kept;
    KeptStep(source, lo, m);
    if m > 0 {
      KeptSums(E, source, lo, hi, n, admitted, score, value, j, m - 1);
      SumOneMore(Weights(E, admitted, score), m - 1);
      SumOneMore(Weighed(E, admitted, score, value), m - 1);
      if admitted(m - 1) {
        LastKey(E, Kept(source, lo, m - 1), source(m - 1).value, j);
      }
    } else {
      NoKeys(E, Kept(source, lo, 0), j);
      SumOneMore(Weights(E, admitted, score), 0);
      SumOneMore(Weighed(E, admitted, score, value), 0);
    }
  }

  lemma {:induction false} NothingBeyond(E: ExpLog, source: nat -> Option<Key>, lo: nat, hi: nat, n: nat, admitted: nat -> bool,
                                         score: nat -> real, value: nat -> real, j: nat, m: nat)
    requires Lists(source, lo, hi, n, admitted, score, value, j) && hi <= m <= n
    ensures Sum(Weights(E, admitted, score), m) == Sum(Weights(E, admitted, score), hi)
    ensures Sum(Weighed(E, admitted, score, value), m) == Sum(Weighed(E, admitted, score, value), hi)
  {
    if hi < m {
      NothingBeyond(E, source, lo, hi, n, admitted, score, value, j, m - 1);
    }
  }

  lemma ListedSums(E: ExpLog, source: nat -> Option<Key>, lo: nat, hi: nat, n: nat, admitted: nat -> bool,
                   score: nat -> real, value: nat -> real, j: nat)
    requires Lists(source, lo, hi, n, admitted, score, value, j)
    ensures Den(E, Kept(source, lo, hi)) == Sum((k: nat) => if admitted(k) then E.e(score(k)) else 0.0, n)
    ensures Num(E, Kept(source, lo, hi), j) == Sum((k: nat) => if admitted(k) then E.e(score(k)) * value(k) else 0.0, n)
    ensures |Kept(source, lo, hi)| > 0 <==> exists k: nat :: k < n && admitted(k)
  {
    KeptSums(E, source, lo, hi, n, admitted, score, value, j, hi);
    NothingBeyond(E, source, lo, hi, n, admitted, score, value, j, n);
    SumEqual(Weights(E, admitted, score), (k: nat) => if admitted(k) then E.e(score(k)) else 0.0, n);
    SumEqual(Weighed(E, admitted, score, value), (k: nat) => if admitted(k) then E.e(score(k)) * value(k) else 0.0, n);
  }

  lemma RatioTimes(n: real, d: real)
    requires d > 0.0
    ensures (n / d) * d == n
  {
  }

  /** Two-pass softmax over the kept keys is attention over the admitted positions. */
  lemma KeptIsAttention(E: ExpLog, source: nat -> Option<Key>, lo: nat, hi: nat, n: nat, admitted: nat -> bool,
                        score: nat -> real, value: nat -> real, sink: Option<real>, j: nat)
    requires E.Exponential() && Lists(source, lo, hi, n, admitted, score, value, j)
    ensures IsAttention(E, n, admitted, score, value, sink, TwoPass(E, Kept(source, lo, hi), sink, j))
  {
    hide Den, Num, Kept, Lists, ExpLog.Exponential, Sum;
    var keys := Kept(source, lo, hi);
    ListedSums(E, source, lo, hi, n, admitted, score, value, j);
    if |keys| > 0 {
      TwoPassIsRatio(E, keys, sink, j);
      hide TwoPass;
      RatioTimes(Num(E, keys, j), Den(E, keys) + SinkTerm(E, sink));
    }
  }

  lemma KeptIsLogSumExp(E: ExpLog, source: nat -> Option<Key>, lo: nat, hi: nat, n: nat, admitted: nat -> bool,
                        score: nat -> real, value: nat -> real, sink: Option<real>, j: nat)
    requires E.Lawful() && Lists(source, lo, hi, n, admitted, score, value, j)
    ensures IsLogSumExp(E, n, admitted, score, sink, LogSumExp(E, Kept(source, lo, hi), sink))
  {
    hide Den, Num, Kept, Lists, Sum;
    var keys := Kept(source, lo, hi);
    ListedSums(E, source, lo, hi, n, admitted, score, value, j);
    if |keys| > 0 {
      TwoPassIsRatio(E, keys, sink, j);
      hide TwoPass;
    }
  }

  /** The defining equation has one solution. */
  lemma AttentionUnique(E: ExpLog, n: nat, admitted: nat -> bool, score: nat -> real, value: nat -> real, sink: Option<real>,
                        o: real, p: real)
    requires IsAttention(E, n, admitted, score, value, sink, o) && IsAttention(E, n, admitted, score, value, sink, p)
    ensures o == p
  {
    if exists k: nat :: k < n && admitted(k) {
      var t := Total(E, n, admitted, score, sink);
      hide Total, Sum;
      assert (o - p) * t == 0.0;
    }
  }

  // ---------- decode ----------

  /** The page-table entry for position k of sequence b. */
  function Entry(pg: Paging, b: nat, k: nat): int
    requires pg.pageSize > 0
  {
    pg.blockTable(b * pg.maxPages + k / pg.pageSize)
  }

  /** The key head that serves query head h: consecutive query heads share one. */
  function KvHeadOf(heads: nat, kvHeads: nat, h: nat): nat
    requires heads >= kvHeads > 0
  {
    h / (heads / kvHeads)
  }

  /** Where, within its page, the vector of position k for query head h starts. */
  function Place(pg: Paging, heads: nat, h: nat, k: nat): nat
    requires pg.pageSize > 0 && heads >= pg.kvHeads > 0
  {
    ((k % pg.pageSize) * pg.kvHeads + KvHeadOf(heads, pg.kvHeads, h)) * pg.d
  }

  /** Component i of position k: a cell of its page, nothing for a hole. */
  function Fetch(pg: Paging, cache: nat -> real, b: nat, heads: nat, h: nat, k: nat, i: nat): real
    requires pg.pageSize > 0 && heads >= pg.kvHeads > 0
  {
    if Entry(pg, b, k) >= 0 then
      var page: nat := Entry(pg, b, k);
      cache(page * pg.pageStride + Place(pg, heads, h, k) + i)
    else 0.0
  }

  /** Position k is in the window of the last position, and the page table holds it. */
  function DecodeAdmits(D: Decode, b: nat): nat -> bool
    requires D.pg.pageSize > 0
  {
    (k: nat) => (D.windowLeft < 0 || k + D.windowLeft + 1 >= D.seqLens(b)) && Entry(D.pg, b, k) >= 0
  }

  function DecodeScore(D: Decode, b: nat, h: nat): nat -> real
    requires D.pg.pageSize > 0 && D.heads >= D.pg.kvHeads > 0
  {
    (k: nat) => Dot((i: nat) => D.query(b * D.heads + h, i), (i: nat) => Fetch(D.pg, D.caches.k, b, D.heads, h, k, i), D.pg.d) *
                D.smScale
  }

  function DecodeValue(D: Decode, b: nat, h: nat, j: nat): nat -> real
    requires D.pg.pageSize > 0 && D.heads >= D.pg.kvHeads > 0
  {
    (k: nat) => Fetch(D.pg, D.caches.v, b, D.heads, h, k, j)
  }

  lemma DecodeLists(D: Decode, b: nat, h: nat, j: nat)
    requires D.Valid() && h < D.heads && j < D.pg.d
    ensures Lists(D.Keys(b * D.heads + h), D.Lo(b * D.heads + h), D.Ctx(b * D.heads + h), D.seqLens(b),
                  DecodeAdmits(D, b), DecodeScore(D, b, h), DecodeValue(D, b, h, j), j)
  {
    var bh := b * D.heads + h;
    DivUnique(bh, D.heads, b);
    var source, admitted := D.Keys(bh), DecodeAdmits(D, b);
    assert D.Ctx(bh) == D.seqLens(b);
    hide Place, Paging.Base, Dot;
    forall k: nat | k < D.seqLens(b)
      ensures admitted(k) <==> D.Lo(bh) <= k < D.Ctx(bh) && source(k).Some?
      ensures admitted(k) ==> source(k).Some? && source(k).value.score == DecodeScore(D, b, h)(k) && source(k).value.value(j) == DecodeValue(D, b, h, j)(k)
    {
      DecodeKey(D, b, h, k, j);
    }
  }

  /** The kernels' address of a component is its place in its page. */
  lemma FetchIs(pg: Paging, cache: nat -> real, b: nat, heads: nat, h: nat, k: nat, i: nat)
    requires pg.Valid() && heads >= pg.kvHeads > 0
    ensures heads / pg.kvHeads > 0 && pg.PageAt(b, k) == Entry(pg, b, k) && KvHeadOf(heads, pg.kvHeads, h) == h / (heads / pg.kvHeads)
    ensures Entry(pg, b, k) >= 0 ==>
              Fetch(pg, cache, b, heads, h, k, i) == At(cache, pg.Base(pg.PageAt(b, k), k, h / (heads / pg.kvHeads)))(i)
  {
  }

  lemma DecodeKey(D: Decode, b: nat, h: nat, k: nat, j: nat)
    requires D.Valid() && h < D.heads && j < D.pg.d
    ensures D.Keys(b * D.heads + h)(k).Some? <==> Entry(D.pg, b, k) >= 0
    ensures Entry(D.pg, b, k) >= 0 ==>
              D.Keys(b * D.heads + h)(k).value.score == DecodeScore(D, b, h)(k) &&
              D.Keys(b * D.heads + h)(k).value.value(j) == DecodeValue(D, b, h, j)(k)
  {
    hide Dot, Fetch, Entry, Paging.PageAt, Paging.Base, At;
    var bh := b * D.heads + h;
    DivUnique(bh, D.heads, b);
    FetchIs(D.pg, D.caches.v, b, D.heads, h, k, j);
    if Entry(D.pg, b, k) >= 0 {
      var base := D.pg.Base(D.pg.PageAt(b, k), k, D.KvHead(bh));
      assert D.Bases(bh)(k) == Some(base);
      forall i: nat ensures Fetch(D.pg, D.caches.k, b, D.heads, h, k, i) == At(D.caches.k, base)(i) {
        FetchIs(D.pg, D.caches.k, b, D.heads, h, k, i);
      }
      DotEqual((i: nat) => D.query(b * D.heads + h, i), (i: nat) => Fetch(D.pg, D.caches.k, b, D.heads, h, k, i),
               D.Query(bh), At(D.caches.k, base), D.pg.d);
    }
  }

  /** Decode, in terms of its buffers: output j of head h of sequence b is the attention
      of query row b * heads + h over the positions below the sequence's length that are at
      most windowLeft back from its last and have a page, each read in place. */
  lemma DecodeMeaning(D: Decode, b: nat, h: nat, j: nat)
    requires D.Valid() && h < D.heads && j < D.pg.d
    ensures IsAttention(D.E, D.seqLens(b), DecodeAdmits(D, b), DecodeScore(D, b, h), DecodeValue(D, b, h, j),
                        if D.sinks.Some? then Some(D.sinks.value(h)) else None, DecodeResult(D, b * D.heads + h, j))
  {
    hide Lists, Kept, Decode.Keys, Decode.Lo, Decode.Ctx, TwoPass, IsAttention, DecodeAdmits, DecodeScore, DecodeValue;
    DecodeLists(D, b, h, j);
    var bh := b * D.heads + h;
    DivUnique(bh, D.heads, b);
    KeptIsAttention(D.E, D.Keys(bh), D.Lo(bh), D.Ctx(bh), D.seqLens(b), DecodeAdmits(D, b), DecodeScore(D, b, h),
                    DecodeValue(D, b, h, j), D.Sink(bh), j);
  }

  /** The decode launch, its work-groups in any order, in those terms. */
  method DecodeBatch(D: Decode, batch: nat, out: array2<real>, w: Workspace,
                     partialOrder: seq<(nat, nat)>, reduceOrder: seq<nat>)
    requires D.Valid() && w.Sized(batch * D.heads, D.splits, D.pg.d)
    requires out.Length0 == batch * D.heads && out.Length1 == D.pg.d && out != w.expSums
    requires forall bh: nat, sp: nat | bh < batch * D.heads && sp < D.splits :: (bh, sp) in partialOrder
    requires forall bh: nat | bh < batch * D.heads :: bh in reduceOrder
    modifies out, w.expSums, w.maxLogits, w.tmpOut
    ensures forall b: nat, h: nat, j: nat | b < batch && h < D.heads && j < D.pg.d ::
              b * D.heads + h < out.Length0 &&
              IsAttention(D.E, D.seqLens(b), DecodeAdmits(D, b), DecodeScore(D, b, h), DecodeValue(D, b, h, j),
                          if D.sinks.Some? then Some(D.sinks.value(h)) else None, out[b * D.heads + h, j])
  {
    hide IsAttention, DecodeAdmits, DecodeScore, DecodeValue, DecodeResult;
    DecodeLaunch(D, batch, out, w, partialOrder, reduceOrder);
    forall b: nat, h: nat, j: nat | b < batch && h < D.heads && j < D.pg.d
      ensures b * D.heads + h < out.Length0 &&
              IsAttention(D.E, D.seqLens(b), DecodeAdmits(D, b), DecodeScore(D, b, h), DecodeValue(D, b, h, j),
                          if D.sinks.Some? then Some(D.sinks.value(h)) else None, out[b * D.heads + h, j])
    {
      MulMono(b + 1, batch, D.heads);
      MulMono(b, b, D.heads);
      DecodeMeaning(D, b, h, j);
    }
  }

  // ---------- decode over a scattered batch ----------

  lemma SameAttention(E: ExpLog, n: nat, admitted: nat -> bool, score: nat -> real, value: nat -> real,
                      admitted': nat -> bool, score': nat -> real, value': nat -> real, sink: Option<real>, o: real)
    requires IsAttention(E, n, admitted, score, value, sink, o)
    requires forall k: nat | k < n :: admitted(k) == admitted'(k)
    requires forall k: nat | k < n && admitted(k) :: score(k) == score'(k) && value(k) == value'(k)
    ensures IsAttention(E, n, admitted', score', value', sink, o)
  {
    hide Sum;
    SumEqual(Weights(E, admitted, score), Weights(E, admitted', score'), n);
    SumEqual(Weighed(E, admitted, score, value), Weighed(E, admitted', score', value'), n);
    Rewritten(E, n, admitted, score, value);
    Rewritten(E, n, admitted', score', value');
  }

  lemma Rewritten(E: ExpLog, n: nat, admitted: nat -> bool, score: nat -> real, value: nat -> real)
    ensures Sum((k: nat) => if admitted(k) then E.e(score(k)) else 0.0, n) == Sum(Weights(E, admitted, score), n)
    ensures Sum((k: nat) => if admitted(k) then E.e(score(k)) * value(k) else 0.0, n) == Sum(Weighed(E, admitted, score, value), n)
  {
    SumEqual(Weights(E, admitted, score), (k: nat) => if admitted(k) then E.e(score(k)) else 0.0, n);
    SumEqual(Weighed(E, admitted, score, value), (k: nat) => if admitted(k) then E.e(score(k)) * value(k) else 0.0, n);
  }

  /** Component i of token first + k for the key head that serves query head h, as storing
      and reading leaves it. */
  function Stored<T>(D: Decode, h: nat, source: (nat, nat) -> T, trip: T -> real, first: nat, k: nat, i: nat): real
    requires D.heads >= D.pg.kvHeads > 0
  {
    trip(source(first + k, KvHeadOf(D.heads, D.pg.kvHeads, h) * D.pg.d + i))
  }

  function DenseScore<T>(D: Decode, b: nat, h: nat, key: (nat, nat) -> T, trip: T -> real, first: nat): nat -> real
    requires D.heads >= D.pg.kvHeads > 0
  {
    (k: nat) => Dot((i: nat) => D.query(b * D.heads + h, i), (i: nat) => Stored(D, h, key, trip, first, k, i), D.pg.d) * D.smScale
  }

  function DenseValue<T>(D: Decode, h: nat, value: (nat, nat) -> T, trip: T -> real, first: nat, j: nat): nat -> real
    requires D.heads >= D.pg.kvHeads > 0
  {
    (k: nat) => Stored(D, h, value, trip, first, k, j)
  }

  /** The position is in the window of the last one. */
  function InWindow(D: Decode, b: nat): nat -> bool {
    (k: nat) => D.windowLeft < 0 || k + D.windowLeft + 1 >= D.seqLens(b)
  }

  lemma DenseKey<T, C>(D: Decode, b: nat, h: nat, slots: seq<int>, first: nat, key: (nat, nat) -> T, value: (nat, nat) -> T,
                       encK: T -> C, decK: C -> real, encV: T -> C, decV: C -> real,
                       kBefore: seq<C>, vBefore: seq<C>, kCache: seq<C>, vCache: seq<C>, k: nat, j: nat)
    requires D.Valid() && LayoutOf(D.pg).Valid() && h < D.heads && j < D.pg.d && first + k < |slots|
    requires KvHeadOf(D.heads, D.pg.kvHeads, h) < D.pg.kvHeads && WrittenAt(D.pg, b, slots, first, k)
    requires D.caches == Caches(View(kCache, decK), View(vCache, decV))
    requires Fits(LayoutOf(D.pg), slots, |kCache|) && Fits(LayoutOf(D.pg), slots, |vCache|)
    requires Scattered(LayoutOf(D.pg), slots, key, encK, kBefore, kCache)
    requires Scattered(LayoutOf(D.pg), slots, value, encV, vBefore, vCache)
    ensures Entry(D.pg, b, k) >= 0
    ensures DecodeScore(D, b, h)(k) == DenseScore(D, b, h, key, Trip(encK, decK), first)(k)
    ensures DecodeValue(D, b, h, j)(k) == DenseValue(D, h, value, Trip(encV, decV), first, j)(k)
  {
    hide Dot, Layout.Addr, Fits, Scattered, Fetch, DecodeScore, DecodeValue, DenseScore, DenseValue, Decode.Keys, KeysAt, Entry,
         TokenKey, KvHeadOf, PagedBases, Decode.Query, LayoutOf, Paging.PageAt, Paging.Base;
    var bh, kvh := b * D.heads + h, KvHeadOf(D.heads, D.pg.kvHeads, h);
    KeysOfHead(D, b, h);
    DecodeKey(D, b, h, k, j);
    EntryIs(D.pg, b, slots, first, k);
    CachedKey(D.pg, b, kvh, slots, key, value, encK, decK, encV, decV, kBefore, vBefore, kCache, vCache,
              D.Query(bh), D.smScale, first, k, j);
    TokenKeyIsDense(D, b, h, key, value, Trip(encK, decK), Trip(encV, decV), first, k, j);
  }

  lemma EntryIs(pg: Paging, b: nat, slots: seq<int>, first: nat, k: nat)
    requires pg.Valid() && first + k < |slots| && WrittenAt(pg, b, slots, first, k)
    ensures Entry(pg, b, k) >= 0
  {
  }

  lemma TokenKeyIsDense<T>(D: Decode, b: nat, h: nat, key: (nat, nat) -> T, value: (nat, nat) -> T, tripK: T -> real, tripV: T -> real,
                           first: nat, k: nat, j: nat)
    requires D.Valid() && h < D.heads
    ensures var token := TokenKey(key, value, tripK, tripV, D.Query(b * D.heads + h), D.pg, D.smScale,
                                  KvHeadOf(D.heads, D.pg.kvHeads, h), first)(k);
            token.Some? && token.value.score == DenseScore(D, b, h, key, tripK, first)(k) &&
            token.value.value(j) == DenseValue(D, h, value, tripV, first, j)(k)
  {
    hide Dot, KvHeadOf;
    StoredRow(D, h, key, tripK, first, k, b);
    StoredRow(D, h, value, tripV, first, k, b);
  }

  lemma KeysOfHead(D: Decode, b: nat, h: nat)
    requires D.Valid() && h < D.heads
    ensures D.Keys(b * D.heads + h) == KeysAt(D.caches, D.Query(b * D.heads + h), D.pg.d, D.smScale,
                                              PagedBases(D.pg, b, KvHeadOf(D.heads, D.pg.kvHeads, h)))
  {
    hide KeysAt, PagedBases;
    DivUnique(b * D.heads + h, D.heads, b);
  }

  lemma StoredRow<T>(D: Decode, h: nat, source: (nat, nat) -> T, trip: T -> real, first: nat, k: nat, b: nat)
    requires D.Valid() && h < D.heads
    ensures var row := TokenRow(source, trip, D.pg, first + k, KvHeadOf(D.heads, D.pg.kvHeads, h));
            (forall i: nat :: row(i) == Stored(D, h, source, trip, first, k, i)) &&
            Dot(D.Query(b * D.heads + h), row, D.pg.d) ==
            Dot((i: nat) => D.query(b * D.heads + h, i), (i: nat) => Stored(D, h, source, trip, first, k, i), D.pg.d)
  {
    hide Dot, KvHeadOf;
    DotEqual(D.Query(b * D.heads + h), TokenRow(source, trip, D.pg, first + k, KvHeadOf(D.heads, D.pg.kvHeads, h)),
             (i: nat) => D.query(b * D.heads + h, i), (i: nat) => Stored(D, h, source, trip, first, k, i), D.pg.d);
  }

  /** After a scatter of the tokens of every sequence at the slots of its page-table row,
      decode attends, for each sequence and head, to the sequence's own token list: its
      positions in the window, keys and values as storing and reading leaves them. */
  lemma DecodeIsDense<T, C>(D: Decode, b: nat, h: nat, j: nat, slots: seq<int>, first: nat,
                            key: (nat, nat) -> T, value: (nat, nat) -> T,
                            encK: T -> C, decK: C -> real, encV: T -> C, decV: C -> real,
                            kBefore: seq<C>, vBefore: seq<C>, kCache: seq<C>, vCache: seq<C>)
    requires D.Valid() && LayoutOf(D.pg).Valid() && h < D.heads && j < D.pg.d
    requires KvHeadOf(D.heads, D.pg.kvHeads, h) < D.pg.kvHeads && first + D.seqLens(b) <= |slots|
    requires forall k: nat | k < D.seqLens(b) :: WrittenAt(D.pg, b, slots, first, k)
    requires D.caches == Caches(View(kCache, decK), View(vCache, decV))
    requires Fits(LayoutOf(D.pg), slots, |kCache|) && Fits(LayoutOf(D.pg), slots, |vCache|)
    requires Scattered(LayoutOf(D.pg), slots, key, encK, kBefore, kCache)
    requires Scattered(LayoutOf(D.pg), slots, value, encV, vBefore, vCache)
    ensures IsAttention(D.E, D.seqLens(b), InWindow(D, b), DenseScore(D, b, h, key, Trip(encK, decK), first),
                        DenseValue(D, h, value, Trip(encV, decV), first, j),
                        if D.sinks.Some? then Some(D.sinks.value(h)) else None, DecodeResult(D, b * D.heads + h, j))
  {
    hide IsAttention, DecodeScore, DecodeValue, DecodeResult, DenseScore, DenseValue, Scattered, Fits, Entry;
    DecodeMeaning(D, b, h, j);
    forall k: nat | k < D.seqLens(b)
      ensures Entry(D.pg, b, k) >= 0
      ensures DecodeScore(D, b, h)(k) == DenseScore(D, b, h, key, Trip(encK, decK), first)(k)
      ensures DecodeValue(D, b, h, j)(k) == DenseValue(D, h, value, Trip(encV, decV), first, j)(k)
    {
      DenseKey(D, b, h, slots, first, key, value, encK, decK, encV, decV, kBefore, vBefore, kCache, vCache, k, j);
    }
    SameAttention(D.E, D.seqLens(b), DecodeAdmits(D, b), DecodeScore(D, b, h), DecodeValue(D, b, h, j),
                  InWindow(D, b), DenseScore(D, b, h, key, Trip(encK, decK), first),
                  DenseValue(D, h, value, Trip(encV, decV), first, j),
                  if D.sinks.Some? then Some(D.sinks.value(h)) else None, DecodeResult(D, b * D.heads + h, j));
  }
}
