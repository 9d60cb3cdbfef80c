/** Writing tokens into the paged KV cache, reading them back, and attending to them. */
module PagedCache {
  import opened Division
  import opened RealSums
  import opened Softmax
  import opened PagedAttention

  /** row is the number of elements of one token, n_kv_heads * d. */
  datatype Layout = Layout(pageSize: nat, pageStride: nat, row: nat) {
    /** Pages do not overlap. */
    predicate Valid() {
      pageSize > 0 && pageStride >= pageSize * row
    }

    /** The page of a flat slot, and the token's place in it. */
    function Page(slot: nat): nat
      requires pageSize > 0
    {
      slot / pageSize
    }

    function Offset(slot: nat): nat
      requires pageSize > 0
    {
      slot % pageSize
    }

    /** Where element e of the token in flat slot `slot` lives. */
    function Addr(slot: nat, e: nat): nat
      requires pageSize > 0
    {
      Page(slot) * pageStride + Offset(slot) * row + e
    }
  }

  /** An element's place within its page is inside the page. */
  lemma InsidePage(pageSize: nat, row: nat, off: nat, e: nat)
    requires off < pageSize && e < row
    ensures off * row + e < pageSize * row
  {
    MulMono(off + 1, pageSize, row);
    MulMono(off, off, row);
  }

  lemma PlaceUnique(stride: nat, row: nat, page: nat, off: nat, e: nat, page': nat, off': nat, e': nat)
    requires off * row + e < stride && off' * row + e' < stride && e < row && e' < row
    requires page * stride + off * row + e == page' * stride + off' * row + e'
    ensures page == page' && off == off' && e == e'
  {
    var within, within' := off * row + e, off' * row + e';
    QuotientUnique(page * stride + within, stride, page, page');
    QuotientUnique(within, row, off, off');
  }

  /** An address names its page, and within the page a place below the stride that names
      offset and element. */
  lemma AddrParts(lay: Layout, slot: nat, e: nat)
    requires lay.Valid() && e < lay.row
    ensures var page, off := lay.Page(slot), lay.Offset(slot);
            && off < lay.pageSize && slot == page * lay.pageSize + off
            && off * lay.row + e < lay.pageStride
            && lay.Addr(slot, e) == page * lay.pageStride + off * lay.row + e
  {
    InsidePage(lay.pageSize, lay.row, slot % lay.pageSize, e);
  }

  /** Different (slot, element) pairs live at different addresses. */
  lemma AddrInjective(lay: Layout, slot: nat, e: nat, slot': nat, e': nat)
    requires lay.Valid() && e < lay.row && e' < lay.row
    requires lay.Addr(slot, e) == lay.Addr(slot', e')
    ensures slot == slot' && e == e'
  {
    AddrParts(lay, slot, e);
    AddrParts(lay, slot', e');
    hide Layout.Addr, Layout.Valid, Layout.Page, Layout.Offset;
    SamePlace(lay.pageSize, lay.pageStride, lay.row, slot, lay.Page(slot), lay.Offset(slot), e,
              slot', lay.Page(slot'), lay.Offset(slot'), e');
  }

  lemma SamePlace(size: nat, stride: nat, row: nat, slot: nat, page: nat, off: nat, e: nat,
                  slot': nat, page': nat, off': nat, e': nat)
    requires slot == page * size + off && slot' == page' * size + off'
    requires off * row + e < stride && off' * row + e' < stride && e < row && e' < row
    requires page * stride + off * row + e == page' * stride + off' * row + e'
    ensures slot == slot' && e == e'
  {
    PlaceUnique(stride, row, page, off, e, page', off', e');
  }

  /** Tokens with slots that are in use are kept apart. */
  predicate Distinct(slots: seq<int>) {
    forall t, u | 0 <= t < |slots| && 0 <= u < |slots| && slots[t] == slots[u] && slots[t] >= 0 :: t == u
  }

  /** Address a is the place of element e of token t. */
  predicate Lands(lay: Layout, slots: seq<int>, t: nat, e: nat, a: nat)
    requires lay.pageSize > 0
  {
    t < |slots| && slots[t] >= 0 && e < lay.row && lay.Addr(slots[t], e) == a
  }

  /** Every store of the launch is inside the cache. */
  ghost predicate Fits(lay: Layout, slots: seq<int>, length: nat)
    requires lay.pageSize > 0
  {
    forall t: nat, e: nat, a: nat | Lands(lay, slots, t, e, a) :: a < length
  }

  /** The cache after a scatter: each element of a token with a slot is stored encoded at
      its place, and every other cell is what it was. */
  ghost predicate Scattered<T, C>(lay: Layout, slots: seq<int>, source: (nat, nat) -> T, enc: T -> C,
                                  before: seq<C>, after: seq<C>)
    requires lay.pageSize > 0
  {
    && |after| == |before|
    && (forall t: nat, e: nat, a: nat | Lands(lay, slots, t, e, a) && a < |after| :: after[a] == enc(source(t, e)))
    && (forall a: nat | a < |after| && (forall t: nat, e: nat :: !Lands(lay, slots, t, e, a)) :: after[a] == before[a])
  }

  /** The scatter kernel, one work-item per (token, element), in any order. Keys and values
      have encoders of their own, because an fp8 cache scales them differently. */
  method ScatterLaunch<T, C>(lay: Layout, slots: seq<int>, key: (nat, nat) -> T, value: (nat, nat) -> T,
                             encK: T -> C, encV: T -> C, kCache: array<C>, vCache: array<C>, order: seq<(nat, nat)>)
    requires lay.Valid() && Distinct(slots) && kCache != vCache
    requires Fits(lay, slots, kCache.Length) && Fits(lay, slots, vCache.Length)
    requires forall t: nat, e: nat | t < |slots| && e < lay.row :: (t, e) in order
    modifies kCache, vCache
    ensures Scattered(lay, slots, key, encK, old(kCache[..]), kCache[..])
    ensures Scattered(lay, slots, value, encV, old(vCache[..]), vCache[..])
  {
    hide Layout.Addr;
    for i := 0 to |order|
      invariant Done(lay, slots, order[..i], key, encK, old(kCache[..]), kCache[..])
      invariant Done(lay, slots, order[..i], value, encV, old(vCache[..]), vCache[..])
    {
      var (t, e) := order[i];
      assert order[..i + 1] == order[..i] + [(t, e)];
      if t < |slots| && e < lay.row && slots[t] >= 0 {
        var dst := lay.Addr(slots[t], e);
        assert Lands(lay, slots, t, e, dst);
        StoreKeeps(lay, slots, order[..i], key, encK, old(kCache[..]), kCache[..], t, e);
        StoreKeeps(lay, slots, order[..i], value, encV, old(vCache[..]), vCache[..], t, e);
        ghost var k0, v0 := kCache[..], vCache[..];
        kCache[dst] := encK(key(t, e));
        vCache[dst] := encV(value(t, e));
        assert kCache[..] == k0[dst := encK(key(t, e))] && vCache[..] == v0[dst := encV(value(t, e))];
      }
    }
    assert order[..|order|] == order;
  }

  /** What the work-items in `done` have stored. */
  ghost predicate Done<T, C>(lay: Layout, slots: seq<int>, done: seq<(nat, nat)>, source: (nat, nat) -> T, enc: T -> C,
                             before: seq<C>, after: seq<C>)
    requires lay.pageSize > 0
  {
    && |after| == |before|
    && (forall t: nat, e: nat, a: nat | (t, e) in done && Lands(lay, slots, t, e, a) && a < |after| ::
          after[a] == enc(source(t, e)))
    && (forall a: nat | a < |after| && (forall t: nat, e: nat :: !Lands(lay, slots, t, e, a)) :: after[a] == before[a])
  }

  lemma StoreKeeps<T, C>(lay: Layout, slots: seq<int>, done: seq<(nat, nat)>, source: (nat, nat) -> T, enc: T -> C,
                         before: seq<C>, after: seq<C>, t: nat, e: nat)
    requires lay.Valid() && Distinct(slots) && Done(lay, slots, done, source, enc, before, after)
    requires t < |slots| && e < lay.row && slots[t] >= 0 && lay.Addr(slots[t], e) < |after|
    ensures Done(lay, slots, done + [(t, e)], source, enc, before, after[lay.Addr(slots[t], e) := enc(source(t, e))])
  {
    var dst := lay.Addr(slots[t], e);
    hide Layout.Addr;
    assert Lands(lay, slots, t, e, dst);
    var after' := after[dst := enc(source(t, e))];
    forall u: nat, f: nat, a: nat | (u, f) in done + [(t, e)] && Lands(lay, slots, u, f, a) && a < |after'|
      ensures after'[a] == enc(source(u, f))
    {
      if a == dst {
        AddrInjective(lay, slots[u], f, slots[t], e);
      }
    }
  }

  /** The gather kernel: a negative slot reads as zero. */
  method GatherLaunch<T, C>(lay: Layout, slots: seq<int>, cache: seq<C>, dec: C -> T, zero: T, out: array2<T>,
                            order: seq<(nat, nat)>)
    requires lay.Valid() && Fits(lay, slots, |cache|) && out.Length0 == |slots| && out.Length1 == lay.row
    requires forall t: nat, e: nat | t < |slots| && e < lay.row :: (t, e) in order
    modifies out
    ensures forall t: nat, e: nat | t < |slots| && e < lay.row && slots[t] < 0 :: out[t, e] == zero
    ensures forall t: nat, e: nat, a: nat | t < |slots| && Lands(lay, slots, t, e, a) && a < |cache| :: out[t, e] == dec(cache[a])
  {
    hide Layout.Addr;
    for i := 0 to |order|
      invariant forall t: nat, e: nat | t < |slots| && e < lay.row && slots[t] < 0 && (t, e) in order[..i] :: out[t, e] == zero
      invariant forall t: nat, e: nat, a: nat | t < |slots| && Lands(lay, slots, t, e, a) && a < |cache| && (t, e) in order[..i] ::
                  out[t, e] == dec(cache[a])
    {
      var (t, e) := order[i];
      assert order[..i + 1] == order[..i] + [(t, e)];
      if t < |slots| && e < lay.row {
        if slots[t] < 0 {
          out[t, e] := zero;
        } else {
          assert Lands(lay, slots, t, e, lay.Addr(slots[t], e));
          out[t, e] := dec(cache[lay.Addr(slots[t], e)]);
        }
      }
    }
    assert order[..|order|] == order;
  }

  /** Scatter, then gather through any slots: a token's slot gives the token back, as
      decode after encode leaves it. */
  method ScatterGather<T, C>(lay: Layout, slots: seq<int>, key: (nat, nat) -> T, value: (nat, nat) -> T,
                             encK: T -> C, decK: C -> T, encV: T -> C, decV: C -> T, zero: T,
                             kCache: array<C>, vCache: array<C>,
                             readSlots: seq<int>, kOut: array2<T>, vOut: array2<T>,
                             order: seq<(nat, nat)>, readOrder: seq<(nat, nat)>)
    requires lay.Valid() && Distinct(slots) && kCache != vCache && kOut != vOut
    requires Fits(lay, slots, kCache.Length) && Fits(lay, slots, vCache.Length)
    requires Fits(lay, readSlots, kCache.Length) && Fits(lay, readSlots, vCache.Length)
    requires kOut.Length0 == vOut.Length0 == |readSlots| && kOut.Length1 == vOut.Length1 == lay.row
    requires forall t: nat, e: nat | t < |slots| && e < lay.row :: (t, e) in order
    requires forall t: nat, e: nat | t < |readSlots| && e < lay.row :: (t, e) in readOrder
    modifies kCache, vCache, kOut, vOut
    ensures forall u: nat, t: nat, e: nat | u < |readSlots| && t < |slots| && e < lay.row && readSlots[u] == slots[t] >= 0 ::
              kOut[u, e] == decK(encK(key(t, e))) && vOut[u, e] == decV(encV(value(t, e)))
  {
    ScatterLaunch(lay, slots, key, value, encK, encV, kCache, vCache, order);
    GatherLaunch(lay, readSlots, kCache[..], decK, zero, kOut, readOrder);
    GatherLaunch(lay, readSlots, vCache[..], decV, zero, vOut, readOrder);
    hide Layout.Addr;
    forall u: nat, t: nat, e: nat | u < |readSlots| && t < |slots| && e < lay.row && readSlots[u] == slots[t] >= 0
      ensures kOut[u, e] == decK(encK(key(t, e))) && vOut[u, e] == decV(encV(value(t, e)))
    {
      var a := lay.Addr(slots[t], e);
      assert Lands(lay, slots, t, e, a) && Lands(lay, readSlots, u, e, a);
    }
  }

  // ---------- attention over a scattered sequence ----------

  /** The decoded view that the attention kernels take of a stored cache. */
  function View<C>(cache: seq<C>, dec: C -> real): nat -> real {
    (a: nat) => if a < |cache| then dec(cache[a]) else 0.0
  }

  function LayoutOf(pg: Paging): Layout {
    Layout(pg.pageSize, pg.pageStride, pg.kvHeads * pg.d)
  }

  /** Component j of kv head kvh within a token's row. */
  function Element(pg: Paging, kvh: nat, j: nat): nat {
    kvh * pg.d + j
  }

  /** The attention kernels' address of component j of a key is the writer's address of
      the same element. */
  lemma AddressesAgree(pg: Paging, b: nat, k: nat, kvh: nat, j: nat)
    requires pg.Valid() && pg.blockTable(b * pg.maxPages + k / pg.pageSize) >= 0 && kvh < pg.kvHeads && j < pg.d
    ensures var page := pg.blockTable(b * pg.maxPages + k / pg.pageSize);
            pg.PageAt(b, k) == page && Element(pg, kvh, j) < LayoutOf(pg).row && page * pg.pageSize + k % pg.pageSize >= 0 &&
            LayoutOf(pg).Addr(page * pg.pageSize + k % pg.pageSize, Element(pg, kvh, j)) == pg.Base(page, k, kvh) + j
  {
    var page, off := pg.PageAt(b, k), k % pg.pageSize;
    MulMono(kvh + 1, pg.kvHeads, pg.d);
    MulMono(kvh, kvh, pg.d);
    MulMono(0, page, pg.pageSize);
    DivUnique(page * pg.pageSize + off, pg.pageSize, page);
    assert (off * pg.kvHeads + kvh) * pg.d == off * (pg.kvHeads * pg.d) + kvh * pg.d;
  }

  /** What an element is after being stored and read. */
  function Trip<T, C>(enc: T -> C, dec: C -> real): T -> real {
    (x: T) => dec(enc(x))
  }

  /** The vector of token k for one head. */
  function TokenRow<T>(source: (nat, nat) -> T, trip: T -> real, pg: Paging, k: nat, kvh: nat): nat -> real {
    (j: nat) => trip(source(k, Element(pg, kvh, j)))
  }

  /** Position k of the plain token list that starts at token `first`, as query q sees it. */
  function TokenKey<T>(key: (nat, nat) -> T, value: (nat, nat) -> T, tripK: T -> real, tripV: T -> real,
                       q: nat -> real, pg: Paging, smScale: real, kvh: nat, first: nat): nat -> Option<Key>
  {
    (k: nat) => Some(Key(Dot(q, TokenRow(key, tripK, pg, first + k, kvh), pg.d) * smScale, TokenRow(value, tripV, pg, first + k, kvh)))
  }

  /** Keys that agree in score and in channel j attend alike in channel j. */
  ghost predicate Alike(a: seq<Key>, b: seq<Key>, j: nat) {
    |a| == |b| && forall i | 0 <= i < |a| :: a[i].score == b[i].score && a[i].value(j) == b[i].value(j)
  }

  lemma {:induction false} AlikeSums(E: ExpLog, a: seq<Key>, b: seq<Key>, shift: real, j: nat)
    requires Alike(a, b, j)
    ensures ShiftedDen(E, a, shift) == ShiftedDen(E, b, shift) && ShiftedNum(E, a, shift, j) == ShiftedNum(E, b, shift, j)
    ensures MaxScore(a) == MaxScore(b)
  {
    if |a| > 0 {
      AlikeSums(E, a[..|a| - 1], b[..|b| - 1], shift, j);
    }
  }

  lemma {:induction false} KeptAlike(source: nat -> Option<Key>, other: nat -> Option<Key>, lo: nat, hi: nat, j: nat)
    requires forall k: nat | lo <= k < hi ::
               source(k).Some? && other(k).Some? && source(k).value.score == other(k).value.score
               && source(k).value.value(j) == other(k).value.value(j)
    ensures Alike(Kept(source, lo, hi), Kept(other, lo, hi), j)
  {
    if lo < hi {
      KeptAlike(source, other, lo, hi - 1, j);
    }
  }

  /** Position k of sequence b, token first + k of the launch, was written at the slot
      that the sequence's page-table row names. */
  predicate WrittenAt(pg: Paging, b: nat, slots: seq<int>, first: nat, k: nat)
    requires pg.Valid() && first + k < |slots|
  {
    pg.blockTable(b * pg.maxPages + k / pg.pageSize) >= 0 &&
    slots[first + k] == pg.blockTable(b * pg.maxPages + k / pg.pageSize) * pg.pageSize + k % pg.pageSize
  }

  /** A token as a key, taken apart. */
  lemma TokenKeyIs<T>(key: (nat, nat) -> T, value: (nat, nat) -> T, tripK: T -> real, tripV: T -> real,
                      q: nat -> real, pg: Paging, smScale: real, kvh: nat, first: nat, k: nat, j: nat)
    ensures var token := TokenKey(key, value, tripK, tripV, q, pg, smScale, kvh, first)(k);
            token.Some? && token.value.score == Dot(q, TokenRow(key, tripK, pg, first + k, kvh), pg.d) * smScale &&
            token.value.value(j) == TokenRow(value, tripV, pg, first + k, kvh)(j)
  {
    hide Dot, TokenRow;
  }

  /** A cached key, taken apart. */
  lemma KeysAtIs(caches: Caches, q: nat -> real, smScale: real, pg: Paging, b: nat, kvh: nat, k: nat, base: nat, j: nat)
    requires pg.Valid() && pg.PageAt(b, k) >= 0 && base == pg.Base(pg.PageAt(b, k), k, kvh)
    ensures var cached := KeysAt(caches, q, pg.d, smScale, PagedBases(pg, b, kvh))(k);
            cached.Some? && cached.value.score == Dot(q, At(caches.k, base), pg.d) * smScale &&
            cached.value.value(j) == At(caches.v, base)(j)
  {
    hide Dot, At, Paging.Base, Paging.PageAt;
    assert PagedBases(pg, b, kvh)(k) == Some(base);
  }

  /** The cells at a key's place hold its token's elements. */
  lemma CachedElement<T, C>(pg: Paging, b: nat, kvh: nat, slots: seq<int>, source: (nat, nat) -> T, enc: T -> C, dec: C -> real,
                            before: seq<C>, cache: seq<C>, first: nat, k: nat, i: nat)
    requires pg.Valid() && LayoutOf(pg).Valid() && kvh < pg.kvHeads && first + k < |slots| && i < pg.d
    requires WrittenAt(pg, b, slots, first, k) && Fits(LayoutOf(pg), slots, |cache|)
    requires Scattered(LayoutOf(pg), slots, source, enc, before, cache)
    ensures pg.PageAt(b, k) >= 0
    ensures At(View(cache, dec), pg.Base(pg.PageAt(b, k), k, kvh))(i) == TokenRow(source, Trip(enc, dec), pg, first + k, kvh)(i)
  {
    hide Paging.Base, Layout.Addr, Paging.PageAt, Element, LayoutOf;
    AddressesAgree(pg, b, k, kvh, i);
    assert Lands(LayoutOf(pg), slots, first + k, Element(pg, kvh, i), pg.Base(pg.PageAt(b, k), k, kvh) + i);
  }

  /** A cached key is the token that was scattered there. */
  lemma CachedKey<T, C>(pg: Paging, b: nat, kvh: nat, slots: seq<int>, key: (nat, nat) -> T, value: (nat, nat) -> T,
                        encK: T -> C, decK: C -> real, encV: T -> C, decV: C -> real,
                        kBefore: seq<C>, vBefore: seq<C>, kCache: seq<C>, vCache: seq<C>,
                        q: nat -> real, smScale: real, first: nat, k: nat, j: nat)
    requires pg.Valid() && LayoutOf(pg).Valid() && kvh < pg.kvHeads && first + k < |slots| && j < pg.d
    requires WrittenAt(pg, b, slots, first, k)
    requires Fits(LayoutOf(pg), slots, |kCache|) && Fits(LayoutOf(pg), slots, |vCache|)
    requires Scattered(LayoutOf(pg), slots, key, encK, kBefore, kCache)
    requires Scattered(LayoutOf(pg), slots, value, encV, vBefore, vCache)
    ensures var cached := KeysAt(Caches(View(kCache, decK), View(vCache, decV)), q, pg.d, smScale, PagedBases(pg, b, kvh))(k);
            var token := TokenKey(key, value, Trip(encK, decK), Trip(encV, decV), q, pg, smScale, kvh, first)(k);
            && cached.Some? && token.Some? && cached.value.score == token.value.score
            && cached.value.value(j) == token.value.value(j)
  {
    hide Paging.Base, Paging.PageAt, Dot, At, View, TokenRow, TokenKey, KeysAt, Scattered, Fits, WrittenAt, LayoutOf;
    CachedElement(pg, b, kvh, slots, value, encV, decV, vBefore, vCache, first, k, j);
    var base := pg.Base(pg.PageAt(b, k), k, kvh);
    forall i: nat | i < pg.d
      ensures At(View(kCache, decK), base)(i) == TokenRow(key, Trip(encK, decK), pg, first + k, kvh)(i)
    {
      CachedElement(pg, b, kvh, slots, key, encK, decK, kBefore, kCache, first, k, i);
    }
    DotEqual(q, At(View(kCache, decK), base), q, TokenRow(key, Trip(encK, decK), pg, first + k, kvh), pg.d);
    KeysAtIs(Caches(View(kCache, decK), View(vCache, decV)), q, smScale, pg, b, kvh, k, base, j);
    TokenKeyIs(key, value, Trip(encK, decK), Trip(encV, decV), q, pg, smScale, kvh, first, k, j);
  }

  /** The paged cache agrees with a dense one: after scattering the tokens of a sequence,
      from token `first` on, at the slots its page-table row names, attention through the
      page table is attention over the plain token list, in every head, over every range
      of positions. */
  lemma PagedIsDense<T, C>(E: ExpLog, pg: Paging, b: nat, kvh: nat, slots: seq<int>, key: (nat, nat) -> T,
                           value: (nat, nat) -> T, encK: T -> C, decK: C -> real, encV: T -> C, decV: C -> real,
                           kBefore: seq<C>, vBefore: seq<C>, kCache: seq<C>, vCache: seq<C>,
                           q: nat -> real, smScale: real, sink: Option<real>, first: nat, lo: nat, hi: nat, j: nat)
    requires pg.Valid() && LayoutOf(pg).Valid() && kvh < pg.kvHeads && first + hi <= |slots| && j < pg.d
    requires forall k: nat | k < hi :: WrittenAt(pg, b, slots, first, k)
    requires Fits(LayoutOf(pg), slots, |kCache|) && Fits(LayoutOf(pg), slots, |vCache|)
    requires Scattered(LayoutOf(pg), slots, key, encK, kBefore, kCache)
    requires Scattered(LayoutOf(pg), slots, value, encV, vBefore, vCache)
    ensures TwoPass(E, Kept(KeysAt(Caches(View(kCache, decK), View(vCache, decV)), q, pg.d, smScale, PagedBases(pg, b, kvh)), lo, hi), sink, j)
         == TwoPass(E, Kept(TokenKey(key, value, Trip(encK, decK), Trip(encV, decV), q, pg, smScale, kvh, first), lo, hi), sink, j)
  {
    hide KeysAt, TokenKey, Kept, ShiftedDen, ShiftedNum, MaxScore, Layout.Addr;
    var cached := KeysAt(Caches(View(kCache, decK), View(vCache, decV)), q, pg.d, smScale, PagedBases(pg, b, kvh));
    var token := TokenKey(key, value, Trip(encK, decK), Trip(encV, decV), q, pg, smScale, kvh, first);
    forall k: nat | lo <= k < hi
      ensures cached(k).Some? && token(k).Some? && cached(k).value.score == token(k).value.score
              && cached(k).value.value(j) == token(k).value.value(j)
    {
      CachedKey(pg, b, kvh, slots, key, value, encK, decK, encV, decV, kBefore, vBefore, kCache, vCache, q, smScale, first, k, j);
    }
    KeptAlike(cached, token, lo, hi, j);
    var a, t := Kept(cached, lo, hi), Kept(token, lo, hi);
    AlikeSums(E, a, t, 0.0, j);
    if MaxScore(a).Fin? {
      AlikeSums(E, a, t, MaxScore(a).v, j);
    }
  }
}
