/** Permute, grouped GEMM and weighted unpermute put together: the race of the
    scatter and the order of the work-groups do not show in the result. */
module MoePipeline {
  import opened Division
  import opened RealSums
  import opened MoeRouting
  import opened MoePermute
  import G = GroupedGemm

  // ---------- unpermute ----------

  /** The summand of token t's j-th choice in channel i: weight times the row that
      row_map names, nothing for a pair without a row. */
  function Mapped(topK: nat, rowMap: seq<int>, rows: (nat, nat) -> real, weights: nat -> real, t: nat, i: nat): nat -> real {
    (j: nat) =>
      if t * topK + j < |rowMap| && rowMap[t * topK + j] >= 0
      then weights(t * topK + j) * rows(rowMap[t * topK + j], i) else 0.0
  }

  lemma PairInRange(r: Routing, t: nat, j: nat)
    requires r.Shaped() && t < r.nTokens && j < r.topK
    ensures r.Pair(t, j) < |r.ids| && r.Token(r.Pair(t, j)) == t
  {
    MulMono(t + 1, r.nTokens, r.topK);
    MulMono(t, t, r.topK);
    DivUnique(t * r.topK + j, r.topK, t);
  }

  /** Work-item (t, i) of the unpermute kernel. */
  method UnpermuteOne(r: Routing, rows: (nat, nat) -> real, rowMap: seq<int>, weights: nat -> real, t: nat, i: nat)
    returns (acc: real)
    requires r.Shaped() && |rowMap| == |r.ids| && t < r.nTokens
    ensures acc == Sum(Mapped(r.topK, rowMap, rows, weights, t, i), r.topK)
  {
    acc := 0.0;
    for j := 0 to r.topK
      invariant acc == Sum(Mapped(r.topK, rowMap, rows, weights, t, i), j)
    {
      PairInRange(r, t, j);
      var row := rowMap[t * r.topK + j];
      if row >= 0 {
        acc := acc + weights(t * r.topK + j) * rows(row, i);
      }
    }
  }

  /** The unpermute kernel: one work-item per (token, channel), in any order. Each output
      is the sum over the token's choices of weight times row, over the pairs that have a
      row. */
  method Unpermute(r: Routing, rows: (nat, nat) -> real, rowMap: seq<int>, weights: nat -> real, channels: nat,
                   out: array2<real>, order: seq<(nat, nat)>)
    requires r.Shaped() && |rowMap| == |r.ids| && out.Length0 == r.nTokens && out.Length1 == channels
    requires forall t: nat, i: nat | t < r.nTokens && i < channels :: (t, i) in order
    modifies out
    ensures forall t: nat, i: nat | t < r.nTokens && i < channels ::
              out[t, i] == Sum((j: nat) =>
                if t * r.topK + j < |rowMap| && rowMap[t * r.topK + j] >= 0
                then weights(t * r.topK + j) * rows(rowMap[t * r.topK + j], i) else 0.0, r.topK)
  {
    hide Sum;
    for k := 0 to |order|
      invariant forall t: nat, i: nat | t < r.nTokens && i < channels && (t, i) in order[..k] ::
                  out[t, i] == Sum(Mapped(r.topK, rowMap, rows, weights, t, i), r.topK)
    {
      var (t, i) := order[k];
      assert order[..k + 1] == order[..k] + [order[k]];
      if t < r.nTokens && i < channels {
        var acc := UnpermuteOne(r, rows, rowMap, weights, t, i);
        out[t, i] := acc;
      }
    }
    assert order[..|order|] == order;
  }

  // ---------- end to end ----------

  /** The expert's output for the pair's token: its hidden row times the expert's weights. */
  function ExpertValue(r: Routing, hidden: (nat, nat) -> real, weight: (nat, nat, nat) -> real, scale: nat -> real,
                       depth: nat, n: nat): nat -> real
  {
    (p: nat) =>
      if r.Routed(p)
      then Dot((k: nat) => hidden(r.Token(p), k), (k: nat) => weight(r.ids[p], n, k), depth) * scale(r.ids[p])
      else 0.0
  }

  /** Reading a pair's product back through row_map gives its own expert's output for
      its own token, wherever the race put it. */
  lemma RowMapReadsBack(r: Routing, hidden: (nat, nat) -> real, op: G.Operands, rowMap: seq<int>, permuted: array2<real>,
                        product: (nat, nat) -> real, p: nat, n: nat)
    requires |rowMap| == |r.ids| && Permuted(r, op.depth, hidden, rowMap, permuted)
    requires forall s: nat, k: nat | s < permuted.Length0 && k < op.depth :: op.act(s, k) == permuted[s, k]
    requires forall s: nat | s < Prefix(r.Counts(), r.nExperts) ::
               product(s, n) == op.Product(SegmentOf(r.Counts(), r.nExperts, s), s, n)
    requires p < |r.ids| && r.Routed(p)
    ensures rowMap[p] >= 0 && product(rowMap[p], n) == ExpertValue(r, hidden, op.weight, op.scale, op.depth, n)(p)
  {
    var rows := r.Counts();
    var s: nat := rowMap[p];
    var e: nat := r.ids[p];
    SegmentsInRange(rows, e, s);
    SegmentUnique(rows, SegmentOf(rows, r.nExperts, s), e, s);
    DotEqual(op.Row(s), op.Col(e, n), (k: nat) => hidden(r.Token(p), k), (k: nat) => op.weight(r.ids[p], n, k), op.depth);
  }

  lemma SkipsAgree(r: Routing, hidden: (nat, nat) -> real, depth: nat, rowMap: seq<int>, permuted: array2<real>, p: nat)
    requires |rowMap| == |r.ids| && Permuted(r, depth, hidden, rowMap, permuted) && p < |r.ids|
    ensures rowMap[p] < 0 <==> !r.Routed(p)
  {
  }

  /** The summand of the mixture-of-experts layer for token t's j-th choice in channel n:
      the choice's weight times its expert's output for the token's own hidden row, and
      nothing for an id outside the experts. */
  function Choice(r: Routing, hidden: (nat, nat) -> real, weight: (nat, nat, nat) -> real, scale: nat -> real,
                  weights: nat -> real, depth: nat, t: nat, n: nat): nat -> real
  {
    (j: nat) =>
      if t * r.topK + j < |r.ids| && 0 <= r.ids[t * r.topK + j] < r.nExperts then
        weights(t * r.topK + j) *
        (Dot((k: nat) => hidden(t, k), (k: nat) => weight(r.ids[t * r.topK + j], n, k), depth) * scale(r.ids[t * r.topK + j]))
      else 0.0
  }

  lemma ChoiceMapped(r: Routing, hidden: (nat, nat) -> real, op: G.Operands, rowMap: seq<int>, permuted: array2<real>,
                     weights: nat -> real, product: (nat, nat) -> real, t: nat, n: nat, j: nat)
    requires r.Shaped() && t < r.nTokens && j < r.topK
    requires |rowMap| == |r.ids| && Permuted(r, op.depth, hidden, rowMap, permuted)
    requires forall s: nat, k: nat | s < permuted.Length0 && k < op.depth :: op.act(s, k) == permuted[s, k]
    requires forall s: nat | s < Prefix(r.Counts(), r.nExperts) ::
               product(s, n) == op.Product(SegmentOf(r.Counts(), r.nExperts, s), s, n)
    ensures Mapped(r.topK, rowMap, product, weights, t, n)(j) ==
            Choice(r, hidden, op.weight, op.scale, weights, op.depth, t, n)(j)
  {
    hide Dot, Permuted, Prefix, SegmentOf, Routing.Counts, Routing.Token;
    PairInRange(r, t, j);
    var p := t * r.topK + j;
    SkipsAgree(r, hidden, op.depth, rowMap, permuted, p);
    if r.Routed(p) {
      RowMapReadsBack(r, hidden, op, rowMap, permuted, product, p, n);
      DotEqual((k: nat) => hidden(r.Token(p), k), (k: nat) => op.weight(r.ids[p], n, k),
               (k: nat) => hidden(t, k), (k: nat) => op.weight(r.ids[p], n, k), op.depth);
    }
  }

  lemma PipelineMeaning(r: Routing, hidden: (nat, nat) -> real, op: G.Operands, rowMap: seq<int>, permuted: array2<real>,
                        weights: nat -> real, product: (nat, nat) -> real, t: nat, n: nat)
    requires r.Shaped() && t < r.nTokens
    requires |rowMap| == |r.ids| && Permuted(r, op.depth, hidden, rowMap, permuted)
    requires forall s: nat, k: nat | s < permuted.Length0 && k < op.depth :: op.act(s, k) == permuted[s, k]
    requires forall s: nat | s < Prefix(r.Counts(), r.nExperts) ::
               product(s, n) == op.Product(SegmentOf(r.Counts(), r.nExperts, s), s, n)
    ensures Sum(Mapped(r.topK, rowMap, product, weights, t, n), r.topK) ==
            Sum(Choice(r, hidden, op.weight, op.scale, weights, op.depth, t, n), r.topK)
  {
    hide Sum, Mapped, Choice, Permuted;
    forall j: nat | j < r.topK
      ensures Mapped(r.topK, rowMap, product, weights, t, n)(j) ==
              Choice(r, hidden, op.weight, op.scale, weights, op.depth, t, n)(j)
    {
      ChoiceMapped(r, hidden, op, rowMap, permuted, weights, product, t, n, j);
    }
    SumEqual(Mapped(r.topK, rowMap, product, weights, t, n), Choice(r, hidden, op.weight, op.scale, weights, op.depth, t, n), r.topK);
  }

  /** The contents of a matrix as a value. */
  function Contents(m: array2<real>): (f: (nat, nat) -> real)
    reads m
    ensures forall s: nat, k: nat | s < m.Length0 && k < m.Length1 :: f(s, k) == m[s, k]
  {
    var rows := seq(m.Length0, s requires 0 <= s < m.Length0 reads m =>
      seq(m.Length1, k requires 0 <= s < m.Length0 && 0 <= k < m.Length1 reads m => m[s, k]));
    (s: nat, k: nat) => if s < |rows| && k < |rows[s]| then rows[s][k] else 0.0
  }

  /** The whole layer on the device: for every interleaving of the counting and the
      scatter work-items and every order of the GEMM and unpermute work-groups, out[t, n]
      is the sum over token t's choices of the choice's weight times the inner product of
      the token's hidden row with row n of the chosen expert's weights, times its scale. */
  method MoeForward(r: Routing, hidden: (nat, nat) -> real, weight: (nat, nat, nat) -> real, scale: nat -> real,
                    weights: nat -> real, depth: nat, channels: nat, out: array2<real>,
                    countSchedule: seq<nat>, scatterSchedule: seq<nat>,
                    tileOrder: seq<(nat, nat)>, outOrder: seq<(nat, nat)>)
    requires r.Shaped() && depth % G.TK == 0 && out.Length0 == r.nTokens && out.Length1 == channels
    requires forall p: nat | p < |r.ids| :: p in countSchedule
    requires Completes(r, depth, scatterSchedule)
    requires forall mt: nat, nt: nat | mt < G.GridTiles(|r.ids|, r.nExperts) && nt < G.GridCols(channels) :: (mt, nt) in tileOrder
    requires forall t: nat, i: nat | t < r.nTokens && i < channels :: (t, i) in outOrder
    modifies out
    ensures forall t: nat, n: nat | t < r.nTokens && n < channels ::
              out[t, n] == Sum((j: nat) =>
                if t * r.topK + j < |r.ids| && 0 <= r.ids[t * r.topK + j] < r.nExperts then
                  weights(t * r.topK + j) *
                  (Dot((k: nat) => hidden(t, k), (k: nat) => weight(r.ids[t * r.topK + j], n, k), depth) *
                   scale(r.ids[t * r.topK + j]))
                else 0.0, r.topK)
  {
    var rowsPerExpert := new nat[r.nExperts](_ => 0);
    var cursors := new nat[r.nExperts](_ => 0);
    var rowMap := new int[|r.ids|](_ => 0);
    var permuted := new real[|r.ids|, depth]((_, _) => 0.0);
    var product := new real[|r.ids|, channels]((_, _) => 0.0);
    CountRows(r, rowsPerExpert, countSchedule);
    Scan(rowsPerExpert, cursors);
    RoutedFit(r);
    Scatter(r, depth, hidden, cursors, rowMap, permuted, scatterSchedule);
    var op := G.Operands(Contents(permuted), weight, scale, depth, channels);
    G.Launch(r.Counts(), op, |r.ids|, product, tileOrder);
    Unpermute(r, Contents(product), rowMap[..], weights, channels, out, outOrder);
    forall t: nat, n: nat | t < r.nTokens && n < channels
      ensures out[t, n] == Sum(Choice(r, hidden, weight, scale, weights, depth, t, n), r.topK)
    {
      PipelineMeaning(r, hidden, op, rowMap[..], permuted, weights, Contents(product), t, n);
    }
  }

  /** Routed pairs never outnumber the pairs. */
  lemma RoutedFit(r: Routing)
    ensures Prefix(r.Counts(), r.nExperts) <= |r.ids|
  {
    PrefixOfCounts(r, r.nExperts, |r.ids|);
  }

  function CountFirst(r: Routing, e: nat, n: nat): nat
    requires n <= |r.ids|
  {
    if n == 0 then 0 else CountFirst(r, e, n - 1) + if 0 <= r.ids[n - 1] < e then 1 else 0
  }

  lemma {:induction false} CountFirstStep(r: Routing, e: nat, n: nat)
    requires n <= |r.ids|
    ensures CountFirst(r, e + 1, n) == CountFirst(r, e, n) + r.CountBelow(e, n)
    ensures CountFirst(r, 0, n) == 0 && CountFirst(r, e, n) <= n
  {
    if n > 0 {
      CountFirstStep(r, e, n - 1);
    }
  }

  lemma {:induction false} PrefixOfCounts(r: Routing, e: nat, n: nat)
    requires e <= r.nExperts && n == |r.ids|
    ensures Prefix(r.Counts(), e) == CountFirst(r, e, n) && CountFirst(r, e, n) <= n
  {
    CountFirstStep(r, e, n);
    if e > 0 {
      PrefixOfCounts(r, e - 1, n);
      CountFirstStep(r, e - 1, n);
    }
  }
}
