/** Cutting every sequence of a batch at points of its own and repacking the parts. */
module BatchCuts {
  import opened Division
  import opened Softmax
  import opened Vectors
  import opened DeltaRule
  import opened GatedDelta
  import opened DeltaPieces

  // ---------- packing rows of parts ----------

  /** Of each sequence s the tokens from[s] .. to[s] - 1, counted within the sequence. */
  predicate Part(cu: seq<nat>, from: seq<nat>, to: seq<nat>) {
    |from| == |to| && |cu| == |from| + 1 &&
    forall s {:trigger from[s]} {:trigger to[s]} | 0 <= s < |from| :: from[s] <= to[s] && cu[s] + to[s] <= cu[s + 1]
  }

  /** Where part s starts in the packed batch. */
  function PackedStart(from: seq<nat>, to: seq<nat>, s: nat): nat
    requires s <= |from| == |to| && forall i | 0 <= i < |from| :: from[i] <= to[i]
  {
    if s == 0 then 0 else PackedStart(from, to, s - 1) + (to[s - 1] - from[s - 1])
  }

  lemma {:induction false} PackedStartGrows(from: seq<nat>, to: seq<nat>, s: nat, u: nat)
    requires s <= u <= |from| == |to| && forall i | 0 <= i < |from| :: from[i] <= to[i]
    ensures PackedStart(from, to, s) <= PackedStart(from, to, u)
  {
    if s < u {
      PackedStartGrows(from, to, s, u - 1);
    }
  }

  /** x holds `stride` elements for each token of cu. */
  predicate Holds(x: seq<real>, cu: seq<nat>, stride: nat) {
    |cu| > 0 && (forall i, j | 0 <= i <= j < |cu| :: cu[i] <= cu[j]) && Index(cu[|cu| - 1], 0, stride) <= |x|
  }

  /** The elements of tokens cu[s] + from[s] .. cu[s] + to[s] - 1. */
  function Slice(x: seq<real>, cu: seq<nat>, from: seq<nat>, to: seq<nat>, stride: nat, s: nat): (r: seq<real>)
    requires Part(cu, from, to) && Holds(x, cu, stride) && s < |from|
    ensures |r| == Index(to[s] - from[s], 0, stride)
    ensures Index(cu[s] + from[s], 0, stride) + |r| <= |x|
    ensures forall e | 0 <= e < |r| :: r[e] == x[Index(cu[s] + from[s], 0, stride) + e]
  {
    SliceInside(cu, from, to, s);
    MulMono(cu[s] + to[s], cu[|cu| - 1], stride);
    MulMono(cu[s] + from[s], cu[s] + to[s], stride);
    assert Index(cu[s] + to[s], 0, stride) == Index(cu[s] + from[s], 0, stride) + Index(to[s] - from[s], 0, stride);
    x[Index(cu[s] + from[s], 0, stride)..Index(cu[s] + to[s], 0, stride)]
  }

  lemma SliceInside(cu: seq<nat>, from: seq<nat>, to: seq<nat>, s: nat)
    requires Part(cu, from, to) && s < |from| && forall i, j | 0 <= i <= j < |cu| :: cu[i] <= cu[j]
    ensures cu[s] + to[s] <= cu[|cu| - 1] && from[s] <= to[s]
  {
    assert cu[s + 1] <= cu[|cu| - 1];
  }

  function Packed(x: seq<real>, cu: seq<nat>, from: seq<nat>, to: seq<nat>, stride: nat, s: nat): (r: seq<real>)
    requires Part(cu, from, to) && Holds(x, cu, stride) && s <= |from|
    ensures |r| == Index(PackedStart(from, to, s), 0, stride)
  {
    if s == 0 then []
    else
      assert Index(PackedStart(from, to, s), 0, stride) ==
             Index(PackedStart(from, to, s - 1), 0, stride) + Index(to[s - 1] - from[s - 1], 0, stride);
      Packed(x, cu, from, to, stride, s - 1) + Slice(x, cu, from, to, stride, s - 1)
  }

  /** Element e of token t of part s, before and after packing. */
  lemma {:induction false} PackedAt(x: seq<real>, cu: seq<nat>, from: seq<nat>, to: seq<nat>, stride: nat, n: nat, s: nat, t: nat, e: nat)
    requires Part(cu, from, to) && Holds(x, cu, stride) && s < n <= |from| && t < to[s] - from[s] && e < stride
    ensures Index(PackedStart(from, to, s) + t, e, stride) < |Packed(x, cu, from, to, stride, n)|
    ensures Index(cu[s] + from[s] + t, e, stride) < |x|
    ensures Packed(x, cu, from, to, stride, n)[Index(PackedStart(from, to, s) + t, e, stride)] == x[Index(cu[s] + from[s] + t, e, stride)]
  {
    if s < n - 1 {
      PackedAt(x, cu, from, to, stride, n - 1, s, t, e);
    } else {
      var start, base := PackedStart(from, to, s), cu[s] + from[s];
      IndexSum(start, t, e, stride);
      IndexSum(base, t, e, stride);
      IndexInside(t, e, to[s] - from[s], stride);
      hide Index, Part, Holds;
      var k := Index(t, e, stride);
      IndexZero(to[s] - from[s], stride);
      assert Slice(x, cu, from, to, stride, s)[k] == x[Index(base, 0, stride) + k];
    }
  }

  lemma IndexSum(a: nat, t: nat, e: nat, n: nat)
    ensures Index(a + t, e, n) == Index(a, 0, n) + Index(t, e, n)
  {
    assert (a + t) * n == a * n + t * n;
  }

  lemma IndexZero(a: nat, n: nat)
    ensures Index(a, 0, n) == a * n
  {
  }

  // ---------- a piece of a batch ----------

  /** Whether sequence s of a piece that starts at from continues from its slot. */
  function Continues(whole: Batch, from: seq<nat>, s: nat): bool
    requires s < |from| && (whole.hasInitial.Some? ==> |whole.hasInitial.value| == |from|)
  {
    whole.hasInitial.None? || whole.hasInitial.value[s] || from[s] > 0
  }

  lemma WholeHolds(m: Model, whole: Batch)
    requires whole.Valid(m)
    ensures Holds(whole.q, whole.cu, m.Hk * m.dk) && Holds(whole.k, whole.cu, m.Hk * m.dk)
    ensures Holds(whole.v, whole.cu, m.Hv * m.dv) && Holds(whole.a, whole.cu, m.Hv) && Holds(whole.b, whole.cu, m.Hv)
  {
    var tokens := whole.cu[|whole.slots|];
    assert tokens * m.Hk * m.dk == tokens * (m.Hk * m.dk);
    assert tokens * m.Hv * m.dv == tokens * (m.Hv * m.dv);
  }

  function PieceOf(m: Model, whole: Batch, from: seq<nat>, to: seq<nat>): Batch
    requires whole.Valid(m) && Part(whole.cu, from, to)
  {
    WholeHolds(m, whole);
    var n := |whole.slots|;
    Batch(Packed(whole.q, whole.cu, from, to, m.Hk * m.dk, n), Packed(whole.k, whole.cu, from, to, m.Hk * m.dk, n),
          Packed(whole.v, whole.cu, from, to, m.Hv * m.dv, n), Packed(whole.b, whole.cu, from, to, m.Hv, n),
          Packed(whole.a, whole.cu, from, to, m.Hv, n),
          seq(n + 1, s requires 0 <= s < n + 1 => PackedStart(from, to, s)), whole.slots,
          Some(seq(n, s requires 0 <= s < n => Continues(whole, from, s))))
  }

  lemma PieceSized(m: Model, whole: Batch, from: seq<nat>, to: seq<nat>)
    requires whole.Valid(m) && Part(whole.cu, from, to)
    ensures PieceOf(m, whole, from, to).Sized(m, PackedStart(from, to, |from|))
  {
    var tokens := PackedStart(from, to, |from|);
    hide Part, Holds, PackedStart, Packed, Batch.Valid;
    assert tokens * m.Hk * m.dk == tokens * (m.Hk * m.dk);
    assert tokens * m.Hv * m.dv == tokens * (m.Hv * m.dv);
  }

  lemma PieceValid(m: Model, whole: Batch, from: seq<nat>, to: seq<nat>)
    requires whole.Valid(m) && Part(whole.cu, from, to)
    ensures PieceOf(m, whole, from, to).Valid(m)
    ensures forall s: nat | s < |whole.slots| :: PieceOf(m, whole, from, to).Len(s) == to[s] - from[s]
  {
    var piece := PieceOf(m, whole, from, to);
    PieceSized(m, whole, from, to);
    hide Packed, Batch.Sized, Continues;
    forall i, j | 0 <= i <= j < |piece.cu| ensures piece.cu[i] <= piece.cu[j] {
      PackedStartGrows(from, to, i, j);
    }
  }

  // ---------- the tokens of a piece ----------

  /** Row R of n columns of a flat array with `heads` such rows for each token. */
  lemma RowOfToken(t: nat, h: nat, i: nat, heads: nat, n: nat)
    requires h < heads && i < n
    ensures Index(Index(t, h, heads), 0, n) + i == Index(t, Index(h, i, n), heads * n)
    ensures Index(h, i, n) < heads * n
  {
    IndexInside(h, i, heads, n);
    assert (t * heads + h) * n == t * (heads * n) + h * n;
  }

  /** Token a of p holds what token b of x does. */
  ghost predicate TokensAgree(p: seq<real>, x: seq<real>, a: nat, b: nat, stride: nat) {
    forall e: nat | e < stride :: ElementsAgree(p, x, Index(a, e, stride), Index(b, e, stride))
  }

  predicate ElementsAgree(p: seq<real>, x: seq<real>, k: nat, l: nat) {
    k < |p| && l < |x| && p[k] == x[l]
  }

  lemma PackedAgrees(x: seq<real>, cu: seq<nat>, from: seq<nat>, to: seq<nat>, stride: nat, s: nat, t: nat)
    requires Part(cu, from, to) && Holds(x, cu, stride) && s < |from| && t < to[s] - from[s]
    ensures TokensAgree(Packed(x, cu, from, to, stride, |from|), x, PackedStart(from, to, s) + t, cu[s] + from[s] + t, stride)
  {
    hide Packed, Holds, Index;
    var p, a, b := Packed(x, cu, from, to, stride, |from|), PackedStart(from, to, s) + t, cu[s] + from[s] + t;
    forall e: nat | e < stride
      ensures ElementsAgree(p, x, Index(a, e, stride), Index(b, e, stride))
    {
      PackedAt(x, cu, from, to, stride, |from|, s, t, e);
    }
  }

  /** Tokens that agree have equal head rows. */
  lemma RowsAgree(p: seq<real>, x: seq<real>, a: nat, b: nat, heads: nat, n: nat, h: nat)
    requires TokensAgree(p, x, a, b, heads * n) && h < heads
    requires Index(Index(a, h, heads), 0, n) + n <= |p| && Index(Index(b, h, heads), 0, n) + n <= |x|
    ensures Row(p, Index(a, h, heads), n) == Row(x, Index(b, h, heads), n)
  {
    var r, q := Row(p, Index(a, h, heads), n), Row(x, Index(b, h, heads), n);
    forall i: nat | i < n ensures r[i] == q[i] {
      RowOfToken(a, h, i, heads, n);
      RowOfToken(b, h, i, heads, n);
      hide Index;
      var e := Index(h, i, n);
      assert ElementsAgree(p, x, Index(a, e, heads * n), Index(b, e, heads * n));
    }
  }

  lemma CellsAgree(p: seq<real>, x: seq<real>, a: nat, b: nat, heads: nat, n: nat, h: nat, i: nat)
    requires TokensAgree(p, x, a, b, heads * n) && h < heads && i < n
    ensures ElementsAgree(p, x, Index(Index(a, h, heads), i, n), Index(Index(b, h, heads), i, n))
  {
    RowOfToken(a, h, i, heads, n);
    RowOfToken(b, h, i, heads, n);
    var e := Index(h, i, n);
    assert ElementsAgree(p, x, Index(a, e, heads * n), Index(b, e, heads * n));
  }

  /** All five inputs of token a of `piece` are those of token b of `whole`. */
  ghost predicate SameInputs(m: Model, piece: Batch, whole: Batch, a: nat, b: nat) {
    TokensAgree(piece.q, whole.q, a, b, m.Hk * m.dk) && TokensAgree(piece.k, whole.k, a, b, m.Hk * m.dk) &&
    TokensAgree(piece.v, whole.v, a, b, m.Hv * m.dv) && TokensAgree(piece.b, whole.b, a, b, m.Hv) &&
    TokensAgree(piece.a, whole.a, a, b, m.Hv)
  }

  lemma PieceFields(m: Model, whole: Batch, from: seq<nat>, to: seq<nat>)
    requires whole.Valid(m) && Part(whole.cu, from, to)
    ensures Holds(whole.q, whole.cu, m.Hk * m.dk) && Holds(whole.k, whole.cu, m.Hk * m.dk)
    ensures Holds(whole.v, whole.cu, m.Hv * m.dv) && Holds(whole.a, whole.cu, m.Hv) && Holds(whole.b, whole.cu, m.Hv)
    ensures PieceOf(m, whole, from, to).q == Packed(whole.q, whole.cu, from, to, m.Hk * m.dk, |from|)
    ensures PieceOf(m, whole, from, to).k == Packed(whole.k, whole.cu, from, to, m.Hk * m.dk, |from|)
    ensures PieceOf(m, whole, from, to).v == Packed(whole.v, whole.cu, from, to, m.Hv * m.dv, |from|)
    ensures PieceOf(m, whole, from, to).b == Packed(whole.b, whole.cu, from, to, m.Hv, |from|)
    ensures PieceOf(m, whole, from, to).a == Packed(whole.a, whole.cu, from, to, m.Hv, |from|)
  {
    WholeHolds(m, whole);
    hide Holds, Packed, Batch.Sized;
  }

  lemma PieceHeads(m: Model, whole: Batch, from: seq<nat>, to: seq<nat>, s: nat, t: nat)
    requires whole.Valid(m) && Part(whole.cu, from, to) && s < |from| && t < to[s] - from[s]
    ensures var piece, a, b := PieceOf(m, whole, from, to), PackedStart(from, to, s) + t, whole.cu[s] + from[s] + t;
            TokensAgree(piece.q, whole.q, a, b, m.Hk * m.dk) && TokensAgree(piece.k, whole.k, a, b, m.Hk * m.dk)
  {
    hide TokensAgree, Holds, Packed, Batch.Valid, PieceOf, PackedStart;
    PieceFields(m, whole, from, to);
    var n := m.Hk * m.dk;
    PackedAgrees(whole.q, whole.cu, from, to, n, s, t);
    PackedAgrees(whole.k, whole.cu, from, to, n, s, t);
  }

  lemma PieceValues(m: Model, whole: Batch, from: seq<nat>, to: seq<nat>, s: nat, t: nat)
    requires whole.Valid(m) && Part(whole.cu, from, to) && s < |from| && t < to[s] - from[s]
    ensures var piece, a, b := PieceOf(m, whole, from, to), PackedStart(from, to, s) + t, whole.cu[s] + from[s] + t;
            TokensAgree(piece.v, whole.v, a, b, m.Hv * m.dv)
  {
    hide TokensAgree, Holds, Packed, Batch.Valid, PieceOf, PackedStart;
    PieceFields(m, whole, from, to);
    var n := m.Hv * m.dv;
    PackedAgrees(whole.v, whole.cu, from, to, n, s, t);
  }

  lemma PieceGates(m: Model, whole: Batch, from: seq<nat>, to: seq<nat>, s: nat, t: nat)
    requires whole.Valid(m) && Part(whole.cu, from, to) && s < |from| && t < to[s] - from[s]
    ensures var piece, a, b := PieceOf(m, whole, from, to), PackedStart(from, to, s) + t, whole.cu[s] + from[s] + t;
            TokensAgree(piece.b, whole.b, a, b, m.Hv) && TokensAgree(piece.a, whole.a, a, b, m.Hv)
  {
    hide TokensAgree, Holds, Packed, Batch.Valid, PieceOf, PackedStart;
    PieceFields(m, whole, from, to);
    PackedAgrees(whole.b, whole.cu, from, to, m.Hv, s, t);
    PackedAgrees(whole.a, whole.cu, from, to, m.Hv, s, t);
  }

  lemma PieceInputs(m: Model, whole: Batch, from: seq<nat>, to: seq<nat>, s: nat, t: nat)
    requires whole.Valid(m) && Part(whole.cu, from, to) && s < |from| && t < to[s] - from[s]
    ensures SameInputs(m, PieceOf(m, whole, from, to), whole, PackedStart(from, to, s) + t, whole.cu[s] + from[s] + t)
  {
    hide TokensAgree, Batch.Valid, PieceOf, PackedStart;
    PieceHeads(m, whole, from, to, s, t);
    PieceValues(m, whole, from, to, s, t);
    PieceGates(m, whole, from, to, s, t);
  }

  lemma SameTokens(m: Model, piece: Batch, whole: Batch, a: nat, b: nat, hv: nat, d: nat)
    requires InBatch(m, piece, a, hv, d) && InBatch(m, whole, b, hv, d) && SameInputs(m, piece, whole, a, b)
    ensures TokenAt(m, piece, a, hv, d) == TokenAt(m, whole, b, hv, d)
  {
    TokenInside(m, piece, a, hv, d);
    TokenInside(m, whole, b, hv, d);
    var hk := m.KeyHead(hv);
    hide Index, Batch.Valid, TokensAgree, Row, Model.KeyHead, Maths.Sigmoid, Maths.Decay;
    RowsAgree(piece.q, whole.q, a, b, m.Hk, m.dk, hk);
    RowsAgree(piece.k, whole.k, a, b, m.Hk, m.dk, hk);
    CellsAgree(piece.v, whole.v, a, b, m.Hv, m.dv, hv, d);
    HeadsAgree(piece.b, whole.b, a, b, m.Hv, hv);
    HeadsAgree(piece.a, whole.a, a, b, m.Hv, hv);
  }

  lemma HeadsAgree(p: seq<real>, x: seq<real>, a: nat, b: nat, heads: nat, h: nat)
    requires TokensAgree(p, x, a, b, heads) && h < heads
    ensures ElementsAgree(p, x, Index(a, h, heads), Index(b, h, heads))
  {
  }

  /** Token t of sequence s of a piece is token from[s] + t of the whole batch. */
  lemma SameTokenOf(m: Model, whole: Batch, from: seq<nat>, to: seq<nat>, w: Lane, t: nat)
    requires m.Valid() && whole.Valid(m) && Part(whole.cu, from, to) && PieceOf(m, whole, from, to).Valid(m)
    requires ValidLane(m, whole, w) && t < to[w.s] - from[w.s]
    ensures PieceOf(m, whole, from, to).Len(w.s) == to[w.s] - from[w.s] && from[w.s] + t < whole.Len(w.s)
    ensures TokenOf(m, PieceOf(m, whole, from, to), w, t) == TokenOf(m, whole, w, from[w.s] + t)
  {
    hide Packed, Model.Valid, Batch.Sized, SameInputs, TokenAt, Continues;
    var piece := PieceOf(m, whole, from, to);
    PieceInputs(m, whole, from, to, w.s, t);
    assert piece.cu[w.s] == PackedStart(from, to, w.s) && piece.cu[w.s + 1] == PackedStart(from, to, w.s + 1);
    Ordered(m, piece, w.s, |piece.slots|);
    Ordered(m, whole, w.s, |whole.slots|);
    SameTokens(m, piece, whole, piece.cu[w.s] + t, whole.cu[w.s] + from[w.s] + t, w.hv, w.d);
  }

  /** A piece's tokens are the slice from..to of the sequence's. */
  lemma PieceTokens(m: Model, whole: Batch, from: seq<nat>, to: seq<nat>, w: Lane)
    requires m.Valid() && whole.Valid(m) && Part(whole.cu, from, to) && ValidLane(m, whole, w)
    ensures PieceOf(m, whole, from, to).Valid(m) && from[w.s] <= to[w.s] <= |Tokens(m, whole, w)|
    ensures Tokens(m, PieceOf(m, whole, from, to), w) == Tokens(m, whole, w)[from[w.s]..to[w.s]]
  {
    hide PieceOf, Model.Valid, Batch.Sized, TokenOf;
    PieceValid(m, whole, from, to);
    var piece := PieceOf(m, whole, from, to);
    PieceSlots(m, whole, from, to);
    assert whole.cu[w.s] + to[w.s] <= whole.cu[w.s + 1];
    forall t: nat | t < to[w.s] - from[w.s]
      ensures TokenOf(m, piece, w, t) == TokenOf(m, whole, w, from[w.s] + t)
    {
      SameTokenOf(m, whole, from, to, w, t);
    }
  }

  lemma PieceSlots(m: Model, whole: Batch, from: seq<nat>, to: seq<nat>)
    requires whole.Valid(m) && Part(whole.cu, from, to)
    ensures PieceOf(m, whole, from, to).slots == whole.slots
  {
  }

  // ---------- cutting a batch ----------

  /** Cut points of every sequence: cuts[i][s] tokens of sequence s come before piece i. */
  predicate CutGrid(whole: Batch, cuts: seq<seq<nat>>) {
    |cuts| > 0 && |whole.cu| == |whole.slots| + 1 &&
    (forall i | 0 <= i < |cuts| :: |cuts[i]| == |whole.slots|) &&
    (forall s | 0 <= s < |whole.slots| :: cuts[0][s] == 0) &&
    (forall s {:trigger cuts[|cuts| - 1][s]} | 0 <= s < |whole.slots| :: whole.cu[s] + cuts[|cuts| - 1][s] == whole.cu[s + 1]) &&
    (forall i, j, s | 0 <= i <= j < |cuts| && 0 <= s < |whole.slots| :: cuts[i][s] <= cuts[j][s])
  }

  lemma GridPart(whole: Batch, cuts: seq<seq<nat>>, i: nat)
    requires CutGrid(whole, cuts) && i + 1 < |cuts|
    ensures Part(whole.cu, cuts[i], cuts[i + 1])
  {
    forall s | 0 <= s < |whole.slots|
      ensures cuts[i][s] <= cuts[i + 1][s] && whole.cu[s] + cuts[i + 1][s] <= whole.cu[s + 1]
    {
      assert cuts[i + 1][s] <= cuts[|cuts| - 1][s];
    }
  }

  function PieceAt(m: Model, whole: Batch, cuts: seq<seq<nat>>, i: nat): Batch
    requires whole.Valid(m) && CutGrid(whole, cuts) && i + 1 < |cuts|
  {
    GridPart(whole, cuts, i);
    PieceOf(m, whole, cuts[i], cuts[i + 1])
  }

  function CutBatch(m: Model, whole: Batch, cuts: seq<seq<nat>>): (pieces: seq<Batch>)
    requires whole.Valid(m) && CutGrid(whole, cuts)
    ensures |pieces| == |cuts| - 1 && forall i | 0 <= i < |pieces| :: pieces[i] == PieceAt(m, whole, cuts, i)
  {
    seq(|cuts| - 1, i requires 0 <= i < |cuts| - 1 => PieceAt(m, whole, cuts, i))
  }

  /** What a piece of the grid is. */
  lemma PieceFacts(m: Model, whole: Batch, cuts: seq<seq<nat>>, i: nat)
    requires whole.Valid(m) && CutGrid(whole, cuts) && i + 1 < |cuts|
    ensures |cuts[i]| == |cuts[i + 1]| == |whole.slots|
    ensures var piece := PieceAt(m, whole, cuts, i);
            piece.Valid(m) && piece.slots == whole.slots &&
            forall s: nat | s < |whole.slots| ::
              cuts[i][s] <= cuts[i + 1][s] && piece.Len(s) == cuts[i + 1][s] - cuts[i][s] &&
              (piece.UseInit(m, s) <==> piece.SlotOk(m, s) && Continues(whole, cuts[i], s))
  {
    GridPart(whole, cuts, i);
    PieceValid(m, whole, cuts[i], cuts[i + 1]);
    hide Packed, Batch.Sized, Continues, PackedStart;
  }

  lemma GridSameSlots(m: Model, whole: Batch, cuts: seq<seq<nat>>)
    requires whole.Valid(m) && CutGrid(whole, cuts)
    ensures SameSlots(m, whole.slots, CutBatch(m, whole, cuts))
  {
    hide Batch.Valid, PieceAt, CutGrid;
    forall i | 0 <= i < |CutBatch(m, whole, cuts)|
      ensures CutBatch(m, whole, cuts)[i].Valid(m) && CutBatch(m, whole, cuts)[i].slots == whole.slots
    {
      PieceFacts(m, whole, cuts, i);
    }
  }

  lemma {:induction false} GridCount(m: Model, whole: Batch, cuts: seq<seq<nat>>, pieces: seq<Batch>, n: nat, s: nat)
    requires whole.Valid(m) && CutGrid(whole, cuts) && pieces == CutBatch(m, whole, cuts) && SameSlots(m, whole.slots, pieces)
    requires n < |cuts| && s < |whole.slots|
    ensures |cuts[n]| == |whole.slots| && Before(m, whole.slots, pieces, n, s) == cuts[n][s]
  {
    hide Batch.Sized, PieceAt, CutBatch;
    if n > 0 {
      GridCount(m, whole, cuts, pieces, n - 1, s);
      PieceFacts(m, whole, cuts, n - 1);
      assert pieces[n - 1] == PieceAt(m, whole, cuts, n - 1);
    }
  }

  lemma {:induction false} GridJoin(m: Model, whole: Batch, cuts: seq<seq<nat>>, pieces: seq<Batch>, n: nat, w: Lane)
    requires m.Valid() && whole.Valid(m) && CutGrid(whole, cuts) && pieces == CutBatch(m, whole, cuts)
    requires SameSlots(m, whole.slots, pieces) && n < |cuts| && ValidLane(m, whole, w)
    ensures |cuts[n]| == |whole.slots| && cuts[n][w.s] <= |Tokens(m, whole, w)|
    ensures Joined(m, whole.slots, pieces, n, w) == Tokens(m, whole, w)[..cuts[n][w.s]]
  {
    if n > 0 {
      GridJoin(m, whole, cuts, pieces, n - 1, w);
      GridStep(m, whole, cuts, n - 1, w);
      assert pieces[n - 1] == PieceAt(m, whole, cuts, n - 1);
      hide Model.Valid, Batch.Valid, PieceAt, CutGrid, CutBatch, Tokens;
      SliceOneMore(Tokens(m, whole, w), cuts[n - 1][w.s], cuts[n][w.s]);
    } else {
      hide Tokens;
      assert cuts[0][w.s] == 0;
    }
  }

  lemma GridStep(m: Model, whole: Batch, cuts: seq<seq<nat>>, i: nat, w: Lane)
    requires m.Valid() && whole.Valid(m) && CutGrid(whole, cuts) && i + 1 < |cuts| && ValidLane(m, whole, w)
    ensures |cuts[i]| == |cuts[i + 1]| == |whole.slots| && PieceAt(m, whole, cuts, i).Valid(m)
    ensures PieceAt(m, whole, cuts, i).slots == whole.slots
    ensures cuts[i][w.s] <= cuts[i + 1][w.s] <= |Tokens(m, whole, w)|
    ensures Tokens(m, PieceAt(m, whole, cuts, i), w) == Tokens(m, whole, w)[cuts[i][w.s]..cuts[i + 1][w.s]]
  {
    GridPart(whole, cuts, i);
    hide PieceOf, Model.Valid, Batch.Sized, Tokens;
    PieceFacts(m, whole, cuts, i);
    PieceTokens(m, whole, cuts[i], cuts[i + 1], w);
  }

  lemma GridStarts(m: Model, whole: Batch, cuts: seq<seq<nat>>, pieces: seq<Batch>, n: nat, s: nat)
    requires whole.Valid(m) && CutGrid(whole, cuts) && pieces == CutBatch(m, whole, cuts) && SameSlots(m, whole.slots, pieces)
    requires n < |pieces| && s < |whole.slots|
    ensures StartsRight(m, whole, pieces, n, s)
  {
    hide PieceAt, CutBatch, Batch.Sized;
    GridCount(m, whole, cuts, pieces, n, s);
    PieceFacts(m, whole, cuts, n);
    assert pieces[n] == PieceAt(m, whole, cuts, n);
  }

  /** Every sequence of a batch may be cut at points of its own, some of them empty in
      some pieces: the pieces present the whole batch. */
  lemma EveryGridCuts(m: Model, whole: Batch, cuts: seq<seq<nat>>)
    requires m.Valid() && whole.Valid(m) && CutGrid(whole, cuts)
    ensures Cuts(m, whole, CutBatch(m, whole, cuts))
  {
    var pieces := CutBatch(m, whole, cuts);
    GridSameSlots(m, whole, cuts);
    hide Model.Valid, Batch.Sized, Tokens, CutBatch, StartsRight, SameSlots;
    forall s: nat | s < |whole.slots| ensures Before(m, whole.slots, pieces, |pieces|, s) == whole.Len(s) {
      GridCount(m, whole, cuts, pieces, |pieces|, s);
    }
    forall w: Lane | ValidLane(m, whole, w) ensures Joined(m, whole.slots, pieces, |pieces|, w) == Tokens(m, whole, w) {
      GridJoin(m, whole, cuts, pieces, |pieces|, w);
    }
    forall n: nat, s: nat | n < |pieces| && s < |whole.slots| ensures StartsRight(m, whole, pieces, n, s) {
      GridStarts(m, whole, cuts, pieces, n, s);
    }
  }
}
