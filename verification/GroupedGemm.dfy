/** The segmented per-expert GEMM: a static grid of row tiles is mapped to experts on
    the device, each tile multiplies its rows by its expert's weights. */
module GroupedGemm {
  import opened RealSums
  import opened MoeRouting

  const TM: nat := 8
  const TN: nat := 16
  const TK: nat := 16

  /** Row tiles of an expert with `rows` rows. */
  function TilesFor(rows: nat): nat {
    (rows + TM - 1) / TM
  }

  /** Index of the first row tile of expert e. */
  function Seg(rows: seq<nat>, e: nat): nat
    requires e <= |rows|
  {
    if e == 0 then 0 else Seg(rows, e - 1) + TilesFor(rows[e - 1])
  }

  lemma {:induction false} SegMonotone(rows: seq<nat>, d: nat, e: nat)
    requires d <= e <= |rows|
    ensures Seg(rows, d) <= Seg(rows, e)
  {
    if d < e {
      SegMonotone(rows, d, e - 1);
    }
  }

  /** Rows of the launched grid. */
  function GridTiles(mTotal: nat, nExperts: nat): nat {
    (mTotal + TM - 1) / TM + nExperts
  }

  function GridCols(n: nat): nat {
    (n + TN - 1) / TN
  }

  /** The real tile count never exceeds the static grid. */
  lemma {:induction false} TilesFit(rows: seq<nat>, e: nat, mTotal: nat)
    requires e <= |rows| && Prefix(rows, e) <= mTotal
    ensures Seg(rows, e) * TM <= Prefix(rows, e) + e * (TM - 1)
    ensures Seg(rows, e) <= (mTotal + 7) / 8 + e == GridTiles(mTotal, e)
  {
    if e > 0 {
      TilesFit(rows, e - 1, mTotal);
    }
  }

  /** Tile mt belongs to expert e. */
  predicate OwnsTile(rows: seq<nat>, e: nat, mt: nat) {
    e < |rows| && Seg(rows, e) <= mt < Seg(rows, e + 1)
  }

  lemma TileOwnerUnique(rows: seq<nat>, d: nat, e: nat, mt: nat)
    requires OwnsTile(rows, d, mt) && OwnsTile(rows, e, mt)
    ensures d == e
  {
    if d < e {
      SegMonotone(rows, d + 1, e);
    } else if e < d {
      SegMonotone(rows, e + 1, d);
    }
  }

  /** The grid row that stores C's row s, s being in expert e's segment. */
  function TileOfRow(rows: seq<nat>, e: nat, s: nat): nat
    requires InSegment(rows, e, s)
  {
    Seg(rows, e) + (s - Prefix(rows, e)) / TM
  }

  /** Tile (mt, nt), owned by expert e, stores element (s, n) of C: local row
      rlocal0 + r < rows[e] and column col0 + c < N. */
  predicate Stores(rows: seq<nat>, cols: nat, e: nat, mt: nat, nt: nat, s: nat, n: nat) {
    && OwnsTile(rows, e, mt)
    && InSegment(rows, e, s) && (mt - Seg(rows, e)) * TM <= s - Prefix(rows, e) < (mt - Seg(rows, e)) * TM + TM
    && n < cols && nt * TN <= n < nt * TN + TN
  }

  /** Exact cover: for all row counts, zeros included, each element of C is stored by
      exactly one tile, that tile is inside the static grid, and its expert owns the row. */
  lemma ExactCover(rows: seq<nat>, mTotal: nat, cols: nat, s: nat, n: nat)
    requires Prefix(rows, |rows|) <= mTotal && s < Prefix(rows, |rows|) && n < cols
    ensures var e := SegmentOf(rows, |rows|, s);
            var mt, nt := TileOfRow(rows, e, s), n / TN;
            && mt < (mTotal + 7) / 8 + |rows| && nt < (cols + 15) / 16
            && Stores(rows, cols, e, mt, nt, s, n)
            && forall e', mt', nt' :: Stores(rows, cols, e', mt', nt', s, n) ==> e' == e && mt' == mt && nt' == nt
  {
    var e := SegmentOf(rows, |rows|, s);
    var local := s - Prefix(rows, e);
    assert local < rows[e];
    assert local / TM < TilesFor(rows[e]);
    SegMonotone(rows, e + 1, |rows|);
    TilesFit(rows, |rows|, mTotal);
    forall e', mt', nt' | Stores(rows, cols, e', mt', nt', s, n)
      ensures e' == e && mt' == TileOfRow(rows, e, s) && nt' == n / TN
    {
      SegmentUnique(rows, e, e', s);
    }
  }

  // ---------- operands ----------

  /** Activations [row, k], weights decoded to weight(e, n, k), and the scale that
      expert e's results are multiplied by. */
  datatype Operands = Operands(act: (nat, nat) -> real, weight: (nat, nat, nat) -> real, scale: nat -> real,
                               depth: nat, cols: nat)
  {
    function Row(s: nat): nat -> real {
      (k: nat) => act(s, k)
    }

    function Col(e: nat, n: nat): nat -> real {
      (k: nat) => weight(e, n, k)
    }

    /** What C[s, n] has to be when expert e owns row s. */
    function Product(e: nat, s: nat, n: nat): real {
      Dot(Row(s), Col(e, n), depth) * scale(e)
    }
  }

  // ---------- one work-group ----------

  method Prefixes(rows: seq<nat>, seg: array<nat>)
    requires seg.Length == |rows| + 1
    modifies seg
    ensures forall e: nat | e <= |rows| :: seg[e] == Seg(rows, e)
  {
    var tile0 := 0;
    for e := 0 to |rows|
      invariant tile0 == Seg(rows, e)
      invariant forall d: nat | d < e :: seg[d] == Seg(rows, d)
    {
      seg[e] := tile0;
      tile0 := tile0 + (rows[e] + TM - 1) / TM;
    }
    seg[|rows|] := tile0;
  }

  /** The linear walk to the owning expert, and the sum to its first row. */
  method Locate(rows: seq<nat>, seg: array<nat>, mt: nat) returns (e: nat, row0: nat)
    requires seg.Length == |rows| + 1 && forall d: nat | d <= |rows| :: seg[d] == Seg(rows, d)
    requires mt < seg[|rows|]
    ensures OwnsTile(rows, e, mt) && row0 == Prefix(rows, e)
  {
    e := 0;
    while e + 1 < |rows| && mt >= seg[e + 1]
      invariant e < |rows| && Seg(rows, e) <= mt
    {
      e := e + 1;
    }
    row0 := 0;
    for d := 0 to e
      invariant row0 == Prefix(rows, d)
    {
      row0 := row0 + rows[d];
    }
  }

  /** The cooperative, masked stores of one depth tile of A: rows past the expert's
      last and only those read as zero. */
  method StageA(op: Operands, row0: nat, rlocal0: nat, rowsE: nat, k0: nat, tile: array2<real>)
    requires tile.Length0 == TM && tile.Length1 == TK
    modifies tile
    ensures forall r: nat, k: nat | r < TM && k < TK ::
              tile[r, k] == if rlocal0 + r < rowsE then op.act(row0 + rlocal0 + r, k0 + k) else 0.0
  {
    for r := 0 to TM
      invariant forall i: nat, k: nat | i < r && k < TK ::
                  tile[i, k] == if rlocal0 + i < rowsE then op.act(row0 + rlocal0 + i, k0 + k) else 0.0
    {
      for c := 0 to TK
        invariant forall i: nat, k: nat | i < TM && k < TK && (i < r || (i == r && k < c)) ::
                    tile[i, k] == if rlocal0 + i < rowsE then op.act(row0 + rlocal0 + i, k0 + k) else 0.0
      {
        var rl := rlocal0 + r;
        tile[r, c] := if rl < rowsE then op.act(row0 + rl, k0 + c) else 0.0;
      }
    }
  }

  method StageB(op: Operands, e: nat, col0: nat, k0: nat, tile: array2<real>)
    requires tile.Length0 == TK && tile.Length1 == TN
    modifies tile
    ensures forall k: nat, c: nat | k < TK && c < TN ::
              tile[k, c] == if col0 + c < op.cols then op.weight(e, col0 + c, k0 + k) else 0.0
  {
    for r := 0 to TK
      invariant forall i: nat, j: nat | i < r && j < TN ::
                  tile[i, j] == if col0 + j < op.cols then op.weight(e, col0 + j, k0 + i) else 0.0
    {
      for c := 0 to TN
        invariant forall i: nat, j: nat | i < TK && j < TN && (i < r || (i == r && j < c)) ::
                    tile[i, j] == if col0 + j < op.cols then op.weight(e, col0 + j, k0 + i) else 0.0
      {
        var n := col0 + c;
        tile[r, c] := if n >= op.cols then 0.0 else op.weight(e, n, k0 + r);
      }
    }
  }

  /** Row r of the masked A tile and column c of the masked B tile, along the depth. */
  function MaskedRow(op: Operands, row0: nat, rlocal0: nat, rowsE: nat, r: nat): nat -> real {
    (k: nat) => if rlocal0 + r < rowsE then op.act(row0 + rlocal0 + r, k) else 0.0
  }

  function MaskedCol(op: Operands, e: nat, col0: nat, c: nat): nat -> real {
    (k: nat) => if col0 + c < op.cols then op.weight(e, col0 + c, k) else 0.0
  }

  /** One element of a tile multiply-accumulate: an inner product of depth TK. */
  method TileDot(a: array2<real>, b: array2<real>, r: nat, c: nat, ghost fa: nat -> real, ghost fb: nat -> real)
    returns (d: real)
    requires a.Length0 == TM && a.Length1 == TK && b.Length0 == TK && b.Length1 == TN && r < TM && c < TN
    requires forall k: nat | k < TK :: a[r, k] == fa(k) && b[k, c] == fb(k)
    ensures d == Dot(fa, fb, TK)
  {
    d := 0.0;
    for k := 0 to TK
      invariant d == Dot(fa, fb, k)
    {
      d := d + a[r, k] * b[k, c];
    }
  }

  /** The accumulation over the depth tiles for one output tile. */
  method Accumulate(op: Operands, e: nat, row0: nat, rlocal0: nat, rowsE: nat, col0: nat) returns (acc: array2<real>)
    requires op.depth % TK == 0
    ensures fresh(acc) && acc.Length0 == TM && acc.Length1 == TN
    ensures forall r: nat, c: nat | r < TM && c < TN ::
              acc[r, c] == Dot(MaskedRow(op, row0, rlocal0, rowsE, r), MaskedCol(op, e, col0, c), op.depth)
  {
    hide Dot;
    acc := new real[TM, TN]((_, _) => 0.0);
    forall r: nat, c: nat | r < TM && c < TN
      ensures Dot(MaskedRow(op, row0, rlocal0, rowsE, r), MaskedCol(op, e, col0, c), 0) == 0.0
    {
      DotNothing(MaskedRow(op, row0, rlocal0, rowsE, r), MaskedCol(op, e, col0, c));
    }
    var tileA := new real[TM, TK];
    var tileB := new real[TK, TN];
    for kt := 0 to op.depth / TK
      invariant fresh(acc) && acc.Length0 == TM && acc.Length1 == TN
      invariant forall r: nat, c: nat | r < TM && c < TN ::
                  acc[r, c] == Dot(MaskedRow(op, row0, rlocal0, rowsE, r), MaskedCol(op, e, col0, c), kt * TK)
    {
      StageA(op, row0, rlocal0, rowsE, kt * TK, tileA);
      StageB(op, e, col0, kt * TK, tileB);
      MadStep(op, e, row0, rlocal0, rowsE, col0, kt * TK, tileA, tileB, acc);
    }
  }

  method MadStep(ghost op: Operands, ghost e: nat, ghost row0: nat, ghost rlocal0: nat, ghost rowsE: nat, ghost col0: nat,
                 ghost k0: nat, tileA: array2<real>, tileB: array2<real>, acc: array2<real>)
    requires tileA.Length0 == TM && tileA.Length1 == TK && tileB.Length0 == TK && tileB.Length1 == TN
    requires acc.Length0 == TM && acc.Length1 == TN && acc != tileA && acc != tileB
    requires forall r: nat, k: nat | r < TM && k < TK ::
               tileA[r, k] == MaskedRow(op, row0, rlocal0, rowsE, r)(k0 + k)
    requires forall k: nat, c: nat | k < TK && c < TN ::
               tileB[k, c] == MaskedCol(op, e, col0, c)(k0 + k)
    requires forall r: nat, c: nat | r < TM && c < TN ::
               acc[r, c] == Dot(MaskedRow(op, row0, rlocal0, rowsE, r), MaskedCol(op, e, col0, c), k0)
    modifies acc
    ensures forall r: nat, c: nat | r < TM && c < TN ::
              acc[r, c] == Dot(MaskedRow(op, row0, rlocal0, rowsE, r), MaskedCol(op, e, col0, c), k0 + TK)
  {
    hide Dot;
    for r := 0 to TM
      invariant forall i: nat, j: nat | i < TM && j < TN ::
                  acc[i, j] == Dot(MaskedRow(op, row0, rlocal0, rowsE, i), MaskedCol(op, e, col0, j), if i < r then k0 + TK else k0)
    {
      for c := 0 to TN
        invariant forall i: nat, j: nat | i < TM && j < TN ::
                    acc[i, j] == Dot(MaskedRow(op, row0, rlocal0, rowsE, i), MaskedCol(op, e, col0, j),
                                     if i < r || (i == r && j < c) then k0 + TK else k0)
      {
        ghost var fa := MaskedRow(op, row0, rlocal0, rowsE, r);
        ghost var fb := MaskedCol(op, e, col0, c);
        ghost var fa', fb' := (k: nat) => fa(k0 + k), (k: nat) => fb(k0 + k);
        DotSplit(fa, fb, k0, TK, fa', fb');
        var d := TileDot(tileA, tileB, r, c, fa', fb');
        acc[r, c] := acc[r, c] + d;
      }
    }
  }

  /** What the whole grid has to leave in C. */
  ghost predicate Multiplied(rows: seq<nat>, op: Operands, s: nat, n: nat, value: real) {
    forall e: nat | InSegment(rows, e, s) :: value == op.Product(e, s, n)
  }

  /** Work-group (mt, nt): it stores exactly the elements Stores names, each with the
      product of its row and its owning expert's weights, or nothing when mt is past
      the real tile count. */
  method TileKernel(rows: seq<nat>, op: Operands, mt: nat, nt: nat, out: array2<real>)
    requires op.depth % TK == 0 && out.Length0 >= Prefix(rows, |rows|) && out.Length1 == op.cols
    modifies out
    ensures forall s: nat, n: nat | s < out.Length0 && n < out.Length1 ::
              if exists e: nat :: Stores(rows, op.cols, e, mt, nt, s, n)
              then Multiplied(rows, op, s, n, out[s, n]) else out[s, n] == old(out[s, n])
  {
    hide Dot, Stores, Multiplied, Stored, Operands.Product, MaskedRow, MaskedCol, Prefix, Seg;
    var seg := new nat[|rows| + 1];
    Prefixes(rows, seg);
    if mt >= seg[|rows|] {
      NothingToStore(rows, op.cols, mt, nt);
      return;
    }
    var e, row0 := Locate(rows, seg, mt);
    var rlocal0 := (mt - seg[e]) * TM;
    var rowsE := rows[e];
    var col0 := nt * TN;
    var acc := Accumulate(op, e, row0, rlocal0, rowsE, col0);
    OwnRows(rows, e);
    StoreTile(op, e, row0, rlocal0, rowsE, col0, acc, out);
    forall s: nat, n: nat | s < out.Length0 && n < out.Length1
      ensures if exists d: nat :: Stores(rows, op.cols, d, mt, nt, s, n)
              then Multiplied(rows, op, s, n, out[s, n]) else out[s, n] == old(out[s, n])
    {
      StoredIsStores(rows, op, e, mt, nt, s, n);
    }
  }

  /** Past the last real tile nothing is stored. */
  lemma NothingToStore(rows: seq<nat>, cols: nat, mt: nat, nt: nat)
    requires mt >= Seg(rows, |rows|)
    ensures forall e: nat, s: nat, n: nat :: !Stores(rows, cols, e, mt, nt, s, n)
  {
    forall e: nat, s: nat, n: nat ensures !Stores(rows, cols, e, mt, nt, s, n) {
      if e < |rows| {
        SegMonotone(rows, e + 1, |rows|);
      }
    }
  }

  lemma OwnRows(rows: seq<nat>, e: nat)
    requires e < |rows|
    ensures Prefix(rows, e) + rows[e] <= Prefix(rows, |rows|)
  {
    PrefixMonotone(rows, e + 1, |rows|);
  }

  /** What the epilogue of tile mt's owner stores is what the tile has to store, and the
      owner's product is what belongs there. */
  lemma StoredIsStores(rows: seq<nat>, op: Operands, e: nat, mt: nat, nt: nat, s: nat, n: nat)
    requires OwnsTile(rows, e, mt)
    ensures Stored(op, Prefix(rows, e), (mt - Seg(rows, e)) * TM, rows[e], nt * TN, s, n) <==>
            exists d: nat :: Stores(rows, op.cols, d, mt, nt, s, n)
    ensures Stored(op, Prefix(rows, e), (mt - Seg(rows, e)) * TM, rows[e], nt * TN, s, n) ==>
              Multiplied(rows, op, s, n, op.Product(e, s, n))
  {
    hide Operands.Product;
    forall d: nat | Stores(rows, op.cols, d, mt, nt, s, n) ensures d == e {
      TileOwnerUnique(rows, d, e, mt);
    }
    if Stored(op, Prefix(rows, e), (mt - Seg(rows, e)) * TM, rows[e], nt * TN, s, n) {
      assert Stores(rows, op.cols, e, mt, nt, s, n);
      forall d: nat | InSegment(rows, d, s) ensures d == e {
        SegmentUnique(rows, d, e, s);
      }
    }
  }

  /** The epilogue's store condition, on global indices. */
  predicate Stored(op: Operands, row0: nat, rlocal0: nat, rowsE: nat, col0: nat, s: nat, n: nat) {
    row0 + rlocal0 <= s < row0 + rlocal0 + TM && s < row0 + rowsE && col0 <= n < col0 + TN && n < op.cols
  }

  /** The masked epilogue. */
  method StoreTile(op: Operands, e: nat, row0: nat, rlocal0: nat, rowsE: nat, col0: nat, acc: array2<real>, out: array2<real>)
    requires acc.Length0 == TM && acc.Length1 == TN && acc != out
    requires row0 + rowsE <= out.Length0 && out.Length1 == op.cols
    requires forall r: nat, c: nat | r < TM && c < TN ::
               acc[r, c] == Dot(MaskedRow(op, row0, rlocal0, rowsE, r), MaskedCol(op, e, col0, c), op.depth)
    modifies out
    ensures forall s: nat, n: nat | s < out.Length0 && n < out.Length1 ::
              out[s, n] == if Stored(op, row0, rlocal0, rowsE, col0, s, n) then op.Product(e, s, n) else old(out[s, n])
  {
    for r := 0 to TM
      invariant forall s: nat, n: nat | s < out.Length0 && n < out.Length1 ::
                  out[s, n] == if Stored(op, row0, rlocal0, rowsE, col0, s, n) && s < row0 + rlocal0 + r
                               then op.Product(e, s, n) else old(out[s, n])
    {
      for c := 0 to TN
        invariant forall s: nat, n: nat | s < out.Length0 && n < out.Length1 ::
                    out[s, n] == if Stored(op, row0, rlocal0, rowsE, col0, s, n)
                                    && (s < row0 + rlocal0 + r || (s == row0 + rlocal0 + r && n < col0 + c))
                                 then op.Product(e, s, n) else old(out[s, n])
      {
        var rl := rlocal0 + r;
        var n := col0 + c;
        if rl < rowsE && n < op.cols {
          DotEqual(MaskedRow(op, row0, rlocal0, rowsE, r), MaskedCol(op, e, col0, c), op.Row(row0 + rl), op.Col(e, n), op.depth);
          out[row0 + rl, n] := acc[r, c] * op.scale(e);
        }
      }
    }
  }

  // ---------- the grid ----------

  /** The whole launch, its work-groups in any order: every row of every expert's
      segment is multiplied by that expert's weights, other rows keep their content. */
  method Launch(rows: seq<nat>, op: Operands, mTotal: nat, out: array2<real>, order: seq<(nat, nat)>)
    requires op.depth % TK == 0 && Prefix(rows, |rows|) <= mTotal
    requires out.Length0 >= Prefix(rows, |rows|) && out.Length1 == op.cols
    requires forall mt: nat, nt: nat | mt < GridTiles(mTotal, |rows|) && nt < GridCols(op.cols) :: (mt, nt) in order
    modifies out
    ensures forall s: nat, n: nat | s < Prefix(rows, |rows|) && n < op.cols ::
              out[s, n] == op.Product(SegmentOf(rows, |rows|, s), s, n)
    ensures forall s: nat, n: nat | Prefix(rows, |rows|) <= s < out.Length0 && n < op.cols :: out[s, n] == old(out[s, n])
  {
    for i := 0 to |order|
      invariant forall s: nat, n: nat, e: nat, g | s < out.Length0 && n < op.cols && g in order[..i]
                  && Stores(rows, op.cols, e, g.0, g.1, s, n) :: Multiplied(rows, op, s, n, out[s, n])
      invariant forall s: nat, n: nat | Prefix(rows, |rows|) <= s < out.Length0 && n < op.cols :: out[s, n] == old(out[s, n])
    {
      var (mt, nt) := order[i];
      forall e: nat, s: nat, n: nat | Prefix(rows, |rows|) <= s ensures !Stores(rows, op.cols, e, mt, nt, s, n) {
        if e < |rows| {
          PrefixMonotone(rows, e + 1, |rows|);
        }
      }
      TileKernel(rows, op, mt, nt, out);
    }
    forall s: nat, n: nat | s < Prefix(rows, |rows|) && n < op.cols
      ensures out[s, n] == op.Product(SegmentOf(rows, |rows|, s), s, n)
    {
      ExactCover(rows, mTotal, op.cols, s, n);
      var e := SegmentOf(rows, |rows|, s);
      assert (TileOfRow(rows, e, s), n / TN) in order[..|order|];
      assert Stores(rows, op.cols, e, TileOfRow(rows, e, s), n / TN, s, n);
    }
  }
}
