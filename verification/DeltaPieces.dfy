/** Calling the gated delta rule on a batch in pieces: prefill cut at any point, or one
    token at a time, gives what one call on the whole batch gives. */
module DeltaPieces {
  import opened Softmax
  import Division
  import opened DeltaRule
  import opened GatedDelta

  /** Every piece serves the same sequences from the same slots. */
  predicate SameSlots(m: Model, slots: seq<int>, pieces: seq<Batch>) {
    forall i | 0 <= i < |pieces| :: pieces[i].Valid(m) && pieces[i].slots == slots
  }

  /** How many tokens of sequence s the first n pieces hold. */
  function Before(m: Model, slots: seq<int>, pieces: seq<Batch>, n: nat, s: nat): nat
    requires n <= |pieces| && SameSlots(m, slots, pieces) && s < |slots|
  {
    if n == 0 then 0
    else
      assert pieces[n - 1].Valid(m);
      Before(m, slots, pieces, n - 1, s) + pieces[n - 1].Len(s)
  }

  /** The tokens of lane w in the first n pieces. */
  function Joined(m: Model, slots: seq<int>, pieces: seq<Batch>, n: nat, w: Lane): (xs: seq<Token>)
    requires m.Valid() && n <= |pieces| && SameSlots(m, slots, pieces) && w.s < |slots| && w.hv < m.Hv && w.d < m.dv
    ensures AllFit(xs, m.dk) && |xs| == Before(m, slots, pieces, n, w.s)
  {
    if n == 0 then []
    else
      assert pieces[n - 1].Valid(m);
      Joined(m, slots, pieces, n - 1, w) + Tokens(m, pieces[n - 1], w)
  }

  /** A piece continues from its slot once some of the sequence has been processed, and
      otherwise starts the way the whole batch does. */
  ghost predicate StartsRight(m: Model, whole: Batch, pieces: seq<Batch>, n: nat, s: nat)
    requires whole.Valid(m) && SameSlots(m, whole.slots, pieces) && n < |pieces| && s < |whole.slots|
  {
    whole.SlotOk(m, s) ==> (pieces[n].UseInit(m, s) <==> whole.UseInit(m, s) || Before(m, whole.slots, pieces, n, s) > 0)
  }

  /** The pieces, called in order, present the tokens of the whole batch. */
  ghost predicate Cuts(m: Model, whole: Batch, pieces: seq<Batch>)
    requires m.Valid() && whole.Valid(m)
  {
    SameSlots(m, whole.slots, pieces) &&
    (forall s: nat | s < |whole.slots| :: Before(m, whole.slots, pieces, |pieces|, s) == whole.Len(s)) &&
    (forall w: Lane | ValidLane(m, whole, w) :: Joined(m, whole.slots, pieces, |pieces|, w) == Tokens(m, whole, w)) &&
    (forall n: nat, s: nat | n < |pieces| && s < |whole.slots| :: StartsRight(m, whole, pieces, n, s))
  }

  /** The slot row after the tokens xs of the whole batch. */
  function RowAfter(m: Model, whole: Batch, w: Lane, row: seq<real>, xs: seq<Token>): (r: seq<real>)
    requires m.Valid() && whole.Valid(m) && ValidLane(m, whole, w) && |row| == m.dk && AllFit(xs, m.dk)
    ensures |r| == m.dk
  {
    if |xs| == 0 then row else Run(Initial(m, whole, w, row), xs)
  }

  function OutputsAfter(m: Model, whole: Batch, w: Lane, row: seq<real>, xs: seq<Token>): (r: seq<real>)
    requires m.Valid() && whole.Valid(m) && ValidLane(m, whole, w) && |row| == m.dk && AllFit(xs, m.dk)
    ensures |r| == |xs|
  {
    if whole.SlotOk(m, w.s) then Outputs(Initial(m, whole, w, row), xs) else Zeros(|xs|)
  }

  /** A piece started from the row that its predecessors left carries the run on. */
  lemma PieceCarriesOn(m: Model, whole: Batch, piece: Batch, w: Lane, row: seq<real>, xs: seq<Token>)
    requires m.Valid() && whole.Valid(m) && piece.Valid(m) && piece.slots == whole.slots
    requires ValidLane(m, whole, w) && |row| == m.dk && AllFit(xs, m.dk)
    requires whole.SlotOk(m, w.s) ==> (piece.UseInit(m, w.s) <==> whole.UseInit(m, w.s) || |xs| > 0)
    ensures whole.SlotOk(m, w.s) ==>
              Final(m, piece, w, RowAfter(m, whole, w, row, xs)) == RowAfter(m, whole, w, row, xs + Tokens(m, piece, w))
    ensures OutputsAfter(m, whole, w, row, xs) + LaneOutputs(m, piece, w, RowAfter(m, whole, w, row, xs)) ==
            OutputsAfter(m, whole, w, row, xs + Tokens(m, piece, w))
  {
    hide Model.Valid, Batch.Sized, Tokens, Run, Outputs;
    var ys, start := Tokens(m, piece, w), Initial(m, whole, w, row);
    RunConcat(start, xs, ys);
    RunNothing(start);
    if |xs| == 0 {
      assert xs == [] && xs + ys == ys;
    } else if |ys| == 0 {
      assert ys == [] && xs + ys == xs;
      RunNothing(Run(start, xs));
    }
  }

  lemma RunNothing(s: seq<real>)
    ensures Run(s, []) == s && Outputs(s, []) == []
  {
  }

  // ---------- composition of launches ----------

  /** A lane without tokens in this piece keeps its row: no lane of the piece has it. */
  lemma IdleRow(m: Model, whole: Batch, piece: Batch, w: Lane, before: seq<real>, now: seq<real>)
    requires whole.Valid(m) && piece.Valid(m) && piece.slots == whole.slots && SlotsApart(m, whole)
    requires forall s: nat | s < |whole.slots| && piece.Len(s) > 0 :: whole.Len(s) > 0
    requires ValidLane(m, whole, w) && Writes(m, whole, w) && !Writes(m, piece, w)
    requires |before| == |now| && StateSized(m, now)
    requires forall x: nat | x < |now| && Spared(m, piece, x) :: now[x] == before[x]
    ensures SlotRow(m, piece, w, now) == SlotRow(m, piece, w, before)
  {
    hide StateRow, Batch.Valid, Index;
    var R := StateRow(m, whole.slots[w.s], w.hv, w.d);
    StateRowIn(m, whole, w, now);
    forall x: nat | InRow(R, m.dk, x) ensures now[x] == before[x] {
      forall w': Lane | ValidLane(m, piece, w') ensures !Touches(m, piece, w', x) {
        if Touches(m, piece, w', x) {
          StatesApart(m, whole, w, w', x);
        }
      }
      assert Spared(m, piece, x);
    }
    assert Row(now, R, m.dk) == Row(before, R, m.dk);
  }

  /** A cell that no lane of the whole batch stores is not stored by a piece. */
  lemma SparedByPiece(m: Model, whole: Batch, piece: Batch, x: nat)
    requires whole.Valid(m) && piece.Valid(m) && piece.slots == whole.slots && Spared(m, whole, x)
    requires forall s: nat | s < |whole.slots| && piece.Len(s) > 0 :: whole.Len(s) > 0
    ensures Spared(m, piece, x)
  {
    hide StateRow, Batch.Valid, Index;
    forall w: Lane | ValidLane(m, piece, w) ensures !Touches(m, piece, w, x) {
      assert !Touches(m, whole, w, x);
    }
  }

  lemma {:induction false} BeforeGrows(m: Model, slots: seq<int>, pieces: seq<Batch>, j: nat, n: nat, s: nat)
    requires j < n <= |pieces| && SameSlots(m, slots, pieces) && s < |slots|
    ensures pieces[j].Len(s) <= Before(m, slots, pieces, n, s)
  {
    if j < n - 1 {
      BeforeGrows(m, slots, pieces, j, n - 1, s);
    }
  }

  /** A piece is no busier than the whole batch. */
  predicate Within(m: Model, whole: Batch, piece: Batch)
    requires whole.Valid(m)
  {
    piece.Valid(m) && piece.slots == whole.slots &&
    forall s: nat | s < |whole.slots| && piece.Len(s) > 0 :: whole.Len(s) > 0
  }

  lemma PieceWithin(m: Model, whole: Batch, pieces: seq<Batch>, j: nat)
    requires m.Valid() && whole.Valid(m) && Cuts(m, whole, pieces) && j < |pieces|
    ensures Within(m, whole, pieces[j]) && (SlotsApart(m, whole) ==> SlotsApart(m, pieces[j]))
  {
    hide Model.Valid, Batch.Sized;
    forall s: nat | s < |whole.slots| && pieces[j].Len(s) > 0 ensures whole.Len(s) > 0 {
      BeforeGrows(m, whole.slots, pieces, j, |pieces|, s);
    }
  }

  /** The lane's outputs over the first n pieces. */
  function Collected(m: Model, slots: seq<int>, pieces: seq<Batch>, outs: seq<seq<real>>, n: nat, w: Lane): seq<real>
    requires m.Valid() && n <= |pieces| && n <= |outs| && SameSlots(m, slots, pieces)
    requires w.s < |slots| && w.hv < m.Hv && w.d < m.dv && AllSized(m, slots, pieces, outs, n)
  {
    if n == 0 then []
    else
      assert OutSized(m, pieces[n - 1], outs[n - 1]);
      Collected(m, slots, pieces, outs, n - 1, w) + ReadOutputs(m, pieces[n - 1], w, outs[n - 1])
  }

  predicate AllSized(m: Model, slots: seq<int>, pieces: seq<Batch>, outs: seq<seq<real>>, n: nat)
    requires n <= |pieces| && n <= |outs| && SameSlots(m, slots, pieces)
  {
    forall i | 0 <= i < n :: OutSized(m, pieces[i], outs[i])
  }

  /** Lane w after n pieces. */
  ghost predicate Halfway(m: Model, whole: Batch, pieces: seq<Batch>, outs: seq<seq<real>>, n: nat, was: seq<real>, ssm: seq<real>, w: Lane)
    requires m.Valid() && whole.Valid(m) && n <= |pieces| && n <= |outs| && SameSlots(m, whole.slots, pieces)
    requires ValidLane(m, whole, w) && AllSized(m, whole.slots, pieces, outs, n) && StateSized(m, was) && StateSized(m, ssm)
  {
    var row, xs := SlotRow(m, whole, w, was), Joined(m, whole.slots, pieces, n, w);
    (Writes(m, whole, w) ==> SlotRow(m, whole, w, ssm) == RowAfter(m, whole, w, row, xs)) &&
    Collected(m, whole.slots, pieces, outs, n, w) == OutputsAfter(m, whole, w, row, xs)
  }

  lemma CollectedKept(m: Model, slots: seq<int>, pieces: seq<Batch>, outs: seq<seq<real>>, out: seq<real>, n: nat, w: Lane)
    requires m.Valid() && n <= |pieces| && n <= |outs| && SameSlots(m, slots, pieces)
    requires w.s < |slots| && w.hv < m.Hv && w.d < m.dv && AllSized(m, slots, pieces, outs, n)
    ensures AllSized(m, slots, pieces, outs + [out], n)
    ensures Collected(m, slots, pieces, outs + [out], n, w) == Collected(m, slots, pieces, outs, n, w)
  {
    if n > 0 {
      CollectedKept(m, slots, pieces, outs, out, n - 1, w);
    }
  }

  /** One more launch takes the lane's row one piece further. */
  lemma RowFurther(m: Model, whole: Batch, piece: Batch, w: Lane, row: seq<real>, xs: seq<Token>,
                   before: seq<real>, now: seq<real>, out: seq<real>)
    requires m.Valid() && whole.Valid(m) && Within(m, whole, piece) && SlotsApart(m, whole) && ValidLane(m, whole, w)
    requires |row| == m.dk && AllFit(xs, m.dk) && Writes(m, whole, w)
    requires piece.UseInit(m, w.s) <==> whole.UseInit(m, w.s) || |xs| > 0
    requires |before| == |now| && StateSized(m, before) && StateSized(m, now) && OutSized(m, piece, out)
    requires SlotRow(m, whole, w, before) == RowAfter(m, whole, w, row, xs)
    requires Ran(m, piece, w, before, now, out)
    requires forall x: nat | x < |now| && Spared(m, piece, x) :: now[x] == before[x]
    ensures SlotRow(m, whole, w, now) == RowAfter(m, whole, w, row, xs + Tokens(m, piece, w))
  {
    hide Model.Valid, Batch.Sized, Tokens, SlotRow, OutSized, StateSized, Spared, LaneOutputs, ReadOutputs, RowAfter, OutputsAfter;
    SameRows(m, whole, piece, w, before);
    SameRows(m, whole, piece, w, now);
    PieceCarriesOn(m, whole, piece, w, row, xs);
    if !Writes(m, piece, w) {
      IdleRow(m, whole, piece, w, before, now);
    }
  }

  /** And its outputs. */
  lemma OutputsFurther(m: Model, whole: Batch, piece: Batch, w: Lane, row: seq<real>, xs: seq<Token>,
                       before: seq<real>, now: seq<real>, out: seq<real>)
    requires m.Valid() && whole.Valid(m) && Within(m, whole, piece) && ValidLane(m, whole, w)
    requires |row| == m.dk && AllFit(xs, m.dk)
    requires whole.SlotOk(m, w.s) ==> (piece.UseInit(m, w.s) <==> whole.UseInit(m, w.s) || |xs| > 0)
    requires |before| == |now| && StateSized(m, before) && StateSized(m, now) && OutSized(m, piece, out)
    requires Writes(m, whole, w) ==> SlotRow(m, whole, w, before) == RowAfter(m, whole, w, row, xs)
    requires Ran(m, piece, w, before, now, out)
    ensures OutputsAfter(m, whole, w, row, xs) + ReadOutputs(m, piece, w, out) ==
            OutputsAfter(m, whole, w, row, xs + Tokens(m, piece, w))
  {
    hide Model.Valid, Batch.Sized, Tokens, SlotRow, OutSized, StateSized, LaneOutputs, ReadOutputs, RowAfter, OutputsAfter, Final;
    SameRows(m, whole, piece, w, before);
    PieceCarriesOn(m, whole, piece, w, row, xs);
    if !Writes(m, whole, w) {
      IdleOutputs(m, piece, w, SlotRow(m, piece, w, before), RowAfter(m, whole, w, row, xs));
    }
  }

  /** One more launch takes lane w one piece further. */
  lemma LaneFurther(m: Model, whole: Batch, pieces: seq<Batch>, outs: seq<seq<real>>, n: nat, was: seq<real>,
                    before: seq<real>, now: seq<real>, out: seq<real>, w: Lane)
    requires m.Valid() && whole.Valid(m) && n < |pieces| && n == |outs| && Cuts(m, whole, pieces) && SlotsApart(m, whole)
    requires ValidLane(m, whole, w) && AllSized(m, whole.slots, pieces, outs, n) && StateSized(m, was)
    requires |before| == |now| && StateSized(m, before) && StateSized(m, now) && OutSized(m, pieces[n], out)
    requires Halfway(m, whole, pieces, outs, n, was, before, w)
    requires ValidLane(m, pieces[n], w) && Ran(m, pieces[n], w, before, now, out)
    requires forall x: nat | x < |now| && Spared(m, pieces[n], x) :: now[x] == before[x]
    ensures AllSized(m, whole.slots, pieces, outs + [out], n + 1)
    ensures Halfway(m, whole, pieces, outs + [out], n + 1, was, now, w)
  {
    hide Model.Valid, Batch.Valid, Tokens, SlotRow, OutSized, StateSized, Spared, ReadOutputs, RowAfter, OutputsAfter, Ran,
         SlotsApart, Within, Writes;
    var piece, row, xs := pieces[n], SlotRow(m, whole, w, was), Joined(m, whole.slots, pieces, n, w);
    PieceWithin(m, whole, pieces, n);
    CollectedKept(m, whole.slots, pieces, outs, out, n, w);
    assert StartsRight(m, whole, pieces, n, w.s);
    assert Joined(m, whole.slots, pieces, n + 1, w) == xs + Tokens(m, piece, w);
    hide Joined, Before, Cuts;
    WritesHasSlot(m, whole, w);
    OutputsFurther(m, whole, piece, w, row, xs, before, now, out);
    if Writes(m, whole, w) {
      RowFurther(m, whole, piece, w, row, xs, before, now, out);
    }
  }

  lemma WritesHasSlot(m: Model, whole: Batch, w: Lane)
    requires whole.Valid(m) && ValidLane(m, whole, w)
    ensures Writes(m, whole, w) ==> whole.SlotOk(m, w.s)
  {
  }

  lemma SameRows(m: Model, whole: Batch, piece: Batch, w: Lane, ssm: seq<real>)
    requires whole.Valid(m) && piece.Valid(m) && piece.slots == whole.slots && ValidLane(m, whole, w) && StateSized(m, ssm)
    ensures SlotRow(m, whole, w, ssm) == SlotRow(m, piece, w, ssm)
  {
    hide StateRow, Batch.Sized, StateSized, Index;
  }

  /** All lanes, and the cells of no lane, after n pieces. */
  ghost predicate Reached(m: Model, whole: Batch, pieces: seq<Batch>, outs: seq<seq<real>>, n: nat, was: seq<real>, ssm: seq<real>)
    requires m.Valid() && whole.Valid(m) && n <= |pieces| && SameSlots(m, whole.slots, pieces)
  {
    n == |outs| && AllSized(m, whole.slots, pieces, outs, n) && StateSized(m, was) && |ssm| == |was| &&
    (forall w: Lane | ValidLane(m, whole, w) :: Halfway(m, whole, pieces, outs, n, was, ssm, w)) &&
    (forall x: nat | x < |ssm| && Spared(m, whole, x) :: ssm[x] == was[x])
  }

  lemma PieceDone(m: Model, whole: Batch, pieces: seq<Batch>, outs: seq<seq<real>>, n: nat, was: seq<real>,
                  before: seq<real>, now: seq<real>, out: seq<real>)
    requires m.Valid() && whole.Valid(m) && n < |pieces| && Cuts(m, whole, pieces) && SlotsApart(m, whole)
    requires Reached(m, whole, pieces, outs, n, was, before)
    requires |before| == |now| && OutSized(m, pieces[n], out)
    requires forall w: Lane | ValidLane(m, pieces[n], w) :: Ran(m, pieces[n], w, before, now, out)
    requires forall x: nat | x < |now| && Spared(m, pieces[n], x) :: now[x] == before[x]
    ensures Reached(m, whole, pieces, outs + [out], n + 1, was, now)
  {
    PieceWithin(m, whole, pieces, n);
    hide Model.Valid, Batch.Valid, Batch.Sized, Halfway, Ran, Spared, OutSized;
    forall w: Lane | ValidLane(m, whole, w)
      ensures AllSized(m, whole.slots, pieces, outs + [out], n + 1)
      ensures Halfway(m, whole, pieces, outs + [out], n + 1, was, now, w)
    {
      assert ValidLane(m, pieces[n], w);
      LaneFurther(m, whole, pieces, outs, n, was, before, now, out, w);
    }
    forall x: nat | x < |now| && Spared(m, whole, x) ensures now[x] == was[x] {
      SparedByPiece(m, whole, pieces[n], x);
    }
  }

  /** Calling on the pieces in order leaves the state that one call on the whole batch
      leaves, emits the same outputs, and spares the same cells, whatever order each
      launch runs its lanes in. */
  method RunPieces(m: Model, whole: Batch, pieces: seq<Batch>, ssm: array<real>, orders: seq<seq<Lane>>)
    returns (outs: seq<seq<real>>)
    requires m.Valid() && whole.Valid(m) && Cuts(m, whole, pieces) && SlotsApart(m, whole) && StateSized(m, ssm[..])
    requires |orders| == |pieces| && forall n | 0 <= n < |pieces| :: Schedule(m, pieces[n], orders[n])
    modifies ssm
    ensures |outs| == |pieces| && AllSized(m, whole.slots, pieces, outs, |pieces|)
    ensures forall w: Lane | ValidLane(m, whole, w) :: Equivalent(m, whole, pieces, outs, old(ssm[..]), ssm[..], w)
    ensures forall x: nat | x < ssm.Length && Spared(m, whole, x) :: ssm[x] == old(ssm[x])
  {
    hide Model.Valid, Batch.Valid, SlotsApart, Ran, Spared, OutSized, StateSized, Reached, Cuts, Schedule, Equivalent, AllSized;
    ghost var was := ssm[..];
    outs := [];
    CutsAreSlots(m, whole, pieces);
    NothingReached(m, whole, pieces, was);
    for n := 0 to |pieces|
      invariant SameSlots(m, whole.slots, pieces)
      invariant Reached(m, whole, pieces, outs, n, was, ssm[..]) && StateSized(m, ssm[..])
    {
      PieceWithin(m, whole, pieces, n);
      var piece := pieces[n];
      var out := NewOutput(m, piece);
      ghost var before := ssm[..];
      Launch(m, piece, ssm, out, orders[n]);
      PieceDone(m, whole, pieces, outs, n, was, before, ssm[..], out[..]);
      outs := outs + [out[..]];
    }
    AllReached(m, whole, pieces, outs, was, ssm[..]);
  }

  /** Row and outputs of lane w are those of one call on the whole batch. */
  predicate Equivalent(m: Model, whole: Batch, pieces: seq<Batch>, outs: seq<seq<real>>, was: seq<real>, ssm: seq<real>, w: Lane)
    requires m.Valid() && whole.Valid(m) && |outs| == |pieces| && SameSlots(m, whole.slots, pieces)
    requires AllSized(m, whole.slots, pieces, outs, |pieces|) && ValidLane(m, whole, w)
    requires StateSized(m, was) && StateSized(m, ssm)
  {
    (Writes(m, whole, w) ==> SlotRow(m, whole, w, ssm) == Final(m, whole, w, SlotRow(m, whole, w, was))) &&
    Collected(m, whole.slots, pieces, outs, |pieces|, w) == LaneOutputs(m, whole, w, SlotRow(m, whole, w, was))
  }

  method NewOutput(m: Model, piece: Batch) returns (out: array<real>)
    requires piece.Valid(m)
    ensures fresh(out) && OutSized(m, piece, out[..])
  {
    out := new real[piece.cu[|piece.slots|] * m.Hv * m.dv];
  }

  lemma CutsAreSlots(m: Model, whole: Batch, pieces: seq<Batch>)
    requires m.Valid() && whole.Valid(m) && Cuts(m, whole, pieces)
    ensures SameSlots(m, whole.slots, pieces)
  {
  }

  lemma NothingReached(m: Model, whole: Batch, pieces: seq<Batch>, was: seq<real>)
    requires m.Valid() && whole.Valid(m) && SameSlots(m, whole.slots, pieces) && StateSized(m, was)
    ensures Reached(m, whole, pieces, [], 0, was, was)
  {
    hide Model.Valid, Batch.Sized, SlotRow;
  }

  lemma AllReached(m: Model, whole: Batch, pieces: seq<Batch>, outs: seq<seq<real>>, was: seq<real>, ssm: seq<real>)
    requires m.Valid() && whole.Valid(m) && Cuts(m, whole, pieces) && Reached(m, whole, pieces, outs, |pieces|, was, ssm)
    ensures |outs| == |pieces| && AllSized(m, whole.slots, pieces, outs, |pieces|) && StateSized(m, was) && |ssm| == |was|
    ensures forall w: Lane | ValidLane(m, whole, w) :: Equivalent(m, whole, pieces, outs, was, ssm, w)
    ensures forall x: nat | x < |ssm| && Spared(m, whole, x) :: ssm[x] == was[x]
  {
    hide Model.Valid, Batch.Sized, SlotRow, Tokens, Spared;
    forall w: Lane | ValidLane(m, whole, w) ensures Equivalent(m, whole, pieces, outs, was, ssm, w) {
      assert Halfway(m, whole, pieces, outs, |pieces|, was, ssm, w);
    }
  }

  // ---------- cutting one sequence ----------

  /** Tokens from..to of the one sequence of `whole`, continuing from the slot unless they
      are the first. */
  function Cut(whole: Batch, from: nat, to: nat): Batch
    requires |whole.cu| == 2
  {
    whole.(cu := [from, to], hasInitial := if from == whole.cu[0] then whole.hasInitial else Some([true]))
  }

  function CutAt(whole: Batch, cuts: seq<nat>): (pieces: seq<Batch>)
    requires |whole.cu| == 2 && |cuts| > 0
    ensures |pieces| == |cuts| - 1 && forall i {:trigger pieces[i]} | 0 <= i < |pieces| :: pieces[i] == Cut(whole, cuts[i], cuts[i + 1])
  {
    seq(|cuts| - 1, i requires 0 <= i < |cuts| - 1 => Cut(whole, cuts[i], cuts[i + 1]))
  }

  /** Cut points of a sequence: from its first token to its end, never backwards. */
  predicate CutPoints(whole: Batch, cuts: seq<nat>)
    requires |whole.cu| == 2
  {
    |cuts| > 0 && cuts[0] == whole.cu[0] && cuts[|cuts| - 1] == whole.cu[1] &&
    forall i, j | 0 <= i <= j < |cuts| :: cuts[i] <= cuts[j]
  }

  lemma CutValid(m: Model, whole: Batch, from: nat, to: nat)
    requires whole.Valid(m) && |whole.slots| == 1 && whole.cu[0] <= from <= to <= whole.cu[1]
    ensures Cut(whole, from, to).Valid(m)
  {
    Division.MulMono(to, whole.cu[1], m.Hk);
    Division.MulMono(to * m.Hk, whole.cu[1] * m.Hk, m.dk);
    Division.MulMono(to, whole.cu[1], m.Hv);
    Division.MulMono(to * m.Hv, whole.cu[1] * m.Hv, m.dv);
  }

  /** A piece holds the whole's tokens, shifted. */
  lemma CutTokens(m: Model, whole: Batch, from: nat, to: nat, w: Lane)
    requires m.Valid() && whole.Valid(m) && |whole.slots| == 1 && whole.cu[0] <= from <= to <= whole.cu[1]
    requires ValidLane(m, whole, w)
    ensures Cut(whole, from, to).Valid(m)
    ensures Tokens(m, Cut(whole, from, to), w) == Tokens(m, whole, w)[from - whole.cu[0]..to - whole.cu[0]]
  {
    CutValid(m, whole, from, to);
    hide Model.Valid, Batch.Sized, Index;
    var piece := Cut(whole, from, to);
    forall i: nat | i < to - from
      ensures TokenOf(m, piece, w, i) == TokenOf(m, whole, w, from - whole.cu[0] + i)
    {
      SameToken(m, whole, piece, from + i, w.hv, w.d);
    }
  }

  lemma SameToken(m: Model, B: Batch, B': Batch, t: nat, hv: nat, d: nat)
    requires m.Valid() && B.Valid(m) && B'.Valid(m) && t < B.cu[|B.slots|] && t < B'.cu[|B'.slots|] && hv < m.Hv && d < m.dv
    requires B.q == B'.q && B.k == B'.k && B.v == B'.v && B.a == B'.a && B.b == B'.b
    ensures TokenAt(m, B, t, hv, d) == TokenAt(m, B', t, hv, d)
  {
    hide Index, OutCell, Batch.Sized;
  }

  lemma SliceOneMore<T>(xs: seq<T>, a: nat, b: nat)
    requires a <= b <= |xs|
    ensures xs[..b] == xs[..a] + xs[a..b]
  {
  }

  lemma PieceBetween(whole: Batch, cuts: seq<nat>, pieces: seq<Batch>, n: nat)
    requires |whole.cu| == 2 && CutPoints(whole, cuts) && n < |cuts| && pieces == CutAt(whole, cuts)
    ensures cuts[0] == whole.cu[0] <= cuts[n] <= whole.cu[1]
    ensures n > 0 ==> cuts[n - 1] <= cuts[n] && pieces[n - 1] == Cut(whole, cuts[n - 1], cuts[n])
  {
  }

  lemma {:induction false} CutsJoin(m: Model, whole: Batch, cuts: seq<nat>, pieces: seq<Batch>, n: nat, w: Lane)
    requires m.Valid() && whole.Valid(m) && |whole.slots| == 1 && CutPoints(whole, cuts) && n < |cuts|
    requires ValidLane(m, whole, w) && pieces == CutAt(whole, cuts) && SameSlots(m, whole.slots, pieces)
    ensures whole.cu[0] <= cuts[n] && cuts[n] - whole.cu[0] <= |Tokens(m, whole, w)|
    ensures Joined(m, whole.slots, pieces, n, w) == Tokens(m, whole, w)[..cuts[n] - whole.cu[0]]
  {
    hide Model.Valid, Batch.Sized, Tokens, Cut, CutAt, CutPoints, SameSlots;
    PieceBetween(whole, cuts, pieces, n);
    if n > 0 {
      CutsJoin(m, whole, cuts, pieces, n - 1, w);
      CutTokens(m, whole, cuts[n - 1], cuts[n], w);
      SliceOneMore(Tokens(m, whole, w), cuts[n - 1] - whole.cu[0], cuts[n] - whole.cu[0]);
    }
  }

  lemma {:induction false} CutsCount(m: Model, whole: Batch, cuts: seq<nat>, pieces: seq<Batch>, n: nat)
    requires whole.Valid(m) && |whole.slots| == 1 && CutPoints(whole, cuts) && n < |cuts|
    requires pieces == CutAt(whole, cuts) && SameSlots(m, whole.slots, pieces)
    ensures Before(m, whole.slots, pieces, n, 0) == cuts[n] - whole.cu[0]
  {
    hide Batch.Sized;
    if n > 0 {
      CutsCount(m, whole, cuts, pieces, n - 1);
    }
  }

  lemma CutStarts(m: Model, whole: Batch, cuts: seq<nat>, pieces: seq<Batch>, n: nat)
    requires whole.Valid(m) && |whole.slots| == 1 && CutPoints(whole, cuts) && n < |pieces|
    requires pieces == CutAt(whole, cuts) && SameSlots(m, whole.slots, pieces)
    ensures StartsRight(m, whole, pieces, n, 0)
  {
    CutsCount(m, whole, cuts, pieces, n);
    assert pieces[n] == Cut(whole, cuts[n], cuts[n + 1]);
    hide Batch.Sized, CutAt;
  }

  lemma CutsSameSlots(m: Model, whole: Batch, cuts: seq<nat>, pieces: seq<Batch>)
    requires whole.Valid(m) && |whole.slots| == 1 && CutPoints(whole, cuts) && pieces == CutAt(whole, cuts)
    ensures SameSlots(m, whole.slots, pieces)
  {
    hide Batch.Sized, CutAt, CutPoints;
    forall i | 0 <= i < |pieces| ensures pieces[i].Valid(m) && pieces[i].slots == whole.slots {
      PieceBetween(whole, cuts, pieces, i);
      PieceBetween(whole, cuts, pieces, i + 1);
      CutValid(m, whole, cuts[i], cuts[i + 1]);
    }
  }

  /** One sequence may be cut at any points: two calls, or one call per token. */
  lemma OneSequenceCuts(m: Model, whole: Batch, cuts: seq<nat>)
    requires m.Valid() && whole.Valid(m) && |whole.slots| == 1 && CutPoints(whole, cuts)
    ensures Cuts(m, whole, CutAt(whole, cuts))
  {
    var pieces := CutAt(whole, cuts);
    hide Model.Valid, Batch.Sized, Tokens, CutAt, CutPoints, StartsRight, SameSlots;
    PieceBetween(whole, cuts, pieces, |pieces|);
    CutsSameSlots(m, whole, cuts, pieces);
    CutsCount(m, whole, cuts, pieces, |pieces|);
    LastCut(whole, cuts);
    hide Batch.Valid;
    forall w: Lane | ValidLane(m, whole, w) ensures Joined(m, whole.slots, pieces, |pieces|, w) == Tokens(m, whole, w) {
      CutsJoin(m, whole, cuts, pieces, |pieces|, w);
    }
    forall n: nat | n < |pieces| ensures StartsRight(m, whole, pieces, n, 0) {
      CutStarts(m, whole, cuts, pieces, n);
    }
  }

  lemma LastCut(whole: Batch, cuts: seq<nat>)
    requires |whole.cu| == 2 && CutPoints(whole, cuts)
    ensures cuts[|cuts| - 1] == whole.cu[1]
  {
  }
}
