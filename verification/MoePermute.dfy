/** The permute and unpermute kernels. Every launch is run under an arbitrary
    interleaving of its work-items: a schedule is a sequence of work-item ids, and the
    k-th occurrence of an id executes the k-th instruction of that work-item. */
module MoePermute {
  import opened MoeRouting

  // ---------- histogram ----------

  /** Pairs below n of expert e whose work-item has executed its atomic. */
  function Taken(ids: seq<int>, pcs: seq<nat>, e: nat, n: nat): nat
    requires n <= |ids| && n <= |pcs|
  {
    if n == 0 then 0
    else Taken(ids, pcs, e, n - 1) + if ids[n - 1] == e && pcs[n - 1] > 0 then 1 else 0
  }

  lemma {:induction false} TakenAfter(ids: seq<int>, pcs: seq<nat>, e: nat, n: nat, p: nat, pc: nat)
    requires n <= |ids| && |ids| == |pcs| && p < |pcs| && pc > 0
    ensures Taken(ids, pcs[p := pc], e, n) ==
            Taken(ids, pcs, e, n) + if p < n && pcs[p] == 0 && ids[p] == e then 1 else 0
  {
    if n > 0 {
      TakenAfter(ids, pcs, e, n - 1, p, pc);
    }
  }

  lemma {:induction false} TakenNone(ids: seq<int>, pcs: seq<nat>, e: nat, n: nat)
    requires n <= |ids| && n <= |pcs| && forall p | 0 <= p < n :: pcs[p] == 0
    ensures Taken(ids, pcs, e, n) == 0
  {
    if n > 0 {
      TakenNone(ids, pcs, e, n - 1);
    }
  }

  lemma {:induction false} TakenAtMost(ids: seq<int>, pcs: seq<nat>, r: Routing, e: nat, n: nat)
    requires ids == r.ids && n <= |ids| && n <= |pcs|
    ensures Taken(ids, pcs, e, n) <= r.CountBelow(e, n)
    ensures (forall p | 0 <= p < n :: pcs[p] > 0) ==> Taken(ids, pcs, e, n) == r.CountBelow(e, n)
    ensures (exists p: nat :: p < n && ids[p] == e && pcs[p] == 0) ==> Taken(ids, pcs, e, n) < r.CountBelow(e, n)
  {
    if n > 0 {
      TakenAtMost(ids, pcs, r, e, n - 1);
    }
  }

  /** The zeroing and counting kernels, under any interleaving of the atomic increments. */
  method CountRows(r: Routing, rows: array<nat>, schedule: seq<nat>)
    requires rows.Length == r.nExperts
    requires forall p: nat | p < |r.ids| :: p in schedule
    modifies rows
    ensures rows[..] == r.Counts()
  {
    for e := 0 to r.nExperts
      invariant forall d | 0 <= d < e :: rows[d] == 0
    {
      rows[e] := 0;
    }
    var pcs: array<nat> := new nat[|r.ids|](_ => 0);
    forall e: nat | e < r.nExperts ensures Taken(r.ids, pcs[..], e, |r.ids|) == 0 {
      TakenNone(r.ids, pcs[..], e, |r.ids|);
    }
    for k := 0 to |schedule|
      invariant forall e: nat | e < r.nExperts :: rows[e] == Taken(r.ids, pcs[..], e, |r.ids|)
      invariant forall p: nat | p < |r.ids| && p in schedule[..k] :: pcs[p] > 0
    {
      var p := schedule[k];
      if p < |r.ids| && pcs[p] == 0 {
        forall e: nat | e < r.nExperts
          ensures Taken(r.ids, pcs[..][p := 1], e, |r.ids|) ==
                  Taken(r.ids, pcs[..], e, |r.ids|) + if r.ids[p] == e then 1 else 0
        {
          TakenAfter(r.ids, pcs[..], e, |r.ids|, p, 1);
        }
        ghost var before := pcs[..];
        if 0 <= r.ids[p] < r.nExperts {
          rows[r.ids[p]] := rows[r.ids[p]] + 1;
        }
        pcs[p] := 1;
        assert pcs[..] == before[p := 1];
      }
    }
    assert schedule[..|schedule|] == schedule;
    forall e: nat | e < r.nExperts ensures rows[e] == r.Count(e) {
      TakenAtMost(r.ids, pcs[..], r, e, |r.ids|);
    }
  }

  /** The single-work-item exclusive prefix scan. */
  method Scan(rows: array<nat>, cursors: array<nat>)
    requires rows != cursors && rows.Length == cursors.Length
    modifies cursors
    ensures forall e: nat | e < rows.Length :: cursors[e] == Prefix(rows[..], e)
  {
    var acc := 0;
    for e := 0 to rows.Length
      invariant acc == Prefix(rows[..], e)
      invariant forall d: nat | d < e :: cursors[d] == Prefix(rows[..], d)
    {
      cursors[e] := acc;
      acc := acc + rows[e];
    }
  }

  // ---------- scatter ----------

  /** Instructions of work-item p: claim a row, record it, copy the hidden row element
      by element; a skipped pair only records -1. */
  function Length(r: Routing, hiddenDim: nat, p: nat): nat {
    if r.Routed(p) then 2 + hiddenDim else 1
  }

  function Occurrences(schedule: seq<nat>, p: nat): nat {
    if |schedule| == 0 then 0
    else Occurrences(schedule[..|schedule| - 1], p) + if schedule[|schedule| - 1] == p then 1 else 0
  }

  /** Every work-item runs to its end. */
  ghost predicate Completes(r: Routing, hiddenDim: nat, schedule: seq<nat>) {
    forall p: nat | p < |r.ids| :: Occurrences(schedule, p) >= Length(r, hiddenDim, p)
  }

  /** Each cursor stands at the start of its segment plus the claims made. */
  ghost predicate CursorsOk(r: Routing, rows: seq<nat>, cursors: seq<nat>, pcs: seq<nat>)
    requires |rows| == |cursors| == r.nExperts && |pcs| == |r.ids|
  {
    forall e: nat | e < r.nExperts :: cursors[e] == Prefix(rows, e) + Taken(r.ids, pcs, e, |r.ids|)
  }

  /** A row that expert e's cursor has handed out. */
  predicate HandedOut(rows: seq<nat>, cursors: seq<nat>, e: nat, s: nat)
    requires |rows| == |cursors|
  {
    e < |rows| && Prefix(rows, e) <= s < cursors[e]
  }

  /** Which claimed rows belong to whom: `owner` inverts dst on the rows handed out. */
  ghost predicate OwnersOk(r: Routing, rows: seq<nat>, cursors: seq<nat>, pcs: seq<nat>, dst: seq<nat>, owner: map<nat, nat>)
    requires |rows| == |cursors| == r.nExperts && |pcs| == |dst| == |r.ids|
  {
    && (forall p: nat | p < |r.ids| && r.Routed(p) && pcs[p] > 0 ::
          HandedOut(rows, cursors, r.ids[p], dst[p]) && dst[p] in owner && owner[dst[p]] == p)
    && (forall e: nat, s: nat | HandedOut(rows, cursors, e, s) ::
          && s in owner && owner[s] < |r.ids| && r.ids[owner[s]] == e && pcs[owner[s]] > 0
          && dst[owner[s]] == s)
    && (forall s: nat | s in owner :: exists e: nat :: HandedOut(rows, cursors, e, s))
  }

  ghost predicate Claims(r: Routing, rows: seq<nat>, cursors: seq<nat>, pcs: seq<nat>, dst: seq<nat>, owner: map<nat, nat>)
    requires |rows| == |cursors| == r.nExperts && |pcs| == |dst| == |r.ids|
  {
    CursorsOk(r, rows, cursors, pcs) && OwnersOk(r, rows, cursors, pcs, dst, owner)
  }

  /** What the executed instructions have written. */
  ghost predicate Written<T>(r: Routing, hiddenDim: nat, hidden: (nat, nat) -> T, pcs: seq<nat>, dst: seq<nat>,
                             rowMap: seq<int>, permuted: array2<T>)
    requires |pcs| == |dst| == |r.ids| == |rowMap|
    reads permuted
  {
    && (forall p: nat | p < |r.ids| && !r.Routed(p) && pcs[p] > 0 :: rowMap[p] == -1)
    && (forall p: nat | p < |r.ids| && r.Routed(p) && pcs[p] > 1 :: rowMap[p] == dst[p])
    && (forall p: nat, i: nat | p < |r.ids| && r.Routed(p) && pcs[p] > 2 + i && i < hiddenDim
          && dst[p] < permuted.Length0 && i < permuted.Length1 ::
          permuted[dst[p], i] == hidden(r.Token(p), i))
  }

  /** No cursor runs past its segment, and one with a pair still to come stays inside. */
  lemma CursorsInside(r: Routing, cursors: seq<nat>, pcs: seq<nat>, e: nat)
    requires |cursors| == r.nExperts && |pcs| == |r.ids| && e < r.nExperts
    requires CursorsOk(r, r.Counts(), cursors, pcs)
    ensures Prefix(r.Counts(), e) <= cursors[e] <= Prefix(r.Counts(), e + 1)
    ensures (exists p: nat :: p < |r.ids| && r.ids[p] == e && pcs[p] == 0) ==> cursors[e] < Prefix(r.Counts(), e + 1)
    ensures (forall p: nat | p < |r.ids| :: pcs[p] > 0) ==> cursors[e] == Prefix(r.Counts(), e + 1)
  {
    TakenAtMost(r.ids, pcs, r, e, |r.ids|);
  }

  /** The row that the next fetch_add on e's cursor returns was never handed out. */
  lemma NextRowIsFresh(r: Routing, cursors: seq<nat>, pcs: seq<nat>, p: nat, d: nat)
    requires |cursors| == r.nExperts && |pcs| == |r.ids|
    requires CursorsOk(r, r.Counts(), cursors, pcs)
    requires p < |r.ids| && r.Routed(p) && pcs[p] == 0
    ensures InSegment(r.Counts(), r.ids[p], cursors[r.ids[p]])
    ensures !HandedOut(r.Counts(), cursors, d, cursors[r.ids[p]])
  {
    var e, s := r.ids[p], cursors[r.ids[p]];
    CursorsInside(r, cursors, pcs, e);
    if HandedOut(r.Counts(), cursors, d, s) {
      CursorsInside(r, cursors, pcs, d);
      SegmentUnique(r.Counts(), d, e, s);
    }
  }

  lemma CursorsAfterClaim(r: Routing, cursors: seq<nat>, pcs: seq<nat>, p: nat)
    requires |cursors| == r.nExperts && |pcs| == |r.ids|
    requires CursorsOk(r, r.Counts(), cursors, pcs)
    requires p < |r.ids| && r.Routed(p) && pcs[p] == 0
    ensures CursorsOk(r, r.Counts(), cursors[r.ids[p] := cursors[r.ids[p]] + 1], pcs[p := 1])
  {
    forall d: nat | d < r.nExperts
      ensures Taken(r.ids, pcs[p := 1], d, |r.ids|) == Taken(r.ids, pcs, d, |r.ids|) + if r.ids[p] == d then 1 else 0
    {
      TakenAfter(r.ids, pcs, d, |r.ids|, p, 1);
    }
  }

  /** A fetch_add on the expert's cursor hands out a fresh row of its segment. */
  lemma ClaimKeeps(r: Routing, cursors: seq<nat>, pcs: seq<nat>, dst: seq<nat>, owner: map<nat, nat>, p: nat)
    requires |cursors| == r.nExperts && |pcs| == |dst| == |r.ids|
    requires Claims(r, r.Counts(), cursors, pcs, dst, owner)
    requires p < |r.ids| && r.Routed(p) && pcs[p] == 0
    ensures var e, s := r.ids[p], cursors[r.ids[p]];
            && InSegment(r.Counts(), e, s) && s !in owner
            && Claims(r, r.Counts(), cursors[e := s + 1], pcs[p := 1], dst[p := s], owner[s := p])
  {
    hide Prefix, Taken;
    var rows := r.Counts();
    var e, s := r.ids[p], cursors[r.ids[p]];
    NextRowIsFresh(r, cursors, pcs, p, e);
    forall d: nat ensures !HandedOut(rows, cursors, d, s) {
      NextRowIsFresh(r, cursors, pcs, p, d);
    }
    CursorsAfterClaim(r, cursors, pcs, p);
    var cursors', owner' := cursors[e := s + 1], owner[s := p];
    forall d: nat, x: nat
      ensures HandedOut(rows, cursors', d, x) <==> HandedOut(rows, cursors, d, x) || (d == e && x == s)
    {
    }
    assert HandedOut(rows, cursors', e, s);
    forall x: nat | x in owner'
      ensures exists d: nat :: HandedOut(rows, cursors', d, x)
    {
      if x != s {
        var d: nat :| HandedOut(rows, cursors, d, x);
        assert HandedOut(rows, cursors', d, x);
      }
    }
  }

  /** Later instructions of a work-item leave the claims alone. */
  lemma AdvanceKeeps(r: Routing, cursors: seq<nat>, pcs: seq<nat>, dst: seq<nat>, owner: map<nat, nat>, p: nat)
    requires |cursors| == r.nExperts && |pcs| == |dst| == |r.ids|
    requires Claims(r, r.Counts(), cursors, pcs, dst, owner)
    requires p < |r.ids| && (pcs[p] > 0 || !r.Routed(p))
    ensures Claims(r, r.Counts(), cursors, pcs[p := pcs[p] + 1], dst, owner)
  {
    forall e: nat | e < r.nExperts
      ensures Taken(r.ids, pcs[p := pcs[p] + 1], e, |r.ids|) == Taken(r.ids, pcs, e, |r.ids|)
    {
      TakenAfter(r.ids, pcs, e, |r.ids|, p, pcs[p] + 1);
    }
  }

  /** Some routed pair was mapped to row s. */
  ghost predicate Filled(r: Routing, rowMap: seq<int>, s: nat)
    requires |rowMap| == |r.ids|
  {
    exists p: nat :: p < |r.ids| && r.Routed(p) && rowMap[p] == s
  }

  /** The outcome of the permute kernels, whatever the race: row_map is a bijection
      from the routed pairs onto the rows, each expert's pairs fill its own contiguous
      segment, skipped pairs map to -1, and every claimed row holds the hidden row of
      the pair's token. */
  ghost predicate Permuted<T>(r: Routing, hiddenDim: nat, hidden: (nat, nat) -> T, rowMap: seq<int>, permuted: array2<T>)
    requires |rowMap| == |r.ids|
    reads permuted
  {
    var rows := r.Counts();
    && permuted.Length0 >= Prefix(rows, r.nExperts) && permuted.Length1 == hiddenDim
    && (forall p: nat | p < |r.ids| && !r.Routed(p) :: rowMap[p] == -1)
    && (forall p: nat | p < |r.ids| && r.Routed(p) ::
          rowMap[p] >= 0 && InSegment(rows, r.ids[p], rowMap[p]))
    && (forall p: nat, q: nat | p < |r.ids| && q < |r.ids| && r.Routed(p) && r.Routed(q) && rowMap[p] == rowMap[q] :: p == q)
    && (forall s: nat | s < Prefix(rows, r.nExperts) :: Filled(r, rowMap, s))
    && (forall p: nat, i: nat | p < |r.ids| && r.Routed(p) && i < hiddenDim
          && 0 <= rowMap[p] < permuted.Length0 ::
          permuted[rowMap[p], i] == hidden(r.Token(p), i))
  }

  lemma SegmentsInRange(rows: seq<nat>, e: nat, s: nat)
    requires InSegment(rows, e, s)
    ensures s < Prefix(rows, |rows|)
  {
    PrefixMonotone(rows, e + 1, |rows|);
  }

  lemma {:induction false} OccurrencesStep(schedule: seq<nat>, k: nat, p: nat)
    requires k < |schedule|
    ensures Occurrences(schedule[..k + 1], p) == Occurrences(schedule[..k], p) + if schedule[k] == p then 1 else 0
  {
    assert schedule[..k + 1][..k] == schedule[..k];
  }

  lemma NothingRun<T>(r: Routing, hiddenDim: nat, hidden: (nat, nat) -> T, cursors: array<nat>,
                      rowMap: array<int>, permuted: array2<T>, pcs: array<nat>, dst: array<nat>)
    requires r.Shaped() && cursors.Length == r.nExperts && rowMap.Length == pcs.Length == dst.Length == |r.ids|
    requires cursors != pcs && cursors != dst && pcs != dst
    requires forall e: nat | e < r.nExperts :: cursors[e] == Prefix(r.Counts(), e)
    requires permuted.Length0 >= Prefix(r.Counts(), r.nExperts) && permuted.Length1 == hiddenDim
    requires forall p | 0 <= p < |r.ids| :: pcs[p] == 0
    ensures Running(r, hiddenDim, hidden, cursors, rowMap, permuted, pcs, dst, map[])
  {
    forall e: nat | e < r.nExperts ensures Taken(r.ids, pcs[..], e, |r.ids|) == 0 {
      TakenNone(r.ids, pcs[..], e, |r.ids|);
    }
  }

  /** The scatter kernel under any interleaving of its work-items' instructions. */
  method Scatter<T>(r: Routing, hiddenDim: nat, hidden: (nat, nat) -> T, cursors: array<nat>,
                    rowMap: array<int>, permuted: array2<T>, schedule: seq<nat>)
    requires r.Shaped() && Completes(r, hiddenDim, schedule)
    requires cursors.Length == r.nExperts && rowMap.Length == |r.ids|
    requires forall e: nat | e < r.nExperts :: cursors[e] == Prefix(r.Counts(), e)
    requires permuted.Length0 >= Prefix(r.Counts(), r.nExperts) && permuted.Length1 == hiddenDim
    modifies cursors, rowMap, permuted
    ensures Permuted(r, hiddenDim, hidden, rowMap[..], permuted)
  {
    var pcs: array<nat> := new nat[|r.ids|](_ => 0);
    var dst: array<nat> := new nat[|r.ids|](_ => 0);
    ghost var owner: map<nat, nat> := map[];
    NothingRun(r, hiddenDim, hidden, cursors, rowMap, permuted, pcs, dst);
    hide Running, Length, Occurrences, Permuted, Prefix;
    for k := 0 to |schedule|
      invariant Running(r, hiddenDim, hidden, cursors, rowMap, permuted, pcs, dst, owner)
      invariant forall p: nat | p < |r.ids| ::
                  pcs[p] >= Length(r, hiddenDim, p) || pcs[p] == Occurrences(schedule[..k], p)
    {
      var p := schedule[k];
      forall q: nat ensures Occurrences(schedule[..k + 1], q) == Occurrences(schedule[..k], q) + if p == q then 1 else 0 {
        OccurrencesStep(schedule, k, q);
      }
      if p < |r.ids| && pcs[p] < Length(r, hiddenDim, p) {
        owner := ExecuteOne(r, hiddenDim, hidden, cursors, rowMap, permuted, pcs, dst, owner, p);
      }
    }
    assert schedule[..|schedule|] == schedule;
    AllDone(r, hiddenDim, hidden, cursors, rowMap, permuted, pcs, dst, owner);
  }

  /** The memory the scatter kernel works on and the state of its work-items. */
  ghost predicate Running<T>(r: Routing, hiddenDim: nat, hidden: (nat, nat) -> T, cursors: array<nat>,
                             rowMap: array<int>, permuted: array2<T>, pcs: array<nat>, dst: array<nat>,
                             owner: map<nat, nat>)
    reads cursors, rowMap, permuted, pcs, dst
  {
    && r.Shaped() && cursors.Length == r.nExperts && rowMap.Length == pcs.Length == dst.Length == |r.ids|
    && cursors != pcs && cursors != dst && pcs != dst
    && permuted.Length0 >= Prefix(r.Counts(), r.nExperts) && permuted.Length1 == hiddenDim
    && Claims(r, r.Counts(), cursors[..], pcs[..], dst[..], owner)
    && Written(r, hiddenDim, hidden, pcs[..], dst[..], rowMap[..], permuted)
  }

  method SkipPair<T>(r: Routing, hiddenDim: nat, hidden: (nat, nat) -> T, cursors: array<nat>,
                     rowMap: array<int>, permuted: array2<T>, pcs: array<nat>, dst: array<nat>,
                     ghost owner: map<nat, nat>, p: nat)
    requires Running(r, hiddenDim, hidden, cursors, rowMap, permuted, pcs, dst, owner)
    requires p < |r.ids| && !r.Routed(p)
    modifies rowMap, pcs
    ensures Running(r, hiddenDim, hidden, cursors, rowMap, permuted, pcs, dst, owner)
    ensures pcs[..] == old(pcs[..])[p := old(pcs[p]) + 1]
  {
    hide Claims;
    ghost var pcs0 := pcs[..];
    AdvanceKeeps(r, cursors[..], pcs[..], dst[..], owner, p);
    rowMap[p] := -1;
    pcs[p] := pcs[p] + 1;
    assert pcs[..] == pcs0[p := pcs0[p] + 1];
  }

  method ClaimRow<T>(r: Routing, hiddenDim: nat, hidden: (nat, nat) -> T, cursors: array<nat>,
                     rowMap: array<int>, permuted: array2<T>, pcs: array<nat>, dst: array<nat>,
                     ghost owner: map<nat, nat>, p: nat) returns (ghost owner': map<nat, nat>)
    requires Running(r, hiddenDim, hidden, cursors, rowMap, permuted, pcs, dst, owner)
    requires p < |r.ids| && r.Routed(p) && pcs[p] == 0
    modifies cursors, pcs, dst
    ensures Running(r, hiddenDim, hidden, cursors, rowMap, permuted, pcs, dst, owner')
    ensures pcs[..] == old(pcs[..])[p := 1]
  {
    hide Claims;
    ghost var cursors0, pcs0, dst0 := cursors[..], pcs[..], dst[..];
    ClaimKeeps(r, cursors[..], pcs[..], dst[..], owner, p);
    var e := r.ids[p];
    dst[p] := cursors[e];
    cursors[e] := cursors[e] + 1;
    owner' := owner[dst[p] := p];
    pcs[p] := 1;
    assert cursors[..] == cursors0[e := cursors0[e] + 1];
    assert dst[..] == dst0[p := cursors0[e]];
    assert pcs[..] == pcs0[p := 1];
  }

  method RecordRow<T>(r: Routing, hiddenDim: nat, hidden: (nat, nat) -> T, cursors: array<nat>,
                      rowMap: array<int>, permuted: array2<T>, pcs: array<nat>, dst: array<nat>,
                      ghost owner: map<nat, nat>, p: nat)
    requires Running(r, hiddenDim, hidden, cursors, rowMap, permuted, pcs, dst, owner)
    requires p < |r.ids| && r.Routed(p) && pcs[p] == 1
    modifies rowMap, pcs
    ensures Running(r, hiddenDim, hidden, cursors, rowMap, permuted, pcs, dst, owner)
    ensures pcs[..] == old(pcs[..])[p := 2]
  {
    hide Claims;
    ghost var pcs0 := pcs[..];
    AdvanceKeeps(r, cursors[..], pcs[..], dst[..], owner, p);
    rowMap[p] := dst[p];
    pcs[p] := 2;
    assert pcs[..] == pcs0[p := 2];
  }

  /** Different pairs copy to different rows. */
  lemma ClaimsApart(r: Routing, cursors: seq<nat>, pcs: seq<nat>, dst: seq<nat>, owner: map<nat, nat>, p: nat)
    requires |cursors| == r.nExperts && |pcs| == |dst| == |r.ids|
    requires Claims(r, r.Counts(), cursors, pcs, dst, owner)
    requires p < |r.ids| && r.Routed(p) && pcs[p] > 0
    ensures dst[p] < Prefix(r.Counts(), r.nExperts)
    ensures forall q: nat | q < |r.ids| && r.Routed(q) && pcs[q] > 0 && dst[q] == dst[p] :: q == p
  {
    ClaimedRow(r, cursors, pcs, dst, owner, p);
  }

  method CopyElement<T>(r: Routing, hiddenDim: nat, hidden: (nat, nat) -> T, cursors: array<nat>,
                        rowMap: array<int>, permuted: array2<T>, pcs: array<nat>, dst: array<nat>,
                        ghost owner: map<nat, nat>, p: nat)
    requires Running(r, hiddenDim, hidden, cursors, rowMap, permuted, pcs, dst, owner)
    requires p < |r.ids| && r.Routed(p) && 2 <= pcs[p] < 2 + hiddenDim
    modifies permuted, pcs
    ensures Running(r, hiddenDim, hidden, cursors, rowMap, permuted, pcs, dst, owner)
    ensures pcs[..] == old(pcs[..])[p := old(pcs[p]) + 1]
  {
    hide Claims, Prefix, Taken, Length, Routing.Token;
    ClaimsApart(r, cursors[..], pcs[..], dst[..], owner, p);
    ghost var pcs0 := pcs[..];
    AdvanceKeeps(r, cursors[..], pcs[..], dst[..], owner, p);
    var i := pcs[p] - 2;
    permuted[dst[p], i] := hidden(r.Token(p), i);
    pcs[p] := pcs[p] + 1;
    assert pcs[..] == pcs0[p := pcs0[p] + 1];
  }

  /** The next instruction of work-item p. */
  method ExecuteOne<T>(r: Routing, hiddenDim: nat, hidden: (nat, nat) -> T, cursors: array<nat>,
                       rowMap: array<int>, permuted: array2<T>, pcs: array<nat>, dst: array<nat>,
                       ghost owner: map<nat, nat>, p: nat) returns (ghost owner': map<nat, nat>)
    requires Running(r, hiddenDim, hidden, cursors, rowMap, permuted, pcs, dst, owner)
    requires p < |r.ids| && pcs[p] < Length(r, hiddenDim, p)
    modifies cursors, rowMap, permuted, pcs, dst
    ensures Running(r, hiddenDim, hidden, cursors, rowMap, permuted, pcs, dst, owner')
    ensures pcs[..] == old(pcs[..])[p := old(pcs[p]) + 1]
  {
    hide Claims, Written;
    owner' := owner;
    if !r.Routed(p) {
      SkipPair(r, hiddenDim, hidden, cursors, rowMap, permuted, pcs, dst, owner, p);
    } else if pcs[p] == 0 {
      owner' := ClaimRow(r, hiddenDim, hidden, cursors, rowMap, permuted, pcs, dst, owner, p);
    } else if pcs[p] == 1 {
      RecordRow(r, hiddenDim, hidden, cursors, rowMap, permuted, pcs, dst, owner, p);
    } else {
      CopyElement(r, hiddenDim, hidden, cursors, rowMap, permuted, pcs, dst, owner, p);
    }
  }

  lemma ClaimedRow(r: Routing, cursors: seq<nat>, pcs: seq<nat>, dst: seq<nat>, owner: map<nat, nat>, p: nat)
    requires |cursors| == r.nExperts && |pcs| == |dst| == |r.ids|
    requires Claims(r, r.Counts(), cursors, pcs, dst, owner)
    requires p < |r.ids| && r.Routed(p) && pcs[p] > 0
    ensures InSegment(r.Counts(), r.ids[p], dst[p]) && dst[p] < Prefix(r.Counts(), r.nExperts)
  {
    CursorsInside(r, cursors, pcs, r.ids[p]);
    SegmentsInRange(r.Counts(), r.ids[p], dst[p]);
  }

  lemma AllDone<T>(r: Routing, hiddenDim: nat, hidden: (nat, nat) -> T, cursors: array<nat>, rowMap: array<int>,
                   permuted: array2<T>, pcs: array<nat>, dst: array<nat>, owner: map<nat, nat>)
    requires Running(r, hiddenDim, hidden, cursors, rowMap, permuted, pcs, dst, owner)
    requires forall p: nat | p < |r.ids| :: pcs[p] >= Length(r, hiddenDim, p)
    ensures Permuted(r, hiddenDim, hidden, rowMap[..], permuted)
  {
    var rows := r.Counts();
    forall p: nat | p < |r.ids| && r.Routed(p)
      ensures InSegment(rows, r.ids[p], dst[p]) && dst[p] < Prefix(rows, r.nExperts) && rowMap[p] == dst[p]
    {
      ClaimedRow(r, cursors[..], pcs[..], dst[..], owner, p);
    }
    forall s: nat | s < Prefix(rows, r.nExperts)
      ensures Filled(r, rowMap[..], s)
    {
      var e := SegmentOf(rows, r.nExperts, s);
      CursorsInside(r, cursors[..], pcs[..], e);
      assert HandedOut(rows, cursors[..], e, s);
      assert r.Routed(owner[s]) && rowMap[owner[s]] == s;
    }
  }
}
