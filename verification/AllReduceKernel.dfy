/** The loops that the work-items of the staging and reduce kernels execute, on the
    buffers themselves. The protocol modules say when each access may happen; here is
    what the loops visit and compute between two rendezvous. */
module AllReduceKernel {
  import opened AllReduceGeometry
  import opened AllReduceProtocol

  /** The protocol's partial sums are the fold over the first k ranks' inputs. */
  lemma PartialSumIsFold<T, F>(c: Config<T, F>, n: nat, i: nat, k: nat, column: seq<T>)
    requires |column| == k && forall r: nat | r < k :: column[r] == c.input(n, r, i)
    ensures c.PartialSum(n, i, k) == Fold(c.arith, column)
  {
    assert column == c.Inputs(n, i, k);
  }

  predicate Buffers<T>(staging: seq<array<T>>, numel: nat) {
    && (forall r | 0 <= r < |staging| :: numel <= staging[r].Length)
    && (forall r, q | 0 <= r < q < |staging| :: staging[r] != staging[q])
  }

  /** columns[i] lists what the ranks have staged at i, rank by rank. */
  ghost predicate Staged<T>(staging: seq<array<T>>, numel: nat, columns: seq<seq<T>>)
    requires forall r | 0 <= r < |staging| :: numel <= staging[r].Length
    reads staging
  {
    && |columns| == numel && (forall i | 0 <= i < numel :: |columns[i]| == |staging|)
    && forall r, i | 0 <= r < |staging| && 0 <= i < numel :: columns[i][r] == staging[r][i]
  }

  /** The accumulation loop over the ranks for one element. */
  method SumRanks<T, F>(arith: Arith<T, F>, staging: seq<array<T>>, i: nat, ghost column: seq<T>) returns (acc: F)
    requires forall r | 0 <= r < |staging| :: i < staging[r].Length
    requires |column| == |staging| && forall r | 0 <= r < |staging| :: column[r] == staging[r][i]
    ensures acc == Fold(arith, column)
  {
    acc := arith.zero;
    for r := 0 to |staging|
      invariant acc == Fold(arith, column[..r])
    {
      acc := arith.plus(acc, arith.widen(staging[r][i]));
      assert column[..r + 1][..r] == column[..r];
    }
    assert column[..|staging|] == column;
  }

  /** Work-item gid of the staging kernel. */
  method StageLane<T>(inp: array<T>, staging: array<T>, numel: nat, gid: nat)
    requires inp != staging && numel <= inp.Length && numel <= staging.Length && gid < STRIDE
    modifies staging
    ensures forall i | 0 <= i < staging.Length ::
              staging[i] == if i < numel && i % STRIDE == gid then inp[i] else old(staging[i])
  {
    var i := gid;
    while i < numel
      invariant gid <= i && i % STRIDE == gid
      invariant forall j | 0 <= j < staging.Length ::
                  staging[j] == if j < i && j < numel && j % STRIDE == gid then inp[j] else old(staging[j])
    {
      staging[i] := inp[i];
      i := i + STRIDE;
    }
  }

  /** The staging kernel: its work-items together copy the whole payload. */
  method StageAll<T>(inp: array<T>, staging: array<T>, numel: nat)
    requires inp != staging && numel <= inp.Length && numel <= staging.Length
    modifies staging
    ensures staging[..numel] == inp[..numel] && staging[numel..] == old(staging[numel..])
  {
    for gid := 0 to STRIDE
      invariant forall i | 0 <= i < staging.Length ::
                  staging[i] == if i < numel && i % STRIDE < gid then inp[i] else old(staging[i])
    {
      StageLane(inp, staging, numel, gid);
    }
  }

  /** The elements that the grid-stride loop of work-item gid visits. */
  predicate StrideHits(numel: nat, gid: nat, i: nat) {
    i < numel && i % STRIDE == gid
  }

  lemma StrideGap(numel: nat, gid: nat, i: nat)
    requires gid < STRIDE
    ensures forall j: nat | j < gid :: !StrideHits(numel, gid, j)
    ensures StrideHits(numel, gid, i) ==>
              forall j: nat | i < j < i + STRIDE :: !StrideHits(numel, gid, j)
    ensures StrideHits(numel, gid, i) && i + STRIDE < numel ==> StrideHits(numel, gid, i + STRIDE)
    ensures gid < numel ==> StrideHits(numel, gid, gid)
    ensures forall j: nat | j >= numel :: !StrideHits(numel, gid, j)
  {
  }

  /** Work-item gid of the one-shot kernel between its two rendezvous. */
  method OneShotLane<T, F>(arith: Arith<T, F>, staging: seq<array<T>>, out: array<T>, numel: nat, gid: nat,
                           ghost columns: seq<seq<T>>)
    requires Buffers(staging, numel) && out !in staging && numel <= out.Length && gid < STRIDE
    requires Staged(staging, numel, columns)
    modifies out
    ensures forall i: nat | i < out.Length ::
              out[i] == if StrideHits(numel, gid, i) then arith.narrow(Fold(arith, columns[i])) else old(out[i])
  {
    hide StrideHits, Fold;
    var i := gid;
    StrideGap(numel, gid, i);
    while i < numel
      invariant gid <= i && (i < numel ==> StrideHits(numel, gid, i))
      invariant Staged(staging, numel, columns)
      invariant forall j: nat | j < out.Length ::
                  out[j] == if StrideHits(numel, gid, j) && j < i
                            then arith.narrow(Fold(arith, columns[j])) else old(out[j])
    {
      var acc := SumRanks(arith, staging, i, columns[i]);
      out[i] := arith.narrow(acc);
      StrideGap(numel, gid, i);
      i := i + STRIDE;
    }
  }

  /** The elements that work-item lid visits in [lo, hi). */
  predicate LaneHits(lo: nat, hi: nat, lid: nat, i: nat) {
    lo <= i < hi && (i - lo) % WG_SIZE == lid
  }

  /** The elements that work-item lid of group `block` visits in owner's slice. */
  predicate LaneOwns(numel: nat, world: nat, owner: nat, block: nat, lid: nat, i: nat)
    requires world > 0
  {
    LaneHits(SliceLo(numel, world, owner, block), SliceHi(numel, world, owner, block), lid, i)
  }

  lemma LaneGap(lo: nat, hi: nat, lid: nat, i: nat)
    requires lid < WG_SIZE
    ensures forall j: nat | j < lo + lid :: !LaneHits(lo, hi, lid, j)
    ensures LaneHits(lo, hi, lid, i) ==> forall j: nat | i < j < i + WG_SIZE :: !LaneHits(lo, hi, lid, j)
    ensures LaneHits(lo, hi, lid, i) && i + WG_SIZE < hi ==> LaneHits(lo, hi, lid, i + WG_SIZE)
    ensures lo + lid < hi ==> LaneHits(lo, hi, lid, lo + lid)
    ensures forall j: nat | j >= hi :: !LaneHits(lo, hi, lid, j)
  {
  }

  /** Reducing one element in place. */
  method ReduceElement<T, F>(arith: Arith<T, F>, staging: seq<array<T>>, rank: nat, i: nat, ghost column: seq<T>)
    requires (forall r | 0 <= r < |staging| :: i < staging[r].Length) && rank < |staging|
    requires |column| == |staging| && forall r | 0 <= r < |staging| :: column[r] == staging[r][i]
    modifies staging[rank]
    ensures staging[rank][i] == arith.narrow(Fold(arith, column))
    ensures forall j: nat | j < staging[rank].Length && j != i :: staging[rank][j] == old(staging[rank][j])
  {
    var acc := SumRanks(arith, staging, i, column);
    staging[rank][i] := arith.narrow(acc);
  }

  /** One work-item's share of reducing [lo, hi) into the rank's own staging: each
      cell is read before it is overwritten, and nothing else is touched. */
  method ReduceRange<T, F>(arith: Arith<T, F>, staging: seq<array<T>>, rank: nat, lo: nat, hi: nat, lid: nat,
                           ghost columns: seq<seq<T>>)
    requires Buffers(staging, hi) && rank < |staging| && lid < WG_SIZE && hi <= |columns|
    requires Staged(staging, hi, columns[..hi])
    modifies staging[rank]
    ensures forall i: nat | i < staging[rank].Length ::
              staging[rank][i] == if LaneHits(lo, hi, lid, i) then arith.narrow(Fold(arith, columns[i]))
                                  else old(staging[rank][i])
  {
    hide LaneHits, Fold;
    var i := lo + lid;
    LaneGap(lo, hi, lid, i);
    while i < hi
      invariant lo + lid <= i && (i < hi ==> LaneHits(lo, hi, lid, i))
      invariant forall r | 0 <= r < |staging| && r != rank :: unchanged(staging[r])
      invariant forall j: nat | j < staging[rank].Length ::
                  staging[rank][j] == if LaneHits(lo, hi, lid, j) && j < i
                                      then arith.narrow(Fold(arith, columns[j])) else old(staging[rank][j])
    {
      assert forall r | 0 <= r < |staging| :: staging[r][i] == old(staging[r][i]);
      assert forall r | 0 <= r < |staging| :: columns[..hi][i][r] == old(staging[r][i]);
      ReduceElement(arith, staging, rank, i, columns[i]);
      LaneGap(lo, hi, lid, i);
      i := i + WG_SIZE;
    }
  }

  /** One work-item's share of copying [lo, hi). */
  method CopyRange<T>(src: array<T>, out: array<T>, lo: nat, hi: nat, lid: nat)
    requires src != out && hi <= src.Length && hi <= out.Length && lid < WG_SIZE
    modifies out
    ensures forall i: nat | i < out.Length ::
              out[i] == if LaneHits(lo, hi, lid, i) then src[i] else old(out[i])
  {
    hide LaneHits;
    var i := lo + lid;
    LaneGap(lo, hi, lid, i);
    while i < hi
      invariant lo + lid <= i && (i < hi ==> LaneHits(lo, hi, lid, i))
      invariant forall j: nat | j < out.Length ::
                  out[j] == if LaneHits(lo, hi, lid, j) && j < i then src[j] else old(out[j])
    {
      out[i] := src[i];
      LaneGap(lo, hi, lid, i);
      i := i + WG_SIZE;
    }
  }

  /** Work-item lid of the two-shot kernel between the arrive and the mid rendezvous. */
  method ReduceScatterLane<T, F>(arith: Arith<T, F>, staging: seq<array<T>>, rank: nat, numel: nat,
                                 block: nat, lid: nat, ghost columns: seq<seq<T>>)
    requires Buffers(staging, numel) && rank < |staging| && block < BLOCKS && lid < WG_SIZE
    requires Staged(staging, numel, columns)
    modifies staging[rank]
    ensures forall i: nat | i < numel ::
              staging[rank][i] == if LaneOwns(numel, |staging|, rank, block, lid, i)
                                  then arith.narrow(Fold(arith, columns[i])) else old(staging[rank][i])
    ensures staging[rank][numel..] == old(staging[rank][numel..])
  {
    ReduceRange(arith, staging, rank, SliceLo(numel, |staging|, rank, block),
                SliceHi(numel, |staging|, rank, block), lid, columns);
  }

  /** Which lane owns an element is decided by its owner and block alone. */
  lemma LaneOwnsOnly(numel: nat, world: nat, owner: nat, block: nat, lid: nat, i: nat)
    requires world > 0 && LaneOwns(numel, world, owner, block, lid, i)
    ensures i < numel && owner == OwnerOf(numel, world, i) && block == BlockOf(numel, world, i)
  {
    assert InSlice(numel, world, owner, block, i);
    SlicesPartition(numel, world, i);
  }

  /** Work-item lid of the two-shot kernel after the mid rendezvous: it copies its
      share of every owner's slice for this block, from that owner. */
  method GatherLane<T>(staging: seq<array<T>>, out: array<T>, numel: nat, block: nat, lid: nat)
    requires Buffers(staging, numel) && out !in staging && numel <= out.Length && |staging| > 0
    requires block < BLOCKS && lid < WG_SIZE
    modifies out
    ensures forall owner: nat, i: nat | owner < |staging| && i < numel && LaneOwns(numel, |staging|, owner, block, lid, i) ::
              out[i] == staging[owner][i]
    ensures forall i: nat | i < out.Length && (forall owner: nat | owner < |staging| :: !LaneOwns(numel, |staging|, owner, block, lid, i)) ::
              out[i] == old(out[i])
  {
    hide OwnerOf, SliceLo, BlockOf;
    var world := |staging|;
    for owner := 0 to world
      invariant forall o: nat, i: nat | o < owner && i < numel && LaneOwns(numel, world, o, block, lid, i) :: out[i] == staging[o][i]
      invariant forall i: nat | i < out.Length && (forall o: nat | o < owner :: !LaneOwns(numel, world, o, block, lid, i)) ::
                  out[i] == old(out[i])
    {
      ghost var before := out[..];
      CopyRange(staging[owner], out, SliceLo(numel, world, owner, block), SliceHi(numel, world, owner, block), lid);
      forall o: nat, i: nat | o < owner && i < numel && LaneOwns(numel, world, o, block, lid, i)
        ensures out[i] == staging[o][i]
      {
        assert before[i] == staging[o][i];
        LaneOwnsOnly(numel, world, o, block, lid, i);
        if LaneOwns(numel, world, owner, block, lid, i) {
          LaneOwnsOnly(numel, world, owner, block, lid, i);
        }
      }
      forall i: nat | i < out.Length && (forall o: nat | o < owner + 1 :: !LaneOwns(numel, world, o, block, lid, i))
        ensures out[i] == old(out[i])
      {
        assert !LaneOwns(numel, world, owner, block, lid, i);
        assert before[i] == old(out[i]);
      }
    }
  }

  /** Every element of the payload is handled by exactly one work-item of the group
      that its slice belongs to. */
  lemma LanesCoverSlices(numel: nat, world: nat, owner: nat, block: nat, i: nat)
    requires world > 0
    ensures InSlice(numel, world, owner, block, i) <==> exists lid: nat :: lid < WG_SIZE && LaneOwns(numel, world, owner, block, lid, i)
    ensures forall lid: nat, other: nat | LaneOwns(numel, world, owner, block, lid, i) && LaneOwns(numel, world, owner, block, other, i) ::
              lid == other
  {
    hide SliceLo, SliceHi;
    if InSlice(numel, world, owner, block, i) {
      assert LaneOwns(numel, world, owner, block, (i - SliceLo(numel, world, owner, block)) % WG_SIZE, i);
    }
  }

  /** Global id of work-item lid of a group. */
  function GlobalId(block: nat, lid: nat): nat {
    block * WG_SIZE + lid
  }

  predicate GroupHits(numel: nat, block: nat, lid: nat, i: nat) {
    lid < WG_SIZE && StrideHits(numel, GlobalId(block, lid), i)
  }

  /** The elements of a one-shot group are those its work-items visit, each visited once. */
  lemma LanesCoverStrides(numel: nat, block: nat, i: nat)
    requires block < BLOCKS
    ensures InStrided(numel, block, i) <==> exists lid: nat :: GroupHits(numel, block, lid, i)
    ensures forall lid: nat, other: nat | GroupHits(numel, block, lid, i) && GroupHits(numel, block, other, i) :: lid == other
  {
    if InStrided(numel, block, i) {
      assert GroupHits(numel, block, i % STRIDE - block * WG_SIZE, i);
    }
  }

  // ---------- what the kernels compute of a collective's inputs ----------

  /** Every rank's staging holds its input of call n. */
  ghost predicate HoldsInputs<T, F>(c: Config<T, F>, n: nat, staging: seq<array<T>>, numel: nat)
    requires forall r | 0 <= r < |staging| :: numel <= staging[r].Length
    reads staging
  {
    |staging| == c.world && forall r: nat, i: nat | r < |staging| && i < numel :: staging[r][i] == c.input(n, r, i)
  }

  ghost function Columns<T, F>(c: Config<T, F>, n: nat, numel: nat): (columns: seq<seq<T>>)
    ensures |columns| == numel && forall i | 0 <= i < numel :: columns[i] == c.Inputs(n, i, c.world)
  {
    seq(numel, i requires 0 <= i < numel => c.Inputs(n, i, c.world))
  }

  /** One-shot: from staged inputs the work-item leaves the collective's result in each
      of its cells. */
  method OneShotCall<T, F>(c: Config<T, F>, n: nat, staging: seq<array<T>>, out: array<T>, numel: nat, gid: nat)
    requires Buffers(staging, numel) && out !in staging && numel <= out.Length && gid < STRIDE
    requires HoldsInputs(c, n, staging, numel)
    modifies out
    ensures forall i: nat | i < numel && i % STRIDE == gid :: out[i] == c.Reduced(n, i)
    ensures forall i: nat | i < out.Length && !(i < numel && i % STRIDE == gid) :: out[i] == old(out[i])
  {
    OneShotLane(c.arith, staging, out, numel, gid, Columns(c, n, numel));
  }

  /** Reduce-scatter: from staged inputs the work-item leaves the result in each cell of
      its share of the rank's own slice. */
  method ReduceScatterCall<T, F>(c: Config<T, F>, n: nat, staging: seq<array<T>>, rank: nat, numel: nat, block: nat, lid: nat)
    requires Buffers(staging, numel) && rank < |staging| && block < BLOCKS && lid < WG_SIZE
    requires HoldsInputs(c, n, staging, numel)
    modifies staging[rank]
    ensures forall i: nat | i < numel && LaneOwns(numel, |staging|, rank, block, lid, i) :: staging[rank][i] == c.Reduced(n, i)
    ensures forall i: nat | i < staging[rank].Length && !(i < numel && LaneOwns(numel, |staging|, rank, block, lid, i)) ::
              staging[rank][i] == old(staging[rank][i])
  {
    ReduceScatterLane(c.arith, staging, rank, numel, block, lid, Columns(c, n, numel));
    assert forall i: nat | numel <= i < staging[rank].Length :: staging[rank][i] == staging[rank][numel..][i - numel];
    assert forall i: nat | numel <= i < staging[rank].Length :: old(staging[rank][i]) == old(staging[rank][numel..])[i - numel];
  }

  /** All-gather: when every owner's slice of this block holds the result, so do the
      work-item's output cells. */
  method GatherCall<T, F>(c: Config<T, F>, n: nat, staging: seq<array<T>>, out: array<T>, numel: nat, block: nat, lid: nat)
    requires Buffers(staging, numel) && out !in staging && numel <= out.Length && |staging| > 0
    requires block < BLOCKS && lid < WG_SIZE
    requires forall owner: nat, i: nat | owner < |staging| && i < numel && InSlice(numel, |staging|, owner, block, i) ::
               staging[owner][i] == c.Reduced(n, i)
    modifies out
    ensures forall owner: nat, i: nat | owner < |staging| && i < numel && LaneOwns(numel, |staging|, owner, block, lid, i) ::
              out[i] == c.Reduced(n, i)
  {
    GatherLane(staging, out, numel, block, lid);
    forall owner: nat, i: nat | owner < |staging| && i < numel && LaneOwns(numel, |staging|, owner, block, lid, i)
      ensures out[i] == c.Reduced(n, i)
    {
      assert InSlice(numel, |staging|, owner, block, i);
    }
  }
}
