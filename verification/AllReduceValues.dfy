/** Every step keeps the value part of the invariant, so whole runs compute the
    fixed-order sum and never overwrite a cell somebody still has to read. */
module AllReduceValues {
  import opened AllReduceGeometry
  import opened AllReduceProtocol
  import opened AllReduceInvariant
  import opened AllReduceSync

  /** The value a work-item reads from rank k's staging during the reduction. */
  lemma ReductionReadsInput<T, F>(c: Config<T, F>, s: State<T, F>, r: nat, b: nat, i: nat, k: nat)
    requires Inv(c, s) && Live(c, s, r, b) && k < c.world
    requires s.ranks[r].groups[b].stage.Work? && i !in s.ranks[r].groups[b].done
    requires WorkItem(c, s.ranks[r].call, r, b, i)
    ensures Cell(c, s, k, i) == c.input(s.ranks[r].call, k, i)
  {
    PeersInStep(c, s, r, b, k);
    var call := c.calls[s.ranks[r].call];
    SlicesPartition(call.numel, c.world, i);
    assert CellOk(c, s, k, i);
  }

  /** The value a work-item reads from the owner's staging during the all-gather. */
  lemma GatherReadsReduced<T, F>(c: Config<T, F>, s: State<T, F>, r: nat, b: nat, owner: nat, i: nat)
    requires Inv(c, s) && Live(c, s, r, b) && owner < c.world
    requires s.ranks[r].groups[b].stage.Gather?
    requires InSlice(c.calls[s.ranks[r].call].numel, c.world, owner, b, i)
    ensures Cell(c, s, owner, i) == c.Reduced(s.ranks[r].call, i)
  {
    assert GroupOk(c, s, r, b);
    PeersInStep(c, s, r, b, owner);
    SlicesPartition(c.calls[s.ranks[r].call].numel, c.world, i);
    assert CellOk(c, s, owner, i);
  }

  /** The value a work-item stores at the end of its reduction. */
  lemma StoreWritesReduced<T, F>(c: Config<T, F>, s: State<T, F>, r: nat, b: nat, i: nat)
    requires Inv(c, s) && Enabled(c, s, Step.Store(r, b, i))
    ensures c.arith.narrow(Accumulator(c, s.ranks[r].groups[b], i)) == c.Reduced(s.ranks[r].call, i)
  {
    assert ElementOk(c, s, r, b, i);
  }

  lemma OthersUntouched<T, F>(c: Config<T, F>, s: State<T, F>, step: Step, r: nat, i: nat)
    requires Shape(c, s) && Enabled(c, s, step) && Shape(c, Apply(c, s, step)) && r < c.world && step.r != r
    ensures Apply(c, s, step).ranks[r] == s.ranks[r] && Cell(c, Apply(c, s, step), r, i) == Cell(c, s, r, i)
  {
    hide InSlice, InStrided;
  }

  /** A rank's staged cells and its record of them do not depend on what others do. */
  lemma CellKeptByOthers<T, F>(c: Config<T, F>, s: State<T, F>, step: Step, r: nat, i: nat)
    requires Inv(c, s) && Enabled(c, s, step) && Sync(c, Apply(c, s, step))
    requires r < c.world && step.r != r
    ensures CellOk(c, Apply(c, s, step), r, i)
  {
    assert CellOk(c, s, r, i);
    OthersUntouched(c, s, step, r, i);
    hide Apply, Enabled, Cell;
  }

  lemma CellKeptByRank<T, F>(c: Config<T, F>, s: State<T, F>, step: Step, i: nat)
    requires Inv(c, s) && Enabled(c, s, step) && Sync(c, Apply(c, s, step))
    requires step.StageCell? || step.Launch? || step.Retire?
    ensures CellOk(c, Apply(c, s, step), step.r, i)
  {
    assert CellOk(c, s, step.r, i);
    if step.Launch? {
      var b := BlockOf(c.calls[s.ranks[step.r].call].numel, c.world, i);
      assert b < BLOCKS ==> GroupOk(c, s, step.r, b);
    }
  }

  /** Moving one group between stages, or letting it read, leaves the overwritten
      cells what they were. */
  lemma OverwrittenAfter<T, F>(c: Config<T, F>, s: State<T, F>, step: Step, i: nat)
    requires Inv(c, s) && Enabled(c, s, step) && Sync(c, Apply(c, s, step))
    requires step.Enter? || step.Publish? || step.Observe? || step.Bump? || step.Leave? || step.Accumulate? || step.Copy?
    requires i < c.calls[s.ranks[step.r].call].numel
    ensures Overwritten(c, Apply(c, s, step), step.r, i) == Overwritten(c, s, step.r, i)
  {
    var call := c.calls[s.ranks[step.r].call];
    var block := BlockOf(call.numel, c.world, i);
    SlicesPartition(call.numel, c.world, i);
    assert GroupOk(c, s, step.r, step.b);
    if block == step.b && step.Enter? && OwnerOf(call.numel, c.world, i) == step.r {
      assert call.TwoShot() && s.ranks[step.r].groups[step.b].stage.Work? ==> WorkItem(c, s.ranks[step.r].call, step.r, step.b, i);
    }
  }

  lemma CellKeptByMove<T, F>(c: Config<T, F>, s: State<T, F>, step: Step, i: nat)
    requires Inv(c, s) && Enabled(c, s, step) && Sync(c, Apply(c, s, step))
    requires step.Enter? || step.Publish? || step.Observe? || step.Bump? || step.Leave? || step.Accumulate? || step.Copy?
    ensures CellOk(c, Apply(c, s, step), step.r, i)
  {
    assert CellOk(c, s, step.r, i);
    if i < c.calls[s.ranks[step.r].call].numel {
      OverwrittenAfter(c, s, step, i);
    }
  }

  lemma CellKeptByStore<T, F>(c: Config<T, F>, s: State<T, F>, step: Step, i: nat)
    requires Inv(c, s) && Enabled(c, s, step) && Sync(c, Apply(c, s, step))
    requires step.Store?
    ensures CellOk(c, Apply(c, s, step), step.r, i)
  {
    assert CellOk(c, s, step.r, i);
    var call := c.calls[s.ranks[step.r].call];
    SlicesPartition(call.numel, c.world, i);
    StoreWritesReduced(c, s, step.r, step.b, step.i);
  }

  lemma StagingKept<T, F>(c: Config<T, F>, s: State<T, F>, step: Step)
    requires Inv(c, s) && Enabled(c, s, step) && Sync(c, Apply(c, s, step))
    ensures StagingOk(c, Apply(c, s, step))
  {
    forall r: nat, i: nat | r < c.world
      ensures CellOk(c, Apply(c, s, step), r, i)
    {
      if step.r != r {
        CellKeptByOthers(c, s, step, r, i);
      } else if step.StageCell? || step.Launch? || step.Retire? {
        CellKeptByRank(c, s, step, i);
      } else if step.Store? {
        CellKeptByStore(c, s, step, i);
      } else {
        CellKeptByMove(c, s, step, i);
      }
    }
  }

  lemma ElementKeptElsewhere<T, F>(c: Config<T, F>, s: State<T, F>, step: Step, r: nat, b: nat, i: nat)
    requires Shape(c, s) && Enabled(c, s, step) && Shape(c, Apply(c, s, step))
    requires Elsewhere(step, r, b) && Live(c, s, r, b) && ElementOk(c, s, r, b, i)
    ensures Live(c, Apply(c, s, step), r, b) && ElementOk(c, Apply(c, s, step), r, b, i)
  {
    GroupAfterElsewhere(c, s, step, r, b);
    hide Apply, Enabled, Elsewhere;
  }

  /** A rank that is running after a step on the whole rank has idle groups, or was
      only staging. */
  lemma ElementAfterLaunch<T, F>(c: Config<T, F>, s: State<T, F>, step: Step, b: nat, i: nat)
    requires Shape(c, s) && Enabled(c, s, step) && Shape(c, Apply(c, s, step)) && Live(c, Apply(c, s, step), step.r, b)
    requires (step.StageCell? || step.Launch? || step.Retire?) && GroupOk(c, s, step.r, b)
    ensures ElementOk(c, Apply(c, s, step), step.r, b, i)
  {
  }

  lemma ElementAfterMeeting<T, F>(c: Config<T, F>, s: State<T, F>, step: Step, i: nat)
    requires Shape(c, s) && Enabled(c, s, step) && Shape(c, Apply(c, s, step))
    requires step.Enter? || step.Publish? || step.Observe? || step.Bump? || step.Leave?
    requires Live(c, s, step.r, step.b) && ElementOk(c, s, step.r, step.b, i)
    ensures ElementOk(c, Apply(c, s, step), step.r, step.b, i)
  {
  }

  lemma ElementAfterStore<T, F>(c: Config<T, F>, s: State<T, F>, step: Step, i: nat)
    requires Shape(c, s) && Enabled(c, s, step) && Shape(c, Apply(c, s, step))
    requires (step.Store? || step.Copy?) && Live(c, s, step.r, step.b) && ElementOk(c, s, step.r, step.b, i)
    ensures ElementOk(c, Apply(c, s, step), step.r, step.b, i)
  {
    hide InSlice, InStrided;
  }

  lemma ElementAfterAccumulate<T, F>(c: Config<T, F>, s: State<T, F>, step: Step, i: nat)
    requires Inv(c, s) && Enabled(c, s, step) && Shape(c, Apply(c, s, step)) && step.Accumulate?
    ensures Live(c, s, step.r, step.b) && ElementOk(c, Apply(c, s, step), step.r, step.b, i)
  {
    assert ElementOk(c, s, step.r, step.b, i);
    if i == step.i {
      ReductionReadsInput(c, s, step.r, step.b, i, Progress(s.ranks[step.r].groups[step.b], i));
      PartialSumStep(c, s.ranks[step.r].call, i, Progress(s.ranks[step.r].groups[step.b], i));
    }
    hide Config.PartialSum, Inv, InSlice, InStrided;
  }

  lemma PartKept<T, F>(c: Config<T, F>, s: State<T, F>, step: Step)
    requires Inv(c, s) && Enabled(c, s, step) && Sync(c, Apply(c, s, step))
    ensures PartOk(c, Apply(c, s, step))
  {
    var s' := Apply(c, s, step);
    hide Apply, Enabled, ElementOk;
    forall r: nat, b: nat, i: nat | Live(c, s', r, b)
      ensures ElementOk(c, s', r, b, i)
    {
      ElementKept(c, s, step, r, b, i);
    }
  }

  lemma ElementKept<T, F>(c: Config<T, F>, s: State<T, F>, step: Step, r: nat, b: nat, i: nat)
    requires Inv(c, s) && Enabled(c, s, step) && Sync(c, Apply(c, s, step)) && Live(c, Apply(c, s, step), r, b)
    ensures ElementOk(c, Apply(c, s, step), r, b, i)
  {
    assert GroupOk(c, s, r, b);
    assert Live(c, s, r, b) ==> ElementOk(c, s, r, b, i);
    if Elsewhere(step, r, b) {
      GroupAfterElsewhere(c, s, step, r, b);
      ElementKeptElsewhere(c, s, step, r, b, i);
    } else if step.StageCell? || step.Launch? || step.Retire? {
      ElementAfterLaunch(c, s, step, b, i);
    } else if step.Accumulate? {
      ElementAfterAccumulate(c, s, step, i);
    } else if step.Store? || step.Copy? {
      ElementAfterStore(c, s, step, i);
    } else {
      ElementAfterMeeting(c, s, step, i);
    }
  }

  lemma OutValuesKept<T, F>(c: Config<T, F>, s: State<T, F>, step: Step)
    requires Inv(c, s) && Enabled(c, s, step)
    ensures var s' := Apply(c, s, step);
            forall r: nat, n: nat, i: nat | (r, n, i) in s'.outs :: s'.outs[(r, n, i)] == c.Reduced(n, i)
    ensures forall key | key in s.outs :: key in Apply(c, s, step).outs
  {
    if step.Store? {
      StoreWritesReduced(c, s, step.r, step.b, step.i);
    } else if step.Copy? {
      GatherReadsReduced(c, s, step.r, step.b, step.owner, step.i);
    }
  }

  lemma DeliveredElsewhere<T, F>(c: Config<T, F>, s: State<T, F>, step: Step, r: nat, b: nat, i: nat)
    requires Shape(c, s) && Enabled(c, s, step) && Shape(c, Apply(c, s, step)) && r < c.world && b < BLOCKS
    requires Elsewhere(step, r, b) && Live(c, Apply(c, s, step), r, b)
    ensures Live(c, s, r, b) && Delivered(c, Apply(c, s, step), r, b, i) == Delivered(c, s, r, b, i)
    ensures Apply(c, s, step).ranks[r].call == s.ranks[r].call
  {
    GroupAfterElsewhere(c, s, step, r, b);
    hide Apply, Enabled, Elsewhere, InStrided;
  }

  /** A rank that has just been launched owes nothing yet. */
  lemma NothingOwed<T, F>(c: Config<T, F>, s: State<T, F>, step: Step, b: nat, i: nat)
    requires Shape(c, s) && Enabled(c, s, step) && Shape(c, Apply(c, s, step)) && Live(c, Apply(c, s, step), step.r, b)
    requires (step.StageCell? || step.Launch? || step.Retire?) && GroupOk(c, s, step.r, b)
    ensures !Delivered(c, Apply(c, s, step), step.r, b, i)
  {
    hide InStrided;
  }

  /** Reading, storing and meeting: what is owed afterwards was owed before, or has
      just been stored. */
  lemma OwedAfter<T, F>(c: Config<T, F>, s: State<T, F>, step: Step, i: nat)
    requires Shape(c, s) && Enabled(c, s, step) && Shape(c, Apply(c, s, step))
    requires step.Publish? || step.Observe? || step.Bump? || step.Leave? || step.Accumulate? || step.Store? || step.Copy?
    requires Live(c, s, step.r, step.b) && GroupOk(c, s, step.r, step.b)
    ensures Live(c, Apply(c, s, step), step.r, step.b) && Apply(c, s, step).ranks[step.r].call == s.ranks[step.r].call
    ensures Delivered(c, Apply(c, s, step), step.r, step.b, i) ==>
              Delivered(c, s, step.r, step.b, i) || (step.r, s.ranks[step.r].call, i) in Apply(c, s, step).outs
  {
    hide InSlice, InStrided, BlockOf, OwnerOf;
  }

  lemma OwedAfterEnter<T, F>(c: Config<T, F>, s: State<T, F>, step: Step, i: nat)
    requires Inv(c, s) && Enabled(c, s, step) && Shape(c, Apply(c, s, step)) && step.Enter?
    ensures Live(c, Apply(c, s, step), step.r, step.b) && Apply(c, s, step).ranks[step.r].call == s.ranks[step.r].call
    ensures Delivered(c, Apply(c, s, step), step.r, step.b, i) ==> Delivered(c, s, step.r, step.b, i)
  {
    assert GroupOk(c, s, step.r, step.b);
    hide InSlice, InStrided, BlockOf, OwnerOf, WorkItem;
    if Delivered(c, Apply(c, s, step), step.r, step.b, i) {
      EnterFindsDelivered(c, s, step.r, step.b, i);
    }
  }

  /** A step that makes a group owe element i either stored it or found it stored. */
  lemma DeliveredAfter<T, F>(c: Config<T, F>, s: State<T, F>, step: Step, r: nat, b: nat, i: nat)
    requires Inv(c, s) && Enabled(c, s, step) && Sync(c, Apply(c, s, step))
    requires Live(c, Apply(c, s, step), r, b) && Delivered(c, Apply(c, s, step), r, b, i)
    ensures s.ranks[r].running && s.ranks[r].call == Apply(c, s, step).ranks[r].call
    ensures Delivered(c, s, r, b, i) || (r, s.ranks[r].call, i) in Apply(c, s, step).outs
  {
    assert GroupOk(c, s, r, b);
    hide Delivered, GroupOk, Sync, StagingOk, PartOk, OutsOk, Apply;
    if Elsewhere(step, r, b) {
      DeliveredElsewhere(c, s, step, r, b, i);
    } else if step.StageCell? || step.Launch? || step.Retire? {
      NothingOwed(c, s, step, b, i);
    } else if step.Enter? {
      OwedAfterEnter(c, s, step, i);
    } else {
      OwedAfter(c, s, step, i);
    }
  }

  lemma EnterFindsDelivered<T, F>(c: Config<T, F>, s: State<T, F>, r: nat, b: nat, i: nat)
    requires Inv(c, s) && Live(c, s, r, b) && MayEnter(c, s, r, b)
    requires var call := c.calls[s.ranks[r].call];
             && i < call.numel
             && if call.TwoShot() then BlockOf(call.numel, c.world, i) == b && s.ranks[r].groups[b].stage.Gather?
                else InStrided(call.numel, b, i) && s.ranks[r].groups[b].stage.Work?
    ensures Delivered(c, s, r, b, i)
  {
    assert !c.calls[s.ranks[r].call].TwoShot() ==> WorkItem(c, s.ranks[r].call, r, b, i);
  }

  lemma DeliveredKept<T, F>(c: Config<T, F>, s: State<T, F>, step: Step, r: nat, b: nat, i: nat)
    requires Inv(c, s) && Enabled(c, s, step) && Sync(c, Apply(c, s, step))
    requires Live(c, Apply(c, s, step), r, b) && Delivered(c, Apply(c, s, step), r, b, i)
    ensures (r, Apply(c, s, step).ranks[r].call, i) in Apply(c, s, step).outs
  {
    DeliveredAfter(c, s, step, r, b, i);
    OutValuesKept(c, s, step);
    if Delivered(c, s, r, b, i) {
      assert (r, s.ranks[r].call, i) in s.outs;
    }
  }

  lemma RetiredKept<T, F>(c: Config<T, F>, s: State<T, F>, step: Step, r: nat, n: nat, i: nat)
    requires Inv(c, s) && Enabled(c, s, step) && Sync(c, Apply(c, s, step))
    requires r < c.world && n < Apply(c, s, step).ranks[r].call && i < c.calls[n].numel
    ensures (r, n, i) in Apply(c, s, step).outs
  {
    OutValuesKept(c, s, step);
    if n < s.ranks[r].call {
      assert (r, n, i) in s.outs;
    } else {
      assert step == Retire(r) && n == s.ranks[r].call;
      SlicesPartition(c.calls[n].numel, c.world, i);
      StridesCover(c.calls[n].numel, i);
      var b := if c.calls[n].TwoShot() then BlockOf(c.calls[n].numel, c.world, i) else (i % STRIDE) / WG_SIZE;
      assert Live(c, s, r, b) && Delivered(c, s, r, b, i);
    }
  }

  lemma OutsKept<T, F>(c: Config<T, F>, s: State<T, F>, step: Step)
    requires Inv(c, s) && Enabled(c, s, step) && Sync(c, Apply(c, s, step))
    ensures OutsOk(c, Apply(c, s, step))
  {
    var s' := Apply(c, s, step);
    OutValuesKept(c, s, step);
    forall r: nat, n: nat, i: nat | r < c.world && n < s'.ranks[r].call && i < c.calls[n].numel
      ensures (r, n, i) in s'.outs
    {
      RetiredKept(c, s, step, r, n, i);
    }
    forall r: nat, b: nat, i: nat | Live(c, s', r, b) && Delivered(c, s', r, b, i)
      ensures (r, s'.ranks[r].call, i) in s'.outs
    {
      DeliveredKept(c, s, step, r, b, i);
    }
  }

  /** Main step lemma: whatever step of whichever rank comes next, the invariant holds. */
  lemma StepKeepsInv<T, F>(c: Config<T, F>, s: State<T, F>, step: Step)
    requires Inv(c, s) && Enabled(c, s, step)
    ensures Inv(c, Apply(c, s, step))
  {
    SyncKept(c, s, step);
    StagingKept(c, s, step);
    PartKept(c, s, step);
    OutsKept(c, s, step);
  }

  lemma InitInv<T, F>(c: Config<T, F>)
    requires c.Valid()
    ensures Inv(c, Init(c))
  {
    var s := Init(c);
    assert forall r: nat, b: nat | r < c.world && b < BLOCKS :: GroupOk(c, s, r, b);
  }
}
