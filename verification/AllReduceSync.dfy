/** Every step keeps the synchronisation part of the invariant. */
module AllReduceSync {
  import opened AllReduceGeometry
  import opened AllReduceProtocol
  import opened AllReduceInvariant

  /** The step touches neither group b of rank r nor the rank around it. */
  predicate Elsewhere(step: Step, r: nat, b: nat) {
    step.r != r ||
    match step
    case StageCell(_, _) => false
    case Launch(_) => false
    case Retire(_) => false
    case _ => step.b != b
  }

  /** What a step leaves alone. */
  lemma GroupAfterElsewhere<T, F>(c: Config<T, F>, s: State<T, F>, step: Step, r: nat, b: nat)
    requires Shape(c, s) && Enabled(c, s, step) && Shape(c, Apply(c, s, step)) && r < c.world && b < BLOCKS
    requires Elsewhere(step, r, b)
    ensures Apply(c, s, step).ranks[r].groups[b] == s.ranks[r].groups[b]
    ensures Apply(c, s, step).ranks[r].running == s.ranks[r].running && Apply(c, s, step).ranks[r].call == s.ranks[r].call
  {
  }

  lemma GroupOkElsewhere<T, F>(c: Config<T, F>, s: State<T, F>, step: Step, r: nat, b: nat)
    requires Shape(c, s) && Enabled(c, s, step) && Shape(c, Apply(c, s, step)) && r < c.world && b < BLOCKS
    requires GroupOk(c, s, r, b) && Elsewhere(step, r, b)
    ensures GroupOk(c, Apply(c, s, step), r, b)
  {
    GroupAfterElsewhere(c, s, step, r, b);
    hide Apply, Enabled, Elsewhere, Begun;
  }

  lemma GroupOkRank<T, F>(c: Config<T, F>, s: State<T, F>, step: Step, b: nat)
    requires Shape(c, s) && Enabled(c, s, step) && Shape(c, Apply(c, s, step)) && b < BLOCKS
    requires (step.StageCell? || step.Launch? || step.Retire?) && GroupOk(c, s, step.r, b)
    ensures GroupOk(c, Apply(c, s, step), step.r, b)
  {
  }

  lemma GroupOkEnter<T, F>(c: Config<T, F>, s: State<T, F>, step: Step)
    requires Shape(c, s) && Enabled(c, s, step) && Shape(c, Apply(c, s, step))
    requires step.Enter? && GroupOk(c, s, step.r, step.b)
    ensures GroupOk(c, Apply(c, s, step), step.r, step.b)
  {
    hide InSlice, InStrided;
  }

  lemma GroupOkMeeting<T, F>(c: Config<T, F>, s: State<T, F>, step: Step)
    requires Shape(c, s) && Enabled(c, s, step) && Shape(c, Apply(c, s, step))
    requires (step.Publish? || step.Observe? || step.Bump? || step.Leave?) && GroupOk(c, s, step.r, step.b)
    ensures GroupOk(c, Apply(c, s, step), step.r, step.b)
  {
    hide InSlice, InStrided, Base;
  }

  lemma GroupOkData<T, F>(c: Config<T, F>, s: State<T, F>, step: Step)
    requires Shape(c, s) && Enabled(c, s, step) && Shape(c, Apply(c, s, step))
    requires (step.Accumulate? || step.Store? || step.Copy?) && GroupOk(c, s, step.r, step.b)
    ensures GroupOk(c, Apply(c, s, step), step.r, step.b)
  {
    hide InSlice, InStrided, Base;
  }

  lemma LocalKept<T, F>(c: Config<T, F>, s: State<T, F>, step: Step)
    requires Shape(c, s) && Local(c, s) && Enabled(c, s, step)
    ensures Shape(c, Apply(c, s, step)) && Local(c, Apply(c, s, step))
  {
    ApplyKeepsShape(c, s, step);
    hide Apply, GroupOk, Enabled;
    forall r: nat, b: nat | r < c.world && b < BLOCKS
      ensures GroupOk(c, Apply(c, s, step), r, b)
    {
      assert GroupOk(c, s, r, b);
      if Elsewhere(step, r, b) {
        GroupOkElsewhere(c, s, step, r, b);
      } else {
        match step
        case StageCell(_, _) => GroupOkRank(c, s, step, b);
        case Launch(_) => GroupOkRank(c, s, step, b);
        case Retire(_) => GroupOkRank(c, s, step, b);
        case Enter(_, _) => GroupOkEnter(c, s, step);
        case Accumulate(_, _, _) => GroupOkData(c, s, step);
        case Store(_, _, _) => GroupOkData(c, s, step);
        case Copy(_, _, _, _) => GroupOkData(c, s, step);
        case _ => GroupOkMeeting(c, s, step);
      }
    }
  }

  /** Targets never move backwards, and only Enter moves one, by one. */
  lemma TargetAfter<T, F>(c: Config<T, F>, s: State<T, F>, step: Step, r: nat, b: nat)
    requires Shape(c, s) && Local(c, s) && Enabled(c, s, step) && r < c.world && b < BLOCKS
    requires Shape(c, Apply(c, s, step))
    ensures Target(Apply(c, s, step), r, b) ==
            Target(s, r, b) + if step == Enter(r, b) then 1 else 0
  {
    assert GroupOk(c, s, r, b);
  }

  lemma FlagsSoundKept<T, F>(c: Config<T, F>, s: State<T, F>, step: Step)
    requires Sync(c, s) && Enabled(c, s, step) && Shape(c, Apply(c, s, step))
    ensures FlagsSound(c, Apply(c, s, step))
  {
    var s' := Apply(c, s, step);
    forall slot: Slot | slot.src < c.world && slot.block < BLOCKS
      ensures FlagAt(s', slot) <= Target(s', slot.src, slot.block)
    {
      TargetAfter(c, s, step, slot.src, slot.block);
      assert FlagAt(s, slot) <= Target(s, slot.src, slot.block);
    }
  }

  /** Being assured after a step was so before it, or is what an Observe just saw. */
  lemma AssuredAfter<T, F>(c: Config<T, F>, s: State<T, F>, step: Step, q: nat, b: nat, k: nat)
    requires Sync(c, s) && Enabled(c, s, step) && Shape(c, Apply(c, s, step))
    requires q < c.world && b < BLOCKS && k < c.world
    requires Assured(c, Apply(c, s, step), q, b, k)
    ensures Assured(c, s, q, b, k) || Target(s, k, b) >= Target(s, q, b)
    ensures step != Enter(q, b)
  {
    if step == Observe(q, b, k) {
      var slot := Slot(q, PhaseOf(s.ranks[q].groups[b].stage), b, k);
      assert FlagAt(s, slot) <= Target(s, slot.src, slot.block);
    }
  }

  lemma MetKept<T, F>(c: Config<T, F>, s: State<T, F>, step: Step)
    requires Sync(c, s) && Enabled(c, s, step) && Shape(c, Apply(c, s, step))
    ensures Met(c, Apply(c, s, step))
  {
    var s' := Apply(c, s, step);
    forall q: nat, b: nat, k: nat | q < c.world && b < BLOCKS && k < c.world && Assured(c, s', q, b, k)
      ensures Target(s', k, b) >= Target(s', q, b)
    {
      AssuredAfter(c, s, step, q, b, k);
      TargetAfter(c, s, step, k, b);
      TargetAfter(c, s, step, q, b);
    }
  }

  lemma CloseKept<T, F>(c: Config<T, F>, s: State<T, F>, step: Step)
    requires Sync(c, s) && Enabled(c, s, step) && Shape(c, Apply(c, s, step))
    ensures Close(c, Apply(c, s, step))
  {
    var s' := Apply(c, s, step);
    forall q: nat, b: nat, k: nat | q < c.world && b < BLOCKS && k < c.world
      ensures Target(s', k, b) + 1 >= Target(s', q, b)
    {
      TargetAfter(c, s, step, k, b);
      TargetAfter(c, s, step, q, b);
      if step == Enter(q, b) {
        assert Assured(c, s, q, b, k);
      }
    }
  }

  lemma SyncKept<T, F>(c: Config<T, F>, s: State<T, F>, step: Step)
    requires Sync(c, s) && Enabled(c, s, step)
    ensures Sync(c, Apply(c, s, step))
  {
    LocalKept(c, s, step);
    FlagsSoundKept(c, s, step);
    MetKept(c, s, step);
    CloseKept(c, s, step);
  }

  /** Flags only grow. */
  lemma FlagsGrow<T, F>(c: Config<T, F>, s: State<T, F>, step: Step, slot: Slot)
    requires Sync(c, s) && Enabled(c, s, step)
    ensures FlagAt(Apply(c, s, step), slot) >= FlagAt(s, slot)
  {
    if step.Publish? && slot == Slot(step.q, PhaseOf(s.ranks[step.r].groups[step.b].stage), step.b, step.r) {
      assert FlagAt(s, slot) <= Target(s, slot.src, slot.block);
    }
  }

  /** While a group of q is between its arrive rendezvous and the one that ends the
      phase, every peer's same-numbered group is in the same call and no further than
      the next rendezvous. */
  lemma PeersInStep<T, F>(c: Config<T, F>, s: State<T, F>, q: nat, b: nat, k: nat)
    requires Sync(c, s) && Live(c, s, q, b) && k < c.world
    requires s.ranks[q].groups[b].stage.Work? || s.ranks[q].groups[b].stage.Gather?
    ensures s.ranks[k].running && s.ranks[k].call == s.ranks[q].call
    ensures s.ranks[q].groups[b].stage.Work? ==>
              var at := s.ranks[k].groups[b].stage;
              at.Arrive? || at.Work? ||
              (if c.calls[s.ranks[q].call].TwoShot() then at.Mid? else at.Depart?)
    ensures s.ranks[q].groups[b].stage.Gather? ==>
              var at := s.ranks[k].groups[b].stage;
              at.Mid? || at.Gather? || at.Depart?
  {
    assert GroupOk(c, s, q, b) && GroupOk(c, s, k, b);
    assert Assured(c, s, q, b, k);
    assert Target(s, q, b) <= Target(s, k, b) <= Target(s, q, b) + 1;
    var n, stage := s.ranks[q].call, s.ranks[q].groups[b].stage;
    var m, at := s.ranks[k].call, s.ranks[k].groups[b].stage;
    assert Base(c.calls, n + 1) == Base(c.calls, n) + Rendezvous(c.calls[n]);
    if Target(s, k, b) > Target(s, q, b) {
      assert !Assured(c, s, k, b, q);
    }
    SameCall(c.calls, m, at, n, stage);
  }
}
