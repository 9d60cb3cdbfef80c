/** Deadlock freedom and termination of the all-reduce protocol. */
module AllReduceProgress {
  import opened FiniteSums
  import opened AllReduceGeometry
  import opened AllReduceProtocol
  import opened AllReduceInvariant
  import opened AllReduceSync
  import opened AllReduceValues

  // ---------- no arrival gets lost ----------

  /** Rendezvous a group has completed. */
  function Completed<F>(g: Group<F>): int {
    if g.stage.Meeting() then g.target - 1 else g.target
  }

  predicate IsRendezvous(calls: seq<Call>, n: nat, stage: Stage) {
    n < |calls| && stage.Meeting() && (stage.Mid? ==> calls[n].TwoShot())
  }

  /** Rank r's group b has told q about the rendezvous `stage` of call n. */
  predicate Told<T, F>(c: Config<T, F>, s: State<T, F>, r: nat, b: nat, q: nat, n: nat, stage: Stage)
    requires Shape(c, s) && r < c.world && b < BLOCKS && IsRendezvous(c.calls, n, stage)
  {
    var g := s.ranks[r].groups[b];
    var v := Begun(c.calls, n, stage);
    v <= Completed(g) || (v == g.target && g.stage.Meeting() && q in g.published)
  }

  ghost predicate Announced<T, F>(c: Config<T, F>, s: State<T, F>)
    requires Shape(c, s)
  {
    && (forall r: nat, b: nat, q: nat, n: nat, stage: Stage |
          r < c.world && b < BLOCKS && q < c.world && IsRendezvous(c.calls, n, stage)
          && Told(c, s, r, b, q, n, stage) ::
          FlagAt(s, Slot(q, PhaseOf(stage), b, r)) >= Begun(c.calls, n, stage))
    && (forall r: nat, b: nat | r < c.world && b < BLOCKS ::
          s.ranks[r].groups[b].observed <= s.ranks[r].groups[b].published)
  }

  lemma BegunInjective(calls: seq<Call>, m: nat, at: Stage, n: nat, stage: Stage)
    requires IsRendezvous(calls, m, at) && IsRendezvous(calls, n, stage)
    requires Begun(calls, m, at) == Begun(calls, n, stage)
    ensures m == n && at == stage
  {
    assert Base(calls, n + 1) == Base(calls, n) + Rendezvous(calls[n]);
    SameCall(calls, m, at, n, stage);
  }

  lemma AnnouncedKept<T, F>(c: Config<T, F>, s: State<T, F>, step: Step)
    requires Inv(c, s) && Announced(c, s) && Enabled(c, s, step)
    ensures Inv(c, Apply(c, s, step)) && Announced(c, Apply(c, s, step))
  {
    StepKeepsInv(c, s, step);
    var s' := Apply(c, s, step);
    forall r: nat, b: nat | r < c.world && b < BLOCKS
      ensures s'.ranks[r].groups[b].observed <= s'.ranks[r].groups[b].published
    {
      assert s.ranks[r].groups[b].observed <= s.ranks[r].groups[b].published;
    }
    forall r: nat, b: nat, q: nat, n: nat, stage: Stage |
      r < c.world && b < BLOCKS && q < c.world && IsRendezvous(c.calls, n, stage)
      && Told(c, s', r, b, q, n, stage)
      ensures FlagAt(s', Slot(q, PhaseOf(stage), b, r)) >= Begun(c.calls, n, stage)
    {
      ToldAfter(c, s, step, r, b, q, n, stage);
      FlagsGrow(c, s, step, Slot(q, PhaseOf(stage), b, r));
    }
  }

  /** A step elsewhere, or on the whole rank, tells nobody anything new. */
  lemma ToldElsewhere<T, F>(c: Config<T, F>, s: State<T, F>, step: Step, r: nat, b: nat, q: nat, n: nat, stage: Stage)
    requires Shape(c, s) && Enabled(c, s, step) && Shape(c, Apply(c, s, step))
    requires r < c.world && b < BLOCKS && IsRendezvous(c.calls, n, stage) && Elsewhere(step, r, b)
    ensures Told(c, Apply(c, s, step), r, b, q, n, stage) == Told(c, s, r, b, q, n, stage)
  {
    GroupAfterElsewhere(c, s, step, r, b);
    hide Apply, Enabled, Elsewhere, Begun;
  }

  lemma ToldAfterRank<T, F>(c: Config<T, F>, s: State<T, F>, step: Step, b: nat, q: nat, n: nat, stage: Stage)
    requires Shape(c, s) && Enabled(c, s, step) && Shape(c, Apply(c, s, step))
    requires b < BLOCKS && IsRendezvous(c.calls, n, stage) && (step.StageCell? || step.Launch? || step.Retire?)
    ensures step.r < c.world
    ensures Told(c, Apply(c, s, step), step.r, b, q, n, stage) ==> Told(c, s, step.r, b, q, n, stage)
  {
    hide Begun, InSlice, InStrided;
  }

  /** Publishing is what tells a peer, and the flag is then there. */
  lemma ToldAfterPublish<T, F>(c: Config<T, F>, s: State<T, F>, step: Step, q: nat, n: nat, stage: Stage)
    requires Inv(c, s) && Enabled(c, s, step) && Shape(c, Apply(c, s, step)) && step.Publish?
    requires IsRendezvous(c.calls, n, stage) && Told(c, Apply(c, s, step), step.r, step.b, q, n, stage)
    ensures Told(c, s, step.r, step.b, q, n, stage) ||
            FlagAt(Apply(c, s, step), Slot(q, PhaseOf(stage), step.b, step.r)) >= Begun(c.calls, n, stage)
  {
    assert GroupOk(c, s, step.r, step.b);
    hide Base, Inv;
    var g := s.ranks[step.r].groups[step.b];
    if q == step.q && Begun(c.calls, n, stage) == g.target {
      BegunInjective(c.calls, s.ranks[step.r].call, g.stage, n, stage);
    }
  }

  /** Whoever leaves a rendezvous has told everybody already. */
  lemma ToldAfterMove<T, F>(c: Config<T, F>, s: State<T, F>, step: Step, q: nat, n: nat, stage: Stage)
    requires Inv(c, s) && Announced(c, s) && Enabled(c, s, step) && Shape(c, Apply(c, s, step))
    requires step.Enter? || step.Observe? || step.Bump? || step.Leave? || step.Accumulate? || step.Store? || step.Copy?
    requires q < c.world && IsRendezvous(c.calls, n, stage) && Told(c, Apply(c, s, step), step.r, step.b, q, n, stage)
    ensures Told(c, s, step.r, step.b, q, n, stage)
  {
    assert GroupOk(c, s, step.r, step.b);
    var g := s.ranks[step.r].groups[step.b];
    assert g.observed <= g.published;
    hide Begun, InSlice, InStrided, Inv, Announced;
    if step.Leave? {
      assert q in g.observed;
    }
  }

  lemma ToldAfter<T, F>(c: Config<T, F>, s: State<T, F>, step: Step, r: nat, b: nat, q: nat, n: nat, stage: Stage)
    requires Inv(c, s) && Announced(c, s) && Enabled(c, s, step) && Shape(c, Apply(c, s, step))
    requires r < c.world && b < BLOCKS && q < c.world && IsRendezvous(c.calls, n, stage)
    requires Told(c, Apply(c, s, step), r, b, q, n, stage)
    ensures Told(c, s, r, b, q, n, stage) ||
            FlagAt(Apply(c, s, step), Slot(q, PhaseOf(stage), b, r)) >= Begun(c.calls, n, stage)
  {
    hide Told, Apply, Announced, StagingOk, PartOk, OutsOk, Begun, FlagAt;
    if Elsewhere(step, r, b) {
      ToldElsewhere(c, s, step, r, b, q, n, stage);
    } else if step.StageCell? || step.Launch? || step.Retire? {
      ToldAfterRank(c, s, step, b, q, n, stage);
    } else if step.Publish? {
      ToldAfterPublish(c, s, step, q, n, stage);
    } else {
      ToldAfterMove(c, s, step, q, n, stage);
    }
  }

  lemma InitAnnounced<T, F>(c: Config<T, F>)
    requires c.Valid()
    ensures Shape(c, Init(c)) && Announced(c, Init(c))
  {
    forall n: nat, stage: Stage | IsRendezvous(c.calls, n, stage)
      ensures Begun(c.calls, n, stage) > 0
    {
    }
  }

  // ---------- deadlock freedom ----------

  ghost predicate NoStep<T, F>(c: Config<T, F>, s: State<T, F>)
    requires Shape(c, s)
  {
    forall step: Step :: !Enabled(c, s, step)
  }

  predicate Waiting<T, F>(c: Config<T, F>, s: State<T, F>, r: nat, b: nat)
    requires Shape(c, s)
  {
    && Live(c, s, r, b)
    && s.ranks[r].groups[b].stage.Meeting()
    && forall q: nat | q < c.world :: q in s.ranks[r].groups[b].published
  }

  /** When nothing can move, an unfinished rank is inside its reduce kernel. */
  lemma StuckRankRuns<T, F>(c: Config<T, F>, s: State<T, F>, r: nat)
    requires Shape(c, s) && NoStep(c, s) && r < c.world && s.ranks[r].call < |c.calls|
    ensures s.ranks[r].running
  {
    forall i: nat | i < c.calls[s.ranks[r].call].numel && !s.ranks[r].running
      ensures i in s.ranks[r].staged
    {
      assert !Enabled(c, s, StageCell(r, i));
    }
    assert !Enabled(c, s, Launch(r));
  }

  lemma StuckWork<T, F>(c: Config<T, F>, s: State<T, F>, r: nat, b: nat)
    requires Inv(c, s) && NoStep(c, s) && Live(c, s, r, b)
    ensures !s.ranks[r].groups[b].stage.Work?
  {
    var n, g := s.ranks[r].call, s.ranks[r].groups[b];
    forall i: nat | i < c.calls[n].numel && WorkItem(c, n, r, b, i) && g.stage.Work?
      ensures i in g.done
    {
      assert ElementOk(c, s, r, b, i);
      assert !Enabled(c, s, Accumulate(r, b, i)) && !Enabled(c, s, Step.Store(r, b, i));
    }
    assert !Enabled(c, s, Bump(r, b)) && !Enabled(c, s, Enter(r, b));
  }

  lemma StuckGather<T, F>(c: Config<T, F>, s: State<T, F>, r: nat, b: nat)
    requires Inv(c, s) && NoStep(c, s) && Live(c, s, r, b)
    ensures !s.ranks[r].groups[b].stage.Gather?
  {
    var n, g := s.ranks[r].call, s.ranks[r].groups[b];
    forall i: nat | i < c.calls[n].numel && BlockOf(c.calls[n].numel, c.world, i) == b && g.stage.Gather?
      ensures i in g.done
    {
      SlicesPartition(c.calls[n].numel, c.world, i);
      assert !Enabled(c, s, Copy(r, b, OwnerOf(c.calls[n].numel, c.world, i), i));
    }
    assert !Enabled(c, s, Bump(r, b)) && !Enabled(c, s, Enter(r, b));
  }

  /** ... and each of its groups has left or is waiting for peers' flags. */
  lemma StuckGroupWaits<T, F>(c: Config<T, F>, s: State<T, F>, r: nat, b: nat)
    requires Inv(c, s) && NoStep(c, s) && Live(c, s, r, b)
    ensures s.ranks[r].groups[b].stage.Exit? || Waiting(c, s, r, b)
  {
    StuckWork(c, s, r, b);
    StuckGather(c, s, r, b);
    assert !Enabled(c, s, Enter(r, b));
    forall q: nat | q < c.world && s.ranks[r].groups[b].stage.Meeting()
      ensures q in s.ranks[r].groups[b].published
    {
      assert !Enabled(c, s, Publish(r, b, q));
    }
  }

  lemma StuckRankHasWaiter<T, F>(c: Config<T, F>, s: State<T, F>, r: nat) returns (b: nat)
    requires Inv(c, s) && NoStep(c, s) && r < c.world && s.ranks[r].running
    ensures b < BLOCKS && Waiting(c, s, r, b)
  {
    assert !Enabled(c, s, Retire(r));
    b :| 0 <= b < BLOCKS && !s.ranks[r].groups[b].stage.Exit?;
    StuckGroupWaits(c, s, r, b);
  }

  /** A waiting group misses some peer's flag. */
  lemma WaiterMissesPeer<T, F>(c: Config<T, F>, s: State<T, F>, r: nat, b: nat) returns (q: nat)
    requires Inv(c, s) && NoStep(c, s) && Waiting(c, s, r, b)
    ensures q < c.world
    ensures FlagAt(s, Slot(r, PhaseOf(s.ranks[r].groups[b].stage), b, q)) < s.ranks[r].groups[b].target
  {
    var g := s.ranks[r].groups[b];
    if 0 in g.observed {
      assert !Enabled(c, s, Leave(r, b)) && !Enabled(c, s, Bump(r, b));
      q :| q < c.world && q !in g.observed;
    } else {
      q := 0;
    }
    assert !Enabled(c, s, Observe(r, b, q));
  }

  /** A missed peer is itself held up, at an earlier rendezvous: waiting chains
      descend, so there is no waiting cycle. */
  lemma WaitingChainDescends<T, F>(c: Config<T, F>, s: State<T, F>, r: nat, b: nat) returns (q: nat, b': nat)
    requires Inv(c, s) && Announced(c, s) && NoStep(c, s) && Waiting(c, s, r, b)
    ensures Waiting(c, s, q, b') && Target(s, q, b') < Target(s, r, b)
  {
    q := WaiterMissesPeer(c, s, r, b);
    var n, stage := s.ranks[r].call, s.ranks[r].groups[b].stage;
    assert GroupOk(c, s, r, b) && GroupOk(c, s, q, b);
    assert IsRendezvous(c.calls, n, stage);
    assert !Told(c, s, q, b, r, n, stage);
    if s.ranks[q].call == |c.calls| {
      BaseMonotone(c.calls, n + 1, |c.calls|);
      assert false;
    }
    StuckRankRuns(c, s, q);
    StuckGroupWaits(c, s, q, b);
    if s.ranks[q].groups[b].stage.Exit? {
      b' := StuckRankHasWaiter(c, s, q);
      assert GroupOk(c, s, q, b');
    } else {
      b' := b;
    }
  }

  lemma {:induction false} NobodyWaitsForever<T, F>(c: Config<T, F>, s: State<T, F>, r: nat, b: nat)
    requires Inv(c, s) && Announced(c, s) && NoStep(c, s) && Waiting(c, s, r, b)
    ensures false
    decreases Target(s, r, b)
  {
    var q, b' := WaitingChainDescends(c, s, r, b);
    NobodyWaitsForever(c, s, q, b');
  }

  /** Deadlock freedom: short of the final state some step is always enabled. */
  lemma DeadlockFree<T, F>(c: Config<T, F>, s: State<T, F>)
    requires Inv(c, s) && Announced(c, s) && !Final(c, s)
    ensures exists step: Step :: Enabled(c, s, step)
  {
    if NoStep(c, s) {
      var r :| 0 <= r < c.world && s.ranks[r].call != |c.calls|;
      StuckRankRuns(c, s, r);
      var b := StuckRankHasWaiter(c, s, r);
      NobodyWaitsForever(c, s, r, b);
    }
  }

  // ---------- termination ----------

  function ElementLeft<F>(world: nat, g: Group<F>, i: nat): nat {
    if i in g.done then 0 else if Progress(g, i) <= world then 1 + world - Progress(g, i) else 1
  }

  function PeerLeft<F>(g: Group<F>, q: nat): nat {
    (if q in g.published then 0 else 1) + (if q in g.observed then 0 else 1)
  }

  function ElementsLeft<F>(world: nat, g: Group<F>): nat -> nat {
    (i: nat) => ElementLeft(world, g, i)
  }

  function PeersLeft<F>(g: Group<F>): nat -> nat {
    (q: nat) => PeerLeft(g, q)
  }

  /** Steps a group may still take within its present stage. */
  function StageLeft<F>(world: nat, numel: nat, g: Group<F>): nat {
    SumTo(ElementsLeft(world, g), numel) + SumTo(PeersLeft(g), world) + (if g.generation == g.target then 0 else 1)
  }

  function StageCap(world: nat, numel: nat): nat {
    numel * (world + 1) + world * 2 + 2
  }

  lemma StageLeftBelowCap<F>(world: nat, numel: nat, g: Group<F>)
    ensures StageLeft(world, numel, g) < StageCap(world, numel)
  {
    SumBound(ElementsLeft(world, g), numel, world + 1);
    SumBound(PeersLeft(g), world, 2);
  }

  function StagesLeft(stage: Stage, cap: nat): nat {
    match stage
    case Idle => 6 * cap
    case Arrive => 5 * cap
    case Work => 4 * cap
    case Mid => 3 * cap
    case Gather => 2 * cap
    case Depart => 1 * cap
    case Exit => 0
  }

  function GroupLeft<F>(world: nat, numel: nat, g: Group<F>): nat {
    StagesLeft(g.stage, StageCap(world, numel)) + StageLeft(world, numel, g)
  }

  function GroupsLeft<F>(world: nat, numel: nat, groups: seq<Group<F>>): nat -> nat {
    (b: nat) => if b < |groups| then GroupLeft(world, numel, groups[b]) else 0
  }

  function CellsLeft(staged: set<nat>): nat -> nat {
    (i: nat) => if i in staged then 0 else 1
  }

  /** Most steps a rank can take in one call, and in the calls from n on. */
  function CallCap(world: nat, call: Call): nat {
    2 + call.numel * 1 + BLOCKS * (7 * StageCap(world, call.numel))
  }

  function CallsLeft(world: nat, calls: seq<Call>, n: nat): nat
    decreases |calls| - n
  {
    if n < |calls| then CallCap(world, calls[n]) + CallsLeft(world, calls, n + 1) else 0
  }

  function PresentLeft<F>(world: nat, call: Call, rank: Rank<F>): nat {
    1 + (if rank.running then 0 else 1) + SumTo(CellsLeft(rank.staged), call.numel)
    + SumTo(GroupsLeft(world, call.numel, rank.groups), BLOCKS)
  }

  function RankLeft<F>(world: nat, calls: seq<Call>, rank: Rank<F>): nat {
    if rank.call < |calls|
    then PresentLeft(world, calls[rank.call], rank) + CallsLeft(world, calls, rank.call + 1)
    else 0
  }

  function RanksLeft<F>(world: nat, calls: seq<Call>, ranks: seq<Rank<F>>): nat -> nat {
    (r: nat) => if r < |ranks| then RankLeft(world, calls, ranks[r]) else 0
  }

  /** Upper bound on the number of steps that can still happen. */
  function Measure<T, F>(c: Config<T, F>, s: State<T, F>): nat {
    SumTo(RanksLeft(c.world, c.calls, s.ranks), c.world)
  }

  lemma PresentLeftCapped<F>(world: nat, call: Call, rank: Rank<F>)
    ensures PresentLeft(world, call, rank) <= CallCap(world, call)
  {
    SumBound(CellsLeft(rank.staged), call.numel, 1);
    var cap := StageCap(world, call.numel);
    forall b: nat | b < BLOCKS
      ensures GroupsLeft(world, call.numel, rank.groups)(b) <= 7 * cap
    {
      if b < |rank.groups| {
        StageLeftBelowCap(world, call.numel, rank.groups[b]);
      }
    }
    SumBound(GroupsLeft(world, call.numel, rank.groups), BLOCKS, 7 * cap);
  }

  lemma ElementStepDecreases<F>(world: nat, numel: nat, g: Group<F>, g': Group<F>, i: nat)
    requires i < numel && ElementLeft(world, g', i) < ElementLeft(world, g, i)
    requires forall j: nat | j < numel && j != i :: ElementLeft(world, g', j) == ElementLeft(world, g, j)
    requires g'.published == g.published && g'.observed == g.observed
    requires g'.generation == g.generation && g'.target == g.target
    ensures StageLeft(world, numel, g') < StageLeft(world, numel, g)
  {
    SumLess(ElementsLeft(world, g), ElementsLeft(world, g'), numel, i);
    SumMono(PeersLeft(g), PeersLeft(g'), world);
  }

  lemma PeerStepDecreases<F>(world: nat, numel: nat, g: Group<F>, g': Group<F>, q: nat)
    requires q < world && PeerLeft(g', q) < PeerLeft(g, q)
    requires forall p: nat | p < world && p != q :: PeerLeft(g', p) == PeerLeft(g, p)
    requires g'.part == g.part && g'.done == g.done
    requires g'.generation == g.generation && g'.target == g.target
    ensures StageLeft(world, numel, g') < StageLeft(world, numel, g)
  {
    SumLess(PeersLeft(g), PeersLeft(g'), world, q);
    SumMono(ElementsLeft(world, g), ElementsLeft(world, g'), numel);
  }

  lemma ElementStep<T, F>(c: Config<T, F>, s: State<T, F>, step: Step)
    requires Inv(c, s) && Enabled(c, s, step) && (step.Accumulate? || step.Store? || step.Copy?)
    ensures var numel := c.calls[s.ranks[step.r].call].numel;
            StageLeft(c.world, numel, Apply(c, s, step).ranks[step.r].groups[step.b])
            < StageLeft(c.world, numel, s.ranks[step.r].groups[step.b])
  {
    var numel := c.calls[s.ranks[step.r].call].numel;
    SlicesPartition(numel, c.world, step.i);
    ElementStepDecreases(c.world, numel, s.ranks[step.r].groups[step.b],
                         Apply(c, s, step).ranks[step.r].groups[step.b], step.i);
  }

  lemma PeerStep<T, F>(c: Config<T, F>, s: State<T, F>, step: Step)
    requires Inv(c, s) && Enabled(c, s, step) && (step.Publish? || step.Observe?)
    ensures var numel := c.calls[s.ranks[step.r].call].numel;
            StageLeft(c.world, numel, Apply(c, s, step).ranks[step.r].groups[step.b])
            < StageLeft(c.world, numel, s.ranks[step.r].groups[step.b])
  {
    var numel := c.calls[s.ranks[step.r].call].numel;
    PeerStepDecreases(c.world, numel, s.ranks[step.r].groups[step.b],
                      Apply(c, s, step).ranks[step.r].groups[step.b], step.q);
  }

  lemma BumpStep<F>(world: nat, numel: nat, g: Group<F>)
    requires g.generation != g.target
    ensures StageLeft(world, numel, g.(generation := g.target)) < StageLeft(world, numel, g)
  {
    var g' := g.(generation := g.target);
    SumMono(PeersLeft(g), PeersLeft(g'), world);
    SumMono(ElementsLeft(world, g), ElementsLeft(world, g'), numel);
  }

  lemma StageStep<F>(world: nat, numel: nat, g: Group<F>, g': Group<F>)
    requires StagesLeft(g'.stage, StageCap(world, numel)) + StageCap(world, numel) <= StagesLeft(g.stage, StageCap(world, numel))
    ensures GroupLeft(world, numel, g') < GroupLeft(world, numel, g)
  {
    StageLeftBelowCap(world, numel, g');
  }

  /** A step inside a group brings that group closer to its exit. */
  lemma GroupStepDecreases<T, F>(c: Config<T, F>, s: State<T, F>, step: Step)
    requires Inv(c, s) && Enabled(c, s, step)
    requires !step.StageCell? && !step.Launch? && !step.Retire?
    ensures var numel := c.calls[s.ranks[step.r].call].numel;
            GroupLeft(c.world, numel, Apply(c, s, step).ranks[step.r].groups[step.b])
            < GroupLeft(c.world, numel, s.ranks[step.r].groups[step.b])
  {
    var numel := c.calls[s.ranks[step.r].call].numel;
    var g := s.ranks[step.r].groups[step.b];
    if step.Publish? || step.Observe? {
      PeerStep(c, s, step);
    } else if step.Bump? {
      BumpStep(c.world, numel, g);
    } else if step.Enter? || step.Leave? {
      StageStep(c.world, numel, g, Apply(c, s, step).ranks[step.r].groups[step.b]);
    } else {
      ElementStep(c, s, step);
    }
  }

  lemma StagedStep<F>(world: nat, call: Call, rank: Rank<F>, i: nat)
    requires i < call.numel && i !in rank.staged
    ensures PresentLeft(world, call, rank.(staged := rank.staged + {i})) < PresentLeft(world, call, rank)
  {
    SumLess(CellsLeft(rank.staged), CellsLeft(rank.staged + {i}), call.numel, i);
  }

  lemma GroupsStep<F>(world: nat, numel: nat, groups: seq<Group<F>>, b: nat, g: Group<F>)
    requires b < |groups| == BLOCKS && GroupLeft(world, numel, g) < GroupLeft(world, numel, groups[b])
    ensures SumTo(GroupsLeft(world, numel, groups[b := g]), BLOCKS) < SumTo(GroupsLeft(world, numel, groups), BLOCKS)
  {
    hide GroupLeft, SumTo;
    SumLess(GroupsLeft(world, numel, groups), GroupsLeft(world, numel, groups[b := g]), BLOCKS, b);
  }

  lemma RetireStep<F>(world: nat, calls: seq<Call>, rank: Rank<F>, next: Rank<F>)
    requires rank.call < |calls| && next.call == rank.call + 1
    ensures RankLeft(world, calls, next) < RankLeft(world, calls, rank)
  {
    hide CallCap, StageCap, SumTo;
    if next.call < |calls| {
      PresentLeftCapped(world, calls[next.call], next);
    }
  }

  lemma RankStepDecreases<T, F>(c: Config<T, F>, s: State<T, F>, step: Step)
    requires Inv(c, s) && Enabled(c, s, step)
    ensures RankLeft(c.world, c.calls, Apply(c, s, step).ranks[step.r]) < RankLeft(c.world, c.calls, s.ranks[step.r])
  {
    hide CallCap, StageCap, SumTo;
    var rank := s.ranks[step.r];
    if step.StageCell? {
      StagedStep(c.world, c.calls[rank.call], rank, step.i);
    } else if step.Retire? {
      RetireStep(c.world, c.calls, rank, Apply(c, s, step).ranks[step.r]);
    } else if !step.Launch? {
      GroupStepDecreases(c, s, step);
      var g := Apply(c, s, step).ranks[step.r].groups[step.b];
      GroupsStep(c.world, c.calls[rank.call].numel, rank.groups, step.b, g);
      assert Apply(c, s, step).ranks[step.r] == rank.(groups := rank.groups[step.b := g]);
    }
  }

  lemma RanksStep<F>(world: nat, calls: seq<Call>, ranks: seq<Rank<F>>, r: nat, rank: Rank<F>)
    requires r < |ranks| == world && RankLeft(world, calls, rank) < RankLeft(world, calls, ranks[r])
    ensures SumTo(RanksLeft(world, calls, ranks[r := rank]), world) < SumTo(RanksLeft(world, calls, ranks), world)
  {
    hide RankLeft, SumTo;
    SumLess(RanksLeft(world, calls, ranks), RanksLeft(world, calls, ranks[r := rank]), world, r);
  }

  /** Termination: every step of every interleaving lowers the measure. */
  lemma StepDecreases<T, F>(c: Config<T, F>, s: State<T, F>, step: Step)
    requires Inv(c, s) && Enabled(c, s, step)
    ensures Measure(c, Apply(c, s, step)) < Measure(c, s)
  {
    var rank := Apply(c, s, step).ranks[step.r];
    RankStepDecreases(c, s, step);
    RanksStep(c.world, c.calls, s.ranks, step.r, rank);
    assert Apply(c, s, step).ranks == s.ranks[step.r := rank];
  }
}
