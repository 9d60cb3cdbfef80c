/** The all-reduce as a step relation over all ranks and work-groups. One step is
    one staging store, one flag store, one successful flag load, one generation
    store, one staging load with its addition, one result store, or a kernel
    boundary. Any enabled step of any group may come next. */
module AllReduceProtocol {
  import opened AllReduceGeometry

  /** Storage type T, accumulator type F; `plus` and the two casts stay uninterpreted. */
  datatype Arith<!T, !F> = Arith(zero: F, widen: T -> F, plus: (F, F) -> F, narrow: F -> T)

  /** The fixed-order sum: left to right over the ranks. */
  function Fold<T, F>(arith: Arith<T, F>, column: seq<T>): F {
    if |column| == 0 then arith.zero
    else arith.plus(Fold(arith, column[..|column| - 1]), arith.widen(column[|column| - 1]))
  }

  /** input(n, r, i) is element i of rank r's input buffer in call n;
      `blank` is what a zero-filled staging cell holds. */
  datatype Config<!T, !F> = Config(
    world: nat, calls: seq<Call>, input: (nat, nat, nat) -> T, blank: T, arith: Arith<T, F>)
  {
    predicate Valid() {
      world > 0
    }

    /** What ranks 0..k-1 put in at i in call n. */
    function Inputs(n: nat, i: nat, k: nat): (column: seq<T>)
      ensures |column| == k && forall r: nat | r < k :: column[r] == input(n, r, i)
    {
      seq(k, (r: nat) => input(n, r, i))
    }

    /** The accumulator after adding ranks 0..k-1 in rank order. */
    function PartialSum(n: nat, i: nat, k: nat): F {
      Fold(arith, Inputs(n, i, k))
    }

    /** What call n has to leave in out[i] on every rank. */
    function Reduced(n: nat, i: nat): T {
      arith.narrow(PartialSum(n, i, world))
    }
  }

  /** One more rank. */
  lemma PartialSumStep<T, F>(c: Config<T, F>, n: nat, i: nat, k: nat)
    ensures c.PartialSum(n, i, 0) == c.arith.zero
    ensures c.PartialSum(n, i, k + 1) == c.arith.plus(c.PartialSum(n, i, k), c.arith.widen(c.input(n, k, i)))
  {
    assert c.Inputs(n, i, k + 1)[..k] == c.Inputs(n, i, k);
  }

  datatype Phase = PhaseArrive | PhaseMid | PhaseDepart

  datatype Stage = Idle | Arrive | Work | Mid | Gather | Depart | Exit {
    predicate Meeting() {
      Arrive? || Mid? || Depart?
    }
  }

  function PhaseOf(stage: Stage): Phase
    requires stage.Meeting()
  {
    match stage
    case Arrive => PhaseArrive
    case Mid => PhaseMid
    case Depart => PhaseDepart
  }

  /** A work-group. `target` is the generation its participating work-items read,
      plus one; `published` and `observed` are the peers dealt with in the present
      rendezvous; `part` holds the accumulators in flight, `done` the elements stored. */
  datatype Group<F> = Group(
    stage: Stage, generation: nat, target: nat, published: set<nat>, observed: set<nat>,
    part: map<nat, (nat, F)>, done: set<nat>)

  /** A rank is staging call `call`, or running its reduce kernel, or (past the last
      call) finished. */
  datatype Rank<F> = Rank(call: nat, running: bool, staged: set<nat>, groups: seq<Group<F>>)

  /** sync[phase][block][src] inside the region of rank `region`. */
  datatype Slot = Slot(region: nat, phase: Phase, block: nat, src: nat)

  /** Regions start zero-filled: an absent flag reads 0, an absent cell reads blank.
      outs is keyed by (rank, call, element). */
  datatype State<T, F> = State(
    ranks: seq<Rank<F>>, flags: map<Slot, nat>, staging: map<(nat, nat), T>,
    outs: map<(nat, nat, nat), T>)

  predicate Shape<T, F>(c: Config<T, F>, s: State<T, F>) {
    && c.Valid()
    && |s.ranks| == c.world
    && (forall r | 0 <= r < c.world :: |s.ranks[r].groups| == BLOCKS && s.ranks[r].call <= |c.calls|)
    && (forall r | 0 <= r < c.world :: s.ranks[r].running ==> s.ranks[r].call < |c.calls|)
  }

  function FlagAt<T, F>(s: State<T, F>, slot: Slot): nat {
    if slot in s.flags then s.flags[slot] else 0
  }

  function Cell<T, F>(c: Config<T, F>, s: State<T, F>, r: nat, i: nat): T {
    if (r, i) in s.staging then s.staging[(r, i)] else c.blank
  }

  function FreshGroup<F>(generation: nat, target: nat): Group<F> {
    Group(Idle, generation, target, {}, {}, map[], {})
  }

  function FreshRank<F>(): Rank<F> {
    Rank(0, false, {}, seq(BLOCKS, _ => FreshGroup<F>(0, 0)))
  }

  function Init<T, F>(c: Config<T, F>): (s: State<T, F>)
    requires c.Valid()
    ensures Shape(c, s)
  {
    State(seq(c.world, _ => FreshRank<F>()), map[], map[], map[])
  }

  function SetGroup<T, F>(s: State<T, F>, r: nat, b: nat, g: Group<F>): State<T, F>
    requires r < |s.ranks| && b < |s.ranks[r].groups|
  {
    s.(ranks := s.ranks[r := s.ranks[r].(groups := s.ranks[r].groups[b := g])])
  }

  /** The elements work-group b of rank r reduces in call n. */
  predicate WorkItem<T, F>(c: Config<T, F>, n: nat, r: nat, b: nat, i: nat)
    requires c.Valid() && n < |c.calls|
  {
    var call := c.calls[n];
    if call.TwoShot() then InSlice(call.numel, c.world, r, b, i) else InStrided(call.numel, b, i)
  }

  function Progress<F>(g: Group<F>, i: nat): nat {
    if i in g.part then g.part[i].0 else 0
  }

  function Accumulator<T, F>(c: Config<T, F>, g: Group<F>, i: nat): F {
    if i in g.part then g.part[i].1 else c.arith.zero
  }

  datatype Step =
    | StageCell(r: nat, i: nat)
    | Launch(r: nat)
    | Enter(r: nat, b: nat)
    | Publish(r: nat, b: nat, q: nat)
    | Observe(r: nat, b: nat, q: nat)
    | Bump(r: nat, b: nat)
    | Leave(r: nat, b: nat)
    | Accumulate(r: nat, b: nat, i: nat)
    | Store(r: nat, b: nat, i: nat)
    | Copy(r: nat, b: nat, owner: nat, i: nat)
    | Retire(r: nat)

  /** The call rank r is in, its group b, and that both exist and are live. */
  predicate Live<T, F>(c: Config<T, F>, s: State<T, F>, r: nat, b: nat)
    requires Shape(c, s)
  {
    r < c.world && b < BLOCKS && s.ranks[r].running
  }

  /** May the group latch its next target now? Before the arrive rendezvous there is
      no barrier, before the others one waits for every store and for the previous
      generation write of the group. */
  predicate MayEnter<T, F>(c: Config<T, F>, s: State<T, F>, r: nat, b: nat)
    requires Shape(c, s) && Live(c, s, r, b)
  {
    var n, g := s.ranks[r].call, s.ranks[r].groups[b];
    match g.stage
    case Idle => true
    case Work =>
      && g.generation == g.target
      && forall i: nat | i < c.calls[n].numel && WorkItem(c, n, r, b, i) :: i in g.done
    case Gather =>
      && g.generation == g.target
      && forall i: nat | i < c.calls[n].numel && BlockOf(c.calls[n].numel, c.world, i) == b :: i in g.done
    case _ => false
  }

  predicate Enabled<T, F>(c: Config<T, F>, s: State<T, F>, step: Step)
    requires Shape(c, s)
  {
    match step
    case StageCell(r, i) =>
      && r < c.world && !s.ranks[r].running && s.ranks[r].call < |c.calls|
      && i < c.calls[s.ranks[r].call].numel && i !in s.ranks[r].staged
    case Launch(r) =>
      && r < c.world && !s.ranks[r].running && s.ranks[r].call < |c.calls|
      && forall i: nat | i < c.calls[s.ranks[r].call].numel :: i in s.ranks[r].staged
    case Enter(r, b) =>
      Live(c, s, r, b) && MayEnter(c, s, r, b)
    case Publish(r, b, q) =>
      && Live(c, s, r, b) && q < c.world
      && s.ranks[r].groups[b].stage.Meeting() && q !in s.ranks[r].groups[b].published
    case Observe(r, b, q) =>
      && Live(c, s, r, b) && q < c.world
      && var g := s.ranks[r].groups[b];
      && g.stage.Meeting() && q in g.published && q !in g.observed
      && FlagAt(s, Slot(r, PhaseOf(g.stage), b, q)) >= g.target
    case Bump(r, b) =>
      && Live(c, s, r, b)
      && var g := s.ranks[r].groups[b];
      && g.generation != g.target
      && (g.stage.Work? || g.stage.Gather? || (g.stage.Depart? && 0 in g.observed))
    case Leave(r, b) =>
      && Live(c, s, r, b)
      && var g := s.ranks[r].groups[b];
      && g.stage.Meeting() && (forall q: nat | q < c.world :: q in g.observed)
      && (g.stage.Depart? ==> g.generation == g.target)
    case Accumulate(r, b, i) =>
      && Live(c, s, r, b)
      && var g := s.ranks[r].groups[b];
      && g.stage.Work? && WorkItem(c, s.ranks[r].call, r, b, i)
      && i !in g.done && Progress(g, i) < c.world
    case Store(r, b, i) =>
      && Live(c, s, r, b)
      && var g := s.ranks[r].groups[b];
      && g.stage.Work? && WorkItem(c, s.ranks[r].call, r, b, i)
      && i !in g.done && Progress(g, i) == c.world
    case Copy(r, b, owner, i) =>
      && Live(c, s, r, b) && owner < c.world
      && var g := s.ranks[r].groups[b];
      && g.stage.Gather? && i !in g.done
      && InSlice(c.calls[s.ranks[r].call].numel, c.world, owner, b, i)
    case Retire(r) =>
      && r < c.world && s.ranks[r].running
      && forall b | 0 <= b < BLOCKS :: s.ranks[r].groups[b].stage.Exit?
  }

  function NextMeeting(twoShot: bool, stage: Stage): Stage {
    match stage
    case Idle => Arrive
    case Work => if twoShot then Mid else Depart
    case _ => Depart
  }

  function AfterMeeting(stage: Stage): Stage {
    match stage
    case Arrive => Work
    case Mid => Gather
    case _ => Exit
  }

  function Apply<T, F>(c: Config<T, F>, s: State<T, F>, step: Step): State<T, F>
    requires Shape(c, s) && Enabled(c, s, step)
  {
    match step
    case StageCell(r, i) =>
      var rank := s.ranks[r];
      s.(ranks := s.ranks[r := rank.(staged := rank.staged + {i})],
         staging := s.staging[(r, i) := c.input(rank.call, r, i)])
    case Launch(r) =>
      s.(ranks := s.ranks[r := s.ranks[r].(running := true)])
    case Enter(r, b) =>
      var g := s.ranks[r].groups[b];
      SetGroup(s, r, b, g.(stage := NextMeeting(c.calls[s.ranks[r].call].TwoShot(), g.stage),
                           target := g.generation + 1, published := {}, observed := {}))
    case Publish(r, b, q) =>
      var g := s.ranks[r].groups[b];
      SetGroup(s, r, b, g.(published := g.published + {q}))
      .(flags := s.flags[Slot(q, PhaseOf(g.stage), b, r) := g.target])
    case Observe(r, b, q) =>
      var g := s.ranks[r].groups[b];
      SetGroup(s, r, b, g.(observed := g.observed + {q}))
    case Bump(r, b) =>
      var g := s.ranks[r].groups[b];
      SetGroup(s, r, b, g.(generation := g.target))
    case Leave(r, b) =>
      var g := s.ranks[r].groups[b];
      SetGroup(s, r, b, g.(stage := AfterMeeting(g.stage), part := map[], done := {}))
    case Accumulate(r, b, i) =>
      var g := s.ranks[r].groups[b];
      var k := Progress(g, i);
      var acc := c.arith.plus(Accumulator(c, g, i), c.arith.widen(Cell(c, s, k, i)));
      SetGroup(s, r, b, g.(part := g.part[i := (k + 1, acc)]))
    case Store(r, b, i) =>
      var n, g := s.ranks[r].call, s.ranks[r].groups[b];
      var value := c.arith.narrow(Accumulator(c, g, i));
      var s1 := SetGroup(s, r, b, g.(done := g.done + {i}));
      if c.calls[n].TwoShot() then s1.(staging := s.staging[(r, i) := value])
      else s1.(outs := s.outs[(r, n, i) := value])
    case Copy(r, b, owner, i) =>
      var n, g := s.ranks[r].call, s.ranks[r].groups[b];
      SetGroup(s, r, b, g.(done := g.done + {i}))
      .(outs := s.outs[(r, n, i) := Cell(c, s, owner, i)])
    case Retire(r) =>
      var rank := s.ranks[r];
      var groups := seq(BLOCKS, b requires 0 <= b < BLOCKS && BLOCKS == |rank.groups| =>
        FreshGroup(rank.groups[b].generation, rank.groups[b].target));
      s.(ranks := s.ranks[r := Rank(rank.call + 1, false, {}, groups)])
  }

  /** Every rank has completed every call. */
  predicate Final<T, F>(c: Config<T, F>, s: State<T, F>)
    requires Shape(c, s)
  {
    forall r | 0 <= r < c.world :: s.ranks[r].call == |c.calls|
  }

  lemma ApplyKeepsShape<T, F>(c: Config<T, F>, s: State<T, F>, step: Step)
    requires Shape(c, s) && Enabled(c, s, step)
    ensures Shape(c, Apply(c, s, step))
  {
    var s' := Apply(c, s, step);
    forall r | 0 <= r < c.world
      ensures |s'.ranks[r].groups| == BLOCKS && s'.ranks[r].call <= |c.calls|
      ensures s'.ranks[r].running ==> s'.ranks[r].call < |c.calls|
    {
      assert |s.ranks[r].groups| == BLOCKS && s.ranks[r].call <= |c.calls|;
    }
  }
}
