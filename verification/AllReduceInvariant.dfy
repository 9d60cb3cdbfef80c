/** What every step of the all-reduce protocol keeps. */
module AllReduceInvariant {
  import opened AllReduceGeometry
  import opened AllReduceProtocol

  function Rendezvous(call: Call): nat {
    if call.TwoShot() then 3 else 2
  }

  /** Rendezvous per group in the first n calls. */
  function Base(calls: seq<Call>, n: nat): nat
    requires n <= |calls|
  {
    if n == 0 then 0 else Base(calls, n - 1) + Rendezvous(calls[n - 1])
  }

  lemma {:induction false} BaseMonotone(calls: seq<Call>, m: nat, n: nat)
    requires m <= n <= |calls|
    ensures Base(calls, m) + 2 * (n - m) <= Base(calls, n)
  {
    if m < n {
      BaseMonotone(calls, m, n - 1);
    }
  }

  /** How many rendezvous a group at this place of its program has begun. */
  function Begun(calls: seq<Call>, n: nat, stage: Stage): nat
    requires n <= |calls| && (n == |calls| ==> stage.Idle?)
  {
    match stage
    case Idle => Base(calls, n)
    case Arrive => Base(calls, n) + 1
    case Work => Base(calls, n) + 1
    case Mid => Base(calls, n) + 2
    case Gather => Base(calls, n) + 2
    case Depart => Base(calls, n + 1)
    case Exit => Base(calls, n + 1)
  }

  /** Two groups that have begun equally many rendezvous are in the same call, or one
      is through with a call and the other about to start the next. */
  lemma SameCall(calls: seq<Call>, m: nat, at: Stage, n: nat, stage: Stage)
    requires m <= |calls| && (m == |calls| ==> at.Idle?)
    requires n < |calls| && !stage.Idle?
    requires (stage.Mid? || stage.Gather?) ==> calls[n].TwoShot()
    requires (at.Mid? || at.Gather?) ==> calls[m].TwoShot()
    requires Base(calls, n) < Begun(calls, m, at) <= Base(calls, n + 1)
    ensures at.Idle? ==> m == n + 1
    ensures !at.Idle? ==> m == n
  {
    if m < n {
      BaseMonotone(calls, m + 1, n);
    } else if m > n + 1 {
      BaseMonotone(calls, n + 1, m);
    }
  }

  // ---------- the invariant ----------

  /** Local bookkeeping of one group. */
  predicate GroupOk<T, F>(c: Config<T, F>, s: State<T, F>, r: nat, b: nat)
    requires Shape(c, s) && r < c.world && b < BLOCKS
  {
    var rank := s.ranks[r];
    var g := rank.groups[b];
    && (!rank.running ==> g.stage.Idle?)
    && ((g.stage.Mid? || g.stage.Gather?) ==> c.calls[rank.call].TwoShot())
    && g.target == Begun(c.calls, rank.call, g.stage)
    && (g.generation == g.target || g.generation + 1 == g.target)
    && ((g.stage.Idle? || g.stage.Exit?) ==> g.generation == g.target)
    && ((g.stage.Arrive? || g.stage.Mid?) ==> g.generation + 1 == g.target)
  }

  ghost predicate Local<T, F>(c: Config<T, F>, s: State<T, F>)
    requires Shape(c, s)
  {
    forall r: nat, b: nat | r < c.world && b < BLOCKS :: GroupOk(c, s, r, b)
  }

  function Target<T, F>(s: State<T, F>, r: nat, b: nat): nat
    requires r < |s.ranks| && b < |s.ranks[r].groups|
  {
    s.ranks[r].groups[b].target
  }

  /** A flag value v from rank r means r's same-numbered group has begun its v-th
      rendezvous. */
  ghost predicate FlagsSound<T, F>(c: Config<T, F>, s: State<T, F>)
    requires Shape(c, s)
  {
    forall slot: Slot | slot.src < c.world && slot.block < BLOCKS ::
      FlagAt(s, slot) <= Target(s, slot.src, slot.block)
  }

  /** Group b of q has seen (or, once past the rendezvous, is sure of) the arrival of k. */
  predicate Assured<T, F>(c: Config<T, F>, s: State<T, F>, q: nat, b: nat, k: nat)
    requires Shape(c, s) && q < c.world && b < BLOCKS
  {
    !s.ranks[q].groups[b].stage.Meeting() || k in s.ranks[q].groups[b].observed
  }

  /** No group is assured of a peer that has not begun the same rendezvous. */
  ghost predicate Met<T, F>(c: Config<T, F>, s: State<T, F>)
    requires Shape(c, s)
  {
    forall q: nat, b: nat, k: nat | q < c.world && b < BLOCKS && k < c.world ::
      Assured(c, s, q, b, k) ==> Target(s, k, b) >= Target(s, q, b)
  }

  /** Begun counts of same-numbered groups differ by at most one. */
  ghost predicate Close<T, F>(c: Config<T, F>, s: State<T, F>)
    requires Shape(c, s)
  {
    forall q: nat, b: nat, k: nat | q < c.world && b < BLOCKS && k < c.world ::
      Target(s, k, b) + 1 >= Target(s, q, b)
  }

  ghost predicate Sync<T, F>(c: Config<T, F>, s: State<T, F>) {
    Shape(c, s) && Local(c, s) && FlagsSound(c, s) && Met(c, s) && Close(c, s)
  }

  // ---------- values ----------

  /** The rank's own reduced value already replaces the staged input at cell i. */
  predicate Overwritten<T, F>(c: Config<T, F>, s: State<T, F>, r: nat, i: nat)
    requires Shape(c, s) && r < c.world && s.ranks[r].running
  {
    var call := c.calls[s.ranks[r].call];
    && call.TwoShot() && i < call.numel && OwnerOf(call.numel, c.world, i) == r
    && BlockOf(call.numel, c.world, i) < BLOCKS
    && var g := s.ranks[r].groups[BlockOf(call.numel, c.world, i)];
    match g.stage
    case Idle => false
    case Arrive => false
    case Work => i in g.done
    case _ => true
  }

  ghost predicate CellOk<T, F>(c: Config<T, F>, s: State<T, F>, r: nat, i: nat)
    requires Shape(c, s) && r < c.world
  {
    var rank := s.ranks[r];
    if rank.running then
      i < c.calls[rank.call].numel ==>
        Cell(c, s, r, i) == if Overwritten(c, s, r, i) then c.Reduced(rank.call, i) else c.input(rank.call, r, i)
    else
      i in rank.staged ==> Cell(c, s, r, i) == c.input(rank.call, r, i)
  }

  ghost predicate StagingOk<T, F>(c: Config<T, F>, s: State<T, F>)
    requires Shape(c, s)
  {
    forall r: nat, i: nat | r < c.world :: CellOk(c, s, r, i)
  }

  /** An accumulator in flight holds the fixed-order partial sum of the inputs. */
  ghost predicate ElementOk<T, F>(c: Config<T, F>, s: State<T, F>, r: nat, b: nat, i: nat)
    requires Shape(c, s) && Live(c, s, r, b)
  {
    var g := s.ranks[r].groups[b];
    g.stage.Work? ==>
      && Progress(g, i) <= c.world
      && Accumulator(c, g, i) == c.PartialSum(s.ranks[r].call, i, Progress(g, i))
  }

  ghost predicate PartOk<T, F>(c: Config<T, F>, s: State<T, F>)
    requires Shape(c, s)
  {
    forall r: nat, b: nat, i: nat | Live(c, s, r, b) :: ElementOk(c, s, r, b, i)
  }

  /** Group b of rank r must already have delivered element i of its present call. */
  predicate Delivered<T, F>(c: Config<T, F>, s: State<T, F>, r: nat, b: nat, i: nat)
    requires Shape(c, s) && Live(c, s, r, b)
  {
    var call := c.calls[s.ranks[r].call];
    var g := s.ranks[r].groups[b];
    && i < call.numel
    && (if call.TwoShot() then BlockOf(call.numel, c.world, i) == b else InStrided(call.numel, b, i))
    && match g.stage
       case Work => !call.TwoShot() && i in g.done
       case Gather => i in g.done
       case Depart => true
       case Exit => true
       case _ => false
  }

  ghost predicate OutsOk<T, F>(c: Config<T, F>, s: State<T, F>)
    requires Shape(c, s)
  {
    && (forall r: nat, n: nat, i: nat | (r, n, i) in s.outs :: s.outs[(r, n, i)] == c.Reduced(n, i))
    && (forall r: nat, n: nat, i: nat | r < c.world && n < s.ranks[r].call && i < c.calls[n].numel ::
          (r, n, i) in s.outs)
    && (forall r: nat, b: nat, i: nat | Live(c, s, r, b) && Delivered(c, s, r, b, i) ::
          (r, s.ranks[r].call, i) in s.outs)
  }

  ghost predicate Inv<T, F>(c: Config<T, F>, s: State<T, F>) {
    Sync(c, s) && StagingOk(c, s) && PartOk(c, s) && OutsOk(c, s)
  }
}
