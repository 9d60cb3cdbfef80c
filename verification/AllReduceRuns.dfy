/** Theorems about whole runs of the all-reduce protocol. */
module AllReduceRuns {
  import opened AllReduceGeometry
  import opened AllReduceProtocol
  import opened AllReduceInvariant
  import opened AllReduceSync
  import opened AllReduceValues
  import opened AllReduceProgress

  /** `steps` is an interleaving that can happen from s: each step is enabled when
      its turn comes. */
  predicate CanRun<T, F>(c: Config<T, F>, s: State<T, F>, steps: seq<Step>)
    requires Shape(c, s)
    decreases |steps|
  {
    steps == [] ||
    (Enabled(c, s, steps[0]) &&
     (ApplyKeepsShape(c, s, steps[0]); CanRun(c, Apply(c, s, steps[0]), steps[1..])))
  }

  function After<T, F>(c: Config<T, F>, s: State<T, F>, steps: seq<Step>): (t: State<T, F>)
    requires Shape(c, s) && CanRun(c, s, steps)
    ensures Shape(c, t)
    decreases |steps|
  {
    if steps == [] then s
    else ApplyKeepsShape(c, s, steps[0]); After(c, Apply(c, s, steps[0]), steps[1..])
  }

  lemma {:induction false} RunKeepsInv<T, F>(c: Config<T, F>, s: State<T, F>, steps: seq<Step>)
    requires Inv(c, s) && Announced(c, s) && CanRun(c, s, steps)
    ensures Inv(c, After(c, s, steps)) && Announced(c, After(c, s, steps))
    ensures |steps| + Measure(c, After(c, s, steps)) <= Measure(c, s)
    decreases |steps|
  {
    if steps != [] {
      AnnouncedKept(c, s, steps[0]);
      StepDecreases(c, s, steps[0]);
      RunKeepsInv(c, Apply(c, s, steps[0]), steps[1..]);
    }
  }

  /** Correctness of every interleaving of any sequence of one-shot and two-shot calls
      on the same regions: once a rank has finished call n, its out buffer of that call
      holds the sum accumulated in rank order 0..world-1, the same on every rank and
      for both algorithms. */
  lemma EveryRunComputesTheSum<T, F>(c: Config<T, F>, steps: seq<Step>, r: nat, n: nat, i: nat)
    requires c.Valid() && CanRun(c, Init(c), steps)
    requires r < c.world && n < After(c, Init(c), steps).ranks[r].call && i < c.calls[n].numel
    ensures (r, n, i) in After(c, Init(c), steps).outs
    ensures After(c, Init(c), steps).outs[(r, n, i)] == c.arith.narrow(c.PartialSum(n, i, c.world))
  {
    InitInv(c);
    InitAnnounced(c);
    RunKeepsInv(c, Init(c), steps);
  }

  /** Every interleaving is finite, with a bound known in advance, and one that cannot
      be continued has completed every call on every rank. */
  lemma EveryRunTerminates<T, F>(c: Config<T, F>, steps: seq<Step>)
    requires c.Valid() && CanRun(c, Init(c), steps)
    ensures |steps| <= Measure(c, Init(c))
    ensures !Final(c, After(c, Init(c), steps)) ==>
              exists step: Step :: Enabled(c, After(c, Init(c), steps), step)
  {
    InitInv(c);
    InitAnnounced(c);
    RunKeepsInv(c, Init(c), steps);
    if !Final(c, After(c, Init(c), steps)) {
      DeadlockFree(c, After(c, Init(c), steps));
    }
  }

  /** Rendezvous guarantee at every point of every run: a flag value v from rank `src`
      means src's same-numbered group has begun its v-th rendezvous, a group that has
      got past rendezvous v has every peer at rendezvous v at least, and begun counts
      of same-numbered groups differ by at most one, across phases and calls. */
  lemma RendezvousHolds<T, F>(c: Config<T, F>, steps: seq<Step>, q: nat, b: nat, k: nat, phase: Phase)
    requires c.Valid() && CanRun(c, Init(c), steps)
    requires q < c.world && k < c.world && b < BLOCKS
    ensures var s := After(c, Init(c), steps);
            && FlagAt(s, Slot(q, phase, b, k)) <= Target(s, k, b)
            && Completed(s.ranks[q].groups[b]) <= Target(s, k, b)
            && Target(s, q, b) <= Target(s, k, b) + 1
  {
    InitInv(c);
    InitAnnounced(c);
    RunKeepsInv(c, Init(c), steps);
    var s := After(c, Init(c), steps);
    assert FlagAt(s, Slot(q, phase, b, k)) <= Target(s, k, b);
    assert Assured(c, s, q, b, k) ==> Target(s, k, b) >= Target(s, q, b);
  }

  // ---------- staging safety ----------

  /** Group b of q still has to read rank r's staged input at i in its present call. */
  predicate AwaitsInput<T, F>(c: Config<T, F>, s: State<T, F>, q: nat, b: nat, r: nat, i: nat)
    requires Shape(c, s) && q < c.world && b < BLOCKS
  {
    var n, g := s.ranks[q].call, s.ranks[q].groups[b];
    && n < |c.calls| && WorkItem(c, n, q, b, i)
    && (g.stage.Idle? || g.stage.Arrive? || (g.stage.Work? && i !in g.done && Progress(g, i) <= r))
  }

  /** Group b of q still has to gather rank r's reduced value at i in its present call. */
  predicate AwaitsReduced<T, F>(c: Config<T, F>, s: State<T, F>, q: nat, b: nat, r: nat, i: nat)
    requires Shape(c, s) && q < c.world && b < BLOCKS
  {
    var n, g := s.ranks[q].call, s.ranks[q].groups[b];
    && n < |c.calls| && c.calls[n].TwoShot() && InSlice(c.calls[n].numel, c.world, r, b, i)
    && !g.stage.Depart? && !g.stage.Exit? && (g.stage.Gather? ==> i !in g.done)
  }

  /** Staging for call n overwrites nothing that is still wanted: whoever has yet to
      read the cell wants call n's value of it and has not begun reading. */
  lemma StagingIsSafe<T, F>(c: Config<T, F>, s: State<T, F>, r: nat, i: nat, q: nat, b: nat)
    requires Inv(c, s) && Enabled(c, s, StageCell(r, i)) && q < c.world && b < BLOCKS
    requires AwaitsInput(c, s, q, b, r, i) || AwaitsReduced(c, s, q, b, r, i)
    ensures s.ranks[q].call == s.ranks[r].call
    ensures s.ranks[q].groups[b].stage.Idle? || s.ranks[q].groups[b].stage.Arrive?
  {
    assert GroupOk(c, s, q, b) && GroupOk(c, s, r, b);
    var m, stage := s.ranks[q].call, s.ranks[q].groups[b].stage;
    var n := s.ranks[r].call;
    assert Assured(c, s, r, b, q);
    assert Assured(c, s, q, b, r) ==> Target(s, r, b) >= Target(s, q, b);
    assert Target(s, q, b) <= Target(s, r, b) + 1;
    if m < n {
      BaseMonotone(c.calls, m + 1, n);
    } else if m > n {
      BaseMonotone(c.calls, n + 1, m);
    }
  }

  /** The two-shot self-overwrite is safe: nobody has yet to read the input it
      replaces, and whoever has yet to gather the cell is in the same call and wants
      the value just stored. */
  lemma OverwriteIsSafe<T, F>(c: Config<T, F>, s: State<T, F>, r: nat, b: nat, i: nat, q: nat, b': nat)
    requires Inv(c, s) && Enabled(c, s, Step.Store(r, b, i)) && c.calls[s.ranks[r].call].TwoShot()
    requires q < c.world && b' < BLOCKS
    ensures !AwaitsInput(c, s, q, b', r, i)
    ensures AwaitsReduced(c, s, q, b', r, i) ==>
              && s.ranks[q].call == s.ranks[r].call && b' == b
              && (s.ranks[q].groups[b'].stage.Arrive? || s.ranks[q].groups[b'].stage.Work? || s.ranks[q].groups[b'].stage.Mid?)
  {
    PeersInStep(c, s, r, b, q);
    SlicesPartition(c.calls[s.ranks[r].call].numel, c.world, i);
  }

  // ---------- a scheduler ----------

  ghost predicate Picks<T(!new), F(!new)>(c: Config<T, F>, pick: State<T, F> -> Step) {
    forall s: State<T, F>, step: Step {:trigger Enabled(c, s, step)} ::
      Shape(c, s) && Enabled(c, s, step) ==> Enabled(c, s, pick(s))
  }

  /** Runs all calls to the end under an arbitrary scheduler, which may pick any
      enabled step each time. */
  method RunAll<T(!new), F(!new)>(c: Config<T, F>, pick: State<T, F> -> Step) returns (s: State<T, F>)
    requires c.Valid()
    requires Picks(c, pick)
    ensures Shape(c, s) && Final(c, s)
    ensures forall r: nat, n: nat, i: nat | r < c.world && n < |c.calls| && i < c.calls[n].numel ::
              (r, n, i) in s.outs && s.outs[(r, n, i)] == c.Reduced(n, i)
  {
    InitInv(c);
    InitAnnounced(c);
    s := Init(c);
    while exists r | 0 <= r < c.world :: s.ranks[r].call != |c.calls|
      invariant Inv(c, s) && Announced(c, s)
      decreases Measure(c, s)
    {
      DeadlockFree(c, s);
      var step := pick(s);
      StepDecreases(c, s, step);
      AnnouncedKept(c, s, step);
      s := Apply(c, s, step);
    }
  }
}
