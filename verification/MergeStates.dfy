/** LSE-weighted merging of partial attention results. */
module MergeStates {
  import opened Softmax

  /** One channel of a partial result with the log-sum-exp of its row. */
  datatype Partial = Partial(out: real, lse: Ext)

  const EMPTY: Partial := Partial(0.0, NegInf)

  /** The merge kernel for one (row, channel), empty-partition guard included. */
  function Merge(E: ExpLog, a: Partial, b: Partial): Partial {
    var m := Max(a.lse, b.lse);
    var empty := m.NegInf?;
    var wa := if empty || a.lse.NegInf? then 0.0 else E.e(a.lse.v - m.v);
    var wb := if empty || b.lse.NegInf? then 0.0 else E.e(b.lse.v - m.v);
    var denom := wa + wb;
    var inv := if denom > 0.0 then 1.0 / denom else 0.0;
    Partial((wa * a.out + wb * b.out) * inv, if empty then NegInf else Fin(m.v + E.ln(denom)))
  }

  /** What attention over `keys` reports, in channel j. */
  function Attend(E: ExpLog, keys: seq<Key>, sink: Option<real>, j: nat): Partial {
    Partial(TwoPass(E, keys, sink, j), LogSumExp(E, keys, sink))
  }

  /** Partitions without keys report a zero output. */
  predicate Normal(p: Partial) {
    p.lse.NegInf? ==> p.out == 0.0
  }

  /** The weight a partial stands for and its unnormalised value. */
  function Weight(E: ExpLog, p: Partial): real {
    E.Of(p.lse)
  }

  function Mass(E: ExpLog, p: Partial): real {
    p.out * E.Of(p.lse)
  }

  /** A normal partial is determined by its weight and mass. */
  lemma Determined(E: ExpLog, p: Partial, q: Partial)
    requires E.Lawful() && Normal(p) && Normal(q)
    requires Weight(E, p) == Weight(E, q) && Mass(E, p) == Mass(E, q)
    ensures p == q
  {
    assert p.lse.Fin? <==> Weight(E, p) > 0.0;
    assert q.lse.Fin? <==> Weight(E, q) > 0.0;
    if p.lse.Fin? {
      assert E.ln(E.e(p.lse.v)) == p.lse.v && E.ln(E.e(q.lse.v)) == q.lse.v;
      Cancel(p.out, q.out, E.e(p.lse.v));
    }
  }

  lemma Cancel(x: real, y: real, e: real)
    requires e > 0.0 && x * e == y * e
    ensures x == y
  {
    assert (x - y) * e == 0.0;
  }

  lemma Guarded(E: ExpLog, lse: Ext, m: real)
    requires E.Lawful()
    ensures E.Diff(lse, m) >= 0.0 && (lse.Fin? ==> E.Diff(lse, m) > 0.0)
    ensures E.Diff(lse, m) * E.e(m) == E.Of(lse)
  {
    DiffTimes(E, lse, m);
  }

  lemma MergeAlgebra(wa: real, wb: real, oa: real, ob: real, e: real, denom: real)
    requires denom == wa + wb && denom > 0.0
    ensures ((wa * oa + wb * ob) * (1.0 / denom)) * (denom * e) == oa * (wa * e) + ob * (wb * e)
  {
    var n := wa * oa + wb * ob;
    var q := n * (1.0 / denom);
    assert q == n / denom;
    assert q * denom == n;
    assert q * (denom * e) == (q * denom) * e;
    assert n * e == (wa * oa) * e + (wb * ob) * e;
    assert (wa * oa) * e == oa * (wa * e);
    assert (wb * ob) * e == ob * (wb * e);
  }

  /** The merge under a finite maximum, written with the guarded weights. */
  lemma MergeUnfolds(E: ExpLog, a: Partial, b: Partial, m: real, wa: real, wb: real)
    requires E.Lawful() && Max(a.lse, b.lse) == Fin(m) && wa == E.Diff(a.lse, m) && wb == E.Diff(b.lse, m)
    ensures wa + wb > 0.0
    ensures Merge(E, a, b) == Partial((wa * a.out + wb * b.out) * (1.0 / (wa + wb)), Fin(m + E.ln(wa + wb)))
  {
  }

  lemma LogOfScaled(E: ExpLog, m: real, denom: real)
    requires E.Lawful() && denom > 0.0
    ensures E.e(m + E.ln(denom)) == denom * E.e(m)
  {
    assert E.Adds(m, E.ln(denom));
  }

  /** Merging adds weights and masses, whatever the two partials are. */
  lemma MergeAdds(E: ExpLog, a: Partial, b: Partial)
    requires E.Lawful()
    ensures Normal(Merge(E, a, b))
    ensures Weight(E, Merge(E, a, b)) == Weight(E, a) + Weight(E, b)
    ensures Mass(E, Merge(E, a, b)) == Mass(E, a) + Mass(E, b)
  {
    if Max(a.lse, b.lse).Fin? {
      var m := Max(a.lse, b.lse).v;
      var wa, wb := E.Diff(a.lse, m), E.Diff(b.lse, m);
      Guarded(E, a.lse, m);
      Guarded(E, b.lse, m);
      MergeUnfolds(E, a, b, m, wa, wb);
      LogOfScaled(E, m, wa + wb);
      hide Merge, ExpLog.Diff, Max;
      assert (wa + wb) * E.e(m) == wa * E.e(m) + wb * E.e(m);
      MergeAlgebra(wa, wb, a.out, b.out, E.e(m), wa + wb);
    }
  }

  lemma MergeCommutes(E: ExpLog, a: Partial, b: Partial)
    requires E.Lawful()
    ensures Merge(E, a, b) == Merge(E, b, a)
  {
    MergeAdds(E, a, b);
    MergeAdds(E, b, a);
    hide Merge, Weight, Mass, Normal;
    Determined(E, Merge(E, a, b), Merge(E, b, a));
  }

  lemma MergeAssociates(E: ExpLog, a: Partial, b: Partial, c: Partial)
    requires E.Lawful()
    ensures Merge(E, Merge(E, a, b), c) == Merge(E, a, Merge(E, b, c))
  {
    MergeAdds(E, a, b);
    MergeAdds(E, b, c);
    MergeAdds(E, Merge(E, a, b), c);
    MergeAdds(E, a, Merge(E, b, c));
    hide Merge, Weight, Mass, Normal;
    Determined(E, Merge(E, Merge(E, a, b), c), Merge(E, a, Merge(E, b, c)));
  }

  /** The empty partition is the unit, exactly for normal partials. */
  lemma EmptyIsUnit(E: ExpLog, a: Partial)
    requires E.Lawful()
    ensures Merge(E, a, EMPTY) == a <==> Normal(a)
  {
    MergeAdds(E, a, EMPTY);
    assert Weight(E, EMPTY) == 0.0 && Mass(E, EMPTY) == 0.0;
    hide Merge, Weight, Mass;
    if Normal(a) {
      Determined(E, Merge(E, a, EMPTY), a);
    }
  }

  /** Attention stands for its sums: the weight is the softmax denominator. */
  lemma AttendStandsFor(E: ExpLog, keys: seq<Key>, sink: Option<real>, j: nat)
    requires E.Lawful()
    ensures Normal(Attend(E, keys, sink, j))
    ensures Weight(E, Attend(E, keys, sink, j)) == (if |keys| == 0 then 0.0 else Den(E, keys) + SinkTerm(E, sink))
    ensures Mass(E, Attend(E, keys, sink, j)) == Num(E, keys, j)
  {
    MaxOfSome(keys);
    if |keys| > 0 {
      TwoPassIsRatio(E, keys, sink, j);
      var d := Den(E, keys) + SinkTerm(E, sink);
      assert E.e(E.ln(d)) == d;
      assert (Num(E, keys, j) / d) * d == Num(E, keys, j);
    }
  }

  /** Merging the results for two key sets, sinks absent, is attention over both: the
      output and the log-sum-exp, empty partitions included. */
  lemma MergeIsUnion(E: ExpLog, a: seq<Key>, b: seq<Key>, j: nat)
    requires E.Lawful()
    ensures Merge(E, Attend(E, a, None, j), Attend(E, b, None, j)) == Attend(E, a + b, None, j)
  {
    var pa, pb, pab := Attend(E, a, None, j), Attend(E, b, None, j), Attend(E, a + b, None, j);
    AttendStandsFor(E, a, None, j);
    AttendStandsFor(E, b, None, j);
    AttendStandsFor(E, a + b, None, j);
    DenConcat(E, a, b, j);
    MergeAdds(E, pa, pb);
    assert |a| == 0 ==> Den(E, a) == 0.0;
    assert |b| == 0 ==> Den(E, b) == 0.0;
    hide Merge, Weight, Mass, Normal, Den, Num, Attend;
    Determined(E, Merge(E, pa, pb), pab);
  }

  /** With the sink given to the first partition only, merging is attention with the
      sink over both key sets exactly when that partition has a key or neither has:
      an empty partition drops its sink. */
  lemma SinkInOnePartition(E: ExpLog, a: seq<Key>, b: seq<Key>, sink: real, j: nat)
    requires E.Lawful()
    ensures Merge(E, Attend(E, a, Some(sink), j), Attend(E, b, None, j)) == Attend(E, a + b, Some(sink), j)
            <==> (|a| > 0 || |b| == 0)
  {
    var pa, pb, pab := Attend(E, a, Some(sink), j), Attend(E, b, None, j), Attend(E, a + b, Some(sink), j);
    AttendStandsFor(E, a, Some(sink), j);
    AttendStandsFor(E, b, None, j);
    AttendStandsFor(E, a + b, Some(sink), j);
    DenConcat(E, a, b, j);
    MergeAdds(E, pa, pb);
    assert |a| == 0 ==> Den(E, a) == 0.0;
    assert |b| == 0 ==> Den(E, b) == 0.0;
    assert SinkTerm(E, Some(sink)) > 0.0;
    hide Merge, Weight, Mass, Normal, Den, Num, Attend, SinkTerm;
    if |a| > 0 || |b| == 0 {
      Determined(E, Merge(E, pa, pb), pab);
    }
  }

  /** With the sink given to both partitions merging counts it twice when both have keys:
      the result is attention with the sink exactly when one of them is empty. */
  lemma SinkInBothPartitions(E: ExpLog, a: seq<Key>, b: seq<Key>, sink: real, j: nat)
    requires E.Lawful()
    ensures Merge(E, Attend(E, a, Some(sink), j), Attend(E, b, Some(sink), j)) == Attend(E, a + b, Some(sink), j)
            <==> (|a| == 0 || |b| == 0)
  {
    var pa, pb, pab := Attend(E, a, Some(sink), j), Attend(E, b, Some(sink), j), Attend(E, a + b, Some(sink), j);
    AttendStandsFor(E, a, Some(sink), j);
    AttendStandsFor(E, b, Some(sink), j);
    AttendStandsFor(E, a + b, Some(sink), j);
    DenConcat(E, a, b, j);
    MergeAdds(E, pa, pb);
    assert |a| == 0 ==> Den(E, a) == 0.0;
    assert |b| == 0 ==> Den(E, b) == 0.0;
    assert SinkTerm(E, Some(sink)) > 0.0;
    hide Merge, Weight, Mass, Normal, Den, Num, Attend, SinkTerm;
    if |a| == 0 || |b| == 0 {
      Determined(E, Merge(E, pa, pb), pab);
    }
  }
}
