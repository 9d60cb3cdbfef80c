/** Softmax attention over a list of keys, and the online recurrence that computes it. */
module Softmax {
  import opened RealSums

  datatype Option<+T> = None | Some(value: T)

  /** A running maximum or a log-sum-exp: minus infinity when there is nothing yet. */
  datatype Ext = NegInf | Fin(v: real)

  function Max(a: Ext, b: Ext): Ext {
    if a.NegInf? then b else if b.NegInf? then a else Fin(Larger(a.v, b.v))
  }

  /** The exponential and the logarithm, of which only their laws are used. */
  datatype ExpLog = ExpLog(e: real -> real, ln: real -> real) {
    predicate Adds(x: real, y: real) {
      e(x + y) == e(x) * e(y)
    }

    /** All that the softmax itself needs. */
    ghost predicate Exponential() {
      && (forall x: real :: e(x) > 0.0)
      && (forall x: real, y: real :: Adds(x, y))
    }

    /** What a log-sum-exp needs besides. */
    ghost predicate Lawful() {
      && Exponential()
      && (forall x: real :: x > 0.0 ==> e(ln(x)) == x)
      && (forall x: real :: ln(e(x)) == x)
    }

    /** exp(a - b), which is 0 when a is minus infinity. */
    function Diff(a: Ext, b: real): real {
      if a.NegInf? then 0.0 else e(a.v - b)
    }

    /** exp(a), which is 0 when a is minus infinity. */
    function Of(a: Ext): real {
      if a.NegInf? then 0.0 else e(a.v)
    }
  }

  lemma DiffTimes(E: ExpLog, a: Ext, b: real)
    requires E.Exponential()
    ensures E.Diff(a, b) * E.e(b) == E.Of(a)
  {
    if a.Fin? {
      assert E.Adds(a.v - b, b);
      assert a.v - b + b == a.v;
    }
  }

  /** A key as a query sees it: its scaled score and its value vector. */
  datatype Key = Key(score: real, value: nat -> real)

  /** Sum of exp(score), and of exp(score) times channel j of the value. */
  function Den(E: ExpLog, keys: seq<Key>): real {
    if |keys| == 0 then 0.0 else Den(E, keys[..|keys| - 1]) + E.e(keys[|keys| - 1].score)
  }

  function Num(E: ExpLog, keys: seq<Key>, j: nat): real {
    if |keys| == 0 then 0.0
    else Num(E, keys[..|keys| - 1], j) + E.e(keys[|keys| - 1].score) * keys[|keys| - 1].value(j)
  }

  function MaxScore(keys: seq<Key>): Ext {
    if |keys| == 0 then NegInf else Max(MaxScore(keys[..|keys| - 1]), Fin(keys[|keys| - 1].score))
  }

  function SinkTerm(E: ExpLog, sink: Option<real>): real {
    match sink
    case None => 0.0
    case Some(x) => E.e(x)
  }

  lemma {:induction false} DenPositive(E: ExpLog, keys: seq<Key>)
    requires E.Exponential()
    ensures Den(E, keys) >= 0.0 && (|keys| > 0 ==> Den(E, keys) > 0.0)
  {
    if |keys| > 0 {
      DenPositive(E, keys[..|keys| - 1]);
    }
  }

  lemma {:induction false} DenConcat(E: ExpLog, a: seq<Key>, b: seq<Key>, j: nat)
    ensures Den(E, a + b) == Den(E, a) + Den(E, b)
    ensures Num(E, a + b, j) == Num(E, a, j) + Num(E, b, j)
    ensures MaxScore(a + b) == Max(MaxScore(a), MaxScore(b))
  {
    if |b| == 0 {
      assert a + b == a;
    } else {
      var b' := b[..|b| - 1];
      assert (a + b)[..|a + b| - 1] == a + b';
      DenConcat(E, a, b', j);
    }
  }

  lemma {:induction false} MaxOfSome(keys: seq<Key>)
    ensures MaxScore(keys).NegInf? <==> |keys| == 0
  {
  }

  // ---------- what attention is ----------

  /** Sums of exp(score - shift), the second pass of the plain two-pass softmax. */
  function ShiftedDen(E: ExpLog, keys: seq<Key>, shift: real): real {
    if |keys| == 0 then 0.0 else ShiftedDen(E, keys[..|keys| - 1], shift) + E.e(keys[|keys| - 1].score - shift)
  }

  function ShiftedNum(E: ExpLog, keys: seq<Key>, shift: real, j: nat): real {
    if |keys| == 0 then 0.0
    else ShiftedNum(E, keys[..|keys| - 1], shift, j) + E.e(keys[|keys| - 1].score - shift) * keys[|keys| - 1].value(j)
  }

  /** Plain two-pass softmax average of the values: find the maximum score, then sum.
      An attention sink only joins the denominator; without keys the result is 0. */
  function TwoPass(E: ExpLog, keys: seq<Key>, sink: Option<real>, j: nat): real {
    match MaxScore(keys)
    case NegInf => 0.0
    case Fin(m) =>
      var den := ShiftedDen(E, keys, m) + (if sink.Some? then E.e(sink.value - m) else 0.0);
      if den > 0.0 then ShiftedNum(E, keys, m, j) / den else 0.0
  }

  /** The log-sum-exp of the scores, sink included. */
  function LogSumExp(E: ExpLog, keys: seq<Key>, sink: Option<real>): Ext {
    if |keys| == 0 then NegInf else Fin(E.ln(Den(E, keys) + SinkTerm(E, sink)))
  }

  lemma {:induction false} Unshift(E: ExpLog, keys: seq<Key>, shift: real, j: nat)
    requires E.Exponential()
    ensures ShiftedDen(E, keys, shift) * E.e(shift) == Den(E, keys)
    ensures ShiftedNum(E, keys, shift, j) * E.e(shift) == Num(E, keys, j)
  {
    if |keys| > 0 {
      Unshift(E, keys[..|keys| - 1], shift, j);
      var last := keys[|keys| - 1];
      DiffTimes(E, Fin(last.score), shift);
      TimesRight(E.e(last.score - shift), last.value(j), E.e(shift));
    }
  }

  lemma TimesRight(x: real, v: real, e: real)
    ensures (x * v) * e == (x * e) * v
  {
  }

  lemma RatioOf(n: real, d: real, e: real, n': real, d': real)
    requires d > 0.0 && e > 0.0 && n * e == n' && d * e == d'
    ensures d' > 0.0 && n / d == n' / d'
  {
    var q := n / d;
    assert q * d' == n' by {
      assert q * (d * e) == (q * d) * e;
    }
  }

  /** The shift cancels: the two-pass softmax is the ratio of the unshifted sums. */
  lemma TwoPassIsRatio(E: ExpLog, keys: seq<Key>, sink: Option<real>, j: nat)
    requires E.Exponential() && |keys| > 0
    ensures Den(E, keys) + SinkTerm(E, sink) > 0.0
    ensures TwoPass(E, keys, sink, j) == Num(E, keys, j) / (Den(E, keys) + SinkTerm(E, sink))
  {
    hide ShiftedDen, ShiftedNum, Num, Den, MaxScore, ExpLog.Exponential, SinkTerm;
    MaxOfSome(keys);
    var m := MaxScore(keys).v;
    PositiveDen(E, keys, sink);
    Unshift(E, keys, m, j);
    ShiftedRatio(E, keys, sink, j, m, ShiftedDen(E, keys, m), ShiftedNum(E, keys, m, j));
  }

  lemma PositiveDen(E: ExpLog, keys: seq<Key>, sink: Option<real>)
    requires E.Exponential() && |keys| > 0
    ensures Den(E, keys) + SinkTerm(E, sink) > 0.0
  {
    DenPositive(E, keys);
  }

  /** Any l and acc that are right up to the factor exp(m) give the same quotient. */
  lemma ShiftedRatio(E: ExpLog, keys: seq<Key>, sink: Option<real>, j: nat, m: real, l: real, acc: real)
    requires E.Exponential() && |keys| > 0
    requires l * E.e(m) == Den(E, keys) && acc * E.e(m) == Num(E, keys, j)
    ensures var den := l + (if sink.Some? then E.e(sink.value - m) else 0.0);
            && den > 0.0
            && den * E.e(m) == Den(E, keys) + SinkTerm(E, sink)
            && acc / den == Num(E, keys, j) / (Den(E, keys) + SinkTerm(E, sink))
  {
    hide Den, Num, ExpLog.Exponential;
    DenPositive(E, keys);
    var t := if sink.Some? then E.e(sink.value - m) else 0.0;
    ShiftedSink(E, sink, m);
    PositiveExp(E, m);
    assert (l + t) * E.e(m) == l * E.e(m) + t * E.e(m);
    PositiveFactor(l + t, E.e(m));
    RatioOf(acc, l + t, E.e(m), Num(E, keys, j), Den(E, keys) + SinkTerm(E, sink));
  }

  lemma PositiveExp(E: ExpLog, x: real)
    requires E.Exponential()
    ensures E.e(x) > 0.0
  {
  }

  lemma ShiftedSink(E: ExpLog, sink: Option<real>, m: real)
    requires E.Exponential()
    ensures (if sink.Some? then E.e(sink.value - m) else 0.0) * E.e(m) == SinkTerm(E, sink) && SinkTerm(E, sink) >= 0.0
  {
    if sink.Some? {
      DiffTimes(E, Fin(sink.value), m);
    }
  }

  lemma PositiveFactor(x: real, e: real)
    requires x * e > 0.0 && e > 0.0
    ensures x > 0.0
  {
  }

  // ---------- the online recurrence ----------

  /** x stands for y, scaled down by exp(m). */
  predicate AtScale(E: ExpLog, m: real, x: real, y: real) {
    x * E.e(m) == y
  }

  /** The running maximum m and sum l after `keys`. */
  ghost predicate TracksSum(E: ExpLog, keys: seq<Key>, m: Ext, l: real) {
    m == MaxScore(keys) && (if m.NegInf? then l == 0.0 else AtScale(E, m.v, l, Den(E, keys)))
  }

  /** The running weighted value of channel j after `keys`, under maximum m. */
  ghost predicate TracksValue(E: ExpLog, keys: seq<Key>, m: Ext, acc: real, j: nat) {
    if m.NegInf? then acc == 0.0 else AtScale(E, m.v, acc, Num(E, keys, j))
  }

  /** Rescaling by exp(m - mNew) and adding exp(score - mNew) times v, seen at scale exp(mNew). */
  lemma Rescaled(E: ExpLog, m: Ext, x: real, score: real, v: real, mNew: real)
    requires E.Exponential()
    ensures (x * E.Diff(m, mNew) + E.e(score - mNew) * v) * E.e(mNew) == x * E.Of(m) + E.e(score) * v
  {
    DiffTimes(E, m, mNew);
    DiffTimes(E, Fin(score), mNew);
    Distribute(x, E.Diff(m, mNew), E.e(score - mNew), v, E.e(mNew));
  }

  lemma Distribute(x: real, corr: real, p: real, v: real, e: real)
    ensures (x * corr + p * v) * e == x * (corr * e) + (p * e) * v
  {
    TimesRight(p, v, e);
  }

  lemma LastKey(E: ExpLog, keys: seq<Key>, key: Key, j: nat)
    ensures Den(E, keys + [key]) == Den(E, keys) + E.e(key.score)
    ensures Num(E, keys + [key], j) == Num(E, keys, j) + E.e(key.score) * key.value(j)
    ensures MaxScore(keys + [key]) == Max(MaxScore(keys), Fin(key.score))
  {
    assert (keys + [key])[..|keys + [key]| - 1] == keys;
  }

  /** The update of the running sum, and of a running value, at one key. */
  function NextSum(E: ExpLog, m: Ext, l: real, score: real): real {
    var mNew := Max(m, Fin(score)).v;
    l * E.Diff(m, mNew) + E.e(score - mNew)
  }

  function NextValue(E: ExpLog, m: Ext, acc: real, score: real, value: real): real {
    var mNew := Max(m, Fin(score)).v;
    acc * E.Diff(m, mNew) + E.e(score - mNew) * value
  }

  /** Rescaling keeps what x stands for: a total so far, zero when there is none. */
  lemma RescaledTotal(E: ExpLog, m: Ext, x: real, total: real, score: real, v: real, mNew: real)
    requires E.Exponential()
    requires if m.NegInf? then x == 0.0 && total == 0.0 else AtScale(E, m.v, x, total)
    ensures AtScale(E, mNew, x * E.Diff(m, mNew) + E.e(score - mNew) * v, total + E.e(score) * v)
  {
    Rescaled(E, m, x, score, v, mNew);
    hide ExpLog.Exponential, ExpLog.Diff;
    assert x * E.Of(m) == total;
  }

  lemma NoKeys(E: ExpLog, keys: seq<Key>, j: nat)
    ensures |keys| == 0 ==> Den(E, keys) == 0.0 && Num(E, keys, j) == 0.0
  {
  }

  /** One key of the online softmax: rescale by exp(m - mNew), add exp(score - mNew). */
  lemma OnlineSum(E: ExpLog, keys: seq<Key>, m: Ext, l: real, key: Key)
    requires E.Exponential() && TracksSum(E, keys, m, l)
    ensures TracksSum(E, keys + [key], Max(m, Fin(key.score)), NextSum(E, m, l, key.score))
  {
    hide Den, Num, MaxScore, ExpLog.Diff, ExpLog.Exponential;
    MaxOfSome(keys);
    NoKeys(E, keys, 0);
    LastKey(E, keys, key, 0);
    RescaledTotal(E, m, l, Den(E, keys), key.score, 1.0, Max(m, Fin(key.score)).v);
  }

  lemma OnlineValue(E: ExpLog, keys: seq<Key>, m: Ext, acc: real, key: Key, j: nat)
    requires E.Exponential() && m == MaxScore(keys) && TracksValue(E, keys, m, acc, j)
    ensures TracksValue(E, keys + [key], Max(m, Fin(key.score)), NextValue(E, m, acc, key.score, key.value(j)), j)
  {
    hide Den, Num, MaxScore, ExpLog.Diff, ExpLog.Exponential;
    MaxOfSome(keys);
    NoKeys(E, keys, j);
    LastKey(E, keys, key, j);
    RescaledTotal(E, m, acc, Num(E, keys, j), key.score, key.value(j), Max(m, Fin(key.score)).v);
  }

  // ---------- kept keys of a range ----------

  /** The keys of positions lo..hi-1 in order, holes left out. */
  function Kept(source: nat -> Option<Key>, lo: nat, hi: nat): seq<Key>
    decreases hi
  {
    if hi <= lo then []
    else
      var before := Kept(source, lo, hi - 1);
      match source(hi - 1)
      case None => before
      case Some(key) => before + [key]
  }

  lemma {:induction false} KeptConcat(source: nat -> Option<Key>, lo: nat, mid: nat, hi: nat)
    requires lo <= mid <= hi
    ensures Kept(source, lo, hi) == Kept(source, lo, mid) + Kept(source, mid, hi)
  {
    if mid < hi {
      KeptConcat(source, lo, mid, hi - 1);
    }
  }

  lemma {:induction false} KeptEqual(source: nat -> Option<Key>, other: nat -> Option<Key>, lo: nat, hi: nat)
    requires forall k: nat | lo <= k < hi :: source(k) == other(k)
    ensures Kept(source, lo, hi) == Kept(other, lo, hi)
  {
    if lo < hi {
      KeptEqual(source, other, lo, hi - 1);
    }
  }
}
