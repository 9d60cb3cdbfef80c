/** Laws of the decay and the write strength, from the laws of the exponential. */
module GateLaws {
  import opened GatedDelta

  /** What a real exponential and logarithm satisfy. */
  ghost predicate Analytic(M: Maths) {
    && M.Positive() && M.exp(0.0) == 1.0
    && (forall x: real, y: real :: Adds(M, x, y))
    && (forall x: real, y: real :: x < y ==> M.exp(x) < M.exp(y))
    && (forall y: real :: y > 0.0 ==> M.exp(M.log(y)) == y)
  }

  predicate Adds(M: Maths, x: real, y: real) {
    M.exp(x + y) == M.exp(x) * M.exp(y)
  }

  lemma ExpOrder(M: Maths, x: real, y: real)
    requires Analytic(M)
    ensures M.exp(x) < M.exp(y) <==> x < y
    ensures M.exp(x) == M.exp(y) <==> x == y
  {
  }

  lemma PositiveExp(M: Maths, x: real)
    requires M.Positive()
    ensures M.exp(x) > 0.0
  {
  }

  lemma ExpAdds(M: Maths, x: real, y: real)
    requires Analytic(M)
    ensures M.exp(x + y) == M.exp(x) * M.exp(y) && M.exp(0.0) == 1.0 && M.exp(x) > 0.0
  {
    hide Maths.Positive, Maths.Softplus;
    PositiveExp(M, x);
    assert Adds(M, x, y);
  }

  lemma ExpOfLog(M: Maths, y: real)
    requires Analytic(M) && y > 0.0
    ensures M.exp(M.log(y)) == y
  {
  }

  lemma ExpNegates(M: Maths, x: real)
    requires Analytic(M)
    ensures M.exp(-x) * M.exp(x) == 1.0
  {
    hide Analytic, Maths.Positive;
    ExpAdds(M, -x, x);
    assert -x + x == 0.0;
  }

  lemma SoftplusExp(M: Maths, x: real)
    requires Analytic(M)
    ensures M.exp(M.Softplus(x)) == if x <= 20.0 then 1.0 + M.exp(x) else M.exp(x)
    ensures M.Softplus(x) > 0.0
  {
    hide Analytic, Maths.Positive;
    ExpAdds(M, x, 0.0);
    if x <= 20.0 {
      var y := 1.0 + M.exp(x);
      ExpOfLog(M, y);
      ExpOrder(M, 0.0, M.log(y));
    }
  }

  lemma ProductOrder(c: real, p: real, q: real)
    requires c > 0.0
    ensures -c * q < -c * p <==> p < q
    ensures p > 0.0 ==> -c * p < 0.0
  {
  }

  /** The rate is negative, and falls as the soft plus rises. */
  lemma RateOrder(M: Maths, aLog: real, x: real, y: real)
    requires Analytic(M)
    ensures M.Rate(aLog, x) < 0.0
    ensures M.Rate(aLog, y) < M.Rate(aLog, x) <==> M.Softplus(x) < M.Softplus(y)
  {
    hide Analytic, Maths.Positive, Maths.Softplus;
    SoftplusExp(M, x);
    ExpAdds(M, aLog, 0.0);
    ProductOrder(M.exp(aLog), M.Softplus(x), M.Softplus(y));
  }

  /** The state always decays and never changes sign. */
  lemma DecayRange(M: Maths, aLog: real, x: real)
    requires Analytic(M)
    ensures 0.0 < M.Decay(aLog, x) < 1.0
  {
    hide Analytic, Maths.Positive, Maths.Rate;
    RateOrder(M, aLog, x, x);
    ExpAdds(M, M.Rate(aLog, x), 0.0);
    ExpOrder(M, M.Rate(aLog, x), 0.0);
  }

  /** Of two inputs the larger decays more, exactly when they lie on the same side of 20 or
      the larger clears the step between the two branches of the soft plus. */
  lemma DecayDecreases(M: Maths, aLog: real, x: real, y: real)
    requires Analytic(M) && x < y
    ensures M.Decay(aLog, y) < M.Decay(aLog, x) <==> y <= 20.0 || x > 20.0 || M.exp(y) > 1.0 + M.exp(x)
  {
    hide Analytic, Maths.Positive, Maths.Softplus, Maths.Rate;
    SoftplusExp(M, x);
    SoftplusExp(M, y);
    ExpAdds(M, x, 0.0);
    ExpOrder(M, x, y);
    ExpOrder(M, M.Softplus(x), M.Softplus(y));
    RateOrder(M, aLog, x, y);
    ExpOrder(M, M.Rate(aLog, y), M.Rate(aLog, x));
  }

  /** An input at which it does not: just above 20 the linear branch gives what 20 gives. */
  lemma DecayPlateau(M: Maths, aLog: real)
    requires Analytic(M)
    ensures M.log(1.0 + M.exp(20.0)) > 20.0
    ensures M.Decay(aLog, M.log(1.0 + M.exp(20.0))) == M.Decay(aLog, 20.0)
  {
    hide Analytic, Maths.Positive;
    ExpAdds(M, 20.0, 0.0);
    ExpOfLog(M, 1.0 + M.exp(20.0));
    ExpOrder(M, 20.0, M.log(1.0 + M.exp(20.0)));
    assert M.Softplus(M.log(1.0 + M.exp(20.0))) == M.Softplus(20.0);
    hide Maths.Softplus;
    assert M.Rate(aLog, M.log(1.0 + M.exp(20.0))) == M.Rate(aLog, 20.0);
  }

  /** A larger A_log decays more. */
  lemma DecayFallsWithALog(M: Maths, aLog: real, bLog: real, x: real)
    requires Analytic(M) && aLog < bLog
    ensures M.Decay(bLog, x) < M.Decay(aLog, x)
  {
    hide Analytic, Maths.Positive, Maths.Softplus;
    SoftplusExp(M, x);
    ExpOrder(M, aLog, bLog);
    ScaledDown(M.exp(aLog), M.exp(bLog), M.Softplus(x));
    ExpOrder(M, M.Rate(bLog, x), M.Rate(aLog, x));
  }

  lemma ScaledDown(a: real, b: real, p: real)
    requires a < b && p > 0.0
    ensures -b * p < -a * p
  {
  }

  /** At A_log = 0 the decay is 1 / (1 + exp(x)), and exp(-x) beyond 20. */
  lemma DecayAtZero(M: Maths, x: real)
    requires Analytic(M)
    ensures M.Decay(0.0, x) * (if x <= 20.0 then 1.0 + M.exp(x) else M.exp(x)) == 1.0
  {
    hide Analytic, Maths.Positive, Maths.Softplus;
    SoftplusExp(M, x);
    ExpAdds(M, 0.0, 0.0);
    ExpNegates(M, M.Softplus(x));
    assert M.Rate(0.0, x) == -M.Softplus(x);
  }

  /** Decay rates add: with exp(c) = exp(a) + exp(b) the decay under c is that under a
      times that under b. */
  lemma DecayRatesAdd(M: Maths, a: real, b: real, c: real, x: real)
    requires Analytic(M) && M.exp(c) == M.exp(a) + M.exp(b)
    ensures M.Decay(c, x) == M.Decay(a, x) * M.Decay(b, x)
  {
    hide Analytic, Maths.Positive, Maths.Softplus;
    SplitRate(M.exp(a), M.exp(b), M.Softplus(x));
    assert M.Rate(c, x) == M.Rate(a, x) + M.Rate(b, x);
    hide Maths.Rate;
    ExpAdds(M, M.Rate(a, x), M.Rate(b, x));
  }

  lemma SplitRate(a: real, b: real, p: real)
    ensures -(a + b) * p == -a * p + -b * p
  {
  }

  /** The write strength: one half at zero, increasing, symmetric. */
  lemma SigmoidLaws(M: Maths, x: real, y: real)
    requires Analytic(M)
    ensures M.Sigmoid(0.0) == 0.5
    ensures M.Sigmoid(x) + M.Sigmoid(-x) == 1.0
    ensures x < y ==> M.Sigmoid(x) < M.Sigmoid(y)
    ensures 0.0 < M.Sigmoid(x) < 1.0
    ensures M.Sigmoid(x) * (1.0 + M.exp(-x)) == 1.0
  {
    hide Analytic, Maths.Positive;
    ExpNegates(M, x);
    ExpAdds(M, x, 0.0);
    ExpAdds(M, -x, 0.0);
    ExpAdds(M, -y, 0.0);
    assert -(-x) == x && -0.0 == 0.0;
    var u, v := M.exp(-x), M.exp(x);
    Reciprocals(u, v);
    if x < y {
      ExpOrder(M, -y, -x);
      ReciprocalOrder(1.0 + M.exp(-y), 1.0 + u);
    }
  }

  lemma Reciprocals(u: real, v: real)
    requires u > 0.0 && v > 0.0 && u * v == 1.0
    ensures 1.0 / (1.0 + u) + 1.0 / (1.0 + v) == 1.0
    ensures 0.0 < 1.0 / (1.0 + u) < 1.0 && 1.0 / (1.0 + u) * (1.0 + u) == 1.0
  {
    assert (1.0 + u) * (1.0 + v) == (1.0 + u) + (1.0 + v);
    var p, q := 1.0 / (1.0 + u), 1.0 / (1.0 + v);
    assert p * (1.0 + u) == 1.0 && q * (1.0 + v) == 1.0;
    var s := (1.0 + u) * (1.0 + v);
    assert (p + q) * s == (p * (1.0 + u)) * (1.0 + v) + (q * (1.0 + v)) * (1.0 + u);
    assert (p + q - 1.0) * s == 0.0;
  }

  lemma ReciprocalOrder(p: real, q: real)
    requires 0.0 < p < q
    ensures 1.0 / q < 1.0 / p
  {
  }
}
