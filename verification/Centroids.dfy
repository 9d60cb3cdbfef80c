/** The midpoint-count quantiser: which centroid it picks. */
module Centroids {

  function Midpoint(centroids: seq<real>, m: nat): real
    requires m + 1 < |centroids|
  {
    (centroids[m] + centroids[m + 1]) / 2.0
  }

  /** How many of the first n midpoints lie strictly below z. */
  function MidpointsBelow(z: real, centroids: seq<real>, n: nat): (c: nat)
    requires n < |centroids|
    ensures c <= n
  {
    if n == 0 then 0
    else MidpointsBelow(z, centroids, n - 1) + if z > Midpoint(centroids, n - 1) then 1 else 0
  }

  method CountMidpoints(z: real, centroids: seq<real>) returns (code: nat)
    requires |centroids| > 0
    ensures code == MidpointsBelow(z, centroids, |centroids| - 1)
  {
    code := 0;
    for m := 0 to |centroids| - 1
      invariant code == MidpointsBelow(z, centroids, m)
    {
      var mid := 0.5 * (centroids[m] + centroids[m + 1]);
      code := code + if z > mid then 1 else 0;
    }
  }

  predicate Ascending(centroids: seq<real>) {
    forall i, j | 0 <= i < j < |centroids| :: centroids[i] <= centroids[j]
  }

  predicate StrictlyAscending(centroids: seq<real>) {
    forall i, j | 0 <= i < j < |centroids| :: centroids[i] < centroids[j]
  }

  function Distance(x: real, y: real): real {
    if x < y then y - x else x - y
  }

  /** No centroid is nearer to z than centroid c. */
  predicate Nearest(z: real, centroids: seq<real>, c: nat)
    requires c < |centroids|
  {
    forall m | 0 <= m < |centroids| :: Distance(z, centroids[c]) <= Distance(z, centroids[m])
  }

  /** Every centroid of lower index is farther from z. */
  predicate LowerAreFarther(z: real, centroids: seq<real>, c: nat)
    requires c < |centroids|
  {
    forall m | 0 <= m < c :: Distance(z, centroids[c]) < Distance(z, centroids[m])
  }

  /** With ascending centroids the midpoints below z are a prefix. */
  lemma {:induction false} BelowIsPrefix(z: real, centroids: seq<real>, n: nat, m: nat)
    requires Ascending(centroids) && m < n < |centroids|
    ensures z > Midpoint(centroids, m) <==> m < MidpointsBelow(z, centroids, n)
  {
    if m < n - 1 {
      BelowIsPrefix(z, centroids, n - 1, m);
    } else if 0 < n - 1 {
      var c := MidpointsBelow(z, centroids, n - 1);
      if c < n - 1 {
        BelowIsPrefix(z, centroids, n - 1, c);
      }
    }
  }

  /** The count is the index of a nearest centroid, for every z. */
  lemma CountIsNearest(z: real, centroids: seq<real>)
    requires |centroids| > 0 && Ascending(centroids)
    ensures Nearest(z, centroids, MidpointsBelow(z, centroids, |centroids| - 1))
  {
    var n := |centroids| - 1;
    var c := MidpointsBelow(z, centroids, n);
    if c < n {
      BelowIsPrefix(z, centroids, n, c);
    }
    if c > 0 {
      BelowIsPrefix(z, centroids, n, c - 1);
    }
  }

  /** With distinct centroids the count is exactly the lowest index among the nearest. */
  lemma CountIsLowestNearest(z: real, centroids: seq<real>, c: nat)
    requires c < |centroids| && StrictlyAscending(centroids)
    ensures c == MidpointsBelow(z, centroids, |centroids| - 1) <==>
            Nearest(z, centroids, c) && LowerAreFarther(z, centroids, c)
  {
    var n := |centroids| - 1;
    var d := MidpointsBelow(z, centroids, n);
    CountIsNearest(z, centroids);
    if d > 0 {
      BelowIsPrefix(z, centroids, n, d - 1);
    }
    assert LowerAreFarther(z, centroids, d);
  }
}
