/** Expert routing: who goes where, and how many rows each expert gets. */
module MoeRouting {

  /** ids[t * topK + j] is the expert of token t's j-th choice; an id outside
      [0, nExperts) marks a pair that this rank must skip. */
  datatype Routing = Routing(nTokens: nat, topK: nat, nExperts: nat, ids: seq<int>) {
    predicate Shaped() {
      |ids| == nTokens * topK
    }

    predicate Routed(p: nat) {
      p < |ids| && 0 <= ids[p] < nExperts
    }

    /** The pair of token t's j-th choice. */
    function Pair(t: nat, j: nat): nat {
      t * topK + j
    }

    /** The token a pair belongs to. */
    function Token(p: nat): nat {
      if topK > 0 then p / topK else 0
    }

    /** Pairs routed to expert e. */
    function Count(e: nat): nat {
      CountBelow(e, |ids|)
    }

    function CountBelow(e: nat, n: nat): nat
      requires n <= |ids|
    {
      if n == 0 then 0 else CountBelow(e, n - 1) + if ids[n - 1] == e then 1 else 0
    }

    function Counts(): seq<nat> {
      seq(nExperts, e requires 0 <= e => Count(e))
    }
  }

  /** First row of expert e's segment. */
  function Prefix(rows: seq<nat>, e: nat): nat
    requires e <= |rows|
  {
    if e == 0 then 0 else Prefix(rows, e - 1) + rows[e - 1]
  }

  lemma {:induction false} PrefixMonotone(rows: seq<nat>, d: nat, e: nat)
    requires d <= e <= |rows|
    ensures Prefix(rows, d) <= Prefix(rows, e)
  {
    if d < e {
      PrefixMonotone(rows, d, e - 1);
    }
  }

  /** Row s lies in expert e's segment. */
  predicate InSegment(rows: seq<nat>, e: nat, s: nat) {
    e < |rows| && Prefix(rows, e) <= s < Prefix(rows, e + 1)
  }

  lemma SegmentUnique(rows: seq<nat>, d: nat, e: nat, s: nat)
    requires InSegment(rows, d, s) && InSegment(rows, e, s)
    ensures d == e
  {
    if d < e {
      PrefixMonotone(rows, d + 1, e);
    } else if e < d {
      PrefixMonotone(rows, e + 1, d);
    }
  }

  /** The expert whose segment holds row s. */
  function SegmentOf(rows: seq<nat>, n: nat, s: nat): (e: nat)
    requires n <= |rows| && s < Prefix(rows, n)
    ensures e < n && InSegment(rows, e, s)
  {
    if Prefix(rows, n - 1) <= s then n - 1 else SegmentOf(rows, n - 1, s)
  }
}
