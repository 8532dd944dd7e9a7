/** Stake-weighted vote thresholds and the intersection of vote sets that reach them.
    Voter weights are natural numbers; products that would leave 64 bits are not modelled. */
module Quorum {

  import opened Sums

  type Voter = nat

  const BFT_PERCENT: nat := 67
  const STALL_PERCENT: nat := 51
  const STALL_SECS: nat := 30

  /** Rounded-up division, the `div_ceil` of the thresholds. */
  function CeilDiv(a: nat, b: nat): (q: nat)
    requires b > 0
    ensures a <= q * b < a + b
  {
    (a + b - 1) / b
  }

  /** Finality threshold and the floor below which the deadline is extended. */
  function VoteFinalityThreshold(total: nat, elapsedSecs: nat): (r: (nat, nat))
    ensures total > 0 ==> 0 < r.1 <= r.0 <= total
    ensures 2 * r.0 >= total
    ensures 0 <= 100 * r.0 - total * (if elapsedSecs >= 30 then 51 else 67) < 100
    ensures 0 <= 4 * r.1 - r.0 < 4
  {
    var percent := if elapsedSecs >= STALL_SECS then STALL_PERCENT else BFT_PERCENT;
    var threshold := CeilDiv(total * percent, 100);
    (threshold, CeilDiv(threshold, 4))
  }

  /** The threshold is the least weight that makes 67% of the total, or 51% from 30 seconds
      on, and the floor the least weight that makes a quarter of the threshold. */
  lemma ThresholdIsLeast(total: nat, elapsedSecs: nat, w: nat)
    ensures var (threshold, floor) := VoteFinalityThreshold(total, elapsedSecs);
      && (w >= threshold <==> 100 * w >= total * if elapsedSecs >= 30 then 51 else 67)
      && (w >= floor <==> 4 * w >= threshold)
  {
  }

  /** Summed weight of a set of validators. */
  ghost function Weight(w: map<Voter, nat>, s: set<Voter>): nat
    requires s <= w.Keys
  {
    Total(w, s)
  }

  /** A vote set that reaches `percent` of the total, rounded up. */
  ghost predicate Reaches(w: map<Voter, nat>, s: set<Voter>, percent: nat)
    requires s <= w.Keys
  {
    Weight(w, s) >= CeilDiv(Weight(w, w.Keys) * percent, 100)
  }

  /** Weight shared by two vote sets, for any pair of percentages. */
  lemma SharedWeight(w: map<Voter, nat>, a: set<Voter>, b: set<Voter>, p: nat, q: nat)
    requires a <= w.Keys && b <= w.Keys
    requires Reaches(w, a, p) && Reaches(w, b, q)
    ensures 100 * Weight(w, a * b) >= Weight(w, w.Keys) * (p + q - 100)
  {
    TotalUnion(w, a, b);
    TotalSubset(w, a + b, w.Keys);
    SharedBound(Weight(w, a), Weight(w, b), Weight(w, a * b), Weight(w, w.Keys), p, q);
  }

  lemma SharedBound(a: nat, b: nat, shared: nat, total: nat, p: nat, q: nat)
    requires a >= CeilDiv(total * p, 100) && b >= CeilDiv(total * q, 100)
    requires a + b <= total + shared
    ensures 100 * shared >= total * (p + q - 100)
  {
    assert 100 * (a + b) >= total * p + total * q;
    assert total * (p + q - 100) == total * p + total * q - total * 100;
  }

  /** Two 67% vote sets share more than a third of the stake. */
  lemma BftQuorumsOverlap(w: map<Voter, nat>, a: set<Voter>, b: set<Voter>)
    requires a <= w.Keys && b <= w.Keys && Weight(w, w.Keys) > 0
    requires Reaches(w, a, BFT_PERCENT) && Reaches(w, b, BFT_PERCENT)
    ensures 3 * Weight(w, a * b) > Weight(w, w.Keys)
  {
    SharedWeight(w, a, b, BFT_PERCENT, BFT_PERCENT);
  }

  /** Any mix of 67% and 51% vote sets shares at least one voter. */
  lemma QuorumsShareVoter(w: map<Voter, nat>, a: set<Voter>, b: set<Voter>, p: nat, q: nat)
    requires a <= w.Keys && b <= w.Keys && Weight(w, w.Keys) > 0
    requires p in {STALL_PERCENT, BFT_PERCENT} && q in {STALL_PERCENT, BFT_PERCENT}
    requires Reaches(w, a, p) && Reaches(w, b, q)
    ensures exists v :: v in a && v in b
  {
    SharedWeight(w, a, b, p, q);
    var total := Weight(w, w.Keys);
    assert total * (p + q - 100) > 0 by {
      assert p + q - 100 >= 2;
    }
    assert a * b != {};
  }

  /** 51% is the lowest the timeout can ask for. */
  lemma TimeoutMeansMajority(w: map<Voter, nat>, s: set<Voter>, elapsedSecs: nat)
    requires s <= w.Keys
    requires Weight(w, s) >= VoteFinalityThreshold(Weight(w, w.Keys), elapsedSecs).0
    ensures Reaches(w, s, STALL_PERCENT)
    ensures elapsedSecs < STALL_SECS ==> Reaches(w, s, BFT_PERCENT)
  {
  }
}
