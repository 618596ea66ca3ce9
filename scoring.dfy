/**
 * The arithmetic shared by both route handlers and the client: `Math.round` of a
 * non-negative ratio, the weighted percentage score, and the status tally.
 * All of it is exact integer arithmetic; JavaScript computes it in floating point.
 */
module Scoring {
  import opened Schema
  import opened Seqs

  /**
   * `Math.round(p / q)` for `p >= 0`, `q > 0`: the integer nearest to `p / q`,
   * a half rounded up. The contract says exactly that: `r - 1/2 <= p/q < r + 1/2`.
   */
  function RoundRatio(p: nat, q: nat): (r: nat)
    requires q > 0
    ensures q * (2 * r - 1) <= 2 * p < q * (2 * r + 1)
  {
    (2 * p + q) / (2 * q)
  }

  lemma MulLeq(a: int, b: int, c: nat)
    requires a <= b
    ensures c * a <= c * b
  {
  }

  /** A ratio at most `k` rounds to at most `k`. */
  lemma RoundRatioAtMost(p: nat, q: nat, k: nat)
    requires q > 0 && p <= k * q
    ensures RoundRatio(p, q) <= k
  {
    var r := RoundRatio(p, q);
    if r > k {
      MulLeq(2 * k + 1, 2 * r - 1, q);
      assert false;
    }
  }

  /** A whole ratio rounds to itself. */
  lemma RoundRatioExact(k: nat, q: nat)
    requires q > 0
    ensures RoundRatio(k * q, q) == k
  {
    var r := RoundRatio(k * q, q);
    if r > k {
      MulLeq(2 * k + 1, 2 * r - 1, q);
      assert false;
    } else if r < k {
      MulLeq(2 * r + 1, 2 * k - 1, q);
      assert false;
    }
  }

  /** Rounding does not reverse the order of two ratios over the same divisor. */
  lemma RoundRatioMonotone(p1: nat, p2: nat, q: nat)
    requires q > 0 && p1 <= p2
    ensures RoundRatio(p1, q) <= RoundRatio(p2, q)
  {
    var r1, r2 := RoundRatio(p1, q), RoundRatio(p2, q);
    if r1 > r2 {
      MulLeq(2 * r2 + 1, 2 * r1 - 1, q);
      assert false;
    }
  }

  /**
   * `Math.round((found * 1.0 + warning * 0.5) / total * 100)`, computed as the
   * rounded ratio `100 * (2 * found + warning) / (2 * total)`.
   */
  function WeightedScore(found: nat, warning: nat, total: nat): (r: nat)
    requires total > 0
    ensures found + warning <= total ==> r <= 100
    ensures found == total && warning == 0 ==> r == 100
    ensures found == 0 && warning == 0 ==> r == 0
  {
    var p, q := 100 * (2 * found + warning), 2 * total;
    assert found + warning <= total ==> RoundRatio(p, q) <= 100 by {
      if found + warning <= total {
        RoundRatioAtMost(p, q, 100);
      }
    }
    assert found == total && warning == 0 ==> RoundRatio(p, q) == 100 by {
      if found == total && warning == 0 {
        RoundRatioExact(100, q);
      }
    }
    RoundRatio(p, q)
  }

  /** More good or warning tags over the same total never lower the score. */
  lemma WeightedScoreMonotone(f1: nat, w1: nat, f2: nat, w2: nat, total: nat)
    requires total > 0
    requires 2 * f1 + w1 <= 2 * f2 + w2
    ensures WeightedScore(f1, w1, total) <= WeightedScore(f2, w2, total)
  {
    RoundRatioMonotone(100 * (2 * f1 + w1), 100 * (2 * f2 + w2), 2 * total);
  }

  /** Every status is good, warning or missing, so the three tallies add up to the tag count. */
  lemma {:induction false} CountsPartition(s: seq<Status>)
    ensures Count(s, Good) + Count(s, Warning) + Count(s, Missing) == |s|
  {
    if s != [] {
      CountsPartition(s[1..]);
      assert Count(s, Good) == (if s[0] == Good then 1 else 0) + Count(s[1..], Good);
      assert Count(s, Warning) == (if s[0] == Warning then 1 else 0) + Count(s[1..], Warning);
      assert Count(s, Missing) == (if s[0] == Missing then 1 else 0) + Count(s[1..], Missing);
    }
  }
}
