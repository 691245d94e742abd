/**
 * The equity path of a run, as functions of the sequence of per-period
 * (controlled) returns: cumulative growth, running peak, drawdown from the
 * peak, the largest drawdown, the win count and the gain and loss sums.
 * The simulator's loop keeps each of these in a variable; its invariants
 * say that each variable equals the function below of the returns seen so far.
 */
module Path {
  import opened Numerics

  /** One point of the equity curve. */
  datatype EquityPoint = EquityPoint(index: int, equity: real, drawdown: real)

  /** Equity after the returns `rs`, starting from 1: the product of every `1 + r`. */
  function Growth(rs: seq<real>): real {
    if rs == [] then 1.0 else Growth(rs[..|rs| - 1]) * (1.0 + rs[|rs| - 1])
  }

  /** Running peak: the largest equity seen, starting from 1. */
  function Peak(rs: seq<real>): (p: real)
    ensures p >= 1.0 && p >= Growth(rs)
  {
    if rs == [] then 1.0 else Max(Peak(rs[..|rs| - 1]), Growth(rs))
  }

  /** Drawdown after `rs`: how far equity sits below the running peak, as a fraction of the peak. */
  function Drawdown(rs: seq<real>): real {
    var peak := Peak(rs);
    if peak == 0.0 then 0.0 else (peak - Growth(rs)) / peak
  }

  /** A drawdown is a fraction in [0, 1) while equity is positive, and 0 exactly at the peak. */
  lemma DrawdownRange(rs: seq<real>)
    ensures 0.0 <= Drawdown(rs)
    ensures Growth(rs) > 0.0 ==> Drawdown(rs) < 1.0
    ensures Drawdown(rs) == 0.0 <==> Growth(rs) == Peak(rs)
  {
  }

  /** The largest drawdown over every prefix of `rs` (0 for no periods). */
  function MaxDrawdown(rs: seq<real>): (m: real)
    ensures m >= 0.0
  {
    if rs == [] then 0.0 else Max(MaxDrawdown(rs[..|rs| - 1]), Drawdown(rs))
  }

  /** The curve point recorded after period `i`. */
  function PointAt(rs: seq<real>, i: nat): EquityPoint
    requires i < |rs|
  {
    EquityPoint(i, Growth(rs[..i + 1]), Drawdown(rs[..i + 1]))
  }

  /** Periods whose return is non-negative. */
  function Wins(rs: seq<real>): (n: nat)
    ensures n <= |rs|
  {
    if rs == [] then 0 else Wins(rs[..|rs| - 1]) + (if rs[|rs| - 1] >= 0.0 then 1 else 0)
  }

  /** Sum of the non-negative returns. */
  function PositiveSum(rs: seq<real>): (s: real)
    ensures s >= 0.0
  {
    if rs == [] then 0.0
    else PositiveSum(rs[..|rs| - 1]) + (if rs[|rs| - 1] >= 0.0 then rs[|rs| - 1] else 0.0)
  }

  /** Sum of the magnitudes of the negative returns. */
  function NegativeSum(rs: seq<real>): (s: real)
    ensures s >= 0.0
  {
    if rs == [] then 0.0
    else NegativeSum(rs[..|rs| - 1]) + (if rs[|rs| - 1] >= 0.0 then 0.0 else -rs[|rs| - 1])
  }

  /** Left-to-right sum, as `reduce((acc, val) => acc + val, 0)`. */
  function Sum(rs: seq<real>): real {
    if rs == [] then 0.0 else Sum(rs[..|rs| - 1]) + rs[|rs| - 1]
  }

  /*
   * One period of the running computation. Each lemma takes the tracked
   * values as plain variables, so that a loop keeping them can hand over
   * its own state: compounding the equity of `rs` by `r`, raising the peak
   * to the new equity, measuring the drawdown from that peak and raising the
   * largest drawdown give the values of `rs + [r]`.
   */

  lemma StepGrowth(rs: seq<real>, r: real, equity: real)
    requires equity == Growth(rs)
    ensures Growth(rs + [r]) == equity * (1.0 + r)
  {
    assert (rs + [r])[..|rs|] == rs;
  }

  lemma StepPeak(rs: seq<real>, r: real, equity: real, peak: real)
    requires equity == Growth(rs + [r]) && peak == Peak(rs)
    ensures Peak(rs + [r]) == Max(peak, equity)
  {
    assert (rs + [r])[..|rs|] == rs;
  }

  lemma StepDrawdown(rs: seq<real>, equity: real, peak: real)
    requires equity == Growth(rs) && peak == Peak(rs)
    ensures Drawdown(rs) == if peak == 0.0 then 0.0 else (peak - equity) / peak
  {
  }

  lemma StepMaxDrawdown(rs: seq<real>, r: real, drawdown: real, maxDrawdown: real)
    requires drawdown == Drawdown(rs + [r]) && maxDrawdown == MaxDrawdown(rs)
    ensures MaxDrawdown(rs + [r]) == Max(maxDrawdown, drawdown)
  {
    assert (rs + [r])[..|rs|] == rs;
  }

  /** Appending a period counts it as a win or adds its loss. */
  lemma StepCounts(rs: seq<real>, r: real)
    ensures Wins(rs + [r]) == Wins(rs) + (if r >= 0.0 then 1 else 0)
    ensures PositiveSum(rs + [r]) == PositiveSum(rs) + (if r >= 0.0 then r else 0.0)
    ensures NegativeSum(rs + [r]) == NegativeSum(rs) + (if r >= 0.0 then 0.0 else -r)
  {
    assert (rs + [r])[..|rs|] == rs;
  }

  /** Every return is above -100%: no period wipes the account out. */
  predicate AboveMinusOne(rs: seq<real>) {
    forall k | 0 <= k < |rs| :: rs[k] > -1.0
  }

  /** A prefix of a sequence with no period below -100% has none either. */
  lemma AboveMinusOnePrefix(rs: seq<real>, n: nat)
    requires AboveMinusOne(rs) && n <= |rs|
    ensures AboveMinusOne(rs[..n])
  {
  }

  /** Equity stays positive as long as no period loses 100% or more. */
  lemma {:induction false} GrowthPositive(rs: seq<real>)
    requires AboveMinusOne(rs)
    ensures Growth(rs) > 0.0
  {
    if rs != [] {
      var init := rs[..|rs| - 1];
      AboveMinusOnePrefix(rs, |rs| - 1);
      GrowthPositive(init);
      var g, f := Growth(init), 1.0 + rs[|rs| - 1];
      assert g > 0.0 && f > 0.0;
      assert g * f > 0.0;
    }
  }

  /** The running peak never decreases, so it dominates the peak of every prefix. */
  lemma {:induction false} PeakMonotone(rs: seq<real>, n: nat)
    requires n <= |rs|
    ensures Peak(rs[..n]) <= Peak(rs)
    decreases |rs|
  {
    if n < |rs| {
      var init := rs[..|rs| - 1];
      assert init[..n] == rs[..n];
      PeakMonotone(init, n);
    } else {
      assert rs[..n] == rs;
    }
  }

  /** The running peak is at least every equity value recorded so far. */
  lemma PeakDominatesEquity(rs: seq<real>, n: nat)
    requires n <= |rs|
    ensures Growth(rs[..n]) <= Peak(rs)
  {
    PeakMonotone(rs, n);
  }

  /** The largest drawdown is the largest drawdown of every prefix: it is an upper bound ... */
  lemma {:induction false} MaxDrawdownBounds(rs: seq<real>, n: nat)
    requires 0 < n <= |rs|
    ensures Drawdown(rs[..n]) <= MaxDrawdown(rs)
    decreases |rs|
  {
    if n < |rs| {
      var init := rs[..|rs| - 1];
      assert init[..n] == rs[..n];
      MaxDrawdownBounds(init, n);
    } else {
      assert rs[..n] == rs;
    }
  }

  /** ... and, when there is at least one period, it is attained by some prefix. */
  lemma {:induction false} MaxDrawdownAttained(rs: seq<real>) returns (n: nat)
    requires |rs| > 0
    ensures 0 < n <= |rs| && Drawdown(rs[..n]) == MaxDrawdown(rs)
    decreases |rs|
  {
    var init := rs[..|rs| - 1];
    if init != [] && MaxDrawdown(init) >= Drawdown(rs) {
      n := MaxDrawdownAttained(init);
      assert init[..n] == rs[..n];
    } else {
      n := |rs|;
      assert rs[..n] == rs;
    }
  }

  /**
   * Every point of the curve of a run without a total loss has positive
   * equity and a drawdown in [0, 1) no larger than the run's largest drawdown.
   */
  lemma CurvePointsBounded(rs: seq<real>)
    requires AboveMinusOne(rs)
    ensures forall i | 0 <= i < |rs| ::
      && PointAt(rs, i).index == i
      && PointAt(rs, i).equity > 0.0
      && 0.0 <= PointAt(rs, i).drawdown < 1.0
      && PointAt(rs, i).drawdown <= MaxDrawdown(rs)
  {
    forall i | 0 <= i < |rs|
      ensures PointAt(rs, i).equity > 0.0
      ensures 0.0 <= PointAt(rs, i).drawdown < 1.0
      ensures PointAt(rs, i).drawdown <= MaxDrawdown(rs)
    {
      AboveMinusOnePrefix(rs, i + 1);
      GrowthPositive(rs[..i + 1]);
      DrawdownRange(rs[..i + 1]);
      MaxDrawdownBounds(rs, i + 1);
    }
  }

  /** The largest drawdown of a non-empty run is the drawdown of one of its curve points. */
  lemma CurveAttainsMaxDrawdown(rs: seq<real>) returns (i: nat)
    requires |rs| > 0
    ensures i < |rs| && PointAt(rs, i).drawdown == MaxDrawdown(rs)
  {
    var n := MaxDrawdownAttained(rs);
    i := n - 1;
  }

  /** Gains minus losses is the plain sum of the returns. */
  lemma {:induction false} SumsSplit(rs: seq<real>)
    ensures PositiveSum(rs) - NegativeSum(rs) == Sum(rs)
  {
    if rs != [] {
      SumsSplit(rs[..|rs| - 1]);
    }
  }

  /** The loss sum is zero exactly when no period lost. */
  lemma {:induction false} NoLossesIffNegativeSumZero(rs: seq<real>)
    ensures NegativeSum(rs) == 0.0 <==> forall k | 0 <= k < |rs| :: rs[k] >= 0.0
  {
    if rs != [] {
      var init := rs[..|rs| - 1];
      NoLossesIffNegativeSumZero(init);
      assert forall k | 0 <= k < |init| :: init[k] == rs[k];
    }
  }

  /** When no period loses, equity only rises, so it always sits at its peak. */
  lemma {:induction false} NoLossesAtPeak(rs: seq<real>)
    requires forall k | 0 <= k < |rs| :: rs[k] >= 0.0
    ensures Growth(rs) >= 1.0 && Peak(rs) == Growth(rs) && MaxDrawdown(rs) == 0.0
  {
    if rs != [] {
      var init := rs[..|rs| - 1];
      assert forall k | 0 <= k < |init| :: init[k] == rs[k];
      NoLossesAtPeak(init);
      var g, f := Growth(init), 1.0 + rs[|rs| - 1];
      assert g >= 1.0 && f >= 1.0;
      assert g * f >= g;
    }
  }

  /** A losing period leaves equity strictly below the running peak. */
  lemma LossMakesDrawdown(rs: seq<real>, k: nat)
    requires AboveMinusOne(rs) && k < |rs| && rs[k] < 0.0
    ensures Drawdown(rs[..k + 1]) > 0.0
  {
    var before := rs[..k];
    var after := rs[..k + 1];
    assert after[..|after| - 1] == before;
    AboveMinusOnePrefix(rs, k);
    GrowthPositive(before);
    var g, f := Growth(before), 1.0 + rs[k];
    assert g * f < g;
    assert Growth(after) < Peak(after);
  }

  /** The run has no drawdown at all exactly when no period lost money. */
  lemma NoDrawdownIffNoLosses(rs: seq<real>)
    requires AboveMinusOne(rs)
    ensures MaxDrawdown(rs) == 0.0 <==> forall k | 0 <= k < |rs| :: rs[k] >= 0.0
  {
    if forall k | 0 <= k < |rs| :: rs[k] >= 0.0 {
      NoLossesAtPeak(rs);
    } else {
      var k :| 0 <= k < |rs| && rs[k] < 0.0;
      LossMakesDrawdown(rs, k);
      MaxDrawdownBounds(rs, k + 1);
    }
  }
}
