/**
 * simulateAgentPerformance: from an agent configuration and the random
 * draws of 220 periods, scale the strategy's drift and volatility, run the
 * equity path through the tail-risk control, and derive the summary
 * statistics and the optimizer's suggestion.
 *
 * Randomness is an input: each period's `Draw` holds the three values the
 * source takes from its random source. Math.tanh, Math.sqrt and Math.pow
 * come in as `Primitives` and are known only through `Lawful`.
 */
module Simulation {
  import opened Numerics
  import opened Profiles
  import opened Diversification
  import opened Path

  /** Number of simulated periods. */
  const Periods: nat := 220

  datatype AgentConfig = AgentConfig(
    capital: real,
    riskLevel: real,       // 1 - 100
    drawdownTarget: real,  // target drawdown, in percent
    leverage: real,        // 1 - 20
    horizon: TradingHorizon,
    strategyFocus: StrategyFocus,
    pairs: seq<string>)

  /**
   * What the simulator needs of its configuration: a risk level in (0, 100]
   * (the optimizer divides by it; the per-period loss floor is designed for at most
   * 100) and a positive drawdown target: the tail-risk control divides the
   * raw return by the tail buffer (src/lib/simulation.ts:97), which a positive
   * target keeps above 0.02; the configuration panel offers targets from 3 to
   * 20 only.
   */
  predicate Admissible(c: AgentConfig) {
    0.0 < c.riskLevel <= 100.0 && 0.0 < c.drawdownTarget
  }

  /** The dimensionless factors derived from a configuration. */
  datatype Scaling = Scaling(
    riskScalar: real,
    drawdownDiscipline: real,
    normalizedLeverage: real,
    adjustedDrift: real,
    adjustedVolatility: real)

  /** Parameter scaling, for a configuration and its diversification bonus. */
  function Scale(c: AgentConfig, diversification: real): (s: Scaling)
    ensures 0.35 <= s.drawdownDiscipline <= 0.95
    ensures 0.8 <= s.normalizedLeverage <= 2.2
    ensures 5.0 <= c.drawdownTarget <= 65.0 ==> s.drawdownDiscipline == 1.0 - c.drawdownTarget / 100.0
    ensures 0.0 <= c.riskLevel <= 100.0 ==> 0.6 <= s.riskScalar <= 2.0
    ensures 0.0 <= c.riskLevel && 0.0 < diversification ==> 0.0 < s.adjustedDrift && 0.0 < s.adjustedVolatility
  {
    var profile := StrategyProfileOf(c.strategyFocus);
    var modifier := HorizonModifierOf(c.horizon);
    var riskScalar := 0.6 + (c.riskLevel / 100.0) * 1.4;
    var leverageScalar := 0.6 + c.leverage / 10.0;
    var drawdownDiscipline := Clamp(1.0 - c.drawdownTarget / 100.0, 0.35, 0.95);
    var driftFactor := 0.85 + (c.riskLevel / 120.0) * drawdownDiscipline;
    var volatilityFactor := 0.85 + (1.0 - drawdownDiscipline);
    var adjustedDrift :=
      profile.baseDrift * modifier.driftMultiplier * diversification * driftFactor;
    var adjustedVolatility :=
      profile.baseVolatility * modifier.volatilityMultiplier * diversification * riskScalar * volatilityFactor;
    Scaling(riskScalar, drawdownDiscipline, Clamp(leverageScalar, 0.8, 2.2), adjustedDrift, adjustedVolatility)
  }

  /** Half-width of the tanh soft cap on a period's return. */
  function TailBuffer(drawdownTarget: real): real {
    0.02 + (drawdownTarget / 100.0) * 0.25
  }

  /** Hard floor on a period's return. */
  function MaxLossPerPeriod(riskLevel: real): real {
    -0.04 - (riskLevel / 100.0) * 0.08
  }

  /** A looser drawdown target widens the soft cap; a higher risk level lowers the floor. */
  lemma TailControlsMonotone(t1: real, t2: real, r1: real, r2: real)
    requires t1 < t2 && r1 < r2
    ensures TailBuffer(t1) < TailBuffer(t2)
    ensures MaxLossPerPeriod(r2) < MaxLossPerPeriod(r1)
  {
  }

  /**
   * applyTailRiskControls: soften the raw return with tanh scaled to the tail
   * buffer, then floor it at the per-period loss limit. The result is never
   * below the floor (itself at least -12%), always below the buffer, and has
   * the sign of the raw return.
   */
  function ApplyTailRiskControls(rawReturn: real, riskLevel: real, drawdownTarget: real, m: Primitives): (r: real)
    requires Lawful(m)
    requires 0.0 <= riskLevel <= 100.0 && 0.0 < drawdownTarget
    ensures -0.12 <= MaxLossPerPeriod(riskLevel) <= r
    ensures r < TailBuffer(drawdownTarget)
    ensures r >= 0.0 <==> rawReturn >= 0.0
  {
    var tailBuffer := TailBuffer(drawdownTarget);
    var maxLossPerPeriod := MaxLossPerPeriod(riskLevel);
    var softenedReturn := m.tanh(rawReturn / tailBuffer) * tailBuffer;
    Max(softenedReturn, maxLossPerPeriod)
  }

  /**
   * The random inputs of one period: the uniform draw that jitters the drift,
   * the standard normal variate from which `gaussian` builds the volatility
   * shock, and the uniform draw of the fat-tail term.
   */
  datatype Draw = Draw(jitter: real, normal: real, tail: real)

  /** `gaussian(mean, stdDev)` for a given standard normal variate `z`. */
  function Gaussian(mean: real, stdDev: real, z: real): real {
    z * stdDev + mean
  }

  /** A period's raw return: jittered drift, volatility shock and fat tail. */
  function RawReturn(s: Scaling, d: Draw): real {
    var drift := s.adjustedDrift * s.normalizedLeverage * (0.95 + d.jitter * 0.1);
    var volShock := Gaussian(0.0, s.adjustedVolatility * s.normalizedLeverage, d.normal);
    var fatTail := (d.tail - 0.5) * s.adjustedVolatility * 1.5 * (s.riskScalar - 0.3);
    drift + volShock + fatTail
  }

  /** The controlled returns of a run, one per draw. */
  function PeriodReturns(c: AgentConfig, s: Scaling, draws: seq<Draw>, m: Primitives): (rs: seq<real>)
    requires Admissible(c) && Lawful(m)
    ensures |rs| == |draws|
    ensures forall k | 0 <= k < |rs| :: MaxLossPerPeriod(c.riskLevel) <= rs[k] < TailBuffer(c.drawdownTarget)
    ensures forall k | 0 <= k < |rs| :: rs[k] >= 0.0 <==> RawReturn(s, draws[k]) >= 0.0
    ensures AboveMinusOne(rs)
  {
    seq(|draws|, k requires 0 <= k < |draws| =>
      ApplyTailRiskControls(RawReturn(s, draws[k]), c.riskLevel, c.drawdownTarget, m))
  }

  /** The state the path loop leaves behind. */
  datatype PathOutcome = PathOutcome(
    periodReturns: seq<real>,
    equityCurve: seq<EquityPoint>,
    equity: real,
    runningPeak: real,
    maxDrawdown: real,
    wins: nat,
    positiveSum: real,
    negativeSum: real)

  /**
   * The 220-period loop. Each period draws a raw return, controls it, compounds
   * equity, tracks the running peak and the largest drawdown, classifies the
   * period as a win or a loss, and records a curve point.
   */
  method RunPath(c: AgentConfig, s: Scaling, draws: seq<Draw>, m: Primitives) returns (out: PathOutcome)
    requires Admissible(c) && Lawful(m) && |draws| == Periods
    ensures out.periodReturns == PeriodReturns(c, s, draws, m)
    ensures |out.equityCurve| == Periods
    ensures forall i | 0 <= i < Periods :: out.equityCurve[i] == PointAt(out.periodReturns, i)
    ensures out.equity == Growth(out.periodReturns)
    ensures out.runningPeak == Peak(out.periodReturns)
    ensures out.maxDrawdown == MaxDrawdown(out.periodReturns)
    ensures out.wins == Wins(out.periodReturns)
    ensures out.positiveSum == PositiveSum(out.periodReturns)
    ensures out.negativeSum == NegativeSum(out.periodReturns)
  {
    ghost var all := PeriodReturns(c, s, draws, m);
    var periodReturns: seq<real> := [];
    var equityCurve: seq<EquityPoint> := [];
    var equity := 1.0;
    var runningPeak := 1.0;
    var maxDrawdown := 0.0;
    var wins: nat := 0;
    var positiveSum := 0.0;
    var negativeSum := 0.0;

    for i := 0 to Periods
      invariant periodReturns == all[..i]
      invariant |equityCurve| == i
      invariant forall k | 0 <= k < i :: equityCurve[k] == PointAt(all, k)
      invariant equity == Growth(periodReturns)
      invariant runningPeak == Peak(periodReturns)
      invariant maxDrawdown == MaxDrawdown(periodReturns)
      invariant wins == Wins(periodReturns)
      invariant positiveSum == PositiveSum(periodReturns)
      invariant negativeSum == NegativeSum(periodReturns)
    {
      var rawReturn := RawReturn(s, draws[i]);
      var controlledReturn := ApplyTailRiskControls(rawReturn, c.riskLevel, c.drawdownTarget, m);
      var extended := periodReturns + [controlledReturn];
      assert extended == all[..i + 1];

      StepGrowth(periodReturns, controlledReturn, equity);
      equity := equity * (1.0 + controlledReturn);
      StepPeak(periodReturns, controlledReturn, equity, runningPeak);
      runningPeak := Max(runningPeak, equity);
      StepDrawdown(extended, equity, runningPeak);
      var drawdown := if runningPeak == 0.0 then 0.0 else (runningPeak - equity) / runningPeak;
      StepMaxDrawdown(periodReturns, controlledReturn, drawdown, maxDrawdown);
      maxDrawdown := Max(maxDrawdown, drawdown);

      StepCounts(periodReturns, controlledReturn);
      if controlledReturn >= 0.0 {
        wins := wins + 1;
        positiveSum := positiveSum + controlledReturn;
      } else {
        negativeSum := negativeSum + -controlledReturn;  // Math.abs of a loss
      }

      equityCurve := equityCurve + [EquityPoint(i, equity, drawdown)];
      periodReturns := extended;
    }
    assert periodReturns == all;
    out := PathOutcome(periodReturns, equityCurve, equity, runningPeak, maxDrawdown, wins, positiveSum, negativeSum);
  }

  /** Summary statistics of a run. */
  datatype Statistics = Statistics(
    expectedAnnualReturn: real,
    volatility: real,
    sharpe: real,
    winRate: real,
    profitFactor: real,
    capitalEfficiency: real)

  /** Sum of squared deviations from `mean`, as `reduce((acc, val) => acc + Math.pow(val - mean, 2), 0)`. */
  function SquaredDeviations(rs: seq<real>, mean: real): (s: real)
    ensures s >= 0.0
  {
    if rs == [] then 0.0
    else
      var dev := rs[|rs| - 1] - mean;
      SquaredDeviations(rs[..|rs| - 1], mean) + dev * dev
  }

  /**
   * The aggregate statistics of a finished path: annualised return and
   * volatility, Sharpe ratio, win rate, profit factor and capital efficiency,
   * each division guarded as in the source.
   */
  function Summarize(capital: real, out: PathOutcome, m: Primitives): (st: Statistics)
    requires Lawful(m)
    ensures st.volatility >= 0.0
    ensures st.volatility == 0.0 ==> st.sharpe == 0.0
    ensures out.wins <= Periods ==> 0.0 <= st.winRate <= 1.0
    ensures out.positiveSum == 0.0 || out.negativeSum == 0.0 ==> st.profitFactor == 1.0
    ensures out.positiveSum != 0.0 && out.negativeSum != 0.0 ==> 0.4 <= st.profitFactor <= 3.5
    ensures out.maxDrawdown == 0.0 ==> st.capitalEfficiency == capital
    ensures out.equity > 0.0 ==> st.expectedAnnualReturn > -1.0
    ensures out.equity > 0.0 && capital > 0.0 && out.maxDrawdown > 0.0 ==> st.capitalEfficiency > 0.0
  {
    var periods := Periods as real;
    var avgReturn := Sum(out.periodReturns) / periods;
    var variance := SquaredDeviations(out.periodReturns, avgReturn) / periods;
    var stdDev := m.sqrt(variance);
    var annualizationFactor := 252.0 / periods;
    var expectedAnnualReturn := m.pow(out.equity, annualizationFactor) - 1.0;
    var annualVolatility := stdDev * m.sqrt(252.0);
    var sharpe := if annualVolatility == 0.0 then 0.0 else expectedAnnualReturn / annualVolatility;
    var winRate := out.wins as real / periods;
    var profitFactor :=
      if out.positiveSum == 0.0 || out.negativeSum == 0.0 then 1.0
      else Clamp(out.positiveSum / out.negativeSum, 0.4, 3.5);
    var capitalEfficiency :=
      if out.maxDrawdown == 0.0 then capital
      else (capital * (expectedAnnualReturn + 1.0)) / out.maxDrawdown;
    Statistics(expectedAnnualReturn, annualVolatility, sharpe, winRate, profitFactor, capitalEfficiency)
  }

  /** The optimizer's suggestion. */
  datatype OptimizationInsight = OptimizationInsight(
    tunedRiskLevel: int,
    tunedLeverage: real,
    projectedReturn: real,
    projectedDrawdown: real,
    narrative: string)

  const TightenedNarrative: string :=
    "Risk controls tightened to respect the drawdown objective while preserving the core edge."

  const HeadroomNarrative: string :=
    "Headroom available. Gradually increase risk until the drawdown budget is utilized."

  /**
   * The tuned risk level before rounding: unchanged without drawdown, otherwise
   * scaled by the target-to-realised drawdown ratio and kept within [8, 92].
   * When the drawdown overshot the target it is below a risk level above 8.
   */
  function TunedRiskLevel(c: AgentConfig, maxDrawdown: real): (r: real)
    ensures maxDrawdown == 0.0 ==> r == c.riskLevel
    ensures maxDrawdown != 0.0 ==> 8.0 <= r <= 92.0
    ensures 0.0 < maxDrawdown && c.drawdownTarget / 100.0 < maxDrawdown && 8.0 < c.riskLevel ==> r < c.riskLevel
  {
    var targetDrawdown := c.drawdownTarget / 100.0;
    if maxDrawdown == 0.0 then c.riskLevel
    else
      var ratio := Clamp(targetDrawdown / maxDrawdown, 0.45, 1.25);
      ScaledDown(c.riskLevel, ratio, 0.96);
      Clamp(c.riskLevel * ratio * 0.96, 8.0, 92.0)
  }

  /**
   * The tuned leverage before rounding: unchanged without drawdown, otherwise
   * scaled like the risk level and kept within [1, 15]. When the drawdown
   * overshot the target it is below a leverage above 1.
   */
  function TunedLeverage(c: AgentConfig, maxDrawdown: real): (r: real)
    ensures maxDrawdown == 0.0 ==> r == c.leverage
    ensures maxDrawdown != 0.0 ==> 1.0 <= r <= 15.0
    ensures 0.0 < maxDrawdown && c.drawdownTarget / 100.0 < maxDrawdown && 1.0 < c.leverage ==> r < c.leverage
  {
    var targetDrawdown := c.drawdownTarget / 100.0;
    if maxDrawdown == 0.0 then c.leverage
    else
      var ratio := Clamp(targetDrawdown / maxDrawdown, 0.5, 1.15);
      ScaledDown(c.leverage, ratio, 0.94);
      Clamp(c.leverage * ratio * 0.94, 1.0, 15.0)
  }

  /** Scaling a positive value by a ratio of at most 1 and a haircut below 1 lowers it. */
  lemma ScaledDown(x: real, ratio: real, haircut: real)
    requires 0.0 < haircut < 1.0
    ensures 0.0 < x && ratio <= 1.0 ==> x * ratio * haircut < x
  {
    if 0.0 < x && ratio <= 1.0 {
      assert ratio * haircut < 1.0;
      assert x * (ratio * haircut) < x;
    }
  }

  /** Scaling a return by a ratio in [0.6, 1.1] and by 0.95 keeps its sign and bounds its size. */
  lemma ProjectedReturnBounds(expected: real, ratio: real)
    requires 0.6 <= ratio <= 1.1
    ensures 0.0 <= expected ==> 0.57 * expected <= expected * ratio * 0.95 <= 1.045 * expected
    ensures expected < 0.0 ==> 1.045 * expected <= expected * ratio * 0.95 <= 0.57 * expected
  {
    assert expected * ratio * 0.95 == expected * (ratio * 0.95);
  }

  /**
   * The optimizer heuristic: round the tuned risk level and leverage, project
   * drawdown and return from the tuned-to-configured risk ratio, and choose
   * the narrative from one threshold comparison.
   */
  function Optimize(c: AgentConfig, maxDrawdown: real, expectedAnnualReturn: real): (o: OptimizationInsight)
    requires 0.0 < c.riskLevel
    ensures maxDrawdown == 0.0 ==> o.tunedRiskLevel == Round(c.riskLevel) && o.tunedLeverage == RoundTenth(c.leverage)
    ensures maxDrawdown != 0.0 ==> 8 <= o.tunedRiskLevel <= 92 && 1.0 <= o.tunedLeverage <= 15.0
    ensures IsTenth(o.tunedLeverage)
    ensures 0.02 <= o.projectedDrawdown <= 0.25
    ensures o.narrative == TightenedNarrative <==> maxDrawdown > c.drawdownTarget / 100.0
    ensures o.narrative == TightenedNarrative || o.narrative == HeadroomNarrative
    ensures 0.0 <= expectedAnnualReturn ==> 0.57 * expectedAnnualReturn <= o.projectedReturn <= 1.045 * expectedAnnualReturn
    ensures expectedAnnualReturn < 0.0 ==> 1.045 * expectedAnnualReturn <= o.projectedReturn <= 0.57 * expectedAnnualReturn
  {
    var targetDrawdown := c.drawdownTarget / 100.0;
    var tunedRiskLevel := TunedRiskLevel(c, maxDrawdown);
    var tunedLeverage := TunedLeverage(c, maxDrawdown);
    var projectedDrawdown := maxDrawdown * Clamp(tunedRiskLevel / c.riskLevel, 0.5, 1.2);
    var returnRatio := Clamp(tunedRiskLevel / c.riskLevel, 0.6, 1.1);
    var projectedReturn := expectedAnnualReturn * returnRatio * 0.95;
    ProjectedReturnBounds(expectedAnnualReturn, returnRatio);
    NarrativesDiffer();
    TunedRangesRounded(c, maxDrawdown);
    OptimizationInsight(
      Round(tunedRiskLevel),
      RoundTenth(tunedLeverage),
      projectedReturn,
      Clamp(projectedDrawdown, 0.02, 0.25),
      if maxDrawdown > targetDrawdown then TightenedNarrative else HeadroomNarrative)
  }

  /** The two narratives are different texts. */
  lemma NarrativesDiffer()
    ensures TightenedNarrative != HeadroomNarrative
  {
    assert |TightenedNarrative| != |HeadroomNarrative|;
  }

  /** After a drawdown, the rounded suggestions stay inside the optimizer's ranges. */
  lemma TunedRangesRounded(c: AgentConfig, maxDrawdown: real)
    ensures maxDrawdown != 0.0 ==> 8 <= Round(TunedRiskLevel(c, maxDrawdown)) <= 92
    ensures maxDrawdown != 0.0 ==> 1.0 <= RoundTenth(TunedLeverage(c, maxDrawdown)) <= 15.0
  {
    if maxDrawdown != 0.0 {
      RoundWithin(TunedRiskLevel(c, maxDrawdown), 8, 92);
      RoundTenthWithin(TunedLeverage(c, maxDrawdown), 1, 15);
    }
  }

  /** The whole result of one simulation. */
  datatype SimulationResult = SimulationResult(
    expectedAnnualReturn: real,
    volatility: real,
    sharpe: real,
    maxDrawdown: real,
    winRate: real,
    profitFactor: real,
    equityCurve: seq<EquityPoint>,
    optimization: OptimizationInsight,
    capitalEfficiency: real)

  /**
   * simulateAgentPerformance. The curve is the path of the controlled returns
   * of the draws; its largest drawdown is reported; the statistics and the
   * optimizer's suggestion stay within their documented ranges, and a run
   * without drawdown has a neutral profit factor, full capital efficiency and
   * passes the configuration through the optimizer.
   */
  method SimulateAgentPerformance(config: AgentConfig, draws: seq<Draw>, m: Primitives)
    returns (result: SimulationResult)
    requires Admissible(config) && Lawful(m) && |draws| == Periods
    ensures var rs := PeriodReturns(config, Scale(config, Bonus(config.pairs)), draws, m);
      && |result.equityCurve| == Periods
      && (forall i | 0 <= i < Periods :: result.equityCurve[i] == PointAt(rs, i))
      && result.maxDrawdown == MaxDrawdown(rs)
      && result.winRate == Wins(rs) as real / Periods as real
    ensures forall i | 0 <= i < Periods ::
      && result.equityCurve[i].index == i
      && result.equityCurve[i].equity > 0.0
      && 0.0 <= result.equityCurve[i].drawdown < 1.0
      && result.equityCurve[i].drawdown <= result.maxDrawdown
    ensures exists i | 0 <= i < Periods :: result.equityCurve[i].drawdown == result.maxDrawdown
    ensures 0.0 <= result.winRate <= 1.0
    ensures result.profitFactor == 1.0 || 0.4 <= result.profitFactor <= 3.5
    ensures result.volatility >= 0.0
    ensures result.volatility == 0.0 ==> result.sharpe == 0.0
    ensures result.expectedAnnualReturn > -1.0
    ensures result.maxDrawdown == 0.0 ==>
      && result.profitFactor == 1.0
      && result.capitalEfficiency == config.capital
      && result.optimization.tunedRiskLevel == Round(config.riskLevel)
      && result.optimization.tunedLeverage == RoundTenth(config.leverage)
    ensures result.maxDrawdown != 0.0 ==>
      && 8 <= result.optimization.tunedRiskLevel <= 92
      && 1.0 <= result.optimization.tunedLeverage <= 15.0
    ensures IsTenth(result.optimization.tunedLeverage)
    ensures 0.02 <= result.optimization.projectedDrawdown <= 0.25
    ensures result.optimization.narrative == TightenedNarrative <==> result.maxDrawdown > config.drawdownTarget / 100.0
    ensures var rs := PeriodReturns(config, Scale(config, Bonus(config.pairs)), draws, m);
      var path := PathOutcome(rs, result.equityCurve, Growth(rs), Peak(rs), MaxDrawdown(rs),
        Wins(rs), PositiveSum(rs), NegativeSum(rs));
      var st := Summarize(config.capital, path, m);
      && result.expectedAnnualReturn == st.expectedAnnualReturn
      && result.volatility == st.volatility
      && result.sharpe == st.sharpe
      && result.winRate == st.winRate
      && result.profitFactor == st.profitFactor
      && result.capitalEfficiency == st.capitalEfficiency
    ensures result.optimization == Optimize(config, result.maxDrawdown, result.expectedAnnualReturn)
  {
    var diversificationMultiplier := DiversificationBonus(config.pairs);
    var scaling := Scale(config, diversificationMultiplier);
    var path := RunPath(config, scaling, draws, m);
    var rs := path.periodReturns;

    GrowthPositive(rs);
    CurvePointsBounded(rs);
    var n := CurveAttainsMaxDrawdown(rs);
    assert path.equityCurve[n].drawdown == path.maxDrawdown;
    if path.maxDrawdown == 0.0 {
      NoDrawdownIffNoLosses(rs);
      NoLossesIffNegativeSumZero(rs);
    }

    var stats := Summarize(config.capital, path, m);
    var optimization := Optimize(config, path.maxDrawdown, stats.expectedAnnualReturn);
    result := SimulationResult(
      stats.expectedAnnualReturn,
      stats.volatility,
      stats.sharpe,
      path.maxDrawdown,
      stats.winRate,
      stats.profitFactor,
      path.equityCurve,
      optimization,
      stats.capitalEfficiency);
  }
}
