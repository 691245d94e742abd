# Forex trading-agent simulator, modelled in Dafny

This project models the logic of a small web application that configures an
FX trading agent and simulates how it would perform. The application has three
parts:

- `simulateAgentPerformance` takes an agent configuration and computes its result. The configuration holds:
  - capital, risk level, drawdown target and leverage;
  - trading horizon and strategy bias;
  - the selected currency pairs.

  The computation runs in stages:
  1. It scales the strategy's base drift and volatility by:
     - the horizon;
     - the risk level;
     - the drawdown discipline;
     - the leverage;
     - a diversification bonus from the distinct currencies of the selected pairs.
  2. It runs 220 periods. Each period's random raw return is softened by a tanh "tail buffer" and floored at a per-period loss limit. The loop compounds equity and tracks the running peak, the largest drawdown, the wins, and the gain and loss sums.
  3. It summarises the run: annualised return and volatility, Sharpe ratio, win rate, profit factor and capital efficiency.
  4. An optimizer suggests a tuned risk level and leverage, a projected return and drawdown, and a narrative.
- The configuration panel:
  - starts from a default configuration;
  - offers four range sliders;
  - toggles a currency pair in or out of the selection (`togglePair`);
  - replaces one field of the configuration (`updateConfig`).
- The equity chart places each equity-curve point in a 100 x 100 box. An empty curve draws no chart.

The project has seven modules:

| module | file | what it holds |
|---|---|---|
| `Numerics` | `numerics.dfy` | `Math.min`, `Math.max` and `Math.round` over exact reals; `clamp`; rounding to tenths; tanh, sqrt and pow as an injected `Primitives` value, constrained only by `Lawful` |
| `Profiles` | `profiles.dfy` | the strategy and horizon lookup tables |
| `Diversification` | `diversification.dfy` | `split("/")`, the base/quote sets, the bonus as a function, and the source's loop as a method proved equal to it |
| `Path` | `path.dfy` | the equity path as functions of the sequence of controlled returns (growth, running peak, drawdown, largest drawdown, wins, gain and loss sums), with their invariants |
| `Simulation` | `simulation.dfy` | scaling, the tail-risk control, the 220-period loop as a method whose loop invariants tie every variable to the `Path` functions, the statistics, the optimizer, and the whole simulation as a method |
| `Configurator` | `configurator.dfy` | the default configuration, slider ranges, `togglePair` and `updateConfig` |
| `Chart` | `chart.dfy` | the chart's coordinate normalisation |

Randomness is an input. Each period takes a `Draw` of three numbers:

- the uniform draw that jitters the drift;
- the standard normal variate that `gaussian` would produce;
- the uniform draw of the fat-tail term.

The simulation method requires exactly 220 draws.

## Model

| member | source | states |
|---|---|---|
| Numerics.Min | src/lib/simulation.ts:81 | the result is one of the two arguments and at most both |
| Numerics.Max | src/lib/simulation.ts:148 | the result is one of the two arguments and at least both |
| Numerics.Clamp | src/lib/simulation.ts:92 | the result never exceeds `max`; for `min <= max` it lies in `[min, max]`, equals the value when already inside, `min` below and `max` above |
| Numerics.Round | src/lib/simulation.ts:206 | `Math.round` rounds half up: the result is the integer within half a unit, halves going up |
| Numerics.RoundWithin | src/lib/simulation.ts:206 | rounding a value between two integers stays between them |
| Numerics.RoundWhole | src/lib/simulation.ts:206 | rounding a whole number gives it back |
| Numerics.RoundTenth | src/lib/simulation.ts:207 | `Math.round(v * 10) / 10` is a multiple of 0.1 within 0.05 of `v` |
| Numerics.RoundTenthWithin | src/lib/simulation.ts:207 | rounding to tenths keeps a value inside whole-number bounds |
| Profiles.StrategyProfileOf | src/lib/simulation.ts:46-51 | every strategy's drift lies in [0.00045, 0.00075], its volatility in [0.0055, 0.0095], and the drift is less than an eighth of the volatility |
| Profiles.HorizonModifierOf | src/lib/simulation.ts:53-69 | multipliers stay within [0.65, 1.2] (drift) and [0.75, 1.4] (volatility); exactly the swing horizon is neutral (1, 1) |
| Profiles.LongerHorizonsDriftMoreAndVaryLess | src/lib/simulation.ts:57-68 | intraday < swing < position in drift multiplier, and the reverse order in volatility multiplier |
| Diversification.BaseOf | src/lib/simulation.ts:76 | no contract of its own: the first `split("/")` segment, characterised by NoSlashIsBaseOnly, FirstTwoSegments and PairParts |
| Diversification.QuoteOf | src/lib/simulation.ts:76 | no contract of its own: the second segment or "" when absent, characterised by NoSlashIsBaseOnly, FirstTwoSegments and PairParts |
| Diversification.Split | src/lib/simulation.ts:76 | `split("/")` yields at least one segment and no segment contains '/' |
| Diversification.JoinSplit | src/lib/simulation.ts:76 | joining the segments with '/' gives back the original symbol |
| Diversification.SplitPrefix | src/lib/simulation.ts:76 | a slash-free prefix only extends the first segment |
| Diversification.SplitJoin | src/lib/simulation.ts:76 | splitting the '/'-join of slash-free segments gives back the segments |
| Diversification.NoSlashIsBaseOnly | src/lib/simulation.ts:76-78 | a symbol without '/' counts its whole text as the base and has no quote |
| Diversification.Counted | src/lib/simulation.ts:77-78 | no contract of its own: the `if (base)` / `if (quote)` guard, a segment counts only when non-empty; characterised by GatherStep and ThreeSymbolsGathered |
| Diversification.BasesOf | src/lib/simulation.ts:72-79 | no contract of its own: the set `uniqueBases` after the `forEach`; characterised by GatherStep, DiversificationBonus and BonusIgnoresOrderAndRepeats |
| Diversification.QuotesOf | src/lib/simulation.ts:72-79 | no contract of its own: the set `uniqueQuotes` after the `forEach`; characterised by GatherStep, DiversificationBonus and BonusIgnoresOrderAndRepeats |
| Diversification.FirstTwoSegments | src/lib/simulation.ts:76 | base and quote are the first two segments; anything after a second '/' is ignored |
| Diversification.PairParts | src/lib/simulation.ts:76 | "BASE/QUOTE" has base BASE and quote QUOTE |
| Diversification.GatherStep | src/lib/simulation.ts:75-79 | one more pair adds exactly its non-empty base to the bases and its non-empty quote to the quotes |
| Diversification.ThreeSymbolsGathered | src/lib/simulation.ts:75-79 | three symbols contribute exactly their non-empty bases and quotes |
| Diversification.Bonus | src/lib/simulation.ts:71-83 | the bonus lies in [1, 1.15] and is exactly 1 for no pairs |
| Diversification.BonusFromSets | src/lib/simulation.ts:81 | the bonus is `min(1.15, 1 + 0.015 * (distinct bases + distinct quotes))` |
| Diversification.BonusIgnoresOrderAndRepeats | src/lib/simulation.ts:71-83 | two selections with the same symbols, in any order and with any repeats, earn the same bonus |
| Diversification.FourCurrenciesBonus | src/lib/simulation.ts:71-83 | three symbols a/b, b/c, d/b over four distinct currencies have 3 bases and 2 quotes, so a bonus of 1.075 |
| Diversification.DefaultSymbols | src/components/AgentConfigurator.tsx:44 | the default symbols are EUR, USD, JPY and GBP joined by '/', four distinct slash-free currencies |
| Diversification.DefaultPairsBonus | src/lib/simulation.ts:71-83 | the selection EUR/USD, USD/JPY, GBP/USD earns a bonus of 1.075 |
| Diversification.DiversificationBonus | src/lib/simulation.ts:71-83 | the one-pass loop filling the two sets returns exactly `Bonus(pairs)` (loop invariant: the sets are the bases and quotes of the pairs seen so far) |
| Path.Growth | src/lib/simulation.ts:147 | no contract of its own: the product of every `1 + r`; its properties are stated by StepGrowth and GrowthPositive |
| Path.Drawdown | src/lib/simulation.ts:149 | no contract of its own: the guarded fall below the running peak; its properties are stated by DrawdownRange and StepDrawdown |
| Path.Sum | src/lib/simulation.ts:166 | no contract of its own: the `reduce` sum of the returns; SumsSplit relates it to the gain and loss sums |
| Path.Peak | src/lib/simulation.ts:148 | the running peak is at least 1 and at least the current equity, so the `runningPeak === 0` branch never runs |
| Path.DrawdownRange | src/lib/simulation.ts:149 | a drawdown is at least 0, below 1 while equity is positive, and 0 exactly when equity is at its peak |
| Path.MaxDrawdown | src/lib/simulation.ts:150 | the largest drawdown is never negative |
| Path.Wins | src/lib/simulation.ts:152-153 | the win count never exceeds the number of periods |
| Path.PositiveSum | src/lib/simulation.ts:154 | the gain sum is never negative |
| Path.NegativeSum | src/lib/simulation.ts:156 | the loss sum (of `Math.abs` of each loss) is never negative |
| Path.StepGrowth | src/lib/simulation.ts:147 | compounding by `1 + r` gives the equity of the returns extended by `r` |
| Path.StepPeak | src/lib/simulation.ts:148 | `Math.max(runningPeak, equity)` is the peak of the extended returns |
| Path.StepDrawdown | src/lib/simulation.ts:149 | the guarded `(runningPeak - equity) / runningPeak` is the drawdown of the returns so far |
| Path.StepMaxDrawdown | src/lib/simulation.ts:150 | `Math.max(maxDrawdown, drawdown)` is the largest drawdown of the extended returns |
| Path.StepCounts | src/lib/simulation.ts:152-157 | a non-negative return adds one win and its value to the gains; a negative one adds its magnitude to the losses |
| Path.GrowthPositive | src/lib/simulation.ts:147 | equity stays positive while no period loses 100% |
| Path.PeakMonotone | src/lib/simulation.ts:148 | the running peak never decreases |
| Path.PeakDominatesEquity | src/lib/simulation.ts:148 | the running peak is at least every equity value recorded so far |
| Path.MaxDrawdownBounds | src/lib/simulation.ts:150 | the largest drawdown is at least the drawdown of every period |
| Path.MaxDrawdownAttained | src/lib/simulation.ts:150 | with at least one period, some period's drawdown equals the largest drawdown |
| Path.CurvePointsBounded | src/lib/simulation.ts:159-163 | every curve point carries its own index, positive equity, and a drawdown in [0, 1) no larger than the largest drawdown |
| Path.PointAt | src/lib/simulation.ts:159-163 | no contract of its own: the curve point pushed after period i; characterised by RunPath and CurvePointsBounded |
| Path.CurveAttainsMaxDrawdown | src/lib/simulation.ts:150-163 | the reported largest drawdown is the drawdown of some curve point |
| Path.SumsSplit | src/lib/simulation.ts:152-157 | gains minus losses equals the sum of the returns |
| Path.NoLossesIffNegativeSumZero | src/lib/simulation.ts:155-156 | the loss sum is 0 exactly when no period lost |
| Path.NoLossesAtPeak | src/lib/simulation.ts:147-150 | without losses equity never falls: it stays at its peak, at least 1, with no drawdown |
| Path.LossMakesDrawdown | src/lib/simulation.ts:147-149 | a losing period leaves equity strictly below its peak |
| Path.NoDrawdownIffNoLosses | src/lib/simulation.ts:147-157 | the largest drawdown is 0 exactly when no period lost |
| Simulation.Scale | src/lib/simulation.ts:104-123 | drawdown discipline lies in [0.35, 0.95] and is `1 - target/100` for targets from 5 to 65; normalized leverage lies in [0.8, 2.2]; the risk scalar lies in [0.6, 2]; adjusted drift and volatility are positive |
| Simulation.TailBuffer | src/lib/simulation.ts:95 | no contract of its own: the tanh soft cap; TailControlsMonotone and ApplyTailRiskControls state its properties |
| Simulation.MaxLossPerPeriod | src/lib/simulation.ts:96 | no contract of its own: the loss floor; TailControlsMonotone and ApplyTailRiskControls state it is at least -12% and falls with the risk level |
| Simulation.Gaussian | src/lib/simulation.ts:89 | no contract of its own: `z0 * stdDev + mean` for an injected standard normal variate `z0` |
| Simulation.RawReturn | src/lib/simulation.ts:136-139 | no contract, deliberately: the draws are unconstrained, so the raw return can be any number; only its controlled version is bounded (ApplyTailRiskControls, PeriodReturns) |
| Simulation.TailControlsMonotone | src/lib/simulation.ts:95-96 | a looser drawdown target widens the tail buffer; a higher risk level lowers the loss floor |
| Simulation.ApplyTailRiskControls | src/lib/simulation.ts:94-99 | the controlled return is at least the loss floor (itself at least -12%), below the tail buffer, and non-negative exactly when the raw return is |
| Simulation.PeriodReturns | src/lib/simulation.ts:135-146 | one controlled return per draw, each within the floor and the buffer, each with the sign of its raw return, none losing 100% |
| Simulation.RunPath | src/lib/simulation.ts:124-164 | after 220 periods the returns are the controlled returns of the draws; the curve has 220 points, point `i` being the equity and drawdown after period `i`; equity, peak, largest drawdown, wins and both sums equal their `Path` functions of those returns |
| Simulation.SquaredDeviations | src/lib/simulation.ts:167-168 | the sum of squared deviations, and so the variance, is never negative |
| Simulation.Summarize | src/lib/simulation.ts:166-180 | volatility is at least 0; Sharpe is 0 when volatility is 0; the win rate lies in [0, 1]; the profit factor is 1 when either sum is 0 and lies in [0.4, 3.5] otherwise; capital efficiency is the capital when there is no drawdown, and positive with positive equity, capital and drawdown; the annual return is above -100% while equity is positive |
| Simulation.TunedRiskLevel | src/lib/simulation.ts:183-190 | it equals the configured risk level without drawdown and lies in [8, 92] otherwise; when the drawdown overshot the target it is below a configured level above 8 |
| Simulation.TunedLeverage | src/lib/simulation.ts:192-199 | it equals the configured leverage without drawdown and lies in [1, 15] otherwise; when the drawdown overshot the target it is below a configured leverage above 1 |
| Simulation.ScaledDown | src/lib/simulation.ts:187 | a positive value times a ratio of at most 1 and a haircut below 1 decreases |
| Simulation.ProjectedReturnBounds | src/lib/simulation.ts:202-203 | the projected return keeps the sign of the annual return and lies between 0.57 and 1.045 times it |
| Simulation.NarrativesDiffer | src/lib/simulation.ts:211-213 | the two narratives are different texts |
| Simulation.TunedRangesRounded | src/lib/simulation.ts:206-207 | whenever there is a drawdown, the rounded risk level lies in [8, 92] and the rounded leverage in [1, 15] |
| Simulation.Optimize | src/lib/simulation.ts:182-214 | without drawdown it returns the configured risk level and leverage, rounded; otherwise they are in [8, 92] and [1, 15]; the leverage is a multiple of 0.1; the projected drawdown lies in [0.02, 0.25]; the narrative is the "tightened" one exactly when the drawdown exceeds the target; the projected return is bounded by the annual return |
| Simulation.SimulateAgentPerformance | src/lib/simulation.ts:101-227 | the curve is the path of the draws' controlled returns, with 220 points of positive equity and drawdown in [0, 1), point `i` indexed `i`; the reported largest drawdown is the maximum of the curve's drawdowns and is attained; the six statistics are exactly `Summarize` of that path and the suggestion is exactly `Optimize` of the configuration, the largest drawdown and the annual return; win rate, profit factor, volatility, Sharpe and optimizer outputs keep their ranges; a run without drawdown has a neutral profit factor, full capital efficiency and passes the configuration through the optimizer |
| Configurator.DefaultConfig | src/components/AgentConfigurator.tsx:37-45 | no contract of its own: the panel's starting configuration; characterised by DefaultWithinSliders and DefaultConfigBonus |
| Configurator.WithinSliders | src/components/AgentConfigurator.tsx:82-135 | no contract of its own: the four slider ranges as a predicate; characterised by SlidersAdmissible and SliderUpdateStaysWithin |
| Configurator.DefaultWithinSliders | src/components/AgentConfigurator.tsx:37-45 | the default configuration is one the sliders can show |
| Configurator.SlidersAdmissible | src/components/AgentConfigurator.tsx:82-135 | every configuration within the slider ranges meets the simulator's requirements (risk level in (0, 100], positive drawdown target) |
| Configurator.SliderValuesPassThroughOptimizer | src/lib/simulation.ts:183-207 | with whole slider values and no drawdown, the optimizer hands back exactly the configured risk level and leverage |
| Configurator.DefaultConfigBonus | src/components/AgentConfigurator.tsx:44 | the default selection earns a diversification bonus of 1.075 |
| Configurator.Without | src/components/AgentConfigurator.tsx:57 | the filter drops the symbol, keeps membership of every other symbol, and never lengthens the list |
| Configurator.WithoutConcat | src/components/AgentConfigurator.tsx:57 | filtering distributes over concatenation, so kept entries stay in their order |
| Configurator.WithoutAbsent | src/components/AgentConfigurator.tsx:57 | filtering out an absent symbol changes nothing |
| Configurator.WithoutCounts | src/components/AgentConfigurator.tsx:57 | filtering leaves no copy of the symbol and keeps every other entry as often as it occurred |
| Configurator.WithoutDistinct | src/components/AgentConfigurator.tsx:57 | filtering keeps a duplicate-free list duplicate-free |
| Configurator.Toggle | src/components/AgentConfigurator.tsx:53-60 | membership of the toggled symbol flips and membership of every other symbol is unchanged |
| Configurator.TogglePair | src/components/AgentConfigurator.tsx:53-61 | only the selection of the configuration changes, and it becomes the toggled selection |
| Configurator.ToggleAbsentAppends | src/components/AgentConfigurator.tsx:59 | toggling an unselected symbol appends it after the unchanged selection |
| Configurator.ToggleRemovesEvery | src/components/AgentConfigurator.tsx:55-57 | toggling a selected symbol removes every copy, keeps every other entry as often as it occurred, and shortens the list |
| Configurator.ToggleTwice | src/components/AgentConfigurator.tsx:53-60 | toggling an unselected symbol twice gives back the original selection |
| Configurator.ToggleKeepsDistinct | src/components/AgentConfigurator.tsx:53-60 | a duplicate-free selection stays duplicate-free after any toggle |
| Configurator.UpdateConfig | src/components/AgentConfigurator.tsx:49-51 | the named field takes the new value and every other field keeps its value |
| Configurator.FieldsDetermineConfig | src/components/AgentConfigurator.tsx:49-51 | two configurations with equal fields are equal, so the field-wise statement of `UpdateConfig` fixes the whole result |
| Configurator.UpdateWithOwnValue | src/components/AgentConfigurator.tsx:49-51 | writing a field's own value back changes nothing |
| Configurator.LaterUpdateWins | src/components/AgentConfigurator.tsx:49-51 | of two updates of the same field, the later one wins |
| Configurator.TogglePairIsUpdate | src/components/AgentConfigurator.tsx:49-61 | toggling a symbol is the update of the selection field with the toggled selection |
| Configurator.SliderUpdateStaysWithin | src/components/AgentConfigurator.tsx:82-137 | moving a slider to a value it offers keeps the configuration within the slider ranges |
| Chart.HighestOfFirst | src/components/DrawdownChart.tsx:12 | the result bounds the first `n` equities from above and one of them reaches it |
| Chart.LowestOfFirst | src/components/DrawdownChart.tsx:13 | the result bounds the first `n` equities from below and one of them reaches it |
| Chart.MaxEquity | src/components/DrawdownChart.tsx:12 | `maxEquity` bounds every equity from above and is reached by one |
| Chart.MinEquity | src/components/DrawdownChart.tsx:13 | `minEquity` bounds every equity from below and is reached by one |
| Chart.EquitySpan | src/components/DrawdownChart.tsx:14 | the span is always positive: `max - min`, or 1 for a flat series |
| Chart.ChartPoints | src/components/DrawdownChart.tsx:10-23 | no chart exactly for an empty timeline; otherwise one vertex per point, every coordinate in [0, 100], x strictly increasing |
| Chart.X | src/components/DrawdownChart.tsx:18 | no contract of its own: the horizontal position; XBounds, XIncreasing and ChartEnds state its properties |
| Chart.Y | src/components/DrawdownChart.tsx:19-20 | no contract of its own: the vertical position; YBounds, HighestAtTop, LowestAtBottom, FlatSeriesAtBottom and HigherEquityHigherUp state its properties |
| Chart.XBounds | src/components/DrawdownChart.tsx:18 | every x lies in [0, 100] |
| Chart.XIncreasing | src/components/DrawdownChart.tsx:18 | x strictly increases with the index |
| Chart.YBounds | src/components/DrawdownChart.tsx:19-20 | every y lies in [0, 100] |
| Chart.ChartPointAt | src/components/DrawdownChart.tsx:16-22 | vertex `i` has the x of its position and the y of its equity |
| Chart.ChartEnds | src/components/DrawdownChart.tsx:18 | with more than one point, the first x is 0 and the last is 100 |
| Chart.HighestAtTop | src/components/DrawdownChart.tsx:19-20 | in a series that moves, a point at the highest equity has y = 0 |
| Chart.LowestAtBottom | src/components/DrawdownChart.tsx:19-20 | a point at the lowest equity has y = 100 |
| Chart.FlatSeriesAtBottom | src/components/DrawdownChart.tsx:14-20 | a flat series puts every y at 100 |
| Chart.HigherEquityHigherUp | src/components/DrawdownChart.tsx:19-20 | higher equity is drawn strictly higher (smaller y) |

## Left out

- `gaussian` (src/lib/simulation.ts:85-90) and the `Math.random()` calls at :136 and :138 are not modelled. Each period's `Draw` supplies their values instead. The Box–Muller transform (`log`, `cos`, `sqrt`, `Number.EPSILON`) is not part of this model. Nothing is assumed about the range of the draws.
- `Math.tanh`, `Math.sqrt` and `Math.pow` have no exact values in this model. They are fields of `Primitives`, and `Lawful` gives only these laws:
  - tanh lies in (-1, 1) and has the sign of its argument;
  - sqrt is non-negative on non-negative numbers;
  - pow of a positive base is positive.

  So the annualised return and the volatility are constrained only as far as these laws allow.
- Simulation.SquaredDeviations: `Math.pow(val - avgReturn, 2)` is modelled as the exact square `val - avgReturn` times itself, not through `Primitives.pow`.
- All arithmetic is over exact reals. IEEE-754 rounding, NaN and Infinity are not modelled, and neither is bit-exact reproduction of the JavaScript results.
- Number formatting is not modelled:
  - `formatPercent`, `formatRatio` and `toLocaleString` in src/components/AgentConfigurator.tsx:24-34;
  - `formatPoint` / `toFixed(4)` and the joining of the vertices into the SVG `points` string in src/components/DrawdownChart.tsx:7 and :21-23.

  `Chart.ChartPoints` returns the unformatted coordinates.
- The React machinery is not modelled: `useState`, `useMemo`, JSX rendering, event handlers and the SVG markup. `togglePair` and `updateConfig` are modelled as the functions that `setConfig` applies to the previous configuration.
- Configurator.WithinSliders: the slider ranges are stated as a predicate on configurations. The parsing of `Number(event.target.value)` is not modelled.
- The horizon and strategy buttons of the panel are not modelled beyond `updateConfig` itself.
- src/components/StrategyPlaybooks.tsx, src/app/page.tsx and src/components/MetricCard.tsx hold no logic and are not part of this model.
- Simulation.SimulateAgentPerformance requires a risk level in (0, 100] and a positive drawdown target (`Admissible`):
  - the optimizer divides by the risk level (src/lib/simulation.ts:201, :203);
  - the tail-risk control divides the raw return by the tail buffer (src/lib/simulation.ts:97), which a positive target keeps above 0.02; the configuration panel offers targets from 3 to 20 only;
  - the source documents the risk level as at most 100 (src/lib/simulation.ts:7).

  `Configurator.SlidersAdmissible` shows that every slider setting meets these requirements.
- Simulation.Optimize: when there is no drawdown, it states that the suggestions are the configured values rounded, as the source computes. `Configurator.SliderValuesPassThroughOptimizer` shows they are exactly the configured values for every slider setting.
