/**
 * The two fixed lookup tables of the simulator: the base drift and
 * volatility of each strategy bias, and the drift and volatility multipliers
 * of each trading horizon.
 */
module Profiles {

  datatype TradingHorizon = Intraday | Swing | Position

  datatype StrategyFocus = Trend | MeanReversion | Carry | VolatilityCapture

  datatype StrategyProfile = StrategyProfile(baseDrift: real, baseVolatility: real)

  datatype HorizonModifier = HorizonModifier(driftMultiplier: real, volatilityMultiplier: real)

  /**
   * STRATEGY_PROFILES: every strategy has a small positive drift, less than
   * an eighth of its volatility, so a period's return is dominated by its
   * random shock. The lower bound `0.00045 <= p.baseDrift` is what makes the
   * scaled drift positive in Simulation.Scale.
   */
  function StrategyProfileOf(focus: StrategyFocus): (p: StrategyProfile)
    ensures 0.00045 <= p.baseDrift <= 0.00075
    ensures 0.0055 <= p.baseVolatility <= 0.0095
    ensures 8.0 * p.baseDrift < p.baseVolatility
  {
    match focus
    case Trend => StrategyProfile(0.00075, 0.0095)
    case MeanReversion => StrategyProfile(0.00055, 0.0075)
    case Carry => StrategyProfile(0.00065, 0.006)
    case VolatilityCapture => StrategyProfile(0.00045, 0.0055)
  }

  /** HORIZON_MODIFIERS: swing is neutral; multipliers stay positive. */
  function HorizonModifierOf(horizon: TradingHorizon): (h: HorizonModifier)
    ensures 0.65 <= h.driftMultiplier <= 1.2
    ensures 0.75 <= h.volatilityMultiplier <= 1.4
    ensures horizon == Swing <==> h == HorizonModifier(1.0, 1.0)
  {
    match horizon
    case Intraday => HorizonModifier(0.65, 1.4)
    case Swing => HorizonModifier(1.0, 1.0)
    case Position => HorizonModifier(1.2, 0.75)
  }

  /**
   * The table is ordered by holding period: a longer horizon earns more drift
   * and takes less volatility per period, which is the trade-off the horizon
   * choice offers the user.
   */
  lemma LongerHorizonsDriftMoreAndVaryLess()
    ensures HorizonModifierOf(Intraday).driftMultiplier < HorizonModifierOf(Swing).driftMultiplier
                                                        < HorizonModifierOf(Position).driftMultiplier
    ensures HorizonModifierOf(Intraday).volatilityMultiplier > HorizonModifierOf(Swing).volatilityMultiplier
                                                             > HorizonModifierOf(Position).volatilityMultiplier
  {
  }
}
