/**
 * The configuration panel's state changes: toggling an instrument symbol in
 * the selection and updating one field of the configuration, together with
 * the panel's starting configuration and the ranges its sliders allow.
 * Both state changes build a new configuration from the previous one.
 */
module Configurator {
  import opened Numerics
  import opened Profiles
  import opened Diversification
  import opened Simulation

  /** The configuration the panel starts from. */
  const DefaultConfig: AgentConfig :=
    AgentConfig(250000.0, 42.0, 8.0, 5.0, Swing, Trend, ["EUR/USD", "USD/JPY", "GBP/USD"])

  /** `x` is a whole number. */
  predicate Whole(x: real) {
    x.Floor as real == x
  }

  /**
   * The values the four range sliders can produce: capital from 25,000 to
   * 1,000,000 in steps of 25,000; drawdown budget 3 to 20, risk throttle 10 to
   * 90 and leverage 1 to 12, each in steps of 1.
   */
  predicate WithinSliders(c: AgentConfig) {
    && 25000.0 <= c.capital <= 1000000.0 && Whole(c.capital / 25000.0)
    && 3.0 <= c.drawdownTarget <= 20.0 && Whole(c.drawdownTarget)
    && 10.0 <= c.riskLevel <= 90.0 && Whole(c.riskLevel)
    && 1.0 <= c.leverage <= 12.0 && Whole(c.leverage)
  }

  /** The starting configuration is one the sliders can show. */
  lemma DefaultWithinSliders()
    ensures WithinSliders(DefaultConfig)
  {
    assert 250000.0 / 25000.0 == 10.0;
  }

  /** Whatever the sliders produce is a configuration the simulator accepts. */
  lemma SlidersAdmissible(c: AgentConfig)
    requires WithinSliders(c)
    ensures Admissible(c)
  {
  }

  /**
   * Slider values are whole numbers, so when a run has no drawdown the
   * optimizer hands back exactly the configured risk level and leverage.
   */
  lemma SliderValuesPassThroughOptimizer(c: AgentConfig, expectedAnnualReturn: real)
    requires WithinSliders(c)
    ensures Optimize(c, 0.0, expectedAnnualReturn).tunedRiskLevel as real == c.riskLevel
    ensures Optimize(c, 0.0, expectedAnnualReturn).tunedLeverage == c.leverage
  {
    RoundWhole(c.riskLevel.Floor);
    RoundWhole(c.leverage.Floor * 10);
  }

  /** The starting selection earns a diversification bonus of 1.075. */
  lemma DefaultConfigBonus()
    ensures Bonus(DefaultConfig.pairs) == 1.075
  {
    DefaultPairsBonus(DefaultConfig.pairs);
  }

  /** `pairs.filter((item) => item !== pair)`. */
  function Without(pairs: seq<string>, pair: string): (r: seq<string>)
    ensures pair !in r
    ensures forall x :: x != pair ==> (x in r <==> x in pairs)
    ensures |r| <= |pairs|
  {
    if pairs == [] then []
    else if pairs[0] == pair then Without(pairs[1..], pair)
    else [pairs[0]] + Without(pairs[1..], pair)
  }

  /** Filtering distributes over concatenation: the kept entries stay in their order. */
  lemma {:induction false} WithoutConcat(a: seq<string>, b: seq<string>, pair: string)
    ensures Without(a + b, pair) == Without(a, pair) + Without(b, pair)
  {
    if a != [] {
      WithoutConcat(a[1..], b, pair);
      assert (a + b)[1..] == a[1..] + b;
    } else {
      assert a + b == b;
    }
  }

  /** Filtering out a symbol that is not there changes nothing. */
  lemma {:induction false} WithoutAbsent(pairs: seq<string>, pair: string)
    requires pair !in pairs
    ensures Without(pairs, pair) == pairs
  {
    if pairs != [] {
      WithoutAbsent(pairs[1..], pair);
      assert pairs == [pairs[0]] + pairs[1..];
    }
  }

  /** Filtering removes every occurrence of the symbol and keeps every other entry, as often as it occurred. */
  lemma {:induction false} WithoutCounts(pairs: seq<string>, pair: string)
    ensures forall x :: multiset(Without(pairs, pair))[x] == if x == pair then 0 else multiset(pairs)[x]
  {
    if pairs != [] {
      WithoutCounts(pairs[1..], pair);
      assert pairs == [pairs[0]] + pairs[1..];
    }
  }

  /** No symbol occurs twice. */
  predicate Distinct(pairs: seq<string>) {
    forall i, j | 0 <= i < j < |pairs| :: pairs[i] != pairs[j]
  }

  /** Filtering keeps a duplicate-free selection duplicate-free. */
  lemma {:induction false} WithoutDistinct(pairs: seq<string>, pair: string)
    requires Distinct(pairs)
    ensures Distinct(Without(pairs, pair))
  {
    if pairs != [] {
      var tail := pairs[1..];
      assert Distinct(tail);
      WithoutDistinct(tail, pair);
      if pairs[0] != pair {
        assert pairs[0] !in tail;
        assert pairs[0] !in Without(tail, pair);
      }
    }
  }

  /** The selection after toggling `pair`: removed everywhere if selected, appended otherwise. */
  function Toggle(pairs: seq<string>, pair: string): (r: seq<string>)
    ensures pair in r <==> pair !in pairs
    ensures forall x :: x != pair ==> (x in r <==> x in pairs)
  {
    if pair in pairs then Without(pairs, pair) else pairs + [pair]
  }

  /** togglePair: only the selection of the configuration changes. */
  function TogglePair(c: AgentConfig, pair: string): (r: AgentConfig)
    ensures r.(pairs := c.pairs) == c
    ensures r.pairs == Toggle(c.pairs, pair)
  {
    c.(pairs := Toggle(c.pairs, pair))
  }

  /** Toggling an unselected symbol appends it after the selection, which keeps its order. */
  lemma ToggleAbsentAppends(pairs: seq<string>, pair: string)
    requires pair !in pairs
    ensures Toggle(pairs, pair)[..|pairs|] == pairs
    ensures |Toggle(pairs, pair)| == |pairs| + 1 && Toggle(pairs, pair)[|pairs|] == pair
  {
  }

  /** Toggling a selected symbol removes every copy of it and keeps every other entry. */
  lemma ToggleRemovesEvery(pairs: seq<string>, pair: string)
    requires pair in pairs
    ensures multiset(Toggle(pairs, pair))[pair] == 0
    ensures forall x | x != pair :: multiset(Toggle(pairs, pair))[x] == multiset(pairs)[x]
    ensures |Toggle(pairs, pair)| < |pairs|
  {
    WithoutCounts(pairs, pair);
    var i :| 0 <= i < |pairs| && pairs[i] == pair;
    assert pairs == pairs[..i] + [pair] + pairs[i + 1..];
    WithoutConcat(pairs[..i] + [pair], pairs[i + 1..], pair);
    WithoutConcat(pairs[..i], [pair], pair);
  }

  /** Toggling an unselected symbol twice gives back the original selection. */
  lemma ToggleTwice(pairs: seq<string>, pair: string)
    requires pair !in pairs
    ensures Toggle(Toggle(pairs, pair), pair) == pairs
  {
    WithoutConcat(pairs, [pair], pair);
    WithoutAbsent(pairs, pair);
    assert Without([pair], pair) == [];
  }

  /** Toggling keeps a duplicate-free selection duplicate-free. */
  lemma ToggleKeepsDistinct(pairs: seq<string>, pair: string)
    requires Distinct(pairs)
    ensures Distinct(Toggle(pairs, pair))
  {
    if pair in pairs {
      WithoutDistinct(pairs, pair);
    }
  }

  /** The fields of a configuration, as the keys `updateConfig` takes. */
  datatype Key = CapitalKey | RiskLevelKey | DrawdownTargetKey | LeverageKey | HorizonKey | StrategyFocusKey | PairsKey

  /** A field value: a number, a horizon, a strategy bias or a selection. */
  datatype FieldValue =
    | Number(n: real)
    | HorizonValue(h: TradingHorizon)
    | FocusValue(f: StrategyFocus)
    | Selection(s: seq<string>)

  /** The value of one field. */
  function Get(c: AgentConfig, key: Key): FieldValue {
    match key
    case CapitalKey => Number(c.capital)
    case RiskLevelKey => Number(c.riskLevel)
    case DrawdownTargetKey => Number(c.drawdownTarget)
    case LeverageKey => Number(c.leverage)
    case HorizonKey => HorizonValue(c.horizon)
    case StrategyFocusKey => FocusValue(c.strategyFocus)
    case PairsKey => Selection(c.pairs)
  }

  /** The value has the type of the field, as `AgentConfig[Key]` demands. */
  predicate WellTyped(key: Key, value: FieldValue) {
    match key
    case CapitalKey | RiskLevelKey | DrawdownTargetKey | LeverageKey => value.Number?
    case HorizonKey => value.HorizonValue?
    case StrategyFocusKey => value.FocusValue?
    case PairsKey => value.Selection?
  }

  /** updateConfig: the named field takes the new value and every other field keeps its own. */
  function UpdateConfig(c: AgentConfig, key: Key, value: FieldValue): (r: AgentConfig)
    requires WellTyped(key, value)
    ensures Get(r, key) == value
    ensures forall k | k != key :: Get(r, k) == Get(c, k)
  {
    match key
    case CapitalKey => c.(capital := value.n)
    case RiskLevelKey => c.(riskLevel := value.n)
    case DrawdownTargetKey => c.(drawdownTarget := value.n)
    case LeverageKey => c.(leverage := value.n)
    case HorizonKey => c.(horizon := value.h)
    case StrategyFocusKey => c.(strategyFocus := value.f)
    case PairsKey => c.(pairs := value.s)
  }

  /** A configuration is determined by its fields. */
  lemma FieldsDetermineConfig(a: AgentConfig, b: AgentConfig)
    requires forall k :: Get(a, k) == Get(b, k)
    ensures a == b
  {
    assert Get(a, CapitalKey) == Get(b, CapitalKey);
    assert Get(a, RiskLevelKey) == Get(b, RiskLevelKey);
    assert Get(a, DrawdownTargetKey) == Get(b, DrawdownTargetKey);
    assert Get(a, LeverageKey) == Get(b, LeverageKey);
    assert Get(a, HorizonKey) == Get(b, HorizonKey);
    assert Get(a, StrategyFocusKey) == Get(b, StrategyFocusKey);
    assert Get(a, PairsKey) == Get(b, PairsKey);
  }

  /** Writing a field's own value back changes nothing. */
  lemma UpdateWithOwnValue(c: AgentConfig, key: Key)
    ensures WellTyped(key, Get(c, key)) && UpdateConfig(c, key, Get(c, key)) == c
  {
    FieldsDetermineConfig(UpdateConfig(c, key, Get(c, key)), c);
  }

  /** Of two updates of the same field, the later one wins. */
  lemma LaterUpdateWins(c: AgentConfig, key: Key, v1: FieldValue, v2: FieldValue)
    requires WellTyped(key, v1) && WellTyped(key, v2)
    ensures UpdateConfig(UpdateConfig(c, key, v1), key, v2) == UpdateConfig(c, key, v2)
  {
    FieldsDetermineConfig(UpdateConfig(UpdateConfig(c, key, v1), key, v2), UpdateConfig(c, key, v2));
  }

  /** Toggling a symbol is the update of the selection field with the toggled selection. */
  lemma TogglePairIsUpdate(c: AgentConfig, pair: string)
    ensures TogglePair(c, pair) == UpdateConfig(c, PairsKey, Selection(Toggle(c.pairs, pair)))
  {
  }

  /** A value one of the numeric sliders can produce for its field. */
  predicate SliderValue(key: Key, v: real) {
    match key
    case CapitalKey => 25000.0 <= v <= 1000000.0 && Whole(v / 25000.0)
    case DrawdownTargetKey => 3.0 <= v <= 20.0 && Whole(v)
    case RiskLevelKey => 10.0 <= v <= 90.0 && Whole(v)
    case LeverageKey => 1.0 <= v <= 12.0 && Whole(v)
    case _ => false
  }

  /** Moving a slider keeps the configuration within the slider ranges. */
  lemma SliderUpdateStaysWithin(c: AgentConfig, key: Key, v: real)
    requires WithinSliders(c) && SliderValue(key, v)
    ensures WithinSliders(UpdateConfig(c, key, Number(v)))
  {
  }
}
