/**
 * The equity-curve chart's coordinates: each point of a timeline is placed in
 * a 100 x 100 box, x spreading the points evenly from left to right and y
 * putting the highest equity at the top (0) and the lowest at the bottom (100).
 * An empty timeline draws no chart.
 */
module Chart {
  import opened Numerics
  import opened Path

  datatype Option<T> = None | Some(value: T)

  /** One chart vertex, in the box's coordinates. */
  datatype ChartPoint = ChartPoint(x: real, y: real)

  /** The highest equity among the first `n` points. */
  function HighestOfFirst(timeline: seq<EquityPoint>, n: nat): (m: real)
    requires 0 < n <= |timeline|
    ensures forall i | 0 <= i < n :: timeline[i].equity <= m
    ensures exists i | 0 <= i < n :: timeline[i].equity == m
  {
    var last := timeline[n - 1].equity;
    if n == 1 then last
    else
      var rest := HighestOfFirst(timeline, n - 1);
      if rest >= last then rest else last
  }

  /** The lowest equity among the first `n` points. */
  function LowestOfFirst(timeline: seq<EquityPoint>, n: nat): (m: real)
    requires 0 < n <= |timeline|
    ensures forall i | 0 <= i < n :: m <= timeline[i].equity
    ensures exists i | 0 <= i < n :: timeline[i].equity == m
  {
    var last := timeline[n - 1].equity;
    if n == 1 then last
    else
      var rest := LowestOfFirst(timeline, n - 1);
      if rest <= last then rest else last
  }

  /** `Math.max(...timeline.map((point) => point.equity))`: an upper bound that some point reaches. */
  function MaxEquity(timeline: seq<EquityPoint>): (m: real)
    requires |timeline| > 0
    ensures forall i | 0 <= i < |timeline| :: timeline[i].equity <= m
    ensures exists i | 0 <= i < |timeline| :: timeline[i].equity == m
  {
    HighestOfFirst(timeline, |timeline|)
  }

  /** `Math.min(...timeline.map((point) => point.equity))`: a lower bound that some point reaches. */
  function MinEquity(timeline: seq<EquityPoint>): (m: real)
    requires |timeline| > 0
    ensures forall i | 0 <= i < |timeline| :: m <= timeline[i].equity
    ensures exists i | 0 <= i < |timeline| :: timeline[i].equity == m
  {
    LowestOfFirst(timeline, |timeline|)
  }

  /** `maxEquity - minEquity || 1`: the equity range, or 1 for a flat series. */
  function EquitySpan(timeline: seq<EquityPoint>): (s: real)
    requires |timeline| > 0
    ensures s > 0.0
    ensures MaxEquity(timeline) != MinEquity(timeline) ==> s == MaxEquity(timeline) - MinEquity(timeline)
  {
    var span := MaxEquity(timeline) - MinEquity(timeline);
    if span == 0.0 then 1.0 else span
  }

  /** `(idx / (timeline.length - 1 || 1)) * 100`. */
  function X(count: nat, idx: nat): real {
    var intervals := if count - 1 == 0 then 1 else count - 1;
    (idx as real / intervals as real) * 100.0
  }

  /** `100 - ((equity - minEquity) / equitySpan) * 100`. */
  function Y(timeline: seq<EquityPoint>, equity: real): real
    requires |timeline| > 0
  {
    100.0 - ((equity - MinEquity(timeline)) / EquitySpan(timeline)) * 100.0
  }

  /**
   * The chart's vertices, or None for an empty timeline: one vertex per
   * point, inside the box, from left to right.
   */
  function ChartPoints(timeline: seq<EquityPoint>): (r: Option<seq<ChartPoint>>)
    ensures r.None? <==> |timeline| == 0
    ensures r.Some? ==> |r.value| == |timeline|
    ensures r.Some? ==> forall i | 0 <= i < |r.value| ::
      0.0 <= r.value[i].x <= 100.0 && 0.0 <= r.value[i].y <= 100.0
    ensures r.Some? ==> forall i, j | 0 <= i < j < |r.value| :: r.value[i].x < r.value[j].x
  {
    if |timeline| == 0 then None
    else
      var points := seq(|timeline|, idx requires 0 <= idx < |timeline| =>
        ChartPoint(X(|timeline|, idx), Y(timeline, timeline[idx].equity)));
      XBounds(|timeline|);
      YBounds(timeline);
      XIncreasing(|timeline|);
      Some(points)
  }

  /** Every x lies in [0, 100]. */
  lemma XBounds(count: nat)
    ensures forall idx: nat | idx < count :: 0.0 <= X(count, idx) <= 100.0
  {
    forall idx: nat | idx < count
      ensures 0.0 <= X(count, idx) <= 100.0
    {
      var intervals := if count - 1 == 0 then 1 else count - 1;
      assert idx as real <= intervals as real;
      assert idx as real / intervals as real <= 1.0;
    }
  }

  /** x strictly increases with the index. */
  lemma XIncreasing(count: nat)
    ensures forall i: nat, j: nat | i < j < count :: X(count, i) < X(count, j)
  {
    forall i: nat, j: nat | i < j < count
      ensures X(count, i) < X(count, j)
    {
      var intervals := (if count - 1 == 0 then 1 else count - 1) as real;
      assert i as real / intervals < j as real / intervals;
    }
  }

  /** Every y lies in [0, 100]. */
  lemma YBounds(timeline: seq<EquityPoint>)
    requires |timeline| > 0
    ensures forall i | 0 <= i < |timeline| :: 0.0 <= Y(timeline, timeline[i].equity) <= 100.0
  {
    forall i | 0 <= i < |timeline|
      ensures 0.0 <= Y(timeline, timeline[i].equity) <= 100.0
    {
      var lo, span := MinEquity(timeline), EquitySpan(timeline);
      var e := timeline[i].equity;
      assert 0.0 <= e - lo <= span;
      UnitFraction(e - lo, span);
      var normalized := (e - lo) / span;
      assert 0.0 <= normalized <= 1.0;
      assert Y(timeline, e) == 100.0 - normalized * 100.0;
    }
  }

  /** The vertex of point `i`: its x from its position, its y from its equity. */
  lemma ChartPointAt(timeline: seq<EquityPoint>, i: nat)
    requires i < |timeline|
    ensures ChartPoints(timeline).Some?
    ensures ChartPoints(timeline).value[i] == ChartPoint(X(|timeline|, i), Y(timeline, timeline[i].equity))
  {
  }

  /** With more than one point, the first sits at the left edge and the last at the right edge. */
  lemma ChartEnds(timeline: seq<EquityPoint>)
    requires |timeline| > 1
    ensures ChartPoints(timeline).value[0].x == 0.0
    ensures ChartPoints(timeline).value[|timeline| - 1].x == 100.0
  {
    var n := |timeline|;
    ChartPointAt(timeline, 0);
    ChartPointAt(timeline, n - 1);
    SelfFraction((n - 1) as real);
    assert X(n, n - 1) == ((n - 1) as real / (n - 1) as real) * 100.0;
  }

  /** In a series that moves, a point at the highest equity is drawn on the top edge. */
  lemma HighestAtTop(timeline: seq<EquityPoint>, i: nat)
    requires i < |timeline| && MaxEquity(timeline) != MinEquity(timeline)
    requires timeline[i].equity == MaxEquity(timeline)
    ensures ChartPoints(timeline).value[i].y == 0.0
  {
    ChartPointAt(timeline, i);
    var span := MaxEquity(timeline) - MinEquity(timeline);
    assert EquitySpan(timeline) == span;
    SelfFraction(span);
    assert Y(timeline, timeline[i].equity) == 100.0 - (span / span) * 100.0;
  }

  /** A point at the lowest equity is drawn on the bottom edge. */
  lemma LowestAtBottom(timeline: seq<EquityPoint>, i: nat)
    requires i < |timeline| && timeline[i].equity == MinEquity(timeline)
    ensures ChartPoints(timeline).value[i].y == 100.0
  {
    ChartPointAt(timeline, i);
    var span := EquitySpan(timeline);
    assert Y(timeline, timeline[i].equity) == 100.0 - (0.0 / span) * 100.0;
  }

  /** A flat series is drawn along the bottom edge. */
  lemma FlatSeriesAtBottom(timeline: seq<EquityPoint>, i: nat)
    requires i < |timeline| && MaxEquity(timeline) == MinEquity(timeline)
    ensures ChartPoints(timeline).value[i].y == 100.0
  {
    ChartPointAt(timeline, i);
    var e := timeline[i].equity;
    assert MinEquity(timeline) <= e <= MaxEquity(timeline);
    assert EquitySpan(timeline) == 1.0;
    assert Y(timeline, e) == 100.0 - (e - MinEquity(timeline)) * 100.0;
  }

  /** Higher equity is drawn higher up: y falls strictly as equity rises. */
  lemma HigherEquityHigherUp(timeline: seq<EquityPoint>, i: nat, j: nat)
    requires i < |timeline| && j < |timeline| && timeline[i].equity < timeline[j].equity
    ensures ChartPoints(timeline).value[j].y < ChartPoints(timeline).value[i].y
  {
    ChartPointAt(timeline, i);
    ChartPointAt(timeline, j);
    var lo, span := MinEquity(timeline), EquitySpan(timeline);
    var a, b := timeline[i].equity - lo, timeline[j].equity - lo;
    DivideByPositive(a, b, span);
  }
}
