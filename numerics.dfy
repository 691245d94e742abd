/**
 * Arithmetic shared by the simulator, over exact reals: JavaScript's
 * Math.min, Math.max and Math.round, the simulator's `clamp`, and the
 * transcendental functions it calls (Math.tanh, Math.sqrt, Math.pow), which
 * are passed in as values and constrained only by the laws the proofs use.
 */
module Numerics {

  /** Math.min of two numbers. */
  function Min(a: real, b: real): (r: real)
    ensures r <= a && r <= b
    ensures r == a || r == b
  {
    if a <= b then a else b
  }

  /** Math.max of two numbers. */
  function Max(a: real, b: real): (r: real)
    ensures r >= a && r >= b
    ensures r == a || r == b
  {
    if a >= b then a else b
  }

  /**
   * `clamp(value, min, max)`: saturate `v` from below at `lo`, then from
   * above at `hi`. When the bounds are crossed (lo > hi) the upper bound wins.
   */
  function Clamp(v: real, lo: real, hi: real): (r: real)
    ensures r <= hi
    ensures lo <= hi ==> lo <= r
    ensures lo <= v <= hi ==> r == v
    ensures v <= lo && lo <= hi ==> r == lo
    ensures hi <= v ==> r == hi
  {
    Min(Max(v, lo), hi)
  }

  /** Math.round: the nearest integer, halves rounded up (towards +infinity). */
  function Round(x: real): (n: int)
    ensures n as real - 0.5 <= x < n as real + 0.5
  {
    (x + 0.5).Floor
  }

  /** Rounding a value that lies between two integers stays between them. */
  lemma RoundWithin(x: real, lo: int, hi: int)
    requires lo as real <= x <= hi as real
    ensures lo <= Round(x) <= hi
  {
  }

  /** Rounding an integer-valued number gives it back. */
  lemma RoundWhole(k: int)
    ensures Round(k as real) == k
  {
  }

  /** `x` is a multiple of 0.1, as `Math.round(v * 10) / 10` produces. */
  predicate IsTenth(x: real) {
    (x * 10.0).Floor as real == x * 10.0
  }

  /** Rounds to the nearest multiple of 0.1, as `Math.round(v * 10) / 10`. */
  function RoundTenth(v: real): (r: real)
    ensures IsTenth(r)
    ensures r - 0.05 <= v < r + 0.05
  {
    Round(v * 10.0) as real / 10.0
  }

  /** Rounding to a tenth keeps a value inside bounds that are themselves whole numbers. */
  lemma RoundTenthWithin(v: real, lo: int, hi: int)
    requires lo as real <= v <= hi as real
    ensures lo as real <= RoundTenth(v) <= hi as real
  {
    RoundWithin(v * 10.0, lo * 10, hi * 10);
  }

  /** A non-zero number divided by itself is 1. */
  lemma SelfFraction(s: real)
    requires s != 0.0
    ensures s / s == 1.0
  {
    var q := s / s;
    assert q * s == s;
    assert (q - 1.0) * s == 0.0;
  }

  /** A part of a positive whole is a fraction in [0, 1] of it. */
  lemma UnitFraction(a: real, s: real)
    requires 0.0 <= a <= s && s > 0.0
    ensures 0.0 <= a / s <= 1.0
  {
    var q := a / s;
    assert q * s == a;
  }

  /** Dividing by a positive number keeps the order of two numbers. */
  lemma DivideByPositive(a: real, b: real, s: real)
    requires s > 0.0 && a <= b
    ensures a / s <= b / s
    ensures a < b ==> a / s < b / s
  {
    var p, q := a / s, b / s;
    assert p * s == a && q * s == b;
    assert (q - p) * s == b - a;
  }

  /**
   * The transcendental functions of JavaScript's Math that the simulator
   * calls. Their exact values are not modelled: only the laws in `Lawful`.
   */
  datatype Primitives = Primitives(tanh: real -> real, sqrt: real -> real, pow: (real, real) -> real)

  /** The properties of tanh, sqrt and pow that the model relies on. */
  ghost predicate Lawful(m: Primitives) {
    && (forall x :: -1.0 < m.tanh(x) < 1.0)
    && (forall x :: (m.tanh(x) > 0.0 <==> x > 0.0) && (m.tanh(x) < 0.0 <==> x < 0.0))
    && (forall x :: x >= 0.0 ==> m.sqrt(x) >= 0.0)
    && (forall x, y :: x > 0.0 ==> m.pow(x, y) > 0.0)
  }
}
