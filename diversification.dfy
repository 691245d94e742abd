/**
 * The currency diversification bonus: each instrument symbol "BASE/QUOTE" is
 * split on '/', the distinct non-empty bases and quotes are collected, and
 * every distinct currency adds 1.5% to a multiplier capped at 1.15.
 */
module Diversification {
  import opened Numerics

  /** `s.split("/")`: the segments between slashes, always at least one. */
  function Split(s: string): (parts: seq<string>)
    ensures |parts| >= 1
    ensures forall k | 0 <= k < |parts| :: '/' !in parts[k]
  {
    if s == [] then [""]
    else
      var rest := Split(s[1..]);
      if s[0] == '/' then [""] + rest
      else [[s[0]] + rest[0]] + rest[1..]
  }

  /** `parts.join("/")`, the inverse of Split. */
  function Join(parts: seq<string>): string
    requires |parts| >= 1
  {
    if |parts| == 1 then parts[0] else parts[0] + "/" + Join(parts[1..])
  }

  /** Splitting and joining again gives back the original text. */
  lemma {:induction false} JoinSplit(s: string)
    ensures Join(Split(s)) == s
  {
    if s != [] {
      JoinSplit(s[1..]);
      var rest := Split(s[1..]);
      if s[0] != '/' {
        if |rest| > 1 {
          assert Join(Split(s)) == [s[0]] + rest[0] + "/" + Join(rest[1..]);
        }
        assert Join(Split(s)) == [s[0]] + Join(rest);
      }
      assert s == [s[0]] + s[1..];
    }
  }

  /** Splitting a slash-free prefix onto the front of a text extends its first segment. */
  lemma {:induction false} SplitPrefix(w: string, t: string)
    requires '/' !in w
    ensures Split(w + t) == [w + Split(t)[0]] + Split(t)[1..]
    decreases |w|
  {
    if w != [] {
      assert (w + t)[1..] == w[1..] + t;
      SplitPrefix(w[1..], t);
      assert [w[0]] + (w[1..] + Split(t)[0]) == w + Split(t)[0];
    } else {
      assert w + t == t;
      assert w + Split(t)[0] == Split(t)[0];
      assert [w + Split(t)[0]] + Split(t)[1..] == Split(t);
    }
  }

  /** Joining slash-free segments and splitting again gives the segments back. */
  lemma {:induction false} SplitJoin(parts: seq<string>)
    requires |parts| >= 1
    requires forall k | 0 <= k < |parts| :: '/' !in parts[k]
    ensures Split(Join(parts)) == parts
  {
    if |parts| == 1 {
      SplitPrefix(parts[0], "");
      assert parts[0] + "" == parts[0];
    } else {
      var tail := "/" + Join(parts[1..]);
      SplitJoin(parts[1..]);
      assert tail[1..] == Join(parts[1..]);
      assert Split(tail) == [""] + parts[1..];
      SplitPrefix(parts[0], tail);
      assert parts[0] + "/" + Join(parts[1..]) == parts[0] + tail;
      assert parts[0] + "" == parts[0];
      assert ([""] + parts[1..])[1..] == parts[1..];
      assert parts == [parts[0]] + parts[1..];
    }
  }

  /** The base as `const [base] = pair.split("/")`; "" means none (a falsy base is skipped). */
  function BaseOf(pair: string): string {
    Split(pair)[0]
  }

  /** The quote as `const [, quote] = pair.split("/")`; "" when absent or empty. */
  function QuoteOf(pair: string): string {
    var parts := Split(pair);
    if |parts| > 1 then parts[1] else ""
  }

  /** A symbol without '/' counts as a base only, the whole of it. */
  lemma {:induction false} NoSlashIsBaseOnly(pair: string)
    requires '/' !in pair
    ensures BaseOf(pair) == pair && QuoteOf(pair) == ""
  {
    SplitJoin([pair]);
  }

  /** Only the first two segments matter: what follows a second '/' is ignored. */
  lemma {:induction false} FirstTwoSegments(base: string, quote: string, more: seq<string>)
    requires '/' !in base && '/' !in quote
    requires forall k | 0 <= k < |more| :: '/' !in more[k]
    ensures BaseOf(Join([base, quote] + more)) == base
    ensures QuoteOf(Join([base, quote] + more)) == quote
  {
    var parts := [base, quote] + more;
    assert forall k | 0 <= k < |parts| :: '/' !in parts[k];
    SplitJoin(parts);
  }

  /** `{s}`, or nothing when `s` is empty: an empty base or quote is not counted. */
  function Counted(s: string): set<string> {
    if s == "" then {} else {s}
  }

  /** The distinct non-empty bases among the pairs. */
  function BasesOf(pairs: seq<string>): set<string> {
    set p | p in pairs && BaseOf(p) != "" :: BaseOf(p)
  }

  /** The distinct non-empty quotes among the pairs. */
  function QuotesOf(pairs: seq<string>): set<string> {
    set p | p in pairs && QuoteOf(p) != "" :: QuoteOf(p)
  }

  /** Adding one more pair adds at most its own base and quote. */
  lemma GatherStep(pairs: seq<string>, p: string)
    ensures BasesOf(pairs + [p]) == BasesOf(pairs) + Counted(BaseOf(p))
    ensures QuotesOf(pairs + [p]) == QuotesOf(pairs) + Counted(QuoteOf(p))
  {
  }

  /** The value `currencyDiversificationBonus` returns for `pairs`. */
  function Bonus(pairs: seq<string>): (r: real)
    ensures 1.0 <= r <= 1.15
    ensures pairs == [] ==> r == 1.0
  {
    Min(1.15, 1.0 + (|BasesOf(pairs)| + |QuotesOf(pairs)|) as real * 0.015)
  }

  /** The bonus scores the distinct bases and quotes gathered from the pairs. */
  lemma BonusFromSets(pairs: seq<string>, bases: set<string>, quotes: set<string>)
    requires bases == BasesOf(pairs) && quotes == QuotesOf(pairs)
    ensures Bonus(pairs) == Min(1.15, 1.0 + (|bases| + |quotes|) as real * 0.015)
  {
  }

  /** The bonus depends only on which symbols are selected: not on their order nor on repeats. */
  lemma BonusIgnoresOrderAndRepeats(a: seq<string>, b: seq<string>)
    requires forall p :: p in a <==> p in b
    ensures Bonus(a) == Bonus(b)
  {
    assert BasesOf(a) == BasesOf(b);
    assert QuotesOf(a) == QuotesOf(b);
  }

  /** The default selection EUR/USD, USD/JPY, GBP/USD has 3 bases and 2 quotes: a bonus of 1.075. */
  lemma DefaultPairsBonus(pairs: seq<string>)
    requires pairs == ["EUR/USD", "USD/JPY", "GBP/USD"]
    ensures Bonus(pairs) == 1.075
  {
    DefaultSymbols();
    FourCurrenciesBonus(pairs[0], pairs[1], pairs[2], "EUR", "USD", "JPY", "GBP");
    assert pairs == [pairs[0], pairs[1], pairs[2]];
  }

  /** The default symbols are EUR, USD, JPY and GBP joined by '/', four different currencies. */
  lemma DefaultSymbols()
    ensures "EUR/USD" == "EUR" + "/" + "USD"
    ensures "USD/JPY" == "USD" + "/" + "JPY"
    ensures "GBP/USD" == "GBP" + "/" + "USD"
    ensures '/' !in "EUR" && '/' !in "USD" && '/' !in "JPY" && '/' !in "GBP"
    ensures "EUR" != "USD" && "EUR" != "GBP" && "USD" != "GBP" && "USD" != "JPY"
  {
  }

  /** Three symbols a/b, b/c and d/b over four distinct currencies: 3 bases, 2 quotes. */
  lemma FourCurrenciesBonus(p0: string, p1: string, p2: string, a: string, b: string, c: string, d: string)
    requires p0 == a + "/" + b && p1 == b + "/" + c && p2 == d + "/" + b
    requires '/' !in a && '/' !in b && '/' !in c && '/' !in d
    requires a != "" && b != "" && c != "" && d != ""
    requires a != b && a != d && b != d && b != c
    ensures Bonus([p0, p1, p2]) == 1.075
  {
    PairParts(a, b);
    PairParts(b, c);
    PairParts(d, b);
    ThreeSymbolsGathered(p0, p1, p2);
    var bases, quotes := BasesOf([p0, p1, p2]), QuotesOf([p0, p1, p2]);
    assert bases == {a, b, d};
    assert quotes == {b, c};
    assert |bases| == 3 && |quotes| == 2;
    BonusFromSets([p0, p1, p2], bases, quotes);
  }

  /** Three symbols contribute exactly their own non-empty bases and quotes. */
  lemma ThreeSymbolsGathered(p0: string, p1: string, p2: string)
    ensures BasesOf([p0, p1, p2]) == Counted(BaseOf(p0)) + Counted(BaseOf(p1)) + Counted(BaseOf(p2))
    ensures QuotesOf([p0, p1, p2]) == Counted(QuoteOf(p0)) + Counted(QuoteOf(p1)) + Counted(QuoteOf(p2))
  {
    assert [p0] == [] + [p0] && [p0, p1] == [p0] + [p1] && [p0, p1, p2] == [p0, p1] + [p2];
    GatherStep([], p0);
    GatherStep([p0], p1);
    GatherStep([p0, p1], p2);
  }

  /** The base and quote of a well-formed symbol "BASE/QUOTE". */
  lemma PairParts(base: string, quote: string)
    requires '/' !in base && '/' !in quote
    ensures BaseOf(base + "/" + quote) == base
    ensures QuoteOf(base + "/" + quote) == quote
  {
    FirstTwoSegments(base, quote, []);
    assert Join([base, quote] + []) == base + "/" + quote;
  }

  /**
   * currencyDiversificationBonus: one pass over the pairs, adding each
   * non-empty base and quote to its set, then the capped score.
   */
  method DiversificationBonus(pairs: seq<string>) returns (bonus: real)
    ensures bonus == Bonus(pairs)
  {
    var uniqueBases: set<string> := {};
    var uniqueQuotes: set<string> := {};
    var i := 0;
    while i < |pairs|
      invariant 0 <= i <= |pairs|
      invariant uniqueBases == BasesOf(pairs[..i])
      invariant uniqueQuotes == QuotesOf(pairs[..i])
    {
      var base, quote := BaseOf(pairs[i]), QuoteOf(pairs[i]);
      if base != "" {
        uniqueBases := uniqueBases + {base};
      }
      if quote != "" {
        uniqueQuotes := uniqueQuotes + {quote};
      }
      assert pairs[..i + 1] == pairs[..i] + [pairs[i]];
      GatherStep(pairs[..i], pairs[i]);
      i := i + 1;
    }
    assert pairs[..i] == pairs;
    bonus := Min(1.15, 1.0 + (|uniqueBases| + |uniqueQuotes|) as real * 0.015);
    BonusFromSets(pairs, uniqueBases, uniqueQuotes);
  }
}
