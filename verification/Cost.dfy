/** What a model call costs, and what is reserved for it beforehand. Money is in millionths of a dollar. */
module Cost {
  import opened Wrappers

  /** Price per token of input and of output, in millionths of a dollar. */
  datatype Rates = Rates(input: nat, output: nat)

  function RatesOf(model: string): Option<Rates> {
    if model == "claude-opus-4-8" then Some(Rates(5, 25))
    else if model == "claude-haiku-4-5" || model == "claude-haiku-4-5-20251001" then Some(Rates(1, 5))
    else None
  }

  /** `Decimal.quantize` in its default mode: x hundredths of a unit to whole units, ties to even. */
  function HalfEven(x: nat): nat {
    var q, r := x / 100, x % 100;
    if r > 50 || (r == 50 && q % 2 == 1) then q + 1 else q
  }

  /** The exact price in hundredths: cache writes at 1.25, cache reads at 0.1 of the input rate. */
  function ExactCost(r: Rates, input: nat, output: nat, cacheWrite: nat, cacheRead: nat): nat {
    input * r.input * 100 + cacheWrite * r.input * 125 + cacheRead * r.input * 10 + output * r.output * 100
  }

  function CalculateCost(model: string, input: nat, output: nat, cacheWrite: nat, cacheRead: nat): Option<nat> {
    var rates := RatesOf(model);
    if rates.None? then None else Some(HalfEven(ExactCost(rates.value, input, output, cacheWrite, cacheRead)))
  }

  function ProjectedCost(model: string, counted: nat, maxTokens: nat): Option<nat> {
    var rates := RatesOf(model);
    if rates.None? then None
    else Some(HalfEven(counted * rates.value.input * 125 + maxTokens * rates.value.output * 100))
  }

  /** n is the nearest whole number of units to x hundredths, the even one when there are two. */
  predicate NearestEven(x: nat, n: nat) {
    && 100 * n <= x + 50 && x <= 100 * n + 50
    && ((100 * n == x + 50 || x == 100 * n + 50) ==> n % 2 == 0)
  }

  /** `HalfEven` is the one and only rounding to the nearest unit with ties to even. */
  lemma HalfEvenIsNearest(x: nat, n: nat)
    ensures NearestEven(x, n) <==> n == HalfEven(x)
  {}

  lemma HalfEvenMonotone(x: nat, y: nat)
    requires x <= y
    ensures HalfEven(x) <= HalfEven(y)
  {}

  /**
   * The reservation covers the bill: for every priced model, however the counted input splits into
   * fresh, cache-write and cache-read tokens, the rounded cost never exceeds the rounded projection.
   */
  lemma ProjectionDominatesCost(
    model: string, input: nat, output: nat, cacheWrite: nat, cacheRead: nat, counted: nat, maxTokens: nat)
    requires input + cacheWrite + cacheRead <= counted && output <= maxTokens
    ensures CalculateCost(model, input, output, cacheWrite, cacheRead).Some?
            <==> ProjectedCost(model, counted, maxTokens).Some?
    ensures RatesOf(model).Some? ==>
              CalculateCost(model, input, output, cacheWrite, cacheRead).value
              <= ProjectedCost(model, counted, maxTokens).value
  {}

  /** The projection is tight: it is met when all input is a cache write and the output is full length. */
  lemma ProjectionIsAttained(model: string, counted: nat, maxTokens: nat)
    ensures CalculateCost(model, 0, maxTokens, counted, 0) == ProjectedCost(model, counted, maxTokens)
  {}

  // ---- What a bill is ----

  /** The rate table: millionths of a dollar for an input and for an output token; other models have no price. */
  lemma RateTable(model: string)
    ensures model == "claude-opus-4-8" ==> RatesOf(model) == Some(Rates(5, 25))
    ensures model == "claude-haiku-4-5" ==> RatesOf(model) == Some(Rates(1, 5))
    ensures model == "claude-haiku-4-5-20251001" ==> RatesOf(model) == Some(Rates(1, 5))
    ensures RatesOf(model).Some? ==>
              model == "claude-opus-4-8" || model == "claude-haiku-4-5" || model == "claude-haiku-4-5-20251001"
    ensures forall i, o, w, r :: CalculateCost(model, i, o, w, r).Some? <==> RatesOf(model).Some?
  {}

  lemma WholeUnits(n: nat)
    ensures HalfEven(100 * n) == n
  {}

  /** n fresh input tokens cost n times the input rate, and n output tokens n times the output rate. */
  lemma TokenPrices(model: string, n: nat)
    requires RatesOf(model).Some?
    ensures CalculateCost(model, n, 0, 0, 0) == Some(n * RatesOf(model).value.input)
    ensures CalculateCost(model, 0, n, 0, 0) == Some(n * RatesOf(model).value.output)
  {
    WholeUnits(n * RatesOf(model).value.input);
    WholeUnits(n * RatesOf(model).value.output);
  }

  /** Ten cache reads cost one fresh token, and four cache writes cost five. */
  lemma CachePrices(model: string, n: nat)
    ensures CalculateCost(model, 0, 0, 0, 10 * n) == CalculateCost(model, n, 0, 0, 0)
    ensures CalculateCost(model, 0, 0, 4 * n, 0) == CalculateCost(model, 5 * n, 0, 0, 0)
  {}

  /** Any mix costs the nearest unit to the sum of its four prices, which are exact in hundredths. */
  lemma BillIsTheRoundedSum(model: string, input: nat, output: nat, cacheWrite: nat, cacheRead: nat)
    requires RatesOf(model).Some?
    ensures var r := RatesOf(model).value;
            NearestEven(100 * (input * r.input) + 100 * (output * r.output)
                        + 125 * (cacheWrite * r.input) + 10 * (cacheRead * r.input),
                        CalculateCost(model, input, output, cacheWrite, cacheRead).value)
  {
    var r := RatesOf(model).value;
    var exact := 100 * (input * r.input) + 100 * (output * r.output)
                 + 125 * (cacheWrite * r.input) + 10 * (cacheRead * r.input);
    HalfEvenIsNearest(exact, HalfEven(exact));
  }
}
