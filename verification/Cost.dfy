/** Prices per model and date, and the predicted cost of a call. */
module Cost {
  import opened Basics
  import opened Routing

  datatype Date = Date(year: int, month: int, day: int)

  function DaysIn(year: int, month: int): int {
    if month == 2 then (if year % 4 == 0 && (year % 100 != 0 || year % 400 == 0) then 29 else 28)
    else if month in {4, 6, 9, 11} then 30 else 31
  }

  /** A date of four-digit years that exists in the calendar. */
  predicate IsCalendar(d: Date) {
    0 <= d.year <= 9999 && 1 <= d.month <= 12 && 1 <= d.day <= DaysIn(d.year, d.month)
  }

  /** The order of YYYY-MM-DD text. */
  predicate NotAfter(a: Date, b: Date) {
    a.year < b.year || (a.year == b.year && (a.month < b.month || (a.month == b.month && a.day <= b.day)))
  }

  datatype Price = Price(input: real, output: real, from: Date, through: Option<Date>)

  const BEGINNING := Date(0, 1, 1)

  function Pricing(m: ModelId): seq<Price> {
    match m
    case Fable => [Price(10.0, 50.0, BEGINNING, None)]
    case Mythos => [Price(10.0, 50.0, BEGINNING, None)]
    case Opus => [Price(5.0, 25.0, BEGINNING, None)]
    case Sonnet => [Price(2.0, 10.0, BEGINNING, Some(Date(2026, 8, 31))), Price(3.0, 15.0, Date(2026, 9, 1), None)]
    case Haiku => [Price(1.0, 5.0, BEGINNING, None)]
    case Other(_) => []
  }

  predicate Covers(p: Price, d: Date) {
    NotAfter(p.from, d) && (p.through.Some? ==> NotAfter(d, p.through.value))
  }

  function FirstCovering(prices: seq<Price>, d: Date): Option<Price> {
    if prices == [] then None else if Covers(prices[0], d) then Some(prices[0]) else FirstCovering(prices[1..], d)
  }

  /** `priceFor`; `None` where it throws. */
  function PriceFor(m: ModelId, d: Date): Option<Price> {
    if !Registered(m) || !IsCalendar(d) then None else FirstCovering(Pricing(m), d)
  }

  /** `estimateCost(...).totalUsd`; `None` where it throws. */
  function EstimateCost(m: ModelId, inputTokens: int, outputTokens: int, d: Date): Option<real> {
    if inputTokens < 0 || outputTokens < 0 then None
    else
      match PriceFor(m, d)
      case None => None
      case Some(p) => Some(inputTokens as real / 1_000_000.0 * p.input + outputTokens as real / 1_000_000.0 * p.output)
  }

  /** The price list has no gap and no overlap: every registered model has exactly one price every day. */
  lemma ExactlyOnePrice(m: ModelId, d: Date)
    requires Registered(m) && IsCalendar(d)
    ensures PriceFor(m, d).Some? && PriceFor(m, d).value.input > 0.0 && PriceFor(m, d).value.output > 0.0
    ensures forall i :: 0 <= i < |Pricing(m)| && Covers(Pricing(m)[i], d) ==> Pricing(m)[i] == PriceFor(m, d).value
  {
    var prices := Pricing(m);
    assert FirstCovering(prices[1..], d) == if |prices| == 1 then None else
      (if Covers(prices[1], d) then Some(prices[1]) else FirstCovering(prices[1..][1..], d));
  }

  lemma EstimateIsPositive(m: ModelId, inputTokens: int, outputTokens: int, d: Date)
    requires inputTokens > 0 && outputTokens > 0
    ensures EstimateCost(m, inputTokens, outputTokens, d).Some? <==> Registered(m) && IsCalendar(d)
    ensures EstimateCost(m, inputTokens, outputTokens, d).Some? ==> EstimateCost(m, inputTokens, outputTokens, d).value > 0.0
  {
    if Registered(m) && IsCalendar(d) {
      ExactlyOnePrice(m, d);
      var p := PriceFor(m, d).value;
      ProductPositive(inputTokens as real / 1_000_000.0, p.input);
      ProductPositive(outputTokens as real / 1_000_000.0, p.output);
    }
  }

  lemma ProductPositive(a: real, b: real)
    requires a > 0.0 && b > 0.0
    ensures a * b > 0.0
  {
  }

  /** Costs add up: two calls cost what one call with the tokens of both would. */
  lemma EstimateIsAdditive(m: ModelId, d: Date, i: int, j: int, o: int, p: int)
    requires i >= 0 && j >= 0 && o >= 0 && p >= 0 && Registered(m) && IsCalendar(d)
    ensures EstimateCost(m, i, o, d).Some? && EstimateCost(m, j, p, d).Some? && EstimateCost(m, i + j, o + p, d).Some?
    ensures EstimateCost(m, i + j, o + p, d).value == EstimateCost(m, i, o, d).value + EstimateCost(m, j, p, d).value
  {
    ExactlyOnePrice(m, d);
    var price := PriceFor(m, d).value;
    Spread(i, j, price.input);
    Spread(o, p, price.output);
  }

  lemma Spread(i: int, j: int, price: real)
    ensures (i + j) as real / 1_000_000.0 * price == i as real / 1_000_000.0 * price + j as real / 1_000_000.0 * price
  {
    var a, b := i as real / 1_000_000.0, j as real / 1_000_000.0;
    assert (i + j) as real / 1_000_000.0 == a + b;
    assert (a + b) * price == a * price + b * price;
  }

  /** A million tokens in, and a million out, cost what is listed; Sonnet's price rises on 1 September 2026. */
  lemma ListedPrices(d: Date)
    requires IsCalendar(d)
    ensures EstimateCost(Fable, 1_000_000, 0, d) == Some(10.0) && EstimateCost(Fable, 0, 1_000_000, d) == Some(50.0)
    ensures EstimateCost(Mythos, 1_000_000, 0, d) == Some(10.0) && EstimateCost(Mythos, 0, 1_000_000, d) == Some(50.0)
    ensures EstimateCost(Opus, 1_000_000, 0, d) == Some(5.0) && EstimateCost(Opus, 0, 1_000_000, d) == Some(25.0)
    ensures EstimateCost(Haiku, 1_000_000, 0, d) == Some(1.0) && EstimateCost(Haiku, 0, 1_000_000, d) == Some(5.0)
    ensures var early := d.year < 2026 || (d.year == 2026 && d.month < 9);
            && EstimateCost(Sonnet, 1_000_000, 0, d) == Some(if early then 2.0 else 3.0)
            && EstimateCost(Sonnet, 0, 1_000_000, d) == Some(if early then 10.0 else 15.0)
  {
    ExactlyOnePrice(Fable, d);
    ExactlyOnePrice(Mythos, d);
    ExactlyOnePrice(Opus, d);
    ExactlyOnePrice(Haiku, d);
    ExactlyOnePrice(Sonnet, d);
    assert Pricing(Sonnet)[1..][0] == Pricing(Sonnet)[1];
  }
}
