/** The deterministic rules that shape a generated sale: the demand
    multipliers and the mean of the daily sales count, the clamp on that count,
    the weighted category choice, the quantity rule, inflation-adjusted prices,
    and the rain and promotion probabilities. Arithmetic is exact (`real`);
    money is in whole cents. */
module Demand {
  import opened Tables

  // ---------------------------------------------------------------- multipliers

  /** Weekend boost by weekday (Monday = 0): only Friday to Sunday raise demand,
      Saturday the most. */
  function DayOfWeekFactor(weekday: int): (f: real)
    ensures 1.0 <= f <= 1.6
    ensures f > 1.0 <==> 4 <= weekday <= 6
    ensures weekday == 5 <==> f == 1.6
  {
    if weekday == 4 then 1.4
    else if weekday == 5 then 1.6
    else if weekday == 6 then 1.2
    else 1.0
  }

  /** Seasonal boost: December the most, the mid-year holidays (June to August) less. */
  function MonthFactor(month: int): (f: real)
    ensures 1.0 <= f <= 1.5
    ensures f > 1.0 <==> month == 12 || 6 <= month <= 8
    ensures f == 1.5 <==> month == 12
  {
    if month == 12 then 1.5
    else if month == 6 || month == 7 || month == 8 then 1.2
    else 1.0
  }

  /** An event day doubles demand. */
  function EventFactor(evento: string): (f: real)
    ensures f == 1.0 || f == 2.0
    ensures f == 2.0 <==> evento != NoEvent
  {
    if evento != NoEvent then 2.0 else 1.0
  }

  /** Centro sells the most, Norte more than the other three zones. */
  function ZoneFactor(z: Zone): (f: real)
    ensures 1.0 <= f <= 1.3
    ensures f > 1.0 <==> z == Centro || z == Norte
    ensures f == 1.3 <==> z == Centro
  {
    if z == Centro then 1.3
    else if z == Norte then 1.1
    else 1.0
  }

  const BaseDailySales := 8.0

  /** The mean handed to the Poisson draw of a branch's daily sales count: never
      below the base of 8 nor above 8 × 1.6 × 1.5 × 2 × 1.3. */
  function SalesMean(weekday: int, month: int, evento: string, z: Zone): (m: real)
    ensures BaseDailySales <= m <= 49.92
  {
    var d, mf, e, zf := DayOfWeekFactor(weekday), MonthFactor(month), EventFactor(evento), ZoneFactor(z);
    assert 1.0 <= d * mf <= 2.4;
    assert 1.0 <= d * mf * e <= 4.8;
    assert 1.0 <= d * mf * e * zf <= 6.24;
    BaseDailySales * d * mf * e * zf
  }

  /** An event day exactly doubles the mean of the same day without an event. */
  lemma SalesMeanEventRaises(weekday: int, month: int, z: Zone, evento: string)
    requires evento != NoEvent
    ensures SalesMean(weekday, month, evento, z) == 2.0 * SalesMean(weekday, month, NoEvent, z)
  {
  }

  // ---------------------------------------------------------------- sales count

  const MinSalesPerBranch := 1
  const MaxSalesPerBranch := 25

  /** The daily sales count of a branch: the drawn count pulled into [1, 25]. */
  function ClampSales(n: int): (c: int)
    ensures MinSalesPerBranch <= c <= MaxSalesPerBranch
    ensures MinSalesPerBranch <= n <= MaxSalesPerBranch ==> c == n
    ensures n < MinSalesPerBranch ==> c == MinSalesPerBranch
    ensures n > MaxSalesPerBranch ==> c == MaxSalesPerBranch
  {
    var capped := if n < MaxSalesPerBranch then n else MaxSalesPerBranch;
    if capped > MinSalesPerBranch then capped else MinSalesPerBranch
  }

  // ---------------------------------------------------------------- category choice

  /** Category weights of the weighted draw, in declaration order. */
  function CategoryWeight(c: Category): real
  {
    match c
    case Cerveza => 0.5
    case Licores => 0.25
    case Vinos => 0.15
    case BebidasPreparadas => 0.1
  }

  /** Total weight of the categories declared before `c`. */
  function WeightBefore(c: Category): real
  {
    match c
    case Cerveza => 0.0
    case Licores => CategoryWeight(Cerveza)
    case Vinos => CategoryWeight(Cerveza) + CategoryWeight(Licores)
    case BebidasPreparadas => CategoryWeight(Cerveza) + CategoryWeight(Licores) + CategoryWeight(Vinos)
  }

  /** Inverse-CDF choice: a uniform draw `u` selects the category whose slice of
      the cumulative weights holds it (the first cumulative weight above `u`). */
  function ChooseCategory(u: real): (c: Category)
    requires 0.0 <= u < 1.0
    ensures WeightBefore(c) <= u < WeightBefore(c) + CategoryWeight(c)
  {
    if u < 0.5 then Cerveza
    else if u < 0.75 then Licores
    else if u < 0.9 then Vinos
    else BebidasPreparadas
  }

  /** The weights cover [0, 1) exactly: each slice starts where the previous ends. */
  lemma CategoryWeightsPartition()
    ensures WeightBefore(BebidasPreparadas) + CategoryWeight(BebidasPreparadas) == 1.0
    ensures forall c :: CategoryWeight(c) > 0.0
  {
  }

  /** Mean of the Poisson draw for the base quantity of a sale. */
  function QuantityMean(c: Category): (m: real)
    ensures m > 0.0
  {
    match c
    case Cerveza => 15.0
    case Licores => 5.0
    case Vinos => 7.0
    case BebidasPreparadas => 10.0
  }

  // ---------------------------------------------------------------- quantity

  /** Conversion of a float to an integer, truncating toward zero. */
  function Truncate(x: real): (n: int)
    ensures x >= 0.0 ==> n as real <= x < n as real + 1.0
    ensures x < 0.0 ==> n as real - 1.0 < x <= n as real
  {
    if x >= 0.0 then x.Floor else -((-x).Floor)
  }

  /** Hot days (above 28 degrees) sell a fifth more. */
  function TemperatureFactor(temperature: real): (f: real)
    ensures f == 1.2 <==> temperature > 28.0
    ensures f == 1.0 <==> temperature <= 28.0
  {
    if temperature > 28.0 then 1.2 else 1.0
  }

  /** Units sold on one line: the base quantity scaled by the event and
      temperature multipliers, truncated, and at least one. */
  function QuantitySold(base: nat, eventFactor: real, temperature: real): (q: int)
    ensures q >= 1
    ensures Truncate(base as real * eventFactor * TemperatureFactor(temperature)) >= 1
            ==> q == Truncate(base as real * eventFactor * TemperatureFactor(temperature))
    ensures Truncate(base as real * eventFactor * TemperatureFactor(temperature)) < 1 ==> q == 1
  {
    var scaled := Truncate(base as real * eventFactor * TemperatureFactor(temperature));
    if scaled > 1 then scaled else 1
  }

  /** With multipliers of at least one, a line never sells fewer units than its
      base quantity (nor fewer than one). */
  lemma QuantityAtLeastBase(base: nat, eventFactor: real, temperature: real)
    requires eventFactor >= 1.0
    ensures QuantitySold(base, eventFactor, temperature) >= base
  {
    var t := TemperatureFactor(temperature);
    ScaleMonotone(eventFactor, 1.0, t);
    ScaleMonotone(base as real, 1.0, eventFactor * t);
    assert base as real * eventFactor * t == base as real * (eventFactor * t);
  }

  /** Doubling the multiplier on an event day never lowers the quantity. */
  lemma QuantityMonotoneInEvent(base: nat, temperature: real)
    ensures QuantitySold(base, 1.0, temperature) <= QuantitySold(base, 2.0, temperature)
  {
    var t := TemperatureFactor(temperature);
    assert base as real * 1.0 * t <= base as real * 2.0 * t;
  }

  // ---------------------------------------------------------------- prices

  const BaseYear := 2022

  /** 1.05 raised to an integer power: compounded 5% annual inflation. */
  function Inflation(years: int): (f: real)
    ensures f > 0.0
    ensures years >= 0 ==> f >= 1.0
    decreases if years >= 0 then years else -years
  {
    if years == 0 then 1.0
    else if years > 0 then 1.05 * Inflation(years - 1)
    else Inflation(years + 1) / 1.05
  }

  lemma InflationStep(k: int)
    ensures Inflation(k + 1) == 1.05 * Inflation(k)
  {
  }

  /** Inflation grows strictly from one year to any later one. */
  lemma {:induction false} InflationIncreasing(a: int, b: int)
    requires a < b
    ensures Inflation(a) < Inflation(b)
    decreases b - a
  {
    InflationStep(b - 1);
    if a < b - 1 {
      InflationIncreasing(a, b - 1);
    }
  }

  /** Rounding to the nearest integer, halves upward. */
  function RoundHalfUp(x: real): (n: int)
    ensures n as real - 0.5 <= x < n as real + 0.5
  {
    (x + 0.5).Floor
  }

  lemma RoundHalfUpMonotone(x: real, y: real)
    requires x <= y
    ensures RoundHalfUp(x) <= RoundHalfUp(y)
  {
  }

  lemma RoundHalfUpShift(x: real, k: int)
    ensures RoundHalfUp(x + k as real) == RoundHalfUp(x) + k
  {
  }

  lemma ScaleMonotone(b: real, f1: real, f2: real)
    requires b >= 0.0 && f1 <= f2
    ensures b * f1 <= b * f2
  {
    assert b * f2 - b * f1 == b * (f2 - f1);
  }

  /** Unrounded unit price, in cents, of a product in a given year. */
  function ExactPriceCents(baseCents: nat, year: int): real
  {
    baseCents as real * Inflation(year - BaseYear)
  }

  /** One more year multiplies the unrounded price by 1.05. */
  lemma ExactPriceStep(baseCents: nat, year: int)
    ensures ExactPriceCents(baseCents, year + 1) == 1.05 * ExactPriceCents(baseCents, year)
  {
    InflationStep(year - BaseYear);
  }

  lemma ExactPriceNonNegative(baseCents: nat, year: int)
    ensures ExactPriceCents(baseCents, year) >= 0.0
  {
    ScaleMonotone(baseCents as real, 0.0, Inflation(year - BaseYear));
  }

  /** The unrounded price never falls from one year to a later one. */
  lemma {:induction false} ExactPriceMonotone(baseCents: nat, y1: int, y2: int)
    requires y1 < y2
    ensures ExactPriceCents(baseCents, y1) <= ExactPriceCents(baseCents, y2)
    decreases y2 - y1
  {
    ExactPriceStep(baseCents, y2 - 1);
    ExactPriceNonNegative(baseCents, y2 - 1);
    if y1 < y2 - 1 {
      ExactPriceMonotone(baseCents, y1, y2 - 1);
    }
  }

  /** Unit price in whole cents: the inflation-adjusted price rounded to the cent. */
  function UnitPriceCents(baseCents: nat, year: int): (c: int)
    ensures c as real - 0.5 <= ExactPriceCents(baseCents, year) < c as real + 0.5
  {
    RoundHalfUp(ExactPriceCents(baseCents, year))
  }

  /** In the base year the unit price is the catalogue price. */
  lemma UnitPriceAtBaseYear(baseCents: nat)
    ensures UnitPriceCents(baseCents, BaseYear) == baseCents
  {
    RoundHalfUpShift(0.0, baseCents);
  }

  /** For a fixed product the unit price never decreases from one year to a later one. */
  lemma UnitPriceNonDecreasing(baseCents: nat, y1: int, y2: int)
    requires y1 <= y2
    ensures UnitPriceCents(baseCents, y1) <= UnitPriceCents(baseCents, y2)
  {
    if y1 < y2 {
      ExactPriceMonotone(baseCents, y1, y2);
      RoundHalfUpMonotone(ExactPriceCents(baseCents, y1), ExactPriceCents(baseCents, y2));
    }
  }

  /** From the base year on, a product of at least 20 cents costs at least one
      cent more each year, so its rounded price rises strictly. */
  lemma UnitPriceIncreasing(baseCents: nat, year: int)
    requires baseCents >= 20 && year >= BaseYear
    ensures UnitPriceCents(baseCents, year) < UnitPriceCents(baseCents, year + 1)
  {
    var x := ExactPriceCents(baseCents, year);
    var f := Inflation(year - BaseYear);
    InflationStep(year - BaseYear);
    assert ExactPriceCents(baseCents, year + 1) == x + 0.05 * baseCents as real * f;
    assert 0.05 * baseCents as real * f >= 0.05 * baseCents as real * 1.0;
    RoundHalfUpShift(x, 1);
    RoundHalfUpMonotone(x + 1.0, ExactPriceCents(baseCents, year + 1));
  }

  /** From the base year on, the unit price is at least the catalogue price. */
  lemma UnitPriceAtLeastBase(baseCents: nat, year: int)
    requires year >= BaseYear
    ensures UnitPriceCents(baseCents, year) >= baseCents
  {
    UnitPriceNonDecreasing(baseCents, BaseYear, year);
    UnitPriceAtBaseYear(baseCents);
  }

  /** Line total in whole cents: unit price times quantity, rounded to the cent.
      On whole cents the rounding changes nothing. */
  function TotalCents(unitCents: int, quantity: int): (t: int)
    ensures t == unitCents * quantity
  {
    RoundHalfUp(unitCents as real * quantity as real)
  }

  // ---------------------------------------------------------------- rain, promotions

  /** Rainy season (April, May, October, November) has four times the chance of rain. */
  function RainProbability(month: int): (p: real)
    ensures p == 0.4 <==> month == 4 || month == 5 || month == 10 || month == 11
    ensures p == 0.1 || p == 0.4
  {
    if month == 4 || month == 5 || month == 10 || month == 11 then 0.4 else 0.1
  }

  /** Promotions are twice as likely on event days. */
  function PromoProbability(evento: string): (p: real)
    ensures p == 0.15 || p == 0.3
    ensures p == 0.3 <==> evento != NoEvent
  {
    if evento != NoEvent then 0.3 else 0.15
  }

  /** A Bernoulli outcome from a uniform draw `u` in [0, 1): true when `u`
      falls below `p`, so probability 0 never fires and probability 1 always does. */
  function Bernoulli(u: real, p: real): (r: bool)
    ensures 0.0 <= u && p <= 0.0 ==> !r
    ensures u < 1.0 && p >= 1.0 ==> r
  {
    u < p
  }

  /** A higher probability fires on every draw a lower one fires on. */
  lemma BernoulliMonotone(u: real, p1: real, p2: real)
    requires p1 <= p2
    ensures Bernoulli(u, p1) ==> Bernoulli(u, p2)
  {
  }

  /** For the same draw, a promotion on an ordinary day implies one on an event
      day, and rain outside the rainy season implies rain inside it. */
  lemma PromotionAndRainMonotone(u: real, evento: string, dry: int, wet: int)
    requires wet == 4 || wet == 5 || wet == 10 || wet == 11
    ensures Bernoulli(u, PromoProbability(NoEvent)) ==> Bernoulli(u, PromoProbability(evento))
    ensures Bernoulli(u, RainProbability(dry)) ==> Bernoulli(u, RainProbability(wet))
  {
    BernoulliMonotone(u, PromoProbability(NoEvent), PromoProbability(evento));
    BernoulliMonotone(u, RainProbability(dry), RainProbability(wet));
  }
}
