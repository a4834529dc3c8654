# Liquor-store sales dataset generator, modelled in Dafny

The generator `generar_dataset_ventas` (scripts/script_generar_dataset.py)
builds a synthetic sales table for a liquor-store chain. It has 15 branches
in five zones, a catalogue of four product categories, and a calendar of
special events. It walks every day from 2022-01-01 to 2024-12-31. For each
day it:

- tags the day with a special event, or "Ninguno";
- derives a weekday, month and event multiplier, a temperature and a rain flag.

Then, for branches 1 to 15 in order, it draws a Poisson count of sales with
mean 8 × weekday × month × event × zone multiplier. It clamps that count into
[1, 25] and appends one record per sale. Each record holds:

- a category, chosen by weight;
- a product, chosen uniformly within the category;
- a price, inflated 5% a year from 2022 and rounded to the cent;
- a quantity, a Poisson draw scaled by the event and hot-day multipliers,
  truncated, and at least 1;
- a promotion flag and a line total.

The model is split into five modules:

- `Calendar`: the dates, a day-by-day counter that stands in for the date
  range, and weekdays numbered Monday = 0.
- `Tables`: the catalogue, the branch-to-zone directory and the event
  calendar, with prices in whole cents.
- `Events`: the event lookup, as a method with the source's nested loops and
  inner `break`, proved against a recursive specification.
- `Demand`: the multipliers, the count clamp, the category choice, the
  quantity rule, the prices and the probabilities.
- `Generator`: the nested generation loop (`GenerateSales`). It is proved
  equal to a recursive specification (`Dataset`). Lemmas about that
  specification give the row order, the validity of every row and the
  number of rows per branch and day.

Every random outcome is an input. A `DayDraw` carries:

- the day's temperature and its rain draw;
- for each branch, a Poisson sampler for the sales count, as a function of
  the mean the code asks for;
- for each line, the category draw in [0, 1), the product index, a Poisson
  sampler for the base quantity and the promotion draw.

The properties below therefore hold for every outcome of the random draws.

The event scan's `break` leaves only the inner loop over an event's dates.
The outer loop goes on, so when a day is listed under two events the
LATER-declared event is recorded. The model keeps this last-match rule. It
defines the first-match reading beside it and proves that the two agree
whenever no day is listed twice. It also proves that the shipped calendar
lists no day twice. On this calendar, then, the choice of rule changes no tag.

## Model

| member | source | states |
|---|---|---|
| Tables.Catalogue | scripts/script_generar_dataset.py:18-39 | every category lists at least one product, and every base price is at least 2.50 (250 cents) |
| Tables.BranchDirectory | scripts/script_generar_dataset.py:42-48 | exactly the ids 1..15 have a zone; ids 1-3, 4-6, 7-9, 10-12 and 13-15 are Norte, Sur, Este, Oeste and Centro |
| Events.CalendarIsUnambiguous | scripts/script_generar_dataset.py:51-59 | no (month, day) is listed under two events, and no event is named "Ninguno" |
| Events.LookupEvent | scripts/script_generar_dataset.py:72-77 | the nested scan with its inner break returns the last event in declaration order that lists the day's (month, day), or "Ninguno" |
| Events.NoEventIff | scripts/script_generar_dataset.py:72-77 | the tag is "Ninguno" if and only if no event lists the day |
| Events.LastMatchWins | scripts/script_generar_dataset.py:73-77 | if event k lists the day and no later event does, event k's name is recorded |
| Events.RecordedEventMatches | scripts/script_generar_dataset.py:73-76 | a recorded tag other than "Ninguno" is the name of an event that lists the day |
| Events.FirstMatchWins | scripts/script_generar_dataset.py:73-77 | the reference first-match reading picks the first event that lists the day |
| Events.NoMatchGivesNone | scripts/script_generar_dataset.py:72 | with no listing event, both readings give "Ninguno" |
| Events.FirstAndLastAgree | scripts/script_generar_dataset.py:73-77 | when no day is listed twice, first-match and last-match give the same tag for every day |
| Events.CalendarLookup | scripts/script_generar_dataset.py:51-59 | on the shipped calendar a day listed by event k is tagged with event k's name under either reading |
| Calendar.NextDay | scripts/script_generar_dataset.py:64 | the daily step yields a valid date strictly after its argument |
| Calendar.NextDayIsNext | scripts/script_generar_dataset.py:64 | no valid date lies strictly between a date and the next step |
| Calendar.DateRange | scripts/script_generar_dataset.py:62-64 | the range has 1096 days |
| Calendar.RangeEnds | scripts/script_generar_dataset.py:62-64 | the range starts on 2022-01-01 and its last day is 2024-12-31 |
| Calendar.DaysFromIncreasing | scripts/script_generar_dataset.py:64 | every later day of the range is strictly later, so no day repeats |
| Calendar.DateRangeBounds | scripts/script_generar_dataset.py:62-64 | every day of the range is valid and lies between its two ends |
| Calendar.DateRangeCovers | scripts/script_generar_dataset.py:62-64 | every valid date from 2022-01-01 to 2024-12-31 is in the range |
| Calendar.WeekdayAt | scripts/script_generar_dataset.py:82-87 | the weekday of the i-th day, counted from a Saturday, is in 0..6 |
| Calendar.DayOf2022Unique | scripts/script_generar_dataset.py:62-64 | a day of 2022 appears in the range only at its offset from January 1st |
| Demand.DayOfWeekFactor | scripts/script_generar_dataset.py:81-87 | the multiplier lies in [1, 1.6]; it exceeds 1 exactly on Friday to Sunday and is 1.6 exactly on Saturday |
| Demand.MonthFactor | scripts/script_generar_dataset.py:90-94 | the multiplier lies in [1, 1.5]; it exceeds 1 exactly in December and June to August and is 1.5 exactly in December |
| Demand.EventFactor | scripts/script_generar_dataset.py:97 | the multiplier is 1 or 2, and 2 exactly on an event day |
| Demand.ZoneFactor | scripts/script_generar_dataset.py:115-119 | the multiplier lies in [1, 1.3]; it exceeds 1 exactly in Centro and Norte and is 1.3 exactly in Centro |
| Demand.SalesMean | scripts/script_generar_dataset.py:122 | the Poisson mean of a branch's sales count, 8 × the four multipliers, lies between 8 and 8 × 1.6 × 1.5 × 2 × 1.3 = 49.92 |
| Demand.SalesMeanEventRaises | scripts/script_generar_dataset.py:97-122 | on an event day the mean is exactly twice the mean of the same day without an event |
| Demand.ClampSales | scripts/script_generar_dataset.py:123 | the count lies in [1, 25]; a draw inside that range is kept, a draw below it gives 1 and a draw above it gives 25 |
| Demand.ChooseCategory | scripts/script_generar_dataset.py:128-135 | a uniform draw u selects the category whose cumulative-weight slice [before, before + weight) contains u |
| Demand.CategoryWeightsPartition | scripts/script_generar_dataset.py:128-133 | the category weights are positive and their slices cover [0, 1) exactly |
| Demand.QuantityMean | scripts/script_generar_dataset.py:147-154 | the Poisson mean of the base quantity is positive for every category |
| Demand.Truncate | scripts/script_generar_dataset.py:157 | the conversion to an integer truncates toward zero, for both signs |
| Demand.TemperatureFactor | scripts/script_generar_dataset.py:158 | the multiplier is 1.2 exactly above 28 degrees and 1.0 otherwise |
| Demand.QuantitySold | scripts/script_generar_dataset.py:157-158 | the quantity is at least 1; it equals the truncated scaled base whenever that is at least 1, and is 1 whenever that is below 1 |
| Demand.QuantityAtLeastBase | scripts/script_generar_dataset.py:157-158 | with an event multiplier of at least 1, the quantity is never below the base quantity |
| Demand.QuantityMonotoneInEvent | scripts/script_generar_dataset.py:157-158 | an event day never sells fewer units than the same draw on an ordinary day |
| Demand.Inflation | scripts/script_generar_dataset.py:142-143 | 1.05 to an integer power is positive, and at least 1 for non-negative powers |
| Demand.InflationIncreasing | scripts/script_generar_dataset.py:142-143 | the inflation multiplier grows strictly with the number of years |
| Demand.ExactPriceMonotone | scripts/script_generar_dataset.py:142-143 | the unrounded price never falls from one year to a later one |
| Demand.RoundHalfUp | scripts/script_generar_dataset.py:144 | the result is the integer nearest to x, halves going up |
| Demand.UnitPriceCents | scripts/script_generar_dataset.py:142-144 | the unit price is within half a cent of base × 1.05^(year − 2022) |
| Demand.UnitPriceAtBaseYear | scripts/script_generar_dataset.py:142-144 | in 2022 the unit price equals the catalogue price |
| Demand.UnitPriceNonDecreasing | scripts/script_generar_dataset.py:142-144 | for a fixed product the unit price never decreases from one year to a later one |
| Demand.UnitPriceIncreasing | scripts/script_generar_dataset.py:142-144 | from 2022 on, a product of at least 20 cents costs strictly more each year |
| Demand.UnitPriceAtLeastBase | scripts/script_generar_dataset.py:142-144 | from 2022 on, the unit price is never below the catalogue price |
| Demand.TotalCents | scripts/script_generar_dataset.py:164-174 | the rounded line total is exactly unit price × quantity in cents |
| Demand.RainProbability | scripts/script_generar_dataset.py:105-107 | the rain probability is 0.4 exactly in April, May, October and November, and 0.1 otherwise |
| Demand.PromoProbability | scripts/script_generar_dataset.py:161 | the promotion probability is 0.3 exactly on event days, and 0.15 otherwise |
| Demand.Bernoulli | scripts/script_generar_dataset.py:108 | a uniform draw in [0, 1) compared with a probability never fires at probability 0 and always fires at probability 1 |
| Demand.BernoulliMonotone | scripts/script_generar_dataset.py:108 | a higher probability fires on every draw a lower one fires on |
| Demand.PromotionAndRainMonotone | scripts/script_generar_dataset.py:105-162 | for the same draw, a promotion on an ordinary day implies one on an event day, and rain outside April, May, October and November implies rain in those months |
| Generator.DayOf | scripts/script_generar_dataset.py:70-108 | the day values of the i-th day: its date is the i-th of the range, valid and within the range; its weekday is WeekdayAt(i); its tag is the calendar lookup; its temperature is the day's draw; its rain flag is the day's rain draw against the month's rain probability |
| Generator.MakeSale | scripts/script_generar_dataset.py:127-182 | a record is valid (zone of its branch, date in range, dia_semana in 1..7, mes = month in 1..12, event tag of its date, quantity ≥ 1, price > 0, total = price × quantity); its category is the weighted choice, its product and price come from that category's catalogue entry, dia_semana = weekday + 1, its quantity is QuantitySold of the category's Poisson base draw with the day's event multiplier and temperature, its promotion flag is the promotion draw against the day's promotion probability, and the event, rain and temperature columns are the day's |
| Generator.SalesCount | scripts/script_generar_dataset.py:121-123 | a branch's number of lines on a day lies in [1, 25] |
| Generator.BranchSales | scripts/script_generar_dataset.py:125-184 | a branch's lines number its sales count, all carry that day and that branch, and all are valid |
| Generator.BranchesSales | scripts/script_generar_dataset.py:111-184 | the lines of branches 1..b on a day all carry that day and a branch id in 1..b |
| Generator.AppendBranchLines | scripts/script_generar_dataset.py:126-184 | the innermost loop appends exactly the branch's lines, in draw order, to the table |
| Generator.GenerateSales | scripts/script_generar_dataset.py:66-184 | the nested loop over days, then branches, then lines produces exactly the specified table; it is ordered by (date, branch) and every row is valid |
| Generator.BranchesSalesOrderedValid | scripts/script_generar_dataset.py:111-184 | a day's lines are ordered by branch id and all valid |
| Generator.DatasetNotAfter | scripts/script_generar_dataset.py:70-184 | no line of the first n days is dated after the n-th day |
| Generator.DatasetOrderedValid | scripts/script_generar_dataset.py:189-190 | the appended rows are already in (date, branch) order, the order the final sort asks for, and all are valid |
| Generator.CountBranches | scripts/script_generar_dataset.py:111-126 | on a day, branch b has exactly its clamped count of lines |
| Generator.SalesPerBranchDay | scripts/script_generar_dataset.py:121-126 | in the whole table, every branch 1..15 has, on every day of the range, exactly ClampSales(Poisson draw at its mean) lines, between 1 and 25 |
| Generator.DateCoverage | scripts/script_generar_dataset.py:70-184 | no day goes missing: every day of the range has at least one row of every branch 1..15 |
| Generator.RowsFromVisitedPairs | scripts/script_generar_dataset.py:70-111 | every row's branch is in 1..15 and its date is a day of the range |
| Generator.ChristmasScenario | scripts/script_generar_dataset.py:79-122 | 2022-12-25 is day 358 of the range and no other; it is a Sunday tagged "Navidad", and the mean of branch 13 (Centro) on it is 37.44, against 10.4 on an April weekday without an event |

## Left out

- Random number generation and seeding (lines 14-15) are not modelled. Every
  draw is an input, and the Poisson, normal and uniform distributions are not
  modelled. The order in which numpy and `random` consume their streams is not
  modelled either. Each branch's input holds at least 25 line draws, of which
  the first `ClampSales(n)` are used.
- The temperature formula (lines 99-102: 24 + 3·sin(2π·month/12) + normal
  noise) is not modelled. The temperature is an input of the day.
- Demand.UnitPriceCents: rounds the exact value half up. The source rounds a
  binary double with Python's half-to-even `round`, so on a tie or near-tie
  the cent can differ by one.
- Demand.TotalCents: multiplies exact cents. The source multiplies doubles and
  rounds the result to two decimals.
- Demand.QuantitySold: scales and truncates exact reals. The source truncates
  a double product, which can fall just below a whole number the exact
  product reaches.
- The temperature column is kept in tenths of a degree, rounded half up. The
  source uses `round(x, 1)` on a double.
- Dates are `Date` values rather than "YYYY-MM-DD" strings. Money is in whole
  cents. The promotion and rain flags are booleans rather than 0/1. The
  category "Bebidas_Preparadas" is the constructor `BebidasPreparadas`.
- Building the DataFrame and the final sort (lines 186-190) are not modelled.
  The model proves instead that the appended rows are already in
  (fecha, sucursal_id) order. A sort by those two keys can only reorder lines
  that share both a date and a branch.
- The progress and summary `print` calls (lines 68 and 192-196), `main` and
  the CSV export after line 198 are I/O and are not modelled.
