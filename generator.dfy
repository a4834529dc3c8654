/** The sales-row generator. For every day of the range, then every branch
    1..15 in ascending order, it appends as many sale lines as the branch's
    clamped daily count. Every random outcome is an input (`DayDraw`): with the
    draws fixed, the generated table is a function of them, and the lemmas
    below state what holds for every choice of draws. */
module Generator {
  import opened Calendar
  import opened Tables
  import opened Events
  import opened Demand

  // ---------------------------------------------------------------- injected draws

  /** The random outcomes consumed by one sale line. The Poisson sample is a
      function of the mean the generator asks for. */
  datatype LineDraw = LineDraw(
    categoryDraw: real,         // uniform in [0, 1), for the weighted category choice
    productDraw: nat,           // uniform index below the chosen category's size
    quantityDraw: real -> nat,  // Poisson sample of the base quantity, given its mean
    promoDraw: real)            // uniform, compared with the promotion probability

  /** The random outcomes of one branch on one day: the Poisson sample of its
      sales count, given its mean, and the draws of up to 25 lines. */
  datatype BranchDraw = BranchDraw(countDraw: real -> nat, lines: seq<LineDraw>)

  /** The random outcomes of one day: its temperature, the uniform draw that
      decides rain, and one `BranchDraw` per branch. */
  datatype DayDraw = DayDraw(temperature: real, rainDraw: real, branches: seq<BranchDraw>)

  predicate LineDrawOk(ld: LineDraw) {
    && 0.0 <= ld.categoryDraw < 1.0
    && ld.productDraw < |Catalogue(ChooseCategory(ld.categoryDraw))|
  }

  predicate BranchDrawOk(bd: BranchDraw) {
    && |bd.lines| >= MaxSalesPerBranch
    && forall k :: 0 <= k < |bd.lines| ==> LineDrawOk(bd.lines[k])
  }

  predicate DayDrawOk(dd: DayDraw) {
    && |dd.branches| == LastBranch
    && forall b :: 0 <= b < |dd.branches| ==> BranchDrawOk(dd.branches[b])
  }

  predicate DrawsOk(draws: seq<DayDraw>) {
    && |draws| == RangeLength
    && forall i :: 0 <= i < |draws| ==> DayDrawOk(draws[i])
  }

  // ---------------------------------------------------------------- the generated rows

  /** One generated sale line, one field per output column. Money in cents,
      the temperature in tenths of a degree, the two flags as booleans. */
  datatype Sale = Sale(
    fecha: Date,
    sucursalId: int,
    categoriaProducto: Category,
    nombreProducto: string,
    precioUnitarioCents: int,
    cantidadVendida: int,
    totalVentaCents: int,
    diaSemana: int,
    mes: int,
    promocionActiva: bool,
    eventoEspecial: string,
    temperaturaDecimas: int,
    lluvia: bool,
    zonaSucursal: Zone)

  /** What every generated line satisfies. */
  predicate ValidSale(s: Sale) {
    && s.sucursalId in BranchZones
    && s.zonaSucursal == BranchZones[s.sucursalId]
    && Valid(s.fecha) && !Before(s.fecha, RangeStart) && !Before(RangeEnd, s.fecha)
    && 1 <= s.diaSemana <= 7
    && s.mes == s.fecha.month && 1 <= s.mes <= 12
    && s.eventoEspecial == EventOn(EventCalendar(), s.fecha.month, s.fecha.day)
    && s.cantidadVendida >= 1
    && s.precioUnitarioCents > 0
    && s.totalVentaCents == s.precioUnitarioCents * s.cantidadVendida
  }

  /** Row order requested by the final sort: by date, then by branch id. */
  predicate KeyLe(a: Sale, b: Sale) {
    Before(a.fecha, b.fecha) || (a.fecha == b.fecha && a.sucursalId <= b.sucursalId)
  }

  predicate OrderedByDateBranch(s: seq<Sale>) {
    forall i, j :: 0 <= i < j < |s| ==> KeyLe(s[i], s[j])
  }

  // ---------------------------------------------------------------- specification

  /** What the generator derives once per day and shares across branches. */
  datatype Day = Day(fecha: Date, weekday: int, evento: string, temperature: real, lluvia: bool)

  predicate DayOk(day: Day) {
    && Valid(day.fecha) && !Before(day.fecha, RangeStart) && !Before(RangeEnd, day.fecha)
    && 0 <= day.weekday < 7
    && day.evento == EventOn(EventCalendar(), day.fecha.month, day.fecha.day)
  }

  /** The `i`-th day of the range with its day-level values. */
  function DayOf(i: nat, dd: DayDraw): (day: Day)
    requires i < RangeLength
    ensures DayOk(day) && day.fecha == DateRange()[i]
    ensures day.weekday == WeekdayAt(i)
    ensures day.temperature == dd.temperature
    ensures day.lluvia == Bernoulli(dd.rainDraw, RainProbability(day.fecha.month))
  {
    DateRangeBounds(i);
    var fecha := DateRange()[i];
    Day(fecha, WeekdayAt(i), EventOn(EventCalendar(), fecha.month, fecha.day),
        dd.temperature, Bernoulli(dd.rainDraw, RainProbability(fecha.month)))
  }

  /** The line a branch sells with draws `ld` on `day`. */
  function MakeSale(day: Day, sucursal: int, ld: LineDraw): (s: Sale)
    requires DayOk(day) && sucursal in BranchZones && LineDrawOk(ld)
    ensures ValidSale(s) && s.fecha == day.fecha && s.sucursalId == sucursal
    ensures s.categoriaProducto == ChooseCategory(ld.categoryDraw)
    ensures s.diaSemana == day.weekday + 1
    ensures s.nombreProducto == Catalogue(s.categoriaProducto)[ld.productDraw].name
    ensures s.precioUnitarioCents
            == UnitPriceCents(Catalogue(s.categoriaProducto)[ld.productDraw].basePriceCents, day.fecha.year)
    ensures s.cantidadVendida
            == QuantitySold(ld.quantityDraw(QuantityMean(s.categoriaProducto)), EventFactor(day.evento), day.temperature)
    ensures s.promocionActiva == Bernoulli(ld.promoDraw, PromoProbability(day.evento))
    ensures s.eventoEspecial == day.evento && s.lluvia == day.lluvia
    ensures s.temperaturaDecimas == RoundHalfUp(day.temperature * 10.0)
  {
    var categoria := ChooseCategory(ld.categoryDraw);
    var producto := Catalogue(categoria)[ld.productDraw];
    var precio := UnitPriceCents(producto.basePriceCents, day.fecha.year);
    UnitPriceAtLeastBase(producto.basePriceCents, day.fecha.year);
    var cantidad := QuantitySold(ld.quantityDraw(QuantityMean(categoria)), EventFactor(day.evento), day.temperature);
    Sale(day.fecha, sucursal, categoria, producto.name, precio, cantidad, TotalCents(precio, cantidad),
         day.weekday + 1, day.fecha.month, Bernoulli(ld.promoDraw, PromoProbability(day.evento)),
         day.evento, RoundHalfUp(day.temperature * 10.0), day.lluvia, BranchZones[sucursal])
  }

  /** The first `k` lines of a branch on a day. */
  function LinesSales(day: Day, sucursal: int, bd: BranchDraw, k: nat): (r: seq<Sale>)
    requires DayOk(day) && sucursal in BranchZones && BranchDrawOk(bd) && k <= MaxSalesPerBranch
    ensures |r| == k
    ensures forall j :: 0 <= j < k ==> r[j] == MakeSale(day, sucursal, bd.lines[j])
  {
    seq(k, j requires 0 <= j < k => MakeSale(day, sucursal, bd.lines[j]))
  }

  /** The mean of a branch's daily sales count on `day`. */
  function BranchMean(day: Day, sucursal: int): real
    requires sucursal in BranchZones
  {
    SalesMean(day.weekday, day.fecha.month, day.evento, BranchZones[sucursal])
  }

  /** Number of lines a branch sells on `day`: its sales-count draw, clamped. */
  function SalesCount(day: Day, sucursal: int, bd: BranchDraw): (n: int)
    requires sucursal in BranchZones
    ensures MinSalesPerBranch <= n <= MaxSalesPerBranch
  {
    ClampSales(bd.countDraw(BranchMean(day, sucursal)))
  }

  /** All lines of branch `sucursal` on `day`. */
  function BranchSales(day: Day, sucursal: int, bd: BranchDraw): (r: seq<Sale>)
    requires DayOk(day) && sucursal in BranchZones && BranchDrawOk(bd)
    ensures |r| == SalesCount(day, sucursal, bd)
    ensures forall k :: 0 <= k < |r| ==> r[k].fecha == day.fecha && r[k].sucursalId == sucursal
    ensures forall k :: 0 <= k < |r| ==> ValidSale(r[k])
  {
    LinesSales(day, sucursal, bd, SalesCount(day, sucursal, bd))
  }

  /** The lines of branches 1..`b` on `day`, branch by branch: all on that
      day, all of branches 1..`b`. */
  function BranchesSales(day: Day, dd: DayDraw, b: nat): (r: seq<Sale>)
    requires DayOk(day) && DayDrawOk(dd) && b <= LastBranch
    ensures forall k :: 0 <= k < |r| ==> r[k].fecha == day.fecha && FirstBranch <= r[k].sucursalId <= b
  {
    BranchDirectory(b);
    if b == 0 then []
    else BranchesSales(day, dd, b - 1) + BranchSales(day, b, dd.branches[b - 1])
  }

  /** The lines of the first `n` days of the range, day by day. */
  function Dataset(draws: seq<DayDraw>, n: nat): (r: seq<Sale>)
    requires DrawsOk(draws) && n <= RangeLength
  {
    if n == 0 then []
    else Dataset(draws, n - 1) + BranchesSales(DayOf(n - 1, draws[n - 1]), draws[n - 1], LastBranch)
  }

  // ---------------------------------------------------------------- the generator

  /** The nested generation loop: days in order, branches 1..15, then the
      branch's clamped number of lines, each appended to `datos`. */
  method GenerateSales(draws: seq<DayDraw>) returns (datos: seq<Sale>)
    requires DrawsOk(draws)
    ensures datos == Dataset(draws, RangeLength)
    ensures OrderedByDateBranch(datos)
    ensures forall k :: 0 <= k < |datos| ==> ValidSale(datos[k])
  {
    var fechas := DateRange();
    datos := [];
    var i := 0;
    while i < |fechas|
      invariant 0 <= i <= |fechas|
      invariant datos == Dataset(draws, i)
    {
      var fecha := fechas[i];
      var weekday := WeekdayAt(i);
      var evento := LookupEvent(EventCalendar(), fecha.month, fecha.day);
      var temperatura := draws[i].temperature;
      var lluvia := Bernoulli(draws[i].rainDraw, RainProbability(fecha.month));
      ghost var day := DayOf(i, draws[i]);
      assert day.fecha == fecha && day.weekday == weekday && day.evento == evento;
      ghost var before := datos;
      var sucursal := FirstBranch;
      while sucursal <= LastBranch
        invariant FirstBranch <= sucursal <= LastBranch + 1
        invariant datos == before + BranchesSales(day, draws[i], sucursal - 1)
      {
        BranchDirectory(sucursal);
        var zona := BranchZones[sucursal];
        var media := SalesMean(weekday, fecha.month, evento, zona);
        var bd := draws[i].branches[sucursal - 1];
        var numVentas := ClampSales(bd.countDraw(media));
        ghost var antes := datos;
        datos := AppendBranchLines(datos, day, fecha, weekday, evento, temperatura, lluvia, sucursal, zona, bd, numVentas);
        assert numVentas == SalesCount(day, sucursal, bd);
        assert datos == antes + BranchSales(day, sucursal, bd);
        BranchesSalesStep(day, draws[i], sucursal);
        AppendAssoc(before, BranchesSales(day, draws[i], sucursal - 1), BranchSales(day, sucursal, bd));
        sucursal := sucursal + 1;
      }
      DatasetStep(draws, i + 1);
      i := i + 1;
    }
    DatasetOrderedValid(draws, RangeLength);
  }

  /** The innermost loop of the generator: appends `numVentas` lines of branch
      `sucursal` to `datos`, one per line draw. */
  method AppendBranchLines(datos: seq<Sale>, ghost day: Day, fecha: Date, weekday: int, evento: string,
                           temperatura: real, lluvia: bool, sucursal: int, zona: Zone,
                           bd: BranchDraw, numVentas: int)
    returns (result: seq<Sale>)
    requires DayOk(day) && day == Day(fecha, weekday, evento, temperatura, lluvia)
    requires sucursal in BranchZones && zona == BranchZones[sucursal]
    requires BranchDrawOk(bd) && 0 <= numVentas <= MaxSalesPerBranch
    ensures result == datos + LinesSales(day, sucursal, bd, numVentas)
  {
    result := datos;
    var factorEvento := EventFactor(evento);
    var k := 0;
    while k < numVentas
      invariant 0 <= k <= numVentas
      invariant result == datos + LinesSales(day, sucursal, bd, k)
    {
      var ld := bd.lines[k];
      var categoria := ChooseCategory(ld.categoryDraw);
      var producto := Catalogue(categoria)[ld.productDraw];
      var precio := UnitPriceCents(producto.basePriceCents, fecha.year);
      var cantidadBase := ld.quantityDraw(QuantityMean(categoria));
      var cantidad := QuantitySold(cantidadBase, factorEvento, temperatura);
      var promocion := Bernoulli(ld.promoDraw, PromoProbability(evento));
      var registro := Sale(fecha, sucursal, categoria, producto.name, precio, cantidad,
                           TotalCents(precio, cantidad), weekday + 1, fecha.month, promocion,
                           evento, RoundHalfUp(temperatura * 10.0), lluvia, zona);
      assert registro == MakeSale(day, sucursal, ld);
      LinesSalesStep(day, sucursal, bd, k);
      result := result + [registro];
      k := k + 1;
    }
  }

  lemma AppendAssoc(a: seq<Sale>, b: seq<Sale>, c: seq<Sale>)
    ensures (a + b) + c == a + (b + c)
  {
  }

  /** Appending one line extends the prefix of a branch's lines. */
  lemma LinesSalesStep(day: Day, sucursal: int, bd: BranchDraw, k: nat)
    requires DayOk(day) && sucursal in BranchZones && BranchDrawOk(bd) && k < MaxSalesPerBranch
    ensures LinesSales(day, sucursal, bd, k + 1)
            == LinesSales(day, sucursal, bd, k) + [MakeSale(day, sucursal, bd.lines[k])]
  {
    var longer := LinesSales(day, sucursal, bd, k + 1);
    var shorter := LinesSales(day, sucursal, bd, k);
    var appended := shorter + [MakeSale(day, sucursal, bd.lines[k])];
    forall j | 0 <= j < k + 1
      ensures longer[j] == appended[j]
    {
      if j < k {
        assert appended[j] == shorter[j];
      }
    }
    assert longer == appended;
  }

  lemma BranchesSalesStep(day: Day, dd: DayDraw, b: int)
    requires DayOk(day) && DayDrawOk(dd) && FirstBranch <= b <= LastBranch
    ensures b in BranchZones
    ensures BranchesSales(day, dd, b)
            == BranchesSales(day, dd, b - 1) + BranchSales(day, b, dd.branches[b - 1])
  {
    BranchDirectory(b);
  }

  lemma DatasetStep(draws: seq<DayDraw>, n: nat)
    requires DrawsOk(draws) && 0 < n <= RangeLength
    ensures Dataset(draws, n)
            == Dataset(draws, n - 1) + BranchesSales(DayOf(n - 1, draws[n - 1]), draws[n - 1], LastBranch)
  {
  }

  // ---------------------------------------------------------------- ordering

  /** Two ordered runs stay ordered when every row of the first comes no later
      than every row of the second. */
  lemma OrderedAppend(a: seq<Sale>, c: seq<Sale>)
    requires OrderedByDateBranch(a) && OrderedByDateBranch(c)
    requires forall x, y :: 0 <= x < |a| && 0 <= y < |c| ==> KeyLe(a[x], c[y])
    ensures OrderedByDateBranch(a + c)
  {
    var s := a + c;
    forall i, j | 0 <= i < j < |s|
      ensures KeyLe(s[i], s[j])
    {
      if j < |a| {
        assert s[i] == a[i] && s[j] == a[j];
      } else if i >= |a| {
        assert s[i] == c[i - |a|] && s[j] == c[j - |a|];
      } else {
        assert s[i] == a[i] && s[j] == c[j - |a|];
      }
    }
  }

  /** One day's lines come in ascending branch order and are all valid. */
  lemma {:induction false} BranchesSalesOrderedValid(day: Day, dd: DayDraw, b: nat)
    requires DayOk(day) && DayDrawOk(dd) && b <= LastBranch
    ensures OrderedByDateBranch(BranchesSales(day, dd, b))
    ensures forall k :: 0 <= k < |BranchesSales(day, dd, b)| ==> ValidSale(BranchesSales(day, dd, b)[k])
  {
    if b > 0 {
      BranchesSalesStep(day, dd, b);
      BranchesSalesOrderedValid(day, dd, b - 1);
      var prev := BranchesSales(day, dd, b - 1);
      var cur := BranchSales(day, b, dd.branches[b - 1]);
      OrderedAppend(prev, cur);
      var r := prev + cur;
      forall k | 0 <= k < |r|
        ensures ValidSale(r[k])
      {
        if k < |prev| {
          assert r[k] == prev[k];
        } else {
          assert r[k] == cur[k - |prev|];
        }
      }
    }
  }

  /** The lines of the first `n` days are ordered by date, then branch, and
      all valid. */
  lemma {:induction false} DatasetOrderedValid(draws: seq<DayDraw>, n: nat)
    requires DrawsOk(draws) && n <= RangeLength
    ensures OrderedByDateBranch(Dataset(draws, n))
    ensures forall k :: 0 <= k < |Dataset(draws, n)| ==> ValidSale(Dataset(draws, n)[k])
  {
    if n > 0 {
      DatasetStep(draws, n);
      DatasetOrderedValid(draws, n - 1);
      if n > 1 {
        DatasetNotAfter(draws, n - 1);
      }
      var prev := Dataset(draws, n - 1);
      var day := DayOf(n - 1, draws[n - 1]);
      var cur := BranchesSales(day, draws[n - 1], LastBranch);
      BranchesSalesOrderedValid(day, draws[n - 1], LastBranch);
      ConsecutiveDays(n);
      OrderedAppend(prev, cur);
      var r := prev + cur;
      forall k | 0 <= k < |r|
        ensures ValidSale(r[k])
      {
        if k < |prev| {
          assert r[k] == prev[k];
        } else {
          assert r[k] == cur[k - |prev|];
        }
      }
    }
  }

  /** No line of the first `n` days is later than the `n`-th day. */
  lemma {:induction false} DatasetNotAfter(draws: seq<DayDraw>, n: nat)
    requires DrawsOk(draws) && 0 < n <= RangeLength
    ensures forall k :: 0 <= k < |Dataset(draws, n)| ==> !Before(DateRange()[n - 1], Dataset(draws, n)[k].fecha)
  {
    DatasetStep(draws, n);
    var prev := Dataset(draws, n - 1);
    var cur := BranchesSales(DayOf(n - 1, draws[n - 1]), draws[n - 1], LastBranch);
    var r := prev + cur;
    if n > 1 {
      DatasetNotAfter(draws, n - 1);
      ConsecutiveDays(n);
    }
    forall k | 0 <= k < |r|
      ensures !Before(DateRange()[n - 1], r[k].fecha)
    {
      if k < |prev| {
        assert r[k] == prev[k];
      } else {
        assert r[k] == cur[k - |prev|];
      }
    }
  }

  lemma ConsecutiveDays(n: nat)
    requires 0 < n <= RangeLength
    ensures n > 1 ==> Before(DateRange()[n - 2], DateRange()[n - 1])
  {
    if n > 1 {
      DaysFromIncreasing(RangeStart, RangeLength, n - 2, n - 1);
    }
  }

  // ---------------------------------------------------------------- lines per branch and day

  /** Number of rows of `s` for branch `b` on day `d`. */
  function CountAt(s: seq<Sale>, d: Date, b: int): nat
  {
    if s == [] then 0
    else CountAt(s[..|s| - 1], d, b) + (if s[|s| - 1].fecha == d && s[|s| - 1].sucursalId == b then 1 else 0)
  }

  lemma {:induction false} CountAppend(a: seq<Sale>, c: seq<Sale>, d: Date, b: int)
    ensures CountAt(a + c, d, b) == CountAt(a, d, b) + CountAt(c, d, b)
    decreases |c|
  {
    if c != [] {
      var init := c[..|c| - 1];
      assert (a + c)[..|a + c| - 1] == a + init;
      assert (a + c)[|a + c| - 1] == c[|c| - 1];
      CountAppend(a, init, d, b);
    } else {
      assert a + c == a;
    }
  }

  lemma {:induction false} CountAll(s: seq<Sale>, d: Date, b: int)
    requires forall k :: 0 <= k < |s| ==> s[k].fecha == d && s[k].sucursalId == b
    ensures CountAt(s, d, b) == |s|
  {
    if s != [] {
      CountAll(s[..|s| - 1], d, b);
    }
  }

  lemma {:induction false} CountNone(s: seq<Sale>, d: Date, b: int)
    requires forall k :: 0 <= k < |s| ==> s[k].fecha != d || s[k].sucursalId != b
    ensures CountAt(s, d, b) == 0
  {
    if s != [] {
      CountNone(s[..|s| - 1], d, b);
    }
  }

  /** The rows of consecutive blocks, one block after the other. */
  function Concat(blocks: seq<seq<Sale>>): seq<Sale>
  {
    if blocks == [] then [] else Concat(blocks[..|blocks| - 1]) + blocks[|blocks| - 1]
  }

  lemma {:induction false} CountConcatNone(blocks: seq<seq<Sale>>, d: Date, b: int)
    requires forall j :: 0 <= j < |blocks| ==> CountAt(blocks[j], d, b) == 0
    ensures CountAt(Concat(blocks), d, b) == 0
  {
    if blocks != [] {
      var init := blocks[..|blocks| - 1];
      CountAppend(Concat(init), blocks[|blocks| - 1], d, b);
      CountConcatNone(init, d, b);
    }
  }

  /** When only block `i` holds rows of (`d`, `b`), the whole holds as many as it. */
  lemma {:induction false} CountConcat(blocks: seq<seq<Sale>>, d: Date, b: int, i: int)
    requires 0 <= i < |blocks|
    requires forall j :: 0 <= j < |blocks| && j != i ==> CountAt(blocks[j], d, b) == 0
    ensures CountAt(Concat(blocks), d, b) == CountAt(blocks[i], d, b)
  {
    var init := blocks[..|blocks| - 1];
    CountAppend(Concat(init), blocks[|blocks| - 1], d, b);
    if i == |blocks| - 1 {
      CountConcatNone(init, d, b);
    } else {
      CountConcat(init, d, b, i);
    }
  }

  /** The lines of each branch of a day, branch 1 first. */
  function BranchBlocks(day: Day, dd: DayDraw, n: nat): (r: seq<seq<Sale>>)
    requires DayOk(day) && DayDrawOk(dd) && n <= LastBranch
    ensures |r| == n
    ensures forall k :: 0 <= k < n ==> k + 1 in BranchZones && |r[k]| == SalesCount(day, k + 1, dd.branches[k])
    ensures forall k, m :: 0 <= k < n && 0 <= m < |r[k]| ==> r[k][m].fecha == day.fecha && r[k][m].sucursalId == k + 1
  {
    seq(n, k requires 0 <= k < n => BranchDirectory(k + 1); BranchSales(day, k + 1, dd.branches[k]))
  }

  lemma {:induction false} BranchesSalesIsConcat(day: Day, dd: DayDraw, n: nat)
    requires DayOk(day) && DayDrawOk(dd) && n <= LastBranch
    ensures BranchesSales(day, dd, n) == Concat(BranchBlocks(day, dd, n))
  {
    if n > 0 {
      BranchesSalesStep(day, dd, n);
      BranchesSalesIsConcat(day, dd, n - 1);
      assert BranchBlocks(day, dd, n)[..n - 1] == BranchBlocks(day, dd, n - 1);
    }
  }

  /** The lines of each day of the first `n`, in order. */
  function DayBlocks(draws: seq<DayDraw>, n: nat): (r: seq<seq<Sale>>)
    requires DrawsOk(draws) && n <= RangeLength
    ensures |r| == n
  {
    seq(n, j requires 0 <= j < n => BranchesSales(DayOf(j, draws[j]), draws[j], LastBranch))
  }

  lemma {:induction false} DatasetIsConcat(draws: seq<DayDraw>, n: nat)
    requires DrawsOk(draws) && n <= RangeLength
    ensures Dataset(draws, n) == Concat(DayBlocks(draws, n))
  {
    if n > 0 {
      DatasetStep(draws, n);
      DatasetIsConcat(draws, n - 1);
      assert DayBlocks(draws, n)[..n - 1] == DayBlocks(draws, n - 1);
    }
  }

  /** A day's lines hold, for branch `b`, exactly that branch's clamped count. */
  lemma CountBranches(day: Day, dd: DayDraw, n: nat, b: int)
    requires DayOk(day) && DayDrawOk(dd) && n <= LastBranch && FirstBranch <= b <= n
    ensures b in BranchZones
    ensures CountAt(BranchesSales(day, dd, n), day.fecha, b) == SalesCount(day, b, dd.branches[b - 1])
  {
    BranchDirectory(b);
    BranchesSalesIsConcat(day, dd, n);
    var blocks := BranchBlocks(day, dd, n);
    forall j | 0 <= j < |blocks| && j != b - 1
      ensures CountAt(blocks[j], day.fecha, b) == 0
    {
      CountNone(blocks[j], day.fecha, b);
    }
    CountAll(blocks[b - 1], day.fecha, b);
    CountConcat(blocks, day.fecha, b, b - 1);
  }

  /** A day's lines hold none of another day's. */
  lemma CountOtherDay(draws: seq<DayDraw>, j: nat, i: nat, b: int)
    requires DrawsOk(draws) && j < RangeLength && i < RangeLength && i != j
    ensures CountAt(BranchesSales(DayOf(j, draws[j]), draws[j], LastBranch), DateRange()[i], b) == 0
  {
    if i < j {
      DaysFromIncreasing(RangeStart, RangeLength, i, j);
    } else {
      DaysFromIncreasing(RangeStart, RangeLength, j, i);
    }
    CountNone(BranchesSales(DayOf(j, draws[j]), draws[j], LastBranch), DateRange()[i], b);
  }

  /** The row-count rule: on every day of the range every branch 1..15 has
      exactly its sales-count draw clamped to [1, 25] lines. */
  lemma SalesPerBranchDay(draws: seq<DayDraw>, i: nat, b: int)
    requires DrawsOk(draws) && i < RangeLength && FirstBranch <= b <= LastBranch
    ensures b in BranchZones
    ensures CountAt(Dataset(draws, RangeLength), DateRange()[i], b)
            == ClampSales(draws[i].branches[b - 1].countDraw(BranchMean(DayOf(i, draws[i]), b)))
    ensures MinSalesPerBranch <= CountAt(Dataset(draws, RangeLength), DateRange()[i], b) <= MaxSalesPerBranch
  {
    DatasetIsConcat(draws, RangeLength);
    var blocks := DayBlocks(draws, RangeLength);
    forall j | 0 <= j < |blocks| && j != i
      ensures CountAt(blocks[j], DateRange()[i], b) == 0
    {
      CountOtherDay(draws, j, i, b);
    }
    CountConcat(blocks, DateRange()[i], b, i);
    CountBranches(DayOf(i, draws[i]), draws[i], LastBranch, b);
  }

  /** Every row belongs to one of the (day, branch) pairs the loop visits. */
  lemma RowsFromVisitedPairs(draws: seq<DayDraw>, k: nat)
    requires DrawsOk(draws) && k < |Dataset(draws, RangeLength)|
    ensures FirstBranch <= Dataset(draws, RangeLength)[k].sucursalId <= LastBranch
    ensures exists i :: 0 <= i < RangeLength && DateRange()[i] == Dataset(draws, RangeLength)[k].fecha
  {
    var s := Dataset(draws, RangeLength)[k];
    DatasetOrderedValid(draws, RangeLength);
    BranchDirectory(s.sucursalId);
    DateRangeCovers(s.fecha);
  }

  /** A positive count of (`d`, `b`) rows means some row carries that date and branch. */
  lemma {:induction false} CountPositiveHasRow(s: seq<Sale>, d: Date, b: int)
    requires CountAt(s, d, b) > 0
    ensures exists k :: 0 <= k < |s| && s[k].fecha == d && s[k].sucursalId == b
  {
    var last := |s| - 1;
    if !(s[last].fecha == d && s[last].sucursalId == b) {
      CountPositiveHasRow(s[..last], d, b);
      var k :| 0 <= k < last && s[..last][k].fecha == d && s[..last][k].sucursalId == b;
      assert s[k] == s[..last][k];
    }
  }

  /** No day goes missing: every day of the range has rows of every branch 1..15. */
  lemma DateCoverage(draws: seq<DayDraw>, i: nat, b: int)
    requires DrawsOk(draws) && i < RangeLength && FirstBranch <= b <= LastBranch
    ensures exists k :: 0 <= k < |Dataset(draws, RangeLength)|
                        && Dataset(draws, RangeLength)[k].fecha == DateRange()[i]
                        && Dataset(draws, RangeLength)[k].sucursalId == b
  {
    SalesPerBranchDay(draws, i, b);
    CountPositiveHasRow(Dataset(draws, RangeLength), DateRange()[i], b);
  }

  // ---------------------------------------------------------------- a worked day

  /** 2022-12-25 is day 358 of the range, and no other: a Sunday tagged
      "Navidad". For branch 13, in Centro, the mean of that day's sales count is
      8 × 1.2 × 1.5 × 2 × 1.3 = 37.44, against 8 × 1.3 = 10.4 on an April
      weekday without an event. */
  lemma ChristmasScenario(dd: DayDraw, i: nat)
    requires i < RangeLength && DateRange()[i] == Date(2022, 12, 25)
    ensures i == 358
    ensures DayOf(i, dd).weekday == 6
    ensures DayOf(i, dd).evento == "Navidad"
    ensures 13 in BranchZones && BranchZones[13] == Centro
    ensures BranchMean(DayOf(i, dd), 13) == 37.44
    ensures forall w :: 0 <= w <= 3 ==> SalesMean(w, 4, NoEvent, Centro) == 10.4
  {
    DayOf2022Unique(i, 12, 24);
    CalendarLookup(12, 25, 6);
    var day := DayOf(i, dd);
    assert day.weekday == WeekdayAt(i) == 6;
    assert day.fecha.month == 12 && day.evento == "Navidad";
    assert SalesMean(6, 12, "Navidad", Centro) == 8.0 * 1.2 * 1.5 * 2.0 * 1.3;
  }
}
