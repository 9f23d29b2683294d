/**
 * The pricing engine of the print-job form: from the cost configuration,
 * the filament catalog and the job inputs it computes the itemized cost
 * lines, the total, the total with the error margin, and the sale price in
 * US dollars and in Uruguayan pesos.
 *
 * Monetary arithmetic is over `real`; form fields arrive already parsed,
 * with a blank field as `None`.
 */
module Pricing {
  import opened Wrappers
  import opened Catalog

  /** The form always offers this many (filament, weight) pairs. */
  const SlotCount: nat := 5

  /** Filament prices are per kilogram, weights are in grams. */
  const GramsPerKilogram: real := 1000.0

  /** Monthly overheads are spread over 30 days of 24 hours. */
  const DaysPerMonth: real := 30.0
  const HoursPerDay: real := 24.0

  /**
   * The cost configuration. `errorMargin` and `usdToUyi` are the two keys the
   * engine reads with a `|| 0` default, so they may be unset.
   */
  datatype Config = Config(
    kwhPrice: real,
    printerConsumption: real,
    designCostPerHour: real,
    laborCostPerHour: real,
    printCostPerHour: real,
    maintenanceMonthly: real,
    extrasMonthly: real,
    errorMargin: Option<real>,
    usdToUyi: Option<real>)

  /**
   * One (filament, weight) pair of the job form: `selection` is the catalog
   * position chosen in the drop-down, `None` for "-- Seleccionar --".
   */
  datatype Slot = Slot(selection: Option<nat>, weight: Option<real>)

  /** The print-job form: hours, flat costs, the profit percentage and the filament slots. */
  datatype Job = Job(
    design: Option<real>,
    labor: Option<real>,
    printing: Option<real>,
    packaging: Option<real>,
    extra: Option<real>,
    profit: Option<real>,
    slots: seq<Slot>)

  /** Everything the breakdown panel shows, at full precision. */
  datatype Breakdown = Breakdown(
    electricity: real,
    designCost: real,
    laborCost: real,
    printCost: real,
    filamentCosts: seq<real>,
    filamentTotal: real,
    maintenance: real,
    extrasMonthly: real,
    packaging: real,
    extra: real,
    totalCostUSD: real,
    errorAdjusted: real,
    finalPriceUSD: real,
    finalPriceUYU: real)

  /** Looking up a selected position that is not in the catalog throws. */
  datatype BudgetError = InvalidFilamentReference(slot: nat, index: nat)

  /** A numeric field read as `value || 0`: blank or unset is 0. */
  function OrZero(x: Option<real>): real
  {
    match x
    case None => 0.0
    case Some(v) => v
  }

  /** A slot whose selection points past the end of the catalog. */
  predicate Dangling(cat: seq<Filament>, s: Slot)
  {
    s.selection.Some? && s.selection.value >= |cat|
  }

  /** What one slot adds to the filament cost, when it can be looked up. */
  function SlotCost(cat: seq<Filament>, s: Slot): real
    requires !Dangling(cat, s)
  {
    match s.selection
    case None => 0.0
    case Some(k) => (cat[k].price / GramsPerKilogram) * OrZero(s.weight)
  }

  /**
   * The slot costs in slot order, or the error of the first slot whose
   * lookup throws; `first` is the slot number of `slots[0]`.
   */
  function SlotCosts(cat: seq<Filament>, slots: seq<Slot>, first: nat): (r: Result<seq<real>, BudgetError>)
    ensures r.Failure? <==> exists i :: 0 <= i < |slots| && Dangling(cat, slots[i])
    ensures r.Success? ==>
              && |r.value| == |slots|
              && forall i :: 0 <= i < |slots| ==> r.value[i] == SlotCost(cat, slots[i])
    ensures r.Failure? ==>
              && first <= r.error.slot < first + |slots|
              && Dangling(cat, slots[r.error.slot - first])
              && r.error.index == slots[r.error.slot - first].selection.value
              && forall i :: 0 <= i < r.error.slot - first ==> !Dangling(cat, slots[i])
    decreases |slots|
  {
    if slots == [] then
      Success([])
    else if Dangling(cat, slots[0]) then
      Failure(InvalidFilamentReference(first, slots[0].selection.value))
    else
      match SlotCosts(cat, slots[1..], first + 1)
      case Failure(e) => Failure(e)
      case Success(rest) => Success([SlotCost(cat, slots[0])] + rest)
  }

  /** `xs.reduce((a, b) => a + b, 0)`: a left fold from 0. */
  function Sum(xs: seq<real>): real
  {
    if xs == [] then 0.0 else Sum(xs[..|xs| - 1]) + xs[|xs| - 1]
  }

  /**
   * The budget of one job. The filament lookup comes first and its error
   * aborts the whole computation; otherwise every line is computed and the
   * error margin and then the profit scale the full total.
   */
  function CalculateBudget(c: Config, cat: seq<Filament>, j: Job): (r: Result<Breakdown, BudgetError>)
    requires |j.slots| == SlotCount
    // The computation throws exactly when some slot refers past the catalog,
    // and it is the first such slot that is reported.
    ensures r.Failure? <==> exists i :: 0 <= i < SlotCount && Dangling(cat, j.slots[i])
    ensures r.Failure? ==>
              && r.error.slot < SlotCount
              && Dangling(cat, j.slots[r.error.slot])
              && r.error.index == j.slots[r.error.slot].selection.value
              && (forall i :: 0 <= i < r.error.slot ==> !Dangling(cat, j.slots[i]))
    // One filament line per slot: an empty slot contributes 0 whatever its
    // weight, a selected one its price per gram times its grams.
    ensures r.Success? ==>
              && |r.value.filamentCosts| == SlotCount
              && forall i :: 0 <= i < SlotCount ==>
                   && (j.slots[i].selection.None? ==> r.value.filamentCosts[i] == 0.0)
                   && (j.slots[i].selection.Some? ==>
                         r.value.filamentCosts[i]
                           == (cat[j.slots[i].selection.value].price / GramsPerKilogram) * OrZero(j.slots[i].weight))
  {
    match SlotCosts(cat, j.slots, 0)
    case Failure(e) => Failure(e)
    case Success(filamentCosts) => Success(Itemize(c, j, filamentCosts))
  }

  /** The breakdown once the filament costs of the slots are known. */
  function Itemize(c: Config, j: Job, filamentCosts: seq<real>): Breakdown
  {
    var design := OrZero(j.design);
    var labor := OrZero(j.labor);
    var printing := OrZero(j.printing);
    var packaging := OrZero(j.packaging);
    var extra := OrZero(j.extra);
    var profit := OrZero(j.profit);
    var errorMargin := OrZero(c.errorMargin);
    var usdToUyu := OrZero(c.usdToUyi);
    var electricity := c.kwhPrice * c.printerConsumption * printing;
    var designCost := design * c.designCostPerHour;
    var laborCost := labor * c.laborCostPerHour;
    var printCost := printing * c.printCostPerHour;
    var maintenance := printing * (c.maintenanceMonthly / DaysPerMonth / HoursPerDay);
    var extrasMonthly := c.extrasMonthly / DaysPerMonth;
    var filamentTotal := Sum(filamentCosts);
    var totalCostUSD :=
      electricity + designCost + laborCost + printCost + maintenance
      + extrasMonthly + packaging + extra + filamentTotal;
    var errorAdjusted := totalCostUSD * (1.0 + errorMargin / 100.0);
    var finalPriceUSD := errorAdjusted * (1.0 + profit / 100.0);
    Breakdown(
      electricity, designCost, laborCost, printCost, filamentCosts, filamentTotal,
      maintenance, extrasMonthly, packaging, extra,
      totalCostUSD, errorAdjusted, finalPriceUSD, finalPriceUSD * usdToUyu)
  }
}
