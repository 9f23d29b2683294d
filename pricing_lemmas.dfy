/**
 * Properties of the pricing engine: the breakdown agrees with the price
 * formula written out in one expression, every line is non-negative on
 * non-negative inputs, the price grows with the profit percentage, and
 * how catalog changes affect a job that refers to catalog positions.
 */
module PricingLemmas {
  import opened Wrappers
  import opened Catalog
  import opened Pricing

  /** Hours in the 30-day month over which the maintenance budget is spread. */
  const HoursPerMonth: real := 720.0

  /**
   * The filament cost of one slot written as grams times price divided by a
   * thousand, independently of SlotCost.
   */
  function GramCost(cat: seq<Filament>, s: Slot): real
    requires !Dangling(cat, s)
  {
    if s.selection.Some? then cat[s.selection.value].price * OrZero(s.weight) / 1000.0 else 0.0
  }

  /** The total cost as one expression over the inputs, with the five slots spelt out. */
  function ReferenceTotal(c: Config, cat: seq<Filament>, j: Job): real
    requires |j.slots| == SlotCount
    requires forall i :: 0 <= i < SlotCount ==> !Dangling(cat, j.slots[i])
  {
    var p := OrZero(j.printing);
    c.kwhPrice * c.printerConsumption * p
    + OrZero(j.design) * c.designCostPerHour
    + OrZero(j.labor) * c.laborCostPerHour
    + p * c.printCostPerHour
    + p * c.maintenanceMonthly / HoursPerMonth
    + c.extrasMonthly / 30.0
    + OrZero(j.packaging)
    + OrZero(j.extra)
    + (GramCost(cat, j.slots[0]) + GramCost(cat, j.slots[1]) + GramCost(cat, j.slots[2])
       + GramCost(cat, j.slots[3]) + GramCost(cat, j.slots[4]))
  }

  lemma {:induction false} SumOfFive(xs: seq<real>)
    requires |xs| == 5
    ensures Sum(xs) == xs[0] + xs[1] + xs[2] + xs[3] + xs[4]
  {
    assert xs[..4][..3] == xs[..3];
    assert xs[..3][..2] == xs[..2];
    assert xs[..2][..1] == xs[..1];
    assert xs[..1][..0] == [];
    assert Sum(xs[..1]) == xs[0];
    assert Sum(xs[..2]) == xs[0] + xs[1];
    assert Sum(xs[..3]) == xs[0] + xs[1] + xs[2];
    assert Sum(xs[..4]) == xs[0] + xs[1] + xs[2] + xs[3];
  }

  lemma PerGram(price: real, grams: real)
    ensures (price / GramsPerKilogram) * grams == price * grams / 1000.0
  {
  }

  /** The itemized total written term by term, with maintenance spread over 720 hours. */
  lemma ItemizedTotal(c: Config, j: Job, costs: seq<real>)
    requires |costs| == SlotCount
    ensures var p := OrZero(j.printing);
            Itemize(c, j, costs).totalCostUSD
              == c.kwhPrice * c.printerConsumption * p
                 + OrZero(j.design) * c.designCostPerHour
                 + OrZero(j.labor) * c.laborCostPerHour
                 + p * c.printCostPerHour
                 + p * c.maintenanceMonthly / HoursPerMonth
                 + c.extrasMonthly / 30.0
                 + OrZero(j.packaging)
                 + OrZero(j.extra)
                 + (costs[0] + costs[1] + costs[2] + costs[3] + costs[4])
  {
    var p := OrZero(j.printing);
    SumOfFive(costs);
    MaintenancePerHour(p, c.maintenanceMonthly);
  }

  /**
   * The breakdown agrees with the formula: the total is the sum of the
   * itemized lines, the filament line sums exactly the five slots, and the
   * total equals the reference expression.
   */
  lemma BudgetMatchesReference(c: Config, cat: seq<Filament>, j: Job)
    requires |j.slots| == SlotCount
    requires CalculateBudget(c, cat, j).Success?
    ensures forall i :: 0 <= i < SlotCount ==> !Dangling(cat, j.slots[i])
    ensures var b := CalculateBudget(c, cat, j).value;
            && b.filamentTotal
                 == b.filamentCosts[0] + b.filamentCosts[1] + b.filamentCosts[2]
                    + b.filamentCosts[3] + b.filamentCosts[4]
            && b.totalCostUSD
                 == b.electricity + b.designCost + b.laborCost + b.printCost + b.maintenance
                    + b.extrasMonthly + b.packaging + b.extra + b.filamentTotal
            && b.totalCostUSD == ReferenceTotal(c, cat, j)
  {
    var costs := SlotCosts(cat, j.slots, 0).value;
    var b := Itemize(c, j, costs);
    assert CalculateBudget(c, cat, j) == Success(b);
    SumOfFive(costs);
    BudgetLines(c, cat, j);
    var g := GramCost(cat, j.slots[0]) + GramCost(cat, j.slots[1]) + GramCost(cat, j.slots[2])
             + GramCost(cat, j.slots[3]) + GramCost(cat, j.slots[4]);
    assert b.filamentTotal == g;
    assert ReferenceTotal(c, cat, j)
        == b.electricity + b.designCost + b.laborCost + b.printCost + b.maintenance
           + b.extrasMonthly + b.packaging + b.extra + g;
  }

  /**
   * Each itemized line of the breakdown is its own formula of the inputs,
   * with maintenance spread over the 720 hours of a month.
   */
  lemma BudgetLines(c: Config, cat: seq<Filament>, j: Job)
    requires |j.slots| == SlotCount
    requires CalculateBudget(c, cat, j).Success?
    ensures forall i :: 0 <= i < SlotCount ==> !Dangling(cat, j.slots[i])
    ensures var b := CalculateBudget(c, cat, j).value;
            var p := OrZero(j.printing);
            && b.electricity == c.kwhPrice * c.printerConsumption * p
            && b.designCost == OrZero(j.design) * c.designCostPerHour
            && b.laborCost == OrZero(j.labor) * c.laborCostPerHour
            && b.printCost == p * c.printCostPerHour
            && b.maintenance == p * c.maintenanceMonthly / HoursPerMonth
            && b.extrasMonthly == c.extrasMonthly / 30.0
            && b.packaging == OrZero(j.packaging)
            && b.extra == OrZero(j.extra)
            && (forall i :: 0 <= i < SlotCount ==> b.filamentCosts[i] == GramCost(cat, j.slots[i]))
  {
    var costs := SlotCosts(cat, j.slots, 0).value;
    var b := Itemize(c, j, costs);
    assert CalculateBudget(c, cat, j) == Success(b);
    SlotCostsAreGramCosts(cat, j.slots);
    MaintenancePerHour(OrZero(j.printing), c.maintenanceMonthly);
  }

  lemma MaintenancePerHour(hours: real, monthly: real)
    ensures hours * (monthly / DaysPerMonth / HoursPerDay) == hours * monthly / HoursPerMonth
  {
  }

  /**
   * The error margin multiplies the whole total, the profit multiplies the
   * error-adjusted total, and the peso price is the dollar price times the
   * configured rate.
   */
  lemma BudgetMargins(c: Config, cat: seq<Filament>, j: Job)
    requires |j.slots| == SlotCount
    requires CalculateBudget(c, cat, j).Success?
    ensures var b := CalculateBudget(c, cat, j).value;
            && b.errorAdjusted == b.totalCostUSD * (1.0 + OrZero(c.errorMargin) / 100.0)
            && b.finalPriceUSD == b.errorAdjusted * (1.0 + OrZero(j.profit) / 100.0)
            && b.finalPriceUSD
                 == b.totalCostUSD * (1.0 + OrZero(c.errorMargin) / 100.0) * (1.0 + OrZero(j.profit) / 100.0)
            && b.finalPriceUYU == b.finalPriceUSD * OrZero(c.usdToUyi)
  {
  }

  /** Each computed slot cost is the slot's grams times its price over a thousand. */
  lemma SlotCostsAreGramCosts(cat: seq<Filament>, slots: seq<Slot>)
    requires SlotCosts(cat, slots, 0).Success?
    ensures forall i :: 0 <= i < |slots| ==>
              !Dangling(cat, slots[i]) && SlotCosts(cat, slots, 0).value[i] == GramCost(cat, slots[i])
  {
    forall i | 0 <= i < |slots|
      ensures !Dangling(cat, slots[i]) && SlotCosts(cat, slots, 0).value[i] == GramCost(cat, slots[i])
    {
      var s := slots[i];
      if s.selection.Some? {
        PerGram(cat[s.selection.value].price, OrZero(s.weight));
      }
    }
  }

  /** With both margins at 0 the sale price is the total cost. */
  lemma ZeroMarginsPriceIsTotal(c: Config, cat: seq<Filament>, j: Job)
    requires |j.slots| == SlotCount
    requires CalculateBudget(c, cat, j).Success?
    requires OrZero(c.errorMargin) == 0.0 && OrZero(j.profit) == 0.0
    ensures CalculateBudget(c, cat, j).value.errorAdjusted == CalculateBudget(c, cat, j).value.totalCostUSD
    ensures CalculateBudget(c, cat, j).value.finalPriceUSD == CalculateBudget(c, cat, j).value.totalCostUSD
  {
  }

  /** Without a `usdToUyi` value in the configuration the peso price is 0. */
  lemma MissingRateGivesZeroLocalPrice(c: Config, cat: seq<Filament>, j: Job)
    requires |j.slots| == SlotCount
    requires CalculateBudget(c, cat, j).Success?
    requires c.usdToUyi.None?
    ensures CalculateBudget(c, cat, j).value.finalPriceUYU == 0.0
  {
  }

  /**
   * Because both margins scale the whole total, applying the profit before
   * the error margin would give the same dollar price.
   */
  lemma MarginsCommute(c: Config, cat: seq<Filament>, j: Job)
    requires |j.slots| == SlotCount
    requires CalculateBudget(c, cat, j).Success?
    ensures var b := CalculateBudget(c, cat, j).value;
            b.finalPriceUSD
              == b.totalCostUSD * (1.0 + OrZero(j.profit) / 100.0) * (1.0 + OrZero(c.errorMargin) / 100.0)
  {
  }

  /** The monthly extras line is a fixed daily share, whatever the printing hours. */
  lemma ExtrasIgnorePrintingHours(c: Config, cat: seq<Filament>, j: Job, hours: Option<real>)
    requires |j.slots| == SlotCount
    requires CalculateBudget(c, cat, j).Success?
    ensures CalculateBudget(c, cat, j.(printing := hours)).Success?
    ensures CalculateBudget(c, cat, j.(printing := hours)).value.extrasMonthly == c.extrasMonthly / 30.0
    ensures CalculateBudget(c, cat, j).value.extrasMonthly == c.extrasMonthly / 30.0
  {
  }

  /** A blank job field prices exactly like a field holding 0. */
  lemma BlankFieldsAreZero(c: Config, cat: seq<Filament>, j: Job)
    requires |j.slots| == SlotCount
    ensures var z := Some(0.0);
            var blank := j.(design := None, labor := None, printing := None,
                            packaging := None, extra := None, profit := None);
            CalculateBudget(c, cat, blank)
              == CalculateBudget(c, cat, j.(design := z, labor := z, printing := z,
                                            packaging := z, extra := z, profit := z))
  {
    var z := Some(0.0);
    var blank := j.(design := None, labor := None, printing := None,
                    packaging := None, extra := None, profit := None);
    var zeros := j.(design := z, labor := z, printing := z,
                    packaging := z, extra := z, profit := z);
    var costs := SlotCosts(cat, j.slots, 0);
    if costs.Success? {
      assert Itemize(c, blank, costs.value) == Itemize(c, zeros, costs.value);
    }
  }

  predicate NonNegativeConfig(c: Config)
  {
    && c.kwhPrice >= 0.0 && c.printerConsumption >= 0.0
    && c.designCostPerHour >= 0.0 && c.laborCostPerHour >= 0.0 && c.printCostPerHour >= 0.0
    && c.maintenanceMonthly >= 0.0 && c.extrasMonthly >= 0.0
    && OrZero(c.errorMargin) >= 0.0 && OrZero(c.usdToUyi) >= 0.0
  }

  predicate NonNegativeCatalog(cat: seq<Filament>)
  {
    forall k :: 0 <= k < |cat| ==> cat[k].price >= 0.0
  }

  /** Every hour, flat cost and weight of the job is non-negative (the profit aside). */
  predicate NonNegativeCosts(j: Job)
  {
    && OrZero(j.design) >= 0.0 && OrZero(j.labor) >= 0.0 && OrZero(j.printing) >= 0.0
    && OrZero(j.packaging) >= 0.0 && OrZero(j.extra) >= 0.0
    && forall i :: 0 <= i < |j.slots| ==> OrZero(j.slots[i].weight) >= 0.0
  }

  lemma {:induction false} SumNonNegative(xs: seq<real>)
    requires forall i :: 0 <= i < |xs| ==> xs[i] >= 0.0
    ensures Sum(xs) >= 0.0
  {
    if xs != [] {
      SumNonNegative(xs[..|xs| - 1]);
    }
  }

  lemma MulNonNegative(a: real, b: real)
    requires a >= 0.0 && b >= 0.0
    ensures a * b >= 0.0
  {
  }

  /**
   * On non-negative configuration, prices, job costs and profit, every
   * itemized line, the total and both sale prices are non-negative.
   */
  lemma BudgetNonNegative(c: Config, cat: seq<Filament>, j: Job)
    requires |j.slots| == SlotCount
    requires NonNegativeConfig(c) && NonNegativeCatalog(cat)
    requires NonNegativeCosts(j) && OrZero(j.profit) >= 0.0
    requires CalculateBudget(c, cat, j).Success?
    ensures var b := CalculateBudget(c, cat, j).value;
            && b.electricity >= 0.0 && b.designCost >= 0.0 && b.laborCost >= 0.0
            && b.printCost >= 0.0 && b.maintenance >= 0.0 && b.extrasMonthly >= 0.0
            && b.packaging >= 0.0 && b.extra >= 0.0
            && (forall i :: 0 <= i < |b.filamentCosts| ==> b.filamentCosts[i] >= 0.0)
            && b.filamentTotal >= 0.0
            && b.totalCostUSD >= 0.0 && b.errorAdjusted >= 0.0
            && b.finalPriceUSD >= 0.0 && b.finalPriceUYU >= 0.0
  {
    assert forall i :: 0 <= i < SlotCount ==> !Dangling(cat, j.slots[i]);
    var costs := SlotCosts(cat, j.slots, 0).value;
    var b := Itemize(c, j, costs);
    assert CalculateBudget(c, cat, j) == Success(b);
    var p := OrZero(j.printing);
    forall i | 0 <= i < |b.filamentCosts|
      ensures b.filamentCosts[i] >= 0.0
    {
      var s := j.slots[i];
      if s.selection.Some? {
        MulNonNegative(cat[s.selection.value].price / GramsPerKilogram, OrZero(s.weight));
      }
    }
    SumNonNegative(b.filamentCosts);
    MulNonNegative(c.kwhPrice, c.printerConsumption);
    MulNonNegative(c.kwhPrice * c.printerConsumption, p);
    MulNonNegative(OrZero(j.design), c.designCostPerHour);
    MulNonNegative(OrZero(j.labor), c.laborCostPerHour);
    MulNonNegative(p, c.printCostPerHour);
    MulNonNegative(p, c.maintenanceMonthly / DaysPerMonth / HoursPerDay);
    MulNonNegative(b.totalCostUSD, 1.0 + OrZero(c.errorMargin) / 100.0);
    MulNonNegative(b.errorAdjusted, 1.0 + OrZero(j.profit) / 100.0);
    MulNonNegative(b.finalPriceUSD, OrZero(c.usdToUyi));
  }

  lemma MulMonotone(a: real, x: real, y: real)
    requires a >= 0.0 && x <= y
    ensures a * x <= a * y
  {
    MulNonNegative(a, y - x);
  }

  /**
   * Raising the profit percentage never lowers the sale price, in dollars
   * or in pesos, and changes no cost line.
   */
  lemma PriceMonotoneInProfit(c: Config, cat: seq<Filament>, j: Job, low: real, high: real)
    requires |j.slots| == SlotCount
    requires NonNegativeConfig(c) && NonNegativeCatalog(cat) && NonNegativeCosts(j)
    requires CalculateBudget(c, cat, j).Success?
    requires low <= high
    ensures CalculateBudget(c, cat, j.(profit := Some(low))).Success?
    ensures CalculateBudget(c, cat, j.(profit := Some(high))).Success?
    ensures var lo := CalculateBudget(c, cat, j.(profit := Some(low))).value;
            var hi := CalculateBudget(c, cat, j.(profit := Some(high))).value;
            && lo.totalCostUSD == hi.totalCostUSD
            && lo.errorAdjusted == hi.errorAdjusted
            && lo.finalPriceUSD <= hi.finalPriceUSD
            && lo.finalPriceUYU <= hi.finalPriceUYU
  {
    var costs := SlotCosts(cat, j.slots, 0).value;
    var j0 := j.(profit := Some(0.0));
    BudgetNonNegative(c, cat, j0);
    var ea := Itemize(c, j0, costs).errorAdjusted;
    assert ea >= 0.0;
    var lo := Itemize(c, j.(profit := Some(low)), costs);
    var hi := Itemize(c, j.(profit := Some(high)), costs);
    assert CalculateBudget(c, cat, j.(profit := Some(low))) == Success(lo);
    assert CalculateBudget(c, cat, j.(profit := Some(high))) == Success(hi);
    ProfitScalesErrorAdjusted(c, j, costs, low);
    ProfitScalesErrorAdjusted(c, j, costs, high);
    ProfitScalesErrorAdjusted(c, j, costs, 0.0);
    MulMonotone(ea, 1.0 + low / 100.0, 1.0 + high / 100.0);
    MulMonotone(OrZero(c.usdToUyi), lo.finalPriceUSD, hi.finalPriceUSD);
  }

  /** The profit percentage only scales the error-adjusted total. */
  lemma ProfitScalesErrorAdjusted(c: Config, j: Job, costs: seq<real>, p: real)
    ensures var b := Itemize(c, j, costs);
            var q := Itemize(c, j.(profit := Some(p)), costs);
            && q.totalCostUSD == b.totalCostUSD
            && q.errorAdjusted == b.errorAdjusted
            && q.finalPriceUSD == b.errorAdjusted * (1.0 + p / 100.0)
            && q.finalPriceUYU == q.finalPriceUSD * OrZero(c.usdToUyi)
  {
  }

  lemma {:induction false} SlotCostsAfterAppend(cat: seq<Filament>, f: Filament, slots: seq<Slot>, first: nat)
    requires SlotCosts(cat, slots, first).Success?
    ensures SlotCosts(cat + [f], slots, first) == SlotCosts(cat, slots, first)
    decreases |slots|
  {
    if slots != [] {
      SlotCostsAfterAppend(cat, f, slots[1..], first + 1);
      assert !Dangling(cat, slots[0]);
      if slots[0].selection.Some? {
        assert (cat + [f])[slots[0].selection.value] == cat[slots[0].selection.value];
      }
      assert SlotCost(cat + [f], slots[0]) == SlotCost(cat, slots[0]);
    }
  }

  /**
   * Adding a filament to the catalog leaves the budget of every job that
   * could already be priced exactly as it was.
   */
  lemma AppendKeepsBudget(c: Config, cat: seq<Filament>, f: Filament, j: Job)
    requires |j.slots| == SlotCount
    requires CalculateBudget(c, cat, j).Success?
    ensures CalculateBudget(c, cat + [f], j) == CalculateBudget(c, cat, j)
  {
    SlotCostsAfterAppend(cat, f, j.slots, 0);
  }

  /**
   * Removing catalog entry `i` keeps the pricing of slots that point before
   * it; a slot that points at or after it now prices the entry that used to
   * follow, and the one that pointed at the last entry can no longer be
   * looked up.
   */
  lemma RemovalShiftsSlotReferences(cat: seq<Filament>, i: nat, s: Slot)
    requires i < |cat| && s.selection.Some?
    ensures var k := s.selection.value;
            var after := RemoveAt(cat, i);
            && (k < i ==> !Dangling(after, s) && SlotCost(after, s) == SlotCost(cat, s))
            && (i <= k < |cat| - 1 ==>
                  !Dangling(after, s)
                  && SlotCost(after, s) == SlotCost(cat, s.(selection := Some(k + 1))))
            && (k >= |cat| - 1 <==> Dangling(after, s))
  {
  }

  /** After removing any catalog entry, a job still selecting the old last position fails. */
  lemma RemovalBreaksLastReference(c: Config, cat: seq<Filament>, i: nat, j: Job, slot: nat)
    requires |j.slots| == SlotCount && i < |cat| && slot < SlotCount
    requires j.slots[slot].selection == Some(|cat| - 1)
    ensures CalculateBudget(c, RemoveAt(cat, i), j).Failure?
  {
    assert Dangling(RemoveAt(cat, i), j.slots[slot]);
  }

  /** Five empty slots cost nothing, whatever the catalog and their weights. */
  lemma EmptySlotsCostNothing(cat: seq<Filament>, slots: seq<Slot>)
    requires |slots| == SlotCount
    requires forall i :: 0 <= i < SlotCount ==> slots[i].selection.None?
    ensures SlotCosts(cat, slots, 0) == Success([0.0, 0.0, 0.0, 0.0, 0.0])
  {
    var r := SlotCosts(cat, slots, 0);
    assert !Dangling(cat, slots[0]);
    assert r.Success?;
    assert r.value == [0.0, 0.0, 0.0, 0.0, 0.0];
  }

  /** The arithmetic of a small job: 10 hours at 0.1 per kWh on a 0.2 kW printer, 10 % error, 20 % profit, 40 pesos per dollar. */
  lemma ElectricityOnlyExample()
    ensures var c := Config(0.1, 0.2, 0.0, 0.0, 0.0, 0.0, 0.0, Some(10.0), Some(40.0));
            var none := Slot(None, None);
            var j := Job(None, None, Some(10.0), None, None, Some(20.0), [none, none, none, none, none]);
            var r := CalculateBudget(c, [], j);
            && r.Success?
            && r.value.electricity == 0.2
            && r.value.totalCostUSD == 0.2
            && r.value.errorAdjusted == 0.22
            && r.value.finalPriceUSD == 0.264
            && r.value.finalPriceUYU == 10.56
  {
    var none := Slot(None, None);
    var slots := [none, none, none, none, none];
    EmptySlotsCostNothing([], slots);
    SumOfFive([0.0, 0.0, 0.0, 0.0, 0.0]);
  }

  /** Fifty grams of a filament at 20 per kilogram cost 1. */
  lemma OneFilamentExample(c: Config)
    ensures var cat := [Filament("PLA", "PLA", "black", 20.0)];
            var none := Slot(None, Some(80.0));
            var j := Job(None, None, None, None, None, None, [Slot(Some(0), Some(50.0)), none, none, none, none]);
            var r := CalculateBudget(c, cat, j);
            && r.Success?
            && r.value.filamentCosts == [1.0, 0.0, 0.0, 0.0, 0.0]
            && r.value.filamentTotal == 1.0
  {
    var cat := [Filament("PLA", "PLA", "black", 20.0)];
    var none := Slot(None, Some(80.0));
    var slots := [Slot(Some(0), Some(50.0)), none, none, none, none];
    var r := SlotCosts(cat, slots, 0);
    assert r.Success?;
    assert r.value == [1.0, 0.0, 0.0, 0.0, 0.0];
    SumOfFive(r.value);
  }
}
