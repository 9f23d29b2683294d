# 3D print calculator — pricing engine and filament catalog

This project models the computable core of a browser calculator that prices
3D-printing jobs (`script.js`). The page keeps two pieces of global state: a
cost configuration and an ordered catalog of filaments. On every edit of the
print-job form it recomputes a breakdown: electricity, design, labor and
printing-hour costs, maintenance, a daily share of monthly extras, packaging,
extra costs and the cost of up to five (filament, grams) slots. These add up to
a total. The error margin and then the profit percentage scale that total, and
the exchange rate converts the dollar price to Uruguayan pesos.

Modules:

- `Wrappers` (`wrappers.dfy`): `Option` and `Result`.
- `Catalog` (`catalog.dfy`): the `Filament` record and `RemoveAt`, the list
  that JavaScript's `splice(start, 1)` leaves behind.
- `Pricing` (`pricing.dfy`): the configuration, the job form, the breakdown, and
  `CalculateBudget`, a pure function of (configuration, catalog, job).
- `PricingLemmas` (`pricing_lemmas.dfy`): the properties of the formula, and
  how catalog edits affect jobs that refer to catalog positions.
- `AppState` (`app_state.dfy`): the class `Session`. Its fields are the global
  `config` and `filaments` and the contents of the print-job form. Its methods
  are the handlers that change them.

Modelling decisions:

- Monetary arithmetic is over `real`. Form values arrive already parsed.
  A field read as `value || 0` is an `Option<real>`: `None` (blank or unset)
  reads as 0, through `OrZero`. This applies to the six job fields, the
  weights, and the configuration keys `errorMargin` and `usdToUyi`.
- A slot's selection is `None` for the empty option, or the catalog position
  chosen in the drop-down. If that position is not in the catalog, the source
  reads `.price` of `undefined` and throws (script.js:160-161). The model returns
  `Failure(InvalidFilamentReference(slot, index))` for the first such slot.
- The code applies the error margin to the whole total, not to a part of it
  (script.js:185). The profit percentage then scales the error-adjusted total
  (script.js:186). Since both scale the whole total, their order does not
  matter over the reals (`MarginsCommute`).
- The monthly-extras line is `extrasMonthly / 30`, a daily share that the
  printing hours do not scale (script.js:170).
- The total has exactly nine terms: electricity, design, labor, printing,
  maintenance, monthly extras, packaging, extra and filaments
  (script.js:173-182).
- The exchange rate is read from the configuration key `usdToUyi`. It is 0 when
  that key is unset (script.js:144).
- After every catalog edit the page rebuilds the filament drop-downs
  (script.js:95, 112, 122), which clears every selection. `Session` models this
  with `ResetSelections`, so the form never holds a position outside the catalog.
- Catalog removal has the full `splice` start semantics. A negative index counts
  from the end, and an index at or past the end removes nothing. The page's
  delete buttons only ever pass a valid position.

## Model

| member | source | states |
|---|---|---|
| `Catalog.RemoveAt` | script.js:92 | at a valid index: one entry fewer, earlier entries keep their positions, later ones move down by one; at or past the end nothing changes; a negative index counts from the end; never adds an entry |
| `Pricing.SlotCosts` | script.js:156-162 | succeeds iff no slot points past the catalog; on success one cost per slot, each the slot's price-per-gram times weight (0 if unselected); on failure reports the first dangling slot and its index |
| `Pricing.CalculateBudget` | script.js:141-187 | fails iff some of the five slots refers past the catalog, reporting the first such slot and its index; otherwise five filament lines, 0 for an empty slot whatever its weight, price/1000 times grams for a selected one (the other lines: `BudgetLines`) |
| `PricingLemmas.SumOfFive` | script.js:182 | the `reduce` sum of five slot costs is their plain sum |
| `PricingLemmas.ItemizedTotal` | script.js:165-182 | the total is electricity + design + labor + print + maintenance (printing hours times monthly cost over 720) + extras/30 + packaging + extra + the five slot costs |
| `PricingLemmas.BudgetMatchesReference` | script.js:173-182 | the filament line sums exactly the five slots; the total is the sum of the itemized lines and equals a one-expression reference total whose slot terms are grams × price / 1000 |
| `PricingLemmas.BudgetLines` | script.js:161-170 | each line is its formula: electricity = kWh price × consumption × printing hours, design/labor/print = hours × hourly rate, maintenance = printing hours × monthly cost / 720, extras = monthly / 30, packaging and extra as entered, each filament line grams × price / 1000 |
| `PricingLemmas.BudgetMargins` | script.js:185-187 | the error-adjusted total is the total times (1 + margin/100); the dollar price is that times (1 + profit/100), margin first; the peso price is dollars times the rate |
| `PricingLemmas.ZeroMarginsPriceIsTotal` | script.js:185-186 | with error margin and profit both 0, the error-adjusted total and the sale price equal the total |
| `PricingLemmas.MissingRateGivesZeroLocalPrice` | script.js:144 | with no `usdToUyi` value the peso price is 0 |
| `PricingLemmas.MarginsCommute` | script.js:185-186 | applying the profit before the error margin gives the same dollar price |
| `PricingLemmas.ExtrasIgnorePrintingHours` | script.js:170 | the monthly-extras line is the configured amount over 30 whatever the printing hours |
| `PricingLemmas.BlankFieldsAreZero` | script.js:147-152 | a job with blank fields prices exactly like one whose fields hold 0 |
| `PricingLemmas.SumNonNegative` | script.js:182 | a sum of non-negative costs is non-negative |
| `PricingLemmas.BudgetNonNegative` | script.js:165-187 | on non-negative configuration, prices, hours, costs, weights and profit, every line, the total, the error-adjusted total and both prices are non-negative |
| `PricingLemmas.PriceMonotoneInProfit` | script.js:185-187 | raising the profit percentage leaves the total and the error-adjusted total unchanged and never lowers the dollar or the peso price |
| `PricingLemmas.SlotCostsAfterAppend` | script.js:156-162 | slot costs that could be computed are unchanged when the catalog grows at its end |
| `PricingLemmas.AppendKeepsBudget` | script.js:108 | after a filament is pushed, every job that could be priced gets exactly the same breakdown |
| `PricingLemmas.RemovalShiftsSlotReferences` | script.js:92 | after removing entry i, a slot pointing before i prices the same entry; one pointing at or after i prices the entry that used to follow; one pointing at the old last position dangles, and only those dangle |
| `PricingLemmas.RemovalBreaksLastReference` | script.js:160-161 | after any removal, a job selecting the old last position fails to price |
| `PricingLemmas.EmptySlotsCostNothing` | script.js:159 | five unselected slots cost 0 each, whatever the catalog and the weights |
| `PricingLemmas.ElectricityOnlyExample` | script.js:165-187 | 10 h at 0.1/kWh on a 0.2 kW printer, 10 % error, 20 % profit, rate 40: electricity and total 0.2, adjusted 0.22, price 0.264, pesos 10.56 |
| `PricingLemmas.OneFilamentExample` | script.js:161 | 50 g of a filament at 20 per kg costs 1, empty slots 0 |
| `AppState.Session.constructor` | script.js:19-33 | the state is the loaded configuration and catalog, and the print form starts blank with nothing selected |
| `AppState.BlankForm` | script.js:33 | the print-job form as first shown, standing for the page markup (assumed, see "Left out"): five slots, none selected |
| `AppState.Session.SaveConfig` | script.js:63-65 | the configuration is replaced; the catalog and the form are untouched |
| `AppState.Session.AddFilament` | script.js:108-112 | the catalog is the old one plus the new entry at index old length, and earlier entries keep index and value. Every slot selection is cleared and the weights stay. The configuration is untouched |
| `AppState.Session.RemoveFilament` | script.js:92-95 | the catalog becomes `RemoveAt` of the old one, and at a valid index later entries shift down by one. Every slot selection is cleared and the weights stay. The configuration is untouched |
| `AppState.Session.EditForm` | script.js:136-144 | an input event stores the new form contents (selections among the offered positions) and recomputes the breakdown from the current state, which succeeds |
| `AppState.Session.Quote` | script.js:141-144 | the breakdown of the current form from the current state; it always succeeds, since the form only holds positions of the current catalog |
| `AppState.ResetSelections` | script.js:122 | rebuilding the drop-downs leaves as many slots, each unselected, with its weight unchanged |
| `AppState.ResetJobHasNoFilamentCost` | script.js:118-131 | a job whose selections were just reset prices without error, with five zero filament lines and a zero filament total |

## Left out

- Persistence in `localStorage` and the `config.json` bootstrap fetch (script.js:12-42): I/O and asynchronous foreign calls. The constructor of `Session` takes the loaded records as parameters.
- Filling and reading forms, `innerHTML` rendering, `alert`, and event wiring (script.js:47-68, 73-98, 118-136, 190-203): user-interface glue.
- `parseFloat` and `parseInt` string parsing and their `NaN` results, and the `toFixed(2)` display rounding. Inputs are parsed reals, blank as `None`.
- Configuration keys other than `errorMargin` and `usdToUyi` are assumed present. A missing one would make the JavaScript result `NaN`.
- A filament price that is not a number (for example a string from the bootstrap document): prices are reals.
- IEEE-754 floating-point rounding: the arithmetic is exact over `real`.
- AppendKeepsBudget, RemovalShiftsSlotReferences, RemovalBreaksLastReference: these hold the job fixed across a catalog edit, so they are facts of the pricing function alone. The page clears every selection after an edit (see `Session`), so it never reaches these situations.
- The display is not recomputed after a catalog edit until the next `input` event (script.js:136). `Session.EditForm` and `Session.Quote` model that later recomputation.
- The initial contents of the print-job form come from the page markup, which is not part of this model. `BlankForm` assumes every field starts blank.
- A missing slot element (`!sel` at script.js:159) reads as an unselected slot. The form always has five slots, so `CalculateBudget` requires exactly five.
