/**
 * The page's state: the cost configuration, the filament catalog and the
 * contents of the print-job form, with the handlers that change them.
 */
module AppState {
  import opened Wrappers
  import opened Catalog
  import opened Pricing
  import PricingLemmas

  /**
   * Rebuilding the filament drop-downs puts each one back on its
   * "-- Seleccionar --" option; the weights are left as they were.
   */
  function ResetSelections(slots: seq<Slot>): (r: seq<Slot>)
    ensures |r| == |slots|
    ensures forall i :: 0 <= i < |r| ==> r[i].selection.None? && r[i].weight == slots[i].weight
  {
    seq(|slots|, i requires 0 <= i < |slots| => Slot(None, slots[i].weight))
  }

  /** The print-job form as the page first shows it: every field blank, nothing selected. */
  function BlankForm(): (j: Job)
    ensures |j.slots| == SlotCount
    ensures forall i :: 0 <= i < SlotCount ==> j.slots[i].selection.None?
  {
    var empty := Slot(None, None);
    Job(None, None, None, None, None, None, [empty, empty, empty, empty, empty])
  }

  /**
   * After the drop-downs are rebuilt, the job prices without any filament:
   * five zero filament lines, whatever the catalog.
   */
  lemma ResetJobHasNoFilamentCost(c: Config, cat: seq<Filament>, j: Job)
    requires |j.slots| == SlotCount
    ensures var r := CalculateBudget(c, cat, j.(slots := ResetSelections(j.slots)));
            && r.Success?
            && r.value.filamentCosts == [0.0, 0.0, 0.0, 0.0, 0.0]
            && r.value.filamentTotal == 0.0
  {
    var slots := ResetSelections(j.slots);
    PricingLemmas.EmptySlotsCostNothing(cat, slots);
    PricingLemmas.SumOfFive([0.0, 0.0, 0.0, 0.0, 0.0]);
  }

  class Session {
    var config: Config
    var filaments: seq<Filament>
    /** What the print-job form currently holds. */
    var form: Job

    /**
     * The form has its five slots, and each drop-down only offers positions
     * of the current catalog.
     */
    predicate Valid()
      reads this
    {
      && |form.slots| == SlotCount
      && forall i :: 0 <= i < SlotCount ==> !Dangling(filaments, form.slots[i])
    }

    /** The state once the stored (or bootstrap) records are loaded and the forms filled. */
    constructor (config0: Config, filaments0: seq<Filament>)
      ensures Valid()
      ensures config == config0 && filaments == filaments0 && form == BlankForm()
    {
      config := config0;
      filaments := filaments0;
      form := BlankForm();
    }

    /** Saving the configuration form replaces the whole configuration. */
    method SaveConfig(c: Config)
      requires Valid()
      modifies this
      ensures Valid()
      ensures config == c
      ensures filaments == old(filaments) && form == old(form)
    {
      config := c;
    }

    /**
     * Submitting the add-filament form appends the new entry to the catalog
     * and rebuilds the drop-downs, which clears every selection.
     */
    method AddFilament(f: Filament)
      requires Valid()
      modifies this
      ensures Valid()
      ensures filaments == old(filaments) + [f]
      ensures |filaments| == |old(filaments)| + 1 && filaments[|old(filaments)|] == f
      ensures forall k :: 0 <= k < |old(filaments)| ==> filaments[k] == old(filaments)[k]
      ensures form == old(form).(slots := ResetSelections(old(form).slots))
      ensures config == old(config)
    {
      filaments := filaments + [f];
      form := form.(slots := ResetSelections(form.slots));
    }

    /**
     * A delete button removes the entry at its position with
     * `splice(index, 1)`, so later entries move down by one, and then the
     * drop-downs are rebuilt, which clears every selection.
     */
    method RemoveFilament(index: int)
      requires Valid()
      modifies this
      ensures Valid()
      ensures filaments == RemoveAt(old(filaments), index)
      ensures 0 <= index < |old(filaments)| ==>
                && |filaments| == |old(filaments)| - 1
                && (forall k :: 0 <= k < index ==> filaments[k] == old(filaments)[k])
                && (forall k :: index <= k < |filaments| ==> filaments[k] == old(filaments)[k + 1])
      ensures form == old(form).(slots := ResetSelections(old(form).slots))
      ensures config == old(config)
    {
      filaments := RemoveAt(filaments, index);
      form := form.(slots := ResetSelections(form.slots));
    }

    /**
     * An `input` event on the print-job form: the form takes the new
     * contents, whose selections can only be positions the drop-downs
     * offer, and the breakdown is recomputed.
     */
    method EditForm(j: Job) returns (r: Result<Breakdown, BudgetError>)
      requires Valid()
      requires |j.slots| == SlotCount
      requires forall i :: 0 <= i < SlotCount ==> !Dangling(filaments, j.slots[i])
      modifies this
      ensures Valid()
      ensures form == j && config == old(config) && filaments == old(filaments)
      ensures r.Success? && r == CalculateBudget(config, filaments, j)
    {
      form := j;
      r := CalculateBudget(config, filaments, j);
    }

    /**
     * The breakdown of the current form. Because catalog edits clear the
     * selections, it never meets a position outside the catalog.
     */
    method Quote() returns (r: Result<Breakdown, BudgetError>)
      requires Valid()
      ensures r.Success?
      ensures r == CalculateBudget(config, filaments, form)
    {
      r := CalculateBudget(config, filaments, form);
    }
  }
}
