/** The hospitals page of src/pages/Hospitals.tsx: the add/edit form, its billable-item list, and
    the data it hands to addHospital or updateHospital. */
module Hospitals {
  import opened Types
  import opened Js
  import opened Seqs
  import opened AppStore

  /** The toast handleSubmit shows. */
  datatype SubmitOutcome = NameMissing | Updated(id: string) | Added

  function ItemKey(item: ItemRate): string { item.id }

  /** `itemRates.filter((item) => item.id !== id)` */
  function ItemsWithout(items: seq<ItemRate>, id: string): seq<ItemRate> {
    Filter(items, (item: ItemRate) => item.id != id)
  }

  /** handleDeleteItem keeps exactly the items with another id, in their order, and keeps item ids
      unique. */
  lemma DeleteItemEffect(items: seq<ItemRate>, id: string)
    ensures forall it :: it in ItemsWithout(items, id) <==> it in items && it.id != id
    ensures forall a, b :: items == a + b ==> ItemsWithout(items, id) == ItemsWithout(a, id) + ItemsWithout(b, id)
    ensures UniqueKeys(items, ItemKey) ==> UniqueKeys(ItemsWithout(items, id), ItemKey)
  {
    forall a, b | items == a + b ensures ItemsWithout(items, id) == ItemsWithout(a, id) + ItemsWithout(b, id) {
      FilterAppend(a, b, (item: ItemRate) => item.id != id);
    }
    if UniqueKeys(items, ItemKey) {
      FilterKeepsUniqueKeys(items, (item: ItemRate) => item.id != id, ItemKey);
    }
  }

  /** The update an unchanged edit form sends for `h`: its own values, the name trimmed, a missing
      fixed salary as 0 and missing item rates as an empty list. */
  function EditPatchOf(h: Hospital): HospitalPatch {
    HospitalPatch(Keep, Put(Trim(h.name)), Put(h.paymentModel), Put(h.fixedRate), Put(h.perPatientRate),
                  Put(Some(h.fixedSalary.GetOr(0.0))), Put(Some(h.itemRates.GetOr([]))), Keep, Keep)
  }

  /** Opening a hospital for editing and saving at once changes nothing but the name's surrounding
      white space, the optional detailed fields (now present) and `updatedAt`. */
  lemma ResaveHospital(h: Hospital, now: Instant)
    ensures MergeHospital(h, EditPatchOf(h), now)
         == h.(name := Trim(h.name), fixedSalary := Some(h.fixedSalary.GetOr(0.0)),
               itemRates := Some(h.itemRates.GetOr([])), updatedAt := now)
    ensures h.fixedSalary.Some? && h.itemRates.Some? && Trim(h.name) == h.name ==>
      MergeHospital(h, EditPatchOf(h), now) == h.(updatedAt := now)
  {
  }

  /** The values of the page's dialog and inputs at one moment. */
  datatype Inputs = Inputs(isOpen: bool, editingId: Option<string>, name: string, paymentModel: PaymentModel,
                           fixedRate: RateInput, perPatientRate: RateInput, fixedSalary: RateInput,
                           itemRates: seq<ItemRate>, newItemName: string, newItemRate: RateInput)

  /** The page's state. `store` is the app store. */
  class Form {
    const store: Store
    var isOpen: bool
    var editingId: Option<string>
    var name: string
    var paymentModel: PaymentModel
    var fixedRate: RateInput
    var perPatientRate: RateInput
    var fixedSalary: RateInput
    var itemRates: seq<ItemRate>
    var newItemName: string
    var newItemRate: RateInput

    /** The dialog and every input of the page, read at once. */
    function Current(): Inputs
      reads this
    {
      Inputs(isOpen, editingId, name, paymentModel, fixedRate, perPatientRate, fixedSalary, itemRates,
             newItemName, newItemRate)
    }

    /** The state resetForm restores: a blank `fixed` form that edits nothing. */
    predicate IsReset()
      reads this
    {
      && editingId.None? && name == "" && paymentModel == Fixed && fixedRate == Blank
      && perPatientRate == Blank && fixedSalary == Blank && itemRates == [] && newItemName == ""
      && newItemRate == Blank
    }

    constructor (store: Store)
      ensures this.store == store && IsReset() && !isOpen
    {
      this.store := store;
      isOpen := false;
      editingId, name, paymentModel := None, "", Fixed;
      fixedRate, perPatientRate, fixedSalary := Blank, Blank, Blank;
      itemRates, newItemName, newItemRate := [], "", Blank;
    }

    /** resetForm; the dialog's open flag is left as it is. */
    method ResetForm()
      modifies this
      ensures IsReset() && isOpen == old(isOpen)
    {
      name := "";
      paymentModel := Fixed;
      fixedRate := Blank;
      perPatientRate := Blank;
      fixedSalary := Blank;
      itemRates := [];
      newItemName := "";
      newItemRate := Blank;
      editingId := None;
    }

    /** The dialog's `onOpenChange`: opening it keeps every input; closing it also wipes the form. */
    method HandleOpenChange(open: bool)
      modifies this
      ensures open ==> Current() == old(Current()).(isOpen := true)
      ensures !open ==> !isOpen && IsReset()
    {
      isOpen := open;
      if !open {
        ResetForm();
      }
    }

    /** openEditDialog: loads `h` (`toString` then `parseFloat` gives each rate back; an absent fixed
        salary shows as a blank field, absent item rates as an empty list) and opens the dialog.
        The new-item inputs keep what they held. */
    method OpenEditDialog(h: Hospital)
      modifies this
      ensures editingId == Some(h.id) && name == h.name && paymentModel == h.paymentModel
      ensures fixedRate == Entered(h.fixedRate) && perPatientRate == Entered(h.perPatientRate)
      ensures fixedSalary == if h.fixedSalary.Some? then Entered(h.fixedSalary.value) else Blank
      ensures itemRates == h.itemRates.GetOr([])
      ensures isOpen
      ensures newItemName == old(newItemName) && newItemRate == old(newItemRate)
      ensures SubmittedPatch() == EditPatchOf(h)
    {
      editingId := Some(h.id);
      name := h.name;
      paymentModel := h.paymentModel;
      fixedRate := Entered(h.fixedRate);
      perPatientRate := Entered(h.perPatientRate);
      fixedSalary := if h.fixedSalary.Some? then Entered(h.fixedSalary.value) else Blank;
      itemRates := h.itemRates.GetOr([]);
      isOpen := true;
    }

    /** handleAddItem: with a blank (trimmed) name or a blank rate nothing happens; otherwise one item
        with the trimmed name is appended and both inputs are cleared. `newId` stands for the random
        item id. */
    method HandleAddItem(newId: string)
      requires forall i :: 0 <= i < |itemRates| ==> itemRates[i].id != newId
      modifies this
      ensures Trim(old(newItemName)) == "" || old(newItemRate).Blank? ==> Current() == old(Current())
      ensures Trim(old(newItemName)) != "" && old(newItemRate).Entered? ==>
        Current() == old(Current()).(itemRates := old(itemRates) + [ItemRate(newId, Trim(old(newItemName)), old(newItemRate).value)],
                                     newItemName := "", newItemRate := Blank)
      ensures UniqueKeys(old(itemRates), ItemKey) ==> UniqueKeys(itemRates, ItemKey)
    {
      if Trim(newItemName) == "" || newItemRate.Blank? {
        return;
      }
      var item := ItemRate(newId, Trim(newItemName), newItemRate.value);
      if UniqueKeys(itemRates, ItemKey) {
        AppendKeepsUniqueKeys(itemRates, item, ItemKey);
      }
      itemRates := itemRates + [item];
      newItemName := "";
      newItemRate := Blank;
    }

    /** handleDeleteItem */
    method HandleDeleteItem(id: string)
      modifies this
      ensures Current() == old(Current()).(itemRates := ItemsWithout(old(itemRates), id))
    {
      itemRates := ItemsWithout(itemRates, id);
    }

    /** The `hospitalData` handleSubmit builds: trimmed name, unparsable rates as 0, and the fixed
        salary and item list whatever the payment model; no colour, so addHospital picks one. */
    function SubmittedData(): (d: HospitalData)
      reads this
      ensures d.name == Trim(name) && d.paymentModel == paymentModel
      ensures d.fixedRate == RateOrZero(fixedRate) && d.perPatientRate == RateOrZero(perPatientRate)
      ensures d.fixedSalary == Some(RateOrZero(fixedSalary)) && d.itemRates == Some(itemRates)
      ensures d.color.None?
    {
      HospitalData(Trim(name), paymentModel, RateOrZero(fixedRate), RateOrZero(perPatientRate),
                   Some(RateOrZero(fixedSalary)), Some(itemRates), None)
    }

    /** The same `hospitalData` as a partial update: it sets every field it carries and leaves the
        id, colour and creation time alone. */
    function SubmittedPatch(): (u: HospitalPatch)
      reads this
      ensures var d := SubmittedData();
        u == HospitalPatch(Keep, Put(d.name), Put(d.paymentModel), Put(d.fixedRate), Put(d.perPatientRate),
                           Put(d.fixedSalary), Put(d.itemRates), Keep, Keep)
    {
      HospitalPatch(Keep, Put(Trim(name)), Put(paymentModel), Put(RateOrZero(fixedRate)),
                    Put(RateOrZero(perPatientRate)), Put(Some(RateOrZero(fixedSalary))), Put(Some(itemRates)),
                    Keep, Keep)
    }

    /** handleSubmit: a blank name changes nothing; a truthy `editingId` updates that hospital,
        otherwise a new one is added; either way the form is reset and closed. `newId` stands for
        generateId(). */
    method HandleSubmit(newId: string, now: Instant) returns (outcome: SubmitOutcome)
      requires forall i :: 0 <= i < |store.hospitals| ==> store.hospitals[i].id != newId
      modifies this, store
      ensures Trim(old(name)) == "" ==>
        outcome == NameMissing && store.hospitals == old(store.hospitals) && Current() == old(Current())
      ensures Trim(old(name)) != "" && old(editingId).Some? && old(editingId).value != "" ==>
        && outcome == Updated(old(editingId).value)
        && store.hospitals == UpdatedHospitals(old(store.hospitals), old(editingId).value, old(SubmittedPatch()), now)
      ensures Trim(old(name)) != "" && !(old(editingId).Some? && old(editingId).value != "") ==>
        && outcome == Added
        && store.hospitals == old(store.hospitals) + [NewHospital(old(SubmittedData()), newId, now, |old(store.hospitals)|)]
        && store.hospitals[|store.hospitals| - 1].color == Some(PaletteColor(|old(store.hospitals)|))
      ensures Trim(old(name)) != "" ==> IsReset() && !isOpen
      ensures store.shifts == old(store.shifts)
    {
      if Trim(name) == "" {
        return NameMissing;
      }
      var data := SubmittedData();
      if editingId.Some? && editingId.value != "" {
        store.UpdateHospital(editingId.value, SubmittedPatch(), now);
        outcome := Updated(editingId.value);
      } else {
        store.AddHospital(data, newId, now);
        outcome := Added;
      }
      ResetForm();
      isOpen := false;
    }
  }
}
