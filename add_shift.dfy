/** The add-shift page of src/pages/AddShift.tsx: the earnings preview, the submit validation and
    the shift it hands to addShift. */
module AddShift {
  import opened Types
  import opened Js
  import opened AppStore

  /** Why handleSubmit showed an error toast and added nothing. */
  datatype SubmitError = NoHospital | NoDate

  /** The values of the page's inputs at one moment. */
  datatype Inputs = Inputs(hospitalId: string, date: Option<Instant>, startTime: string, endTime: string,
                           casesCount: Option<int>, proceduresCount: Option<int>, includesOutpatient: bool,
                           notes: string, customRate: RateInput, useCustomRate: bool,
                           itemCounts: map<string, int>)

  /** The page's state. `store` is the app store. */
  class Form {
    const store: Store
    var hospitalId: string
    var date: Option<Instant>
    var startTime: string
    var endTime: string
    var casesCount: Option<int>       // parseInt of the cases field (None: NaN)
    var proceduresCount: Option<int>  // parseInt of the procedures field (None: NaN)
    var includesOutpatient: bool
    var notes: string
    var customRate: RateInput
    var useCustomRate: bool
    var itemCounts: map<string, int>

    /** The page as it opens: no hospital, today, 09:00 to 09:00, empty fields. */
    constructor (store: Store, now: Instant)
      ensures this.store == store && hospitalId == "" && date == Some(now)
      ensures startTime == "09:00" && endTime == "09:00"
      ensures casesCount.None? && proceduresCount.None? && !includesOutpatient && notes == ""
      ensures customRate == Blank && !useCustomRate && itemCounts == map[]
    {
      this.store := store;
      hospitalId, date := "", Some(now);
      startTime, endTime := "09:00", "09:00";
      casesCount, proceduresCount := None, None;
      includesOutpatient, notes := false, "";
      customRate, useCustomRate := Blank, false;
      itemCounts := map[];
    }

    /** Every input of the form, read at once. */
    function Current(): Inputs
      reads this
    {
      Inputs(hospitalId, date, startTime, endTime, casesCount, proceduresCount, includesOutpatient, notes,
             customRate, useCustomRate, itemCounts)
    }

    function SelectedHospital(): Option<Hospital>
      reads this, store
    {
      FindHospital(store.hospitals, hospitalId)
    }

    predicate IsDetailed()
      reads this, store
    {
      SelectedHospital().Some? && SelectedHospital().value.paymentModel == Detailed
    }

    /** `useCustomRate ? parseFloat(customRate) || undefined : undefined` */
    function DirectRate(): (r: Option<real>)
      reads this
      ensures r.Some? ==> useCustomRate && customRate == Entered(r.value) && r.value != 0.0
      ensures useCustomRate && customRate.Entered? && customRate.value != 0.0 ==> r == Some(customRate.value)
    {
      if useCustomRate then RateOrUndefined(customRate) else None
    }

    /** estimatedEarnings: 0 unless a hospital is selected and found. */
    function EstimatedEarnings(): (e: real)
      reads this, store
      ensures hospitalId == "" || SelectedHospital().None? ==> e == 0.0
    {
      if hospitalId != "" && SelectedHospital().Some?
      then CalculateShiftEarnings(store.hospitals, hospitalId, CountOrZero(casesCount), DirectRate())
      else 0.0
    }

    /** handleSubmit's validation and the object it passes to addShift. The shift the store will
        price is priced exactly as the preview was. */
    function Payload(): (r: Result<ShiftData, SubmitError>)
      reads this, store
      ensures r == Failure(NoHospital) <==> hospitalId == ""
      ensures r == Failure(NoDate) <==> hospitalId != "" && date.None?
      ensures r.Success? ==> && r.value.hospitalId == hospitalId && date == Some(r.value.date)
                             && r.value.startTime == startTime && r.value.endTime == endTime
                             && r.value.casesCount == CountOrZero(casesCount)
                             && r.value.proceduresCount == CountOrZero(proceduresCount)
                             && r.value.includesOutpatient == includesOutpatient
      ensures r.Success? ==> r.value.customRate == DirectRate()
      ensures r.Success? ==> r.value.notes == TrimmedOrUndefined(notes)
      ensures r.Success? ==> (r.value.itemCounts.Some? <==> IsDetailed())
                             && (r.value.itemCounts.Some? ==> r.value.itemCounts.value == itemCounts)
      ensures r.Success? ==>
        CalculateShiftEarnings(store.hospitals, r.value.hospitalId, r.value.casesCount, r.value.customRate)
          == EstimatedEarnings()
    {
      if hospitalId == "" then Failure(NoHospital)
      else if date.None? then Failure(NoDate)
      else Success(ShiftData(hospitalId, date.value, startTime, endTime, CountOrZero(casesCount),
                             CountOrZero(proceduresCount), includesOutpatient, TrimmedOrUndefined(notes),
                             DirectRate(), if IsDetailed() then Some(itemCounts) else None))
    }

    /** handleSubmit: nothing is added without a hospital or a date; otherwise one shift is
        appended whose stored earnings equal the estimate shown. `newId` stands for generateId(). */
    method HandleSubmit(newId: string, now: Instant) returns (r: Result<ShiftData, SubmitError>)
      requires forall i :: 0 <= i < |store.shifts| ==> store.shifts[i].id != newId
      modifies store
      ensures r == old(Payload())
      ensures r.Failure? ==> store.shifts == old(store.shifts)
      ensures r.Success? ==> store.shifts == old(store.shifts) + [NewShift(r.value, newId, now, old(store.hospitals))]
      ensures r.Success? ==> store.shifts[|store.shifts| - 1].totalEarnings == old(EstimatedEarnings())
      ensures store.hospitals == old(store.hospitals)
    {
      r := Payload();
      if r.Failure? {
        return;
      }
      store.AddShift(r.value, newId, now);
    }

    /** The onChange of one service-count field: only that key changes, and no other input. */
    method SetItemCount(itemId: string, parsed: Option<int>)
      modifies this
      ensures Current() == old(Current()).(itemCounts := WithItemCount(old(itemCounts), itemId, parsed))
    {
      itemCounts := WithItemCount(itemCounts, itemId, parsed);
    }
  }
}
