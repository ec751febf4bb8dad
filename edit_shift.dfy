/** The edit-shift page of src/pages/EditShift.tsx: shift length with midnight wrap, the partial-shift
    decision, and the update it sends to the store. */
module EditShift {
  import opened Types
  import opened Js
  import opened AppStore

  /** A wall-clock time as `time.split(":").map(Number)` reads it. */
  datatype ClockTime = ClockTime(hour: int, minute: int)

  /** What an `<input type="time">` holds: "HH:MM" with an hour below 24 and a minute below 60. */
  predicate ValidClock(t: ClockTime) {
    0 <= t.hour < 24 && 0 <= t.minute < 60
  }

  function MinuteOfDay(t: ClockTime): int {
    t.hour * 60 + t.minute
  }

  const MinutesPerDay: int := 24 * 60

  predicate IsDigit(c: char) {
    '0' <= c <= '9'
  }

  function DigitValue(c: char): int
    requires IsDigit(c)
  {
    c as int - '0' as int
  }

  function DigitChar(n: int): char
    requires 0 <= n < 10
  {
    ('0' as int + n) as char
  }

  /** `time.split(":").map(Number)` on the value of an `<input type="time">`, which is "HH:MM" or,
      when cleared, empty; the empty string reads as NaN (None). */
  function ParseClock(t: string): (r: Option<ClockTime>)
    ensures r.Some? ==> 0 <= r.value.hour <= 99 && 0 <= r.value.minute <= 99
    ensures t == "" ==> r.None?
  {
    if |t| == 5 && IsDigit(t[0]) && IsDigit(t[1]) && t[2] == ':' && IsDigit(t[3]) && IsDigit(t[4])
    then Some(ClockTime(10 * DigitValue(t[0]) + DigitValue(t[1]), 10 * DigitValue(t[3]) + DigitValue(t[4])))
    else None
  }

  /** How a time input shows a valid clock time: two-digit hour, a colon, two-digit minute. */
  function FormatClock(c: ClockTime): (t: string)
    requires ValidClock(c)
    ensures |t| == 5 && t[2] == ':'
  {
    [DigitChar(c.hour / 10), DigitChar(c.hour % 10), ':', DigitChar(c.minute / 10), DigitChar(c.minute % 10)]
  }

  /** Reading back what a time input shows gives the clock time it shows. */
  lemma ParseFormatClock(c: ClockTime)
    requires ValidClock(c)
    ensures ParseClock(FormatClock(c)) == Some(c)
  {
    var t := FormatClock(c);
    assert DigitValue(t[0]) == c.hour / 10 && DigitValue(t[1]) == c.hour % 10;
    assert DigitValue(t[3]) == c.minute / 10 && DigitValue(t[4]) == c.minute % 10;
  }

  /** The `mins` of calcShiftHours: the clock runs `mins` minutes from start to end, and a shift
      that ends at or before its start runs past midnight. */
  function ShiftMinutes(start: ClockTime, end: ClockTime): (mins: int)
    ensures ValidClock(start) && ValidClock(end) ==>
      0 < mins <= MinutesPerDay && (MinuteOfDay(start) + mins) % MinutesPerDay == MinuteOfDay(end)
  {
    var raw := MinuteOfDay(end) - MinuteOfDay(start);
    if raw <= 0 then raw + MinutesPerDay else raw
  }

  /** calcShiftHours: the length in hours rounded to two decimals; NaN (None) when a time did not parse. */
  function CalcShiftHours(start: Option<ClockTime>, end: Option<ClockTime>): (r: Option<real>)
    ensures r.None? <==> start.None? || end.None?
  {
    if start.None? || end.None? then None
    else Some(Round(ShiftMinutes(start.value, end.value) as real / 60.0 * 100.0) as real / 100.0)
  }

  lemma ClockEqualIff(a: ClockTime, b: ClockTime)
    requires ValidClock(a) && ValidClock(b)
    ensures MinuteOfDay(a) == MinuteOfDay(b) <==> a == b
  {
    if a.hour < b.hour {
      assert MinuteOfDay(a) < (a.hour + 1) * 60 <= MinuteOfDay(b);
    } else if b.hour < a.hour {
      assert MinuteOfDay(b) < (b.hour + 1) * 60 <= MinuteOfDay(a);
    }
  }

  /** For valid times the length lies in (0, 24], is 24 exactly when start equals end, is a whole
      number of hundredths of an hour, and is within half a hundredth of the exact length. */
  lemma ShiftHoursRange(start: ClockTime, end: ClockTime)
    requires ValidClock(start) && ValidClock(end)
    ensures var h := CalcShiftHours(Some(start), Some(end)).value;
      && 0.0 < h <= 24.0
      && (h == 24.0 <==> start == end)
      && -0.005 <= h - ShiftMinutes(start, end) as real / 60.0 <= 0.005
      && (h * 100.0).Floor as real == h * 100.0
  {
    var mins := ShiftMinutes(start, end);
    var x := mins as real / 60.0 * 100.0;
    var k := Round(x);
    assert x == mins as real * 5.0 / 3.0;
    assert k >= 2;
    if mins < MinutesPerDay {
      assert x <= 1439.0 * 5.0 / 3.0;
      assert k <= 2398;
    } else {
      assert x == 2400.0;
      RoundOfInteger(2400);
    }
    ClockEqualIff(start, end);
  }

  /** Worked examples: an overnight shift and a day shift of eight hours each, and a full day, read from the time inputs. */
  lemma ShiftHoursExamples()
    ensures CalcShiftHours(ParseClock("22:00"), ParseClock("06:00")) == Some(8.0)
    ensures CalcShiftHours(ParseClock("09:00"), ParseClock("17:00")) == Some(8.0)
    ensures CalcShiftHours(ParseClock("09:00"), ParseClock("09:00")) == Some(24.0)
  {
    assert ParseClock("22:00") == Some(ClockTime(22, 0));
    assert ParseClock("06:00") == Some(ClockTime(6, 0));
    assert ParseClock("09:00") == Some(ClockTime(9, 0));
    assert ParseClock("17:00") == Some(ClockTime(17, 0));
    RoundOfInteger(800);
    RoundOfInteger(2400);
  }

  /** The pro-rata rate `Math.round(estimated / 24 * hours)`. */
  function ProRata(estimate: real, hours: real): (r: int)
    ensures hours == 24.0 ==> r == Round(estimate)
    ensures hours == 0.0 ==> r == 0
  {
    Round(estimate / 24.0 * hours)
  }

  /** For a non-negative estimate and a partial shift, the pro-rata rate is between 0 and the
      rounded full estimate. */
  lemma ProRataBounds(estimate: real, hours: real)
    requires 0.0 <= estimate && 0.0 < hours <= 24.0
    ensures 0 <= ProRata(estimate, hours) <= Round(estimate)
  {
    assert 0.0 <= estimate / 24.0 * hours <= estimate;
    RoundMonotone(0.0, estimate / 24.0 * hours);
    RoundMonotone(estimate / 24.0 * hours, estimate);
    RoundOfInteger(0);
  }

  /** What handleSave does: open the partial-shift dialog with a pending rate, or save at once. */
  datatype SaveDecision = AskPartial(hours: real, pendingRate: int) | SaveNow(customRate: Option<real>)

  /** handleSave's branch; `directRate` is the custom-rate toggle's rate (or undefined). NaN hours
      fail `hours < 24` and so save at once. */
  function DecideSave(hours: Option<real>, useCustomRate: bool, estimate: real, directRate: Option<real>)
    : (d: SaveDecision)
    ensures d.AskPartial? <==> hours.Some? && hours.value < 24.0 && !useCustomRate
    ensures d.AskPartial? ==> d.hours == hours.value && d.pendingRate == ProRata(estimate, hours.value)
    ensures d.SaveNow? ==> d.customRate == directRate
  {
    if hours.Some? && hours.value < 24.0 && !useCustomRate
    then AskPartial(hours.value, ProRata(estimate, hours.value))
    else SaveNow(directRate)
  }

  /** For valid times the dialog opens exactly when the shift is shorter than a full day (start and
      end differ) and the custom-rate toggle is off. */
  lemma PartialDialogIffShortShift(start: ClockTime, end: ClockTime, useCustomRate: bool, estimate: real,
                                   directRate: Option<real>)
    requires ValidClock(start) && ValidClock(end)
    ensures DecideSave(CalcShiftHours(Some(start), Some(end)), useCustomRate, estimate, directRate).AskPartial?
        <==> start != end && !useCustomRate
  {
    ShiftHoursRange(start, end);
  }

  /** Saving the pending pro-rata rate stores it when it is positive; a rate that rounded to 0 is
      not an override, and the shift is priced by the hospital's full payment model instead. */
  lemma PendingRateEarnings(hs: seq<Hospital>, id: string, casesCount: int, pending: int)
    requires exists i :: 0 <= i < |hs| && hs[i].id == id
    ensures pending > 0 ==> CalculateShiftEarnings(hs, id, casesCount, Some(pending as real)) == pending as real
    ensures pending <= 0 ==>
      CalculateShiftEarnings(hs, id, casesCount, Some(pending as real)) == CalculateShiftEarnings(hs, id, casesCount, None)
  {
  }

  /** The values of the page's inputs and dialog state at one moment. */
  datatype Inputs = Inputs(hospitalId: string, date: Instant, startTime: string, endTime: string,
                           casesCount: Option<int>, proceduresCount: Option<int>, notes: string,
                           useCustomRate: bool, customRate: RateInput, itemCounts: map<string, int>,
                           partialDialogOpen: bool, partialHours: real, pendingCustomRate: Option<real>)

  /** The page's state, pre-filled from the shift being edited. `store` is the app store. */
  class Form {
    const store: Store
    const shiftId: string
    var hospitalId: string
    var date: Instant
    var startTime: string
    var endTime: string
    var casesCount: Option<int>       // parseInt of the cases field (None: NaN)
    var proceduresCount: Option<int>  // parseInt of the procedures field (None: NaN)
    var notes: string
    var useCustomRate: bool
    var customRate: RateInput
    var itemCounts: map<string, int>
    var partialDialogOpen: bool
    var partialHours: real
    var pendingCustomRate: Option<real>

    /** The state of the page opened on `shift`, the first stored shift with the route's id:
        `toString` then `parseInt` gives the stored counts back, and the custom-rate toggle is on
        when the stored rate is truthy. */
    constructor (store: Store, shift: Shift)
      requires exists k ::
                 && 0 <= k < |store.shifts| && store.shifts[k] == shift
                 && forall j :: 0 <= j < k ==> store.shifts[j].id != shift.id
      ensures this.store == store && shiftId == shift.id
      ensures hospitalId == shift.hospitalId && date == shift.date
      ensures startTime == shift.startTime && endTime == shift.endTime
      ensures casesCount == Some(shift.casesCount) && proceduresCount == Some(shift.proceduresCount)
      ensures notes == shift.notes.GetOr("")
      ensures useCustomRate == (shift.customRate.Some? && shift.customRate.value != 0.0)
      ensures customRate == if shift.customRate.Some? then Entered(shift.customRate.value) else Blank
      ensures itemCounts == shift.itemCounts.GetOr(map[])
      ensures !partialDialogOpen && partialHours == 0.0 && pendingCustomRate.None?
    {
      this.store := store;
      shiftId := shift.id;
      hospitalId := shift.hospitalId;
      date := shift.date;
      startTime, endTime := shift.startTime, shift.endTime;
      casesCount, proceduresCount := Some(shift.casesCount), Some(shift.proceduresCount);
      notes := shift.notes.GetOr("");
      useCustomRate := shift.customRate.Some? && shift.customRate.value != 0.0;
      customRate := if shift.customRate.Some? then Entered(shift.customRate.value) else Blank;
      itemCounts := shift.itemCounts.GetOr(map[]);
      partialDialogOpen, partialHours, pendingCustomRate := false, 0.0, None;
    }

    /** Every input and the dialog state of the page, read at once. */
    function Current(): Inputs
      reads this
    {
      Inputs(hospitalId, date, startTime, endTime, casesCount, proceduresCount, notes, useCustomRate,
             customRate, itemCounts, partialDialogOpen, partialHours, pendingCustomRate)
    }

    function SelectedHospital(): Option<Hospital>
      reads this, store
    {
      FindHospital(store.hospitals, hospitalId)
    }

    predicate IsDetailed()
      reads this, store
    {
      SelectedHospital().Some? && SelectedHospital().value.paymentModel == Detailed
    }

    /** `useCustomRate ? parseFloat(customRate) || undefined : undefined` */
    function DirectRate(): (r: Option<real>)
      reads this
      ensures r.Some? ==> useCustomRate && customRate == Entered(r.value) && r.value != 0.0
      ensures useCustomRate && customRate.Entered? && customRate.value != 0.0 ==> r == Some(customRate.value)
    {
      if useCustomRate then RateOrUndefined(customRate) else None
    }

    /** estimatedEarnings: 0 without a hospital, otherwise the evaluator on the form's values. */
    function EstimatedEarnings(): (e: real)
      reads this, store
      ensures hospitalId == "" ==> e == 0.0
    {
      if hospitalId == "" then 0.0
      else CalculateShiftEarnings(store.hospitals, hospitalId, CountOrZero(casesCount), DirectRate())
    }

    /** The update doSave sends: every form field, counts defaulted to 0, trimmed notes (blank as
        undefined), item counts only for a detailed hospital. Because casesCount is always sent,
        the store always re-prices the shift. */
    function SavePatch(overrideRate: Option<real>): (u: ShiftPatch)
      reads this, store
      ensures RecomputesEarnings(u)
      ensures u.hospitalId == Put(hospitalId) && u.customRate == Put(overrideRate)
      ensures u.date == Put(date) && u.startTime == Put(startTime) && u.endTime == Put(endTime)
      ensures u.casesCount == Put(CountOrZero(casesCount)) && u.proceduresCount == Put(CountOrZero(proceduresCount))
      ensures u.notes == Put(TrimmedOrUndefined(notes))
      ensures u.itemCounts == Put(if IsDetailed() then Some(itemCounts) else None)
      ensures u.id.Keep? && u.includesOutpatient.Keep? && u.totalEarnings.Keep? && u.createdAt.Keep?
    {
      ShiftPatch(Keep, Put(hospitalId), Put(date), Put(startTime), Put(endTime),
                 Put(CountOrZero(casesCount)), Put(CountOrZero(proceduresCount)), Keep,
                 Put(TrimmedOrUndefined(notes)), Put(overrideRate),
                 Put(if IsDetailed() then Some(itemCounts) else None), Keep, Keep)
    }

    /** doSave: the edited shift is re-priced with `overrideRate` as its custom rate. */
    method DoSave(overrideRate: Option<real>, now: Instant)
      modifies store
      ensures store.shifts == UpdatedShifts(old(store.shifts), shiftId, old(SavePatch(overrideRate)), old(store.hospitals), now)
      ensures store.hospitals == old(store.hospitals)
      ensures forall i :: 0 <= i < |store.shifts| && old(store.shifts)[i].id == shiftId ==>
        store.shifts[i].totalEarnings
          == CalculateShiftEarnings(store.hospitals, hospitalId, CountOrZero(casesCount), overrideRate)
    {
      var u := SavePatch(overrideRate);
      UpdateShiftEffect(store.shifts, shiftId, u, store.hospitals, now);
      forall i | 0 <= i < |store.shifts| {
        UpdatedShiftEarnings(store.shifts[i], u, store.hospitals, now);
      }
      store.UpdateShift(shiftId, u, now);
    }

    /** handleSave: a partial shift without a custom rate opens the dialog and saves nothing;
        anything else (a full day, a toggle on, unparsable times) saves the direct rate. */
    method HandleSave(now: Instant)
      modifies this, store
      ensures var d := DecideSave(CalcShiftHours(ParseClock(old(startTime)), ParseClock(old(endTime))), old(useCustomRate), old(EstimatedEarnings()), old(DirectRate()));
        if d.AskPartial? then
          && Current() == old(Current()).(partialDialogOpen := true, partialHours := d.hours,
                                          pendingCustomRate := Some(d.pendingRate as real))
          && store.shifts == old(store.shifts)
        else
          && Current() == old(Current())
          && store.shifts == UpdatedShifts(old(store.shifts), shiftId, old(SavePatch(DirectRate())), old(store.hospitals), now)
          && (old(hospitalId) != "" ==> forall i :: 0 <= i < |store.shifts| && old(store.shifts)[i].id == shiftId ==>
                store.shifts[i].totalEarnings == old(EstimatedEarnings()))
      ensures store.hospitals == old(store.hospitals)
    {
      var hours := CalcShiftHours(ParseClock(startTime), ParseClock(endTime));
      var d := DecideSave(hours, useCustomRate, EstimatedEarnings(), DirectRate());
      if d.AskPartial? {
        partialHours := d.hours;
        pendingCustomRate := Some(d.pendingRate as real);
        partialDialogOpen := true;
        return;
      }
      DoSave(d.customRate, now);
    }

    /** handleConfirmHourly ("Calculate by Hours"): saves with the pending pro-rata rate. */
    method HandleConfirmHourly(now: Instant)
      modifies this, store
      ensures Current() == old(Current()).(partialDialogOpen := false)
      ensures store.shifts == UpdatedShifts(old(store.shifts), shiftId, old(SavePatch(pendingCustomRate)), old(store.hospitals), now)
      ensures forall i :: 0 <= i < |store.shifts| && old(store.shifts)[i].id == shiftId ==>
        store.shifts[i].totalEarnings
          == CalculateShiftEarnings(store.hospitals, hospitalId, CountOrZero(casesCount), pendingCustomRate)
      ensures store.hospitals == old(store.hospitals)
    {
      DoSave(pendingCustomRate, now);
      partialDialogOpen := false;
    }

    /** handleConfirmFixed ("Use Full Rate"): saves exactly as the direct path of handleSave does. */
    method HandleConfirmFixed(now: Instant)
      modifies this, store
      ensures Current() == old(Current()).(partialDialogOpen := false)
      ensures store.shifts == UpdatedShifts(old(store.shifts), shiftId, old(SavePatch(DirectRate())), old(store.hospitals), now)
      ensures hospitalId != "" ==> forall i :: 0 <= i < |store.shifts| && old(store.shifts)[i].id == shiftId ==>
        store.shifts[i].totalEarnings == old(EstimatedEarnings())
      ensures store.hospitals == old(store.hospitals)
    {
      DoSave(DirectRate(), now);
      partialDialogOpen := false;
    }

    /** The onChange of one service-count field: only that key changes, and nothing else on the page. */
    method SetItemCount(itemId: string, parsed: Option<int>)
      modifies this
      ensures Current() == old(Current()).(itemCounts := WithItemCount(old(itemCounts), itemId, parsed))
    {
      itemCounts := WithItemCount(itemCounts, itemId, parsed);
    }
  }
}
