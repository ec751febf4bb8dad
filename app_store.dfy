/** The domain store of src/stores/appStore.ts: two collections, the earnings evaluator, and the
    six mutators that replace the collections in place. */
module AppStore {
  import opened Types
  import opened Seqs

  /** HOSPITAL_COLORS: the palette new hospitals cycle through. */
  const HospitalColors: seq<string> :=
    ["#3b82f6", "#10b981", "#f59e0b", "#8b5cf6", "#ec4899", "#06b6d4", "#f97316", "#6366f1"]

  /** The palette colour given to a hospital added when `count` hospitals already exist. */
  function PaletteColor(count: nat): (c: string)
    ensures c in HospitalColors && c != ""
  {
    HospitalColors[count % |HospitalColors|]
  }

  /** The palette repeats every eight hospitals, and eight hospitals added in a row all differ. */
  lemma PaletteCycles(n: nat)
    ensures PaletteColor(n + 8) == PaletteColor(n)
    ensures forall m: nat :: n < m < n + 8 ==> PaletteColor(m) != PaletteColor(n)
  {
    assert Distinct(HospitalColors);
  }

  function HospitalKey(h: Hospital): string { h.id }
  function ShiftKey(s: Shift): string { s.id }

  /** `k` is the position of the first hospital whose id is `id`. */
  predicate FirstWithId(hs: seq<Hospital>, id: string, k: int) {
    0 <= k < |hs| && hs[k].id == id && forall j :: 0 <= j < k ==> hs[j].id != id
  }

  /** The position of the first hospital whose id is `id`. */
  function FirstIndex(hs: seq<Hospital>, id: string): (r: Option<nat>)
    ensures r.None? <==> forall i :: 0 <= i < |hs| ==> hs[i].id != id
    ensures r.Some? ==> FirstWithId(hs, id, r.value)
  {
    if hs == [] then None
    else if hs[0].id == id then Some(0)
    else match FirstIndex(hs[1..], id)
      case None => None
      case Some(k) => Some(k + 1)
  }

  /** `hospitals.find((h) => h.id === id)` */
  function FindHospital(hs: seq<Hospital>, id: string): (r: Option<Hospital>)
    ensures r.None? <==> forall i :: 0 <= i < |hs| ==> hs[i].id != id
    ensures r.Some? ==> r.value in hs && r.value.id == id
  {
    match FirstIndex(hs, id)
    case None => None
    case Some(k) => Some(hs[k])
  }

  /** find returns the first match. */
  lemma FindFirst(hs: seq<Hospital>, id: string, k: int)
    requires FirstWithId(hs, id, k)
    ensures FirstIndex(hs, id) == Some(k)
    ensures FindHospital(hs, id) == Some(hs[k])
  {
    var k' := FirstIndex(hs, id).value;
    assert !(k' < k) && !(k < k');
  }

  /** Two hospital lists with the same ids position by position find the same position. */
  lemma {:induction false} FirstIndexByIds(hs: seq<Hospital>, hs': seq<Hospital>, id: string)
    requires |hs| == |hs'|
    requires forall i :: 0 <= i < |hs| ==> hs[i].id == hs'[i].id
    ensures FirstIndex(hs, id) == FirstIndex(hs', id)
  {
    if hs != [] && hs[0].id != id {
      FirstIndexByIds(hs[1..], hs'[1..], id);
    }
  }

  /** No hospital has a negative fixed or per-patient rate. */
  predicate NonNegativeRates(hospitals: seq<Hospital>) {
    forall i :: 0 <= i < |hospitals| ==> hospitals[i].fixedRate >= 0.0 && hospitals[i].perPatientRate >= 0.0
  }

  /** calculateShiftEarnings: the hospital is looked up first, a positive custom rate then overrides
      the payment model, and only `fixed`, `per_patient` and `mixed` have a formula. */
  function CalculateShiftEarnings(hospitals: seq<Hospital>, hospitalId: string, casesCount: int,
                                  customRate: Option<real>): (r: real)
    ensures r != 0.0 ==> FindHospital(hospitals, hospitalId).Some?
  {
    match FindHospital(hospitals, hospitalId)
    case None => 0.0
    case Some(h) =>
      if customRate.Some? && customRate.value > 0.0 then customRate.value
      else
        match h.paymentModel
        case Fixed => h.fixedRate
        case PerPatient => casesCount as real * h.perPatientRate
        case Mixed => h.fixedRate + casesCount as real * h.perPatientRate
        case Detailed => 0.0
  }

  /** With no negative rate and no negative case count, no shift earns a negative amount. */
  lemma EarningsNonNegative(hs: seq<Hospital>, id: string, casesCount: int, customRate: Option<real>)
    requires NonNegativeRates(hs) && casesCount >= 0
    ensures CalculateShiftEarnings(hs, id, casesCount, customRate) >= 0.0
  {
    var found := FindHospital(hs, id);
    if found.Some? {
      var h := found.value;
      assert h.fixedRate >= 0.0 && h.perPatientRate >= 0.0;
      assert casesCount as real * h.perPatientRate >= 0.0;
    }
  }

  /** With no hospital of that id the result is 0, even for a positive custom rate. */
  lemma EarningsOfUnknownHospital(hs: seq<Hospital>, id: string, casesCount: int, customRate: Option<real>)
    requires forall i :: 0 <= i < |hs| ==> hs[i].id != id
    ensures CalculateShiftEarnings(hs, id, casesCount, customRate) == 0.0
  {
  }

  /** Once the hospital exists, a positive custom rate is the result under every payment model. */
  lemma EarningsOfCustomRate(hs: seq<Hospital>, id: string, casesCount: int, rate: real)
    requires exists i :: 0 <= i < |hs| && hs[i].id == id
    requires rate > 0.0
    ensures CalculateShiftEarnings(hs, id, casesCount, Some(rate)) == rate
  {
  }

  /** Without a positive custom rate, the first hospital with that id decides by its payment model;
      any case count is used as given, and `fixedSalary` and `itemRates` are never read. */
  lemma EarningsByModel(hs: seq<Hospital>, id: string, k: int, casesCount: int, customRate: Option<real>)
    requires FirstWithId(hs, id, k)
    requires customRate.None? || customRate.value <= 0.0
    ensures var e := CalculateShiftEarnings(hs, id, casesCount, customRate);
      && (hs[k].paymentModel == Fixed ==> e == hs[k].fixedRate)
      && (hs[k].paymentModel == PerPatient ==> e == casesCount as real * hs[k].perPatientRate)
      && (hs[k].paymentModel == Mixed ==> e == hs[k].fixedRate + casesCount as real * hs[k].perPatientRate)
      && (hs[k].paymentModel == Detailed ==> e == 0.0)
  {
    FindFirst(hs, id, k);
  }

  /** The `mixed` amount is the `fixed` amount plus the `per_patient` amount of the same hospital. */
  lemma MixedIsFixedPlusPerPatient(hs: seq<Hospital>, id: string, k: int, casesCount: int)
    requires FirstWithId(hs, id, k)
    ensures CalculateShiftEarnings(hs[k := hs[k].(paymentModel := Mixed)], id, casesCount, None)
         == CalculateShiftEarnings(hs[k := hs[k].(paymentModel := Fixed)], id, casesCount, None)
          + CalculateShiftEarnings(hs[k := hs[k].(paymentModel := PerPatient)], id, casesCount, None)
  {
    EarningsWithModel(hs, id, k, casesCount, Mixed);
    EarningsWithModel(hs, id, k, casesCount, Fixed);
    EarningsWithModel(hs, id, k, casesCount, PerPatient);
  }

  lemma EarningsWithModel(hs: seq<Hospital>, id: string, k: int, casesCount: int, model: PaymentModel)
    requires FirstWithId(hs, id, k)
    ensures var e := CalculateShiftEarnings(hs[k := hs[k].(paymentModel := model)], id, casesCount, None);
      && (model == Fixed ==> e == hs[k].fixedRate)
      && (model == PerPatient ==> e == casesCount as real * hs[k].perPatientRate)
      && (model == Mixed ==> e == hs[k].fixedRate + casesCount as real * hs[k].perPatientRate)
  {
    var m := hs[k := hs[k].(paymentModel := model)];
    assert FirstWithId(m, id, k);
    EarningsByModel(m, id, k, casesCount, None);
  }

  /** Two hospitals agree on everything the evaluator reads. */
  predicate SameRates(a: Hospital, b: Hospital) {
    a.id == b.id && a.paymentModel == b.paymentModel && a.fixedRate == b.fixedRate
    && a.perPatientRate == b.perPatientRate
  }

  /** The result depends on nothing but ids, payment models and the two rates: names, colours,
      timestamps, `fixedSalary` and `itemRates` can be anything. */
  lemma EarningsReadOnlyRates(hs: seq<Hospital>, hs': seq<Hospital>, id: string,
                               casesCount: int, customRate: Option<real>)
    requires |hs| == |hs'|
    requires forall i :: 0 <= i < |hs| ==> SameRates(hs[i], hs'[i])
    ensures CalculateShiftEarnings(hs, id, casesCount, customRate)
         == CalculateShiftEarnings(hs', id, casesCount, customRate)
  {
    FirstIndexByIds(hs, hs', id);
    var k := FirstIndex(hs, id);
    if k.Some? {
      assert FindHospital(hs, id) == Some(hs[k.value]) && FindHospital(hs', id) == Some(hs'[k.value]);
      assert SameRates(hs[k.value], hs'[k.value]);
    }
  }

  // ---------------------------------------------------------------- inputs and partial updates

  /** `Omit<Hospital, "id" | "createdAt" | "updatedAt">`, the argument of addHospital. */
  datatype HospitalData = HospitalData(
    name: string, paymentModel: PaymentModel, fixedRate: real, perPatientRate: real,
    fixedSalary: Option<real>, itemRates: Option<seq<ItemRate>>, color: Option<string>)

  /** `Omit<Shift, "id" | "createdAt" | "updatedAt" | "totalEarnings">`, the argument of addShift. */
  datatype ShiftData = ShiftData(
    hospitalId: string, date: Instant, startTime: string, endTime: string,
    casesCount: int, proceduresCount: int, includesOutpatient: bool,
    notes: Option<string>, customRate: Option<real>, itemCounts: Option<map<string, int>>)

  /** One key of a `Partial<...>` update object: absent, or present with a value. For an optional
      field the value may itself be `undefined` (`Put(None)`), which the spread then copies. */
  datatype Patch<T> = Keep | Put(value: T) {
    function Over(current: T): T {
      if Put? then value else current
    }
  }

  /** `Partial<Hospital>` (an `updatedAt` key would be overwritten, so it is not represented). */
  datatype HospitalPatch = HospitalPatch(
    id: Patch<string>, name: Patch<string>, paymentModel: Patch<PaymentModel>,
    fixedRate: Patch<real>, perPatientRate: Patch<real>, fixedSalary: Patch<Option<real>>,
    itemRates: Patch<Option<seq<ItemRate>>>, color: Patch<Option<string>>, createdAt: Patch<Instant>)

  /** `Partial<Shift>` (an `updatedAt` key would be overwritten, so it is not represented). */
  datatype ShiftPatch = ShiftPatch(
    id: Patch<string>, hospitalId: Patch<string>, date: Patch<Instant>,
    startTime: Patch<string>, endTime: Patch<string>, casesCount: Patch<int>,
    proceduresCount: Patch<int>, includesOutpatient: Patch<bool>, notes: Patch<Option<string>>,
    customRate: Patch<Option<real>>, itemCounts: Patch<Option<map<string, int>>>,
    totalEarnings: Patch<real>, createdAt: Patch<Instant>)

  /** The hospital addHospital appends when `count` hospitals exist: a truthy supplied colour is kept,
      otherwise the palette colour for `count` is used. */
  function NewHospital(data: HospitalData, id: string, now: Instant, count: nat): (h: Hospital)
    ensures h.id == id && h.createdAt == now && h.updatedAt == now
    ensures h.color == if data.color.Some? && data.color.value != "" then data.color else Some(PaletteColor(count))
    ensures h.color.Some? && h.color.value != ""
  {
    Hospital(id, data.name, data.paymentModel, data.fixedRate, data.perPatientRate, data.fixedSalary,
             data.itemRates,
             if data.color.Some? && data.color.value != "" then data.color else Some(PaletteColor(count)),
             now, now)
  }

  /** `{ ...h, ...updates, updatedAt: new Date() }` */
  function MergeHospital(h: Hospital, u: HospitalPatch, now: Instant): (r: Hospital)
    ensures r.updatedAt == now
    ensures u == HospitalPatch(Keep, Keep, Keep, Keep, Keep, Keep, Keep, Keep, Keep) ==> r == h.(updatedAt := now)
  {
    Hospital(u.id.Over(h.id), u.name.Over(h.name), u.paymentModel.Over(h.paymentModel),
             u.fixedRate.Over(h.fixedRate), u.perPatientRate.Over(h.perPatientRate),
             u.fixedSalary.Over(h.fixedSalary), u.itemRates.Over(h.itemRates), u.color.Over(h.color),
             u.createdAt.Over(h.createdAt), now)
  }

  /** The hospitals after updateHospital(id, u). */
  function UpdatedHospitals(hs: seq<Hospital>, id: string, u: HospitalPatch, now: Instant): (r: seq<Hospital>)
    ensures |r| == |hs|
  {
    seq(|hs|, i requires 0 <= i < |hs| => if hs[i].id == id then MergeHospital(hs[i], u, now) else hs[i])
  }

  /** updateHospital changes exactly the entries with that id (merging and stamping them), is the
      identity when no entry has it, and keeps the ids unique unless the update sets an id. */
  lemma UpdateHospitalEffect(hs: seq<Hospital>, id: string, u: HospitalPatch, now: Instant)
    ensures forall i :: 0 <= i < |hs| && hs[i].id != id ==> UpdatedHospitals(hs, id, u, now)[i] == hs[i]
    ensures forall i :: 0 <= i < |hs| && hs[i].id == id ==>
      UpdatedHospitals(hs, id, u, now)[i] == MergeHospital(hs[i], u, now)
      && UpdatedHospitals(hs, id, u, now)[i].updatedAt == now
    ensures (forall i :: 0 <= i < |hs| ==> hs[i].id != id) ==> UpdatedHospitals(hs, id, u, now) == hs
    ensures u.id.Keep? && UniqueKeys(hs, HospitalKey) ==> UniqueKeys(UpdatedHospitals(hs, id, u, now), HospitalKey)
  {
    var r := UpdatedHospitals(hs, id, u, now);
    assert forall i :: 0 <= i < |hs| && u.id.Keep? ==> HospitalKey(r[i]) == HospitalKey(hs[i]);
  }

  /** A stored shift built from addShift's argument, its earnings computed against `hospitals`. */
  function NewShift(data: ShiftData, id: string, now: Instant, hospitals: seq<Hospital>): (s: Shift)
    ensures s.id == id && s.createdAt == now && s.updatedAt == now
    ensures s.totalEarnings == CalculateShiftEarnings(hospitals, data.hospitalId, data.casesCount, data.customRate)
  {
    Shift(id, data.hospitalId, data.date, data.startTime, data.endTime, data.casesCount,
          data.proceduresCount, data.includesOutpatient, data.notes, data.customRate, data.itemCounts,
          CalculateShiftEarnings(hospitals, data.hospitalId, data.casesCount, data.customRate), now, now)
  }

  /** `{ ...s, ...updates, updatedAt: new Date() }` */
  function MergeShift(s: Shift, u: ShiftPatch, now: Instant): (r: Shift)
    ensures r.updatedAt == now
    ensures u == ShiftPatch(Keep, Keep, Keep, Keep, Keep, Keep, Keep, Keep, Keep, Keep, Keep, Keep, Keep) ==>
      r == s.(updatedAt := now)
  {
    Shift(u.id.Over(s.id), u.hospitalId.Over(s.hospitalId), u.date.Over(s.date),
          u.startTime.Over(s.startTime), u.endTime.Over(s.endTime), u.casesCount.Over(s.casesCount),
          u.proceduresCount.Over(s.proceduresCount), u.includesOutpatient.Over(s.includesOutpatient),
          u.notes.Over(s.notes), u.customRate.Over(s.customRate), u.itemCounts.Over(s.itemCounts),
          u.totalEarnings.Over(s.totalEarnings), u.createdAt.Over(s.createdAt), now)
  }

  /** Applying the same update twice is applying it once: the spread is idempotent. */
  lemma MergeTwice(h: Hospital, hu: HospitalPatch, s: Shift, su: ShiftPatch, t1: Instant, t2: Instant)
    ensures MergeHospital(MergeHospital(h, hu, t1), hu, t2) == MergeHospital(h, hu, t2)
    ensures MergeShift(MergeShift(s, su, t1), su, t2) == MergeShift(s, su, t2)
  {
  }

  /** The guard of updateShift: a truthy hospitalId, or a casesCount or customRate that is not undefined. */
  predicate RecomputesEarnings(u: ShiftPatch) {
    (u.hospitalId.Put? && u.hospitalId.value != "") || u.casesCount.Put?
    || (u.customRate.Put? && u.customRate.value.Some?)
  }

  /** One shift after updateShift: merged, and re-priced against `hospitals` when the guard holds. */
  function UpdatedShift(s: Shift, u: ShiftPatch, hospitals: seq<Hospital>, now: Instant): (r: Shift)
    ensures r.updatedAt == now
    ensures !RecomputesEarnings(u) && u.totalEarnings.Keep? ==> r.totalEarnings == s.totalEarnings
  {
    var m := MergeShift(s, u, now);
    if RecomputesEarnings(u)
    then m.(totalEarnings := CalculateShiftEarnings(hospitals, m.hospitalId, m.casesCount, m.customRate))
    else m
  }

  /** The shifts after updateShift(id, u). */
  function UpdatedShifts(ss: seq<Shift>, id: string, u: ShiftPatch, hospitals: seq<Hospital>, now: Instant)
    : (r: seq<Shift>)
    ensures |r| == |ss|
  {
    seq(|ss|, i requires 0 <= i < |ss| => if ss[i].id == id then UpdatedShift(ss[i], u, hospitals, now) else ss[i])
  }

  /** The earnings of an updated shift: the evaluator's value on the merged fields when the guard
      holds; otherwise the merged value, which is the old one unless the update carries its own. */
  lemma UpdatedShiftEarnings(s: Shift, u: ShiftPatch, hospitals: seq<Hospital>, now: Instant)
    ensures var r := UpdatedShift(s, u, hospitals, now);
      && (RecomputesEarnings(u) ==> r.totalEarnings == CalculateShiftEarnings(hospitals,
            u.hospitalId.Over(s.hospitalId), u.casesCount.Over(s.casesCount), u.customRate.Over(s.customRate)))
      && (!RecomputesEarnings(u) ==> r.totalEarnings == u.totalEarnings.Over(s.totalEarnings))
      && r.(totalEarnings := 0.0) == MergeShift(s, u, now).(totalEarnings := 0.0)
  {
  }

  /** An update that sets `customRate: undefined` and touches neither hospitalId nor casesCount keeps
      the old earnings: clearing an override on its own does not re-price the shift. */
  lemma ClearingCustomRateKeepsEarnings(s: Shift, u: ShiftPatch, hospitals: seq<Hospital>, now: Instant)
    requires u.customRate == Put(None) && u.hospitalId.Keep? && u.casesCount.Keep? && u.totalEarnings.Keep?
    ensures UpdatedShift(s, u, hospitals, now).customRate.None?
    ensures UpdatedShift(s, u, hospitals, now).totalEarnings == s.totalEarnings
  {
  }

  /** updateShift changes exactly the entries with that id and keeps ids unique unless it sets an id. */
  lemma UpdateShiftEffect(ss: seq<Shift>, id: string, u: ShiftPatch, hospitals: seq<Hospital>, now: Instant)
    ensures forall i :: 0 <= i < |ss| && ss[i].id != id ==> UpdatedShifts(ss, id, u, hospitals, now)[i] == ss[i]
    ensures forall i :: 0 <= i < |ss| && ss[i].id == id ==>
      UpdatedShifts(ss, id, u, hospitals, now)[i] == UpdatedShift(ss[i], u, hospitals, now)
    ensures (forall i :: 0 <= i < |ss| ==> ss[i].id != id) ==> UpdatedShifts(ss, id, u, hospitals, now) == ss
    ensures u.id.Keep? && UniqueKeys(ss, ShiftKey) ==> UniqueKeys(UpdatedShifts(ss, id, u, hospitals, now), ShiftKey)
  {
    var r := UpdatedShifts(ss, id, u, hospitals, now);
    assert forall i :: 0 <= i < |ss| && u.id.Keep? ==> ShiftKey(r[i]) == ShiftKey(ss[i]);
  }

  /** `hospitals.filter((h) => h.id !== id)` */
  function WithoutHospital(hs: seq<Hospital>, id: string): seq<Hospital> {
    Filter(hs, (h: Hospital) => h.id != id)
  }

  /** `shifts.filter((s) => s.hospitalId !== id)`: the cascade of deleteHospital. */
  function WithoutShiftsOf(ss: seq<Shift>, hospitalId: string): seq<Shift> {
    Filter(ss, (s: Shift) => s.hospitalId != hospitalId)
  }

  /** `shifts.filter((s) => s.id !== id)` */
  function WithoutShift(ss: seq<Shift>, id: string): seq<Shift> {
    Filter(ss, (s: Shift) => s.id != id)
  }

  /** deleteHospital(id) keeps exactly the hospitals with another id and exactly the shifts of other
      hospitals, both in their old order; afterwards that id prices every shift at 0. */
  lemma DeleteHospitalEffect(hs: seq<Hospital>, ss: seq<Shift>, id: string)
    ensures forall h :: h in WithoutHospital(hs, id) <==> h in hs && h.id != id
    ensures forall s :: s in WithoutShiftsOf(ss, id) <==> s in ss && s.hospitalId != id
    ensures forall a, b :: hs == a + b ==> WithoutHospital(hs, id) == WithoutHospital(a, id) + WithoutHospital(b, id)
    ensures forall a, b :: ss == a + b ==> WithoutShiftsOf(ss, id) == WithoutShiftsOf(a, id) + WithoutShiftsOf(b, id)
    ensures forall c, r :: CalculateShiftEarnings(WithoutHospital(hs, id), id, c, r) == 0.0
  {
    forall a, b | hs == a + b ensures WithoutHospital(hs, id) == WithoutHospital(a, id) + WithoutHospital(b, id) {
      FilterAppend(a, b, (h: Hospital) => h.id != id);
    }
    forall a, b | ss == a + b ensures WithoutShiftsOf(ss, id) == WithoutShiftsOf(a, id) + WithoutShiftsOf(b, id) {
      FilterAppend(a, b, (s: Shift) => s.hospitalId != id);
    }
    var r := WithoutHospital(hs, id);
    assert forall i :: 0 <= i < |r| ==> r[i].id != id;
  }

  /** deleteShift(id) keeps exactly the shifts with another id, in their old order. */
  lemma DeleteShiftEffect(ss: seq<Shift>, id: string)
    ensures forall s :: s in WithoutShift(ss, id) <==> s in ss && s.id != id
    ensures forall a, b :: ss == a + b ==> WithoutShift(ss, id) == WithoutShift(a, id) + WithoutShift(b, id)
    ensures |WithoutShift(ss, id)| == |ss| - multiset(ShiftIds(ss))[id]
  {
    forall a, b | ss == a + b ensures WithoutShift(ss, id) == WithoutShift(a, id) + WithoutShift(b, id) {
      FilterAppend(a, b, (s: Shift) => s.id != id);
    }
    DeleteShiftCount(ss, id);
  }

  function ShiftIds(ss: seq<Shift>): (r: seq<string>)
    ensures |r| == |ss|
  {
    seq(|ss|, i requires 0 <= i < |ss| => ss[i].id)
  }

  lemma {:induction false} DeleteShiftCount(ss: seq<Shift>, id: string)
    ensures |WithoutShift(ss, id)| == |ss| - multiset(ShiftIds(ss))[id]
  {
    if ss != [] {
      DeleteShiftCount(ss[1..], id);
      assert ShiftIds(ss) == [ss[0].id] + ShiftIds(ss[1..]);
    }
  }

  /** The store: `hospitals` and `shifts`, replaced by each mutator. Ids are unique in both when every
      fresh id is new and no update sets an id. */
  class Store {
    var hospitals: seq<Hospital>
    var shifts: seq<Shift>

    ghost predicate Valid()
      reads this
    {
      UniqueKeys(hospitals, HospitalKey) && UniqueKeys(shifts, ShiftKey)
    }

    constructor ()
      ensures hospitals == [] && shifts == [] && Valid()
    {
      hospitals, shifts := [], [];
    }

    /** addHospital; `newId` stands for the random generateId(). */
    method AddHospital(data: HospitalData, newId: string, now: Instant)
      requires forall i :: 0 <= i < |hospitals| ==> hospitals[i].id != newId
      modifies this
      ensures hospitals == old(hospitals) + [NewHospital(data, newId, now, |old(hospitals)|)]
      ensures shifts == old(shifts)
      ensures old(Valid()) ==> Valid()
    {
      var h := NewHospital(data, newId, now, |hospitals|);
      if UniqueKeys(hospitals, HospitalKey) {
        AppendKeepsUniqueKeys(hospitals, h, HospitalKey);
      }
      hospitals := hospitals + [h];
    }

    /** updateHospital; shifts keep their stored earnings. */
    method UpdateHospital(id: string, u: HospitalPatch, now: Instant)
      modifies this
      ensures hospitals == UpdatedHospitals(old(hospitals), id, u, now)
      ensures shifts == old(shifts)
      ensures old(Valid()) && u.id.Keep? ==> Valid()
    {
      UpdateHospitalEffect(hospitals, id, u, now);
      hospitals := UpdatedHospitals(hospitals, id, u, now);
    }

    /** deleteHospital, cascading to the hospital's shifts. */
    method DeleteHospital(id: string)
      modifies this
      ensures hospitals == WithoutHospital(old(hospitals), id)
      ensures shifts == WithoutShiftsOf(old(shifts), id)
      ensures forall i :: 0 <= i < |shifts| ==> shifts[i].hospitalId != id
      ensures old(Valid()) ==> Valid()
    {
      if UniqueKeys(hospitals, HospitalKey) {
        FilterKeepsUniqueKeys(hospitals, (h: Hospital) => h.id != id, HospitalKey);
      }
      if UniqueKeys(shifts, ShiftKey) {
        FilterKeepsUniqueKeys(shifts, (s: Shift) => s.hospitalId != id, ShiftKey);
      }
      hospitals := WithoutHospital(hospitals, id);
      shifts := WithoutShiftsOf(shifts, id);
    }

    /** addShift; earnings are computed against the hospitals of the moment. */
    method AddShift(data: ShiftData, newId: string, now: Instant)
      requires forall i :: 0 <= i < |shifts| ==> shifts[i].id != newId
      modifies this
      ensures shifts == old(shifts) + [NewShift(data, newId, now, old(hospitals))]
      ensures hospitals == old(hospitals)
      ensures old(Valid()) ==> Valid()
    {
      var s := NewShift(data, newId, now, hospitals);
      if UniqueKeys(shifts, ShiftKey) {
        AppendKeepsUniqueKeys(shifts, s, ShiftKey);
      }
      shifts := shifts + [s];
    }

    /** updateShift */
    method UpdateShift(id: string, u: ShiftPatch, now: Instant)
      modifies this
      ensures shifts == UpdatedShifts(old(shifts), id, u, old(hospitals), now)
      ensures hospitals == old(hospitals)
      ensures old(Valid()) && u.id.Keep? ==> Valid()
    {
      UpdateShiftEffect(shifts, id, u, hospitals, now);
      shifts := UpdatedShifts(shifts, id, u, hospitals, now);
    }

    /** deleteShift */
    method DeleteShift(id: string)
      modifies this
      ensures shifts == WithoutShift(old(shifts), id)
      ensures hospitals == old(hospitals)
      ensures old(Valid()) ==> Valid()
    {
      if UniqueKeys(shifts, ShiftKey) {
        FilterKeepsUniqueKeys(shifts, (s: Shift) => s.id != id, ShiftKey);
      }
      shifts := WithoutShift(shifts, id);
    }
  }
}
