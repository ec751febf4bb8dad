/** The "Income by Hospital" chart of src/components/dashboard/IncomeBreakdown.tsx: one slice per
    hospital that earned something in the selected month. */
module IncomeBreakdown {
  import opened Types
  import opened Seqs
  import opened AppStore
  import opened Dashboard

  /** One slice: the hospital's name, income, colour and number of shifts. */
  datatype Entry = Entry(name: string, value: real, color: string, shifts: int)

  const DefaultColor: string := "#3b82f6"

  /** `hospital.color || "#3b82f6"`: an absent or empty colour falls back to the default. */
  function SliceColor(color: Option<string>): string {
    if color.Some? && color.value != "" then color.value else DefaultColor
  }

  /** Some hospital has id `id`. */
  predicate Known(hospitals: seq<Hospital>, id: string) {
    exists i :: 0 <= i < |hospitals| && hospitals[i].id == id
  }

  /** `monthShifts.filter((s) => s.hospitalId === hospital.id)` */
  function HospitalShifts(ms: seq<Shift>, id: string): seq<Shift> {
    Filter(ms, (s: Shift) => s.hospitalId == id)
  }

  function EntryFor(h: Hospital, ms: seq<Shift>): Entry {
    var own := HospitalShifts(ms, h.id);
    Entry(h.name, TotalIncome(own), SliceColor(h.color), |own|)
  }

  /** `hospitals.map(...)`: one candidate entry per hospital, in hospital order. */
  function Candidates(hospitals: seq<Hospital>, ms: seq<Shift>): (r: seq<Entry>)
    ensures |r| == |hospitals|
  {
    if hospitals == [] then [] else [EntryFor(hospitals[0], ms)] + Candidates(hospitals[1..], ms)
  }

  /** `.filter((item) => item.value > 0)` */
  function Earning(es: seq<Entry>): seq<Entry> {
    Filter(es, (e: Entry) => e.value > 0.0)
  }

  /** `data` as written: the window ends at 00:00 on the month's last day. */
  function BreakdownAsWritten(hospitals: seq<Hospital>, shifts: seq<Shift>, b: MonthBounds): (r: seq<Entry>)
    ensures |r| <= |hospitals|
  {
    Earning(Candidates(hospitals, ShiftsBetween(shifts, b.first, b.lastDay)))
  }

  /** `data` over the dashboard's own month, which ends with the last day. */
  function Breakdown(hospitals: seq<Hospital>, shifts: seq<Shift>, b: MonthBounds): (r: seq<Entry>)
    ensures |r| <= |hospitals|
  {
    Earning(Candidates(hospitals, MonthShifts(shifts, b)))
  }

  /** The sum of the slices' values; the component's own `totalIncome`. */
  function SumValues(es: seq<Entry>): real {
    if es == [] then 0.0 else es[0].value + SumValues(es[1..])
  }

  // ----- Candidate entries -----

  /** Entry `i` describes hospital `i`: its name, the income and number of its shifts in the
      window, and its colour or the default one. */
  lemma {:induction false} CandidateEntries(hospitals: seq<Hospital>, ms: seq<Shift>)
    ensures |Candidates(hospitals, ms)| == |hospitals|
    ensures forall i :: 0 <= i < |hospitals| ==>
      var e, h := Candidates(hospitals, ms)[i], hospitals[i];
      && e.name == h.name
      && e.value == TotalIncome(HospitalShifts(ms, h.id))
      && e.shifts == |HospitalShifts(ms, h.id)|
      && e.color == (if h.color.Some? && h.color.value != "" then h.color.value else "#3b82f6")
  {
    if hospitals != [] {
      CandidateEntries(hospitals[1..], ms);
      forall i | 1 <= i < |hospitals| ensures Candidates(hospitals, ms)[i] == Candidates(hospitals[1..], ms)[i - 1] {
      }
    }
  }

  /** Over any window, adding a hospital at the end adds its slice at the end, when it earned
      something. */
  lemma {:induction false} EarningAppendHospital(hospitals: seq<Hospital>, h: Hospital, ms: seq<Shift>)
    ensures var e := EntryFor(h, ms);
      Earning(Candidates(hospitals + [h], ms)) == Earning(Candidates(hospitals, ms)) + (if e.value > 0.0 then [e] else [])
  {
    CandidatesAppend(hospitals, [h], ms);
    assert Candidates([h], ms) == [EntryFor(h, ms)] by {
      assert [h][1..] == [];
    }
    FilterAppend(Candidates(hospitals, ms), [EntryFor(h, ms)], (e: Entry) => e.value > 0.0);
    assert [EntryFor(h, ms)][1..] == [];
  }

  /** The chart as written and the corrected one both gain the new hospital's slice at the end. */
  lemma BreakdownAppendHospital(hospitals: seq<Hospital>, h: Hospital, shifts: seq<Shift>, b: MonthBounds)
    ensures var e := EntryFor(h, ShiftsBetween(shifts, b.first, b.lastDay));
      BreakdownAsWritten(hospitals + [h], shifts, b)
        == BreakdownAsWritten(hospitals, shifts, b) + (if e.value > 0.0 then [e] else [])
    ensures var e := EntryFor(h, MonthShifts(shifts, b));
      Breakdown(hospitals + [h], shifts, b) == Breakdown(hospitals, shifts, b) + (if e.value > 0.0 then [e] else [])
  {
    EarningAppendHospital(hospitals, h, ShiftsBetween(shifts, b.first, b.lastDay));
    EarningAppendHospital(hospitals, h, MonthShifts(shifts, b));
  }

  lemma {:induction false} CandidatesAppend(a: seq<Hospital>, c: seq<Hospital>, ms: seq<Shift>)
    ensures Candidates(a + c, ms) == Candidates(a, ms) + Candidates(c, ms)
  {
    if a == [] {
      assert a + c == c;
    } else {
      assert (a + c)[1..] == a[1..] + c;
      CandidatesAppend(a[1..], c, ms);
    }
  }

  /** Every slice has a positive value, in the chart as written and in the corrected one. */
  lemma BreakdownPositive(hospitals: seq<Hospital>, shifts: seq<Shift>, b: MonthBounds)
    ensures forall i :: 0 <= i < |BreakdownAsWritten(hospitals, shifts, b)| ==> BreakdownAsWritten(hospitals, shifts, b)[i].value > 0.0
    ensures forall i :: 0 <= i < |Breakdown(hospitals, shifts, b)| ==> Breakdown(hospitals, shifts, b)[i].value > 0.0
  {
  }

  // ----- Shifts of unknown hospitals -----

  lemma {:induction false} CandidatesIgnoreUnmatched(hospitals: seq<Hospital>, ms: seq<Shift>, s: Shift)
    requires !Known(hospitals, s.hospitalId)
    ensures Candidates(hospitals, ms + [s]) == Candidates(hospitals, ms)
  {
    if hospitals != [] {
      var h := hospitals[0];
      assert hospitals[0].id != s.hospitalId;
      FilterAppend(ms, [s], (x: Shift) => x.hospitalId == h.id);
      assert [s][1..] == [];
      assert HospitalShifts(ms + [s], h.id) == HospitalShifts(ms, h.id);
      assert !Known(hospitals[1..], s.hospitalId) by {
        forall i | 0 <= i < |hospitals[1..]| ensures hospitals[1..][i].id != s.hospitalId {
          assert hospitals[1..][i] == hospitals[i + 1];
        }
      }
      CandidatesIgnoreUnmatched(hospitals[1..], ms, s);
    }
  }

  lemma WindowIgnoresUnmatched(hospitals: seq<Hospital>, shifts: seq<Shift>, s: Shift, from: Instant, to: Instant)
    requires !Known(hospitals, s.hospitalId)
    ensures Candidates(hospitals, ShiftsBetween(shifts + [s], from, to)) == Candidates(hospitals, ShiftsBetween(shifts, from, to))
  {
    assert [s][1..] == [];
    ShiftsBetweenAppend(shifts, [s], from, to);
    var w := ShiftsBetween(shifts, from, to);
    assert ShiftsBetween([s], from, to) == if from <= s.date <= to then [s] else [];
    if from <= s.date <= to {
      assert ShiftsBetween(shifts + [s], from, to) == w + [s];
      CandidatesIgnoreUnmatched(hospitals, ShiftsBetween(shifts, from, to), s);
    } else {
      assert ShiftsBetween(shifts + [s], from, to) == w + [];
      assert w + [] == w;
    }
  }

  /** A shift whose hospital is not (or no longer) known adds to no slice, in either window. */
  lemma UnmatchedShiftIgnored(hospitals: seq<Hospital>, shifts: seq<Shift>, s: Shift, b: MonthBounds)
    requires !Known(hospitals, s.hospitalId)
    ensures Breakdown(hospitals, shifts + [s], b) == Breakdown(hospitals, shifts, b)
    ensures BreakdownAsWritten(hospitals, shifts + [s], b) == BreakdownAsWritten(hospitals, shifts, b)
  {
    WindowIgnoresUnmatched(hospitals, shifts, s, StartOfMonth(b), EndOfMonth(b));
    WindowIgnoresUnmatched(hospitals, shifts, s, b.first, b.lastDay);
  }

  // ----- The slices add up to the month's income -----

  lemma {:induction false} CandidatesCons(hospitals: seq<Hospital>, x: Shift, rest: seq<Shift>)
    requires UniqueKeys(hospitals, HospitalKey)
    ensures SumValues(Candidates(hospitals, [x] + rest))
         == (if Known(hospitals, x.hospitalId) then x.totalEarnings else 0.0) + SumValues(Candidates(hospitals, rest))
  {
    if hospitals != [] {
      var h, tail := hospitals[0], hospitals[1..];
      assert ([x] + rest)[1..] == rest;
      var own := HospitalShifts([x] + rest, h.id);
      assert own == (if x.hospitalId == h.id then [x] else []) + HospitalShifts(rest, h.id);
      TotalsAppend(if x.hospitalId == h.id then [x] else [], HospitalShifts(rest, h.id));
      assert TotalIncome([x]) == x.totalEarnings;
      assert UniqueKeys(tail, HospitalKey) by {
        forall i, j | 0 <= i < j < |tail| ensures HospitalKey(tail[i]) != HospitalKey(tail[j]) {
          assert tail[i] == hospitals[i + 1] && tail[j] == hospitals[j + 1];
        }
      }
      CandidatesCons(tail, x, rest);
      assert Known(hospitals, x.hospitalId) <==> h.id == x.hospitalId || Known(tail, x.hospitalId) by {
        if Known(tail, x.hospitalId) {
          var i :| 0 <= i < |tail| && tail[i].id == x.hospitalId;
          assert hospitals[i + 1].id == x.hospitalId;
        }
        if Known(hospitals, x.hospitalId) && h.id != x.hospitalId {
          var i :| 0 <= i < |hospitals| && hospitals[i].id == x.hospitalId;
          assert tail[i - 1].id == x.hospitalId;
        }
      }
    }
  }

  lemma {:induction false} CandidatesSum(hospitals: seq<Hospital>, ms: seq<Shift>)
    requires UniqueKeys(hospitals, HospitalKey)
    requires forall i :: 0 <= i < |ms| ==> Known(hospitals, ms[i].hospitalId)
    ensures SumValues(Candidates(hospitals, ms)) == TotalIncome(ms)
  {
    if ms == [] {
      CandidatesOfNoShifts(hospitals);
    } else {
      CandidatesSum(hospitals, ms[1..]);
      assert ms == [ms[0]] + ms[1..];
      CandidatesCons(hospitals, ms[0], ms[1..]);
    }
  }

  lemma {:induction false} CandidatesOfNoShifts(hospitals: seq<Hospital>)
    ensures SumValues(Candidates(hospitals, [])) == 0.0
  {
    if hospitals != [] {
      CandidatesOfNoShifts(hospitals[1..]);
    }
  }

  /** Dropping slices worth nothing leaves the sum unchanged. */
  lemma {:induction false} EarningSum(es: seq<Entry>)
    requires forall i :: 0 <= i < |es| ==> es[i].value >= 0.0
    ensures SumValues(Earning(es)) == SumValues(es)
  {
    if es != [] {
      EarningSum(es[1..]);
      if es[0].value > 0.0 {
        assert Earning(es) == [es[0]] + Earning(es[1..]);
        assert ([es[0]] + Earning(es[1..]))[1..] == Earning(es[1..]);
      } else {
        assert Earning(es) == Earning(es[1..]);
      }
    }
  }

  /** With distinct hospital ids, no negative earnings and every shift filed under a known hospital,
      the slices of the corrected chart add up to the dashboard's Total Income for the month. */
  lemma BreakdownSumsToMonthIncome(hospitals: seq<Hospital>, shifts: seq<Shift>, b: MonthBounds)
    requires UniqueKeys(hospitals, HospitalKey)
    requires forall i :: 0 <= i < |shifts| ==> shifts[i].totalEarnings >= 0.0 && Known(hospitals, shifts[i].hospitalId)
    ensures SumValues(Breakdown(hospitals, shifts, b)) == MonthlyStatsOf(shifts, b).totalIncome
  {
    var ms := MonthShifts(shifts, b);
    forall i | 0 <= i < |ms| ensures ms[i].totalEarnings >= 0.0 && Known(hospitals, ms[i].hospitalId) {
      assert ms[i] in shifts;
    }
    CandidatesSum(hospitals, ms);
    CandidateEntries(hospitals, ms);
    forall i | 0 <= i < |hospitals| ensures Candidates(hospitals, ms)[i].value >= 0.0 {
      var own := HospitalShifts(ms, hospitals[i].id);
      forall j | 0 <= j < |own| ensures own[j].totalEarnings >= 0.0 {
        assert own[j] in ms;
      }
      TotalIncomeNonNegative(own);
    }
    EarningSum(Candidates(hospitals, ms));
  }

  // ----- The last day of the month -----

  const DayMs: int := 24 * HourMs

  /** A shift logged at 09:00 on the last day of a 30-day month counts in the dashboard's totals
      but is missing from the chart as written; the corrected chart shows it. */
  lemma LastDayShiftMissing()
    ensures var b := MonthBounds(0, 29 * DayMs, 30 * DayMs);
      var h := Hospital("h1", "Cairo General", Fixed, 500.0, 0.0, None, None, Some("#ef4444"), 0, 0);
      var s := Shift("s1", "h1", 29 * DayMs + 9 * HourMs, "09:00", "17:00", 0, 0, false, None, None, None, 500.0, 0, 0);
      && ValidBounds(b)
      && MonthlyStatsOf([s], b).totalIncome == 500.0
      && BreakdownAsWritten([h], [s], b) == []
      && Breakdown([h], [s], b) == [Entry("Cairo General", 500.0, "#ef4444", 1)]
  {
    var b := MonthBounds(0, 29 * DayMs, 30 * DayMs);
    var h := Hospital("h1", "Cairo General", Fixed, 500.0, 0.0, None, None, Some("#ef4444"), 0, 0);
    var s := Shift("s1", "h1", 29 * DayMs + 9 * HourMs, "09:00", "17:00", 0, 0, false, None, None, None, 500.0, 0, 0);
    assert [s][1..] == [] && [h][1..] == [];
    assert MonthShifts([s], b) == [s];
    assert ShiftsBetween([s], b.first, b.lastDay) == [];
    assert HospitalShifts([s], h.id) == [s];
    assert HospitalShifts([], h.id) == [];
    assert TotalIncome([s]) == 500.0;
    var e := Entry("Cairo General", 500.0, "#ef4444", 1);
    assert Candidates([h], [s]) == [e];
    assert [e][1..] == [];
    assert Earning([e]) == [e];
    assert Candidates([h], []) == [Entry("Cairo General", 0.0, "#ef4444", 0)];
  }
}
