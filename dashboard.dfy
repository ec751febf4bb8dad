/** The dashboard of src/pages/Dashboard.tsx: the selected month, the shifts that fall in it, its
    totals, the newest-first shift list and the average per shift. */
module Dashboard {
  import opened Types
  import opened Js
  import opened Seqs

  // ----- The month selector -----

  /** The selected month; `month` is 0-based, as `Date.getMonth()` reports it. */
  datatype YearMonth = YearMonth(year: int, month: int)

  predicate ValidMonth(m: YearMonth) {
    0 <= m.month < 12
  }

  /** Months counted from January of year 0. */
  function MonthNumber(m: YearMonth): int {
    m.year * 12 + m.month
  }

  /** `subMonths(m, 1)`, as far as the month is concerned. */
  function PrevMonth(m: YearMonth): (r: YearMonth)
    requires ValidMonth(m)
    ensures ValidMonth(r) && MonthNumber(r) == MonthNumber(m) - 1
  {
    if m.month == 0 then YearMonth(m.year - 1, 11) else YearMonth(m.year, m.month - 1)
  }

  /** `addMonths(m, 1)`, as far as the month is concerned. */
  function NextMonth(m: YearMonth): (r: YearMonth)
    requires ValidMonth(m)
    ensures ValidMonth(r) && MonthNumber(r) == MonthNumber(m) + 1
  {
    if m.month == 11 then YearMonth(m.year + 1, 0) else YearMonth(m.year, m.month + 1)
  }

  /** A valid month is determined by its number. */
  lemma {:induction false} MonthNumberInjective(m: YearMonth, n: YearMonth)
    requires ValidMonth(m) && ValidMonth(n) && MonthNumber(m) == MonthNumber(n)
    ensures m == n
  {
  }

  /** The two arrows undo each other. */
  lemma MonthStepsInvert(m: YearMonth)
    requires ValidMonth(m)
    ensures PrevMonth(NextMonth(m)) == m && NextMonth(PrevMonth(m)) == m
  {
    MonthNumberInjective(PrevMonth(NextMonth(m)), m);
    MonthNumberInjective(NextMonth(PrevMonth(m)), m);
  }

  // ----- Month bounds -----

  const HourMs: int := 3_600_000

  /** One calendar month in local time, by three instants (milliseconds): 00:00 on the 1st, 00:00
      on its last day, and 00:00 on the 1st of the next month. */
  datatype MonthBounds = MonthBounds(first: Instant, lastDay: Instant, next: Instant)

  /** The last day lasts at least 23 hours (a daylight-saving change may shorten it by one). */
  predicate ValidBounds(b: MonthBounds) {
    b.first <= b.lastDay && b.lastDay + 23 * HourMs <= b.next
  }

  /** date-fns `startOfMonth`. */
  function StartOfMonth(b: MonthBounds): Instant {
    b.first
  }

  /** date-fns `endOfMonth`: 23:59:59.999 on the last day. */
  function EndOfMonth(b: MonthBounds): Instant {
    b.next - 1
  }

  // ----- Month shifts and their totals -----

  /** The shifts dated from `from` to `to`, both included, in their stored order. */
  function ShiftsBetween(shifts: seq<Shift>, from: Instant, to: Instant): (r: seq<Shift>)
    ensures forall i :: 0 <= i < |r| ==> r[i] in shifts && from <= r[i].date <= to
    ensures forall i :: 0 <= i < |shifts| && from <= shifts[i].date <= to ==> shifts[i] in r
  {
    Filter(shifts, (s: Shift) => from <= s.date <= to)
  }

  lemma ShiftsBetweenAppend(a: seq<Shift>, b: seq<Shift>, from: Instant, to: Instant)
    ensures ShiftsBetween(a + b, from, to) == ShiftsBetween(a, from, to) + ShiftsBetween(b, from, to)
  {
    FilterAppend(a, b, (s: Shift) => from <= s.date <= to);
  }

  /** The dashboard's `monthShifts`: both month bounds are inclusive. */
  function MonthShifts(shifts: seq<Shift>, b: MonthBounds): (r: seq<Shift>)
    ensures forall s :: s in r <==> s in shifts && StartOfMonth(b) <= s.date <= EndOfMonth(b)
  {
    ShiftsBetween(shifts, StartOfMonth(b), EndOfMonth(b))
  }

  /** `reduce((sum, s) => sum + s.totalEarnings, 0)` */
  function TotalIncome(shifts: seq<Shift>): real {
    if shifts == [] then 0.0 else shifts[0].totalEarnings + TotalIncome(shifts[1..])
  }

  /** `reduce((sum, s) => sum + s.casesCount, 0)` */
  function TotalPatients(shifts: seq<Shift>): int {
    if shifts == [] then 0 else shifts[0].casesCount + TotalPatients(shifts[1..])
  }

  lemma {:induction false} TotalsAppend(a: seq<Shift>, b: seq<Shift>)
    ensures TotalIncome(a + b) == TotalIncome(a) + TotalIncome(b)
    ensures TotalPatients(a + b) == TotalPatients(a) + TotalPatients(b)
  {
    if a == [] {
      assert a + b == b;
    } else {
      assert (a + b)[1..] == a[1..] + b;
      TotalsAppend(a[1..], b);
    }
  }

  /** Taking one shift out of a list removes exactly its share of the totals. */
  lemma {:induction false} TotalsRemove(b: seq<Shift>, k: int)
    requires 0 <= k < |b|
    ensures TotalIncome(b) == b[k].totalEarnings + TotalIncome(b[..k] + b[k + 1..])
    ensures TotalPatients(b) == b[k].casesCount + TotalPatients(b[..k] + b[k + 1..])
  {
    if k == 0 {
      assert b[..0] + b[1..] == b[1..];
    } else {
      TotalsRemove(b[1..], k - 1);
      assert b[1..][..k - 1] + b[1..][k..] == (b[..k] + b[k + 1..])[1..];
    }
  }

  lemma MultisetRemove(b: seq<Shift>, k: int)
    requires 0 <= k < |b|
    ensures multiset(b[..k] + b[k + 1..]) == multiset(b) - multiset{b[k]}
  {
    assert b == b[..k] + [b[k]] + b[k + 1..];
  }

  /** The totals do not depend on the order of the shifts. */
  lemma {:induction false} TotalsPermutation(a: seq<Shift>, b: seq<Shift>)
    requires multiset(a) == multiset(b)
    ensures TotalIncome(a) == TotalIncome(b) && TotalPatients(a) == TotalPatients(b)
    decreases |a|
  {
    if a != [] {
      assert a[0] in multiset(b);
      var k :| 0 <= k < |b| && b[k] == a[0];
      MultisetRemove(b, k);
      assert a == [a[0]] + a[1..];
      assert multiset(a[1..]) == multiset(a) - multiset{a[0]};
      TotalsPermutation(a[1..], b[..k] + b[k + 1..]);
      TotalsRemove(b, k);
    }
  }

  /** With no negative earnings the income is not negative. */
  lemma {:induction false} TotalIncomeNonNegative(shifts: seq<Shift>)
    requires forall i :: 0 <= i < |shifts| ==> shifts[i].totalEarnings >= 0.0
    ensures TotalIncome(shifts) >= 0.0
  {
    if shifts != [] {
      TotalIncomeNonNegative(shifts[1..]);
    }
  }

  /** Shifts all earning `e` earn `e` times their number. */
  lemma {:induction false} TotalIncomeOfEqualEarnings(shifts: seq<Shift>, e: real)
    requires forall i :: 0 <= i < |shifts| ==> shifts[i].totalEarnings == e
    ensures TotalIncome(shifts) == |shifts| as real * e
  {
    if shifts != [] {
      TotalIncomeOfEqualEarnings(shifts[1..], e);
    }
  }

  // ----- Newest first -----

  /** The comparator `b.date - a.date` orders by date, newest first. */
  predicate NewestFirst(s: seq<Shift>) {
    forall i, j :: 0 <= i < j < |s| ==> s[i].date >= s[j].date
  }

  /** Places `x` before the first shift that is not newer; `x` comes from earlier in the input, so
      shifts of the same date keep their input order. */
  function InsertByDate(x: Shift, t: seq<Shift>): seq<Shift> {
    if t == [] || t[0].date <= x.date then [x] + t else [t[0]] + InsertByDate(x, t[1..])
  }

  /** `monthShifts.sort(...)`: `Array.prototype.sort` is a stable sort. */
  function SortByDateDesc(s: seq<Shift>): seq<Shift> {
    if s == [] then [] else InsertByDate(s[0], SortByDateDesc(s[1..]))
  }

  /** Inserting `x` adds exactly `x`. */
  lemma {:induction false} InsertByDatePermutes(x: Shift, t: seq<Shift>)
    ensures multiset(InsertByDate(x, t)) == multiset{x} + multiset(t)
  {
    if t != [] && t[0].date > x.date {
      InsertByDatePermutes(x, t[1..]);
      assert t == [t[0]] + t[1..];
      assert InsertByDate(x, t) == [t[0]] + InsertByDate(x, t[1..]);
    }
  }

  /** A bound `d` on `x` and on every shift of `t` bounds every shift of the insertion. */
  lemma {:induction false} InsertByDateBelow(x: Shift, t: seq<Shift>, d: Instant)
    requires x.date <= d
    requires forall j :: 0 <= j < |t| ==> t[j].date <= d
    ensures forall j :: 0 <= j < |InsertByDate(x, t)| ==> InsertByDate(x, t)[j].date <= d
  {
    if t != [] && t[0].date > x.date {
      InsertByDateBelow(x, t[1..], d);
      var r := InsertByDate(x, t[1..]);
      assert InsertByDate(x, t) == [t[0]] + r;
      forall j | 0 <= j < |[t[0]] + r| ensures ([t[0]] + r)[j].date <= d {
        if j > 0 {
          assert ([t[0]] + r)[j] == r[j - 1];
        }
      }
    }
  }

  /** Inserting into a newest-first list keeps it newest first. */
  lemma {:induction false} InsertByDateSorted(x: Shift, t: seq<Shift>)
    requires NewestFirst(t)
    ensures NewestFirst(InsertByDate(x, t))
  {
    if t != [] && t[0].date > x.date {
      var r := InsertByDate(x, t[1..]);
      InsertByDateSorted(x, t[1..]);
      InsertByDateBelow(x, t[1..], t[0].date);
      assert InsertByDate(x, t) == [t[0]] + r;
      forall i, j | 0 <= i < j < |[t[0]] + r| ensures ([t[0]] + r)[i].date >= ([t[0]] + r)[j].date {
        assert ([t[0]] + r)[j] == r[j - 1];
        if i > 0 {
          assert ([t[0]] + r)[i] == r[i - 1];
        }
      }
    } else {
      assert InsertByDate(x, t) == [x] + t;
      forall i, j | 0 <= i < j < |[x] + t| ensures ([x] + t)[i].date >= ([x] + t)[j].date {
        assert ([x] + t)[j] == t[j - 1];
        if i > 0 {
          assert ([x] + t)[i] == t[i - 1];
        }
      }
    }
  }

  /** The sort orders by date, newest first, and keeps every shift exactly once. */
  lemma {:induction false} SortByDateDescCorrect(s: seq<Shift>)
    ensures NewestFirst(SortByDateDesc(s))
    ensures multiset(SortByDateDesc(s)) == multiset(s)
  {
    if s != [] {
      SortByDateDescCorrect(s[1..]);
      InsertByDateSorted(s[0], SortByDateDesc(s[1..]));
      InsertByDatePermutes(s[0], SortByDateDesc(s[1..]));
      assert s == [s[0]] + s[1..];
    }
  }

  /** The shifts of one date, in order. */
  function OnDate(s: seq<Shift>, d: Instant): seq<Shift> {
    Filter(s, (x: Shift) => x.date == d)
  }

  lemma {:induction false} InsertByDateOnDate(x: Shift, t: seq<Shift>, d: Instant)
    ensures OnDate(InsertByDate(x, t), d) == if x.date == d then [x] + OnDate(t, d) else OnDate(t, d)
  {
    if t == [] || t[0].date <= x.date {
      OnDateCons(x, t, d);
    } else {
      var r := InsertByDate(x, t[1..]);
      InsertByDateOnDate(x, t[1..], d);
      assert InsertByDate(x, t) == [t[0]] + r;
      OnDateCons(t[0], r, d);
      OnDateCons(t[0], t[1..], d);
      assert t == [t[0]] + t[1..];
      if x.date == d {
        assert t[0].date != d;
        assert OnDate(InsertByDate(x, t), d) == OnDate(r, d) == [x] + OnDate(t[1..], d);
        assert OnDate(t, d) == OnDate(t[1..], d);
      } else {
        var c := if t[0].date == d then [t[0]] else [];
        assert OnDate(InsertByDate(x, t), d) == c + OnDate(r, d) == c + OnDate(t[1..], d) == OnDate(t, d);
      }
    }
  }

  lemma OnDateCons(y: Shift, r: seq<Shift>, d: Instant)
    ensures OnDate([y] + r, d) == (if y.date == d then [y] else []) + OnDate(r, d)
  {
    assert ([y] + r)[1..] == r;
  }

  /** Stability: the shifts of any one date appear in the order they were stored. */
  lemma {:induction false} SortByDateDescStable(s: seq<Shift>, d: Instant)
    ensures OnDate(SortByDateDesc(s), d) == OnDate(s, d)
  {
    if s != [] {
      SortByDateDescStable(s[1..], d);
      InsertByDateOnDate(s[0], SortByDateDesc(s[1..]), d);
    }
  }

  // ----- The statistics -----

  datatype MonthlyStats = MonthlyStats(totalShifts: int, totalPatients: int, totalIncome: real, recentShifts: seq<Shift>)

  /** `monthlyStats` */
  function MonthlyStatsOf(shifts: seq<Shift>, b: MonthBounds): MonthlyStats {
    var ms := MonthShifts(shifts, b);
    MonthlyStats(|ms|, TotalPatients(ms), TotalIncome(ms), SortByDateDesc(ms))
  }

  /** The month's shift count, patient and income totals, and its shifts newest first; the list
      carries the same shifts and so the same totals. */
  lemma MonthlyStatsCorrect(shifts: seq<Shift>, b: MonthBounds)
    ensures var r, ms := MonthlyStatsOf(shifts, b), MonthShifts(shifts, b);
      && r.totalShifts == |ms| && r.totalPatients == TotalPatients(ms) && r.totalIncome == TotalIncome(ms)
      && NewestFirst(r.recentShifts) && multiset(r.recentShifts) == multiset(ms)
      && |r.recentShifts| == r.totalShifts
      && TotalIncome(r.recentShifts) == r.totalIncome && TotalPatients(r.recentShifts) == r.totalPatients
  {
    var ms := MonthShifts(shifts, b);
    SortByDateDescCorrect(ms);
    assert |SortByDateDesc(ms)| == |multiset(SortByDateDesc(ms))| == |multiset(ms)| == |ms|;
    TotalsPermutation(SortByDateDesc(ms), ms);
  }

  /** Logging one more shift changes the month's figures by that shift alone when it falls in the
      month, and not at all otherwise. */
  lemma AddedShiftStats(shifts: seq<Shift>, s: Shift, b: MonthBounds)
    ensures var before, after := MonthlyStatsOf(shifts, b), MonthlyStatsOf(shifts + [s], b);
      if StartOfMonth(b) <= s.date <= EndOfMonth(b) then
        && after.totalShifts == before.totalShifts + 1
        && after.totalIncome == before.totalIncome + s.totalEarnings
        && after.totalPatients == before.totalPatients + s.casesCount
      else
        after.totalShifts == before.totalShifts && after.totalIncome == before.totalIncome
        && after.totalPatients == before.totalPatients
  {
    ShiftsBetweenAppend(shifts, [s], StartOfMonth(b), EndOfMonth(b));
    var tail := ShiftsBetween([s], StartOfMonth(b), EndOfMonth(b));
    assert [s][1..] == [];
    TotalsAppend(MonthShifts(shifts, b), tail);
  }

  /** The Avg/Shift card: `Math.round(totalIncome / totalShifts)` when there are shifts, else 0. */
  function AvgPerShift(st: MonthlyStats): (r: int)
    ensures st.totalShifts <= 0 ==> r == 0
    ensures st.totalShifts > 0 ==>
      var avg := st.totalIncome / st.totalShifts as real;
      avg - 0.5 < r as real <= avg + 0.5
  {
    if st.totalShifts > 0 then Round(st.totalIncome / st.totalShifts as real) else 0
  }

  /** A month whose shifts all earned the same whole amount averages exactly that amount, whatever
      the shifts of other months earned. */
  lemma AvgOfEqualEarnings(shifts: seq<Shift>, b: MonthBounds, e: int)
    requires forall i :: 0 <= i < |MonthShifts(shifts, b)| ==> MonthShifts(shifts, b)[i].totalEarnings == e as real
    requires MonthShifts(shifts, b) != []
    ensures AvgPerShift(MonthlyStatsOf(shifts, b)) == e
  {
    var ms := MonthShifts(shifts, b);
    AverageOfEqualShare(ms, e);
    var st := MonthlyStats(|ms|, TotalPatients(ms), TotalIncome(ms), SortByDateDesc(ms));
    assert MonthlyStatsOf(shifts, b) == st;
    assert AvgPerShift(st) == Round(TotalIncome(ms) / |ms| as real);
  }

  lemma AverageOfEqualShare(ms: seq<Shift>, e: int)
    requires ms != [] && forall i :: 0 <= i < |ms| ==> ms[i].totalEarnings == e as real
    ensures Round(TotalIncome(ms) / |ms| as real) == e
  {
    TotalIncomeOfEqualEarnings(ms, e as real);
    RoundOfEqualShare(TotalIncome(ms), |ms|, e);
  }

  lemma RoundOfEqualShare(total: real, count: int, e: int)
    requires count > 0 && total == count as real * e as real
    ensures Round(total / count as real) == e
  {
    assert total / count as real == e as real;
    RoundOfInteger(e);
  }
}
