/** The profile card of src/pages/Profile.tsx: the initials shown in the avatar and the lifetime
    earnings total. */
module Profile {
  import opened Types
  import opened Seqs
  import opened Dashboard

  // ----- Words -----

  /** `s.split(" ")`: the pieces between single spaces; leading, trailing or repeated spaces give
      empty pieces, and the empty string gives one empty piece. */
  function Split(s: string): (r: seq<string>)
    ensures |r| >= 1
    decreases |s|
  {
    if s == [] then [""]
    else if s[0] == ' ' then [""] + Split(s[1..])
    else var t := Split(s[1..]); [[s[0]] + t[0]] + t[1..]
  }

  /** `ws.join(" ")` */
  function JoinWithSpaces(ws: seq<string>): string {
    if |ws| == 0 then "" else if |ws| == 1 then ws[0] else ws[0] + " " + JoinWithSpaces(ws[1..])
  }

  /** Splitting on spaces loses nothing: joining the pieces gives the name back, and no piece holds
      a space. */
  lemma {:induction false} SplitJoin(s: string)
    ensures JoinWithSpaces(Split(s)) == s
    ensures forall i :: 0 <= i < |Split(s)| ==> ' ' !in Split(s)[i]
  {
    if s != [] {
      SplitJoin(s[1..]);
      var t := Split(s[1..]);
      if s[0] == ' ' {
        assert ([""] + t)[1..] == t;
        assert s == " " + s[1..];
      } else {
        assert s == [s[0]] + s[1..];
        if |t| == 1 {
          assert JoinWithSpaces(t) == t[0];
        } else {
          assert JoinWithSpaces(t) == t[0] + " " + JoinWithSpaces(t[1..]);
          assert ([[s[0]] + t[0]] + t[1..])[1..] == t[1..];
        }
        forall i | 0 <= i < |Split(s)| ensures ' ' !in Split(s)[i] {
          if i > 0 {
            assert Split(s)[i] == t[i];
          } else {
            assert ' ' !in t[0];
          }
        }
      }
    }
  }

  /** `.map((w) => w[0]).join("")`: the first character of every word, an empty word giving
      `undefined`, which joins as nothing. */
  function FirstChars(ws: seq<string>): string {
    if ws == [] then "" else (if ws[0] == "" then "" else [ws[0][0]]) + FirstChars(ws[1..])
  }

  /** `toUpperCase()` on letters a-z; other characters are left alone. */
  function UpperCase(s: string): (r: string)
    ensures |r| == |s|
  {
    if s == [] then "" else [if 'a' <= s[0] <= 'z' then (s[0] as int - 32) as char else s[0]] + UpperCase(s[1..])
  }

  /** `.slice(0, 2)` */
  function FirstTwo(s: string): string {
    if |s| <= 2 then s else s[..2]
  }

  /** `initials` */
  function Initials(name: string): (r: string)
    ensures |r| <= 2
    ensures |name| > 0 && name[0] != ' ' ==> |r| >= 1 && r[0] == UpperCase([name[0]])[0]
  {
    FirstTwo(UpperCase(FirstChars(Split(name))))
  }

  // ----- A reference: the characters that start a word -----

  /** The characters of `s` that are not spaces and follow a space or, when `atStart`, open `s`. */
  function WordStarts(s: string, atStart: bool): string {
    if s == [] then ""
    else (if s[0] != ' ' && atStart then [s[0]] else "") + WordStarts(s[1..], s[0] == ' ')
  }

  lemma {:induction false} FirstCharsAreWordStarts(s: string)
    ensures FirstChars(Split(s)) == WordStarts(s, true)
    ensures FirstChars(Split(s)[1..]) == WordStarts(s, false)
  {
    if s == [] {
      assert Split(s)[1..] == [];
    } else {
      FirstCharsAreWordStarts(s[1..]);
      var t := Split(s[1..]);
      if s[0] == ' ' {
        assert ([""] + t)[1..] == t;
      } else {
        assert ([[s[0]] + t[0]] + t[1..])[1..] == t[1..];
        assert t == [t[0]] + t[1..];
      }
    }
  }

  lemma {:induction false} WordStartsOfSpaces(s: string, atStart: bool)
    requires forall i :: 0 <= i < |s| ==> s[i] == ' '
    ensures WordStarts(s, atStart) == ""
  {
    if s != [] {
      WordStartsOfSpaces(s[1..], true);
    }
  }

  lemma {:induction false} WordStartsOfWord(s: string, i: int)
    requires 0 <= i < |s| && s[i] != ' '
    ensures WordStarts(s, true) != ""
  {
    if s[0] == ' ' {
      WordStartsOfWord(s[1..], i - 1);
    }
  }

  /** The initials are the word-starting characters, upper-cased, at most two of them. */
  lemma InitialsAreWordStarts(name: string)
    ensures Initials(name) == FirstTwo(UpperCase(WordStarts(name, true)))
    ensures |Initials(name)| <= 2
  {
    FirstCharsAreWordStarts(name);
  }

  /** The avatar falls back to the icon exactly when the name has no character other than a space. */
  lemma InitialsEmptyIff(name: string)
    ensures Initials(name) == "" <==> forall i :: 0 <= i < |name| ==> name[i] == ' '
  {
    FirstCharsAreWordStarts(name);
    if forall i :: 0 <= i < |name| ==> name[i] == ' ' {
      WordStartsOfSpaces(name, true);
    } else {
      var i :| 0 <= i < |name| && name[i] != ' ';
      WordStartsOfWord(name, i);
      assert |UpperCase(WordStarts(name, true))| > 0;
    }
  }

  lemma InitialsOfTwoWords()
    ensures Initials("mo al") == "MA"
  {
  }

  lemma InitialsSkipExtraSpaces()
    ensures Initials(" sa  ez") == "SE"
  {
  }

  lemma InitialsKeepTwo()
    ensures Initials("d o h") == "DO"
  {
  }

  // ----- The lifetime total -----

  /** `shifts.reduce((sum, s) => sum + (s.totalEarnings || 0), 0)`: without NaN, a falsy amount is 0
      already, so this is the dashboard's sum over all shifts. */
  function LifetimeEarnings(shifts: seq<Shift>): real {
    TotalIncome(shifts)
  }

  /** The shifts dated outside `from`..`to`. */
  function ShiftsOutside(shifts: seq<Shift>, from: Instant, to: Instant): seq<Shift> {
    Filter(shifts, (s: Shift) => !(from <= s.date <= to))
  }

  lemma {:induction false} IncomeSplitsByWindow(shifts: seq<Shift>, from: Instant, to: Instant)
    ensures TotalIncome(shifts) == TotalIncome(ShiftsBetween(shifts, from, to)) + TotalIncome(ShiftsOutside(shifts, from, to))
  {
    if shifts != [] {
      IncomeSplitsByWindow(shifts[1..], from, to);
      var x := shifts[0];
      var inside, outside := ShiftsBetween(shifts[1..], from, to), ShiftsOutside(shifts[1..], from, to);
      if from <= x.date <= to {
        assert ShiftsBetween(shifts, from, to) == [x] + inside;
        assert ([x] + inside)[1..] == inside;
        assert ShiftsOutside(shifts, from, to) == outside;
      } else {
        assert ShiftsBetween(shifts, from, to) == inside;
        assert ShiftsOutside(shifts, from, to) == [x] + outside;
        assert ([x] + outside)[1..] == outside;
      }
    }
  }

  /** The lifetime total is a month's Total Income plus the income of every shift outside that
      month; with no negative earnings it is at least any one month's Total Income. */
  lemma LifetimeCoversMonth(shifts: seq<Shift>, b: MonthBounds)
    ensures LifetimeEarnings(shifts)
         == MonthlyStatsOf(shifts, b).totalIncome + TotalIncome(ShiftsOutside(shifts, StartOfMonth(b), EndOfMonth(b)))
    ensures (forall i :: 0 <= i < |shifts| ==> shifts[i].totalEarnings >= 0.0) ==>
      MonthlyStatsOf(shifts, b).totalIncome <= LifetimeEarnings(shifts)
  {
    var rest := ShiftsOutside(shifts, StartOfMonth(b), EndOfMonth(b));
    IncomeSplitsByWindow(shifts, StartOfMonth(b), EndOfMonth(b));
    if forall i :: 0 <= i < |shifts| ==> shifts[i].totalEarnings >= 0.0 {
      forall i | 0 <= i < |rest| ensures rest[i].totalEarnings >= 0.0 {
        assert rest[i] in shifts;
      }
      TotalIncomeNonNegative(rest);
    }
  }
}
