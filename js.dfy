/** The JavaScript built-ins the pages apply to form values, on exact numbers and Unicode strings. */
module Js {
  import opened Types

  /** `Math.round`: the nearest integer, halves rounded up (towards +infinity). */
  function Round(x: real): (r: int)
    ensures x - 0.5 < r as real <= x + 0.5
  {
    (x + 0.5).Floor
  }

  lemma {:induction false} RoundMonotone(x: real, y: real)
    requires x <= y
    ensures Round(x) <= Round(y)
  {
    assert (x + 0.5).Floor as real <= x + 0.5 <= y + 0.5;
  }

  lemma RoundOfInteger(n: int)
    ensures Round(n as real) == n
  {
  }

  /** The characters `String.prototype.trim` strips: ECMAScript's WhiteSpace (TAB, VT, FF, ZWNBSP
      and every space separator of Unicode category Zs) and LineTerminator (LF, CR, LS, PS). */
  predicate IsWhiteSpace(c: char) {
    var n := c as int;
    n == 0x09 || n == 0x0B || n == 0x0C || n == 0xFEFF
    || n == 0x20 || n == 0xA0 || n == 0x1680 || 0x2000 <= n <= 0x200A
    || n == 0x202F || n == 0x205F || n == 0x3000
    || n == 0x0A || n == 0x0D || n == 0x2028 || n == 0x2029
  }

  /** Drops the leading white space. */
  function TrimStart(s: string): (r: string)
    ensures |r| <= |s| && r == s[|s| - |r|..]
    ensures forall i :: 0 <= i < |s| - |r| ==> IsWhiteSpace(s[i])
    ensures r != [] ==> !IsWhiteSpace(r[0])
  {
    if s != [] && IsWhiteSpace(s[0]) then TrimStart(s[1..]) else s
  }

  /** Drops the trailing white space. */
  function TrimEnd(s: string): (r: string)
    ensures |r| <= |s| && r == s[..|r|]
    ensures forall i :: |r| <= i < |s| ==> IsWhiteSpace(s[i])
    ensures r != [] ==> !IsWhiteSpace(r[|r| - 1])
  {
    if s != [] && IsWhiteSpace(s[|s| - 1]) then TrimEnd(s[..|s| - 1]) else s
  }

  /** `String.prototype.trim`. */
  function Trim(s: string): (r: string)
    ensures |r| <= |s|
  {
    TrimEnd(TrimStart(s))
  }

  /** The trimmed string is the part of `s` between its leading and its trailing white space. */
  lemma TrimIsCore(s: string)
    ensures var a := |s| - |TrimStart(s)|;
      var b := a + |Trim(s)|;
      && 0 <= a <= b <= |s| && Trim(s) == s[a..b]
      && (forall i :: 0 <= i < a ==> IsWhiteSpace(s[i]))
      && (forall i :: b <= i < |s| ==> IsWhiteSpace(s[i]))
  {
    var t := TrimStart(s);
    var u := TrimEnd(t);
    assert Trim(s) == u;
    CoreBetween(s, t, u);
  }

  /** A suffix `t` of `s` after white space, and a prefix `u` of `t` before white space, is the
      middle of `s` with white space on either side. */
  lemma CoreBetween(s: string, t: string, u: string)
    requires |t| <= |s| && t == s[|s| - |t|..] && forall i :: 0 <= i < |s| - |t| ==> IsWhiteSpace(s[i])
    requires |u| <= |t| && u == t[..|u|] && forall i :: |u| <= i < |t| ==> IsWhiteSpace(t[i])
    ensures var a := |s| - |t|;
      var b := a + |u|;
      && 0 <= a <= b <= |s| && u == s[a..b]
      && (forall i :: b <= i < |s| ==> IsWhiteSpace(s[i]))
  {
    var a := |s| - |t|;
    forall i | a + |u| <= i < |s| ensures IsWhiteSpace(s[i]) {
      assert s[i] == t[i - a];
    }
  }

  /** A non-empty trimmed string begins and ends with a character that is not white space. */
  lemma TrimEnds(s: string)
    ensures Trim(s) != [] ==> !IsWhiteSpace(Trim(s)[0]) && !IsWhiteSpace(Trim(s)[|Trim(s)| - 1])
  {
    var t := TrimStart(s);
    var u := TrimEnd(t);
    assert Trim(s) == u;
    if u != [] {
      assert u == t[..|u|];
      assert t != [] && u[0] == t[0];
      assert !IsWhiteSpace(t[0]);
    }
  }

  /** `s.trim()` is empty (falsy) exactly when `s` is nothing but white space. */
  lemma TrimEmptyIff(s: string)
    ensures Trim(s) == [] <==> forall i :: 0 <= i < |s| ==> IsWhiteSpace(s[i])
  {
    var t := TrimStart(s);
    assert Trim(s) == TrimEnd(t);
    if Trim(s) == [] {
      WhiteSpaceAround(s, t);
    }
  }

  /** White space followed by a suffix `t` that is all white space is all white space. */
  lemma WhiteSpaceAround(s: string, t: string)
    requires |t| <= |s| && t == s[|s| - |t|..] && forall i :: 0 <= i < |s| - |t| ==> IsWhiteSpace(s[i])
    requires forall i :: 0 <= i < |t| ==> IsWhiteSpace(t[i])
    ensures forall i :: 0 <= i < |s| ==> IsWhiteSpace(s[i])
  {
    forall i | |s| - |t| <= i < |s| ensures IsWhiteSpace(s[i]) {
      assert s[i] == t[i - (|s| - |t|)];
    }
  }

  /** `s.trim() || undefined`: the trimmed text, or nothing when it is empty. */
  function TrimmedOrUndefined(s: string): (r: Option<string>)
    ensures r.None? <==> forall i :: 0 <= i < |s| ==> IsWhiteSpace(s[i])
    ensures r.Some? ==> r.value == Trim(s) && r.value != []
  {
    TrimEmptyIff(s);
    if Trim(s) == [] then None else Some(Trim(s))
  }

  /** The value of an `<input type="number">` read with `parseFloat`: the browser reports the empty
      string for anything that is not a valid number, and `parseFloat` reads a valid number back. */
  datatype RateInput = Blank | Entered(value: real)

  /** `parseFloat(text) || 0`: NaN (a blank field) and 0 both give 0. */
  function RateOrZero(input: RateInput): real {
    if input.Entered? then input.value else 0.0
  }

  /** `parseFloat(text) || undefined`: a blank field or a zero give no rate. */
  function RateOrUndefined(input: RateInput): Option<real> {
    if input.Entered? && input.value != 0.0 then Some(input.value) else None
  }

  /** `parseInt(text) || 0`, given the result of `parseInt` (None for NaN). */
  function CountOrZero(parsed: Option<int>): int {
    if parsed.Some? then parsed.value else 0
  }

  /** `{ ...counts, [id]: parseInt(text) || 0 }`: the item-count update of the detailed pay form. */
  function WithItemCount(counts: map<string, int>, id: string, parsed: Option<int>): (r: map<string, int>)
    ensures r.Keys == counts.Keys + {id}
    ensures r[id] == CountOrZero(parsed)
    ensures forall k :: k in counts && k != id ==> r[k] == counts[k]
  {
    counts[id := CountOrZero(parsed)]
  }
}
