/**
 * The string and time helpers of util.py: `fixString`, the `%H:%M` check and
 * extraction, `safeCastBool`, and the decimal rendering Python uses for an
 * `int` inside an f-string.
 */
module Util {
  import opened Wrappers

  // ---------------------------------------------------------------------------
  // Characters
  // ---------------------------------------------------------------------------

  /**
   * Python's `str.isprintable()` for one character: false for the control,
   * format, separator (except the plain space), private-use and non-character
   * code points. Exact on Latin-1; beyond it the usual separators and format
   * characters are listed.
   */
  predicate IsPrintable(c: char) {
    var n := c as int;
    !(n < 0x20 || (0x7F <= n <= 0xA0) || n == 0xAD
      || n == 0x1680 || (0x2000 <= n <= 0x200F) || (0x2028 <= n <= 0x202F)
      || (0x205F <= n <= 0x206F) || n == 0x3000 || (0xD800 <= n <= 0xF8FF)
      || n == 0xFEFF || (0xFFF9 <= n <= 0xFFFB) || n == 0xFFFE || n == 0xFFFF
      || n >= 0xF0000)
  }

  predicate AllPrintable(s: string) {
    forall i :: 0 <= i < |s| ==> IsPrintable(s[i])
  }

  /** The text can sit between the single quotes of an SQL literal. */
  predicate NoQuote(s: string) {
    '\'' !in s
  }

  /** Concatenating quote-free strings gives a quote-free string. */
  lemma NoQuoteConcat(a: string, b: string)
    requires NoQuote(a) && NoQuote(b)
    ensures NoQuote(a + b)
  {
  }

  predicate IsDigit(c: char) {
    '0' <= c <= '9'
  }

  function DigitValue(c: char): (n: nat)
    requires IsDigit(c)
    ensures n < 10
  {
    c as int - '0' as int
  }

  function DigitChar(n: nat): (c: char)
    requires n < 10
    ensures IsDigit(c) && DigitValue(c) == n
  {
    ('0' as int + n) as char
  }

  // ---------------------------------------------------------------------------
  // fixString (util.py:30-33)
  // ---------------------------------------------------------------------------

  /** The generator `s for s in inStr if s.isprintable()`, joined. */
  function Printables(s: string): (r: string)
    ensures AllPrintable(r) && |r| <= |s|
  {
    if s == [] then []
    else (if IsPrintable(s[0]) then [s[0]] else []) + Printables(s[1..])
  }

  /** What `replace("'", "\"")` does to one character. */
  function SwapQuote(c: char): char {
    if c == '\'' then '"' else c
  }

  /** `str.replace("'", "\"")`. */
  function ReplaceQuotes(s: string): (r: string)
    ensures |r| == |s|
    ensures forall i :: 0 <= i < |s| ==> r[i] == SwapQuote(s[i])
  {
    if s == [] then [] else [SwapQuote(s[0])] + ReplaceQuotes(s[1..])
  }

  /** `fixString`: drop the non-printable characters, then turn `'` into `"`. */
  function FixString(s: string): (r: string)
    ensures NoQuote(r)
    ensures AllPrintable(r)
  {
    var p := Printables(s);
    assert forall i :: 0 <= i < |p| ==> IsPrintable(ReplaceQuotes(p)[i]);
    ReplaceQuotes(p)
  }

  /** On text that is already printable and quote-free, fixString changes nothing. */
  lemma {:induction false} FixStringIdentity(s: string)
    requires AllPrintable(s) && NoQuote(s)
    ensures FixString(s) == s
  {
    if s != [] {
      assert AllPrintable(s[1..]) && NoQuote(s[1..]) by {
        assert forall i :: 0 <= i < |s[1..]| ==> s[1..][i] == s[i + 1];
      }
      FixStringIdentity(s[1..]);
      assert Printables(s) == [s[0]] + Printables(s[1..]);
    }
  }

  /** fixString is idempotent. */
  lemma FixStringIdempotent(s: string)
    ensures FixString(FixString(s)) == FixString(s)
  {
    FixStringIdentity(FixString(s));
  }

  // Positions kept by a filter

  /** `[x for x in s if keep(x)]`. */
  function Filter<T>(s: seq<T>, keep: T -> bool): (r: seq<T>)
    ensures |r| <= |s|
  {
    if s == [] then [] else (if keep(s[0]) then [s[0]] else []) + Filter(s[1..], keep)
  }

  /**
   * idx lists, in increasing order, the positions of s whose element is
   * kept, and r is the elements at those positions.
   */
  ghost predicate Picks<T>(s: seq<T>, keep: T -> bool, r: seq<T>, idx: seq<nat>) {
    && |idx| == |r|
    && (forall k, l :: 0 <= k < l < |idx| ==> idx[k] < idx[l])
    && (forall k :: 0 <= k < |idx| ==> idx[k] < |s| && r[k] == s[idx[k]])
    && (forall j :: 0 <= j < |s| && keep(s[j]) ==> j in idx)
  }

  /** A filter keeps exactly the elements it accepts, in their original order. */
  lemma {:induction false} FilterPicks<T>(s: seq<T>, keep: T -> bool) returns (idx: seq<nat>)
    ensures Picks(s, keep, Filter(s, keep), idx)
  {
    if s == [] {
      idx := [];
    } else {
      var rest := FilterPicks(s[1..], keep);
      if keep(s[0]) {
        idx := PickHead(s, keep, rest);
      } else {
        idx := SkipHead(s, keep, rest);
      }
    }
  }

  lemma PickHead<T>(s: seq<T>, keep: T -> bool, rest: seq<nat>) returns (idx: seq<nat>)
    requires s != [] && keep(s[0]) && Picks(s[1..], keep, Filter(s[1..], keep), rest)
    ensures Picks(s, keep, Filter(s, keep), idx)
  {
    ShiftPicks(s, keep, rest);
    assert Filter(s, keep) == [s[0]] + Filter(s[1..], keep);
    idx := [0] + Shift(rest);
    ConsIncreasing(rest);
    ConsSelects(s, Filter(s[1..], keep), rest);
    ConsComplete(s, keep, rest);
  }

  lemma ConsSelects<T>(s: seq<T>, tail: seq<T>, rest: seq<nat>)
    requires s != [] && |rest| == |tail|
    requires forall k :: 0 <= k < |rest| ==> Shift(rest)[k] < |s| && tail[k] == s[Shift(rest)[k]]
    ensures forall k :: 0 <= k < |[0] + Shift(rest)| ==>
      ([0] + Shift(rest))[k] < |s| && ([s[0]] + tail)[k] == s[([0] + Shift(rest))[k]]
  {
    var idx := [0] + Shift(rest);
    forall k | 0 < k < |idx|
      ensures idx[k] < |s| && ([s[0]] + tail)[k] == s[idx[k]]
    {
      assert idx[k] == Shift(rest)[k - 1] && ([s[0]] + tail)[k] == tail[k - 1];
    }
  }

  lemma ConsIncreasing(rest: seq<nat>)
    requires forall k, l :: 0 <= k < l < |rest| ==> rest[k] < rest[l]
    ensures forall k, l :: 0 <= k < l < |[0] + Shift(rest)| ==> ([0] + Shift(rest))[k] < ([0] + Shift(rest))[l]
  {
    var idx := [0] + Shift(rest);
    forall k, l | 0 <= k < l < |idx|
      ensures idx[k] < idx[l]
    {
      assert idx[l] == rest[l - 1] + 1;
      if k > 0 {
        assert idx[k] == rest[k - 1] + 1;
      }
    }
  }

  lemma ConsComplete<T>(s: seq<T>, keep: T -> bool, rest: seq<nat>)
    requires s != [] && keep(s[0])
    requires forall j :: 0 < j < |s| && keep(s[j]) ==> j in Shift(rest)
    ensures forall j :: 0 <= j < |s| && keep(s[j]) ==> j in [0] + Shift(rest)
  {
  }

  lemma SkipHead<T>(s: seq<T>, keep: T -> bool, rest: seq<nat>) returns (idx: seq<nat>)
    requires s != [] && !keep(s[0]) && Picks(s[1..], keep, Filter(s[1..], keep), rest)
    ensures Picks(s, keep, Filter(s, keep), idx)
  {
    ShiftPicks(s, keep, rest);
    assert Filter(s, keep) == Filter(s[1..], keep);
    idx := Shift(rest);
  }

  /** Every position moved one to the right. */
  function Shift(idx: seq<nat>): (r: seq<nat>)
    ensures |r| == |idx| && forall k :: 0 <= k < |idx| ==> r[k] == idx[k] + 1
  {
    seq(|idx|, k requires 0 <= k < |idx| => idx[k] + 1)
  }

  /** The positions picked in s[1..], moved right, are the ones picked in s after the first. */
  lemma ShiftPicks<T>(s: seq<T>, keep: T -> bool, rest: seq<nat>)
    requires s != [] && Picks(s[1..], keep, Filter(s[1..], keep), rest)
    ensures forall k :: 0 <= k < |rest| ==>
      Shift(rest)[k] < |s| && Filter(s[1..], keep)[k] == s[Shift(rest)[k]]
    ensures forall j :: 0 < j < |s| && keep(s[j]) ==> j in Shift(rest)
  {
    var shifted := Shift(rest);
    forall j | 0 < j < |s| && keep(s[j])
      ensures j in shifted
    {
      assert s[1..][j - 1] == s[j];
      var k :| 0 <= k < |rest| && rest[k] == j - 1;
      assert shifted[k] == j;
    }
    forall k | 0 <= k < |rest|
      ensures shifted[k] < |s| && Filter(s[1..], keep)[k] == s[shifted[k]]
    {
      assert s[1..][rest[k]] == s[shifted[k]];
    }
  }

  /** Everything a filter keeps is accepted. */
  lemma {:induction false} FilterKept<T>(s: seq<T>, keep: T -> bool)
    ensures forall k :: 0 <= k < |Filter(s, keep)| ==> keep(Filter(s, keep)[k])
  {
    if s != [] {
      FilterKept(s[1..], keep);
      var tail := Filter(s[1..], keep);
      if keep(s[0]) {
        assert Filter(s, keep) == [s[0]] + tail;
        assert forall k :: 0 < k < |Filter(s, keep)| ==> Filter(s, keep)[k] == tail[k - 1];
      } else {
        assert Filter(s, keep) == tail;
      }
    }
  }

  /** The printable characters are a filter. */
  lemma {:induction false} PrintablesFilter(s: string)
    ensures Printables(s) == Filter(s, IsPrintable)
  {
    if s != [] {
      PrintablesFilter(s[1..]);
    }
  }

  /**
   * fixString keeps exactly the printable characters of its input, in their
   * original order, with `'` turned into `"`: `idx` lists the input positions
   * the output characters come from.
   */
  lemma FixStringKeepsPrintables(s: string) returns (idx: seq<nat>)
    ensures |idx| == |FixString(s)|
    ensures forall k, l :: 0 <= k < l < |idx| ==> idx[k] < idx[l]
    ensures forall k :: 0 <= k < |idx| ==>
      idx[k] < |s| && IsPrintable(s[idx[k]]) && FixString(s)[k] == SwapQuote(s[idx[k]])
    ensures forall j :: 0 <= j < |s| && IsPrintable(s[j]) ==> j in idx
  {
    PrintablesFilter(s);
    idx := FilterPicks(s, IsPrintable);
  }

  // ---------------------------------------------------------------------------
  // isTimeFormat / extractHourAndMinute (util.py:5-15)
  // ---------------------------------------------------------------------------

  datatype HourMinute = HourMinute(hour: nat, minute: nat)

  /**
   * One `%H` or `%M` field of `time.strptime`: one or two digits whose value
   * is at most `max` (the regular expressions `2[0-3]|[0-1]\d|\d` and
   * `[0-5]\d|\d`).
   */
  function TimeField(f: string, max: nat): (r: Option<nat>)
    ensures r.Some? ==> r.value <= max
  {
    if |f| == 1 && IsDigit(f[0]) && DigitValue(f[0]) <= max then
      Some(DigitValue(f[0]))
    else if |f| == 2 && IsDigit(f[0]) && IsDigit(f[1])
         && 10 * DigitValue(f[0]) + DigitValue(f[1]) <= max then
      Some(10 * DigitValue(f[0]) + DigitValue(f[1]))
    else
      None
  }

  function TimeFields(h: string, m: string): Option<HourMinute> {
    match (TimeField(h, 23), TimeField(m, 59))
    case (Some(hour), Some(minute)) => Some(HourMinute(hour, minute))
    case _ => None
  }

  /**
   * `time.strptime(s, '%H:%M')` read back as (hour, minute); None where
   * strptime raises. The whole text must match: the colon sits after the
   * one- or two-digit hour.
   */
  function ExtractHourAndMinute(s: string): (r: Option<HourMinute>)
    ensures r.Some? ==> r.value.hour < 24 && r.value.minute < 60
  {
    if |s| >= 2 && s[1] == ':' then TimeFields(s[..1], s[2..])
    else if |s| >= 3 && s[2] == ':' then TimeFields(s[..2], s[3..])
    else None
  }

  /** `isTimeFormat`: the same strptime call, reporting only whether it succeeds. */
  predicate IsTimeFormat(s: string) {
    ExtractHourAndMinute(s).Some?
  }

  /** The two-digit zero-padded spelling of n < 100. */
  function TwoDigits(n: nat): string
    requires n < 100
  {
    [DigitChar(n / 10), DigitChar(n % 10)]
  }

  /** The spellings of one field: padded, and unpadded for a single digit. */
  function FieldForms(n: nat): set<string>
    requires n < 100
  {
    if n < 10 then {TwoDigits(n), [DigitChar(n)]} else {TwoDigits(n)}
  }

  /** Every "H:M" text that names the given time. */
  function Spellings(t: HourMinute): set<string>
    requires t.hour < 100 && t.minute < 100
  {
    set a, b | a in FieldForms(t.hour) && b in FieldForms(t.minute) :: a + ":" + b
  }

  /** The zero-padded "HH:MM" text of a time. */
  function FormatTime(t: HourMinute): string
    requires t.hour < 100 && t.minute < 100
  {
    TwoDigits(t.hour) + ":" + TwoDigits(t.minute)
  }

  lemma TimeFieldOfForm(f: string, n: nat, max: nat)
    requires n <= max < 100 && f in FieldForms(n)
    ensures TimeField(f, max) == Some(n)
  {
    if f == TwoDigits(n) {
      assert f[0] == DigitChar(n / 10) && f[1] == DigitChar(n % 10);
    }
  }

  lemma FormOfTimeField(f: string, max: nat)
    requires max < 100 && TimeField(f, max).Some?
    ensures f in FieldForms(TimeField(f, max).value)
  {
    var n := TimeField(f, max).value;
    if |f| == 1 {
      assert f == [DigitChar(n)];
    } else {
      assert f == TwoDigits(n);
    }
  }

  /**
   * The time check accepts exactly the spellings of a valid time, and reads
   * back the time they spell.
   */
  lemma ExtractHourAndMinuteExact(s: string, t: HourMinute)
    ensures ExtractHourAndMinute(s) == Some(t)
            <==> t.hour < 24 && t.minute < 60 && s in Spellings(t)
  {
    if ExtractHourAndMinute(s) == Some(t) {
      var k := if |s| >= 2 && s[1] == ':' then 1 else 2;
      var a, b := s[..k], s[k + 1..];
      FormOfTimeField(a, 23);
      FormOfTimeField(b, 59);
      assert s == a + ":" + b;
    }
    if t.hour < 24 && t.minute < 60 && s in Spellings(t) {
      var a, b :| a in FieldForms(t.hour) && b in FieldForms(t.minute) && s == a + ":" + b;
      TimeFieldOfForm(a, t.hour, 23);
      TimeFieldOfForm(b, t.minute, 59);
      if |a| == 1 {
        assert s[1] == ':' && s[..1] == a && s[2..] == b;
      } else {
        assert s[1] == a[1] && IsDigit(a[1]);
        assert s[2] == ':' && s[..2] == a && s[3..] == b;
      }
    }
  }

  /** Round trip: the zero-padded "HH:MM" of a valid time is accepted and read back. */
  lemma FormatTimeRoundTrip(t: HourMinute)
    requires t.hour < 24 && t.minute < 60
    ensures IsTimeFormat(FormatTime(t))
    ensures ExtractHourAndMinute(FormatTime(t)) == Some(t)
  {
    var a, b := TwoDigits(t.hour), TwoDigits(t.minute);
    assert a in FieldForms(t.hour) && b in FieldForms(t.minute);
    assert FormatTime(t) in Spellings(t);
    ExtractHourAndMinuteExact(FormatTime(t), t);
  }

  // ---------------------------------------------------------------------------
  // safeCastBool (util.py:18-22)
  // ---------------------------------------------------------------------------

  /** `str.lower()` on one character (ASCII letters). */
  function LowerChar(c: char): char {
    if 'A' <= c <= 'Z' then (c as int + 32) as char else c
  }

  function Lower(s: string): (r: string)
    ensures |r| == |s|
  {
    seq(|s|, i requires 0 <= i < |s| => LowerChar(s[i]))
  }

  /** `str.upper()` on one character (ASCII letters). */
  function UpperChar(c: char): char {
    if 'a' <= c <= 'z' then (c as int - 32) as char else c
  }

  function Upper(s: string): (r: string)
    ensures |r| == |s|
  {
    seq(|s|, i requires 0 <= i < |s| => UpperChar(s[i]))
  }

  /** The spellings `safeCastBool` reads as true. */
  const TrueWords: seq<string> := ["true", "1", "y", "yes"]

  /** `safeCastBool(val)` of a value whose `str()` is `s`. */
  predicate SafeCastBool(s: string) {
    Lower(s) in TrueWords
  }

  /** s and t spell the same word up to letter case. */
  predicate SameIgnoringCase(s: string, t: string) {
    |s| == |t| && forall i :: 0 <= i < |s| ==> LowerChar(s[i]) == LowerChar(t[i])
  }

  /** safeCastBool holds exactly of the case variants of "true", "1", "y" and "yes". */
  lemma SafeCastBoolCaseVariants(s: string)
    ensures SafeCastBool(s) <==> exists w :: w in TrueWords && SameIgnoringCase(s, w)
  {
    forall w | w in TrueWords ensures Lower(w) == w {
    }
    if SafeCastBool(s) {
      assert Lower(s) in TrueWords && SameIgnoringCase(s, Lower(s));
    }
    if exists w :: w in TrueWords && SameIgnoringCase(s, w) {
      var w :| w in TrueWords && SameIgnoringCase(s, w);
      assert Lower(s) == Lower(w);
    }
  }

  // ---------------------------------------------------------------------------
  // Decimal text of an int, as `f"{code}"` writes it
  // ---------------------------------------------------------------------------

  function NatDigits(n: nat): (r: string)
    ensures |r| >= 1 && forall i :: 0 <= i < |r| ==> IsDigit(r[i])
  {
    if n < 10 then [DigitChar(n)] else NatDigits(n / 10) + [DigitChar(n % 10)]
  }

  function Decimal(i: int): (r: string)
    ensures AllPrintable(r) && NoQuote(r)
  {
    if i < 0 then "-" + NatDigits(-i) else NatDigits(i)
  }

  /** The number a string of decimal digits stands for. */
  function DigitsValue(s: string): nat
    requires forall i :: 0 <= i < |s| ==> IsDigit(s[i])
  {
    if s == [] then 0 else 10 * DigitsValue(s[..|s| - 1]) + DigitValue(s[|s| - 1])
  }

  /** The digits of n read back as n. */
  lemma {:induction false} NatDigitsRoundTrip(n: nat)
    ensures DigitsValue(NatDigits(n)) == n
  {
    if n >= 10 {
      NatDigitsRoundTrip(n / 10);
      var s := NatDigits(n);
      assert s[..|s| - 1] == NatDigits(n / 10);
    }
  }
}
