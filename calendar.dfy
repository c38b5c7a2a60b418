/**
 * The proleptic Gregorian calendar as Python's `calendar` and `datetime`
 * modules count it: leap years, month lengths (`calendar.monthrange(y, m)[1]`)
 * and weekdays numbered from Monday = 0 (`date.weekday()`).
 */
module Calendar {

  predicate IsLeap(y: int) {
    y % 4 == 0 && (y % 100 != 0 || y % 400 == 0)
  }

  predicate ValidMonth(m: int) {
    1 <= m <= 12
  }

  function DaysInMonth(y: int, m: int): (n: nat)
    requires ValidMonth(m)
    ensures 28 <= n <= 31
    ensures m == 2 ==> (n == 29 <==> IsLeap(y))
  {
    if m == 2 then (if IsLeap(y) then 29 else 28)
    else if m == 4 || m == 6 || m == 9 || m == 11 then 30
    else 31
  }

  /** Days in the months of year y before month m. */
  function DaysBeforeMonth(y: int, m: int): nat
    requires ValidMonth(m)
    decreases m
  {
    if m == 1 then 0 else DaysBeforeMonth(y, m - 1) + DaysInMonth(y, m - 1)
  }

  /** Days in years 1 .. y-1. */
  function DaysBeforeYear(y: nat): nat
    requires y >= 1
  {
    var p := y - 1;
    365 * p + p / 4 - p / 100 + p / 400
  }

  predicate ValidDate(y: int, m: int, d: int) {
    y >= 1 && ValidMonth(m) && 1 <= d <= DaysInMonth(y, m)
  }

  /** Days since 0001-01-01, which was a Monday (`date.toordinal() - 1`). */
  function DayNumber(y: int, m: int, d: int): nat
    requires ValidDate(y, m, d)
  {
    DaysBeforeYear(y) + DaysBeforeMonth(y, m) + d - 1
  }

  /** `date(y, m, d).weekday()`: Monday is 0, Sunday is 6. */
  function Weekday(y: int, m: int, d: int): (w: nat)
    requires ValidDate(y, m, d)
    ensures w < 7
  {
    DayNumber(y, m, d) % 7
  }

  /** The calendar day after a valid date. */
  function NextDate(y: int, m: int, d: int): (r: (int, int, int))
    requires ValidDate(y, m, d)
    ensures ValidDate(r.0, r.1, r.2)
  {
    if d < DaysInMonth(y, m) then (y, m, d + 1)
    else if m < 12 then (y, m + 1, 1)
    else (y + 1, 1, 1)
  }

  /** The days of a year before December. */
  lemma DaysBeforeDecember(y: int)
    ensures DaysBeforeMonth(y, 12) == if IsLeap(y) then 335 else 334
  {
    assert DaysBeforeMonth(y, 3) == 31 + DaysInMonth(y, 2);
    assert DaysBeforeMonth(y, 6) == DaysBeforeMonth(y, 3) + 92;
    assert DaysBeforeMonth(y, 9) == DaysBeforeMonth(y, 6) + 92;
    assert DaysBeforeMonth(y, 12) == DaysBeforeMonth(y, 9) + 91;
  }

  /** A year has 366 days when it is a leap year and 365 otherwise. */
  lemma YearLength(y: int)
    requires y >= 1
    ensures DaysBeforeYear(y + 1) == DaysBeforeYear(y) + if IsLeap(y) then 366 else 365
  {
    Step4(y);
    Step100(y);
    Step400(y);
    CenturyIsFourfold(y);
    FourCenturiesIsCentury(y);
  }

  // Going from y - 1 to y, a quotient grows exactly when the divisor divides y.

  lemma Step4(y: int)
    ensures y / 4 - (y - 1) / 4 == if y % 4 == 0 then 1 else 0
  {
    var q, r := (y - 1) / 4, (y - 1) % 4;
    assert y - 1 == 4 * q + r && 0 <= r < 4;
    if r == 3 {
      assert y == 4 * (q + 1) + 0;
    } else {
      assert y == 4 * q + (r + 1);
    }
  }

  lemma Step100(y: int)
    ensures y / 100 - (y - 1) / 100 == if y % 100 == 0 then 1 else 0
  {
    var q, r := (y - 1) / 100, (y - 1) % 100;
    assert y - 1 == 100 * q + r && 0 <= r < 100;
    if r == 99 {
      assert y == 100 * (q + 1) + 0;
    } else {
      assert y == 100 * q + (r + 1);
    }
  }

  lemma Step400(y: int)
    ensures y / 400 - (y - 1) / 400 == if y % 400 == 0 then 1 else 0
  {
    var q, r := (y - 1) / 400, (y - 1) % 400;
    assert y - 1 == 400 * q + r && 0 <= r < 400;
    if r == 399 {
      assert y == 400 * (q + 1) + 0;
    } else {
      assert y == 400 * q + (r + 1);
    }
  }

  /** A century is a multiple of 4. */
  lemma CenturyIsFourfold(y: int)
    ensures y % 100 == 0 ==> y % 4 == 0
  {
    if y % 100 == 0 {
      var q := y / 100;
      assert y == 4 * (25 * q) + 0;
    }
  }

  /** A multiple of 400 is a century. */
  lemma FourCenturiesIsCentury(y: int)
    ensures y % 400 == 0 ==> y % 100 == 0
  {
    if y % 400 == 0 {
      var q := y / 400;
      assert y == 100 * (4 * q) + 0;
    }
  }

  /**
   * Each date's day number is one more than the day before's, across month
   * and year ends; with 0001-01-01 numbered 0, DayNumber counts days the
   * way `date.toordinal()` does.
   */
  lemma DayNumberOfNextDate(y: int, m: int, d: int)
    requires ValidDate(y, m, d)
    ensures var (y', m', d') := NextDate(y, m, d); DayNumber(y', m', d') == DayNumber(y, m, d) + 1
  {
    if d == DaysInMonth(y, m) && m == 12 {
      DaysBeforeDecember(y);
      YearLength(y);
    }
  }

  /**
   * The weekday goes round Monday to Sunday from each date to the next;
   * with 0001-01-01 a Monday, this fixes Weekday as `date.weekday()`.
   */
  lemma WeekdayOfNextDate(y: int, m: int, d: int)
    requires ValidDate(y, m, d)
    ensures Weekday(1, 1, 1) == 0
    ensures var (y', m', d') := NextDate(y, m, d); Weekday(y', m', d') == (Weekday(y, m, d) + 1) % 7
  {
    DayNumberOfNextDate(y, m, d);
    NextResidue(DayNumber(y, m, d));
  }

  /** The residue modulo 7 of the next number goes round by one. */
  lemma NextResidue(n: int)
    ensures (n + 1) % 7 == (n % 7 + 1) % 7
  {
    var q, r := n / 7, n % 7;
    assert n + 1 == 7 * q + (r + 1);
    if r == 6 {
      assert n + 1 == 7 * (q + 1) + 0;
    }
  }

  /**
   * Among seven consecutive integers lo .. lo+6 there is one, x0, with
   * (k + x0) % 7 == w; by SameResidueClose it is the only one.
   */
  lemma SevenConsecutive(lo: int, k: int, w: int) returns (x0: int)
    requires 0 <= w < 7
    ensures lo <= x0 < lo + 7
    ensures (k + x0) % 7 == w
  {
    x0 := lo + (w - lo - k) % 7;
    var q := (w - lo - k) / 7;
    assert k + x0 == w - 7 * q;
    ModuloShift(w, -7 * q);
  }

  /** Adding a multiple of 7 keeps the residue. */
  lemma ModuloShift(w: int, delta: int)
    requires 0 <= w < 7
    requires delta % 7 == 0
    ensures (w + delta) % 7 == w
  {
  }

  /** Two integers less than 7 apart with the same residue are equal. */
  lemma SameResidueClose(a: int, b: int)
    requires -7 < a - b < 7
    requires a % 7 == b % 7
    ensures a == b
  {
  }
}
