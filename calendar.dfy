/**
 * The back end's month prefix: the UTC calendar month, as "YYYY-MM", of the
 * day that a count of seconds since the Unix epoch falls in, computed without
 * a date library by subtracting whole Gregorian years and then whole months.
 */
module Calendar {
  import opened Decimal

  const SecondsPerDay: nat := 86400
  const EpochYear: int := 1970
  const TwoTo32: int := 0x1_0000_0000
  const TwoTo64: int := 0x1_0000_0000_0000_0000

  /** Gregorian leap rule: divisible by 4, and not by 100 unless by 400. */
  predicate IsLeap(y: int) {
    y % 4 == 0 && (y % 100 != 0 || y % 400 == 0)
  }

  function DaysInYear(y: int): int {
    if IsLeap(y) then 366 else 365
  }

  /** The twelve month lengths of year `y`, January first. */
  function MonthLengths(y: int): (ms: seq<int>)
    ensures |ms| == 12
  {
    [31, if IsLeap(y) then 29 else 28, 31, 30, 31, 30, 31, 31, 30, 31, 30, 31]
  }

  function DaysInMonth(y: int, m: int): int
    requires 1 <= m <= 12
  {
    MonthLengths(y)[m - 1]
  }

  /** Days from 1 January 1970 to 1 January of year `y`. */
  function DaysBeforeYear(y: int): nat
    requires y >= EpochYear
    decreases y - EpochYear
  {
    if y == EpochYear then 0 else DaysBeforeYear(y - 1) + DaysInYear(y - 1)
  }

  /** Days from 1 January of year `y` to the first day of month `m` (13 means the next year). */
  function DaysBeforeMonth(y: int, m: int): nat
    requires 1 <= m <= 13
    decreases m
  {
    if m == 1 then 0 else DaysBeforeMonth(y, m - 1) + DaysInMonth(y, m - 1)
  }

  /** Day number `days` (0 is 1 January 1970) lies in month `m` of year `y`. */
  predicate IsMonthOf(days: int, y: int, m: int) {
    && y >= EpochYear
    && 1 <= m <= 12
    && DaysBeforeYear(y) + DaysBeforeMonth(y, m) <= days
    && days < DaysBeforeYear(y) + DaysBeforeMonth(y, m) + DaysInMonth(y, m)
  }

  /** The twelve month lengths add up to the year length: 366 exactly when February has 29 days. */
  lemma {:induction false} MonthsFillYear(y: int)
    ensures DaysBeforeMonth(y, 13) == DaysInYear(y)
    ensures DaysInYear(y) == 366 <==> DaysInMonth(y, 2) == 29
  {
    var feb := if IsLeap(y) then 29 else 28;
    assert DaysBeforeMonth(y, 2) == 31;
    assert DaysBeforeMonth(y, 3) == 31 + feb;
    assert DaysBeforeMonth(y, 4) == 62 + feb;
    assert DaysBeforeMonth(y, 5) == 92 + feb;
    assert DaysBeforeMonth(y, 6) == 123 + feb;
    assert DaysBeforeMonth(y, 7) == 153 + feb;
    assert DaysBeforeMonth(y, 8) == 184 + feb;
    assert DaysBeforeMonth(y, 9) == 215 + feb;
    assert DaysBeforeMonth(y, 10) == 245 + feb;
    assert DaysBeforeMonth(y, 11) == 276 + feb;
    assert DaysBeforeMonth(y, 12) == 306 + feb;
  }

  lemma {:induction false} DaysBeforeYearMonotone(y1: int, y2: int)
    requires EpochYear <= y1 <= y2
    ensures DaysBeforeYear(y1) <= DaysBeforeYear(y2)
    decreases y2 - y1
  {
    if y1 < y2 {
      DaysBeforeYearMonotone(y1, y2 - 1);
    }
  }

  lemma {:induction false} DaysBeforeMonthMonotone(y: int, m1: int, m2: int)
    requires 1 <= m1 <= m2 <= 13
    ensures DaysBeforeMonth(y, m1) <= DaysBeforeMonth(y, m2)
    decreases m2 - m1
  {
    if m1 < m2 {
      DaysBeforeMonthMonotone(y, m1, m2 - 1);
    }
  }

  /** A day in month `m` of `y` lies within year `y`. */
  lemma {:induction false} MonthWithinYear(days: int, y: int, m: int)
    requires IsMonthOf(days, y, m)
    ensures DaysBeforeYear(y) <= days < DaysBeforeYear(y + 1)
  {
    DaysBeforeMonthMonotone(y, m + 1, 13);
    MonthsFillYear(y);
  }

  /** A day belongs to at most one month. */
  lemma {:induction false} MonthOfUnique(days: int, y1: int, m1: int, y2: int, m2: int)
    requires IsMonthOf(days, y1, m1) && IsMonthOf(days, y2, m2)
    ensures y1 == y2 && m1 == m2
  {
    MonthWithinYear(days, y1, m1);
    MonthWithinYear(days, y2, m2);
    if y1 < y2 {
      DaysBeforeYearMonotone(y1 + 1, y2);
    } else if y2 < y1 {
      DaysBeforeYearMonotone(y2 + 1, y1);
    }
    if m1 < m2 {
      DaysBeforeMonthMonotone(y1, m1 + 1, m2);
    } else if m2 < m1 {
      DaysBeforeMonthMonotone(y1, m2 + 1, m1);
    }
  }

  lemma {:induction false} MonthExistsFrom(days: int, y: int, m: int)
    requires y >= EpochYear && 1 <= m <= 12
    requires DaysBeforeYear(y) + DaysBeforeMonth(y, m) <= days < DaysBeforeYear(y) + DaysInYear(y)
    ensures exists y', m' :: IsMonthOf(days, y', m')
    decreases 12 - m
  {
    if days < DaysBeforeYear(y) + DaysBeforeMonth(y, m) + DaysInMonth(y, m) {
      assert IsMonthOf(days, y, m);
    } else {
      if m == 12 {
        MonthsFillYear(y);
        assert false;
      }
      MonthExistsFrom(days, y, m + 1);
    }
  }

  lemma {:induction false} MonthExistsFromYear(days: nat, y: int)
    requires y >= EpochYear && DaysBeforeYear(y) <= days
    ensures exists y', m' :: IsMonthOf(days, y', m')
    decreases days - DaysBeforeYear(y)
  {
    if days < DaysBeforeYear(y) + DaysInYear(y) {
      MonthExistsFrom(days, y, 1);
    } else {
      MonthExistsFromYear(days, y + 1);
    }
  }

  /** Every day from the epoch on lies in some month. */
  lemma {:induction false} MonthOfExists(days: nat)
    ensures exists y, m :: IsMonthOf(days, y, m)
  {
    MonthExistsFromYear(days, EpochYear);
  }

  /** The (year, month) that day number `days` falls in. */
  ghost function MonthOf(days: nat): (ym: (int, int))
    ensures IsMonthOf(days, ym.0, ym.1)
  {
    MonthOfExists(days);
    var y, m :| IsMonthOf(days, y, m);
    (y, m)
  }

  /**
   * Counting the days of the years before `y`, the months before `m` and
   * `d` more days inside month `m` lands in month `m` of year `y`.
   */
  lemma {:induction false} MonthOfRoundTrip(y: int, m: int, d: int)
    requires y >= EpochYear && 1 <= m <= 12 && 0 <= d < DaysInMonth(y, m)
    ensures MonthOf(DaysBeforeYear(y) + DaysBeforeMonth(y, m) + d) == (y, m)
  {
    MonthOfIs(DaysBeforeYear(y) + DaysBeforeMonth(y, m) + d, y, m);
  }

  /** `MonthOf` picks the one month a day lies in. */
  lemma {:induction false} MonthOfIs(days: nat, y: int, m: int)
    requires IsMonthOf(days, y, m)
    ensures MonthOf(days) == (y, m)
  {
    var ym := MonthOf(days);
    MonthOfUnique(days, y, m, ym.0, ym.1);
  }

  /** Rust's `u64 as i32`: keep the low 32 bits and read them as two's complement. */
  function AsI32(x: nat): (r: int)
    ensures -0x8000_0000 <= r < 0x8000_0000
    ensures (x - r) % TwoTo32 == 0
    ensures x < 0x8000_0000 ==> r == x
  {
    var low := x % TwoTo32;
    if low >= 0x8000_0000 then low - TwoTo32 else low
  }

  /** `format!("{:04}-{:02}", y, m)`. */
  function MonthPrefix(y: nat, m: nat): string {
    ZeroPad(NatToString(y), 4) + "-" + ZeroPad(NatToString(m), 2)
  }

  /** For four-digit years the prefix is "YYYY-MM": seven characters that read back as `y` and `m`. */
  lemma {:induction false} MonthPrefixShape(y: nat, m: nat)
    requires y <= 9999 && 1 <= m <= 12
    ensures var p := MonthPrefix(y, m);
      && |p| == 7 && p[4] == '-'
      && AllDigits(p[..4]) && AllDigits(p[5..])
      && DigitsValue(p[..4]) == y && DigitsValue(p[5..]) == m
  {
    var ys, ms := PrefixPieces(y, m);
    DashJoined(ys, ms);
  }

  /** The two zero-padded fields of the prefix, with their digits and values. */
  lemma {:induction false} PrefixPieces(y: nat, m: nat) returns (ys: string, ms: string)
    requires y <= 9999 && 1 <= m <= 12
    ensures MonthPrefix(y, m) == ys + "-" + ms
    ensures |ys| == 4 && AllDigits(ys) && DigitsValue(ys) == y
    ensures |ms| == 2 && AllDigits(ms) && DigitsValue(ms) == m
  {
    ys := ZeroPad(NatToString(y), 4);
    ms := ZeroPad(NatToString(m), 2);
    assert Pow10(4) == 10000 && Pow10(2) == 100;
    PaddedDigits(y, 4);
    PaddedDigits(m, 2);
  }

  lemma {:induction false} DashJoined(a: string, b: string)
    requires |a| == 4 && |b| == 2
    ensures var p := a + "-" + b;
      |p| == 7 && p[4] == '-' && p[..4] == a && p[5..] == b
  {
    var p := a + "-" + b;
    assert p[..4] == a;
    assert p[5..] == b;
  }

  /** A number below 10^width, zero-padded to `width`, is exactly `width` digits with its value. */
  lemma {:induction false} PaddedDigits(n: nat, width: nat)
    requires width >= 1 && n < Pow10(width)
    ensures var s := ZeroPad(NatToString(n), width);
      |s| == width && AllDigits(s) && DigitsValue(s) == n
  {
    NatToStringLength(n, width);
    NatToStringRoundTrip(n);
    ZeroPadValue(NatToString(n), width);
  }

  /** The prefix for `now` (seconds since the epoch) that `CurrentMonthPrefix` computes. */
  ghost function MonthPrefixAt(now: nat): string {
    var days := AsI32(now / SecondsPerDay);
    if days < 0 then MonthPrefix(1970, 1)
    else MonthPrefix(MonthOf(days).0, MonthOf(days).1)
  }

  /**
   * A clock reading that falls on day `d` of month `m` of year `y` (while the
   * day count fits in an i32) gives that month's prefix.
   */
  lemma {:induction false} MonthPrefixAtRoundTrip(now: nat, y: int, m: int, d: int)
    requires y >= EpochYear && 1 <= m <= 12 && 0 <= d < DaysInMonth(y, m)
    requires now / SecondsPerDay == DaysBeforeYear(y) + DaysBeforeMonth(y, m) + d < 0x8000_0000
    ensures MonthPrefixAt(now) == MonthPrefix(y, m)
  {
    MonthOfRoundTrip(y, m, d);
    MonthPrefixAtDay(now, y, m);
  }

  lemma {:induction false} MonthPrefixAtDay(now: nat, y: int, m: int)
    requires now / SecondsPerDay < 0x8000_0000
    requires MonthOf(now / SecondsPerDay) == (y, m)
    ensures MonthPrefixAt(now) == MonthPrefix(y, m)
  {
    assert AsI32(now / SecondsPerDay) == now / SecondsPerDay;
  }

  /**
   * `current_month_prefix`, with the clock reading passed in: the day count
   * is cast to i32 as the source does, then whole years and whole months are
   * subtracted. A day count that the cast turns negative stops both loops at
   * once and gives "1970-01".
   */
  lemma {:induction false} MonthPrefixAtIs(now: nat, days: int, y: nat, m: nat)
    requires days == AsI32(now / SecondsPerDay)
    requires days >= 0 ==> MonthOf(days) == (y, m)
    requires days < 0 ==> y == EpochYear && m == 1
    ensures MonthPrefixAt(now) == MonthPrefix(y, m)
  {
  }

  method CurrentMonthPrefix(now: nat) returns (prefix: string)
    requires now < TwoTo64
    ensures prefix == MonthPrefixAt(now)
  {
    var days := AsI32(now / SecondsPerDay);
    var y := EpochYear;
    var remaining := days;
    while true
      invariant y >= EpochYear
      invariant days < 0 ==> y == EpochYear && remaining == days
      invariant days >= 0 ==> 0 <= remaining && days == DaysBeforeYear(y) + remaining
      decreases remaining
    {
      var leap := y % 4 == 0 && (y % 100 != 0 || y % 400 == 0);
      var daysInYear := if leap then 366 else 365;
      if remaining < daysInYear {
        break;
      }
      remaining := remaining - daysInYear;
      y := y + 1;
    }
    assert remaining < DaysInYear(y);
    var leap := y % 4 == 0 && (y % 100 != 0 || y % 400 == 0);
    var monthDays := [31, if leap then 29 else 28, 31, 30, 31, 30, 31, 31, 30, 31, 30, 31];
    assert monthDays == MonthLengths(y);
    MonthsFillYear(y);
    var m := 1;
    var i := 0;
    while i < |monthDays|
      invariant 0 <= i <= 12 && m == i + 1
      invariant days < 0 ==> i == 0 && remaining == days
      invariant days >= 0 ==> 0 <= remaining < DaysInYear(y) - DaysBeforeMonth(y, m)
      invariant days >= 0 ==> days == DaysBeforeYear(y) + DaysBeforeMonth(y, m) + remaining
    {
      var md := monthDays[i];
      if remaining < md {
        break;
      }
      remaining := remaining - md;
      m := m + 1;
      i := i + 1;
    }
    assert 1 <= m <= 12;
    if days >= 0 {
      assert IsMonthOf(days, y, m);
      MonthOfIs(days, y, m);
    }
    MonthPrefixAtIs(now, days, y, m);
    prefix := MonthPrefix(y, m);
  }
}
