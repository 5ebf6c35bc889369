/** The proleptic Gregorian calendar behind the timestamps of sdk/cpp/src/core.cpp (RFC 3339 section 5.6). */
module Calendar {
  import opened Common

  /** C++ integer division, which truncates toward zero. */
  function TruncatedQuotient(a: int, b: int): int
    requires b > 0
  {
    if a >= 0 then a / b else -(-a / b)
  }

  function DaysFromCivil(year: int, month: int, day: int): int {
    var y := if month <= 2 then year - 1 else year;
    var era := TruncatedQuotient(if y >= 0 then y else y - 399, 400);
    var yoe := y - era * 400;
    var adjustedMonth := month + (if month > 2 then -3 else 9);
    var doy := (153 * adjustedMonth + 2) / 5 + day - 1;
    var doe := yoe * 365 + yoe / 4 - yoe / 100 + doy;
    era * 146097 + doe - 719468
  }

  // The reference: a calendar that is stepped through one day at a time.

  predicate Leap(year: int) { year % 4 == 0 && (year % 100 != 0 || year % 400 == 0) }

  function MonthDays(year: int, month: int): int
    requires 1 <= month <= 12
  {
    if month == 2 then (if Leap(year) then 29 else 28)
    else if month in {4, 6, 9, 11} then 30
    else 31
  }

  datatype RawDate = Date(year: int, month: int, day: int)

  predicate ValidDate(d: RawDate) {
    1 <= d.month <= 12 && 1 <= d.day <= MonthDays(d.year, d.month)
  }

  type Date = d: RawDate | ValidDate(d) witness Date(1970, 1, 1)

  const EPOCH: Date := Date(1970, 1, 1)

  function Days(d: Date): int { DaysFromCivil(d.year, d.month, d.day) }

  function NextDay(d: Date): Date {
    if d.day < MonthDays(d.year, d.month) then Date(d.year, d.month, d.day + 1)
    else if d.month < 12 then Date(d.year, d.month + 1, 1)
    else Date(d.year + 1, 1, 1)
  }

  ghost predicate Before(a: Date, b: Date) {
    a.year < b.year || (a.year == b.year && (a.month < b.month || (a.month == b.month && a.day < b.day)))
  }

  /** The date n days after the epoch, reached one day at a time. */
  ghost function DayAfter(n: nat): Date {
    if n == 0 then EPOCH else NextDay(DayAfter(n - 1))
  }

  /** Days before the 1st of March of the year that ends in the following February. */
  ghost function MarchStart(y: int): int { y * 365 + y / 4 - y / 100 + y / 400 - 719468 }

  ghost function MonthStart(month: int): int
    requires 1 <= month <= 12
  {
    (153 * (month + (if month > 2 then -3 else 9)) + 2) / 5
  }

  /** Without eras: floor division turns the era and its years into one sum. */
  lemma WithoutEras(year: int, month: int, day: int)
    requires 1 <= month <= 12
    ensures DaysFromCivil(year, month, day)
         == MarchStart(if month <= 2 then year - 1 else year) + MonthStart(month) + day - 1
  {
    var y := if month <= 2 then year - 1 else year;
    var era := TruncatedQuotient(if y >= 0 then y else y - 399, 400);
    FloorEra(y, era);
    EraSum(y, era);
  }

  lemma FloorEra(y: int, era: int)
    requires era == TruncatedQuotient(if y >= 0 then y else y - 399, 400)
    ensures era == y / 400
  {
    if y < 0 {
      var q := (399 - y) / 400;
      assert 400 * q <= 399 - y < 400 * q + 400;
      assert -400 * q <= y < -400 * q + 400 by { assert y >= -400 * q; }
    }
  }

  lemma EraSum(y: int, era: int)
    requires era == y / 400
    ensures var yoe := y - era * 400;
            era * 146097 + yoe * 365 + yoe / 4 - yoe / 100 == y * 365 + y / 4 - y / 100 + y / 400
  {
    var yoe := y - era * 400;
    assert y / 4 == 100 * era + yoe / 4;
    assert y / 100 == 4 * era + yoe / 100;
  }

  lemma MarchStep(y: int)
    ensures MarchStart(y) == MarchStart(y - 1) + (if Leap(y) then 366 else 365)
  {
    QuotientStep(y, 4);
    QuotientStep(y, 100);
    QuotientStep(y, 400);
    LeapQuotients(y);
  }

  lemma QuotientStep(y: int, m: int)
    requires m in {4, 100, 400}
    ensures y / m == (y - 1) / m + (if y % m == 0 then 1 else 0)
  {}

  lemma LeapQuotients(y: int)
    ensures y % 400 == 0 ==> y % 100 == 0
    ensures y % 100 == 0 ==> y % 4 == 0
  {}

  /** The months tile the year from March to February. */
  lemma MonthsTile(year: int, a: int, b: int)
    requires 1 <= a < b <= 12 && (a <= 2 <==> b <= 2)
    ensures MonthStart(a) + MonthDays(year, a) <= MonthStart(b)
    ensures b == a + 1 ==> MonthStart(a) + MonthDays(year, a) == MonthStart(b)
  {}

  lemma FebruaryEnds(year: int, a: int)
    requires 1 <= a <= 2
    ensures MonthStart(a) + MonthDays(year, a) <= (if Leap(year) then 366 else 365)
    ensures a == 2 ==> MonthStart(a) + MonthDays(year, a) == (if Leap(year) then 366 else 365)
    ensures MonthStart(3) == 0 && MonthStart(12) + 31 == MonthStart(1)
  {}

  lemma StartsNonNegative(month: int)
    requires 1 <= month <= 12
    ensures MonthStart(month) >= 0
  {}

  /** Every calendar successor, inside a month, at its end and at the end of a year, is one day later. */
  lemma NextDayIsOneMore(d: Date)
    ensures Days(NextDay(d)) == Days(d) + 1
  {
    hide MarchStart, MonthStart, Leap, DaysFromCivil;
    var e := NextDay(d);
    WithoutEras(d.year, d.month, d.day);
    WithoutEras(e.year, e.month, e.day);
    MarchStep(d.year);
    FebruaryEnds(d.year, 2);
    if d.month < 12 && d.month != 2 { MonthsTile(d.year, d.month, d.month + 1); }
  }

  lemma EpochIsZero()
    ensures Days(EPOCH) == 0
  {
    WithoutEras(1970, 1, 1);
  }

  lemma {:induction false} DaysCountsFromEpoch(n: nat)
    ensures Days(DayAfter(n)) == n
  {
    if n == 0 {
      EpochIsZero();
    } else {
      DaysCountsFromEpoch(n - 1);
      NextDayIsOneMore(DayAfter(n - 1));
    }
  }

  /** Every later date has more days, so distinct dates have distinct counts. */
  lemma DaysIncrease(a: Date, b: Date)
    requires Before(a, b)
    ensures Days(a) < Days(b)
  {
    if a.year < b.year {
      LastOfYear(a);
      FirstOfYear(b);
      YearsIncrease(a.year, b.year);
    } else {
      SameYear(a, b);
    }
  }

  lemma SameYear(a: Date, b: Date)
    requires Before(a, b) && a.year == b.year
    ensures Days(a) < Days(b)
  {
    hide MarchStart, MonthStart, Leap, DaysFromCivil;
    WithoutEras(a.year, a.month, a.day);
    WithoutEras(b.year, b.month, b.day);
    MarchStep(a.year);
    if a.month < b.month {
      if a.month <= 2 < b.month {
        FebruaryEnds(a.year, a.month);
        StartsNonNegative(b.month);
      } else {
        MonthsTile(a.year, a.month, b.month);
      }
    }
  }

  lemma LastOfYear(a: Date)
    ensures Days(a) <= DaysFromCivil(a.year, 12, 31)
  {
    if a != Date(a.year, 12, 31) { SameYear(a, Date(a.year, 12, 31)); }
  }

  lemma FirstOfYear(a: Date)
    ensures DaysFromCivil(a.year, 1, 1) <= Days(a)
  {
    if a != Date(a.year, 1, 1) { SameYear(Date(a.year, 1, 1), a); }
  }

  lemma {:induction false} YearsIncrease(y: int, z: int)
    requires y < z
    ensures DaysFromCivil(y, 12, 31) < DaysFromCivil(z, 1, 1)
    decreases z - y
  {
    NextDayIsOneMore(Date(y, 12, 31));
    if y + 1 < z {
      SameYear(Date(y + 1, 1, 1), Date(y + 1, 12, 31));
      YearsIncrease(y + 1, z);
    }
  }

  lemma DaysInjective(a: Date, b: Date)
    requires Days(a) == Days(b)
    ensures a == b
  {
    if Before(a, b) { DaysIncrease(a, b); }
    if Before(b, a) { DaysIncrease(b, a); }
  }

  /** Every date on or after the epoch is reached by counting off its days. */
  lemma DaysReachesDate(d: Date)
    requires !Before(d, EPOCH)
    ensures Days(d) >= 0 && DayAfter(Days(d)) == d
  {
    EpochIsZero();
    if d != EPOCH { DaysIncrease(EPOCH, d); }
    DaysCountsFromEpoch(Days(d));
    DaysInjective(DayAfter(Days(d)), d);
  }
}
