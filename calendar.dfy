/**
 * The calendar arithmetic the report helpers rely on, as Python's
 * `datetime.date` performs it: proleptic Gregorian dates from 0001-01-01 to
 * 9999-12-31, their ordinal (`toordinal`, 1 for the first day), their weekday
 * (`weekday`, Monday = 0), the comparison `<=` on (year, month, day), and
 * moving by whole days (`± timedelta(days=n)`), which raises `OverflowError`
 * when the result leaves the supported range.
 */
module Calendar {
  import opened Common

  datatype Date = Date(year: int, month: int, day: int)

  /** `MAXYEAR`. */
  const MaxYear: int := 9999

  const MinDate: Date := Date(1, 1, 1)
  const MaxDate: Date := Date(MaxYear, 12, 31)

  predicate IsLeap(y: int)
  {
    y % 4 == 0 && (y % 100 != 0 || y % 400 == 0)
  }

  function DaysInMonth(y: int, m: int): (n: int)
    requires 1 <= m <= 12
    ensures 28 <= n <= 31
  {
    if m == 2 then (if IsLeap(y) then 29 else 28)
    else if m == 4 || m == 6 || m == 9 || m == 11 then 30
    else 31
  }

  function DaysInYear(y: int): int
  {
    if IsLeap(y) then 366 else 365
  }

  /** The dates a `datetime.date` can hold. */
  predicate Valid(d: Date)
  {
    1 <= d.year <= MaxYear && 1 <= d.month <= 12 && 1 <= d.day <= DaysInMonth(d.year, d.month)
  }

  /** Days in the years before `y`. */
  function DaysBeforeYear(y: int): nat
    requires y >= 1
    decreases y
  {
    if y == 1 then 0 else DaysBeforeYear(y - 1) + DaysInYear(y - 1)
  }

  /** Days in the months of year `y` before month `m`. */
  function DaysBeforeMonth(y: int, m: int): nat
    requires 1 <= m <= 12
    decreases m
  {
    if m == 1 then 0 else DaysBeforeMonth(y, m - 1) + DaysInMonth(y, m - 1)
  }

  /** `d.toordinal()`. */
  function Ordinal(d: Date): int
    requires Valid(d)
  {
    DaysBeforeYear(d.year) + DaysBeforeMonth(d.year, d.month) + d.day
  }

  /** `d.weekday()`: Monday is 0, and 0001-01-01 was a Monday. */
  function Weekday(d: Date): (w: int)
    requires Valid(d)
    ensures 0 <= w < 7
  {
    (Ordinal(d) + 6) % 7
  }

  /** `a <= b`: dates compare as (year, month, day) tuples. */
  predicate Le(a: Date, b: Date)
  {
    a.year < b.year || (a.year == b.year && (a.month < b.month || (a.month == b.month && a.day <= b.day)))
  }

  /** `d + timedelta(days=1)`; `None` is the `OverflowError` past 9999-12-31. */
  function NextDay(d: Date): Option<Date>
    requires Valid(d)
  {
    if d.day < DaysInMonth(d.year, d.month) then Some(d.(day := d.day + 1))
    else if d.month < 12 then Some(Date(d.year, d.month + 1, 1))
    else if d.year < MaxYear then Some(Date(d.year + 1, 1, 1))
    else None
  }

  /** `d - timedelta(days=1)`; `None` is the `OverflowError` before 0001-01-01. */
  function PrevDay(d: Date): (r: Option<Date>)
    requires Valid(d)
    ensures r.Some? ==> Valid(r.value)
  {
    if d.day > 1 then Some(d.(day := d.day - 1))
    else if d.month > 1 then Some(Date(d.year, d.month - 1, DaysInMonth(d.year, d.month - 1)))
    else if d.year > 1 then Some(Date(d.year - 1, 12, 31))
    else None
  }

  /** `d - timedelta(days=n)`. */
  function MinusDays(d: Date, n: nat): Option<Date>
    requires Valid(d)
    decreases n
  {
    if n == 0 then Some(d)
    else match PrevDay(d)
      case None => None
      case Some(p) => MinusDays(p, n - 1)
  }

  // ---------------------------------------------------------------------------
  // The ordinal agrees with the closed forms of the `datetime` module
  // ---------------------------------------------------------------------------

  /** Multiples of 400 are multiples of 100, which are multiples of 4. */
  lemma Multiples(x: int)
    ensures x % 400 == 0 ==> x % 100 == 0
    ensures x % 100 == 0 ==> x % 4 == 0
  {
    if x % 400 == 0 {
      var k := x / 400;
      assert x == 100 * (4 * k);
      HundredsMod(4 * k);
    }
    if x % 100 == 0 {
      var k := x / 100;
      assert x == 4 * (25 * k);
      FoursMod(25 * k);
    }
  }

  lemma HundredsMod(k: int)
    ensures (100 * k) % 100 == 0
  {
  }

  lemma FoursMod(k: int)
    ensures (4 * k) % 4 == 0
  {
  }

  /** How many multiples of 4, 100 and 400 the step from `x - 1` to `x` adds. */
  lemma CountStep(x: int)
    requires x >= 1
    ensures x / 4 - (x - 1) / 4 == if x % 4 == 0 then 1 else 0
    ensures x / 100 - (x - 1) / 100 == if x % 100 == 0 then 1 else 0
    ensures x / 400 - (x - 1) / 400 == if x % 400 == 0 then 1 else 0
  {
  }

  /** `_days_before_year`: `y*365 + y//4 - y//100 + y//400` with `y = year - 1`. */
  lemma {:induction false} DaysBeforeYearFormula(y: int)
    requires y >= 1
    ensures DaysBeforeYear(y) == (y - 1) * 365 + (y - 1) / 4 - (y - 1) / 100 + (y - 1) / 400
    decreases y
  {
    if y > 1 {
      DaysBeforeYearFormula(y - 1);
      CountStep(y - 1);
      Multiples(y - 1);
    }
  }

  /** `_DAYS_BEFORE_MONTH`, plus the leap day once February is past. */
  lemma {:induction false} DaysBeforeMonthTable(y: int, m: int)
    requires 1 <= m <= 12
    ensures DaysBeforeMonth(y, m) ==
      [0, 31, 59, 90, 120, 151, 181, 212, 243, 273, 304, 334][m - 1] + (if m > 2 && IsLeap(y) then 1 else 0)
    decreases m
  {
    if m > 1 {
      DaysBeforeMonthTable(y, m - 1);
    }
  }

  // ---------------------------------------------------------------------------
  // Ordinals order the dates
  // ---------------------------------------------------------------------------

  lemma {:induction false} DaysBeforeYearMono(y1: int, y2: int)
    requires 1 <= y1 <= y2
    ensures DaysBeforeYear(y1) + (if y1 < y2 then DaysInYear(y1) else 0) <= DaysBeforeYear(y2)
    decreases y2 - y1
  {
    if y1 < y2 - 1 {
      DaysBeforeYearMono(y1, y2 - 1);
    }
  }

  lemma {:induction false} DaysBeforeMonthMono(y: int, m1: int, m2: int)
    requires 1 <= m1 <= m2 <= 12
    ensures DaysBeforeMonth(y, m1) + (if m1 < m2 then DaysInMonth(y, m1) else 0) <= DaysBeforeMonth(y, m2)
    decreases m2 - m1
  {
    if m1 < m2 - 1 {
      DaysBeforeMonthMono(y, m1, m2 - 1);
    }
  }

  lemma MonthsFillYear(y: int)
    ensures DaysBeforeMonth(y, 12) + DaysInMonth(y, 12) == DaysInYear(y)
  {
    DaysBeforeMonthTable(y, 12);
  }

  /** A date's ordinal lies within its year. */
  lemma OrdinalInYear(d: Date)
    requires Valid(d)
    ensures DaysBeforeYear(d.year) < Ordinal(d) <= DaysBeforeYear(d.year) + DaysInYear(d.year)
  {
    DaysBeforeMonthMono(d.year, d.month, 12);
    MonthsFillYear(d.year);
  }

  /** Strictly earlier as a tuple means a strictly smaller ordinal. */
  lemma EarlierOrdinal(a: Date, b: Date)
    requires Valid(a) && Valid(b) && Le(a, b) && a != b
    ensures Ordinal(a) < Ordinal(b)
  {
    if a.year < b.year {
      OrdinalInYear(a);
      OrdinalInYear(b);
      DaysBeforeYearMono(a.year, b.year);
    } else if a.month < b.month {
      DaysBeforeMonthMono(a.year, a.month, b.month);
    }
  }

  /** Python's tuple comparison of dates is the comparison of their ordinals. */
  lemma LeOrdinal(a: Date, b: Date)
    requires Valid(a) && Valid(b)
    ensures Le(a, b) <==> Ordinal(a) <= Ordinal(b)
    ensures Ordinal(a) == Ordinal(b) <==> a == b
  {
    if a != b {
      if Le(a, b) {
        EarlierOrdinal(a, b);
      } else {
        EarlierOrdinal(b, a);
      }
    }
  }

  lemma OrdinalPositive(d: Date)
    requires Valid(d)
    ensures Ordinal(d) >= 1
  {
    FirstOrdinal();
    LeOrdinal(MinDate, d);
  }

  lemma OrdinalOneIsFirst(d: Date)
    requires Valid(d)
    ensures Ordinal(d) == 1 ==> d == MinDate
  {
    FirstOrdinal();
    LeOrdinal(MinDate, d);
  }

  lemma FirstIsOrdinalOne(d: Date)
    requires Valid(d)
    ensures d == MinDate ==> Ordinal(d) == 1
  {
    FirstOrdinal();
  }

  /** The first day is the only one with ordinal 1, the last the only one with the largest. */
  lemma OrdinalEnds(d: Date)
    requires Valid(d)
    ensures Ordinal(d) >= 1 && (Ordinal(d) == 1 <==> d == MinDate)
    ensures Ordinal(d) <= Ordinal(MaxDate) && (Ordinal(d) == Ordinal(MaxDate) <==> d == MaxDate)
  {
    OrdinalPositive(d);
    OrdinalOneIsFirst(d);
    FirstIsOrdinalOne(d);
    AtMostMax(d);
    LeOrdinal(d, MaxDate);
  }

  // ---------------------------------------------------------------------------
  // Moving by days
  // ---------------------------------------------------------------------------

  /** `+ timedelta(days=1)` is the next ordinal, and fails only on the last date. */
  lemma NextDayOrdinal(d: Date)
    requires Valid(d)
    ensures NextDay(d).None? <==> d == MaxDate
    ensures NextDay(d).Some? ==> Valid(NextDay(d).value) && Ordinal(NextDay(d).value) == Ordinal(d) + 1
    ensures NextDay(d).Some? ==> Weekday(NextDay(d).value) == (Weekday(d) + 1) % 7
  {
    NextDayCases(d);
    if NextDay(d).Some? {
      WeekdayStep(NextDay(d).value, d);
    }
  }

  lemma NextDayCases(d: Date)
    requires Valid(d)
    ensures NextDay(d).None? <==> d == MaxDate
    ensures NextDay(d).Some? ==> Valid(NextDay(d).value) && Ordinal(NextDay(d).value) == Ordinal(d) + 1
  {
    if d.day < DaysInMonth(d.year, d.month) {
      SameMonthStep(d.(day := d.day + 1));
    } else if d.month < 12 {
      MonthStep(d.year, d.month);
    } else if d.year < MaxYear {
      YearStep(d.year + 1);
    }
  }

  /** One day back within a month. */
  lemma SameMonthStep(d: Date)
    requires Valid(d) && d.day > 1
    ensures Valid(d.(day := d.day - 1)) && Ordinal(d.(day := d.day - 1)) == Ordinal(d) - 1
  {
  }

  /** The last day of month `m` comes just before the first of month `m + 1`. */
  lemma MonthStep(y: int, m: int)
    requires 1 <= y <= MaxYear && 1 <= m < 12
    ensures var last := Date(y, m, DaysInMonth(y, m));
      var first := Date(y, m + 1, 1);
      Valid(last) && Valid(first) && Ordinal(first) == Ordinal(last) + 1
  {
  }

  /** The last day of year `y - 1` comes just before the first of year `y`. */
  lemma YearStep(y: int)
    requires 1 < y <= MaxYear
    ensures var last := Date(y - 1, 12, 31);
      var first := Date(y, 1, 1);
      Valid(last) && Valid(first) && Ordinal(first) == Ordinal(last) + 1
  {
    MonthsFillYear(y - 1);
  }

  lemma WeekdayStep(next: Date, d: Date)
    requires Valid(next) && Valid(d) && Ordinal(next) == Ordinal(d) + 1
    ensures Weekday(next) == (Weekday(d) + 1) % 7
  {
    SuccMod7(Ordinal(d));
  }

  lemma SuccMod7(o: int)
    ensures (o + 1 + 6) % 7 == ((o + 6) % 7 + 1) % 7
  {
  }

  /** `- timedelta(days=1)` is the previous ordinal, and fails only on the first date. */
  lemma PrevDayOrdinal(d: Date)
    requires Valid(d)
    ensures PrevDay(d).None? <==> d == MinDate
    ensures PrevDay(d).Some? ==> Valid(PrevDay(d).value) && Ordinal(PrevDay(d).value) == Ordinal(d) - 1
  {
    if d.day > 1 {
      PrevInMonth(d);
    } else if d.month > 1 {
      PrevAcrossMonth(d);
    } else if d.year > 1 {
      PrevAcrossYear(d);
    }
  }

  lemma PrevInMonth(d: Date)
    requires Valid(d) && d.day > 1
    ensures PrevDay(d) == Some(d.(day := d.day - 1))
    ensures Ordinal(d.(day := d.day - 1)) == Ordinal(d) - 1
  {
    SameMonthStep(d);
  }

  lemma PrevAcrossMonth(d: Date)
    requires Valid(d) && d.day == 1 && d.month > 1
    ensures PrevDay(d) == Some(Date(d.year, d.month - 1, DaysInMonth(d.year, d.month - 1)))
    ensures Ordinal(Date(d.year, d.month - 1, DaysInMonth(d.year, d.month - 1))) == Ordinal(d) - 1
  {
    MonthStep(d.year, d.month - 1);
    assert d == Date(d.year, d.month - 1 + 1, 1);
  }

  lemma PrevAcrossYear(d: Date)
    requires Valid(d) && d.day == 1 && d.month == 1 && d.year > 1
    ensures PrevDay(d) == Some(Date(d.year - 1, 12, 31))
    ensures Ordinal(Date(d.year - 1, 12, 31)) == Ordinal(d) - 1
  {
    YearStep(d.year);
    assert d == Date(d.year, 1, 1);
  }

  /** `- timedelta(days=n)` moves the ordinal back by `n`, and fails exactly when that passes day 1. */
  lemma {:induction false} MinusDaysOrdinal(d: Date, n: nat)
    requires Valid(d)
    ensures MinusDays(d, n).Some? <==> n < Ordinal(d)
    ensures MinusDays(d, n).Some? ==> Valid(MinusDays(d, n).value) && Ordinal(MinusDays(d, n).value) == Ordinal(d) - n
    decreases n
  {
    if n > 0 {
      if d == MinDate {
        MinusDaysFromFirst(d, n);
      } else {
        MinusDaysUnfold(d, n);
        MinusDaysOrdinal(PrevDay(d).value, n - 1);
      }
    }
  }

  /** Nothing comes before the first day. */
  lemma FirstDay(n: nat)
    requires n > 0
    ensures MinusDays(MinDate, n) == None
  {
  }

  lemma FirstOrdinal()
    ensures Valid(MinDate) && Ordinal(MinDate) == 1
  {
  }

  lemma MinusDaysFromFirst(d: Date, n: nat)
    requires d == MinDate && n > 0
    ensures Valid(d) && MinusDays(d, n).None? && n >= Ordinal(d)
  {
    FirstDay(n);
    FirstOrdinal();
  }

  lemma MinusDaysUnfold(d: Date, n: nat)
    requires Valid(d) && n > 0 && d != MinDate
    ensures PrevDay(d).Some? && Valid(PrevDay(d).value) && Ordinal(PrevDay(d).value) == Ordinal(d) - 1
    ensures MinusDays(d, n) == MinusDays(PrevDay(d).value, n - 1)
  {
    PrevDayOrdinal(d);
  }

  /** Every valid date is at most the last one. */
  lemma AtMostMax(d: Date)
    requires Valid(d)
    ensures Le(d, MaxDate)
  {
  }

  // ---------------------------------------------------------------------------
  // Labels
  // ---------------------------------------------------------------------------

  /** `%a` in the C locale, indexed by `weekday()`. */
  const DayNames: seq<string> := ["Mon", "Tue", "Wed", "Thu", "Fri", "Sat", "Sun"]

  /** `%b` in the C locale, indexed by month - 1. */
  const MonthNames: seq<string> := ["Jan", "Feb", "Mar", "Apr", "May", "Jun", "Jul", "Aug", "Sep", "Oct", "Nov", "Dec"]

  function DigitChar(n: int): char
    requires 0 <= n < 10
  {
    ('0' as int + n) as char
  }

  /** `f"{n:02d}"` for `0 <= n < 100`. */
  function TwoDigits(n: int): string
    requires 0 <= n < 100
  {
    [DigitChar(n / 10), DigitChar(n % 10)]
  }

  /** `d.strftime('%d %b')`. */
  function DayMonthLabel(d: Date): string
    requires Valid(d)
  {
    TwoDigits(d.day) + " " + MonthNames[d.month - 1]
  }
}
