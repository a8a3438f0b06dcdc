/**
 * The report helpers of the reports API: the `date` query parameter, the
 * date range a timeframe covers, the chart labels of a range with no data,
 * the chart series built from stored records (sorted by timestamp in place),
 * and the integer percentages of the sample data generators.
 *
 * Dates and their arithmetic come from `Calendar`. The local clock is an
 * oracle: `datetime.now().date()` is the parameter `today`, and
 * `datetime.fromtimestamp` is a function from a millisecond timestamp to a
 * local date and time.
 */
module Reports {
  import opened Common
  import opened Calendar

  // ---------------------------------------------------------------------------
  // The `date` parameter: `datetime.strptime(s, '%Y-%m-%d').date()`
  // ---------------------------------------------------------------------------

  predicate IsDigit(c: char)
  {
    '0' <= c <= '9'
  }

  function DigitValue(c: char): int
    requires IsDigit(c)
  {
    c as int - '0' as int
  }

  /** `%Y`: exactly four digits. */
  function YearField(t: string): (r: Option<int>)
    ensures r.Some? ==> 0 <= r.value <= 9999
  {
    if |t| == 4 && IsDigit(t[0]) && IsDigit(t[1]) && IsDigit(t[2]) && IsDigit(t[3]) then
      Some(1000 * DigitValue(t[0]) + 100 * DigitValue(t[1]) + 10 * DigitValue(t[2]) + DigitValue(t[3]))
    else None
  }

  /** `%m`: the pattern `1[0-2]|0[1-9]|[1-9]`. */
  function MonthField(t: string): (r: Option<int>)
    ensures r.Some? ==> 1 <= r.value <= 12
  {
    if |t| == 1 && '1' <= t[0] <= '9' then Some(DigitValue(t[0]))
    else if |t| == 2 && t[0] == '1' && '0' <= t[1] <= '2' then Some(10 + DigitValue(t[1]))
    else if |t| == 2 && t[0] == '0' && '1' <= t[1] <= '9' then Some(DigitValue(t[1]))
    else None
  }

  /** `%d`: the pattern `3[01]|[12]\d|0[1-9]|[1-9]| [1-9]`. */
  function DayField(t: string): (r: Option<int>)
    ensures r.Some? ==> 1 <= r.value <= 31
  {
    if |t| == 1 && '1' <= t[0] <= '9' then Some(DigitValue(t[0]))
    else if |t| == 2 && t[0] == '3' && '0' <= t[1] <= '1' then Some(30 + DigitValue(t[1]))
    else if |t| == 2 && '1' <= t[0] <= '2' && IsDigit(t[1]) then Some(10 * DigitValue(t[0]) + DigitValue(t[1]))
    else if |t| == 2 && (t[0] == '0' || t[0] == ' ') && '1' <= t[1] <= '9' then Some(DigitValue(t[1]))
    else None
  }

  /**
   * The whole string must match `%Y-%m-%d` (no unconverted data may remain)
   * and name a date that exists; otherwise `strptime` raises `ValueError`.
   * No month form contains `-`, so the second `-` sits at index 6 or 7.
   */
  function ParseIso(s: string): (r: Option<Date>)
    ensures r.Some? ==> Valid(r.value)
  {
    if |s| < 8 || s[4] != '-' then None
    else
      var j := if s[6] == '-' then 6 else 7;
      if s[j] != '-' then None
      else
        match (YearField(s[..4]), MonthField(s[5..j]), DayField(s[j + 1..]))
        case (Some(y), Some(m), Some(d)) => if Valid(Date(y, m, d)) then Some(Date(y, m, d)) else None
        case _ => None
  }

  /** `parse_date_param`: today for a missing, empty or unparsable string. */
  function ParseDateParam(s: Option<string>, today: Date): (d: Date)
    requires Valid(today)
    ensures Valid(d)
    ensures s.None? || s == Some("") ==> d == today
  {
    match s
    case None => today
    case Some(t) =>
      if t == "" then today
      else match ParseIso(t)
        case Some(d) => d
        case None => today
  }

  /** `f"{n:04d}"` for `0 <= n < 10000`. */
  function FourDigits(n: int): string
    requires 0 <= n < 10000
  {
    TwoDigits(n / 100) + TwoDigits(n % 100)
  }

  /** `d.isoformat()`, the form the web client sends. */
  function IsoFormat(d: Date): string
    requires Valid(d)
  {
    FourDigits(d.year) + "-" + TwoDigits(d.month) + "-" + TwoDigits(d.day)
  }

  lemma YearFieldFour(n: int)
    requires 0 <= n < 10000
    ensures YearField(FourDigits(n)) == Some(n)
  {
    var h, l := n / 100, n % 100;
    TwoDigitsValue(h);
    TwoDigitsValue(l);
    assert n == 100 * h + l;
  }

  lemma TwoDigitsValue(n: int)
    requires 0 <= n < 100
    ensures |TwoDigits(n)| == 2 && IsDigit(TwoDigits(n)[0]) && IsDigit(TwoDigits(n)[1])
    ensures 10 * DigitValue(TwoDigits(n)[0]) + DigitValue(TwoDigits(n)[1]) == n
  {
  }

  lemma MonthFieldTwo(m: int)
    requires 1 <= m <= 12
    ensures MonthField(TwoDigits(m)) == Some(m)
  {
  }

  lemma DayFieldTwo(d: int)
    requires 1 <= d <= 31
    ensures DayField(TwoDigits(d)) == Some(d)
  {
  }

  /** Every date the client formats comes back unchanged, whatever today is. */
  lemma ParseIsoFormat(d: Date, today: Date)
    requires Valid(d) && Valid(today)
    ensures ParseIso(IsoFormat(d)) == Some(d)
    ensures ParseDateParam(Some(IsoFormat(d)), today) == d
  {
    var s := IsoFormat(d);
    assert s[..4] == FourDigits(d.year);
    assert s[5..7] == TwoDigits(d.month);
    assert s[8..] == TwoDigits(d.day);
    YearFieldFour(d.year);
    MonthFieldTwo(d.month);
    DayFieldTwo(d.day);
  }

  /** Single-digit and space-padded fields are accepted, as `strptime` accepts them. */
  lemma ParseIsoShortForms()
    ensures ParseIso("2024-2-29") == Some(Date(2024, 2, 29))
    ensures ParseIso("2024-02- 9") == Some(Date(2024, 2, 9))
    ensures ParseIso("2023-02-29").None?
    ensures ParseIso("2024-13-01").None?
  {
  }

  // ---------------------------------------------------------------------------
  // Date ranges: `get_date_range`
  // ---------------------------------------------------------------------------

  /** The `timeframe` query parameter; any other value is `Other`. */
  datatype Timeframe = Daily | Weekly | Monthly | Other

  lemma ShiftMod7(q: int, y: int)
    ensures (7 * q + y) % 7 == y % 7
  {
  }

  /** Adding to a residue modulo 7 is adding before taking it. */
  lemma ModAdd7(x: int, n: int)
    ensures (x % 7 + n) % 7 == (x + n) % 7
  {
    ShiftMod7(x / 7, x % 7 + n);
    assert x + n == 7 * (x / 7) + (x % 7 + n);
  }

  /** A date `n` days later has the weekday `n` steps further round the week. */
  lemma WeekdayAfter(s: Date, c: Date, n: int)
    requires Valid(s) && Valid(c) && Ordinal(c) == Ordinal(s) + n
    ensures Weekday(c) == (Weekday(s) + n) % 7
  {
    ModAdd7(Ordinal(s) + 6, n);
  }

  lemma WeekdayBelowOrdinal(d: Date)
    requires Valid(d)
    ensures Weekday(d) < Ordinal(d)
  {
    OrdinalEnds(d);
    ResidueBelow(Ordinal(d));
  }

  lemma ResidueBelow(o: int)
    requires o >= 1
    ensures (o + 6) % 7 < o
  {
  }

  /** `reference_date - timedelta(days=reference_date.weekday())`, which never overflows. */
  function WeekStart(d: Date): (s: Date)
    requires Valid(d)
    ensures Valid(s) && Ordinal(d) - Ordinal(s) == Weekday(d)
  {
    WeekdayBelowOrdinal(d);
    MinusDaysOrdinal(d, Weekday(d));
    MinusDays(d, Weekday(d)).value
  }

  /** `get_date_range`: the range ends on the reference date and starts on or before it. */
  function DateRange(tf: Timeframe, ref: Date): (r: (Date, Date))
    requires Valid(ref)
    ensures Valid(r.0) && r.1 == ref && Le(r.0, r.1)
  {
    match tf
    case Weekly =>
      LeOrdinal(WeekStart(ref), ref);
      (WeekStart(ref), ref)
    case Monthly => (ref.(day := 1), ref)
    case _ => (ref, ref)
  }

  /** Of two ordinals with the same weekday, the earlier is at least a week earlier. */
  lemma ResidueOrder(a: int, b: int, c: int)
    requires (a + 6) % 7 == (b + 6) % 7 && a <= c && 0 <= c - b <= 6
    ensures a <= b
  {
    assert a - b == 7 * ((a + 6) / 7 - (b + 6) / 7);
  }

  /**
   * The weekly range starts on the Monday of the reference date's week: a
   * Monday at most six days back, and no Monday after it is on or before the
   * reference date.
   */
  lemma WeekStartIsMonday(d: Date)
    requires Valid(d)
    ensures Weekday(WeekStart(d)) == 0
    ensures Le(WeekStart(d), d) && Ordinal(d) - Ordinal(WeekStart(d)) <= 6
    ensures forall m :: Valid(m) && Weekday(m) == 0 && Le(m, d) ==> Le(m, WeekStart(d))
  {
    var s := WeekStart(d);
    WeekStartWeekday(d);
    LeOrdinal(s, d);
    forall m | Valid(m) && Weekday(m) == 0 && Le(m, d)
      ensures Le(m, s)
    {
      LatestMonday(m, s, d);
    }
  }

  lemma WeekStartWeekday(d: Date)
    requires Valid(d)
    ensures Weekday(WeekStart(d)) == 0
  {
    WeekdayAfter(WeekStart(d), d, Weekday(d));
  }

  lemma LatestMonday(m: Date, s: Date, d: Date)
    requires Valid(m) && Valid(s) && Valid(d)
    requires Weekday(m) == 0 && Weekday(s) == 0 && Le(m, d)
    requires 0 <= Ordinal(d) - Ordinal(s) <= 6
    ensures Le(m, s)
  {
    LeOrdinal(m, d);
    LeOrdinal(m, s);
    ResidueOrder(Ordinal(m), Ordinal(s), Ordinal(d));
  }

  /** The monthly range starts on the first of the reference month; the others on the reference date. */
  lemma DateRangeStarts(tf: Timeframe, ref: Date)
    requires Valid(ref)
    ensures tf == Monthly ==> DateRange(tf, ref).0 == Date(ref.year, ref.month, 1)
    ensures tf == Daily || tf == Other ==> DateRange(tf, ref).0 == ref
    ensures tf == Weekly ==> DateRange(tf, ref).0 == WeekStart(ref) && Weekday(DateRange(tf, ref).0) == 0
  {
    if tf == Weekly {
      WeekStartIsMonday(ref);
    }
  }

  // ---------------------------------------------------------------------------
  // Labels of a range with no data: `generate_time_labels`
  // ---------------------------------------------------------------------------

  /** The working hours 9 to 17. */
  const HourLabels: seq<string> := ["09:00", "10:00", "11:00", "12:00", "13:00", "14:00", "15:00", "16:00", "17:00"]

  /** `f"{hour:02d}:00"` names the hour's entry. */
  lemma HourLabelAt(hour: int)
    requires 9 <= hour < 18
    ensures TwoDigits(hour) + ":00" == HourLabels[hour - 9]
  {
  }

  /**
   * Seven day names running round the week. The walk from `start` names the
   * days up to `end`, and the rest continue after the last one named; with
   * no day in the range they continue after `start`'s weekday. Stepping past
   * 9999-12-31 inside the walk raises `OverflowError` (`None`).
   */
  function WeekLabels(start: Date, end: Date): Option<seq<string>>
    requires Valid(start) && Valid(end)
  {
    if Le(start, end) && end == MaxDate && Ordinal(end) - Ordinal(start) <= 6 then None
    else Some(WeekNames(Weekday(start) + WeekShift(start, end)))
  }

  /** Seven day names round the week, from the one with index `first` modulo 7. */
  function WeekNames(first: int): seq<string>
    requires first >= 0
  {
    seq(7, k requires 0 <= k < 7 => DayNames[(first + k) % 7])
  }

  /** The first weekly label is `start`'s weekday, or the next one when the range is empty. */
  function WeekShift(start: Date, end: Date): int
  {
    if Le(start, end) then 0 else 1
  }

  /** The dates from `cur` to `end` inclusive, one day apart. */
  function DateSpan(cur: Date, end: Date): (r: seq<Date>)
    requires Valid(cur) && Valid(end)
    ensures forall k :: 0 <= k < |r| ==> Valid(r[k])
    decreases Ordinal(end) - Ordinal(cur)
  {
    if !Le(cur, end) then []
    else match NextDay(cur)
      case None => [cur]
      case Some(n) =>
        LeOrdinal(cur, end);
        NextDayOrdinal(cur);
        [cur] + DateSpan(n, end)
  }

  /** `strftime('%d %b')` of each date. */
  function Labels(ds: seq<Date>): (r: seq<string>)
    requires forall k :: 0 <= k < |ds| ==> Valid(ds[k])
  {
    if ds == [] then [] else [DayMonthLabel(ds[0])] + Labels(ds[1..])
  }

  /** One label per day of the range; stepping past 9999-12-31 raises `OverflowError`. */
  function MonthLabels(start: Date, end: Date): Option<seq<string>>
    requires Valid(start) && Valid(end)
  {
    if Le(start, end) && end == MaxDate then None else Some(Labels(DateSpan(start, end)))
  }

  /** `generate_time_labels`: any timeframe but `daily` and `weekly` takes the monthly branch. */
  function TimeLabels(tf: Timeframe, start: Date, end: Date): Option<seq<string>>
    requires Valid(start) && Valid(end)
  {
    match tf
    case Daily => Some(HourLabels)
    case Weekly => WeekLabels(start, end)
    case _ => MonthLabels(start, end)
  }

  /** `days.index(name)`. */
  function DayIndex(name: string): (i: int)
    requires name in DayNames
    ensures 0 <= i < 7 && DayNames[i] == name
  {
    if name == "Mon" then 0 else if name == "Tue" then 1 else if name == "Wed" then 2
    else if name == "Thu" then 3 else if name == "Fri" then 4 else if name == "Sat" then 5 else 6
  }

  lemma DayIndexOf(w: int)
    requires 0 <= w < 7
    ensures DayIndex(DayNames[w]) == w
  {
  }

  /** The day name after `name`, round the week. */
  function NextDayName(name: string): string
    requires name in DayNames
  {
    DayNames[(DayIndex(name) + 1) % 7]
  }

  /** A span holds one date per day: it starts on `cur`, ends on `end`, and steps by one day. */
  lemma {:induction false} DateSpanDays(cur: Date, end: Date)
    requires Valid(cur) && Valid(end)
    ensures |DateSpan(cur, end)| == if Le(cur, end) then Ordinal(end) - Ordinal(cur) + 1 else 0
    ensures forall k :: 0 <= k < |DateSpan(cur, end)| ==> Ordinal(DateSpan(cur, end)[k]) == Ordinal(cur) + k
    decreases Ordinal(end) - Ordinal(cur)
  {
    LeOrdinal(cur, end);
    if Le(cur, end) {
      NextDayOrdinal(cur);
      match NextDay(cur)
      case None =>
        OrdinalEnds(end);
      case Some(n) =>
        DateSpanDays(n, end);
        DateSpanStep(cur, end, n);
    }
  }

  lemma DateSpanStep(cur: Date, end: Date, n: Date)
    requires Valid(cur) && Valid(end) && Le(cur, end) && NextDay(cur) == Some(n)
    requires Valid(n) && Ordinal(n) == Ordinal(cur) + 1
    requires |DateSpan(n, end)| == if Le(n, end) then Ordinal(end) - Ordinal(n) + 1 else 0
    requires forall k :: 0 <= k < |DateSpan(n, end)| ==> Ordinal(DateSpan(n, end)[k]) == Ordinal(n) + k
    ensures |DateSpan(cur, end)| == Ordinal(end) - Ordinal(cur) + 1
    ensures forall k :: 0 <= k < |DateSpan(cur, end)| ==> Ordinal(DateSpan(cur, end)[k]) == Ordinal(cur) + k
  {
    LeOrdinal(cur, end);
    LeOrdinal(n, end);
    var s := DateSpan(cur, end);
    assert s == [cur] + DateSpan(n, end);
    forall k | 0 <= k < |s|
      ensures Ordinal(s[k]) == Ordinal(cur) + k
    {
      if k > 0 {
        assert s[k] == DateSpan(n, end)[k - 1];
      }
    }
  }

  lemma {:induction false} LabelsAt(ds: seq<Date>, k: int)
    requires forall i :: 0 <= i < |ds| ==> Valid(ds[i])
    requires 0 <= k < |ds|
    ensures |Labels(ds)| == |ds| && Labels(ds)[k] == DayMonthLabel(ds[k])
    decreases k
  {
    LabelsLength(ds);
    if k > 0 {
      LabelsAt(ds[1..], k - 1);
    }
  }

  lemma {:induction false} LabelsLength(ds: seq<Date>)
    requires forall i :: 0 <= i < |ds| ==> Valid(ds[i])
    ensures |Labels(ds)| == |ds|
  {
    if ds != [] {
      LabelsLength(ds[1..]);
    }
  }

  /**
   * The monthly labels name each day from `start` to `end` once, the first
   * being `start`'s and the last `end`'s, and there are none when `start`
   * is after `end`.
   */
  lemma MonthLabelsPerDay(start: Date, end: Date)
    requires Valid(start) && Valid(end)
    ensures MonthLabels(start, end).Some? ==>
      var ls := MonthLabels(start, end).value;
      |ls| == (if Le(start, end) then Ordinal(end) - Ordinal(start) + 1 else 0) &&
      (Le(start, end) ==> ls[0] == DayMonthLabel(start) && ls[|ls| - 1] == DayMonthLabel(end))
  {
    var ds := DateSpan(start, end);
    DateSpanDays(start, end);
    LabelsLength(ds);
    if Le(start, end) && MonthLabels(start, end).Some? {
      LabelsAt(ds, 0);
      LabelsAt(ds, |ds| - 1);
      LeOrdinal(ds[0], start);
      LeOrdinal(ds[|ds| - 1], end);
    }
  }

  /**
   * The weekly labels are seven names, each the day after the one before,
   * and those for the days inside the range are the names of those days.
   */
  lemma WeekLabelsFollowDates(start: Date, end: Date)
    requires Valid(start) && Valid(end)
    ensures WeekLabels(start, end).Some? ==>
      var ls := WeekLabels(start, end).value;
      |ls| == 7 &&
      (forall k :: 0 <= k < 6 ==> ls[k] in DayNames && ls[k + 1] == NextDayName(ls[k])) &&
      (forall k :: 0 <= k < 7 && k < |DateSpan(start, end)| ==> ls[k] == DayNames[Weekday(DateSpan(start, end)[k])])
  {
    if WeekLabels(start, end).Some? {
      WeekLabelsCycle(start, end);
      WeekLabelsNameDays(start, end);
    }
  }

  lemma WeekLabelsCycle(start: Date, end: Date)
    requires Valid(start) && Valid(end) && WeekLabels(start, end).Some?
    ensures var ls := WeekLabels(start, end).value;
      |ls| == 7 && forall k :: 0 <= k < 6 ==> ls[k] in DayNames && ls[k + 1] == NextDayName(ls[k])
  {
    WeekNamesCycle(Weekday(start) + WeekShift(start, end));
  }

  lemma WeekNamesCycle(first: int)
    requires first >= 0
    ensures var ls := WeekNames(first);
      |ls| == 7 && forall k :: 0 <= k < 6 ==> ls[k] in DayNames && ls[k + 1] == NextDayName(ls[k])
  {
    var ls := WeekNames(first);
    forall k | 0 <= k < 6
      ensures ls[k] in DayNames && ls[k + 1] == NextDayName(ls[k])
    {
      CycleStep(first, k);
    }
  }

  lemma CycleStep(first: int, k: int)
    requires 0 <= first && 0 <= k < 6
    ensures WeekNames(first)[k] in DayNames
    ensures WeekNames(first)[k + 1] == NextDayName(WeekNames(first)[k])
  {
    var w := (first + k) % 7;
    assert WeekNames(first)[k] == DayNames[w];
    DayIndexOf(w);
    ModAdd7(first + k, 1);
    assert WeekNames(first)[k + 1] == DayNames[(w + 1) % 7];
  }

  lemma WeekLabelsNameDays(start: Date, end: Date)
    requires Valid(start) && Valid(end) && WeekLabels(start, end).Some?
    ensures var ls := WeekLabels(start, end).value;
      forall k :: 0 <= k < 7 && k < |DateSpan(start, end)| ==> ls[k] == DayNames[Weekday(DateSpan(start, end)[k])]
  {
    var ds := DateSpan(start, end);
    DateSpanDays(start, end);
    if |ds| > 0 {
      assert Le(start, end);
      forall k | 0 <= k < 7 && k < |ds|
        ensures WeekLabels(start, end).value[k] == DayNames[Weekday(ds[k])]
      {
        NameOfDay(start, end, ds[k], k);
      }
    }
  }

  lemma NameOfDay(start: Date, end: Date, d: Date, k: int)
    requires Valid(start) && Valid(end) && Valid(d) && WeekLabels(start, end).Some? && Le(start, end)
    requires 0 <= k < 7 && Ordinal(d) == Ordinal(start) + k
    ensures WeekLabels(start, end).value[k] == DayNames[Weekday(d)]
  {
    var w := Weekday(start);
    WeekdayAfter(start, d, k);
    assert WeekShift(start, end) == 0;
    assert WeekLabels(start, end).value == WeekNames(w);
    assert WeekNames(w)[k] == DayNames[(w + k) % 7];
  }

  /** `for hour in range(9, 18)`. */
  method DailyLabels() returns (labels: seq<string>)
    ensures labels == HourLabels
  {
    labels := [];
    var hour := 9;
    while hour < 18
      invariant 9 <= hour <= 18
      invariant labels == HourLabels[..hour - 9]
    {
      assert HourLabels[..hour - 8] == HourLabels[..hour - 9] + [HourLabels[hour - 9]];
      HourLabelAt(hour);
      labels := labels + [TwoDigits(hour) + ":00"];
      hour := hour + 1;
    }
  }

  /** The weekly branch: walk the range for at most seven days, then fill round the week. */
  method WeeklyLabels(start: Date, end: Date) returns (r: Option<seq<string>>)
    requires Valid(start) && Valid(end)
    ensures r == WeekLabels(start, end)
  {
    var walked := WeekWalk(start, end);
    match walked
    case None =>
      r := None;
    case Some(labels) =>
      var filled := FillWeek(Weekday(start), labels);
      r := Some(filled);
  }

  /** Names of consecutive days, the first with index `first`. */
  ghost predicate Walked(first: int, labels: seq<string>)
  {
    first >= 0 && |labels| <= 7 && forall k :: 0 <= k < |labels| ==> labels[k] == DayNames[(first + k) % 7]
  }

  /** The walk's state: `current` is `|labels|` days after `start`, all of them on or before `end`. */
  ghost predicate WalkInv(start: Date, end: Date, current: Date, labels: seq<string>)
    requires Valid(start) && Valid(end)
  {
    Valid(current) && Ordinal(current) == Ordinal(start) + |labels| &&
    (|labels| == 0 ==> current == start) && (|labels| > 0 ==> Le(start, end)) &&
    Walked(Weekday(start), labels)
  }

  /** `while current <= end and len(labels) < 7`, which fails only by stepping past the last date. */
  method WeekWalk(start: Date, end: Date) returns (r: Option<seq<string>>)
    requires Valid(start) && Valid(end)
    ensures r.None? <==> WeekLabels(start, end).None?
    ensures r.Some? ==> Walked(Weekday(start), r.value) && (|r.value| == 0 <==> !Le(start, end))
  {
    var labels: seq<string> := [];
    var current := start;
    while Le(current, end) && |labels| < 7
      invariant WalkInv(start, end, current, labels)
      decreases 7 - |labels|
    {
      WalkName(start, end, current, labels);
      labels := labels + [DayNames[Weekday(current)]];
      NextDayOrdinal(current);
      match NextDay(current)
      case None =>
        WeekOverflow(start, current, end, |labels| - 1);
        return None;
      case Some(n) =>
        current := n;
    }
    WeekWalkEnds(start, current, end, |labels|);
    r := Some(labels);
  }

  lemma WalkName(start: Date, end: Date, current: Date, labels: seq<string>)
    requires Valid(start) && Valid(end) && WalkInv(start, end, current, labels)
    requires Le(current, end) && |labels| < 7
    ensures Le(start, end)
    ensures Walked(Weekday(start), labels + [DayNames[Weekday(current)]])
  {
    LeOrdinal(current, end);
    LeOrdinal(start, end);
    WeekdayAfter(start, current, |labels|);
  }

  /**
   * `current_day_index = (current_day_index + 1) % 7` until there are seven
   * names, starting after the last name walked, or after `weekday` (the
   * start's) when none was.
   */
  method FillWeek(weekday: int, walked: seq<string>) returns (labels: seq<string>)
    requires 0 <= weekday < 7 && Walked(weekday, walked)
    ensures labels == WeekNames(weekday + if |walked| == 0 then 1 else 0)
  {
    labels := walked;
    var first := weekday + if |walked| == 0 then 1 else 0;
    if |labels| < 7 {
      var index := if |labels| > 0 then DayIndex(labels[|labels| - 1]) else weekday;
      if |labels| > 0 {
        DayIndexOf((first + |labels| - 1) % 7);
      }
      while |labels| < 7
        invariant Walked(first, labels)
        invariant index == (first + |labels| - 1) % 7
        decreases 7 - |labels|
      {
        FillStep(first, labels, index);
        index := (index + 1) % 7;
        labels := labels + [DayNames[index]];
      }
    }
    WeekNamesAre(first, labels);
  }

  lemma FillStep(first: int, labels: seq<string>, index: int)
    requires Walked(first, labels) && |labels| < 7 && index == (first + |labels| - 1) % 7
    ensures (index + 1) % 7 == (first + |labels|) % 7
    ensures Walked(first, labels + [DayNames[(index + 1) % 7]])
  {
    ModAdd7(first + |labels| - 1, 1);
  }

  lemma WeekNamesAre(first: int, labels: seq<string>)
    requires Walked(first, labels) && |labels| == 7
    ensures WeekNames(first) == labels
  {
  }

  /** The walk steps past the last date only when the range ends there within its first week. */
  lemma WeekOverflow(start: Date, current: Date, end: Date, n: int)
    requires Valid(start) && Valid(current) && Valid(end)
    requires current == MaxDate && Le(current, end)
    requires Ordinal(current) == Ordinal(start) + n && 0 <= n < 7
    ensures WeekLabels(start, end).None?
  {
    OrdinalEnds(end);
    LeOrdinal(current, end);
    LeOrdinal(start, end);
  }

  /** When the walk stops normally, the range does not end on the last date within its first week. */
  lemma WeekWalkEnds(start: Date, current: Date, end: Date, n: int)
    requires Valid(start) && Valid(current) && Valid(end)
    requires Ordinal(current) == Ordinal(start) + n && 0 <= n <= 7
    requires !(Le(current, end) && n < 7)
    requires n == 0 ==> current == start
    ensures WeekLabels(start, end).Some?
  {
    OrdinalEnds(end);
    OrdinalEnds(current);
    LeOrdinal(current, end);
    LeOrdinal(start, end);
  }

  /** The monthly branch: one label per day of the walk from `start` to `end`. */
  method MonthlyLabels(start: Date, end: Date) returns (r: Option<seq<string>>)
    requires Valid(start) && Valid(end)
    ensures r == MonthLabels(start, end)
  {
    var labels: seq<string> := [];
    var current := start;
    while Le(current, end)
      invariant Valid(current)
      invariant Le(current, end) ==> Le(start, end)
      invariant labels + Labels(DateSpan(current, end)) == Labels(DateSpan(start, end))
      decreases Ordinal(end) - Ordinal(current)
    {
      LeOrdinal(current, end);
      LeOrdinal(start, end);
      NextDayOrdinal(current);
      match NextDay(current)
      case None =>
        OrdinalEnds(end);
        LeOrdinal(current, end);
        return None;
      case Some(n) =>
        MonthWalkStep(labels, current, end, n);
        labels := labels + [DayMonthLabel(current)];
        current := n;
    }
    AtMostMax(current);
    assert labels + Labels(DateSpan(current, end)) == labels;
    r := Some(labels);
  }

  lemma MonthWalkStep(labels: seq<string>, cur: Date, end: Date, n: Date)
    requires Valid(cur) && Valid(end) && Le(cur, end) && NextDay(cur) == Some(n)
    ensures Valid(n)
    ensures labels + Labels(DateSpan(cur, end)) == (labels + [DayMonthLabel(cur)]) + Labels(DateSpan(n, end))
  {
    NextDayOrdinal(cur);
    var rest := DateSpan(n, end);
    assert DateSpan(cur, end) == [cur] + rest;
    assert ([cur] + rest)[1..] == rest;
  }

  /** `generate_time_labels`. */
  method GenerateTimeLabels(tf: Timeframe, start: Date, end: Date) returns (r: Option<seq<string>>)
    requires Valid(start) && Valid(end)
    ensures r == TimeLabels(tf, start, end)
  {
    match tf
    case Daily =>
      var labels := DailyLabels();
      r := Some(labels);
    case Weekly =>
      r := WeeklyLabels(start, end);
    case _ =>
      r := MonthlyLabels(start, end);
  }

  // ---------------------------------------------------------------------------
  // Charts from stored records: `process_*_data`
  // ---------------------------------------------------------------------------

  datatype Report = PostureReport | StressReport | CvsReport | HydrationReport

  /** The series each chart carries, in order, after `labels`. */
  function Fields(kind: Report): (fs: seq<string>)
    ensures |fs| >= 2
  {
    match kind
    case PostureReport => ["good_posture_percentage", "bad_posture_percentage"]
    case StressReport => ["low_stress_percentage", "medium_stress_percentage", "high_stress_percentage"]
    case CvsReport => ["normal_blink_percentage", "low_blink_percentage", "high_blink_percentage", "avg_blink_count"]
    case HydrationReport => ["normal_lips_percentage", "dry_lips_percentage", "avg_dryness_score"]
  }

  /** A stored record: its `timestamp` (ms) if it has one, and its numeric fields. */
  datatype Record = Record(timestamp: Option<int>, values: map<string, real>)

  /** `entry.get('timestamp', 0)`, the sort key. */
  function Stamp(r: Record): int
  {
    match r.timestamp
    case Some(t) => t
    case None => 0
  }

  /** `entry.get(key, 0)`. */
  function Get(r: Record, key: string): real
  {
    if key in r.values then r.values[key] else 0.0
  }

  datatype Clock = Clock(date: Date, hour: int, minute: int)

  /** What `datetime.fromtimestamp` gives in the server's local zone. */
  type LocalTime = c: Clock | Valid(c.date) && 0 <= c.hour < 24 && 0 <= c.minute < 60
    witness Clock(Date(2000, 1, 1), 0, 0)

  /** `'%H:%M'` daily, `'%a'` weekly, `'%d %b'` for any other timeframe. */
  function EntryLabel(tf: Timeframe, t: LocalTime): string
  {
    match tf
    case Daily => TwoDigits(t.hour) + ":" + TwoDigits(t.minute)
    case Weekly => DayNames[Weekday(t.date)]
    case _ => DayMonthLabel(t.date)
  }

  /** Hydration percentages scaled to add up to 100 when they are positive and do not already. */
  function Rescale(normal: real, dry: real): (real, real)
  {
    var total := normal + dry;
    if total > 0.0 && total != 100.0 then (normal * (100.0 / total), dry * (100.0 / total))
    else (normal, dry)
  }

  /** The value the chart shows for series `f` of a record. */
  function Cell(kind: Report, r: Record, f: int): real
    requires 0 <= f < |Fields(kind)|
  {
    if kind == HydrationReport && f < 2 then
      var p := Rescale(Get(r, "normal_lips_percentage"), Get(r, "dry_lips_percentage"));
      if f == 0 then p.0 else p.1
    else Get(r, Fields(kind)[f])
  }

  /** The chart's labels and its series, `series[f]` holding the values of `Fields(kind)[f]`. */
  datatype Chart = Chart(labels: seq<string>, series: seq<seq<real>>)

  function Zeros(n: nat): seq<real>
  {
    seq(n, _ => 0.0)
  }

  /** The chart of records in the order given: one label and one value per series for each. */
  function ChartOf(kind: Report, tf: Timeframe, rs: seq<Record>, local: int -> LocalTime): (c: Chart)
  {
    Chart(seq(|rs|, k requires 0 <= k < |rs| => EntryLabel(tf, local(Stamp(rs[k])))),
          seq(|Fields(kind)|, f requires 0 <= f < |Fields(kind)| => seq(|rs|, k requires 0 <= k < |rs| => Cell(kind, rs[k], f))))
  }

  /**
   * The chart of no records. Stress and hydration charts, given a range,
   * carry the range's time labels and a zero per label in every series;
   * the others are empty.
   */
  function EmptyChart(kind: Report, tf: Timeframe, range: Option<(Date, Date)>): Option<Chart>
    requires range.Some? ==> Valid(range.value.0) && Valid(range.value.1)
  {
    if (kind == StressReport || kind == HydrationReport) && range.Some? then
      match TimeLabels(tf, range.value.0, range.value.1)
      case None => None
      case Some(ls) => Some(Chart(ls, seq(|Fields(kind)|, _ => Zeros(|ls|))))
    else Some(Chart([], seq(|Fields(kind)|, _ => [])))
  }

  ghost predicate SortedByStamp(s: seq<Record>)
  {
    forall i, j :: 0 <= i < j < |s| ==> Stamp(s[i]) <= Stamp(s[j])
  }

  /** The stretch `s[..hi + 1]` is in order except that `s[j]` may be smaller than the entries before it. */
  ghost predicate SortedExcept(s: seq<Record>, hi: int, j: int)
    requires hi < |s|
  {
    forall k, l :: 0 <= k < l <= hi && l != j ==> Stamp(s[k]) <= Stamp(s[l])
  }

  /** `data.sort(key=lambda x: x.get('timestamp', 0))`, as an insertion sort. */
  method SortByStamp(a: array<Record>)
    modifies a
    ensures SortedByStamp(a[..])
    ensures multiset(a[..]) == multiset(old(a[..]))
  {
    var i := 0;
    while i < a.Length
      invariant 0 <= i <= a.Length
      invariant SortedByStamp(a[..i])
      invariant multiset(a[..]) == multiset(old(a[..]))
    {
      InsertAt(a, i);
      i := i + 1;
    }
  }

  /** Swaps `a[i]` down past every larger entry before it. */
  method InsertAt(a: array<Record>, i: int)
    requires 0 <= i < a.Length && SortedByStamp(a[..i])
    modifies a
    ensures SortedByStamp(a[..i + 1])
    ensures multiset(a[..]) == multiset(old(a[..]))
  {
    var j := i;
    while j > 0 && Stamp(a[j - 1]) > Stamp(a[j])
      invariant 0 <= j <= i
      invariant SortedExcept(a[..], i, j)
      invariant multiset(a[..]) == multiset(old(a[..]))
    {
      SwapDown(a[..], i, j);
      a[j - 1], a[j] := a[j], a[j - 1];
      j := j - 1;
    }
    InsertDone(a[..], i, j);
  }

  lemma SwapDown(s: seq<Record>, hi: int, j: int)
    requires 0 < j <= hi < |s| && SortedExcept(s, hi, j) && Stamp(s[j - 1]) > Stamp(s[j])
    ensures SortedExcept(s[j - 1 := s[j]][j := s[j - 1]], hi, j - 1)
    ensures multiset(s[j - 1 := s[j]][j := s[j - 1]]) == multiset(s)
  {
  }

  lemma InsertDone(s: seq<Record>, hi: int, j: int)
    requires 0 <= j <= hi < |s| && SortedExcept(s, hi, j)
    requires j == 0 || Stamp(s[j - 1]) <= Stamp(s[j])
    ensures SortedByStamp(s[..hi + 1])
  {
  }

  lemma ChartStep(kind: Report, tf: Timeframe, rs: seq<Record>, x: Record, local: int -> LocalTime)
    ensures var c := ChartOf(kind, tf, rs, local);
      ChartOf(kind, tf, rs + [x], local) ==
        Chart(c.labels + [EntryLabel(tf, local(Stamp(x)))],
              seq(|Fields(kind)|, f requires 0 <= f < |Fields(kind)| => c.series[f] + [Cell(kind, x, f)]))
  {
    var c, d := ChartOf(kind, tf, rs, local), ChartOf(kind, tf, rs + [x], local);
    assert d.labels == c.labels + [EntryLabel(tf, local(Stamp(x)))];
    forall f | 0 <= f < |Fields(kind)|
      ensures d.series[f] == c.series[f] + [Cell(kind, x, f)]
    {
      assert |d.series[f]| == |rs| + 1;
      forall k | 0 <= k <= |rs|
        ensures d.series[f][k] == (c.series[f] + [Cell(kind, x, f)])[k]
      {
        if k < |rs| {
          assert (rs + [x])[k] == rs[k];
        }
      }
    }
  }

  lemma ChartOfNone(kind: Report, tf: Timeframe, rs: seq<Record>, local: int -> LocalTime)
    requires rs == []
    ensures ChartOf(kind, tf, rs, local) == Chart([], seq(|Fields(kind)|, _ => []))
  {
    var c := ChartOf(kind, tf, rs, local);
    forall f | 0 <= f < |Fields(kind)|
      ensures c.series[f] == []
    {
    }
  }

  /**
   * `process_*_data`: with no records, the empty chart; otherwise the
   * records are sorted by timestamp in place and charted in that order.
   * `None` is the `OverflowError` of the range's time labels.
   */
  method ProcessReport(kind: Report, data: array<Record>, tf: Timeframe, range: Option<(Date, Date)>,
                       local: int -> LocalTime) returns (r: Option<Chart>)
    requires range.Some? ==> Valid(range.value.0) && Valid(range.value.1)
    modifies data
    ensures SortedByStamp(data[..]) && multiset(data[..]) == multiset(old(data[..]))
    ensures data.Length == 0 ==> r == EmptyChart(kind, tf, range)
    ensures data.Length > 0 ==> r == Some(ChartOf(kind, tf, data[..], local))
  {
    if data.Length == 0 {
      r := EmptyReport(kind, tf, range);
      return;
    }
    SortByStamp(data);
    var chart := ChartRecords(kind, tf, data[..], local);
    r := Some(chart);
  }

  /** The early return for no records. */
  method EmptyReport(kind: Report, tf: Timeframe, range: Option<(Date, Date)>) returns (r: Option<Chart>)
    requires range.Some? ==> Valid(range.value.0) && Valid(range.value.1)
    ensures r == EmptyChart(kind, tf, range)
  {
    if (kind == StressReport || kind == HydrationReport) && range.Some? {
      var labels := GenerateTimeLabels(tf, range.value.0, range.value.1);
      match labels
      case None =>
        r := None;
      case Some(ls) =>
        r := Some(Chart(ls, seq(|Fields(kind)|, _ => Zeros(|ls|))));
    } else {
      r := Some(Chart([], seq(|Fields(kind)|, _ => [])));
    }
  }

  /** `for entry in data`: append each record's label and values. */
  method ChartRecords(kind: Report, tf: Timeframe, rs: seq<Record>, local: int -> LocalTime) returns (c: Chart)
    ensures c == ChartOf(kind, tf, rs, local)
  {
    var labels: seq<string> := [];
    var series: seq<seq<real>> := seq(|Fields(kind)|, _ => []);
    var i := 0;
    ChartOfNone(kind, tf, rs[..0], local);
    while i < |rs|
      invariant 0 <= i <= |rs|
      invariant Chart(labels, series) == ChartOf(kind, tf, rs[..i], local)
    {
      var entry := rs[i];
      ChartStep(kind, tf, rs[..i], entry, local);
      labels := labels + [EntryLabel(tf, local(Stamp(entry)))];
      series := seq(|Fields(kind)|, f requires 0 <= f < |Fields(kind)| => series[f] + [Cell(kind, entry, f)]);
      assert rs[..i + 1] == rs[..i] + [entry];
      i := i + 1;
    }
    assert rs[..i] == rs;
    c := Chart(labels, series);
  }

  /**
   * A chart of records has one label and one value per series for each
   * record, in the records' order, so the fallback to generated labels never
   * fires once there is a record.
   */
  lemma ChartShape(kind: Report, tf: Timeframe, rs: seq<Record>, local: int -> LocalTime)
    ensures var c := ChartOf(kind, tf, rs, local);
      |c.labels| == |rs| && |c.series| == |Fields(kind)| &&
      (forall k :: 0 <= k < |rs| ==> c.labels[k] == EntryLabel(tf, local(Stamp(rs[k])))) &&
      (forall f :: 0 <= f < |Fields(kind)| ==> |c.series[f]| == |rs|) &&
      (forall f, k :: 0 <= f < |Fields(kind)| && 0 <= k < |rs| ==> c.series[f][k] == Cell(kind, rs[k], f))
  {
  }

  /**
   * Rescaled hydration percentages add up to 100 whenever they are
   * positive in total, keep their proportion, and are left alone otherwise.
   */
  lemma RescaleSumsToHundred(normal: real, dry: real)
    ensures var p := Rescale(normal, dry);
      (normal + dry > 0.0 ==> p.0 + p.1 == 100.0) &&
      p.0 * dry == p.1 * normal &&
      (normal + dry <= 0.0 || normal + dry == 100.0 ==> p == (normal, dry))
  {
    var total := normal + dry;
    if total > 0.0 && total != 100.0 {
      var factor := 100.0 / total;
      assert normal * factor + dry * factor == total * factor;
      assert total * factor == 100.0;
    }
  }

  /** In a hydration chart the two percentages of every record with a positive total add up to 100. */
  lemma HydrationChartSums(tf: Timeframe, rs: seq<Record>, local: int -> LocalTime)
    ensures var c := ChartOf(HydrationReport, tf, rs, local);
      forall k :: 0 <= k < |rs| && Get(rs[k], "normal_lips_percentage") + Get(rs[k], "dry_lips_percentage") > 0.0 ==>
        c.series[0][k] + c.series[1][k] == 100.0
  {
    forall k | 0 <= k < |rs|
      ensures var c := ChartOf(HydrationReport, tf, rs, local);
        Get(rs[k], "normal_lips_percentage") + Get(rs[k], "dry_lips_percentage") > 0.0 ==> c.series[0][k] + c.series[1][k] == 100.0
    {
      RescaleSumsToHundred(Get(rs[k], "normal_lips_percentage"), Get(rs[k], "dry_lips_percentage"));
    }
  }

  /**
   * The chart of no records has a zero per label in every series. Its labels
   * are the range's time labels for stress and hydration, and none for
   * posture and eye strain or without a range.
   */
  lemma EmptyChartZeros(kind: Report, tf: Timeframe, range: Option<(Date, Date)>)
    requires range.Some? ==> Valid(range.value.0) && Valid(range.value.1)
    ensures var e := EmptyChart(kind, tf, range);
      e.Some? ==>
        |e.value.series| == |Fields(kind)| &&
        (forall f :: 0 <= f < |Fields(kind)| ==> e.value.series[f] == Zeros(|e.value.labels|)) &&
        (e.value.labels != [] ==> (kind == StressReport || kind == HydrationReport) && range.Some? &&
                                  TimeLabels(tf, range.value.0, range.value.1) == Some(e.value.labels))
  {
  }

  // ---------------------------------------------------------------------------
  // Sample data: the percentage loops of `generate_sample_*_data`
  // ---------------------------------------------------------------------------

  /**
   * `good = np.random.randint(60, 95)` and `bad = 100 - good`, once per
   * label. The generator's draws are the parameter.
   */
  method SamplePosture(draws: seq<int>) returns (good: seq<int>, bad: seq<int>)
    requires forall k :: 0 <= k < |draws| ==> 60 <= draws[k] < 95
    ensures |good| == |draws| && |bad| == |draws|
    ensures forall k :: 0 <= k < |draws| ==> good[k] == draws[k] && 0 <= bad[k] && good[k] + bad[k] == 100
  {
    good, bad := [], [];
    var i := 0;
    while i < |draws|
      invariant 0 <= i <= |draws| && |good| == i && |bad| == i
      invariant forall k :: 0 <= k < i ==> good[k] == draws[k] && 0 <= bad[k] && good[k] + bad[k] == 100
    {
      var g := draws[i];
      good := good + [g];
      bad := bad + [100 - g];
      i := i + 1;
    }
  }

  /**
   * `low = randint(40, 80)`, `medium = randint(10, 40)` cut back to
   * `100 - low` when the two exceed 100, and `high = 100 - low - medium`.
   */
  method SampleStress(draws: seq<(int, int)>) returns (low: seq<int>, medium: seq<int>, high: seq<int>)
    requires forall k :: 0 <= k < |draws| ==> 40 <= draws[k].0 < 80 && 10 <= draws[k].1 < 40
    ensures |low| == |draws| && |medium| == |draws| && |high| == |draws|
    ensures forall k :: 0 <= k < |draws| ==>
      low[k] == draws[k].0 && 0 <= medium[k] <= draws[k].1 && 0 <= high[k] &&
      low[k] + medium[k] + high[k] == 100 &&
      (medium[k] == draws[k].1 || high[k] == 0)
  {
    low, medium, high := [], [], [];
    var i := 0;
    while i < |draws|
      invariant 0 <= i <= |draws| && |low| == i && |medium| == i && |high| == i
      invariant forall k :: 0 <= k < i ==>
        low[k] == draws[k].0 && 0 <= medium[k] <= draws[k].1 && 0 <= high[k] &&
        low[k] + medium[k] + high[k] == 100 && (medium[k] == draws[k].1 || high[k] == 0)
    {
      var l, m := draws[i].0, draws[i].1;
      if l + m > 100 {
        m := 100 - l;
      }
      low := low + [l];
      medium := medium + [m];
      high := high + [100 - l - m];
      i := i + 1;
    }
  }

  /**
   * `normal = randint(50, 85)`, `low = randint(5, 30)` cut back to
   * `100 - normal` when the two exceed 100, and `high = 100 - normal - low`.
   */
  method SampleCvs(draws: seq<(int, int)>) returns (normal: seq<int>, low: seq<int>, high: seq<int>)
    requires forall k :: 0 <= k < |draws| ==> 50 <= draws[k].0 < 85 && 5 <= draws[k].1 < 30
    ensures |normal| == |draws| && |low| == |draws| && |high| == |draws|
    ensures forall k :: 0 <= k < |draws| ==>
      normal[k] == draws[k].0 && 0 <= low[k] <= draws[k].1 && 0 <= high[k] &&
      normal[k] + low[k] + high[k] == 100 &&
      (low[k] == draws[k].1 || high[k] == 0)
  {
    normal, low, high := [], [], [];
    var i := 0;
    while i < |draws|
      invariant 0 <= i <= |draws| && |normal| == i && |low| == i && |high| == i
      invariant forall k :: 0 <= k < i ==>
        normal[k] == draws[k].0 && 0 <= low[k] <= draws[k].1 && 0 <= high[k] &&
        normal[k] + low[k] + high[k] == 100 && (low[k] == draws[k].1 || high[k] == 0)
    {
      var n, l := draws[i].0, draws[i].1;
      if n + l > 100 {
        l := 100 - n;
      }
      normal := normal + [n];
      low := low + [l];
      high := high + [100 - n - l];
      i := i + 1;
    }
  }

  /** `normal = randint(60, 90)` and `dry = 100 - normal`, once per label. */
  method SampleHydration(draws: seq<int>) returns (normal: seq<int>, dry: seq<int>)
    requires forall k :: 0 <= k < |draws| ==> 60 <= draws[k] < 90
    ensures |normal| == |draws| && |dry| == |draws|
    ensures forall k :: 0 <= k < |draws| ==> normal[k] == draws[k] && 0 <= dry[k] && normal[k] + dry[k] == 100
  {
    normal, dry := [], [];
    var i := 0;
    while i < |draws|
      invariant 0 <= i <= |draws| && |normal| == i && |dry| == i
      invariant forall k :: 0 <= k < i ==> normal[k] == draws[k] && 0 <= dry[k] && normal[k] + dry[k] == 100
    {
      var n := draws[i];
      normal := normal + [n];
      dry := dry + [100 - n];
      i := i + 1;
    }
  }
}
