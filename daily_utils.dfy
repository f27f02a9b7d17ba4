/**
 * Calendar helpers of the daily statistics queries: the list of dates
 * between two days, the Unix-second bounds of a day in Beijing time
 * (UTC+8), and the all-zero statistics row for a day without trades.
 *
 * Dates are days of the proleptic Gregorian calendar, as JavaScript `Date`
 * counts them; a date string the runtime cannot parse is `None`.
 */
module DailyUtils {
  import opened Optional
  import opened Decimal

  datatype Date = Date(year: int, month: nat, day: nat)

  predicate IsLeapYear(y: int) {
    y % 4 == 0 && (y % 100 != 0 || y % 400 == 0)
  }

  function DaysInYear(y: int): int {
    if IsLeapYear(y) then 366 else 365
  }

  function DaysInMonth(y: int, m: int): (n: int)
    requires 1 <= m <= 12
    ensures 28 <= n <= 31
  {
    if m == 2 then (if IsLeapYear(y) then 29 else 28)
    else if m == 4 || m == 6 || m == 9 || m == 11 then 30
    else 31
  }

  predicate ValidDate(d: Date) {
    1 <= d.month <= 12 && 1 <= d.day <= DaysInMonth(d.year, d.month)
  }

  /** Days from 1 January 1970 to 1 January of year `y` (negative before 1970). */
  function DaysBeforeYear(y: int): int
    decreases if y >= 1970 then y - 1970 else 1970 - y
  {
    if y == 1970 then 0
    else if y > 1970 then DaysBeforeYear(y - 1) + DaysInYear(y - 1)
    else DaysBeforeYear(y + 1) - DaysInYear(y)
  }

  /** Days from 1 January to the first of month `m` of year `y`. */
  function DaysBeforeMonth(y: int, m: int): int
    requires 1 <= m <= 12
  {
    var leap := if IsLeapYear(y) then 1 else 0;
    if m == 1 then 0
    else if m == 2 then 31
    else if m == 3 then 59 + leap
    else if m == 4 then 90 + leap
    else if m == 5 then 120 + leap
    else if m == 6 then 151 + leap
    else if m == 7 then 181 + leap
    else if m == 8 then 212 + leap
    else if m == 9 then 243 + leap
    else if m == 10 then 273 + leap
    else if m == 11 then 304 + leap
    else 334 + leap
  }

  /** Day number of a date: 0 for 1970-01-01, counting forwards and backwards. */
  function DayNumber(d: Date): int
    requires ValidDate(d)
  {
    DaysBeforeYear(d.year) + DaysBeforeMonth(d.year, d.month) + d.day - 1
  }

  /** The months of a year follow one another without gaps and fill the year. */
  lemma MonthsTileYear(y: int, m: int)
    requires 1 <= m <= 12
    ensures m < 12 ==> DaysBeforeMonth(y, m + 1) == DaysBeforeMonth(y, m) + DaysInMonth(y, m)
    ensures m == 12 ==> DaysBeforeMonth(y, m) + DaysInMonth(y, m) == DaysInYear(y)
  {
  }

  /** The calendar day after `d`, as `setDate(getDate() + 1)` advances a date. */
  function NextDay(d: Date): (r: Date)
    requires ValidDate(d)
    ensures ValidDate(r)
    ensures r.year == d.year || (r.year == d.year + 1 && r.month == 1 && r.day == 1)
  {
    MonthsTileYear(d.year, d.month);
    if d.day < DaysInMonth(d.year, d.month) then Date(d.year, d.month, d.day + 1)
    else if d.month < 12 then Date(d.year, d.month + 1, 1)
    else Date(d.year + 1, 1, 1)
  }

  /** The day after `d` is numbered one higher. */
  lemma NextDayNumber(d: Date)
    requires ValidDate(d)
    ensures DayNumber(NextDay(d)) == DayNumber(d) + 1
  {
    MonthsTileYear(d.year, d.month);
  }

  /** The date `n` days after `d`. */
  function DayAfter(d: Date, n: nat): (r: Date)
    requires ValidDate(d)
    ensures ValidDate(r)
    decreases n
  {
    if n == 0 then d else NextDay(DayAfter(d, n - 1))
  }

  /** Stepping `n` days forward adds `n` to the day number. */
  lemma {:induction false} DayAfterNumber(d: Date, n: nat)
    requires ValidDate(d)
    ensures DayNumber(DayAfter(d, n)) == DayNumber(d) + n
    decreases n
  {
    if n > 0 {
      DayAfterNumber(d, n - 1);
      NextDayNumber(DayAfter(d, n - 1));
    }
  }

  /** Every day of year `y` is numbered within that year's span. */
  lemma DayNumberWithinYear(d: Date)
    requires ValidDate(d)
    ensures DaysBeforeYear(d.year) <= DayNumber(d) < DaysBeforeYear(d.year) + DaysInYear(d.year)
  {
    MonthsTileYear(d.year, 12);
    if d.month < 12 {
      MonthsTileYear(d.year, d.month);
    }
  }

  /** Earlier years end no later than later years begin. */
  lemma {:induction false} YearsOrdered(y1: int, y2: int)
    requires y1 < y2
    ensures DaysBeforeYear(y1) + DaysInYear(y1) <= DaysBeforeYear(y2)
    decreases y2 - y1
  {
    if y1 + 1 < y2 {
      YearsOrdered(y1 + 1, y2);
    }
  }

  /** Earlier months end no later than later months begin. */
  lemma {:induction false} MonthsOrdered(y: int, m1: int, m2: int)
    requires 1 <= m1 < m2 <= 12
    ensures DaysBeforeMonth(y, m1) + DaysInMonth(y, m1) <= DaysBeforeMonth(y, m2)
    decreases m2 - m1
  {
    MonthsTileYear(y, m1);
    if m1 + 1 < m2 {
      MonthsOrdered(y, m1 + 1, m2);
    }
  }

  /** Distinct valid dates have distinct day numbers. */
  lemma DayNumberInjective(a: Date, b: Date)
    requires ValidDate(a) && ValidDate(b) && DayNumber(a) == DayNumber(b)
    ensures a == b
  {
    DayNumberWithinYear(a);
    DayNumberWithinYear(b);
    if a.year < b.year {
      YearsOrdered(a.year, b.year);
    } else if b.year < a.year {
      YearsOrdered(b.year, a.year);
    } else if a.month < b.month {
      MonthsOrdered(a.year, a.month, b.month);
    } else if b.month < a.month {
      MonthsOrdered(a.year, b.month, a.month);
    }
  }

  /** `${year}`: the year as JavaScript prints a number, without padding. */
  function YearText(y: int): string {
    if y < 0 then "-" + NatToString(-y) else NatToString(y)
  }

  /** `${year}-${month}-${day}` with month and day zero-padded to two digits. */
  function FormatDate(d: Date): string
  {
    YearText(d.year) + "-" + Pad2(d.month) + "-" + Pad2(d.day)
  }

  /** Four-digit years print as four digits. */
  lemma FourDigitYear(y: int)
    requires 1000 <= y <= 9999
    ensures |YearText(y)| == 4
  {
    assert |NatToString(y / 1000)| == 1;
    assert |NatToString(y / 100)| == 2;
    assert |NatToString(y / 10)| == 3;
  }

  /** For years 1000 to 9999 the text has the shape YYYY-MM-DD. */
  lemma FormatDateShape(d: Date)
    requires ValidDate(d) && 1000 <= d.year <= 9999
    ensures var s := FormatDate(d);
            && |s| == 10 && s[4] == '-' && s[7] == '-'
            && forall i :: 0 <= i < 10 && i != 4 && i != 7 ==> IsDigit(s[i])
  {
    FourDigitYear(d.year);
    var y, m, dd := YearText(d.year), Pad2(d.month), Pad2(d.day);
    assert FormatDate(d) == y + "-" + m + "-" + dd;
    assert AllDigits(y);
  }

  /** The year can be read back from its text. */
  lemma YearTextInjective(a: int, b: int)
    requires YearText(a) == YearText(b)
    ensures a == b
  {
    if a < 0 && b < 0 {
      assert NatToString(-a) == YearText(a)[1..];
      assert NatToString(-b) == YearText(b)[1..];
      NatToStringInjective(-a, -b);
    } else if a >= 0 && b >= 0 {
      NatToStringInjective(a, b);
    }
  }

  /** Distinct dates print differently, so the text identifies the date. */
  lemma FormatDateInjective(a: Date, b: Date)
    requires ValidDate(a) && ValidDate(b) && FormatDate(a) == FormatDate(b)
    ensures a == b
  {
    var s := FormatDate(a);
    var n := |s|;
    var ya, ma, da := YearText(a.year), Pad2(a.month), Pad2(a.day);
    var yb, mb, db := YearText(b.year), Pad2(b.month), Pad2(b.day);
    assert s == ya + "-" + ma + "-" + da;
    assert s == yb + "-" + mb + "-" + db;
    assert s[n - 2..] == da && s[n - 2..] == db;
    assert s[n - 5..n - 3] == ma && s[n - 5..n - 3] == mb;
    assert s[..n - 6] == ya && s[..n - 6] == yb;
    Pad2RoundTrip(a.day);
    Pad2RoundTrip(b.day);
    Pad2RoundTrip(a.month);
    Pad2RoundTrip(b.month);
    YearTextInjective(a.year, b.year);
  }

  /** The `n` consecutive days starting at `first`. */
  function DaysFrom(first: Date, n: nat): seq<Date>
    requires ValidDate(first)
    decreases n
  {
    if n == 0 then [] else DaysFrom(first, n - 1) + [DayAfter(first, n - 1)]
  }

  /** Entry i of the list is the day i days after the first. */
  lemma {:induction false} DaysFromAt(first: Date, n: nat, i: nat)
    requires ValidDate(first) && i < n
    ensures |DaysFrom(first, n)| == n && DaysFrom(first, n)[i] == DayAfter(first, i)
    decreases n
  {
    if i < n - 1 {
      DaysFromAt(first, n - 1, i);
    } else if n > 1 {
      DaysFromAt(first, n - 1, 0);
    }
  }

  /** The texts of a list of dates, in order. */
  function Texts(ds: seq<Date>): seq<string>
    decreases |ds|
  {
    if ds == [] then [] else Texts(ds[..|ds| - 1]) + [FormatDate(ds[|ds| - 1])]
  }

  /** Entry i of the texts is the text of date i. */
  lemma {:induction false} TextsAt(ds: seq<Date>, i: nat)
    requires i < |ds|
    ensures |Texts(ds)| == |ds| && Texts(ds)[i] == FormatDate(ds[i])
    decreases |ds|
  {
    var init := ds[..|ds| - 1];
    if i < |ds| - 1 {
      TextsAt(init, i);
    } else if init != [] {
      TextsAt(init, 0);
    }
  }

  /** Number of days from `first` to `last`, both included; none when `first` is later. */
  function SpanLength(first: Date, last: Date): nat
    requires ValidDate(first) && ValidDate(last)
  {
    if DayNumber(first) <= DayNumber(last) then DayNumber(last) - DayNumber(first) + 1 else 0
  }

  /** One more day extends both the list of days and the list of their texts by that day. */
  lemma DatesStep(first: Date, n: nat)
    requires ValidDate(first)
    ensures DayAfter(first, n + 1) == NextDay(DayAfter(first, n))
    ensures DaysFrom(first, n + 1) == DaysFrom(first, n) + [DayAfter(first, n)]
    ensures Texts(DaysFrom(first, n + 1)) == Texts(DaysFrom(first, n)) + [FormatDate(DayAfter(first, n))]
  {
    var days := DaysFrom(first, n + 1);
    assert days[..|days| - 1] == DaysFrom(first, n);
  }

  /** The loop of the date-range generator, over two dates that parsed. */
  method DatesBetween(first: Date, last: Date) returns (dates: seq<string>)
    requires ValidDate(first) && ValidDate(last)
    ensures |dates| == SpanLength(first, last)
    ensures forall i :: 0 <= i < |dates| ==> dates[i] == FormatDate(DayAfter(first, i))
  {
    dates := [];
    var current := first;
    ghost var n: nat := 0;
    while DayNumber(current) <= DayNumber(last)
      invariant ValidDate(current) && current == DayAfter(first, n)
      invariant DayNumber(current) == DayNumber(first) + n
      invariant n <= SpanLength(first, last)
      invariant dates == Texts(DaysFrom(first, n))
      decreases DayNumber(last) - DayNumber(current)
    {
      DatesStep(first, n);
      NextDayNumber(current);
      dates := dates + [FormatDate(current)];
      current := NextDay(current);
      n := n + 1;
    }
    DatesFromTexts(first, n);
  }

  /** The texts of the first `n` days are the texts of the days `0..n-1` after `first`, in order. */
  lemma DatesFromTexts(first: Date, n: nat)
    requires ValidDate(first)
    ensures |Texts(DaysFrom(first, n))| == n
    ensures forall i :: 0 <= i < n ==> Texts(DaysFrom(first, n))[i] == FormatDate(DayAfter(first, i))
  {
    var days := DaysFrom(first, n);
    if n > 0 {
      DaysFromAt(first, n, 0);
    }
    forall i | 0 <= i < n
      ensures Texts(days)[i] == FormatDate(DayAfter(first, i))
    {
      DaysFromAt(first, n, i);
      TextsAt(days, i);
    }
  }

  /**
   * Every calendar day from `start` to `end`, both included, as text. An
   * unparsable bound, or a start after the end, gives an empty list.
   */
  method GenerateDateRange(start: Option<Date>, end: Option<Date>) returns (dates: seq<string>)
    requires start.Some? ==> ValidDate(start.value)
    requires end.Some? ==> ValidDate(end.value)
    ensures start.None? || end.None? ==> dates == []
    ensures start.Some? && end.Some? ==>
              && |dates| == SpanLength(start.value, end.value)
              && forall i :: 0 <= i < |dates| ==> dates[i] == FormatDate(DayAfter(start.value, i))
  {
    if start.None? || end.None? {
      return [];
    }
    dates := DatesBetween(start.value, end.value);
  }

  /** The generated list starts at `start`, ends at `end` and steps one calendar day at a time. */
  lemma DateRangeEndpoints(start: Date, end: Date)
    requires ValidDate(start) && ValidDate(end) && DayNumber(start) <= DayNumber(end)
    ensures var n := DayNumber(end) - DayNumber(start);
            DayAfter(start, 0) == start && DayAfter(start, n) == end
  {
    var n: nat := DayNumber(end) - DayNumber(start);
    var last := DayAfter(start, n);
    DayAfterNumber(start, n);
    assert DayNumber(last) == DayNumber(end);
    DayNumberInjective(last, end);
    assert DayAfter(start, n) == end;
  }

  /** The generated dates are distinct and strictly increasing. */
  lemma DateRangeDistinct(start: Date, i: nat, j: nat)
    requires ValidDate(start) && i < j
    ensures DayNumber(DayAfter(start, i)) < DayNumber(DayAfter(start, j))
    ensures FormatDate(DayAfter(start, i)) != FormatDate(DayAfter(start, j))
  {
    DayAfterNumber(start, i);
    DayAfterNumber(start, j);
    if FormatDate(DayAfter(start, i)) == FormatDate(DayAfter(start, j)) {
      FormatDateInjective(DayAfter(start, i), DayAfter(start, j));
    }
  }

  const SecondsPerDay: int := 86400
  /** Beijing time is eight hours ahead of UTC. */
  const BeijingOffsetSeconds: int := 8 * 3600

  /**
   * Unix-second bounds of day `d` in Beijing time: from 00:00:00 to
   * 23:59:59 at UTC+8, both included.
   */
  function GetDayTimeRange(d: Date): (r: (int, int))
    requires ValidDate(d)
    ensures r.1 - r.0 == SecondsPerDay - 1
    ensures (r.0 + BeijingOffsetSeconds) % SecondsPerDay == 0
    ensures (r.0 + BeijingOffsetSeconds) / SecondsPerDay == DayNumber(d)
  {
    var startTime := DayNumber(d) * SecondsPerDay - BeijingOffsetSeconds;
    (startTime, startTime + SecondsPerDay - 1)
  }

  /** Consecutive days' ranges meet without gap or overlap. */
  lemma DayTimeRangesTile(d: Date)
    requires ValidDate(d)
    ensures GetDayTimeRange(NextDay(d)).0 == GetDayTimeRange(d).1 + 1
  {
    NextDayNumber(d);
  }

  /** Every second belongs to the range of exactly one day. */
  lemma DayTimeRangeContains(a: Date, b: Date, t: int)
    requires ValidDate(a) && ValidDate(b)
    requires GetDayTimeRange(a).0 <= t <= GetDayTimeRange(a).1
    requires GetDayTimeRange(b).0 <= t <= GetDayTimeRange(b).1
    ensures a == b
  {
    DayNumberInjective(a, b);
  }

  datatype DailyTradeStats = DailyTradeStats(
    date: string,
    buyAddressCount: int,
    sellAddressCount: int,
    totalBuyCat: string,
    totalSellCat: string,
    buyTxCount: int,
    sellTxCount: int,
    netFlowCat: string,
    uniqueTraderCount: int)

  /** The row for a day without trades: the date, every count 0 and every total the text "0". */
  function CreateDefaultDailyTradeStats(date: string): (r: DailyTradeStats)
    ensures r.date == date
    ensures r.buyAddressCount == 0 && r.sellAddressCount == 0 && r.buyTxCount == 0
            && r.sellTxCount == 0 && r.uniqueTraderCount == 0
    ensures r.totalBuyCat == "0" && r.totalSellCat == "0" && r.netFlowCat == "0"
  {
    DailyTradeStats(date, 0, 0, "0", "0", 0, 0, "0", 0)
  }
}
