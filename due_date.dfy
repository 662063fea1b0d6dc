/**
 * The due date the invoice form stores on save: the invoice date, read as
 * DD/MM/YYYY the way `datetime.strptime(s, "%d/%m/%Y")` reads it, moved 30
 * calendar days on, and written back as DD/MM/YYYY. A date that does not
 * parse, or whose due date would pass 31/12/9999, leaves the due date unset.
 */
module DueDates {
  import opened Text
  import opened Wrappers

  datatype Date = Date(year: int, month: int, day: int)

  /** The Gregorian leap-year rule. */
  predicate Leap(y: int) {
    y % 4 == 0 && (y % 100 != 0 || y % 400 == 0)
  }

  function DaysInMonth(y: int, m: int): (n: int)
    requires 1 <= m <= 12
    ensures 28 <= n <= 31
  {
    if m == 2 then (if Leap(y) then 29 else 28)
    else if m == 4 || m == 6 || m == 9 || m == 11 then 30
    else 31
  }

  function YearLength(y: int): int {
    if Leap(y) then 366 else 365
  }

  /** A calendar date from year 1 on; `datetime` also stops at year 9999. */
  predicate Valid(d: Date) {
    d.year >= 1 && 1 <= d.month <= 12 && 1 <= d.day <= DaysInMonth(d.year, d.month)
  }

  predicate InRange(d: Date) {
    Valid(d) && d.year <= 9999
  }

  // ---------------------------------------------------------------------
  // Day numbers: the proleptic Gregorian ordinal, 1 for 01/01/0001
  // ---------------------------------------------------------------------

  /** The days in the years before `y`. */
  function DaysBeforeYear(y: int): int
    requires y >= 1
  {
    var p := y - 1;
    p * 365 + p / 4 - p / 100 + p / 400
  }

  const CUMULATIVE_DAYS: seq<int> := [0, 31, 59, 90, 120, 151, 181, 212, 243, 273, 304, 334]

  /** The days in the months of year `y` before month `m`. */
  function DaysBeforeMonth(y: int, m: int): int
    requires 1 <= m <= 12
  {
    CUMULATIVE_DAYS[m - 1] + (if m > 2 && Leap(y) then 1 else 0)
  }

  /** The ordinal of a date: the number of days from 01/01/0001 to it, counting both ends. */
  function DayNumber(d: Date): int
    requires d.year >= 1 && 1 <= d.month <= 12
  {
    DaysBeforeYear(d.year) + DaysBeforeMonth(d.year, d.month) + d.day
  }

  /** A year adds its own length to the days before it. */
  lemma DaysBeforeNextYear(y: int)
    requires y >= 1
    ensures DaysBeforeYear(y + 1) == DaysBeforeYear(y) + YearLength(y)
  {
    QuotientSteps(y);
    DivisorsNest(y);
  }

  /** Moving from `y - 1` to `y` raises each quotient exactly when `y` is a multiple. */
  lemma QuotientSteps(y: int)
    requires y >= 1
    ensures y / 4 == (y - 1) / 4 + (if y % 4 == 0 then 1 else 0)
    ensures y / 100 == (y - 1) / 100 + (if y % 100 == 0 then 1 else 0)
    ensures y / 400 == (y - 1) / 400 + (if y % 400 == 0 then 1 else 0)
  {
  }

  lemma DivisorsNest(y: int)
    ensures y % 400 == 0 ==> y % 100 == 0
    ensures y % 100 == 0 ==> y % 4 == 0
  {
  }

  /** A month adds its own length to the days before it. */
  lemma DaysBeforeNextMonth(y: int, m: int)
    requires 1 <= m < 12
    ensures DaysBeforeMonth(y, m + 1) == DaysBeforeMonth(y, m) + DaysInMonth(y, m)
  {
  }

  /** The months of a year add up to its length. */
  lemma MonthsFillYear(y: int)
    ensures DaysBeforeMonth(y, 12) + 31 == YearLength(y)
  {
  }

  /** The following calendar day. */
  function NextDay(d: Date): (r: Date)
    requires Valid(d)
    ensures Valid(r)
  {
    if d.day < DaysInMonth(d.year, d.month) then Date(d.year, d.month, d.day + 1)
    else if d.month < 12 then Date(d.year, d.month + 1, 1)
    else Date(d.year + 1, 1, 1)
  }

  /** The next day's ordinal is one more. */
  lemma NextDayNumber(d: Date)
    requires Valid(d)
    ensures DayNumber(NextDay(d)) == DayNumber(d) + 1
  {
    if d.day == DaysInMonth(d.year, d.month) {
      if d.month < 12 {
        DaysBeforeNextMonth(d.year, d.month);
      } else {
        DaysBeforeNextYear(d.year);
        MonthsFillYear(d.year);
      }
    }
  }

  /** The date `n` days later. */
  function AddDays(d: Date, n: nat): (r: Date)
    requires Valid(d)
    ensures Valid(r)
    decreases n
  {
    if n == 0 then d else AddDays(NextDay(d), n - 1)
  }

  /** Moving `n` days on adds `n` to the ordinal, as `date + timedelta(days=n)` does. */
  lemma {:induction false} AddDaysNumber(d: Date, n: nat)
    requires Valid(d)
    ensures DayNumber(AddDays(d, n)) == DayNumber(d) + n
    decreases n
  {
    if n > 0 {
      var e := NextDay(d);
      NextDayNumber(d);
      AddDaysNumber(e, n - 1);
      assert AddDays(d, n) == AddDays(e, n - 1);
    }
  }

  /** The days before a later year cover at least 365 days a year in between. */
  lemma {:induction false} DaysBeforeYearGrows(a: int, b: int)
    requires 1 <= a <= b
    ensures DaysBeforeYear(a) + 365 * (b - a) <= DaysBeforeYear(b)
    decreases b - a
  {
    if a < b {
      DaysBeforeNextYear(a);
      DaysBeforeYearGrows(a + 1, b);
    }
  }

  /** A date's ordinal lies within its year's span of ordinals. */
  lemma NumberInYear(d: Date)
    requires Valid(d)
    ensures DaysBeforeYear(d.year) < DayNumber(d) <= DaysBeforeYear(d.year + 1)
  {
    DaysBeforeNextYear(d.year);
    MonthsFillYear(d.year);
    MonthsGrow(d.year, d.month, 12);
  }

  /** The days before a later month of the same year cover the months in between. */
  lemma {:induction false} MonthsGrow(y: int, a: int, b: int)
    requires 1 <= a <= b <= 12
    ensures DaysBeforeMonth(y, a) + DaysInMonth(y, a) <= DaysBeforeMonth(y, b) + (if a == b then DaysInMonth(y, a) else 0)
    decreases b - a
  {
    if a < b {
      DaysBeforeNextMonth(y, a);
      if a + 1 < b {
        MonthsGrow(y, a + 1, b);
      }
    }
  }

  /** Distinct dates have distinct ordinals, so an ordinal names one date. */
  lemma NumberDetermines(d: Date, e: Date)
    requires Valid(d) && Valid(e) && DayNumber(d) == DayNumber(e)
    ensures d == e
  {
    NumberInYear(d);
    NumberInYear(e);
    if d.year < e.year {
      DaysBeforeYearGrows(d.year + 1, e.year);
      assert false;
    } else if e.year < d.year {
      DaysBeforeYearGrows(e.year + 1, d.year);
      assert false;
    }
    if d.month < e.month {
      MonthsGrow(d.year, d.month, e.month);
      assert false;
    } else if e.month < d.month {
      MonthsGrow(d.year, e.month, d.month);
      assert false;
    }
  }

  // ---------------------------------------------------------------------
  // Reading DD/MM/YYYY
  // ---------------------------------------------------------------------

  predicate NonZeroDigit(c: char) { '1' <= c <= '9' }

  /**
   * The day field of `%d`: one digit 1-9, a space and a digit 1-9, or two
   * digits naming 1 to 31.
   */
  function ParseDayField(t: string): (r: Option<int>)
    ensures r.Some? ==> 1 <= r.value <= 31
  {
    if |t| == 1 && NonZeroDigit(t[0]) then Some((t[0] - '0') as int)
    else if |t| == 2 && t[0] == ' ' && NonZeroDigit(t[1]) then Some((t[1] - '0') as int)
    else if |t| == 2 && AllDigits(t) && 1 <= DigitsValue(t) <= 31 then Some(DigitsValue(t))
    else None
  }

  /** The month field of `%m`: one digit 1-9, or two digits naming 1 to 12. */
  function ParseMonthField(t: string): (r: Option<int>)
    ensures r.Some? ==> 1 <= r.value <= 12
  {
    if |t| == 1 && NonZeroDigit(t[0]) then Some((t[0] - '0') as int)
    else if |t| == 2 && AllDigits(t) && 1 <= DigitsValue(t) <= 12 then Some(DigitsValue(t))
    else None
  }

  /** The year field of `%Y`: exactly four digits. */
  function ParseYearField(t: string): (r: Option<int>)
    ensures r.Some? ==> 0 <= r.value <= 9999
  {
    if |t| == 4 && AllDigits(t) then
      DigitsBelow(t);
      Some(DigitsValue(t))
    else None
  }

  /**
   * `datetime.strptime(s, "%d/%m/%Y")`: three fields separated by `/`, the
   * whole string used up, and the result a real date from year 1 on;
   * `None` where `strptime` or `datetime` raises.
   */
  function ParseDate(s: string): (r: Option<Date>)
    ensures r.Some? ==> InRange(r.value)
  {
    var fields := Split(s, '/');
    if |fields| != 3 then None
    else
      match (ParseDayField(fields[0]), ParseMonthField(fields[1]), ParseYearField(fields[2]))
      case (Some(d), Some(m), Some(y)) =>
        if y >= 1 && d <= DaysInMonth(y, m) then Some(Date(y, m, d)) else None
      case _ => None
  }

  // ---------------------------------------------------------------------
  // Writing DD/MM/YYYY
  // ---------------------------------------------------------------------

  /** `strftime("%d/%m/%Y")`: two-digit day and month, four-digit year. */
  function FormatDate(d: Date): string
    requires InRange(d)
  {
    ZeroPad(NatToString(d.day), 2) + "/" + ZeroPad(NatToString(d.month), 2) + "/" + ZeroPad(NatToString(d.year), 4)
  }

  function Pow10(k: nat): nat {
    if k == 0 then 1 else 10 * Pow10(k - 1)
  }

  /** `k` digits name a number below `10^k`. */
  lemma {:induction false} DigitsBelow(s: string)
    requires AllDigits(s)
    ensures DigitsValue(s) < Pow10(|s|)
    decreases |s|
  {
    if s != [] {
      DigitsBelow(s[..|s| - 1]);
    }
  }

  /** A number below `10^k` is written with at most `k` digits. */
  lemma {:induction false} NatToStringShort(n: nat, k: nat)
    requires k >= 1 && n < Pow10(k)
    ensures |NatToString(n)| <= k
    decreases k
  {
    if n >= 10 {
      NatToStringShort(n / 10, k - 1);
    }
  }

  /** Leading zeros do not change the value of a digit string. */
  lemma {:induction false} LeadingZeros(z: string, s: string)
    requires forall k :: 0 <= k < |z| ==> z[k] == '0'
    requires AllDigits(s)
    ensures AllDigits(z + s) && DigitsValue(z + s) == DigitsValue(s)
    decreases |s|
  {
    if s == [] {
      assert z + s == z;
      ZerosValue(z);
    } else {
      var t := s[..|s| - 1];
      assert (z + s)[..|z + s| - 1] == z + t;
      LeadingZeros(z, t);
    }
  }

  lemma {:induction false} ZerosValue(z: string)
    requires forall k :: 0 <= k < |z| ==> z[k] == '0'
    ensures AllDigits(z) && DigitsValue(z) == 0
    decreases |z|
  {
    if z != [] {
      ZerosValue(z[..|z| - 1]);
    }
  }

  /** A number padded to `width` digits is `width` digits naming that number. */
  lemma PaddedNumber(n: nat, width: nat)
    requires width >= 1 && n < Pow10(width)
    ensures var t := ZeroPad(NatToString(n), width);
      |t| == width && AllDigits(t) && DigitsValue(t) == n
  {
    var s := NatToString(n);
    NatToStringShort(n, width);
    var t := ZeroPad(s, width);
    var z := t[..|t| - |s|];
    assert t == z + s;
    LeadingZeros(z, s);
  }

  /** A field of digits holds no separator. */
  lemma DigitsNoSlash(t: string)
    requires AllDigits(t)
    ensures '/' !in t
  {
    forall k | 0 <= k < |t| ensures t[k] != '/' {
      assert IsDigit(t[k]);
    }
  }

  /** Splitting three separator-free fields joined by the separator gives them back. */
  lemma SplitThree(a: string, b: string, c: string)
    requires '/' !in a && '/' !in b && '/' !in c
    ensures Split(a + "/" + b + "/" + c, '/') == [a, b, c]
  {
    SplitTwo(b, c);
    RegroupFields(a, b, c);
    SplitAfterField(a, b + "/" + c, '/');
    assert [a] + [b, c] == [a, b, c];
  }

  lemma SplitTwo(b: string, c: string)
    requires '/' !in b && '/' !in c
    ensures Split(b + "/" + c, '/') == [b, c]
  {
    SplitNoSeparator(c, '/');
    SplitAfterField(b, c, '/');
  }

  lemma RegroupFields(a: string, b: string, c: string)
    ensures a + "/" + b + "/" + c == a + ['/'] + (b + "/" + c)
  {
  }

  /** Reading back a written date gives the date. */
  lemma FormatParse(d: Date)
    requires InRange(d)
    ensures ParseDate(FormatDate(d)) == Some(d)
  {
    var a := ZeroPad(NatToString(d.day), 2);
    var b := ZeroPad(NatToString(d.month), 2);
    var c := ZeroPad(NatToString(d.year), 4);
    PaddedNumber(d.day, 2);
    PaddedNumber(d.month, 2);
    PaddedNumber(d.year, 4);
    DigitsNoSlash(a);
    DigitsNoSlash(b);
    DigitsNoSlash(c);
    SplitThree(a, b, c);
    assert ParseDayField(a) == Some(d.day) by {
      assert a[0] != ' ';
    }
  }

  /** Reading a date normalises it: its written form reads as the same date. */
  lemma ParseNormalises(s: string)
    requires ParseDate(s).Some?
    ensures ParseDate(FormatDate(ParseDate(s).value)) == ParseDate(s)
  {
    FormatParse(ParseDate(s).value);
  }

  // ---------------------------------------------------------------------
  // The due date
  // ---------------------------------------------------------------------

  /**
   * The due date saved with the invoice: unset for an empty or unreadable
   * date, or when 30 days later is past year 9999 (the `OverflowError` the
   * form swallows); otherwise the date 30 days later, written DD/MM/YYYY.
   */
  function DueDate(s: string): (r: Option<string>)
  {
    if s == [] then None
    else
      match ParseDate(s)
      case None => None
      case Some(d) =>
        var due := AddDays(d, 30);
        if due.year <= 9999 then Some(FormatDate(due)) else None
  }

  /**
   * A due date is set exactly when the date reads and the date 30 days on
   * is before year 10000; it then reads back as the date whose ordinal is
   * 30 more than the invoice date's, and only that date has this ordinal.
   */
  lemma DueDateMeaning(s: string)
    ensures DueDate(s).Some? <==> ParseDate(s).Some? && AddDays(ParseDate(s).value, 30).year <= 9999
    ensures DueDate(s).Some? ==>
      var d := ParseDate(s).value;
      var e := ParseDate(DueDate(s).value);
      e.Some? && DayNumber(e.value) == DayNumber(d) + 30
    ensures DueDate(s).Some? ==> forall e :: Valid(e) && DayNumber(e) == DayNumber(ParseDate(s).value) + 30 ==>
      ParseDate(DueDate(s).value) == Some(e)
  {
    if DueDate(s).Some? {
      var d := ParseDate(s).value;
      var due := AddDays(d, 30);
      FormatParse(due);
      AddDaysNumber(d, 30);
      forall e | Valid(e) && DayNumber(e) == DayNumber(d) + 30 ensures ParseDate(DueDate(s).value) == Some(e) {
        NumberDetermines(e, due);
      }
    } else if ParseDate(s).Some? {
      assert s != [] by {
        assert Split([], '/') == [""];
      }
    }
  }

  /** Worked example: thirty days from 15 February of a leap year is 16 March. */
  lemma LeapExample()
    ensures DueDate("15/02/2024") == Some("16/03/2024")
  {
    ExampleRead();
    ExampleShift();
    ExampleWrite();
  }

  lemma ExampleRead()
    ensures ParseDate("15/02/2024") == Some(Date(2024, 2, 15))
  {
    ExampleSplit();
    ExampleDigits();
    assert ParseDayField("15") == Some(15);
    assert ParseMonthField("02") == Some(2);
    assert ParseYearField("2024") == Some(2024);
  }

  lemma ExampleSplit()
    ensures Split("15/02/2024", '/') == ["15", "02", "2024"]
  {
    SplitThree("15", "02", "2024");
    assert "15" + "/" + "02" + "/" + "2024" == "15/02/2024";
  }

  lemma ExampleDigits()
    ensures AllDigits("15") && DigitsValue("15") == 15
    ensures AllDigits("02") && DigitsValue("02") == 2
    ensures AllDigits("2024") && DigitsValue("2024") == 2024
  {
    assert "15"[..1] == "1" && "1"[..0] == "";
    assert "02"[..1] == "0" && "0"[..0] == "";
    assert "2024"[..3] == "202" && "202"[..2] == "20" && "20"[..1] == "2" && "2"[..0] == "";
  }

  lemma ExampleShift()
    ensures AddDays(Date(2024, 2, 15), 30) == Date(2024, 3, 16)
  {
    AddDaysNumber(Date(2024, 2, 15), 30);
    NumberDetermines(AddDays(Date(2024, 2, 15), 30), Date(2024, 3, 16));
  }

  lemma ExampleWrite()
    ensures FormatDate(Date(2024, 3, 16)) == "16/03/2024"
  {
    assert NatToString(16) == "16";
    assert NatToString(3) == "3";
    assert NatToString(2024) == "2024";
    assert "16" + "/" + "03" + "/" + "2024" == "16/03/2024";
  }

  /** The last date with a due date is 1 December 9999; one day later the sum overflows. */
  lemma LimitExample()
    ensures AddDays(Date(9999, 12, 1), 30) == Date(9999, 12, 31)
    ensures AddDays(Date(9999, 12, 2), 30).year == 10000
  {
    AddDaysNumber(Date(9999, 12, 1), 30);
    NumberDetermines(AddDays(Date(9999, 12, 1), 30), Date(9999, 12, 31));
    AddDaysNumber(Date(9999, 12, 2), 30);
    NumberDetermines(AddDays(Date(9999, 12, 2), 30), Date(10000, 1, 1));
  }
}
