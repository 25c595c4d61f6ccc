/**
 * parse_date and day_suffix of easyapply/themes/filters.py.
 *
 * parse_date hands the text to datetime.strptime with "%Y-%m-%d", "%Y-%m"
 * or "%Y", chosen by length. strptime matches the directives with fixed
 * regular expressions: %Y is four digits, %m is `1[0-2]|0[1-9]|[1-9]` and
 * %d is `3[01]|[12]\d|0[1-9]|[1-9]| [1-9]`, and the whole text must be
 * consumed. The date must then exist in the proleptic Gregorian calendar
 * from year 1 on.
 */
module Dates {
  import opened Results
  import opened Text

  /** A datetime at midnight: parse_date never sets a time. */
  datatype DateTime = DateTime(year: int, month: int, day: int)

  predicate IsLeapYear(y: int) {
    y % 4 == 0 && (y % 100 != 0 || y % 400 == 0)
  }

  function DaysInMonth(y: int, m: int): int
    requires 1 <= m <= 12
  {
    if m == 2 then (if IsLeapYear(y) then 29 else 28)
    else if m == 4 || m == 6 || m == 9 || m == 11 then 30
    else 31
  }

  /** The dates a datetime can hold (MINYEAR 1 to MAXYEAR 9999). */
  predicate ValidDate(d: DateTime) {
    1 <= d.year <= 9999 && 1 <= d.month <= 12 && 1 <= d.day <= DaysInMonth(d.year, d.month)
  }

  function DigitValue(c: char): int {
    c as int - '0' as int
  }

  /** %Y: exactly four digits. */
  function YearField(s: string): (r: Option<int>)
    requires |s| == 4
    ensures r.Some? ==> 0 <= r.value <= 9999
  {
    if IsDigit(s[0]) && IsDigit(s[1]) && IsDigit(s[2]) && IsDigit(s[3]) then
      Some(1000 * DigitValue(s[0]) + 100 * DigitValue(s[1]) + 10 * DigitValue(s[2]) + DigitValue(s[3]))
    else None
  }

  /** %m on two characters: the alternatives `1[0-2]` and `0[1-9]`. */
  function MonthField(s: string): (r: Option<int>)
    requires |s| == 2
    ensures r.Some? ==> 1 <= r.value <= 12
  {
    if s[0] == '1' && '0' <= s[1] <= '2' then Some(10 + DigitValue(s[1]))
    else if s[0] == '0' && '1' <= s[1] <= '9' then Some(DigitValue(s[1]))
    else None
  }

  /** %d on two characters: `3[01]`, `[12]\d`, `0[1-9]` and the space-padded ` [1-9]`. */
  function DayField(s: string): (r: Option<int>)
    requires |s| == 2
    ensures r.Some? ==> 1 <= r.value <= 31
  {
    if s[0] == '3' && '0' <= s[1] <= '1' then Some(30 + DigitValue(s[1]))
    else if '1' <= s[0] <= '2' && IsDigit(s[1]) then Some(10 * DigitValue(s[0]) + DigitValue(s[1]))
    else if (s[0] == '0' || s[0] == ' ') && '1' <= s[1] <= '9' then Some(DigitValue(s[1]))
    else None
  }

  /** The datetime constructor: rejects year 0 and days past the end of the month. */
  function MakeDate(year: Option<int>, month: Option<int>, day: Option<int>): (r: Result<DateTime>)
    requires year.Some? ==> 0 <= year.value <= 9999
    requires month.Some? ==> 1 <= month.value <= 12
    requires day.Some? ==> 1 <= day.value <= 31
    ensures r.Ok? ==> ValidDate(r.value)
    ensures r.Err? ==> r.error == DateValueError
  {
    if year.None? || month.None? || day.None? then Err(DateValueError)
    else if year.value < 1 || day.value > DaysInMonth(year.value, month.value) then Err(DateValueError)
    else Ok(DateTime(year.value, month.value, day.value))
  }

  function ParseDate(date: string): (r: Result<DateTime>)
    ensures r.Ok? ==> ValidDate(r.value)
    ensures |date| != 10 && |date| != 7 && |date| != 4 ==> r == Err(ValueError("Invalid date: " + date))
    ensures |date| == 10 || |date| == 7 || |date| == 4 ==> r.Err? ==> r.error == DateValueError
    ensures r.Ok? && |date| <= 7 ==> r.value.day == 1
    ensures r.Ok? && |date| == 4 ==> r.value.month == 1
  {
    if |date| == 10 then
      if date[4] == '-' && date[7] == '-' then
        MakeDate(YearField(date[..4]), MonthField(date[5..7]), DayField(date[8..]))
      else Err(DateValueError)
    else if |date| == 7 then
      if date[4] == '-' then MakeDate(YearField(date[..4]), MonthField(date[5..]), Some(1))
      else Err(DateValueError)
    else if |date| == 4 then
      MakeDate(YearField(date), Some(1), Some(1))
    else
      Err(ValueError("Invalid date: " + date))
  }

  // ---------------------------------------------------------------------
  // The ISO layout the three formats are prefixes of
  // ---------------------------------------------------------------------

  function DigitChar(n: int): (c: char)
    requires 0 <= n <= 9
    ensures IsDigit(c) && DigitValue(c) == n
  {
    ('0' as int + n) as char
  }

  function Pad2(n: int): (s: string)
    requires 0 <= n <= 99
    ensures |s| == 2
  {
    [DigitChar(n / 10), DigitChar(n % 10)]
  }

  function Pad4(n: int): (s: string)
    requires 0 <= n <= 9999
    ensures |s| == 4
  {
    [DigitChar(n / 1000), DigitChar(n / 100 % 10), DigitChar(n / 10 % 10), DigitChar(n % 10)]
  }

  /** YYYY-MM-DD with zero padding. */
  function IsoDate(d: DateTime): (s: string)
    requires ValidDate(d)
    ensures |s| == 10
  {
    Pad4(d.year) + "-" + Pad2(d.month) + "-" + Pad2(d.day)
  }

  lemma YearFieldOfPad4(n: int)
    requires 0 <= n <= 9999
    ensures YearField(Pad4(n)) == Some(n)
  {
    var a, b, c, d := n / 1000, n / 100 % 10, n / 10 % 10, n % 10;
    assert n / 100 == 10 * a + b;
    assert n / 10 == 10 * (n / 100) + c;
    assert n == 10 * (n / 10) + d;
  }

  lemma MonthFieldOfPad2(m: int)
    requires 1 <= m <= 12
    ensures MonthField(Pad2(m)) == Some(m)
  {
  }

  lemma DayFieldOfPad2(d: int)
    requires 1 <= d <= 31
    ensures DayField(Pad2(d)) == Some(d)
  {
  }

  /**
   * Every valid date printed as YYYY-MM-DD parses back to itself, and its
   * YYYY-MM and YYYY prefixes parse to the first of the month and of the year.
   */
  lemma ParseIsoDate(d: DateTime)
    requires ValidDate(d)
    ensures ParseDate(IsoDate(d)) == Ok(d)
    ensures ParseDate(IsoDate(d)[..7]) == Ok(DateTime(d.year, d.month, 1))
    ensures ParseDate(IsoDate(d)[..4]) == Ok(DateTime(d.year, 1, 1))
  {
    var s := IsoDate(d);
    assert s[..4] == Pad4(d.year) && s[5..7] == Pad2(d.month) && s[8..] == Pad2(d.day);
    assert s[..7][..4] == Pad4(d.year) && s[..7][5..] == Pad2(d.month);
    YearFieldOfPad4(d.year);
    MonthFieldOfPad2(d.month);
    DayFieldOfPad2(d.day);
  }

  lemma Pad4OfYearField(s: string)
    requires |s| == 4 && YearField(s).Some?
    ensures Pad4(YearField(s).value) == s
  {
    var a, b, c, d := DigitValue(s[0]), DigitValue(s[1]), DigitValue(s[2]), DigitValue(s[3]);
    var n := YearField(s).value;
    assert n == 10 * (100 * a + 10 * b + c) + d;
    assert n / 10 == 100 * a + 10 * b + c && n % 10 == d;
    assert n / 100 == 10 * a + b && n / 10 % 10 == c;
    assert n / 1000 == a && n / 100 % 10 == b;
    assert DigitChar(a) == s[0] && DigitChar(b) == s[1] && DigitChar(c) == s[2] && DigitChar(d) == s[3];
  }

  lemma Pad2OfMonthField(s: string)
    requires |s| == 2 && MonthField(s).Some?
    ensures Pad2(MonthField(s).value) == s
  {
  }

  lemma Pad2OfDayField(s: string)
    requires |s| == 2 && DayField(s).Some? && s[0] != ' '
    ensures Pad2(DayField(s).value) == s
  {
  }

  /**
   * Conversely, a full date that parses is the ISO text of its result,
   * unless its day is space-padded.
   */
  lemma IsoDateOfParsed(s: string)
    requires |s| == 10 && ParseDate(s).Ok? && s[8] != ' '
    ensures IsoDate(ParseDate(s).value) == s
  {
    Pad4OfYearField(s[..4]);
    Pad2OfMonthField(s[5..7]);
    Pad2OfDayField(s[8..]);
    assert s == s[..4] + "-" + s[5..7] + "-" + s[8..];
  }

  /** strptime's %d also takes a space before a single digit. */
  lemma SpacePaddedDay()
    ensures ParseDate("2022-01- 5") == Ok(DateTime(2022, 1, 5))
  {
  }

  /** The cases of tests/test_filters.py. */
  lemma ParseDateTestCases()
    ensures ParseDate("2022-01-01") == Ok(DateTime(2022, 1, 1))
    ensures ParseDate("2022-01") == Ok(DateTime(2022, 1, 1))
    ensures ParseDate("2022") == Ok(DateTime(2022, 1, 1))
    ensures ParseDate("2022-01-01:01:14").Err?
  {
    var d := DateTime(2022, 1, 1);
    ParseIsoDate(d);
    assert IsoDate(d) == "2022-01-01";
  }

  /** Two ways of failing besides a wrong length: an impossible day, and year zero. */
  lemma InvalidCalendarDates()
    ensures ParseDate("2023-02-29") == Err(DateValueError)
    ensures ParseDate("2024-02-29") == Ok(DateTime(2024, 2, 29))
    ensures ParseDate("0000") == Err(DateValueError)
  {
  }

  // ---------------------------------------------------------------------
  // day_suffix
  // ---------------------------------------------------------------------

  /** The English ordinal suffix: "th" for 11 to 13, otherwise by the last digit. */
  function OrdinalSuffix(n: nat): string {
    if 11 <= n % 100 <= 13 then "th"
    else if n % 10 == 1 then "st"
    else if n % 10 == 2 then "nd"
    else if n % 10 == 3 then "rd"
    else "th"
  }

  /**
   * "th" for days 4 to 20 and 24 to 30, otherwise ["st", "nd", "rd"]
   * indexed by the last digit minus one. On the days left over (1-3,
   * 21-23, 31) that index is 0, 1 or 2, so Python's negative indexing is
   * never reached.
   */
  function DaySuffix(date: DateTime): (r: string)
    requires 1 <= date.day <= 31
    ensures r == OrdinalSuffix(date.day)
    ensures r == "th" <==> (4 <= date.day <= 20 || 24 <= date.day <= 30)
  {
    if (4 <= date.day <= 20) || (24 <= date.day <= 30) then "th"
    else ["st", "nd", "rd"][date.day % 10 - 1]
  }

  /** The expectation table of tests/test_filters.py, for 1 to 31 January 2022. */
  function SuffixTable(): seq<string> {
    ["st", "nd", "rd"] + seq(17, _ => "th") + ["st", "nd", "rd"] + seq(7, _ => "th") + ["st"]
  }

  lemma DaySuffixTestTable()
    ensures |SuffixTable()| == 31
    ensures forall i :: 1 <= i <= 31 ==> DaySuffix(DateTime(2022, 1, i)) == SuffixTable()[i - 1]
  {
  }
}
