/** Calendar dates as day numbers, and Python's `datetime.strptime(s, '%Y-%m-%d')`
    as a parser from text to day numbers. */
module Dates {
  import opened Common
  import opened Strings

  /** Why `strptime` raises `ValueError`: the text does not match the pattern
      ("time data ... does not match format"), characters follow the match
      ("unconverted data remains"), or the fields name no calendar day. */
  datatype DateError = FormatMismatch | UnconvertedData | OutOfRange

  predicate IsLeap(y: int) {
    y % 4 == 0 && (y % 100 != 0 || y % 400 == 0)
  }

  function DaysInMonth(y: int, m: int): int
    requires 1 <= m <= 12
  {
    if m == 2 then (if IsLeap(y) then 29 else 28)
    else if m == 4 || m == 6 || m == 9 || m == 11 then 30
    else 31
  }

  /** The range `datetime.date` accepts. */
  predicate ValidDate(y: int, m: int, d: int) {
    1 <= y <= 9999 && 1 <= m <= 12 && 1 <= d <= DaysInMonth(y, m)
  }

  function DaysBeforeMonth(y: int, m: int): int
    requires 1 <= m <= 12
  {
    var cumulative := [0, 31, 59, 90, 120, 151, 181, 212, 243, 273, 304, 334];
    cumulative[m - 1] + (if m > 2 && IsLeap(y) then 1 else 0)
  }

  /** `date.toordinal()`: 0001-01-01 is day 1; the difference of two day
      numbers is `(b - a).days`. */
  function Ordinal(y: int, m: int, d: int): (n: int)
    requires ValidDate(y, m, d)
    ensures n >= 1
  {
    var p := y - 1;
    p * 365 + p / 4 - p / 100 + p / 400 + DaysBeforeMonth(y, m) + d
  }

  /** A `%m` or `%d` field matched at some position: its value and the
      position just after it. */
  datatype Field = Field(value: int, end: nat)

  /** `%m` is `1[0-2]|0[1-9]|[1-9]`, tried in that order. */
  function MatchMonth(s: string, i: nat): (f: Option<Field>)
    ensures f.Some? ==> 1 <= f.value.value <= 12 && i < f.value.end <= |s|
  {
    if i + 1 < |s| && s[i] == '1' && '0' <= s[i + 1] <= '2' then Some(Field(10 + DigitValue(s[i + 1]), i + 2))
    else if i + 1 < |s| && s[i] == '0' && '1' <= s[i + 1] <= '9' then Some(Field(DigitValue(s[i + 1]), i + 2))
    else if i < |s| && '1' <= s[i] <= '9' then Some(Field(DigitValue(s[i]), i + 1))
    else None
  }

  /** `%d` is `3[01]|[12]\d|0[1-9]|[1-9]| [1-9]`, tried in that order. */
  function MatchDay(s: string, i: nat): (f: Option<Field>)
    ensures f.Some? ==> 1 <= f.value.value <= 31 && i < f.value.end <= |s|
  {
    if i + 1 < |s| && s[i] == '3' && '0' <= s[i + 1] <= '1' then Some(Field(30 + DigitValue(s[i + 1]), i + 2))
    else if i + 1 < |s| && '1' <= s[i] <= '2' && IsDigit(s[i + 1]) then Some(Field(10 * DigitValue(s[i]) + DigitValue(s[i + 1]), i + 2))
    else if i + 1 < |s| && s[i] == '0' && '1' <= s[i + 1] <= '9' then Some(Field(DigitValue(s[i + 1]), i + 2))
    else if i < |s| && '1' <= s[i] <= '9' then Some(Field(DigitValue(s[i]), i + 1))
    else if i + 1 < |s| && s[i] == ' ' && '1' <= s[i + 1] <= '9' then Some(Field(DigitValue(s[i + 1]), i + 2))
    else None
  }

  /** `datetime.strptime(s, '%Y-%m-%d')` as a day number: four year digits,
      '-', a month field, '-', a day field, nothing after, and a real date. */
  function ParseIsoDate(s: string): (r: Result<int, DateError>)
    ensures r.Ok? ==> r.value >= 1 && 8 <= |s| <= 10 && s[4] == '-'
  {
    if !(|s| >= 5 && IsDigit(s[0]) && IsDigit(s[1]) && IsDigit(s[2]) && IsDigit(s[3]) && s[4] == '-') then
      Err(FormatMismatch)
    else
      var y := 1000 * DigitValue(s[0]) + 100 * DigitValue(s[1]) + 10 * DigitValue(s[2]) + DigitValue(s[3]);
      match MatchMonth(s, 5)
      case None => Err(FormatMismatch)
      case Some(m) =>
        if !(m.end < |s| && s[m.end] == '-') then Err(FormatMismatch)
        else
          match MatchDay(s, m.end + 1)
          case None => Err(FormatMismatch)
          case Some(d) =>
            if d.end != |s| then Err(UnconvertedData)
            else if !ValidDate(y, m.value, d.value) then Err(OutOfRange)
            else Ok(Ordinal(y, m.value, d.value))
  }

  /** A parsed day number is the day number of a real date. */
  lemma ParsedIsDate(s: string)
    requires ParseIsoDate(s).Ok?
    ensures exists y, m, d :: ValidDate(y, m, d) && ParseIsoDate(s).value == Ordinal(y, m, d)
  {
  }

  function DigitChar(n: nat): (c: char)
    requires n < 10
    ensures IsDigit(c) && DigitValue(c) == n
  {
    ('0' as int + n) as char
  }

  /** `date.strftime('%Y-%m-%d')` for years from 1000 on. */
  function FormatIsoDate(y: nat, m: nat, d: nat): (s: string)
    requires 1000 <= y <= 9999 && 1 <= m <= 12 && 1 <= d <= 31
    ensures |s| == 10
  {
    [DigitChar(y / 1000), DigitChar(y / 100 % 10), DigitChar(y / 10 % 10), DigitChar(y % 10), '-',
     DigitChar(m / 10), DigitChar(m % 10), '-', DigitChar(d / 10), DigitChar(d % 10)]
  }

  /** The four digits `FormatIsoDate` writes spell the year. */
  lemma YearDigits(y: nat)
    requires 1000 <= y <= 9999
    ensures 1000 * (y / 1000) + 100 * (y / 100 % 10) + 10 * (y / 10 % 10) + y % 10 == y
  {
    var q1 := y / 10;
    var q2 := q1 / 10;
    var q3 := q2 / 10;
    assert y == 10 * q1 + y % 10;
    assert q1 == 10 * q2 + q1 % 10;
    assert q2 == 10 * q3 + q2 % 10;
    assert y / 100 == q2 && y / 1000 == q3;
  }


  /** Formatting a date and parsing it back gives the same day. */
  lemma FormatParse(y: nat, m: nat, d: nat)
    requires 1000 <= y && ValidDate(y, m, d)
    ensures ParseIsoDate(FormatIsoDate(y, m, d)) == Ok(Ordinal(y, m, d))
  {
    var s := FormatIsoDate(y, m, d);
    YearDigits(y);
    assert MatchMonth(s, 5) == Some(Field(m, 7));
    assert MatchDay(s, 8) == Some(Field(d, 10));
  }

  /** Sample inputs showing the pattern's leniency and its three errors. */
  /** `%m` and `%d` accept a single digit. */
  lemma ParseAcceptsShortFields()
    ensures ParseIsoDate("2024-1-5").Ok?
  {
    assert MatchMonth("2024-1-5", 5) == Some(Field(1, 6));
    assert MatchDay("2024-1-5", 7) == Some(Field(5, 8));
  }

  /** `%d` accepts a space before a single digit. */
  lemma ParseAcceptsSpacedDay()
    ensures ParseIsoDate("2024-01- 5") == ParseIsoDate("2024-01-05")
  {
    assert MatchDay("2024-01- 5", 8) == Some(Field(5, 10));
    assert MatchDay("2024-01-05", 8) == Some(Field(5, 10));
  }

  /** A day the month does not have is out of range. */
  lemma ParseRejectsMissingDay()
    ensures ParseIsoDate("2024-02-30") == Err(OutOfRange)
  {
    assert MatchDay("2024-02-30", 8) == Some(Field(30, 10));
  }

  /** "32" matches `%d` as "3" and leaves "2" unconverted. */
  lemma ParseLeavesUnconverted()
    ensures ParseIsoDate("2024-01-32") == Err(UnconvertedData)
  {
    assert MatchDay("2024-01-32", 8) == Some(Field(3, 9));
  }

  /** Year 0 is out of range; a two-digit year does not match `%Y`. */
  lemma ParseRejectsBadYears()
    ensures ParseIsoDate("0000-01-01") == Err(OutOfRange)
    ensures ParseIsoDate("24-01-01") == Err(FormatMismatch)
  {
    assert MatchDay("0000-01-01", 8) == Some(Field(1, 10));
  }


  /** A `strptime` format other than '%Y-%m-%d', as a partial parser to day
      numbers. */
  type DateParser = string -> Option<int>

  /** '%Y-%m-%d' as a partial parser. */
  function IsoParser(s: string): (r: Option<int>)
    ensures r.Some? <==> ParseIsoDate(s).Ok?
    ensures r.Some? ==> r.value == ParseIsoDate(s).value
  {
    match ParseIsoDate(s)
    case Ok(n) => Some(n)
    case Err(_) => None
  }

  /** Trying formats in list order and keeping the first that parses. */
  function FirstMatch<T(==)>(parsers: seq<string -> Option<T>>, s: string): (r: Option<T>)
    ensures r.None? <==> forall i | 0 <= i < |parsers| :: parsers[i](s).None?
    ensures r.Some? ==> exists i | 0 <= i < |parsers| ::
      parsers[i](s) == r && forall k | 0 <= k < i :: parsers[k](s).None?
  {
    if parsers == [] then None
    else if parsers[0](s).Some? then parsers[0](s)
    else
      var r := FirstMatch(parsers[1..], s);
      assert forall i | 1 <= i < |parsers| :: parsers[i] == parsers[1..][i - 1];
      if r.Some? then
        var i :| 0 <= i < |parsers[1..]| && parsers[1..][i](s) == r && forall k | 0 <= k < i :: parsers[1..][k](s).None?;
        assert parsers[i + 1](s) == r;
        r
      else r
  }
}
