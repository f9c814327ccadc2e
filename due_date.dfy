/** `_format_due_date`: a `YYYY-MM-DD` string read with `datetime.strptime(s, "%Y-%m-%d")`
    and written back as midnight UTC in the date-time form of section 5.6 of RFC 3339
    (`dt.isoformat() + "Z"`); `None` for a string that does not parse and for `None`.

    `strptime` is modelled as CPython implements that format: one regular expression whose
    groups are `\d\d\d\d` for the year, `1[0-2]|0[1-9]|[1-9]` for the month and
    `3[01]|[12]\d|0[1-9]|[1-9]| [1-9]` for the day, which must consume the whole string,
    followed by the check that the fields name a real date of years 1 to 9999. A digit
    here is an ASCII digit: CPython's `\d` in a `str` pattern also matches the other
    Unicode decimal digits (fullwidth `２`, say), which this model rejects. */
module DueDate {
  import opened Wrappers
  import opened Text

  datatype Date = Date(year: nat, month: nat, day: nat)

  predicate IsLeapYear(y: nat) {
    y % 4 == 0 && (y % 100 != 0 || y % 400 == 0)
  }

  function DaysInMonth(y: nat, m: nat): (n: nat)
    requires 1 <= m <= 12
    ensures 28 <= n <= 31
  {
    if m == 2 then (if IsLeapYear(y) then 29 else 28)
    else if m == 4 || m == 6 || m == 9 || m == 11 then 30
    else 31
  }

  /** The dates `datetime.date` accepts. */
  predicate ValidDate(d: Date) {
    1 <= d.year <= 9999 && 1 <= d.month <= 12 && 1 <= d.day <= DaysInMonth(d.year, d.month)
  }

  predicate NonZeroDigit(c: char) {
    '1' <= c <= '9'
  }

  /** The text the `%Y` group matches. */
  predicate YearToken(t: string) {
    |t| == 4 && AllDigits(t)
  }

  /** The text the `%m` group matches. */
  predicate MonthToken(t: string) {
    (|t| == 1 && NonZeroDigit(t[0])) ||
    (|t| == 2 && ((t[0] == '1' && '0' <= t[1] <= '2') || (t[0] == '0' && NonZeroDigit(t[1]))))
  }

  /** The text the `%d` group matches, including the space-padded form `" 5"`. */
  predicate DayToken(t: string) {
    (|t| == 1 && NonZeroDigit(t[0])) ||
    (|t| == 2 && ((t[0] == '3' && (t[1] == '0' || t[1] == '1')) ||
                  ((t[0] == '1' || t[0] == '2') && IsDigit(t[1])) ||
                  (t[0] == '0' && NonZeroDigit(t[1])) ||
                  (t[0] == ' ' && NonZeroDigit(t[1]))))
  }

  /** `int(t)` of a day token; `int` skips the leading space. */
  function DayValue(t: string): nat
    requires DayToken(t)
  {
    if t[0] == ' ' then DigitValue(t[1]) else DigitsValue(t)
  }

  function MonthValue(t: string): nat
    requires MonthToken(t)
  {
    DigitsValue(t)
  }

  /** The `-` that ends the month group: the month group is one character when the
      separator follows at index 6, and two characters otherwise. */
  function MonthEnd(s: string): nat
    requires |s| > 6
  {
    if s[6] == '-' then 6 else 7
  }

  /** `datetime.strptime(s, "%Y-%m-%d")`, `None` where it raises `ValueError`. */
  function Strptime(s: string): (r: Option<Date>)
    ensures r.Some? ==> ValidDate(r.value)
  {
    if |s| < 8 || !YearToken(s[..4]) || s[4] != '-' then None
    else
      var k := MonthEnd(s);
      if s[k] != '-' || !MonthToken(s[5..k]) || !DayToken(s[k + 1..]) then None
      else
        var d := Date(DigitsValue(s[..4]), MonthValue(s[5..k]), DayValue(s[k + 1..]));
        if ValidDate(d) then Some(d) else None
  }

  /** `date.isoformat()`: `%04d-%02d-%02d`. */
  function IsoDate(d: Date): (r: string)
    requires ValidDate(d)
    ensures |r| == 10 && r[4] == '-' && r[7] == '-'
  {
    Pad4(d.year) + "-" + Pad2(d.month) + "-" + Pad2(d.day)
  }

  const MidnightUtc := "T00:00:00Z"

  /** `_format_due_date(date_str)`. */
  function FormatDueDate(dateStr: Option<string>): (r: Option<string>)
    ensures r.Some? <==> dateStr.Some? && Strptime(dateStr.value).Some?
  {
    if dateStr.None? then None
    else
      match Strptime(dateStr.value)
      case None => None
      case Some(d) => Some(IsoDate(d) + MidnightUtc)
  }

  lemma TwoDigitValue(t: string)
    requires |t| == 2 && AllDigits(t)
    ensures DigitsValue(t) == 10 * DigitValue(t[0]) + DigitValue(t[1])
  {
    DigitsValueSnoc([], t[0]);
    DigitsValueSnoc([t[0]], t[1]);
    assert [t[0]] + [t[1]] == t;
  }

  /** Three tokens the groups match, joined by `-`, parse to the date they name exactly
      when that date exists. */
  lemma {:induction false} StrptimeOfTokens(y: string, m: string, d: string)
    requires YearToken(y) && MonthToken(m) && DayToken(d)
    ensures var date := Date(DigitsValue(y), MonthValue(m), DayValue(d));
      Strptime(y + "-" + m + "-" + d) == if ValidDate(date) then Some(date) else None
  {
    var p := y + "-" + m;
    var s := p + "-" + d;
    assert p[..4] == y && p[4] == '-' && p[5..] == m;
    assert s[..|p|] == p && s[|p|] == '-' && s[|p| + 1..] == d;
    assert s[..4] == y && s[4] == '-';
    assert s[5..5 + |m|] == m by {
      assert s[5..5 + |m|] == s[..|p|][5..];
    }
    assert MonthEnd(s) == 5 + |m|;
  }

  /** Every string `Strptime` accepts is three such tokens joined by `-`. */
  lemma {:induction false} StrptimeAcceptsOnlyTokens(s: string)
    requires Strptime(s).Some?
    ensures exists y, m, d ::
      (YearToken(y) && MonthToken(m) && DayToken(d) && s == y + "-" + m + "-" + d &&
       Strptime(s) == Some(Date(DigitsValue(y), MonthValue(m), DayValue(d))))
  {
    var k := MonthEnd(s);
    var y, m, d := s[..4], s[5..k], s[k + 1..];
    assert s == y + "-" + m + "-" + d;
  }

  /** `isoformat` writes a date `strptime` reads back unchanged. */
  lemma {:induction false} StrptimeOfIsoDate(date: Date)
    requires ValidDate(date)
    ensures Strptime(IsoDate(date)) == Some(date)
  {
    var y, m, d := Pad4(date.year), Pad2(date.month), Pad2(date.day);
    TwoDigitValue(m);
    TwoDigitValue(d);
    assert MonthToken(m);
    assert DayToken(d) && DayValue(d) == date.day;
    StrptimeOfTokens(y, m, d);
  }

  /** A due date is the date it was given, zero padded, at midnight UTC: twenty characters
      ending in `T00:00:00Z`, whose date part normalises to itself. */
  lemma {:induction false} FormatDueDateShape(dateStr: string)
    ensures FormatDueDate(Some(dateStr)).Some? <==> Strptime(dateStr).Some?
    ensures FormatDueDate(Some(dateStr)).Some? ==>
      var r := FormatDueDate(Some(dateStr)).value;
      |r| == 20 && r[10..] == MidnightUtc &&
      Strptime(r[..10]) == Strptime(dateStr) &&
      FormatDueDate(Some(r[..10])) == Some(r)
  {
    match Strptime(dateStr)
    case None =>
    case Some(date) =>
      var r := IsoDate(date) + MidnightUtc;
      assert r[..10] == IsoDate(date) && r[10..] == MidnightUtc;
      StrptimeOfIsoDate(date);
  }

  /** Month 13 is rejected. */
  lemma RejectsMonth13()
    ensures FormatDueDate(Some("2025-13-01")) == None
  {
    assert !MonthToken("2025-13-01"[5..7]);
  }

  /** February 30 is rejected in every year. */
  lemma {:induction false} RejectsFebruary30(y: string)
    requires YearToken(y)
    ensures FormatDueDate(Some(y + "-02-30")) == None
  {
    StrptimeOfTokens(y, "02", "30");
    assert y + "-" + "02" + "-" + "30" == y + "-02-30";
  }

  lemma FourDigitValue(t: string)
    requires |t| == 4 && AllDigits(t)
    ensures DigitsValue(t) == 1000 * DigitValue(t[0]) + 100 * DigitValue(t[1]) + 10 * DigitValue(t[2]) + DigitValue(t[3])
  {
    TwoDigitValue(t[..2]);
    DigitsValueSnoc(t[..2], t[2]);
    assert t[..2] + [t[2]] == t[..3];
    DigitsValueSnoc(t[..3], t[3]);
    assert t[..3] + [t[3]] == t;
  }

  /** February 29 is rejected in a common year. */
  lemma {:induction false} RejectsFebruary29OfCommonYear()
    ensures FormatDueDate(Some("2023-02-29")) == None
  {
    StrptimeOfTokens("2023", "02", "29");
    assert "2023" + "-" + "02" + "-" + "29" == "2023-02-29";
    CommonYearDigits();
    TwoDigitValue("02");
    TwoDigitValue("29");
    assert !ValidDate(Date(2023, 2, 29));
  }

  lemma CommonYearDigits()
    ensures YearToken("2023") && DigitsValue("2023") == 2023 && !IsLeapYear(2023)
  {
    FourDigitValue("2023");
  }

  lemma FormatOfParsed(s: string, date: Date)
    requires Strptime(s) == Some(date)
    ensures FormatDueDate(Some(s)) == Some(IsoDate(date) + MidnightUtc)
  {
  }

  lemma {:induction false} ParsesLeapDay()
    ensures Strptime("2024-02-29") == Some(Date(2024, 2, 29))
  {
    StrptimeOfTokens("2024", "02", "29");
    assert "2024" + "-" + "02" + "-" + "29" == "2024-02-29";
    FourDigitValue("2024");
    TwoDigitValue("02");
    TwoDigitValue("29");
  }

  /** February 29 is accepted in a leap year. */
  lemma {:induction false} AcceptsFebruary29OfLeapYear()
    ensures FormatDueDate(Some("2024-02-29")) == Some("2024-02-29T00:00:00Z")
  {
    ParsesLeapDay();
    FormatOfParsed("2024-02-29", Date(2024, 2, 29));
    assert Pad4(2024) == Pad2(20) + Pad2(24) == "2024";
    assert Pad2(2) == "02" && Pad2(29) == "29";
    assert IsoDate(Date(2024, 2, 29)) + MidnightUtc == "2024-02-29T00:00:00Z";
  }

  lemma {:induction false} ParsesUnpadded()
    ensures Strptime("2025-8-5") == Some(Date(2025, 8, 5))
  {
    StrptimeOfTokens("2025", "8", "5");
    assert "2025" + "-" + "8" + "-" + "5" == "2025-8-5";
    FourDigitValue("2025");
    assert DigitsValue("8") == DigitsValue([]) * 10 + 8;
    assert DigitsValue("5") == DigitsValue([]) * 10 + 5;
  }

  /** A valid date written without padding comes out padded. */
  lemma {:induction false} PadsShortFields()
    ensures FormatDueDate(Some("2025-8-5")) == Some("2025-08-05T00:00:00Z")
  {
    ParsesUnpadded();
    FormatOfParsed("2025-8-5", Date(2025, 8, 5));
    assert Pad4(2025) == Pad2(20) + Pad2(25) == "2025";
    assert Pad2(8) == "08" && Pad2(5) == "05";
    assert IsoDate(Date(2025, 8, 5)) + MidnightUtc == "2025-08-05T00:00:00Z";
  }

  /** Trailing text is "unconverted data" and rejected. */
  lemma RejectsTrailingText()
    ensures FormatDueDate(Some("2025-08-05 ")) == None
  {
    assert !DayToken("2025-08-05 "[8..]);
  }
}
