/** The `datetime` values the calendar tools compute with: the query window of
    `list_events` (a naive time is read in UTC+7, a missing start is today at 00:00:01, a
    missing end is seven days after the start) and the `HH:MM` / `YYYY-MM-DD` fields sent
    to the InCard app.

    `datetime.fromisoformat` and the clock are not modelled: the parser is a parameter that
    gives a valid date-time or the text of the `ValueError` it raised, and "now" and "today"
    are parameters. The arithmetic `timedelta` performs is modelled on day numbers. */
module DateTimes {
  import opened Wrappers
  import opened Text
  import opened DueDate

  /** A `datetime.datetime`: wall-clock fields and, when it is aware, its UTC offset in
      minutes. */
  datatype DateTime = DateTime(date: Date, hour: nat, minute: nat, second: nat, micro: nat, offset: Option<int>)

  /** The offsets `datetime.timezone` accepts, in whole minutes. */
  predicate ValidOffset(o: int) {
    -1440 < o < 1440
  }

  predicate Valid(dt: DateTime) {
    ValidDate(dt.date) && dt.hour < 24 && dt.minute < 60 && dt.second < 60 && dt.micro < 1000000 &&
    (dt.offset.Some? ==> ValidOffset(dt.offset.value))
  }

  type ValidDateTime = dt: DateTime | Valid(dt) witness DateTime(Date(1, 1, 1), 0, 0, 0, 0, None)

  type CivilDate = d: Date | ValidDate(d) witness Date(1, 1, 1)

  /** `datetime.fromisoformat`: the value it builds or the text of the error it raises. */
  type IsoParser = string -> Result<ValidDateTime, string>

  /** `timezone(timedelta(hours=7))`, in minutes. */
  const VietnamOffset := 420

  const DefaultTime := "09:00"

  // ---------------------------------------------------------------- day numbers

  function DaysInYear(y: nat): nat {
    if IsLeapYear(y) then 366 else 365
  }

  /** Days from 0001-01-01 to the first of January of year `y`. */
  function DaysBeforeYear(y: nat): nat
    requires y >= 1
  {
    if y == 1 then 0 else DaysBeforeYear(y - 1) + DaysInYear(y - 1)
  }

  /** Days from the first of January of `y` to the first of month `m`. */
  function DaysBeforeMonth(y: nat, m: nat): nat
    requires 1 <= m <= 12
  {
    if m == 1 then 0 else DaysBeforeMonth(y, m - 1) + DaysInMonth(y, m - 1)
  }

  /** `date.toordinal()`: 0001-01-01 is day 1. */
  function Ordinal(d: Date): nat
    requires ValidDate(d)
  {
    DaysBeforeYear(d.year) + DaysBeforeMonth(d.year, d.month) + d.day
  }

  /** The twelve months make up the year. */
  lemma YearLength(y: nat)
    ensures DaysBeforeMonth(y, 12) + DaysInMonth(y, 12) == DaysInYear(y)
  {
    assert DaysBeforeMonth(y, 2) == 31;
    assert DaysBeforeMonth(y, 3) == 31 + DaysInMonth(y, 2);
    assert DaysBeforeMonth(y, 4) == 62 + DaysInMonth(y, 2);
    assert DaysBeforeMonth(y, 5) == 92 + DaysInMonth(y, 2);
    assert DaysBeforeMonth(y, 6) == 123 + DaysInMonth(y, 2);
    assert DaysBeforeMonth(y, 7) == 153 + DaysInMonth(y, 2);
    assert DaysBeforeMonth(y, 8) == 184 + DaysInMonth(y, 2);
    assert DaysBeforeMonth(y, 9) == 215 + DaysInMonth(y, 2);
    assert DaysBeforeMonth(y, 10) == 245 + DaysInMonth(y, 2);
    assert DaysBeforeMonth(y, 11) == 276 + DaysInMonth(y, 2);
    assert DaysBeforeMonth(y, 12) == 306 + DaysInMonth(y, 2);
  }

  /** The day after `d`; `None` after 9999-12-31, where `date + timedelta` overflows. */
  function NextDay(d: Date): (r: Option<Date>)
    requires ValidDate(d)
    ensures r.Some? ==> ValidDate(r.value) && Ordinal(r.value) == Ordinal(d) + 1
    ensures r.None? <==> d == Date(9999, 12, 31)
  {
    if d.day < DaysInMonth(d.year, d.month) then Some(Date(d.year, d.month, d.day + 1))
    else if d.month < 12 then Some(Date(d.year, d.month + 1, 1))
    else if d.year < 9999 then
      YearLength(d.year);
      Some(Date(d.year + 1, 1, 1))
    else None
  }

  /** The last day `datetime` supports. */
  const LastDate := Date(9999, 12, 31)

  /** Every month ends within its year. */
  lemma {:induction false} MonthEndsWithinYear(y: nat, m: nat)
    requires 1 <= m <= 12
    ensures DaysBeforeMonth(y, m) + DaysInMonth(y, m) <= DaysInYear(y)
    decreases 12 - m
  {
    if m == 12 {
      YearLength(y);
    } else {
      MonthEndsWithinYear(y, m + 1);
    }
  }

  /** Every supported year ends by the end of year 9999. */
  lemma {:induction false} YearEndsByLastYear(y: nat)
    requires 1 <= y <= 9999
    ensures DaysBeforeYear(y) + DaysInYear(y) <= DaysBeforeYear(9999) + DaysInYear(9999)
    decreases 9999 - y
  {
    if y < 9999 {
      YearEndsByLastYear(y + 1);
    }
  }

  /** No supported date lies after 9999-12-31. */
  lemma OrdinalAtMostLast(d: Date)
    requires ValidDate(d)
    ensures 1 <= Ordinal(d) <= Ordinal(LastDate)
  {
    MonthEndsWithinYear(d.year, d.month);
    YearEndsByLastYear(d.year);
    YearLength(9999);
  }

  /** `d + timedelta(days=n)`: the date `n` days later, `None` exactly when that leaves the
      years `datetime` supports. */
  function AddDays(d: Date, n: nat): (r: Option<Date>)
    requires ValidDate(d)
    ensures r.Some? ==> ValidDate(r.value) && Ordinal(r.value) == Ordinal(d) + n
    ensures r.None? <==> Ordinal(d) + n > Ordinal(LastDate)
    decreases n
  {
    if n == 0 then
      OrdinalAtMostLast(d);
      Some(d)
    else
      match NextDay(d)
      case None => None
      case Some(next) => AddDays(next, n - 1)
  }

  /** The day before `d`; `None` before 0001-01-01, where `date - timedelta` overflows. */
  function PrevDay(d: Date): (r: Option<Date>)
    requires ValidDate(d)
    ensures r.Some? ==> ValidDate(r.value) && Ordinal(r.value) + 1 == Ordinal(d)
    ensures r.None? <==> d == Date(1, 1, 1)
  {
    if d.day > 1 then Some(Date(d.year, d.month, d.day - 1))
    else if d.month > 1 then Some(Date(d.year, d.month - 1, DaysInMonth(d.year, d.month - 1)))
    else if d.year > 1 then
      YearLength(d.year - 1);
      Some(Date(d.year - 1, 12, 31))
    else None
  }

  /** `d - timedelta(days=n)`: the date `n` days earlier, `None` exactly when that falls
      before year 1. */
  function SubDays(d: Date, n: nat): (r: Option<Date>)
    requires ValidDate(d)
    ensures r.Some? ==> ValidDate(r.value) && Ordinal(r.value) + n == Ordinal(d)
    ensures r.None? <==> Ordinal(d) <= n
    decreases n
  {
    if n == 0 then Some(d)
    else
      match PrevDay(d)
      case None => None
      case Some(prev) => SubDays(prev, n - 1)
  }

  // ---------------------------------------------------------------- instants

  /** Seconds from 0001-01-01 00:00 to the wall-clock time, microseconds aside. */
  function WallSeconds(dt: DateTime): int
    requires ValidDate(dt.date)
  {
    Ordinal(dt.date) * 86400 + dt.hour * 3600 + dt.minute * 60 + dt.second
  }

  /** The instant an aware date-time names, as seconds on the UTC time line. */
  function Instant(dt: DateTime): int
    requires ValidDate(dt.date) && dt.offset.Some?
  {
    WallSeconds(dt) - dt.offset.value * 60
  }

  /** `d + timedelta(days=n)` for any `n`: `None` exactly when the result leaves years 1
      to 9999. */
  function ShiftDate(d: Date, n: int): (r: Option<Date>)
    requires ValidDate(d)
    ensures r.Some? ==> ValidDate(r.value) && Ordinal(r.value) == Ordinal(d) + n
    ensures r.None? <==> Ordinal(d) + n < 1 || Ordinal(d) + n > Ordinal(LastDate)
  {
    OrdinalAtMostLast(d);
    if n >= 0 then AddDays(d, n) else SubDays(d, -n)
  }

  /** `dt + timedelta(days=n)`: the same wall-clock time and zone, `n` days later (earlier
      when `n` is negative), or the text of the `OverflowError` raised outside years 1 to
      9999. */
  function PlusDays(dt: ValidDateTime, n: int): (r: Result<ValidDateTime, string>)
    ensures r.Ok? ==> WallSeconds(r.value) == WallSeconds(dt) + n * 86400
    ensures r.Ok? ==> r.value.micro == dt.micro && r.value.offset == dt.offset
    ensures r.Err? <==> Ordinal(dt.date) + n < 1 || Ordinal(dt.date) + n > Ordinal(LastDate)
    ensures r.Err? ==> r.error == "date value out of range"
  {
    match ShiftDate(dt.date, n)
    case None => Err("date value out of range")
    case Some(d) =>
      ShiftedWallSeconds(dt, d, n);
      Result.Ok(dt.(date := d))
  }

  /** Moving the date by `n` days moves the wall clock by `n` whole days. */
  lemma ShiftedWallSeconds(dt: ValidDateTime, d: Date, n: int)
    requires ValidDate(d) && Ordinal(d) == Ordinal(dt.date) + n
    ensures WallSeconds(dt.(date := d)) == WallSeconds(dt) + n * 86400
  {
  }

  /** Seven days later is 604800 seconds later on the UTC time line. */
  lemma {:induction false} PlusSevenDaysInstant(dt: ValidDateTime)
    requires dt.offset.Some? && PlusDays(dt, 7).Ok?
    ensures Instant(PlusDays(dt, 7).value) == Instant(dt) + 7 * 86400
  {
    var later := PlusDays(dt, 7).value;
    assert WallSeconds(later) == WallSeconds(dt) + 7 * 86400;
  }

  /** `dt.replace(hour=0, minute=0, second=1)`: one second into the same day, in the same
      zone; microseconds are kept. */
  function Snap(dt: ValidDateTime): (r: ValidDateTime)
    ensures r.date == dt.date && r.offset == dt.offset && r.micro == dt.micro
    ensures WallSeconds(r) == Ordinal(dt.date) * 86400 + 1
  {
    dt.(hour := 0, minute := 0, second := 1)
  }

  /** Snapping twice is snapping once, and a snapped time never lies after the day it
      started in. */
  lemma {:induction false} SnapIdempotent(dt: ValidDateTime)
    ensures Snap(Snap(dt)) == Snap(dt)
    ensures WallSeconds(Snap(dt)) <= WallSeconds(dt) + 1
  {
  }

  /** `dt.replace(tzinfo=timezone(timedelta(hours=7)))` when `dt.tzinfo is None`. */
  function AttachVietnam(dt: ValidDateTime): (r: ValidDateTime)
    ensures r.offset.Some?
    ensures dt.offset.Some? ==> r == dt
    ensures dt.offset.None? ==> r.offset == Some(VietnamOffset)
    ensures WallSeconds(r) == WallSeconds(dt) && r.date == dt.date && r.micro == dt.micro
  {
    if dt.offset.None? then dt.(offset := Some(VietnamOffset)) else dt
  }

  /** `datetime.utcnow()`: the UTC wall clock as a naive value. */
  function Naive(utcNow: ValidDateTime): (r: ValidDateTime)
    ensures r.offset.None? && WallSeconds(r) == WallSeconds(utcNow) && r.micro == utcNow.micro
  {
    utcNow.(offset := None)
  }

  /** `datetime.now(timezone(timedelta(hours=7)))`, from the wall clock of UTC+7. */
  function NowInVietnam(wallClock: ValidDateTime): (r: ValidDateTime)
    ensures r.offset == Some(VietnamOffset)
    ensures WallSeconds(r) == WallSeconds(wallClock) && r.micro == wallClock.micro
  {
    wallClock.(offset := Some(VietnamOffset))
  }

  // ---------------------------------------------------------------- isoformat

  /** Six digits, zero padded: microseconds as `isoformat` writes them. */
  function Pad6(n: nat): (r: string)
    requires n < 1000000
    ensures |r| == 6 && AllDigits(r) && DigitsValue(r) == n
  {
    var hi, mid, lo := Pad2(n / 10000), Pad2(n / 100 % 100), Pad2(n % 100);
    DigitsValueAppendPair(hi, mid);
    DigitsValueAppendPair(hi + mid, lo);
    assert n / 100 == n / 10000 * 100 + n / 100 % 100;
    hi + mid + lo
  }

  /** A UTC offset as `isoformat` writes it: `+HH:MM` or `-HH:MM`, the sign first and
      then the hours and minutes of its magnitude. */
  function OffsetText(o: int): (r: string)
    requires ValidOffset(o)
    ensures |r| == 6 && r[3] == ':'
    ensures (r[0] == '-' || r[0] == '+') && (r[0] == '-' <==> o < 0)
    ensures AllDigits(r[1..3]) && DigitsValue(r[1..3]) == (if o < 0 then -o else o) / 60
    ensures AllDigits(r[4..]) && DigitsValue(r[4..]) == (if o < 0 then -o else o) % 60
  {
    var a := if o < 0 then -o else o;
    var r := (if o < 0 then "-" else "+") + Pad2(a / 60) + ":" + Pad2(a % 60);
    assert r[1..3] == Pad2(a / 60) && r[4..] == Pad2(a % 60);
    r
  }

  /** `HH:MM`, as `strftime("%H:%M")` writes it. */
  function ClockText(dt: ValidDateTime): (r: string)
    ensures |r| == 5 && r[2] == ':'
    ensures AllDigits(r[..2]) && DigitsValue(r[..2]) == dt.hour
    ensures AllDigits(r[3..]) && DigitsValue(r[3..]) == dt.minute
  {
    var r := Pad2(dt.hour) + ":" + Pad2(dt.minute);
    assert r[..2] == Pad2(dt.hour) && r[3..] == Pad2(dt.minute);
    r
  }

  /** `dt.isoformat()`. */
  function IsoFormat(dt: ValidDateTime): string {
    var fraction := if dt.micro != 0 then "." + Pad6(dt.micro) else "";
    var zone := match dt.offset case None => "" case Some(o) => OffsetText(o);
    IsoDate(dt.date) + "T" + ClockText(dt) + ":" + Pad2(dt.second) + fraction + zone
  }

  /** What `isoformat` writes: the date, `T`, `HH:MM:SS`, `.ffffff` unless the
      microseconds are zero, and the offset when the value is aware. */
  lemma IsoFormatShape(dt: ValidDateTime)
    ensures var r := IsoFormat(dt);
      |r| == 19 + (if dt.micro != 0 then 7 else 0) + (if dt.offset.Some? then 6 else 0) &&
      r[..10] == IsoDate(dt.date) && r[10] == 'T' && r[11..16] == ClockText(dt) && r[16] == ':' &&
      (dt.offset.Some? ==> r[|r| - 6..] == OffsetText(dt.offset.value))
  {
    var fraction := if dt.micro != 0 then "." + Pad6(dt.micro) else "";
    var zone := match dt.offset case None => "" case Some(o) => OffsetText(o);
    var r := IsoDate(dt.date) + "T" + ClockText(dt) + ":" + Pad2(dt.second) + fraction + zone;
    assert r[..10] == IsoDate(dt.date) && r[11..16] == ClockText(dt);
    assert r[|r| - |zone|..] == zone;
  }

  /** The seconds follow the clock at index 17, and a non-zero fraction follows them as `.`
      and six digits. */
  lemma IsoFormatSeconds(dt: ValidDateTime)
    ensures var r := IsoFormat(dt);
      |r| >= 19 && r[17..19] == Pad2(dt.second) &&
      (dt.micro != 0 ==> |r| >= 26 && r[19] == '.' && r[20..26] == Pad6(dt.micro))
  {
    var fraction := if dt.micro != 0 then "." + Pad6(dt.micro) else "";
    var zone := match dt.offset case None => "" case Some(o) => OffsetText(o);
    var head := IsoDate(dt.date) + "T" + ClockText(dt) + ":";
    var r := head + Pad2(dt.second) + (fraction + zone);
    assert IsoFormat(dt) == r;
    assert |head| == 17;
    assert r[17..19] == Pad2(dt.second);
    if dt.micro != 0 {
      assert r[19..] == fraction + zone;
      assert r[20..26] == Pad6(dt.micro);
    }
  }

  /** A naive `isoformat` is made of digits, `-`, `T`, `:` and `.`: it holds no `Z`. */
  lemma NaiveIsoFormatHasNoZulu(dt: ValidDateTime)
    requires dt.offset.None?
    ensures 'Z' !in IsoFormat(dt)
  {
    var fraction := if dt.micro != 0 then "." + Pad6(dt.micro) else "";
    var date := Pad4(dt.date.year) + "-" + Pad2(dt.date.month) + "-" + Pad2(dt.date.day);
    var clock := Pad2(dt.hour) + ":" + Pad2(dt.minute);
    assert IsoFormat(dt) == date + "T" + clock + ":" + Pad2(dt.second) + fraction;
    assert 'Z' !in date && 'Z' !in clock && 'Z' !in Pad2(dt.second) && 'Z' !in fraction;
  }

  /** An aware `isoformat` is the naive one followed by the offset. */
  lemma IsoFormatAware(dt: ValidDateTime)
    requires dt.offset.Some?
    ensures IsoFormat(dt) == IsoFormat(dt.(offset := None)) + OffsetText(dt.offset.value)
  {
  }

  lemma OffsetTextOfUtc()
    ensures OffsetText(0) == "+00:00"
  {
    assert Pad2(0) == "00";
  }

  // ---------------------------------------------------------------- InCard fields

  /** The text `fromisoformat` is given: `s.replace('Z', '+00:00')`. */
  function UtcAsOffset(s: string): string {
    ReplaceAll(s, 'Z', "+00:00")
  }

  /** `extract_time_from_datetime(s)`: the hour and minute of the parsed value, or
      "09:00" when parsing raises. */
  function ExtractTime(s: string, parse: IsoParser): (r: string)
    ensures |r| == 5 && r[2] == ':' && AllDigits(r[..2]) && AllDigits(r[3..])
    ensures parse(UtcAsOffset(s)).Ok? ==>
      DigitsValue(r[..2]) == parse(UtcAsOffset(s)).value.hour &&
      DigitsValue(r[3..]) == parse(UtcAsOffset(s)).value.minute
    ensures parse(UtcAsOffset(s)).Err? ==> r == DefaultTime
  {
    match parse(UtcAsOffset(s))
    case Ok(dt) => ClockText(dt)
    case Err(_) => DefaultTime
  }

  /** `extract_date_from_datetime(s)`: the date of the parsed value, or `today` when
      parsing raises; either way a `YYYY-MM-DD` date that `strptime` reads back. */
  function ExtractDate(s: string, parse: IsoParser, today: CivilDate): (r: string)
    ensures |r| == 10
    ensures parse(UtcAsOffset(s)).Ok? ==> Strptime(r) == Some(parse(UtcAsOffset(s)).value.date)
    ensures parse(UtcAsOffset(s)).Err? ==> Strptime(r) == Some(today)
  {
    match parse(UtcAsOffset(s))
    case Ok(dt) => StrptimeOfIsoDate(dt.date); IsoDate(dt.date)
    case Err(_) => StrptimeOfIsoDate(today); IsoDate(today)
  }

  /** A trailing `Z` is read as the offset `+00:00`. */
  lemma {:induction false} TrailingZIsUtc(s: string, parse: IsoParser, today: CivilDate)
    requires 'Z' !in s
    ensures ExtractTime(s + "Z", parse) == ExtractTime(s + "+00:00", parse)
    ensures ExtractDate(s + "Z", parse, today) == ExtractDate(s + "+00:00", parse, today)
  {
    ReplaceAllAppend(s, "Z", 'Z', "+00:00");
    ReplaceAllAppend(s, "+00:00", 'Z', "+00:00");
    ReplaceAllAbsent(s, 'Z', "+00:00");
    ReplaceAllAbsent("+00:00", 'Z', "+00:00");
    assert ReplaceAll("Z", 'Z', "+00:00") == "+00:00";
  }

  // ---------------------------------------------------------------- list_events window

  /** The `timeMin`/`timeMax` strings of a `list_events` query and the aware values they
      were written from. */
  datatype Window = Window(timeMin: string, timeMax: string, start: ValidDateTime, end: ValidDateTime)

  /** A given start or end: parsed, and read in UTC+7 when naive. */
  function ReadAware(t: string, parse: IsoParser): (r: Result<ValidDateTime, string>)
    ensures r.Ok? ==> r.value.offset.Some?
  {
    match parse(t)
    case Err(e) => Err(e)
    case Ok(p) => Result.Ok(AttachVietnam(p))
  }

  /** The window of `list_events(start_time, end_time)`: the start (now in UTC+7 when
      missing), then the end (seven days after the unsnapped start when missing); the
      first exception raised ends the computation. */
  function WindowFor(startTime: Option<string>, endTime: Option<string>, wallClock: ValidDateTime,
                     parse: IsoParser, snapGiven: bool): Result<Window, string>
  {
    var start := if Truthy(startTime) then ReadAware(startTime.value, parse) else Result.Ok(NowInVietnam(wallClock));
    if start.Err? then Err(start.error)
    else
      var end := if Truthy(endTime) then ReadAware(endTime.value, parse) else PlusDays(start.value, 7);
      if end.Err? then Err(end.error)
      else
        var shown := if snapGiven || !Truthy(startTime) then Snap(start.value) else start.value;
        Result.Ok(Window(IsoFormat(shown), IsoFormat(end.value), start.value, end.value))
  }

  /** What the window is: both ends aware, `timeMin` written from the (snapped) start and
      `timeMax` from the end; a missing start is now in UTC+7, a missing end is exactly
      seven days after the unsnapped start; and the errors are those of the first value
      that cannot be built. */
  lemma {:induction false} WindowForMeaning(startTime: Option<string>, endTime: Option<string>,
                                            wallClock: ValidDateTime, parse: IsoParser, snapGiven: bool)
    ensures var r := WindowFor(startTime, endTime, wallClock, parse, snapGiven);
      r.Ok? ==>
        r.value.start.offset.Some? && r.value.end.offset.Some? &&
        r.value.timeMin == IsoFormat(if snapGiven || !Truthy(startTime) then Snap(r.value.start) else r.value.start) &&
        r.value.timeMax == IsoFormat(r.value.end)
    ensures var r := WindowFor(startTime, endTime, wallClock, parse, snapGiven);
      !Truthy(startTime) ==> r.Ok? ==> r.value.start == NowInVietnam(wallClock)
    ensures var r := WindowFor(startTime, endTime, wallClock, parse, snapGiven);
      Truthy(startTime) ==> match parse(startTime.value)
        case Err(e) => r == Err(e)
        case Ok(p) => r.Ok? ==> r.value.start == AttachVietnam(p)
    ensures var r := WindowFor(startTime, endTime, wallClock, parse, snapGiven);
      !Truthy(endTime) && r.Ok? ==>
        Instant(r.value.end) == Instant(r.value.start) + 7 * 86400 && r.value.end.micro == r.value.start.micro
    ensures var r := WindowFor(startTime, endTime, wallClock, parse, snapGiven);
      Truthy(endTime) && (Truthy(startTime) ==> parse(startTime.value).Ok?) ==> match parse(endTime.value)
        case Err(e) => r == Err(e)
        case Ok(p) => r.Ok? && r.value.end == AttachVietnam(p)
    ensures var r := WindowFor(startTime, endTime, wallClock, parse, snapGiven);
      !Truthy(startTime) && !Truthy(endTime) ==>
        (r.Err? <==> PlusDays(NowInVietnam(wallClock), 7).Err?) &&
        (r.Err? ==> r.error == "date value out of range")
  {
    var r := WindowFor(startTime, endTime, wallClock, parse, snapGiven);
    if r.Ok? && !Truthy(endTime) {
      PlusSevenDaysInstant(r.value.start);
    }
  }

  /** With neither end given, the window fails exactly when now is within seven days of
      the end of year 9999, and then with the `OverflowError` of the addition. */
  lemma DefaultWindowRange(startTime: Option<string>, endTime: Option<string>, wallClock: ValidDateTime,
                           parse: IsoParser, snapGiven: bool)
    requires !Truthy(startTime) && !Truthy(endTime)
    ensures WindowFor(startTime, endTime, wallClock, parse, snapGiven).Err? <==>
      Ordinal(wallClock.date) + 7 > Ordinal(LastDate)
    ensures WindowFor(startTime, endTime, wallClock, parse, snapGiven).Err? ==>
      WindowFor(startTime, endTime, wallClock, parse, snapGiven).error == "date value out of range"
  {
    var later := PlusDays(NowInVietnam(wallClock), 7);
    assert NowInVietnam(wallClock).date == wallClock.date;
    assert WindowFor(startTime, endTime, wallClock, parse, snapGiven).Err? <==> later.Err?;
  }

  /** `list_events` computing its window: `start_time` and then `end_time` reassigned to
      the `isoformat` of the values they stand for. */
  method ListWindow(startTime: Option<string>, endTime: Option<string>, wallClock: ValidDateTime,
                    parse: IsoParser, snapGiven: bool) returns (r: Result<Window, string>)
    ensures r == WindowFor(startTime, endTime, wallClock, parse, snapGiven)
  {
    var startDt: ValidDateTime;
    var timeMin: string;
    if !Truthy(startTime) {
      startDt := NowInVietnam(wallClock);
      timeMin := IsoFormat(Snap(startDt));
    } else {
      var parsed := ReadAware(startTime.value, parse);
      if parsed.Err? {
        return Err(parsed.error);
      }
      startDt := parsed.value;
      timeMin := IsoFormat(if snapGiven then Snap(startDt) else startDt);
    }
    var endDt: ValidDateTime;
    if !Truthy(endTime) {
      var later := PlusDays(startDt, 7);
      if later.Err? {
        return Err(later.error);
      }
      endDt := later.value;
    } else {
      var parsed := ReadAware(endTime.value, parse);
      if parsed.Err? {
        return Err(parsed.error);
      }
      endDt := parsed.value;
    }
    r := Result.Ok(Window(timeMin, IsoFormat(endDt), startDt, endDt));
  }
}
