/** The timestamps of `create_prereg` (pp_requests.py). A LibCal time such as
    `2020-08-22T20:05:00-04:00` is read with the strptime format
    `%Y-%m-%dT%H:%M:%S%z` (an RFC 3339 section 5.6 `date-time` with a numeric
    offset) and sent to PassagePoint as the integer number of seconds since
    the Unix epoch. The calendar arithmetic is Python's proleptic Gregorian
    ordinal: day 1 is 0001-01-01 and 1970-01-01 is day 719163. */
module Timestamp {
  import opened Py

  /** A parsed aware datetime; `offset` is the UTC offset in seconds. */
  datatype DateTime = DateTime(year: int, month: int, day: int,
                               hour: int, minute: int, second: int, offset: int)

  predicate IsLeap(y: int) {
    y % 4 == 0 && (y % 100 != 0 || y % 400 == 0)
  }

  function DaysInMonth(y: int, m: int): int
    requires 1 <= m <= 12
  {
    if m == 2 then (if IsLeap(y) then 29 else 28)
    else if m in {4, 6, 9, 11} then 30
    else 31
  }

  /** The datetimes Python can construct with a fixed offset. */
  predicate Valid(dt: DateTime) {
    && 1 <= dt.year <= 9999
    && 1 <= dt.month <= 12
    && 1 <= dt.day <= DaysInMonth(dt.year, dt.month)
    && 0 <= dt.hour < 24 && 0 <= dt.minute < 60 && 0 <= dt.second < 60
    && dt.offset % 60 == 0 && -86400 < dt.offset < 86400
  }

  /** Days before January 1 of year `y`. */
  function DaysBeforeYear(y: int): int {
    var p := y - 1;
    p * 365 + p / 4 - p / 100 + p / 400
  }

  /** Days in year `y` before the first day of month `m`. */
  function DaysBeforeMonth(y: int, m: int): int
    requires 1 <= m <= 12
  {
    [0, 0, 31, 59, 90, 120, 151, 181, 212, 243, 273, 304, 334][m] + if m > 2 && IsLeap(y) then 1 else 0
  }

  /** The proleptic Gregorian ordinal of a date. */
  function Ordinal(y: int, m: int, d: int): int
    requires 1 <= m <= 12
  {
    DaysBeforeYear(y) + DaysBeforeMonth(y, m) + d
  }

  const EpochOrdinal: int := 719163

  /** `int(dt.timestamp())` for an aware datetime: whole seconds since
      1970-01-01T00:00:00Z, the offset subtracted. */
  function EpochSeconds(dt: DateTime): int
    requires 1 <= dt.month <= 12
  {
    (Ordinal(dt.year, dt.month, dt.day) - EpochOrdinal) * 86400
      + dt.hour * 3600 + dt.minute * 60 + dt.second - dt.offset
  }

  // ---- the calendar counts days consecutively ----

  /** A year has 366 days exactly when it is a leap year. */
  lemma YearLength(y: int)
    ensures DaysBeforeYear(y + 1) - DaysBeforeYear(y) == if IsLeap(y) then 366 else 365
  {
    StepsOf4(y);
    StepsOf100(y);
    StepsOf400(y);
  }

  // One more multiple of 4, 100 or 400 is counted at `y` exactly when `y` is one.
  lemma StepsOf4(y: int)
    ensures y / 4 - (y - 1) / 4 == if y % 4 == 0 then 1 else 0
  {
    var q, r := y / 4, y % 4;
    assert y == 4 * q + r;
    if r == 0 { assert y - 1 == 4 * (q - 1) + 3; } else { assert y - 1 == 4 * q + (r - 1); }
  }

  lemma StepsOf100(y: int)
    ensures y / 100 - (y - 1) / 100 == if y % 100 == 0 then 1 else 0
  {
    var q, r := y / 100, y % 100;
    assert y == 100 * q + r;
    if r == 0 { assert y - 1 == 100 * (q - 1) + 99; } else { assert y - 1 == 100 * q + (r - 1); }
  }

  lemma StepsOf400(y: int)
    ensures y / 400 - (y - 1) / 400 == if y % 400 == 0 then 1 else 0
  {
    var q, r := y / 400, y % 400;
    assert y == 400 * q + r;
    if r == 0 { assert y - 1 == 400 * (q - 1) + 399; } else { assert y - 1 == 400 * q + (r - 1); }
  }

  /** The date after a valid date that is not the last of year 9999. */
  function NextDay(y: int, m: int, d: int): (int, int, int)
    requires 1 <= m <= 12 && 1 <= d <= DaysInMonth(y, m)
  {
    if d < DaysInMonth(y, m) then (y, m, d + 1)
    else if m < 12 then (y, m + 1, 1)
    else (y + 1, 1, 1)
  }

  /** Consecutive dates have consecutive ordinals, across month and year
      ends and leap days alike. */
  lemma OrdinalNextDay(y: int, m: int, d: int)
    requires 1 <= m <= 12 && 1 <= d <= DaysInMonth(y, m)
    ensures var (y', m', d') := NextDay(y, m, d);
      1 <= m' <= 12 && 1 <= d' <= DaysInMonth(y', m') && Ordinal(y', m', d') == Ordinal(y, m, d) + 1
  {
    if d == DaysInMonth(y, m) && m == 12 {
      YearLength(y);
    }
  }

  // ---- strptime ----

  function DigitValue(c: char): Option<int> {
    if '0' <= c <= '9' then Some(c as int - '0' as int) else None
  }

  /** The number written by the decimal digits `t`, if they all are digits. */
  function Number(t: string): (r: Option<int>)
    ensures r.Some? ==> 0 <= r.value
  {
    if t == [] then Some(0)
    else
      match (Number(t[..|t| - 1]), DigitValue(t[|t| - 1]))
      case (Some(hi), Some(lo)) => Some(hi * 10 + lo)
      case _ => None
  }

  /** `%Y-%m-%d` with two-digit month and day. */
  function ParseDate(t: string): Option<(int, int, int)>
    requires |t| == 10
  {
    if t[4] != '-' || t[7] != '-' then None
    else
      match (Number(t[..4]), Number(t[5..7]), Number(t[8..]))
      case (Some(y), Some(m), Some(d)) => Some((y, m, d))
      case _ => None
  }

  /** `%H:%M:%S` with two-digit fields. */
  function ParseTime(t: string): Option<(int, int, int)>
    requires |t| == 8
  {
    if t[2] != ':' || t[5] != ':' then None
    else
      match (Number(t[..2]), Number(t[3..5]), Number(t[6..]))
      case (Some(h), Some(m), Some(s)) => Some((h, m, s))
      case _ => None
  }

  /** `%z`: `Z`, or a sign, two hour digits, an optional colon and two minute
      digits (the minutes at most 59); the offset in seconds. */
  function ParseOffset(z: string): Option<int> {
    if z == "Z" then Some(0)
    else if |z| != 5 && |z| != 6 then None
    else if z[0] != '+' && z[0] != '-' then None
    else if |z| == 6 && z[3] != ':' then None
    else
      match (Number(z[1..3]), Number(z[|z| - 2..]))
      case (Some(hh), Some(mm)) =>
        if mm > 59 then None
        else
          var magnitude := (hh * 60 + mm) * 60;
          Some(if z[0] == '-' then -magnitude else magnitude)
      case _ => None
  }

  /** `datetime.strptime(s, '%Y-%m-%dT%H:%M:%S%z')` for the two-digit field
      forms: the text must match the whole format (the `T` in either case)
      and name a datetime Python can construct; ValueError otherwise. */
  function Parse(s: string): (r: Result<DateTime>)
    ensures r.Ok? ==> Valid(r.value)
    ensures r.Err? ==> r.error == ValueError
  {
    if |s| < 20 || (s[10] != 'T' && s[10] != 't') then Err(ValueError)
    else
      match (ParseDate(s[..10]), ParseTime(s[11..19]), ParseOffset(s[19..]))
      case (Some((y, mo, d)), Some((h, mi, se)), Some(off)) =>
        var dt := DateTime(y, mo, d, h, mi, se, off);
        if Valid(dt) then Ok(dt) else Err(ValueError)
      case _ => Err(ValueError)
  }

  // ---- isoformat, the inverse ----

  function Pad2(n: int): (r: string)
    requires 0 <= n < 100
    ensures |r| == 2
  {
    [DigitChar(n / 10), DigitChar(n % 10)]
  }

  function Pad4(n: int): (r: string)
    requires 0 <= n < 10000
    ensures |r| == 4
  {
    Pad2(n / 100) + Pad2(n % 100)
  }

  function FormatDate(y: int, m: int, d: int): (r: string)
    requires 0 <= y < 10000 && 0 <= m < 100 && 0 <= d < 100
    ensures |r| == 10
  {
    Pad4(y) + "-" + Pad2(m) + "-" + Pad2(d)
  }

  function FormatTime(h: int, m: int, s: int): (r: string)
    requires 0 <= h < 100 && 0 <= m < 100 && 0 <= s < 100
    ensures |r| == 8
  {
    Pad2(h) + ":" + Pad2(m) + ":" + Pad2(s)
  }

  function FormatOffset(offset: int): (r: string)
    requires -86400 < offset < 86400
    ensures |r| == 6
  {
    var a := if offset < 0 then -offset else offset;
    (if offset < 0 then "-" else "+") + Pad2(a / 3600) + ":" + Pad2(a / 60 % 60)
  }

  /** `dt.isoformat()` for a whole-second aware datetime. */
  function Format(dt: DateTime): (r: string)
    requires Valid(dt)
    ensures |r| == 25
  {
    FormatDate(dt.year, dt.month, dt.day) + "T" + FormatTime(dt.hour, dt.minute, dt.second)
      + FormatOffset(dt.offset)
  }

  lemma NumberPad2(n: int)
    requires 0 <= n < 100
    ensures Number(Pad2(n)) == Some(n)
  {
    var hi, lo := DigitChar(n / 10), DigitChar(n % 10);
    assert DigitValue(hi) == Some(n / 10) && DigitValue(lo) == Some(n % 10);
    assert Pad2(n)[..1] == [hi];
    assert [hi][..0] == [];
    assert Number([hi]) == Some(n / 10);
  }

  lemma NumberPad4(n: int)
    requires 0 <= n < 10000
    ensures Number(Pad4(n)) == Some(n)
  {
    var hi, lo := n / 100, n % 100;
    var t := Pad4(n);
    NumberPad2(hi);
    assert t[..3][..2] == Pad2(hi);
    assert t[..3] == Pad2(hi) + [DigitChar(lo / 10)];
    assert t[..4 - 1] == t[..3];
  }

  lemma ParseFormatDate(y: int, m: int, d: int)
    requires 0 <= y < 10000 && 0 <= m < 100 && 0 <= d < 100
    ensures ParseDate(FormatDate(y, m, d)) == Some((y, m, d))
  {
    var t := FormatDate(y, m, d);
    assert t[..4] == Pad4(y) && t[5..7] == Pad2(m) && t[8..] == Pad2(d);
    NumberPad4(y);
    NumberPad2(m);
    NumberPad2(d);
  }

  lemma ParseFormatTime(h: int, m: int, s: int)
    requires 0 <= h < 100 && 0 <= m < 100 && 0 <= s < 100
    ensures ParseTime(FormatTime(h, m, s)) == Some((h, m, s))
  {
    var t := FormatTime(h, m, s);
    assert t[..2] == Pad2(h) && t[3..5] == Pad2(m) && t[6..] == Pad2(s);
    NumberPad2(h);
    NumberPad2(m);
    NumberPad2(s);
  }

  lemma ParseFormatOffset(offset: int)
    requires -86400 < offset < 86400 && offset % 60 == 0
    ensures ParseOffset(FormatOffset(offset)) == Some(offset)
  {
    var a := if offset < 0 then -offset else offset;
    var z := FormatOffset(offset);
    assert z[1..3] == Pad2(a / 3600) && z[4..] == Pad2(a / 60 % 60);
    OffsetParts(a);
    NumberPad2(a / 3600);
    NumberPad2(a / 60 % 60);
  }

  /** A whole-minute offset magnitude is its hours and minutes again. */
  lemma OffsetParts(a: int)
    requires 0 <= a < 86400 && a % 60 == 0
    ensures 0 <= a / 3600 < 24 && 0 <= a / 60 % 60 < 60
    ensures (a / 3600 * 60 + a / 60 % 60) * 60 == a
  {
    assert a / 60 / 60 == a / 3600;
  }

  /** Reading back a formatted datetime gives it back. */
  lemma ParseFormat(dt: DateTime)
    requires Valid(dt)
    ensures Parse(Format(dt)) == Ok(dt)
  {
    var s := Format(dt);
    assert s[..10] == FormatDate(dt.year, dt.month, dt.day);
    assert s[11..19] == FormatTime(dt.hour, dt.minute, dt.second);
    assert s[19..] == FormatOffset(dt.offset);
    ParseFormatDate(dt.year, dt.month, dt.day);
    ParseFormatTime(dt.hour, dt.minute, dt.second);
    ParseFormatOffset(dt.offset);
  }

  /** The booking time of the client's own example, in seconds. */
  lemma EpochSecondsExample()
    ensures EpochSeconds(DateTime(2020, 8, 22, 20, 5, 0, -14400)) == 1598141100
  {
    assert DaysBeforeYear(2020) == 737424;
  }

  /** The client's own example booking time parses to what it says. */
  lemma ParseExample()
    ensures Parse("2020-08-22T20:05:00-04:00") == Ok(DateTime(2020, 8, 22, 20, 5, 0, -14400))
  {
    var dt := DateTime(2020, 8, 22, 20, 5, 0, -14400);
    assert FormatDate(2020, 8, 22) == "2020-08-22";
    assert FormatTime(20, 5, 0) == "20:05:00";
    assert FormatOffset(-14400) == "-04:00";
    assert Format(dt) == "2020-08-22T20:05:00-04:00";
    ParseFormat(dt);
  }

  /** The end time of the same booking. */
  lemma ParseExampleEnd()
    ensures Parse("2020-08-22T22:05:00-04:00") == Ok(DateTime(2020, 8, 22, 22, 5, 0, -14400))
  {
    var dt := DateTime(2020, 8, 22, 22, 5, 0, -14400);
    assert FormatDate(2020, 8, 22) == "2020-08-22";
    assert FormatTime(22, 5, 0) == "22:05:00";
    assert FormatOffset(-14400) == "-04:00";
    assert Format(dt) == "2020-08-22T22:05:00-04:00";
    ParseFormat(dt);
  }

  lemma EpochSecondsExampleEnd()
    ensures EpochSeconds(DateTime(2020, 8, 22, 22, 5, 0, -14400)) == 1598148300
  {
    assert DaysBeforeYear(2020) == 737424;
  }
}
