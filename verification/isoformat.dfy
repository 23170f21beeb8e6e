/**
 * ISO 8601 text for the temporal values the JSON projection emits:
 * `date.isoformat()` (`YYYY-MM-DD`) and `datetime.isoformat()`
 * (`YYYY-MM-DDTHH:MM:SS`, then `.ffffff` when the microsecond is non-zero,
 * then `+HH:MM`/`-HH:MM` when the value carries a UTC offset).
 *
 * The parser is the inverse partner of the formatter: every valid value
 * formats to text that parses back to that value.
 */
module IsoFormat {
  import opened Options

  datatype Date = Date(year: int, month: int, day: int)

  /** `offsetMinutes` is the fixed UTC offset of an aware value; `None` for a naive one. */
  datatype DateTime = DateTime(
    date: Date,
    hour: int,
    minute: int,
    second: int,
    microsecond: int,
    offsetMinutes: Option<int>)

  predicate IsLeapYear(y: int) {
    (y % 4 == 0 && y % 100 != 0) || y % 400 == 0
  }

  function DaysInMonth(y: int, m: int): int
    requires 1 <= m <= 12
  {
    if m == 2 then (if IsLeapYear(y) then 29 else 28)
    else if m == 4 || m == 6 || m == 9 || m == 11 then 30
    else 31
  }

  /** The range of Python's `date`. */
  predicate ValidDate(d: Date) {
    && 1 <= d.year <= 9999
    && 1 <= d.month <= 12
    && 1 <= d.day <= DaysInMonth(d.year, d.month)
  }

  /** The range of Python's `datetime`, with an offset of whole minutes strictly inside one day. */
  predicate ValidDateTime(t: DateTime) {
    && ValidDate(t.date)
    && 0 <= t.hour < 24
    && 0 <= t.minute < 60
    && 0 <= t.second < 60
    && 0 <= t.microsecond < 1000000
    && (t.offsetMinutes.Some? ==> -1440 < t.offsetMinutes.value < 1440)
  }

  function Pow10(w: nat): (p: nat)
    ensures p >= 1
  {
    if w == 0 then 1 else 10 * Pow10(w - 1)
  }

  predicate IsDigit(c: char) {
    '0' <= c <= '9'
  }

  /** `n` in decimal, zero-padded to exactly `w` characters (`%0wd`). */
  function Digits(n: nat, w: nat): (s: string)
    requires n < Pow10(w)
    ensures |s| == w
    ensures forall i :: 0 <= i < |s| ==> IsDigit(s[i])
  {
    if w == 0 then ""
    else Digits(n / 10, w - 1) + [('0' as int + n % 10) as char]
  }

  /** The value of a run of decimal digits. */
  function DigitsValue(s: string): nat
    requires forall i :: 0 <= i < |s| ==> IsDigit(s[i])
  {
    if |s| == 0 then 0
    else
      assert IsDigit(s[|s| - 1]);
      10 * DigitsValue(s[..|s| - 1]) + (s[|s| - 1] as int - '0' as int)
  }

  lemma {:induction false} DigitsRoundTrip(n: nat, w: nat)
    requires n < Pow10(w)
    ensures DigitsValue(Digits(n, w)) == n
  {
    if w > 0 {
      var s := Digits(n, w);
      DigitsRoundTrip(n / 10, w - 1);
      assert s[..|s| - 1] == Digits(n / 10, w - 1);
    }
  }

  function FormatDate(d: Date): (s: string)
    requires ValidDate(d)
    ensures |s| == 10 && s[4] == '-' && s[7] == '-'
  {
    Digits(d.year, 4) + "-" + Digits(d.month, 2) + "-" + Digits(d.day, 2)
  }

  /** The `+HH:MM`/`-HH:MM` suffix; a zero offset is written `+00:00`. */
  function FormatOffset(minutes: int): (s: string)
    requires -1440 < minutes < 1440
    ensures |s| == 6 && s[3] == ':'
    ensures s[0] == (if minutes < 0 then '-' else '+')
  {
    var sign := if minutes < 0 then "-" else "+";
    var m := if minutes < 0 then -minutes else minutes;
    sign + Digits(m / 60, 2) + ":" + Digits(m % 60, 2)
  }

  /** `HH:MM:SS`. */
  function FormatTime(hour: int, minute: int, second: int): (s: string)
    requires 0 <= hour < 24 && 0 <= minute < 60 && 0 <= second < 60
    ensures |s| == 8 && s[2] == ':' && s[5] == ':'
  {
    Digits(hour, 2) + ":" + Digits(minute, 2) + ":" + Digits(second, 2)
  }

  /** What follows the seconds: the microseconds when non-zero, then the offset when aware. */
  function FormatSuffix(microsecond: int, offsetMinutes: Option<int>): (s: string)
    requires 0 <= microsecond < 1000000
    requires offsetMinutes.Some? ==> -1440 < offsetMinutes.value < 1440
  {
    var micro := if microsecond != 0 then "." + Digits(microsecond, 6) else "";
    var offset := if offsetMinutes.Some? then FormatOffset(offsetMinutes.value) else "";
    micro + offset
  }

  function FormatDateTime(t: DateTime): (s: string)
    requires ValidDateTime(t)
    ensures |s| >= 19
    ensures s[..10] == FormatDate(t.date) && s[10] == 'T'
  {
    FormatDate(t.date) + "T" + FormatTime(t.hour, t.minute, t.second)
      + FormatSuffix(t.microsecond, t.offsetMinutes)
  }

  predicate AllDigits(s: string) {
    forall i :: 0 <= i < |s| ==> IsDigit(s[i])
  }

  /** Reads a `w`-digit field starting at position `at`. */
  function Field(s: string, at: nat, w: nat): Option<nat>
    requires at + w <= |s|
  {
    if AllDigits(s[at..at + w]) then Some(DigitsValue(s[at..at + w])) else None
  }

  function ParseDate(s: string): Option<Date>
  {
    if |s| != 10 || s[4] != '-' || s[7] != '-' then None
    else
      var y, m, d := Field(s, 0, 4), Field(s, 5, 2), Field(s, 8, 2);
      if y.None? || m.None? || d.None? then None
      else Some(Date(y.value, m.value, d.value))
  }

  function ParseOffset(s: string): Option<int>
  {
    if |s| != 6 || (s[0] != '+' && s[0] != '-') || s[3] != ':' then None
    else
      var h, m := Field(s, 1, 2), Field(s, 4, 2);
      if h.None? || m.None? then None
      else
        var magnitude := h.value * 60 + m.value;
        Some(if s[0] == '-' then -magnitude else magnitude)
  }

  function ParseSuffix(rest: string): Option<(nat, Option<int>)>
  {
    var hasMicro := |rest| >= 7 && rest[0] == '.';
    var micro := if hasMicro then Field(rest, 1, 6) else Some(0);
    var tail := if hasMicro then rest[7..] else rest;
    if micro.None? then None
    else if |tail| == 0 then Some((micro.value, None))
    else
      var o := ParseOffset(tail);
      if o.None? then None else Some((micro.value, Some(o.value)))
  }

  function ParseDateTime(s: string): Option<DateTime>
  {
    if |s| < 19 || s[10] != 'T' || s[13] != ':' || s[16] != ':' then None
    else
      var date := ParseDate(s[..10]);
      var h, mi, se := Field(s, 11, 2), Field(s, 14, 2), Field(s, 17, 2);
      var suffix := ParseSuffix(s[19..]);
      if date.None? || h.None? || mi.None? || se.None? || suffix.None? then None
      else Some(DateTime(date.value, h.value, mi.value, se.value, suffix.value.0, suffix.value.1))
  }

  lemma FieldOfDigits(s: string, at: nat, n: nat, w: nat)
    requires n < Pow10(w)
    requires at + w <= |s|
    requires s[at..at + w] == Digits(n, w)
    ensures Field(s, at, w) == Some(n)
  {
    DigitsRoundTrip(n, w);
  }

  lemma DateRoundTrip(d: Date)
    requires ValidDate(d)
    ensures ParseDate(FormatDate(d)) == Some(d)
  {
    var s := FormatDate(d);
    assert s[0..4] == Digits(d.year, 4);
    assert s[5..7] == Digits(d.month, 2);
    assert s[8..10] == Digits(d.day, 2);
    FieldOfDigits(s, 0, d.year, 4);
    FieldOfDigits(s, 5, d.month, 2);
    FieldOfDigits(s, 8, d.day, 2);
  }

  lemma OffsetRoundTrip(minutes: int)
    requires -1440 < minutes < 1440
    ensures ParseOffset(FormatOffset(minutes)) == Some(minutes)
  {
    var s := FormatOffset(minutes);
    var m := if minutes < 0 then -minutes else minutes;
    assert s[1..3] == Digits(m / 60, 2);
    assert s[4..6] == Digits(m % 60, 2);
    FieldOfDigits(s, 1, m / 60, 2);
    FieldOfDigits(s, 4, m % 60, 2);
  }

  lemma SuffixRoundTrip(microsecond: int, offsetMinutes: Option<int>)
    requires 0 <= microsecond < 1000000
    requires offsetMinutes.Some? ==> -1440 < offsetMinutes.value < 1440
    ensures ParseSuffix(FormatSuffix(microsecond, offsetMinutes)) == Some((microsecond, offsetMinutes))
  {
    var rest := FormatSuffix(microsecond, offsetMinutes);
    var offset := if offsetMinutes.Some? then FormatOffset(offsetMinutes.value) else "";
    if microsecond != 0 {
      assert rest == "." + Digits(microsecond, 6) + offset;
      assert rest[1..7] == Digits(microsecond, 6);
      FieldOfDigits(rest, 1, microsecond, 6);
      assert rest[7..] == offset;
    } else {
      assert rest == offset;
    }
    if offsetMinutes.Some? {
      OffsetRoundTrip(offsetMinutes.value);
    }
  }

  lemma DateTimeRoundTrip(t: DateTime)
    requires ValidDateTime(t)
    ensures ParseDateTime(FormatDateTime(t)) == Some(t)
  {
    var s := FormatDateTime(t);
    var time := FormatTime(t.hour, t.minute, t.second);
    var suffix := FormatSuffix(t.microsecond, t.offsetMinutes);
    assert s == FormatDate(t.date) + "T" + time + suffix;
    DateRoundTrip(t.date);
    assert s[11..19] == time;
    assert s[11..13] == Digits(t.hour, 2);
    assert s[14..16] == Digits(t.minute, 2);
    assert s[17..19] == Digits(t.second, 2);
    FieldOfDigits(s, 11, t.hour, 2);
    FieldOfDigits(s, 14, t.minute, 2);
    FieldOfDigits(s, 17, t.second, 2);
    assert s[19..] == suffix;
    SuffixRoundTrip(t.microsecond, t.offsetMinutes);
  }

  lemma YearDigits()
    ensures Digits(2017, 4) == "2017"
  {
    assert Digits(2, 1) == "2";
    assert Digits(20, 2) == "20";
    assert Digits(201, 3) == "201";
  }

  /** The date the projection tests format. */
  lemma DateExample()
    ensures FormatDate(Date(2017, 1, 25)) == "2017-01-25"
  {
    YearDigits();
    assert Digits(1, 2) == "01";
    assert Digits(25, 2) == "25";
  }

  /** The datetime the projection tests format, at offset zero. */
  lemma TimeExample()
    ensures FormatTime(12, 39, 40) == "12:39:40"
  {
    assert Digits(12, 2) == "12";
    assert Digits(39, 2) == "39";
    assert Digits(40, 2) == "40";
  }

  lemma DateTimeExample()
    ensures FormatDateTime(DateTime(Date(2017, 1, 25), 12, 39, 40, 0, Some(0)))
            == "2017-01-25T12:39:40+00:00"
  {
    DateExample();
    TimeExample();
    assert FormatSuffix(0, Some(0)) == "+00:00" by {
      assert Digits(0, 2) == "00";
    }
  }
}
