/**
 * The `timestamp` of a report transaction: a `time.struct_time`, rendered with the format
 * `%Y-%m-%d %H:%M:%S %z`.
 */
module Timestamps {
  import opened Wrappers
  import opened Bytes

  /**
   * The nine fields of a `time.struct_time`, and the UTC offset in minutes that the
   * platform's `%z` prints for it (Python 2 does not keep one in the struct).
   */
  datatype TimeStruct = TimeStruct(
    year: int, month: int, day: int, hour: int, minute: int, second: int,
    weekday: int, yearday: int, isdst: int, offset: int)

  /** The fields the formatter accepts; anything else makes `strftime` raise. */
  predicate Formattable(t: TimeStruct) {
    0 <= t.year <= 9999 && 1 <= t.month <= 12 && 1 <= t.day <= 31 &&
    0 <= t.hour <= 23 && 0 <= t.minute <= 59 && 0 <= t.second <= 61 &&
    -1440 < t.offset < 1440
  }

  /** `%z`: sign, then hours and minutes of the offset, two digits each, no colon. */
  function Zone(offset: int): (r: Str)
    requires -1440 < offset < 1440
    ensures |r| == 5
  {
    var a := if offset < 0 then -offset else offset;
    [if offset < 0 then '-' else '+'] + (Padded(a / 60, 2) + Padded(a % 60, 2))
  }

  /** `%Y-%m-%d` */
  function DatePart(t: TimeStruct): (r: Str)
    requires Formattable(t)
    ensures |r| == 10
  {
    Padded(t.year, 4) + ("-" + (Padded(t.month, 2) + ("-" + Padded(t.day, 2))))
  }

  /** `%H:%M:%S` */
  function ClockPart(t: TimeStruct): (r: Str)
    requires Formattable(t)
    ensures |r| == 8
  {
    Padded(t.hour, 2) + (":" + (Padded(t.minute, 2) + (":" + Padded(t.second, 2))))
  }

  /** `time.strftime('%Y-%m-%d %H:%M:%S %z', t)`, or None where it raises. */
  function Strftime(t: TimeStruct): (r: Option<Str>)
    ensures r.Some? <==> Formattable(t)
    ensures r.Some? ==> |r.value| == 25
  {
    if Formattable(t) then Some(DatePart(t) + (" " + (ClockPart(t) + (" " + Zone(t.offset))))) else None
  }

  /** `str(t)`: the repr of a `time.struct_time`. */
  function ShowTime(t: TimeStruct): Str {
    var fields := [
      "tm_year=" + Decimal(t.year), "tm_mon=" + Decimal(t.month), "tm_mday=" + Decimal(t.day),
      "tm_hour=" + Decimal(t.hour), "tm_min=" + Decimal(t.minute), "tm_sec=" + Decimal(t.second),
      "tm_wday=" + Decimal(t.weekday), "tm_yday=" + Decimal(t.yearday), "tm_isdst=" + Decimal(t.isdst)];
    "time.struct_time(" + Join(", ", fields) + ")"
  }

  /** What a formatted timestamp says: the calendar fields and the offset. */
  datatype Moment = Moment(year: int, month: int, day: int, hour: int, minute: int, second: int, offset: int)

  /** The number written by the first `width` bytes of `s`, all digits, and what follows them. */
  function TakeNumber(s: Str, width: nat): Option<(nat, Str)> {
    if width <= |s| && forall i :: 0 <= i < width ==> IsDigit(s[i])
    then Some((DigitsValue(s[..width]), s[width..]))
    else None
  }

  /** What follows a leading `c`. */
  function Skip(s: Str, c: Byte): Option<Str> {
    if |s| > 0 && s[0] == c then Some(s[1..]) else None
  }

  /** Three two-or-more-digit numbers separated by `sep`, as in `YYYY-MM-DD` or `HH:MM:SS`. */
  function TakeTriple(s: Str, firstWidth: nat, sep: Byte): Option<(nat, nat, nat, Str)> {
    var a :- TakeNumber(s, firstWidth);
    var s1 :- Skip(a.1, sep);
    var b :- TakeNumber(s1, 2);
    var s2 :- Skip(b.1, sep);
    var c :- TakeNumber(s2, 2);
    Some((a.0, b.0, c.0, c.1))
  }

  /** `+HHMM` or `-HHMM`, which must end the string, as minutes east of UTC. */
  function TakeZone(s: Str): Option<int> {
    if |s| == 0 || (s[0] != '+' && s[0] != '-') then None
    else
      var h :- TakeNumber(s[1..], 2);
      var m :- TakeNumber(h.1, 2);
      if m.1 != [] then None
      else Some(if s[0] == '-' then -(h.0 * 60 + m.0) else h.0 * 60 + m.0)
  }

  /** Reads `YYYY-MM-DD HH:MM:SS +HHMM` back into its fields, left to right. */
  function ParseTimestamp(s: Str): Option<Moment> {
    var date :- TakeTriple(s, 4, '-');
    var s1 :- Skip(date.3, ' ');
    var clock :- TakeTriple(s1, 2, ':');
    var s2 :- Skip(clock.3, ' ');
    var zone :- TakeZone(s2);
    Some(Moment(date.0, date.1, date.2, clock.0, clock.1, clock.2, zone))
  }

  lemma TakePadded(n: nat, width: nat, rest: Str)
    requires n < Pow10(width)
    ensures TakeNumber(Padded(n, width) + rest, width) == Some((n, rest))
  {
    var s := Padded(n, width) + rest;
    assert s[..width] == Padded(n, width);
    assert s[width..] == rest;
    PaddedRoundTrip(n, width);
  }

  lemma SkipFirst(c: Byte, rest: Str)
    ensures Skip([c] + rest, c) == Some(rest)
  {
    assert ([c] + rest)[1..] == rest;
  }

  lemma TakeTriplePadded(a: nat, b: nat, c: nat, firstWidth: nat, sep: Byte, rest: Str)
    requires a < Pow10(firstWidth) && b < 100 && c < 100
    ensures TakeTriple(Padded(a, firstWidth) + ([sep] + (Padded(b, 2) + ([sep] + Padded(c, 2)))) + rest, firstWidth, sep)
            == Some((a, b, c, rest))
  {
    assert Pow10(2) == 100;
    var tail := Padded(c, 2) + rest;
    var mid := Padded(b, 2) + ([sep] + tail);
    assert Padded(a, firstWidth) + ([sep] + (Padded(b, 2) + ([sep] + Padded(c, 2)))) + rest
        == Padded(a, firstWidth) + ([sep] + mid);
    TakePadded(a, firstWidth, [sep] + mid);
    SkipFirst(sep, mid);
    TakePadded(b, 2, [sep] + tail);
    SkipFirst(sep, tail);
    TakePadded(c, 2, rest);
  }

  lemma TakeZoneOf(offset: int)
    requires -1440 < offset < 1440
    ensures TakeZone(Zone(offset)) == Some(offset)
  {
    var a := if offset < 0 then -offset else offset;
    assert Pow10(2) == 100;
    var z := Zone(offset);
    assert z[1..] == Padded(a / 60, 2) + Padded(a % 60, 2);
    TakePadded(a / 60, 2, Padded(a % 60, 2));
    TakePadded(a % 60, 2, []);
    assert Padded(a % 60, 2) + [] == Padded(a % 60, 2);
  }

  /** A formatted timestamp carries every field it was made from. */
  lemma StrftimeRoundTrip(t: TimeStruct)
    requires Formattable(t)
    ensures ParseTimestamp(Strftime(t).value) ==
            Some(Moment(t.year, t.month, t.day, t.hour, t.minute, t.second, t.offset))
  {
    var afterClock := " " + Zone(t.offset);
    var afterDate := " " + (ClockPart(t) + afterClock);
    assert Pow10(4) == 10000;
    TakeTriplePadded(t.year, t.month, t.day, 4, '-', afterDate);
    SkipFirst(' ', ClockPart(t) + afterClock);
    TakeTriplePadded(t.hour, t.minute, t.second, 2, ':', afterClock);
    SkipFirst(' ', Zone(t.offset));
    TakeZoneOf(t.offset);
  }
}
