/**
 * Times of day, dates and instants: `datetime.time(...)` built from
 * `H:M[:S]` text (`_from_iso_time`), ISO formatting of dates and
 * date-times (`_convert_datetime`), and the clock's next-change rollover.
 * Instants are naive: integer microseconds counted from the UTC epoch.
 */
module Times {
  import opened Wrappers
  import opened Text

  datatype Time = Time(hour: int, minute: int, second: int, microsecond: int)

  /** The ranges `datetime.time` enforces. */
  predicate ValidTime(t: Time) {
    && 0 <= t.hour < 24
    && 0 <= t.minute < 60
    && 0 <= t.second < 60
    && 0 <= t.microsecond < 1000000
  }

  /** Positional argument `i` of a call, or the default 0 when it is not given. */
  function ArgOrZero(args: seq<int>, i: nat): int {
    if i < |args| then args[i] else 0
  }

  const MinCInt: int := -0x8000_0000
  const MaxCInt: int := 0x7fff_ffff

  /** The first four arguments of `datetime.time` are converted to C `int`s. */
  predicate ComponentsFit(args: seq<int>) {
    forall i :: 0 <= i < |args| && i < 4 ==> MinCInt <= args[i] <= MaxCInt
  }

  /** The time the first four arguments name, the missing ones 0. */
  function Components(args: seq<int>): Time {
    Time(ArgOrZero(args, 0), ArgOrZero(args, 1), ArgOrZero(args, 2), ArgOrZero(args, 3))
  }

  /**
   * `datetime.time(*args)` with integer arguments, as CPython's C type does
   * it: more than five arguments raise `TypeError`; then each of hour,
   * minute, second and microsecond must fit a C `int` (else
   * `OverflowError`); then the ranges are checked (else `ValueError`); and
   * only then the fifth argument, the `tzinfo`, which an integer is not
   * (`TypeError`). No argument at all is midnight.
   */
  function MakeTime(args: seq<int>): (r: Result<Time>)
    ensures r.Ok? <==> |args| <= 4 && ComponentsFit(args) && ValidTime(Components(args))
    ensures r.Ok? ==> forall i :: 0 <= i < |args| ==>
      args[i] == [r.value.hour, r.value.minute, r.value.second, r.value.microsecond][i]
    ensures r.Ok? ==> forall i :: |args| <= i < 4 ==>
      [r.value.hour, r.value.minute, r.value.second, r.value.microsecond][i] == 0
    ensures |args| == 0 ==> r == Ok(Time(0, 0, 0, 0))
    ensures |args| > 5 ==> r == Err(TypeError)
    ensures |args| <= 5 ==> (r == Err(OverflowError) <==> !ComponentsFit(args))
    ensures |args| <= 5 && ComponentsFit(args) ==> (r == Err(OutOfRange) <==> !ValidTime(Components(args)))
    ensures |args| == 5 && ComponentsFit(args) && ValidTime(Components(args)) ==> r == Err(TypeError)
  {
    if |args| > 5 then Err(TypeError)
    else if !ComponentsFit(args) then Err(OverflowError)
    else if !ValidTime(Components(args)) then Err(OutOfRange)
    else if |args| == 5 then Err(TypeError)
    else Ok(Components(args))
  }

  /** `map(int, parts)` consumed in full: the first bad literal raises. */
  function ParseInts(parts: seq<string>): (r: Result<seq<int>>)
    ensures r.Ok? <==> forall i :: 0 <= i < |parts| ==> ParseInt(parts[i]).Ok?
    ensures r.Ok? ==> (|r.value| == |parts| &&
      forall i :: 0 <= i < |parts| ==> ParseInt(parts[i]) == Ok(r.value[i]))
    ensures r.Err? ==> r.error.BadLiteral?
  {
    if parts == [] then Ok([])
    else match ParseInt(parts[0])
      case Err(e) => Err(e)
      case Ok(first) =>
        match ParseInts(parts[1..])
        case Err(e) =>
          assert exists i :: 1 <= i < |parts| && ParseInt(parts[i]).Err? by {
            var k :| 0 <= k < |parts[1..]| && ParseInt(parts[1..][k]).Err?;
            assert parts[1..][k] == parts[k + 1];
          }
          Err(e)
        case Ok(others) =>
          assert forall i :: 1 <= i < |parts| ==> parts[i] == parts[1..][i - 1];
          Ok([first] + others)
  }

  /**
   * `datetime.time(*map(int, text.split(':')))`: the conversion both
   * `_from_iso_time` and the clock decoder apply to `H:M[:S]` text.
   */
  function ParseTime(text: string): (r: Result<Time>)
    ensures r.Ok? ==> ValidTime(r.value)
    ensures r.Err? ==> IsValueError(r.error) || r.error == TypeError || r.error == OverflowError
  {
    match ParseInts(Split(text, ':'))
    case Err(e) => Err(e)
    case Ok(args) => MakeTime(args)
  }

  /** `_from_iso_time(t)`: a missing value (`None`/`NaN`) is returned as it is. */
  function FromIsoTime(t: Option<string>): (r: Result<Option<Time>>)
    ensures t.None? ==> r == Ok(None)
    ensures t.Some? && r.Ok? ==> r.value.Some? && ValidTime(r.value.value)
    ensures t.Some? ==> (r.Ok? <==> ParseTime(t.value).Ok?)
    ensures t.Some? && r.Ok? ==> r.value == Some(ParseTime(t.value).value)
    ensures t.Some? && r.Err? ==> r.error == ParseTime(t.value).error
  {
    match t
    case None => Ok(None)
    case Some(text) =>
      match ParseTime(text)
      case Err(e) => Err(e)
      case Ok(time) => Ok(Some(time))
  }

  lemma DigitsLackColon(s: string)
    requires AllDigits(s)
    ensures ':' !in s
  {
  }

  /** Numerals joined with `:` split back apart and each reads as its value. */
  lemma SplitNumerals(parts: seq<string>)
    requires |parts| >= 1
    requires forall i :: 0 <= i < |parts| ==> |parts[i]| > 0 && AllDigits(parts[i])
    ensures Split(Join(parts, [':']), ':') == parts
    ensures ParseInts(parts).Ok?
    ensures forall i :: 0 <= i < |parts| ==> ParseInts(parts).value[i] == DigitsValue(parts[i])
  {
    forall i | 0 <= i < |parts| ensures ':' !in parts[i] && ParseInt(parts[i]) == Ok(DigitsValue(parts[i])) {
      DigitsLackColon(parts[i]);
      ParseDigits(parts[i]);
    }
    SplitJoin(parts, ':');
  }

  /** Numerals joined with `:` parse to the time their values make. */
  lemma ParseJoined(parts: seq<string>, args: seq<int>)
    requires |parts| >= 1
    requires forall i :: 0 <= i < |parts| ==> |parts[i]| > 0 && AllDigits(parts[i])
    requires |args| == |parts| && forall i :: 0 <= i < |parts| ==> args[i] == DigitsValue(parts[i])
    ensures ParseTime(Join(parts, [':'])) == MakeTime(args)
  {
    SplitNumerals(parts);
    assert ParseInts(parts).value == args;
  }

  lemma JoinTwo(a: string, b: string)
    ensures Join([a, b], [':']) == a + ":" + b
  {
    assert [a, b][1..] == [b];
  }

  lemma JoinThree(a: string, b: string, c: string)
    ensures Join([a, b, c], [':']) == a + ":" + b + ":" + c
  {
    assert [a, b, c][1..] == [b, c];
    JoinTwo(b, c);
    assert Join([a, b, c], [':']) == a + [':'] + (b + [':'] + c);
    assert a + [':'] + (b + [':'] + c) == a + [':'] + b + [':'] + c;
  }

  /** `"HH:MM"`: hour and minute as written, second and microsecond 0. */
  lemma ParseHourMinute(hh: string, mm: string)
    requires |hh| > 0 && AllDigits(hh) && |mm| > 0 && AllDigits(mm)
    ensures ParseTime(hh + ":" + mm) ==
      if DigitsValue(hh) < 24 && DigitsValue(mm) < 60
      then Ok(Time(DigitsValue(hh), DigitsValue(mm), 0, 0))
      else if DigitsValue(hh) <= MaxCInt && DigitsValue(mm) <= MaxCInt then Err(OutOfRange)
      else Err(OverflowError)
  {
    JoinTwo(hh, mm);
    ParseJoined([hh, mm], [DigitsValue(hh), DigitsValue(mm)]);
    MakeTimeTwo(DigitsValue(hh), DigitsValue(mm));
  }

  /** Two arguments make an hour and a minute. */
  lemma MakeTimeTwo(h: nat, m: nat)
    ensures MakeTime([h, m]) ==
      if h < 24 && m < 60 then Ok(Time(h, m, 0, 0))
      else if h <= MaxCInt && m <= MaxCInt then Err(OutOfRange)
      else Err(OverflowError)
  {
    assert Components([h, m]) == Time(h, m, 0, 0);
  }

  /** `"HH:MM:SS"`: hour, minute and second as written, microsecond 0. */
  lemma ParseHourMinuteSecond(hh: string, mm: string, ss: string)
    requires |hh| > 0 && AllDigits(hh) && |mm| > 0 && AllDigits(mm) && |ss| > 0 && AllDigits(ss)
    ensures ParseTime(hh + ":" + mm + ":" + ss) ==
      if DigitsValue(hh) < 24 && DigitsValue(mm) < 60 && DigitsValue(ss) < 60
      then Ok(Time(DigitsValue(hh), DigitsValue(mm), DigitsValue(ss), 0))
      else if DigitsValue(hh) <= MaxCInt && DigitsValue(mm) <= MaxCInt && DigitsValue(ss) <= MaxCInt
      then Err(OutOfRange)
      else Err(OverflowError)
  {
    ParseJoinedThree(hh, mm, ss);
    MakeTimeThree(DigitsValue(hh), DigitsValue(mm), DigitsValue(ss));
  }

  lemma ParseJoinedThree(hh: string, mm: string, ss: string)
    requires |hh| > 0 && AllDigits(hh) && |mm| > 0 && AllDigits(mm) && |ss| > 0 && AllDigits(ss)
    ensures ParseTime(hh + ":" + mm + ":" + ss) == MakeTime([DigitsValue(hh), DigitsValue(mm), DigitsValue(ss)])
  {
    var parts := [hh, mm, ss];
    var args := [DigitsValue(hh), DigitsValue(mm), DigitsValue(ss)];
    forall i | 0 <= i < |parts|
      ensures |parts[i]| > 0 && AllDigits(parts[i]) && args[i] == DigitsValue(parts[i])
    {
      if i == 0 {} else if i == 1 {} else {}
    }
    ParseJoined(parts, args);
    JoinThree(hh, mm, ss);
  }

  /** Three arguments make an hour, a minute and a second, with no microseconds. */
  lemma MakeTimeThree(h: nat, m: nat, sec: nat)
    ensures MakeTime([h, m, sec]) ==
      if h < 24 && m < 60 && sec < 60 then Ok(Time(h, m, sec, 0))
      else if h <= MaxCInt && m <= MaxCInt && sec <= MaxCInt then Err(OutOfRange)
      else Err(OverflowError)
  {
    assert Components([h, m, sec]) == Time(h, m, sec, 0);
  }

  // ---------------------------------------------------------------------
  // Instants and the clock rollover

  const MicrosPerSecond: int := 1000000
  const MicrosPerDay: int := 86400 * MicrosPerSecond

  /** Microseconds since midnight. */
  function TimeOfDay(t: Time): (us: int)
    requires ValidTime(t)
    ensures 0 <= us < MicrosPerDay
  {
    ((t.hour * 60 + t.minute) * 60 + t.second) * MicrosPerSecond + t.microsecond
  }

  /** Midnight at the start of the day an instant falls on. */
  function DayStart(instant: int): (r: int)
    ensures r <= instant < r + MicrosPerDay && r % MicrosPerDay == 0
  {
    (instant / MicrosPerDay) * MicrosPerDay
  }

  /** The day containing `days * MicrosPerDay + offset` starts at `days * MicrosPerDay`. */
  lemma DayStartOf(days: int, offset: int)
    requires 0 <= offset < MicrosPerDay
    ensures DayStart(days * MicrosPerDay + offset) == days * MicrosPerDay
  {
    var x := days * MicrosPerDay + offset;
    var q := x / MicrosPerDay;
    assert q * MicrosPerDay <= x < q * MicrosPerDay + MicrosPerDay;
  }

  /**
   * The clock's next change: the snapshot's day at time of day `t`, one day
   * later when that is strictly before the snapshot. The result is the
   * first instant at or after the snapshot whose time of day is `t`.
   */
  function NextChange(snapshot: int, t: Time): (r: int)
    requires ValidTime(t)
    ensures snapshot <= r < snapshot + MicrosPerDay
    ensures r - DayStart(r) == TimeOfDay(t)
    ensures DayStart(r) == DayStart(snapshot) <==> TimeOfDay(t) >= snapshot - DayStart(snapshot)
    ensures DayStart(r) != DayStart(snapshot) ==> DayStart(r) == DayStart(snapshot) + MicrosPerDay
  {
    var k := snapshot / MicrosPerDay;
    DayStartOf(k, TimeOfDay(t));
    DayStartOf(k + 1, TimeOfDay(t));
    var sameDay := DayStart(snapshot) + TimeOfDay(t);
    if sameDay < snapshot then sameDay + MicrosPerDay else sameDay
  }

  /** No earlier instant at or after the snapshot has time of day `t`. */
  lemma NextChangeIsFirst(snapshot: int, t: Time, other: int)
    requires ValidTime(t)
    requires snapshot <= other && other - DayStart(other) == TimeOfDay(t)
    ensures NextChange(snapshot, t) <= other
  {
    var r := NextChange(snapshot, t);
  }

  // ---------------------------------------------------------------------
  // Dates and their ISO form

  datatype Date = Date(year: int, month: int, day: int)

  datatype DateTime = DateTime(date: Date, time: Time)

  predicate IsLeapYear(y: int) {
    y % 4 == 0 && (y % 100 != 0 || y % 400 == 0)
  }

  function DaysInMonth(y: int, m: int): int
    requires 1 <= m <= 12
  {
    if m == 2 then (if IsLeapYear(y) then 29 else 28)
    else if m == 4 || m == 6 || m == 9 || m == 11 then 30
    else 31
  }

  /** The ranges `datetime.date` enforces. */
  predicate ValidDate(d: Date) {
    1 <= d.year <= 9999 && 1 <= d.month <= 12 && 1 <= d.day <= DaysInMonth(d.year, d.month)
  }

  /** A date-like call argument: text, a `date`, or a naive `datetime`. */
  datatype DateLike = DateText(text: string) | OnDate(date: Date) | At(stamp: DateTime)

  predicate ValidDateLike(v: DateLike) {
    match v
    case DateText(_) => true
    case OnDate(d) => ValidDate(d)
    case At(s) => ValidDate(s.date) && ValidTime(s.time)
  }

  /** `date.isoformat()`: `YYYY-MM-DD`. */
  function IsoDate(d: Date): (s: string)
    requires ValidDate(d)
    ensures |s| == 10 && s[4] == '-' && s[7] == '-'
    ensures AllDigits(s[..4]) && DigitsValue(s[..4]) == d.year
    ensures AllDigits(s[5..7]) && DigitsValue(s[5..7]) == d.month
    ensures AllDigits(s[8..]) && DigitsValue(s[8..]) == d.day
  {
    assert Pow10(2) == 100 && Pow10(4) == 10000;
    PadWidth(d.year, 4);
    PadWidth(d.month, 2);
    PadWidth(d.day, 2);
    var s := Pad(d.year, 4) + "-" + Pad(d.month, 2) + "-" + Pad(d.day, 2);
    assert s[..4] == Pad(d.year, 4);
    assert s[5..7] == Pad(d.month, 2);
    assert s[8..] == Pad(d.day, 2);
    s
  }

  /** The time part of `datetime.isoformat()`: `HH:MM:SS`, then `.ffffff` if there are microseconds. */
  function IsoTime(t: Time): (s: string)
    requires ValidTime(t)
    ensures |s| == (if t.microsecond == 0 then 8 else 15) && s[2] == ':' && s[5] == ':'
    ensures AllDigits(s[..2]) && DigitsValue(s[..2]) == t.hour
    ensures AllDigits(s[3..5]) && DigitsValue(s[3..5]) == t.minute
    ensures AllDigits(s[6..8]) && DigitsValue(s[6..8]) == t.second
    ensures t.microsecond != 0 ==> s[8] == '.' && AllDigits(s[9..]) && DigitsValue(s[9..]) == t.microsecond
  {
    ClockFaceShape(t);
    var whole := Pad(t.hour, 2) + ":" + Pad(t.minute, 2) + ":" + Pad(t.second, 2);
    if t.microsecond == 0 then whole
    else
      FractionShape(whole, t.microsecond);
      whole + "." + Pad(t.microsecond, 6)
  }

  /** `HH:MM:SS`: three two-digit fields at fixed places. */
  lemma ClockFaceShape(t: Time)
    requires ValidTime(t)
    ensures var w := Pad(t.hour, 2) + ":" + Pad(t.minute, 2) + ":" + Pad(t.second, 2);
      |w| == 8 && w[2] == ':' && w[5] == ':'
      && w[..2] == Pad(t.hour, 2) && w[3..5] == Pad(t.minute, 2) && w[6..8] == Pad(t.second, 2)
  {
    assert Pow10(2) == 100;
    PadWidth(t.hour, 2);
    PadWidth(t.minute, 2);
    PadWidth(t.second, 2);
  }

  /** Appending `.ffffff` keeps the first eight characters in place. */
  lemma FractionShape(w: string, n: nat)
    requires |w| == 8 && n < 1000000
    ensures var s := w + "." + Pad(n, 6);
      |s| == 15 && s[..8] == w && s[8] == '.' && s[9..] == Pad(n, 6)
      && s[..2] == w[..2] && s[3..5] == w[3..5] && s[6..8] == w[6..8] && s[2] == w[2] && s[5] == w[5]
  {
    assert Pow10(6) == 1000000;
    PadWidth(n, 6);
  }

  function Pow10(k: nat): nat {
    if k == 0 then 1 else 10 * Pow10(k - 1)
  }

  lemma {:induction false} NatStringLength(n: nat, k: nat)
    requires 1 <= k && n < Pow10(k)
    ensures |NatString(n)| <= k
  {
    if n >= 10 {
      NatStringLength(n / 10, k - 1);
    }
  }

  lemma PadWidth(n: nat, k: nat)
    requires 1 <= k && n < Pow10(k)
    ensures |Pad(n, k)| == k
  {
    NatStringLength(n, k);
  }

  /** A reference reader of `YYYY-MM-DD`, independent of the formatter. */
  function ParseIsoDate(s: string): Option<Date> {
    if |s| == 10 && s[4] == '-' && s[7] == '-'
       && AllDigits(s[..4]) && AllDigits(s[5..7]) && AllDigits(s[8..])
    then Some(Date(DigitsValue(s[..4]), DigitsValue(s[5..7]), DigitsValue(s[8..])))
    else None
  }

  /** Reading back the ISO form of a date gives the date. */
  lemma IsoDateRoundTrip(d: Date)
    requires ValidDate(d)
    ensures ParseIsoDate(IsoDate(d)) == Some(d)
  {
    assert Pow10(2) == 100 && Pow10(4) == 10000;
    PadWidth(d.year, 4);
    PadWidth(d.month, 2);
    PadWidth(d.day, 2);
    var s := IsoDate(d);
    assert s[..4] == Pad(d.year, 4);
    assert s[5..7] == Pad(d.month, 2);
    assert s[8..] == Pad(d.day, 2);
  }

  /** Reading back the ISO form of a whole-second time with `ParseTime` gives the time. */
  lemma IsoTimeRoundTrip(t: Time)
    requires ValidTime(t) && t.microsecond == 0
    ensures ParseTime(IsoTime(t)) == Ok(t)
  {
    assert Pow10(2) == 100;
    PadWidth(t.hour, 2);
    PadWidth(t.minute, 2);
    PadWidth(t.second, 2);
    assert IsoTime(t) == Pad(t.hour, 2) + ":" + Pad(t.minute, 2) + ":" + Pad(t.second, 2);
    ParseHourMinuteSecond(Pad(t.hour, 2), Pad(t.minute, 2), Pad(t.second, 2));
  }

  /**
   * `_convert_datetime(v)`: text passes through unchanged; a date becomes
   * `YYYY-MM-DD`; a date-time becomes that, `T`, and its ISO time.
   */
  function ConvertDatetime(v: DateLike): (r: string)
    requires ValidDateLike(v)
    ensures v.DateText? ==> r == v.text
    ensures v.OnDate? ==> ParseIsoDate(r) == Some(v.date)
    ensures v.At? ==> |r| >= 19 && ParseIsoDate(r[..10]) == Some(v.stamp.date) && r[10] == 'T'
    ensures v.At? && v.stamp.time.microsecond == 0 ==> ParseTime(r[11..]) == Ok(v.stamp.time)
  {
    match v
    case DateText(text) => text
    case OnDate(d) =>
      IsoDateRoundTrip(d);
      IsoDate(d)
    case At(stamp) =>
      IsoDateRoundTrip(stamp.date);
      IsoDateTimeShape(stamp.date, stamp.time);
      assert stamp.time.microsecond == 0 ==> ParseTime(IsoTime(stamp.time)) == Ok(stamp.time) by {
        if stamp.time.microsecond == 0 { IsoTimeRoundTrip(stamp.time); }
      }
      IsoDate(stamp.date) + "T" + IsoTime(stamp.time)
  }

  /** `YYYY-MM-DD` is ten characters and `HH:MM:SS[.ffffff]` at least eight. */
  lemma IsoLengths(d: Date, t: Time)
    requires ValidDate(d) && ValidTime(t)
    ensures |IsoDate(d)| == 10 && |IsoTime(t)| >= 8
  {
    assert Pow10(2) == 100 && Pow10(4) == 10000;
    PadWidth(d.year, 4);
    PadWidth(d.month, 2);
    PadWidth(d.day, 2);
    PadWidth(t.hour, 2);
    PadWidth(t.minute, 2);
    PadWidth(t.second, 2);
  }

  /** Where the date, the `T` and the time sit in a date-time's ISO form. */
  lemma IsoDateTimeShape(d: Date, t: Time)
    requires ValidDate(d) && ValidTime(t)
    ensures var r := IsoDate(d) + "T" + IsoTime(t);
      |r| >= 19 && r[..10] == IsoDate(d) && r[10] == 'T' && r[11..] == IsoTime(t)
  {
    IsoLengths(d, t);
  }
}
