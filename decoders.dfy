/**
 * The response decoders, up to the point where the source hands records
 * to pandas: the wrapper lookup, the single-record-versus-list
 * normalisation, the clock's next-change arithmetic and the calendar's
 * per-session time ranges and year/month.
 */
module Decoders {
  import opened Wrappers
  import opened JsonValues
  import opened Times
  import opened Text

  const FrameMessage: string := "DataFrame constructor not properly called!"

  /**
   * The records `pd.DataFrame(x)` builds rows from: the items of a list. A
   * bare string (a sequence `_ensure_list` leaves alone) is refused.
   */
  function Rows(x: Json): (r: Result<seq<Json>>)
    ensures x.JArray? <==> r.Ok?
    ensures r.Ok? ==> r.value == x.items
  {
    if x.JArray? then Ok(x.items) else Err(ValueError(FrameMessage))
  }

  /**
   * The first step of every tabular decoder: `body.get(wrapper)`, `None` if
   * that is missing or null, else the records of `_ensure_list(response[inner])`.
   */
  function Table(body: Json, wrapper: string, inner: string): (r: Result<Option<seq<Json>>>)
    ensures body.JObject? && (wrapper !in body.fields || body.fields[wrapper] == JNull) ==> r == Ok(None)
    ensures r == Ok(None) ==> body.JObject? && (wrapper !in body.fields || body.fields[wrapper] == JNull)
    ensures !body.JObject? ==> r == Err(AttributeError)
    ensures body.JObject? && wrapper in body.fields && body.fields[wrapper].JObject? && inner in body.fields[wrapper].fields ==>
      var v := body.fields[wrapper].fields[inner];
      (v.JArray? ==> r == Ok(Some(v.items))) && (v.JObject? ==> r == Ok(Some([v])))
  {
    var response :- Get(body, wrapper);
    match response
    case None => Ok(None)
    case Some(wrapped) =>
      var item :- Index(wrapped, inner);
      var rows :- Rows(EnsureList(item));
      Ok(Some(rows))
  }

  /** The body of a reply holding `records` under `wrapper` and then `inner`. */
  function Wrapped(wrapper: string, inner: string, records: Json): Json {
    JObject(map[wrapper := JObject(map[inner := records])])
  }

  /**
   * A single matching record sent bare decodes to exactly what a
   * one-element list holding it decodes to: one row.
   */
  lemma SingleRecordOneRow(wrapper: string, inner: string, record: map<string, Json>)
    ensures Table(Wrapped(wrapper, inner, JObject(record)), wrapper, inner) ==
            Table(Wrapped(wrapper, inner, JArray([JObject(record)])), wrapper, inner)
    ensures Table(Wrapped(wrapper, inner, JObject(record)), wrapper, inner) == Ok(Some([JObject(record)]))
  {
  }

  /**
   * A missing or null wrapper is "no data", which differs from a wrapper
   * holding an empty list: that is an empty table.
   */
  lemma NoDataIsNotEmpty(wrapper: string, inner: string)
    ensures Table(JObject(map[]), wrapper, inner) == Ok(None)
    ensures Table(JObject(map[wrapper := JNull]), wrapper, inner) == Ok(None)
    ensures Table(Wrapped(wrapper, inner, JArray([])), wrapper, inner) == Ok(Some([]))
  {
  }

  /** `body.get(wrapper)`, then `response[inner]`, for the decoders that return a series. */
  function Series(body: Json, wrapper: string, inner: string): (r: Result<Option<Json>>)
    ensures r == Ok(None) <==> body.JObject? && (wrapper !in body.fields || body.fields[wrapper] == JNull)
    ensures r.Ok? && r.value.Some? ==>
      body.JObject? && wrapper in body.fields && body.fields[wrapper].JObject? &&
      inner in body.fields[wrapper].fields && r.value.value == body.fields[wrapper].fields[inner]
  {
    var response :- Get(body, wrapper);
    match response
    case None => Ok(None)
    case Some(wrapped) =>
      var item :- Index(wrapped, inner);
      Ok(Some(item))
  }

  // ---------------------------------------------------------------------
  // clock

  /**
   * The clock snapshot. `nextState` is copied from the response's `state`,
   * as the source does.
   */
  datatype Clock = Clock(date: int, description: Json, nextChange: int, nextState: Json, state: Json)

  /** `response['timestamp'] * 1e9` read as nanoseconds, as microseconds: whole seconds only. */
  function SnapshotInstant(v: Json): (r: Result<int>)
    ensures v.JInt? ==> r == Ok(v.i * MicrosPerSecond)
    ensures (v.JStr? || v.JNull? || v.JArray? || v.JObject?) ==> r == Err(TypeError)
  {
    match v
    case JInt(seconds) => Ok(seconds * MicrosPerSecond)
    case JBool(b) => Ok(if b then MicrosPerSecond else 0)
    case _ => Err(TypeError)
  }

  /** `v.split(':')` needs text; anything else has no `split`. */
  function TimeText(v: Json): (r: Result<string>)
    ensures r.Ok? <==> v.JStr?
    ensures r.Ok? ==> r.value == v.s
    ensures r.Err? ==> r.error == AttributeError
  {
    if v.JStr? then Ok(v.s) else Err(AttributeError)
  }

  /**
   * The clock record: the snapshot instant, the next change rolled past the
   * snapshot, the description, and the state (twice).
   */
  function ClockOf(clock: Json): (r: Result<Clock>)
    ensures r.Ok? ==>
      var c := r.value;
      c.date <= c.nextChange < c.date + MicrosPerDay && c.nextState == c.state
    ensures r.Ok? ==> clock.JObject? && "state" in clock.fields && r.value.state == clock.fields["state"]
    ensures r.Ok? ==> "timestamp" in clock.fields && SnapshotInstant(clock.fields["timestamp"]) == Ok(r.value.date)
    ensures r.Ok? ==>
      && "next_change" in clock.fields && clock.fields["next_change"].JStr?
      && ParseTime(clock.fields["next_change"].s).Ok?
      && r.value.nextChange == NextChange(r.value.date, ParseTime(clock.fields["next_change"].s).value)
    ensures r.Ok? ==> "description" in clock.fields && r.value.description == clock.fields["description"]
    ensures WellFormedClock(clock) ==> r.Ok?
    ensures !clock.JObject? ==> r == Err(TypeError)
    ensures clock.JObject? && "timestamp" !in clock.fields ==> r == Err(KeyError("timestamp"))
  {
    var stamp :- Index(clock, "timestamp");
    var date :- SnapshotInstant(stamp);
    var changeValue :- Index(clock, "next_change");
    var changeText :- TimeText(changeValue);
    var nextTime :- ParseTime(changeText);
    var description :- Index(clock, "description");
    var state :- Index(clock, "state");
    Ok(Clock(date, description, NextChange(date, nextTime), state, state))
  }

  /**
   * A record the clock decoder accepts: an object with the four keys it reads,
   * a numeric `timestamp` and a `next_change` text that parses as a time.
   */
  predicate WellFormedClock(clock: Json) {
    && clock.JObject?
    && "timestamp" in clock.fields && SnapshotInstant(clock.fields["timestamp"]).Ok?
    && "next_change" in clock.fields && clock.fields["next_change"].JStr?
    && ParseTime(clock.fields["next_change"].s).Ok?
    && "description" in clock.fields && "state" in clock.fields
  }

  /** The clock decoder: no data when `clock` is missing or null, else the decoded record. */
  function DecodeClock(body: Json): (r: Result<Option<Clock>>)
    ensures r == Ok(None) <==> body.JObject? && (!("clock" in body.fields) || body.fields["clock"] == JNull)
    ensures r.Ok? && r.value.Some? ==>
      var c := r.value.value;
      c.date <= c.nextChange < c.date + MicrosPerDay && c.nextState == c.state
    ensures r.Ok? && r.value.Some? ==>
      body.JObject? && "clock" in body.fields && ClockOf(body.fields["clock"]) == Ok(r.value.value)
    ensures body.JObject? && "clock" in body.fields && body.fields["clock"] != JNull ==>
      r == (match ClockOf(body.fields["clock"]) case Ok(c) => Ok(Some(c)) case Err(e) => Err(e))
  {
    var response :- Get(body, "clock");
    match response
    case None => Ok(None)
    case Some(clock) =>
      var c :- ClockOf(clock);
      Ok(Some(c))
  }

  /** A clock record as the API sends it. */
  function ClockRecord(timestamp: int, nextChange: string, description: Json, state: Json, nextState: Json): Json {
    JObject(map[
      "timestamp" := JInt(timestamp), "next_change" := JStr(nextChange),
      "description" := description, "state" := state, "next_state" := nextState])
  }

  /** A clock body as the API sends it. */
  function ClockBody(timestamp: int, nextChange: string, description: Json, state: Json, nextState: Json): Json {
    JObject(map["clock" := ClockRecord(timestamp, nextChange, description, state, nextState)])
  }

  /**
   * Any object holding an integer `timestamp`, a `next_change` text that
   * parses, a `description` and a `state` decodes to the snapshot, its
   * rolled-over next change, the description, and the state twice; other
   * keys are ignored.
   */
  lemma ClockOfRecord(clock: Json, timestamp: int, text: string, t: Time)
    requires clock.JObject? && "timestamp" in clock.fields && clock.fields["timestamp"] == JInt(timestamp)
    requires "next_change" in clock.fields && clock.fields["next_change"] == JStr(text) && ParseTime(text) == Ok(t)
    requires "description" in clock.fields && "state" in clock.fields
    ensures ClockOf(clock) ==
      Ok(Clock(timestamp * MicrosPerSecond, clock.fields["description"], NextChange(timestamp * MicrosPerSecond, t),
               clock.fields["state"], clock.fields["state"]))
  {
    assert Index(clock, "timestamp") == Ok(JInt(timestamp));
    assert Index(clock, "next_change") == Ok(JStr(text));
    assert Index(clock, "description") == Ok(clock.fields["description"]);
    assert Index(clock, "state") == Ok(clock.fields["state"]);
  }

  /** A well-formed clock body decodes to the snapshot, its rolled-over next change, and the state twice. */
  lemma DecodeClockBody(timestamp: int, nextChange: string, t: Time, description: Json, state: Json, nextState: Json)
    requires ParseTime(nextChange) == Ok(t)
    ensures DecodeClock(ClockBody(timestamp, nextChange, description, state, nextState)) ==
      Ok(Some(Clock(timestamp * MicrosPerSecond, description,
                    NextChange(timestamp * MicrosPerSecond, t), state, state)))
  {
    var record := ClockRecord(timestamp, nextChange, description, state, nextState);
    assert Get(ClockBody(timestamp, nextChange, description, state, nextState), "clock") == Ok(Some(record));
    assert record.fields["timestamp"] == JInt(timestamp) && record.fields["next_change"] == JStr(nextChange);
    ClockOfRecord(record, timestamp, nextChange, t);
  }

  /**
   * The decoded next state is the current `state`, whatever `next_state`
   * the response carries.
   */
  lemma ClockNextStateIsState(timestamp: int, nextChange: string, description: Json, state: Json, nextState: Json)
    requires ParseTime(nextChange).Ok?
    ensures DecodeClock(ClockBody(timestamp, nextChange, description, state, nextState)).Ok?
    ensures DecodeClock(ClockBody(timestamp, nextChange, description, state, nextState)).value.value.nextState == state
  {
    DecodeClockBody(timestamp, nextChange, ParseTime(nextChange).value, description, state, nextState);
  }

  /** 2024-01-01T00:00:00 in seconds since the epoch. */
  const NewYear2024: int := 1704067200

  lemma ParseSixteenAndMidnight()
    ensures ParseTime("16:00:00") == Ok(Time(16, 0, 0, 0))
    ensures ParseTime("00:00:00") == Ok(Time(0, 0, 0, 0))
  {
    assert "16" + ":" + "00" + ":" + "00" == "16:00:00";
    assert "00" + ":" + "00" + ":" + "00" == "00:00:00";
    assert "00"[..1] == "0" && "16"[..1] == "1";
    assert DigitsValue("16") == 16 && DigitsValue("00") == 0;
    ParseHourMinuteSecond("16", "00", "00");
    ParseHourMinuteSecond("00", "00", "00");
  }

  /** The two rollover cases at 2024-01-01: 15:59:00 to 16:00:00, and 23:59:00 to midnight. */
  lemma NextChangeExamples()
    ensures NextChange((NewYear2024 + 57540) * MicrosPerSecond, Time(16, 0, 0, 0)) == (NewYear2024 + 57600) * MicrosPerSecond
    ensures NextChange((NewYear2024 + 86340) * MicrosPerSecond, Time(0, 0, 0, 0)) == (NewYear2024 + 86400) * MicrosPerSecond
  {
    assert NewYear2024 * MicrosPerSecond == 19723 * MicrosPerDay;
    DayStartOf(19723, 57540 * MicrosPerSecond);
    DayStartOf(19723, 86340 * MicrosPerSecond);
  }

  /** 15:59:00 with the next change at 16:00:00: the change is the same day, a minute later. */
  lemma ClockSameDay(description: Json, state: Json, nextState: Json)
    ensures DecodeClock(ClockBody(NewYear2024 + 57540, "16:00:00", description, state, nextState)) ==
      Ok(Some(Clock((NewYear2024 + 57540) * MicrosPerSecond, description,
                    (NewYear2024 + 57600) * MicrosPerSecond, state, state)))
  {
    ParseSixteenAndMidnight();
    DecodeClockBody(NewYear2024 + 57540, "16:00:00", Time(16, 0, 0, 0), description, state, nextState);
    NextChangeExamples();
  }

  /** 23:59:00 with the next change at 00:00:00: the change rolls over to 2024-01-02T00:00:00. */
  lemma ClockRollsOverMidnight(description: Json, state: Json, nextState: Json)
    ensures DecodeClock(ClockBody(NewYear2024 + 86340, "00:00:00", description, state, nextState)) ==
      Ok(Some(Clock((NewYear2024 + 86340) * MicrosPerSecond, description,
                    (NewYear2024 + 86400) * MicrosPerSecond, state, state)))
  {
    ParseSixteenAndMidnight();
    DecodeClockBody(NewYear2024 + 86340, "00:00:00", Time(0, 0, 0, 0), description, state, nextState);
    NextChangeExamples();
  }

  // ---------------------------------------------------------------------
  // calendar

  /** A session's opening hours; either end may be missing upstream. */
  datatype TimeRange = TimeRange(start: Option<Time>, end: Option<Time>)

  /** One trading day: its record, and each session's hours or "absent". */
  datatype CalendarDay = CalendarDay(record: Json, premarket: Option<TimeRange>, open: Option<TimeRange>, postmarket: Option<TimeRange>)

  datatype Calendar = Calendar(days: seq<CalendarDay>, year: Option<int>, month: Option<int>)

  /** `_from_iso_time(v)` on a decoded value: null is missing; text is parsed; anything else has no `split`. */
  function IsoTimeOf(v: Json): (r: Result<Option<Time>>)
    ensures v.JNull? ==> r == Ok(None)
    ensures v.JStr? ==> r == FromIsoTime(Some(v.s))
    ensures r.Ok? && r.value.Some? ==> ValidTime(r.value.value)
    ensures !v.JNull? && !v.JStr? ==> r == Err(AttributeError)
  {
    match v
    case JNull => Ok(None)
    case JStr(s) => FromIsoTime(Some(s))
    case _ => Err(AttributeError)
  }

  /** The cell of `key` in a row: `None` where pandas fills in NaN. */
  function Cell(row: Json, key: string): Option<Json> {
    if row.JObject? && key in row.fields then Some(row.fields[key]) else None
  }

  predicate Absent(cell: Option<Json>) {
    cell.None? || cell == Some(JNull)
  }

  /**
   * `to_time_range(value)`: a missing or null session is absent (neither an
   * error nor a zero range); an object is decoded from its `start` and `end`.
   */
  function ToTimeRange(cell: Option<Json>): (r: Result<Option<TimeRange>>)
    ensures Absent(cell) ==> r == Ok(None)
    ensures !Absent(cell) && r.Ok? ==>
      r.value.Some? && cell.value.JObject? && "start" in cell.value.fields && "end" in cell.value.fields
    ensures !Absent(cell) && r.Ok? ==>
      && (r.value.value.start.None? <==> cell.value.fields["start"] == JNull)
      && (r.value.value.end.None? <==> cell.value.fields["end"] == JNull)
    ensures !Absent(cell) && r.Ok? ==>
      && IsoTimeOf(cell.value.fields["start"]) == Ok(r.value.value.start)
      && IsoTimeOf(cell.value.fields["end"]) == Ok(r.value.value.end)
    ensures !Absent(cell) && !cell.value.JObject? ==> r == Err(TypeError)
    ensures !Absent(cell) && cell.value.JObject? && "start" !in cell.value.fields ==> r == Err(KeyError("start"))
  {
    if Absent(cell) then Ok(None)
    else
      var startValue :- Index(cell.value, "start");
      var start :- IsoTimeOf(startValue);
      var endValue :- Index(cell.value, "end");
      var end :- IsoTimeOf(endValue);
      Ok(Some(TimeRange(start, end)))
  }

  /** A row has the column when its record has the key; pandas raises `KeyError` when no row has it. */
  predicate HasColumn(rows: seq<Json>, key: string) {
    exists i :: 0 <= i < |rows| && Cell(rows[i], key).Some?
  }

  /** `ToTimeRange` on every row, in order; the first error raises. */
  function RangesOf(rows: seq<Json>, key: string): (r: Result<seq<Option<TimeRange>>>)
    ensures r.Ok? ==> |r.value| == |rows|
    ensures r.Ok? ==> forall i :: 0 <= i < |rows| ==> ToTimeRange(Cell(rows[i], key)) == Ok(r.value[i])
    ensures r.Err? ==> exists i :: 0 <= i < |rows| && ToTimeRange(Cell(rows[i], key)).Err?
  {
    if rows == [] then Ok([])
    else
      var first :- ToTimeRange(Cell(rows[0], key));
      var others :- RangesOf(rows[1..], key);
      assert forall i :: 1 <= i < |rows| ==> rows[i] == rows[1..][i - 1];
      Ok([first] + others)
  }

  /** `days[key].apply(to_time_range)`. */
  function DecodeColumn(rows: seq<Json>, key: string): (r: Result<seq<Option<TimeRange>>>)
    ensures !HasColumn(rows, key) ==> r == Err(KeyError(key))
    ensures r.Ok? ==> |r.value| == |rows|
    ensures r.Ok? ==> forall i :: 0 <= i < |rows| ==> ToTimeRange(Cell(rows[i], key)) == Ok(r.value[i])
    ensures r.Ok? ==> forall i :: 0 <= i < |rows| && Absent(Cell(rows[i], key)) ==> r.value[i].None?
  {
    if !HasColumn(rows, key) then Err(KeyError(key)) else RangesOf(rows, key)
  }

  /** `convert(response.get(key))`: `int(v)` when present, `None` when missing or null. */
  function YearOrMonth(calendar: Json, key: string): (r: Result<Option<int>>)
    requires calendar.JObject?
    ensures Absent(Cell(calendar, key)) ==> r == Ok(None)
    ensures !Absent(Cell(calendar, key)) ==> (r.Ok? <==> IntOf(calendar.fields[key]).Ok?)
    ensures r.Ok? && r.value.Some? ==> key in calendar.fields && IntOf(calendar.fields[key]) == Ok(r.value.value)
    ensures key in calendar.fields && calendar.fields[key].JInt? ==> r == Ok(Some(calendar.fields[key].i))
  {
    var present := Get(calendar, key).value;
    match present
    case None => Ok(None)
    case Some(v) =>
      var n :- IntOf(v);
      Ok(Some(n))
  }

  /** The records of `response['days']['day']`, normalised to a list. */
  function CalendarRows(calendar: Json): (r: Result<seq<Json>>)
    ensures r.Ok? ==>
      && calendar.JObject? && "days" in calendar.fields
      && calendar.fields["days"].JObject? && "day" in calendar.fields["days"].fields
      && var day := calendar.fields["days"].fields["day"];
         (day.JArray? ==> r.value == day.items) && (day.JObject? ==> r.value == [day])
  {
    var days :- Index(calendar, "days");
    var day :- Index(days, "day");
    Rows(EnsureList(day))
  }

  /** The trading days of a calendar: its records, each with its three sessions' ranges. */
  function DecodeDays(calendar: Json): (r: Result<seq<CalendarDay>>)
    ensures r.Ok? ==>
      && CalendarRows(calendar).Ok?
      && var rows := CalendarRows(calendar).value;
      && |r.value| == |rows|
      && (forall i :: 0 <= i < |rows| ==> r.value[i].record == rows[i])
    ensures r.Ok? ==> SessionsDecoded(CalendarRows(calendar).value, r.value)
    ensures CalendarRows(calendar).Ok? && !HasColumn(CalendarRows(calendar).value, "date") ==> r == Err(KeyError("date"))
  {
    var rows :- CalendarRows(calendar);
    if !HasColumn(rows, "date") then Err(KeyError("date"))
    else
      var pre :- DecodeColumn(rows, "premarket");
      var open :- DecodeColumn(rows, "open");
      var post :- DecodeColumn(rows, "postmarket");
      ZipDecoded(rows, pre, open, post);
      Ok(Zip(rows, pre, open, post))
  }

  /** Zipping the three decoded columns gives each day the sessions of its record. */
  lemma ZipDecoded(rows: seq<Json>, pre: seq<Option<TimeRange>>, open: seq<Option<TimeRange>>, post: seq<Option<TimeRange>>)
    requires |pre| == |rows| && |open| == |rows| && |post| == |rows|
    requires forall i :: 0 <= i < |rows| ==> ToTimeRange(Cell(rows[i], "premarket")) == Ok(pre[i])
    requires forall i :: 0 <= i < |rows| ==> ToTimeRange(Cell(rows[i], "open")) == Ok(open[i])
    requires forall i :: 0 <= i < |rows| ==> ToTimeRange(Cell(rows[i], "postmarket")) == Ok(post[i])
    ensures var days := Zip(rows, pre, open, post);
      && (forall i :: 0 <= i < |rows| ==> days[i].record == rows[i])
      && SessionsDecoded(rows, days)
  {
  }

  /**
   * Each day's premarket, open and postmarket entries are `ToTimeRange` of
   * its record's cells; so an absent session is absent in the day.
   */
  predicate SessionsDecoded(rows: seq<Json>, days: seq<CalendarDay>)
    requires |days| == |rows|
  {
    forall i :: 0 <= i < |rows| ==>
      && ToTimeRange(Cell(rows[i], "premarket")) == Ok(days[i].premarket)
      && ToTimeRange(Cell(rows[i], "open")) == Ok(days[i].open)
      && ToTimeRange(Cell(rows[i], "postmarket")) == Ok(days[i].postmarket)
  }

  /** A session a record lacks, or has as null, is absent in its day. */
  lemma AbsentSessionsAreNone(rows: seq<Json>, days: seq<CalendarDay>)
    requires |days| == |rows| && SessionsDecoded(rows, days)
    ensures forall i :: 0 <= i < |rows| && Absent(Cell(rows[i], "premarket")) ==> days[i].premarket.None?
    ensures forall i :: 0 <= i < |rows| && Absent(Cell(rows[i], "open")) ==> days[i].open.None?
    ensures forall i :: 0 <= i < |rows| && Absent(Cell(rows[i], "postmarket")) ==> days[i].postmarket.None?
  {
  }

  /** Row `i` of the frame: record `i` with the `i`-th entry of each session column. */
  function Zip(rows: seq<Json>, pre: seq<Option<TimeRange>>, open: seq<Option<TimeRange>>, post: seq<Option<TimeRange>>): (days: seq<CalendarDay>)
    requires |pre| == |rows| && |open| == |rows| && |post| == |rows|
    ensures |days| == |rows|
    ensures forall i :: 0 <= i < |rows| ==> days[i] == CalendarDay(rows[i], pre[i], open[i], post[i])
  {
    seq(|rows|, i requires 0 <= i < |rows| => CalendarDay(rows[i], pre[i], open[i], post[i]))
  }

  /**
   * The calendar decoder: the trading days with their three sessions'
   * ranges, and the year and month.
   */
  function DecodeCalendar(body: Json): (r: Result<Option<Calendar>>)
    ensures r == Ok(None) <==> body.JObject? && (!("calendar" in body.fields) || body.fields["calendar"] == JNull)
    ensures r.Ok? && r.value.Some? ==>
      && body.JObject? && "calendar" in body.fields && CalendarRows(body.fields["calendar"]).Ok?
      && var rows := CalendarRows(body.fields["calendar"]).value;
      && |r.value.value.days| == |rows|
      && (forall i :: 0 <= i < |rows| ==> r.value.value.days[i].record == rows[i])
      && SessionsDecoded(rows, r.value.value.days)
    ensures r.Ok? && r.value.Some? ==>
      && YearOrMonth(body.fields["calendar"], "year") == Ok(r.value.value.year)
      && YearOrMonth(body.fields["calendar"], "month") == Ok(r.value.value.month)
  {
    var response :- Get(body, "calendar");
    match response
    case None => Ok(None)
    case Some(calendar) =>
      var days :- DecodeDays(calendar);
      var year :- YearOrMonth(calendar, "year");
      var month :- YearOrMonth(calendar, "month");
      Ok(Some(Calendar(days, year, month)))
  }
}
