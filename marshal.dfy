/**
 * Request marshalling: the paths and query-parameter lists the session's
 * endpoint methods build from their arguments, before anything is sent.
 */
module Marshal {
  import opened Wrappers
  import opened Text
  import opened Times

  /**
   * A query-parameter value: text, or a list. A list value appears only when
   * `lookup` is given an empty list, which `xs and ','.join(xs)` passes on
   * as it is.
   */
  datatype ParamValue = Scalar(text: string) | List(items: seq<string>)

  /**
   * One element of the parameter list handed to the transport: a
   * (key, value) pair, or a lone string, which extending the list with a
   * tuple instead of appending a pair produces.
   */
  datatype QueryEntry = Pair(key: string, value: ParamValue) | Bare(text: string)

  /** A (key, value) candidate of a parameter comprehension; `None` values are filtered out. */
  datatype Candidate = Candidate(key: string, value: Option<ParamValue>)

  /** The entry a single candidate contributes: one pair, or nothing for `None`. */
  function Kept(key: string, value: Option<ParamValue>): seq<QueryEntry> {
    if value.Some? then [Pair(key, value.value)] else []
  }

  /** `[(k, v) for k, v in candidates if v is not None]`. */
  function Present(cs: seq<Candidate>): (r: seq<QueryEntry>)
    ensures |r| <= |cs|
    ensures forall i :: 0 <= i < |r| ==> r[i].Pair?
  {
    if cs == [] then [] else Kept(cs[0].key, cs[0].value) + Present(cs[1..])
  }

  /**
   * The filtered list holds exactly the candidates whose value is not
   * `None`, as pairs: nothing else, and none of them lost.
   */
  lemma {:induction false} PresentKeepsExactly(cs: seq<Candidate>)
    ensures forall e :: e in Present(cs) ==> e.Pair? && Candidate(e.key, Some(e.value)) in cs
    ensures forall i :: 0 <= i < |cs| && cs[i].value.Some? ==> Pair(cs[i].key, cs[i].value.value) in Present(cs)
    ensures Present(cs) == [] <==> forall i :: 0 <= i < |cs| ==> cs[i].value.None?
  {
    if cs != [] {
      PresentKeepsExactly(cs[1..]);
      assert forall i :: 1 <= i < |cs| ==> cs[i] == cs[1..][i - 1];
      assert forall c :: c in cs[1..] ==> c in cs;
    }
  }

  /** Filtering keeps the candidates' order: it distributes over concatenation. */
  lemma {:induction false} PresentConcat(a: seq<Candidate>, b: seq<Candidate>)
    ensures Present(a + b) == Present(a) + Present(b)
  {
    if a == [] {
      assert a + b == b;
    } else {
      assert (a + b)[0] == a[0] && (a + b)[1..] == a[1..] + b;
      PresentConcat(a[1..], b);
    }
  }

  lemma PresentCons(c: Candidate, rest: seq<Candidate>)
    ensures Present([c] + rest) == Kept(c.key, c.value) + Present(rest)
  {
    assert ([c] + rest)[1..] == rest;
  }

  lemma PresentTwo(c0: Candidate, c1: Candidate)
    ensures Present([c0, c1]) == Kept(c0.key, c0.value) + Kept(c1.key, c1.value)
  {
    assert [c0, c1] == [c0] + [c1];
    PresentCons(c0, [c1]);
    PresentCons(c1, []);
  }

  lemma PresentThree(c0: Candidate, c1: Candidate, c2: Candidate)
    ensures Present([c0, c1, c2]) == Kept(c0.key, c0.value) + Kept(c1.key, c1.value) + Kept(c2.key, c2.value)
  {
    assert [c0, c1, c2] == [c0] + [c1, c2];
    PresentCons(c0, [c1, c2]);
    PresentTwo(c1, c2);
  }

  lemma PresentFour(c0: Candidate, c1: Candidate, c2: Candidate, c3: Candidate)
    ensures Present([c0, c1, c2, c3]) ==
      Kept(c0.key, c0.value) + Kept(c1.key, c1.value) + Kept(c2.key, c2.value) + Kept(c3.key, c3.value)
  {
    assert [c0, c1, c2, c3] == [c0] + [c1, c2, c3];
    PresentCons(c0, [c1, c2, c3]);
    PresentThree(c1, c2, c3);
  }

  lemma PresentFive(c0: Candidate, c1: Candidate, c2: Candidate, c3: Candidate, c4: Candidate)
    ensures Present([c0, c1, c2, c3, c4]) ==
      Kept(c0.key, c0.value) + Kept(c1.key, c1.value) + Kept(c2.key, c2.value)
      + Kept(c3.key, c3.value) + Kept(c4.key, c4.value)
  {
    assert [c0, c1, c2, c3, c4] == [c0] + [c1, c2, c3, c4];
    PresentCons(c0, [c1, c2, c3, c4]);
    PresentFour(c1, c2, c3, c4);
    Regroup(Kept(c0.key, c0.value), Kept(c1.key, c1.value), Kept(c2.key, c2.value),
      Kept(c3.key, c3.value), Kept(c4.key, c4.value));
  }

  lemma Regroup<T>(a: seq<T>, b: seq<T>, c: seq<T>, d: seq<T>, e: seq<T>)
    ensures a + (b + c + d + e) == a + b + c + d + e
  {
  }

  function TextOrNone(v: Option<string>): Option<ParamValue> {
    if v.Some? then Some(Scalar(v.value)) else None
  }

  /**
   * `start and _convert_datetime(start)`: `None` stays `None`, anything else
   * is converted. An empty text is falsy and is kept as it is, which is also
   * what converting it gives.
   */
  function DateOrNone(v: Option<DateLike>): (r: Option<ParamValue>)
    requires v.Some? ==> ValidDateLike(v.value)
    ensures r.None? <==> v.None?
    ensures r.Some? ==> r.value.Scalar?
    ensures v.Some? && v.value.DateText? ==> r == Some(Scalar(v.value.text))
    ensures v.Some? && v.value.OnDate? ==> ParseIsoDate(r.value.text) == Some(v.value.date)
  {
    if v.Some? then Some(Scalar(ConvertDatetime(v.value))) else None
  }

  /** The parameter list of `timesales`. */
  function TimesalesParams(
    symbol: string, interval: Option<string>, start: Option<DateLike>,
    end: Option<DateLike>, sessionFilter: Option<string>): (r: seq<QueryEntry>)
    requires start.Some? ==> ValidDateLike(start.value)
    requires end.Some? ==> ValidDateLike(end.value)
    ensures 1 <= |r| <= 5 && r[0] == Pair("symbol", Scalar(symbol))
    ensures start.Some? && start.value.DateText? ==> Pair("start", Scalar(start.value.text)) in r
    ensures end.Some? && end.value.DateText? ==> Pair("end", Scalar(end.value.text)) in r
  {
    var c0, c1, c2 := Candidate("symbol", Some(Scalar(symbol))), Candidate("interval", TextOrNone(interval)),
      Candidate("session_filter", TextOrNone(sessionFilter));
    var c3, c4 := Candidate("start", DateOrNone(start)), Candidate("end", DateOrNone(end));
    PresentFive(c0, c1, c2, c3, c4);
    Present([c0, c1, c2, c3, c4])
  }

  /**
   * The `timesales` list holds exactly the arguments that are not `None`, in
   * the order symbol, interval, session_filter, start, end.
   */
  lemma TimesalesParamsInOrder(
    symbol: string, interval: Option<string>, start: Option<DateLike>,
    end: Option<DateLike>, sessionFilter: Option<string>)
    requires start.Some? ==> ValidDateLike(start.value)
    requires end.Some? ==> ValidDateLike(end.value)
    ensures TimesalesParams(symbol, interval, start, end, sessionFilter) ==
      [Pair("symbol", Scalar(symbol))]
      + Kept("interval", TextOrNone(interval))
      + Kept("session_filter", TextOrNone(sessionFilter))
      + Kept("start", DateOrNone(start))
      + Kept("end", DateOrNone(end))
  {
    PresentFive(Candidate("symbol", Some(Scalar(symbol))), Candidate("interval", TextOrNone(interval)),
      Candidate("session_filter", TextOrNone(sessionFilter)), Candidate("start", DateOrNone(start)),
      Candidate("end", DateOrNone(end)));
  }

  /** An empty start text is not `None`: it is sent as an empty `start` parameter. */
  lemma TimesalesKeepsEmptyStart(symbol: string)
    ensures TimesalesParams(symbol, None, Some(DateText("")), None, None) ==
      [Pair("symbol", Scalar(symbol)), Pair("start", Scalar(""))]
  {
    TimesalesParamsInOrder(symbol, None, Some(DateText("")), None, None);
  }

  /** The parameter list of `historical_pricing`. */
  function HistoryParams(
    symbol: string, interval: Option<string>, start: Option<DateLike>, end: Option<DateLike>): (r: seq<QueryEntry>)
    requires start.Some? ==> ValidDateLike(start.value)
    requires end.Some? ==> ValidDateLike(end.value)
    ensures 1 <= |r| <= 4 && r[0] == Pair("symbol", Scalar(symbol))
    ensures start.Some? && start.value.DateText? ==> Pair("start", Scalar(start.value.text)) in r
    ensures end.Some? && end.value.DateText? ==> Pair("end", Scalar(end.value.text)) in r
  {
    var c0, c1 := Candidate("symbol", Some(Scalar(symbol))), Candidate("interval", TextOrNone(interval));
    var c2, c3 := Candidate("start", DateOrNone(start)), Candidate("end", DateOrNone(end));
    PresentFour(c0, c1, c2, c3);
    Present([c0, c1, c2, c3])
  }

  /** The `historical_pricing` list keeps symbol, interval, start, end in that order, minus the `None`s. */
  lemma HistoryParamsInOrder(
    symbol: string, interval: Option<string>, start: Option<DateLike>, end: Option<DateLike>)
    requires start.Some? ==> ValidDateLike(start.value)
    requires end.Some? ==> ValidDateLike(end.value)
    ensures HistoryParams(symbol, interval, start, end) ==
      [Pair("symbol", Scalar(symbol))]
      + Kept("interval", TextOrNone(interval))
      + Kept("start", DateOrNone(start))
      + Kept("end", DateOrNone(end))
  {
    PresentFour(Candidate("symbol", Some(Scalar(symbol))), Candidate("interval", TextOrNone(interval)),
      Candidate("start", DateOrNone(start)), Candidate("end", DateOrNone(end)));
  }

  /** The parameters of `option_chain` and `option_strikes`: both always sent. */
  function OptionParams(symbol: string, expiration: DateLike): (r: seq<QueryEntry>)
    requires ValidDateLike(expiration)
    ensures |r| == 2 && r[0] == Pair("symbol", Scalar(symbol)) && r[1].Pair? && r[1].key == "expiration"
    ensures expiration.DateText? ==> r[1].value == Scalar(expiration.text)
    ensures expiration.OnDate? ==> r[1].value.Scalar? && ParseIsoDate(r[1].value.text) == Some(expiration.date)
  {
    [Pair("symbol", Scalar(symbol)), Pair("expiration", Scalar(ConvertDatetime(expiration)))]
  }

  // ---------------------------------------------------------------------
  // Paths that carry their query in the path itself

  const QuotesPrefix: string := "markets/quotes?symbols="

  /** The path of `quotes`: the symbols joined with commas. */
  function QuotesPath(symbols: seq<string>): (p: string)
    ensures |p| >= |QuotesPrefix| && p[..|QuotesPrefix|] == QuotesPrefix
    ensures p[|QuotesPrefix|..] == Join(symbols, ",")
  {
    QuotesPrefix + Join(symbols, ",")
  }

  /**
   * Splitting the part of the quotes path after `symbols=` at commas gives
   * back the symbols, in order, when there is at least one and none holds a
   * comma.
   */
  lemma QuotesPathRoundTrip(symbols: seq<string>)
    requires |symbols| >= 1
    requires forall i :: 0 <= i < |symbols| ==> ',' !in symbols[i]
    ensures Split(QuotesPath(symbols)[|QuotesPrefix|..], ',') == symbols
  {
    assert QuotesPath(symbols)[|QuotesPrefix|..] == Join(symbols, [',']);
    SplitJoin(symbols, ',');
  }

  /** No symbols: the path ends in `symbols=`, and splitting the empty text gives one empty symbol. */
  lemma QuotesPathNoSymbols()
    ensures QuotesPath([]) == QuotesPrefix
    ensures Split(QuotesPath([])[|QuotesPrefix|..], ',') == [""]
  {
    assert QuotesPath([])[|QuotesPrefix|..] == "";
  }

  const ExpirationsPrefix: string := "markets/options/expirations?symbol="

  /** The path of `option_expirations`. */
  function ExpirationsPath(symbol: string): (p: string)
    ensures |p| == |ExpirationsPrefix| + |symbol|
    ensures p[..|ExpirationsPrefix|] == ExpirationsPrefix && p[|ExpirationsPrefix|..] == symbol
  {
    ExpirationsPrefix + symbol
  }

  // ---------------------------------------------------------------------
  // The calendar's polymorphic date argument

  /**
   * The `date` argument of `calendar`: a `date` (or `datetime`), a text
   * `YYYY[-MM[-DD]]`, a sequence of integers `(year[, month, ...])`, a bare
   * integer year, or `None`.
   */
  datatype CalendarArg =
    | CalendarDate(date: Date)
    | CalendarText(text: string)
    | CalendarInts(ints: seq<int>)
    | CalendarYear(year: int)
    | NoCalendarDate

  /**
   * The year and month texts derived from the argument; `None` for what
   * cannot be resolved. An empty integer sequence raises `IndexError` at
   * `date[0]`.
   */
  function CalendarYearMonth(arg: CalendarArg): (r: Result<(Option<string>, Option<string>)>)
    requires arg.CalendarDate? ==> ValidDate(arg.date)
    ensures r.Err? <==> arg == CalendarInts([])
    ensures r.Err? ==> r.error == IndexError
    ensures r.Ok? ==> (r.value.0.None? <==> arg.NoCalendarDate?)
    ensures r.Ok? ==> (r.value.1.Some? <==>
                       arg.CalendarDate? || (arg.CalendarText? && '-' in arg.text) || (arg.CalendarInts? && |arg.ints| >= 2))
  {
    match arg
    case CalendarDate(d) => Ok((Some(IntString(d.year)), Some(IntString(d.month))))
    case CalendarText(text) =>
      var ym := SplitN(text, '-', 2);
      assert '-' in text ==> |ym| > 1 by {
        if |ym| == 1 { assert Join(ym, ['-']) == ym[0]; }
      }
      Ok((Some(ym[0]), if |ym| == 1 then None else Some(ym[1])))
    case CalendarInts(ints) =>
      if |ints| == 0 then Err(IndexError)
      else Ok((Some(IntString(ints[0])), if |ints| == 1 then None else Some(IntString(ints[1]))))
    case CalendarYear(y) => Ok((Some(IntString(y)), None))
    case NoCalendarDate => Ok((None, None))
  }

  /** The parameter list of `calendar`: `year`, then `month`, each only when resolved. */
  function CalendarParams(arg: CalendarArg): (r: Result<seq<QueryEntry>>)
    requires arg.CalendarDate? ==> ValidDate(arg.date)
    ensures r.Err? <==> CalendarYearMonth(arg).Err?
    ensures r.Ok? ==> (r.value ==
      Kept("year", TextOrNone(CalendarYearMonth(arg).value.0)) + Kept("month", TextOrNone(CalendarYearMonth(arg).value.1)))
  {
    match CalendarYearMonth(arg)
    case Err(e) => Err(e)
    case Ok((year, month)) =>
      var c0, c1 := Candidate("year", TextOrNone(year)), Candidate("month", TextOrNone(month));
      PresentTwo(c0, c1);
      Ok(Present([c0, c1]))
  }

  lemma CalendarParamsOf(arg: CalendarArg, year: Option<string>, month: Option<string>, expected: seq<QueryEntry>)
    requires arg.CalendarDate? ==> ValidDate(arg.date)
    requires CalendarYearMonth(arg) == Ok((year, month))
    requires Kept("year", TextOrNone(year)) + Kept("month", TextOrNone(month)) == expected
    ensures CalendarParams(arg) == Ok(expected)
  {
  }

  /** A date gives both year and month, as decimal texts that read back as the date's year and month. */
  lemma CalendarFromDate(d: Date)
    requires ValidDate(d)
    ensures CalendarParams(CalendarDate(d)) ==
      Ok([Pair("year", Scalar(IntString(d.year))), Pair("month", Scalar(IntString(d.month)))])
    ensures ParseInt(IntString(d.year)) == Ok(d.year) && ParseInt(IntString(d.month)) == Ok(d.month)
  {
    CalendarParamsOf(CalendarDate(d), Some(IntString(d.year)), Some(IntString(d.month)),
      [Pair("year", Scalar(IntString(d.year))), Pair("month", Scalar(IntString(d.month)))]);
    ParseIntString(d.year);
    ParseIntString(d.month);
  }

  /** `"YYYY"` gives only the year, as written. */
  lemma CalendarFromYearText(y: string)
    requires '-' !in y
    ensures CalendarParams(CalendarText(y)) == Ok([Pair("year", Scalar(y))])
  {
    SplitNoSep(y, '-', 2);
    CalendarParamsOf(CalendarText(y), Some(y), None, [Pair("year", Scalar(y))]);
  }

  /** `"YYYY-MM"` gives year and month exactly as written (`"01"` stays `"01"`). */
  lemma CalendarFromYearMonthText(y: string, m: string)
    requires '-' !in y && '-' !in m
    ensures CalendarParams(CalendarText(y + "-" + m)) == Ok([Pair("year", Scalar(y)), Pair("month", Scalar(m))])
  {
    assert Join([y, m], ['-']) == y + "-" + m by { assert [y, m][1..] == [m]; }
    SplitJoinN([y, m], '-', 2);
    CalendarParamsOf(CalendarText(y + "-" + m), Some(y), Some(m), [Pair("year", Scalar(y)), Pair("month", Scalar(m))]);
  }

  /** `"YYYY-MM-DD"` gives year and month as written; the rest, the day, is not used. */
  lemma CalendarFromFullText(y: string, m: string, rest: string)
    requires '-' !in y && '-' !in m
    ensures CalendarParams(CalendarText(y + "-" + m + "-" + rest)) ==
      Ok([Pair("year", Scalar(y)), Pair("month", Scalar(m))])
  {
    assert Join([y, m, rest], ['-']) == y + "-" + m + "-" + rest by {
      assert [y, m, rest][1..] == [m, rest];
      assert [m, rest][1..] == [rest];
      assert Join([m, rest], ['-']) == m + "-" + rest;
    }
    SplitJoinN([y, m, rest], '-', 2);
    CalendarParamsOf(CalendarText(y + "-" + m + "-" + rest), Some(y), Some(m),
      [Pair("year", Scalar(y)), Pair("month", Scalar(m))]);
  }

  /** A 1-sequence gives only the year; a longer one gives year and month. */
  lemma CalendarFromInts(ints: seq<int>)
    requires |ints| >= 1
    ensures |ints| == 1 ==> CalendarParams(CalendarInts(ints)) == Ok([Pair("year", Scalar(IntString(ints[0])))])
    ensures |ints| >= 2 ==> (CalendarParams(CalendarInts(ints)) ==
      Ok([Pair("year", Scalar(IntString(ints[0]))), Pair("month", Scalar(IntString(ints[1])))]))
  {
    if |ints| == 1 {
      CalendarParamsOf(CalendarInts(ints), Some(IntString(ints[0])), None, [Pair("year", Scalar(IntString(ints[0])))]);
    } else {
      CalendarParamsOf(CalendarInts(ints), Some(IntString(ints[0])), Some(IntString(ints[1])),
        [Pair("year", Scalar(IntString(ints[0]))), Pair("month", Scalar(IntString(ints[1])))]);
    }
  }

  /** A bare integer gives only the year; `None` gives no parameters at all. */
  lemma CalendarFromYearOrNothing(y: int)
    ensures CalendarParams(CalendarYear(y)) == Ok([Pair("year", Scalar(IntString(y)))])
    ensures CalendarParams(NoCalendarDate) == Ok([])
  {
    CalendarParamsOf(CalendarYear(y), Some(IntString(y)), None, [Pair("year", Scalar(IntString(y)))]);
    CalendarParamsOf(NoCalendarDate, None, None, []);
  }

  /** A month sent for a date is never `"0"`: it reads back as a month of the year. */
  lemma CalendarMonthNeverZero(d: Date)
    requires ValidDate(d)
    ensures CalendarYearMonth(CalendarDate(d)).value.1.Some?
    ensures ParseInt(CalendarYearMonth(CalendarDate(d)).value.1.value) == Ok(d.month) && d.month != 0
  {
    ParseIntString(d.month);
  }

  // ---------------------------------------------------------------------
  // lookup and search

  const LookupMessage: string := "An argument must be provided"

  /** `xs and ','.join(xs)`: `None` stays `None`, an empty list stays itself, others are comma-joined. */
  function JoinedOrNone(v: Option<seq<string>>): (r: Option<ParamValue>)
    ensures r.None? <==> v.None?
    ensures v == Some([]) ==> r == Some(List([]))
    ensures v.Some? && |v.value| >= 1 ==> r.Some? && r.value.Scalar?
    ensures v.Some? && |v.value| >= 1 && (forall i :: 0 <= i < |v.value| ==> ',' !in v.value[i]) ==>
      Split(r.value.text, ',') == v.value
  {
    match v
    case None => None
    case Some(xs) =>
      if xs == [] then Some(List([]))
      else
        assert (forall i :: 0 <= i < |xs| ==> ',' !in xs[i]) ==> Split(Join(xs, ","), ',') == xs by {
          if forall i :: 0 <= i < |xs| ==> ',' !in xs[i] { SplitJoin(xs, ','); }
        }
        Some(Scalar(Join(xs, ",")))
  }

  /**
   * The parameter list of `lookup`, or the `ValueError` raised before any
   * request when no identifying argument is given.
   */
  function LookupParams(symbol: Option<string>, exchanges: Option<seq<string>>, types: Option<seq<string>>): (r: Result<seq<QueryEntry>>)
    ensures r.Err? <==> symbol.None? && exchanges.None? && types.None?
    ensures r.Err? ==> r.error == ValueError(LookupMessage)
    ensures r.Ok? ==> (r.value ==
      Kept("q", TextOrNone(symbol)) + Kept("exchanges", JoinedOrNone(exchanges)) + Kept("types", JoinedOrNone(types)))
  {
    var c0, c1, c2 := Candidate("q", TextOrNone(symbol)), Candidate("exchanges", JoinedOrNone(exchanges)),
      Candidate("types", JoinedOrNone(types));
    PresentThree(c0, c1, c2);
    var params := Present([c0, c1, c2]);
    if params == [] then Err(ValueError(LookupMessage)) else Ok(params)
  }

  /** An empty list is not `None`: it is sent as it is and raises nothing. */
  lemma LookupEmptyListAccepted()
    ensures LookupParams(None, Some([]), None) == Ok([Pair("exchanges", List([]))])
    ensures LookupParams(None, None, Some([])) == Ok([Pair("types", List([]))])
  {
    var r1 := LookupParams(None, Some([]), None);
    assert r1.Ok? && r1.value == [Pair("exchanges", List([]))];
    var r2 := LookupParams(None, None, Some([]));
    assert r2.Ok? && r2.value == [Pair("types", List([]))];
  }

  /**
   * The parameter list of `search` as written: with `indexes` set, the list
   * is extended by the tuple `('indexes', 'true')`, which adds two lone
   * strings instead of one pair.
   */
  function SearchParamsAsWritten(query: string, indexes: bool): (r: seq<QueryEntry>)
    ensures |r| == (if indexes then 3 else 1) && r[0] == Pair("q", Scalar(query))
    ensures indexes ==> r[1] == Bare("indexes") && r[2] == Bare("true")
  {
    [Pair("q", Scalar(query))] + (if indexes then [Bare("indexes"), Bare("true")] else [])
  }

  /** With `indexes` set, the written list holds no `indexes=true` pair, and two malformed entries. */
  lemma SearchIndexesMalformed(query: string)
    ensures Pair("indexes", Scalar("true")) !in SearchParamsAsWritten(query, true)
    ensures |SearchParamsAsWritten(query, true)| == 3
    ensures !SearchParamsAsWritten(query, true)[1].Pair? && !SearchParamsAsWritten(query, true)[2].Pair?
  {
  }

  /** The parameter list of `search` as intended: `q`, then the pair `indexes=true` when asked for. */
  function SearchParams(query: string, indexes: bool): (r: seq<QueryEntry>)
    ensures forall e :: e in r ==> e.Pair?
    ensures |r| >= 1 && r[0] == Pair("q", Scalar(query))
    ensures Pair("indexes", Scalar("true")) in r <==> indexes
  {
    [Pair("q", Scalar(query))] + (if indexes then [Pair("indexes", Scalar("true"))] else [])
  }

  /** Without `indexes` the written and the intended lists agree. */
  lemma SearchDefectOnlyWithIndexes(query: string)
    ensures SearchParamsAsWritten(query, false) == SearchParams(query, false)
    ensures SearchParamsAsWritten(query, true) != SearchParams(query, true)
  {
    assert SearchParams(query, true)[1] == Pair("indexes", Scalar("true"));
  }
}
