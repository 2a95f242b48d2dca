/**
 * The endpoint methods of `Session`: marshal the arguments, issue one GET
 * under the session's endpoint, apply the status rule, decode. `server`
 * stands for the network: it gives the reply to each request.
 */
module Session {
  import opened Wrappers
  import opened JsonValues
  import opened Times
  import opened Marshal
  import opened Transport
  import opened Decoders

  /** `Session.quotes(symbols)`. */
  function Quotes(endpoint: string, symbols: seq<string>, server: HttpRequest -> Reply): (r: Result<Option<seq<Json>>>)
    ensures var reply := server(RequestTo(endpoint, QuotesPath(symbols), []));
      Answers(r, reply, Table(reply.body, "quotes", "quote"))
  {
    var body :- Fetch(endpoint, QuotesPath(symbols), [], server);
    Table(body, "quotes", "quote")
  }

  /** `Session.timesales(symbol, interval, start, end, session_filter)`. */
  function Timesales(
    endpoint: string, symbol: string, interval: Option<string>, start: Option<DateLike>,
    end: Option<DateLike>, sessionFilter: Option<string>, server: HttpRequest -> Reply): (r: Result<Option<seq<Json>>>)
    requires start.Some? ==> ValidDateLike(start.value)
    requires end.Some? ==> ValidDateLike(end.value)
    ensures var reply := server(RequestTo(endpoint, "markets/timesales",
                                          TimesalesParams(symbol, interval, start, end, sessionFilter)));
      Answers(r, reply, Table(reply.body, "series", "data"))
  {
    var body :- Fetch(endpoint, "markets/timesales", TimesalesParams(symbol, interval, start, end, sessionFilter), server);
    Table(body, "series", "data")
  }

  /** `Session.option_chain(symbol, expiration)`. */
  function OptionChain(endpoint: string, symbol: string, expiration: DateLike, server: HttpRequest -> Reply): (r: Result<Option<seq<Json>>>)
    requires ValidDateLike(expiration)
    ensures var reply := server(RequestTo(endpoint, "markets/options/chains", OptionParams(symbol, expiration)));
      Answers(r, reply, Table(reply.body, "options", "option"))
  {
    var body :- Fetch(endpoint, "markets/options/chains", OptionParams(symbol, expiration), server);
    Table(body, "options", "option")
  }

  /** `Session.option_strikes(symbol, expiration)`: the strikes as they come. */
  function OptionStrikes(endpoint: string, symbol: string, expiration: DateLike, server: HttpRequest -> Reply): (r: Result<Option<Json>>)
    requires ValidDateLike(expiration)
    ensures var reply := server(RequestTo(endpoint, "markets/options/strikes", OptionParams(symbol, expiration)));
      Answers(r, reply, Series(reply.body, "strikes", "strike"))
  {
    var body :- Fetch(endpoint, "markets/options/strikes", OptionParams(symbol, expiration), server);
    Series(body, "strikes", "strike")
  }

  /** `Session.option_expirations(symbol)`: the dates as they come. */
  function OptionExpirations(endpoint: string, symbol: string, server: HttpRequest -> Reply): (r: Result<Option<Json>>)
    ensures var reply := server(RequestTo(endpoint, ExpirationsPath(symbol), []));
      Answers(r, reply, Series(reply.body, "expirations", "date"))
  {
    var body :- Fetch(endpoint, ExpirationsPath(symbol), [], server);
    Series(body, "expirations", "date")
  }

  /** `Session.historical_pricing(symbol, interval, start, end)`. */
  function HistoricalPricing(
    endpoint: string, symbol: string, interval: Option<string>, start: Option<DateLike>,
    end: Option<DateLike>, server: HttpRequest -> Reply): (r: Result<Option<seq<Json>>>)
    requires start.Some? ==> ValidDateLike(start.value)
    requires end.Some? ==> ValidDateLike(end.value)
    ensures var reply := server(RequestTo(endpoint, "markets/history", HistoryParams(symbol, interval, start, end)));
      Answers(r, reply, Table(reply.body, "history", "day"))
  {
    var body :- Fetch(endpoint, "markets/history", HistoryParams(symbol, interval, start, end), server);
    Table(body, "history", "day")
  }

  /** `Session.clock()`. */
  function ClockNow(endpoint: string, server: HttpRequest -> Reply): (r: Result<Option<Clock>>)
    ensures var reply := server(RequestTo(endpoint, "markets/clock", []));
      Answers(r, reply, DecodeClock(reply.body))
  {
    var body :- Fetch(endpoint, "markets/clock", [], server);
    DecodeClock(body)
  }

  /** `Session.calendar(date)`: an unusable date raises before the request. */
  function CalendarFor(endpoint: string, date: CalendarArg, server: HttpRequest -> Reply): (r: Result<Option<Calendar>>)
    requires date.CalendarDate? ==> ValidDate(date.date)
    ensures CalendarParams(date).Err? ==> r == Err(IndexError)
    ensures CalendarParams(date).Ok? ==>
      var reply := server(RequestTo(endpoint, "markets/calendar", CalendarParams(date).value));
      Answers(r, reply, DecodeCalendar(reply.body))
  {
    var params :- CalendarParams(date);
    var body :- Fetch(endpoint, "markets/calendar", params, server);
    DecodeCalendar(body)
  }

  /** `Session.search(query, indexes)`, sending `indexes=true` as a pair. */
  function Search(endpoint: string, query: string, indexes: bool, server: HttpRequest -> Reply): (r: Result<Option<seq<Json>>>)
    ensures var reply := server(RequestTo(endpoint, "markets/search", SearchParams(query, indexes)));
      Answers(r, reply, Table(reply.body, "securities", "security"))
  {
    var body :- Fetch(endpoint, "markets/search", SearchParams(query, indexes), server);
    Table(body, "securities", "security")
  }

  /** `Session.lookup(symbol, exchanges, types)`: no identifying argument raises before the request. */
  function Lookup(
    endpoint: string, symbol: Option<string>, exchanges: Option<seq<string>>, types: Option<seq<string>>,
    server: HttpRequest -> Reply): (r: Result<Option<seq<Json>>>)
    ensures symbol.None? && exchanges.None? && types.None? ==> r == Err(ValueError(LookupMessage))
    ensures LookupParams(symbol, exchanges, types).Ok? ==>
      var reply := server(RequestTo(endpoint, "markets/lookup", LookupParams(symbol, exchanges, types).value));
      Answers(r, reply, Table(reply.body, "securities", "security"))
  {
    var params :- LookupParams(symbol, exchanges, types);
    var body :- Fetch(endpoint, "markets/lookup", params, server);
    Table(body, "securities", "security")
  }

  /**
   * `lookup()` with nothing to look up raises the same `ValueError` whatever
   * the server would answer: no request is made.
   */
  lemma LookupWithoutArgumentsSendsNothing(endpoint: string, one: HttpRequest -> Reply, other: HttpRequest -> Reply)
    ensures Lookup(endpoint, None, None, None, one) == Lookup(endpoint, None, None, None, other)
    ensures Lookup(endpoint, None, None, None, one) == Err(ValueError(LookupMessage))
  {
  }

  /**
   * A reply outside 2xx raises `HttpError` with its status, reason and body
   * text, whatever its body holds: no decoder looks at it.
   */
  lemma ErrorStatusSkipsDecoding(endpoint: string, symbols: seq<string>, server: HttpRequest -> Reply)
    requires !IsSuccess(server(RequestTo(endpoint, QuotesPath(symbols), [])).status)
    ensures var reply := server(RequestTo(endpoint, QuotesPath(symbols), []));
      Quotes(endpoint, symbols, server) == Err(HttpError(reply.status, reply.reason, reply.text))
    ensures var reply := server(RequestTo(endpoint, QuotesPath(symbols), []));
      Quotes(endpoint, symbols, server) ==
      Quotes(endpoint, symbols, req => if req == RequestTo(endpoint, QuotesPath(symbols), [])
                                        then reply.(body := JNull) else server(req))
  {
  }

  /** The quotes request goes to the endpoint followed by the quotes path, symbols comma-joined. */
  lemma QuotesUrl(endpoint: string, symbols: seq<string>)
    ensures RequestTo(endpoint, QuotesPath(symbols), []).url == endpoint + "markets/quotes?symbols=" + Text.Join(symbols, ",")
  {
  }
}
