# Tradier market-data client: the translation layer

`tradier.py` is an asynchronous client for the Tradier brokerage market-data
API. Most of it is aiohttp and pandas plumbing. Underneath sits a small layer
of pure logic, and that layer is what this project models and proves things
about:

- how each endpoint method marshals its arguments into a query: optional
  parameters are dropped when `None`, lists are comma-joined, dates become
  ISO text, and the calendar's polymorphic `date` argument becomes
  `year`/`month`;
- the request primitive: the endpoint presets of `AsyncClient`, the URL as
  endpoint followed by path, and the rule "2xx gives the JSON body,
  anything else raises `HttpError`";
- the decoders that do not depend on pandas:
  - a missing or null wrapper means "no data";
  - one record versus a list of records (`_ensure_list`);
  - `_from_iso_time`;
  - the clock's next-change rollover;
  - the calendar's per-session time ranges and its `year`/`month`.

Modules, in dependency order:

- `Wrappers`: `Option`, `Result`, and the Python exceptions the code can raise.
- `Text`: `str(int)`, `int(str)`, zero padding, `sep.join`, `s.split(sep[, maxsplit])`.
- `JsonValues`: decoded JSON, `dict.get`, `dict[key]`, `_ensure_list`.
- `Times`: `datetime.time(...)`, `_from_iso_time`, day arithmetic on instants, `isoformat`, `_convert_datetime`.
- `Marshal`: the query parameter lists and paths of every endpoint method.
- `Transport`: `AsyncClient.__init__`, the request URL, and the status rule of `Session._request`.
- `Decoders`: the response decoders, up to where the source hands records to pandas.
- `Session`: one function per `Session` endpoint method, composing the three layers.

The network is a parameter. A `server: HttpRequest -> Reply` gives the reply
to each request, and every endpoint function is proved to return its
decoder's result on a 2xx body, or the `HttpError`, and nothing else.

Instants are naive: integers counting microseconds from the Unix epoch, with
days cut at UTC midnight;
the API's `timestamp` is whole seconds. A day is 86 400 000 000 microseconds.

`Clock` has a `next_state` field next to `state` (tradier.py:81), and the
clock reply carries a `next_state` key of its own. The decoder fills the
field from `response['state']` instead (tradier.py:267), so a decoded clock's
next state is always its current state. The model does what the code does,
and `Decoders.ClockNextStateIsState` states that the reply's `next_state`
key is never read.

## Model

| member | source | states |
|---|---|---|
| Text.NatString | tradier.py:276-277 | `str(n)` of a natural number is a decimal numeral with no leading zero whose value is `n` |
| Text.IntString | tradier.py:276-277 | `str(i)` starts with `-` exactly for a negative number, and the digits after it (or the whole text) are the numeral of `i` without its sign: its value, with no leading zero |
| Text.ParseInt | tradier.py:56 | `int(text)` succeeds exactly on an optionally signed, non-empty run of digits; the value is the digits' value, negated under `-` and unchanged under `+` or no sign; anything else raises `ValueError` naming the text |
| Text.ParseIntString | tradier.py:327 | `int(str(i)) == i` for every integer below CPython's 4300-digit conversion limit |
| Text.Pad | tradier.py:62 | a zero-padded numeral has the number's value and is exactly the pad width when the number fits |
| Text.SplitN | tradier.py:279 | `split(sep, n)` gives at most n+1 pieces that rejoin to the text; only the last piece may contain `sep`, and only when all n splits were made |
| Text.Split | tradier.py:56 | `split(sep)` gives pieces that rejoin to the text, none containing `sep` |
| Text.JoinEnds | tradier.py:142 | `sep.join(parts)` of a non-empty list begins with the first part and ends with the last |
| Text.SplitJoin | tradier.py:142 | splitting a `sep`-join of pieces free of `sep` gives back the pieces |
| Times.ParseInts | tradier.py:56 | `map(int, parts)` succeeds exactly when every part parses, and then gives each part's value in order; otherwise it raises `ValueError` |
| Times.MakeTime | tradier.py:56 | `time(*args)`, with CPython's checks in CPython's order: more than 5 arguments is `TypeError`; then one of the first four outside the C `int` range is `OverflowError`; then a component out of range is `ValueError`; then a fifth argument is `TypeError`, since an integer is not a `tzinfo`; otherwise 0 to 4 arguments fill hour, minute, second and microsecond in order, the rest 0, so no argument is midnight |
| Times.ParseTime | tradier.py:56 | splitting on `:` and `int` of each piece gives a valid time, or raises `ValueError`, `OverflowError` or `TypeError` |
| Times.FromIsoTime | tradier.py:53-56 | a missing value is returned as missing; text gives exactly what `ParseTime` gives, the time or the same exception |
| Times.ParseHourMinute | tradier.py:56 | `"HH:MM"` parses to (HH, MM, 0, 0) when in range; otherwise `ValueError`, or `OverflowError` when a field exceeds a C `int` but has at most 4300 digits |
| Times.ParseHourMinuteSecond | tradier.py:56 | `"HH:MM:SS"` parses to (HH, MM, SS, 0) when in range; otherwise `ValueError`, or `OverflowError` when a field exceeds a C `int` but has at most 4300 digits |
| Times.DayStart | tradier.py:255-260 | the midnight starting an instant's UTC day is a whole number of days and at most a day before it |
| Times.DayStartOf | tradier.py:255-260 | an instant `days * D + offset` with `0 <= offset < D` starts its day at `days * D` |
| Times.NextChange | tradier.py:254-262 | the next change lies in [snapshot, snapshot + 1 day), falls at the parsed time of day, and is on the snapshot's day exactly when that time is not before the snapshot, otherwise on the next day |
| Times.NextChangeIsFirst | tradier.py:255-262 | no instant at that time of day, at or after the snapshot, comes before the next change |
| Times.IsoDate | tradier.py:62 | `date.isoformat()` is ten characters `YYYY-MM-DD` whose three digit fields have the year, month and day as values |
| Times.IsoTime | tradier.py:62 | `time.isoformat()` is `HH:MM:SS`, eight characters, when there are no microseconds, and `HH:MM:SS.ffffff`, fifteen, otherwise; each digit field has its component's value |
| Times.IsoDateRoundTrip | tradier.py:62 | reading `YYYY-MM-DD` back from `date.isoformat()` gives the date |
| Times.IsoTimeRoundTrip | tradier.py:62 | parsing the `HH:MM:SS` of a whole-second `isoformat()` gives the time |
| Times.ConvertDatetime | tradier.py:59-62 | text passes through unchanged; a date reads back as itself; a date-time has its date, `T`, then its time, which reads back when it has no microseconds |
| JsonValues.Get | tradier.py:146 | `get(key, None)` is `None` exactly when the key is missing or null, and is the value otherwise; a non-object raises `AttributeError` |
| JsonValues.Index | tradier.py:149 | `obj[key]` is the value when present; a missing key raises `KeyError(key)`, a non-object `TypeError` |
| JsonValues.EnsureList | tradier.py:65-69 | a sequence is returned unchanged; anything else is wrapped in a one-element list |
| JsonValues.SingleRecordIsOneElementList | tradier.py:65-69 | a single record normalises to the same list as a one-element list holding it |
| JsonValues.EnsureListIdempotent | tradier.py:65-69 | normalising twice is normalising once |
| JsonValues.IntOf | tradier.py:327 | `int(v)` is the number itself, the parse of a text, or `TypeError` for null, lists and objects |
| Marshal.Present | tradier.py:166-174 | the filtered list is no longer than the candidates and holds only pairs |
| Marshal.PresentKeepsExactly | tradier.py:166-174 | the filtered list holds exactly the candidates whose value is not `None`, as pairs; it is empty exactly when all are `None` |
| Marshal.PresentConcat | tradier.py:166-174 | filtering a concatenation is concatenating the filtered parts, so source order is kept |
| Marshal.DateOrNone | tradier.py:171-172 | `start and _convert_datetime(start)`: `None` stays `None`; text is sent as written; a date is sent as text that reads back as the date |
| Marshal.TimesalesParams | tradier.py:166-174 | the symbol comes first; text `start`/`end` values appear unchanged |
| Marshal.TimesalesParamsInOrder | tradier.py:166-174 | the list is symbol, interval, session_filter, start, end, in that order, each present one kept |
| Marshal.TimesalesKeepsEmptyStart | tradier.py:171 | an empty `start` text is falsy but not `None`, so it is still sent |
| Marshal.HistoryParams | tradier.py:233-240 | the symbol comes first; text `start`/`end` values appear unchanged |
| Marshal.HistoryParamsInOrder | tradier.py:233-240 | the list is symbol, interval, start, end, in that order, each present one kept |
| Marshal.OptionParams | tradier.py:194-197 | the parameters are symbol then expiration; a text expiration is sent unchanged, and a date one reads back as the date |
| Marshal.QuotesPath | tradier.py:142-145 | the path is `markets/quotes?symbols=` followed by the comma-joined symbols |
| Marshal.QuotesPathRoundTrip | tradier.py:142-145 | for a non-empty list of symbols without commas, splitting the suffix on `,` recovers the list in order |
| Marshal.QuotesPathNoSymbols | tradier.py:142-145 | no symbols give the bare prefix, whose suffix splits to one empty symbol |
| Marshal.ExpirationsPath | tradier.py:220 | the path is `markets/options/expirations?symbol=` followed by the symbol |
| Marshal.CalendarYearMonth | tradier.py:275-296 | only an empty integer sequence raises (`IndexError`); the year is absent exactly for `None`; the month is present exactly for a date, a text with `-`, or two or more integers |
| Marshal.CalendarParams | tradier.py:297-304 | the query is the present ones of `year` and `month`, in that order |
| Marshal.CalendarParamsOf | tradier.py:297-304 | the query is determined by the derived year and month |
| Marshal.CalendarFromDate | tradier.py:275-277 | a date gives `year` and `month` as decimal text that reads back as the numbers |
| Marshal.CalendarFromYearText | tradier.py:278-282 | `"YYYY"` gives only `year` |
| Marshal.CalendarFromYearMonthText | tradier.py:278-284 | `"YYYY-MM"` gives `year` and `month` exactly as written |
| Marshal.CalendarFromFullText | tradier.py:279-284 | `"YYYY-MM-DD"` gives `year` and `month` as written and ignores the day |
| Marshal.CalendarFromInts | tradier.py:285-290 | a 1-tuple gives only `year`; two or more integers give `year` and `month` |
| Marshal.CalendarFromYearOrNothing | tradier.py:291-296 | a bare integer gives only `year`; `None` gives no parameter |
| Marshal.CalendarMonthNeverZero | tradier.py:275-277 | a date's month is always sent, and is never zero |
| Marshal.LookupParams | tradier.py:352-360 | `ValueError` exactly when symbol, exchanges and types are all `None`; otherwise the present ones in order q, exchanges, types |
| Marshal.JoinedOrNone | tradier.py:355-356 | `xs and ','.join(xs)`: `None` stays `None`; an empty list is kept as the empty list; a non-empty list becomes one text that splits on `,` back into the list when no item holds a comma |
| Marshal.LookupEmptyListAccepted | tradier.py:355-356 | an empty exchanges or types list is not `None` and does not raise |
| Marshal.SearchParamsAsWritten | tradier.py:336-338 | as written: `q` first; with `indexes`, the two bare entries `'indexes'` and `'true'` follow, and nothing else |
| Marshal.SearchIndexesMalformed | tradier.py:336-338 | as written, `indexes=True` adds two bare strings and no `indexes=true` pair |
| Marshal.SearchParams | tradier.py:336-338 | every entry is a pair; `q` comes first; `indexes=true` is present exactly when requested |
| Marshal.SearchDefectOnlyWithIndexes | tradier.py:336-338 | the written and corrected lists agree without `indexes` and differ with it |
| Transport.NewClient | tradier.py:371-378 | a client exists exactly for `sandbox` and `brokerage`, each with its own base URL and the token; any other name raises `ValueError` |
| Transport.RequestTo | tradier.py:128-131 | a GET whose URL is the endpoint followed by the path, with the parameters as given |
| Transport.Fetch | tradier.py:128-139 | the request goes to the endpoint followed by the path; a 2xx reply gives its body, and any other reply raises `HttpError` with its status, reason and text |
| Transport.CheckStatus | tradier.py:133-139 | a status in 200..299 gives the body; any other raises `HttpError` with status, reason and body text |
| Decoders.Rows | tradier.py:149 | a list gives its records; anything else is refused |
| Decoders.Table | tradier.py:146-149 | no data exactly when the wrapper is missing or null; a list of records is the rows; a single record is one row |
| Decoders.SingleRecordOneRow | tradier.py:146-149 | a bare record decodes exactly as a one-element list holding it |
| Decoders.NoDataIsNotEmpty | tradier.py:146-148 | a missing or null wrapper gives `None`, distinct from the empty list an empty record list gives |
| Decoders.Series | tradier.py:214-217 | no data exactly when the wrapper is missing or null; otherwise the inner value as it came |
| Decoders.SnapshotInstant | tradier.py:253 | an integer timestamp in seconds gives that instant in microseconds; text and containers raise |
| Decoders.TimeText | tradier.py:254 | only text has `split`; anything else raises `AttributeError` |
| Decoders.ClockOf | tradier.py:253-269 | the snapshot is the record's `timestamp` as an instant; the next change is `Times.NextChange` of that snapshot and the parsed `next_change`, so it lies in [snapshot, snapshot + 1 day); the description is the record's; state and next state are both the record's `state`; every object with the four keys, a numeric `timestamp` and a parsing `next_change` decodes; a non-object raises `TypeError` and a missing `timestamp` `KeyError` |
| Decoders.ClockOfRecord | tradier.py:253-269 | any object with an integer `timestamp`, a parsing `next_change`, a `description` and a `state`, whatever other keys it holds, decodes to exactly that snapshot, the rolled-over next change, its description, and its state twice |
| Decoders.DecodeClock | tradier.py:249-269 | no data exactly when `clock` is missing or null; otherwise exactly what `ClockOf` gives for the `clock` record, the clock or the same exception |
| Decoders.DecodeClockBody | tradier.py:249-269 | a well-formed clock body decodes to its snapshot, the rolled-over next change, its description, and its state twice |
| Decoders.ClockNextStateIsState | tradier.py:267-268 | for any `next_change` that parses, the decoded next state is the reply's `state`, whatever its `next_state` holds |
| Decoders.ParseSixteenAndMidnight | tradier.py:254 | `16:00:00` and `00:00:00` parse to those times |
| Decoders.NextChangeExamples | tradier.py:255-262 | 15:59 with a change at 16:00 stays on the same day; 23:59 with a change at 00:00 rolls to the next midnight |
| Decoders.ClockSameDay | tradier.py:249-269 | a snapshot at 15:59 with next change `16:00:00` decodes to 16:00 the same day |
| Decoders.ClockRollsOverMidnight | tradier.py:249-269 | a snapshot at 23:59 with next change `00:00:00` decodes to the following midnight |
| Decoders.IsoTimeOf | tradier.py:315-316 | null gives no time; text gives `_from_iso_time` of it; any time given is valid; a number, boolean, list or object has no `split` and raises `AttributeError` |
| Decoders.ToTimeRange | tradier.py:311-317 | a missing or null session is absent; a present one has `start` and `end`, each the `_from_iso_time` of its cell and absent exactly when null; a non-object raises `TypeError`, a missing `start` `KeyError` |
| Decoders.RangesOf | tradier.py:319-320 | the column has one entry per row, each the decoded cell of that row; an error comes from some row |
| Decoders.DecodeColumn | tradier.py:319-320 | a column no row has raises `KeyError`; otherwise one entry per row, each the decoded session of that row, absent where the row has none |
| Decoders.YearOrMonth | tradier.py:324-332 | missing or null is `None`; otherwise `int(v)`, which succeeds exactly when `int` does |
| Decoders.CalendarRows | tradier.py:308 | the records are `days.day`, a single record becoming one row |
| Decoders.DecodeDays | tradier.py:308-320 | one day per record of `days.day`, in order, each keeping its record, with its premarket, open and postmarket ranges the decoded cells of that record; no `date` column raises `KeyError` |
| Decoders.AbsentSessionsAreNone | tradier.py:311-320 | a session a record lacks, or has as null, is absent in its day |
| Decoders.DecodeCalendar | tradier.py:305-333 | no data exactly when `calendar` is missing or null; otherwise one day per record of `days.day`, in order, each with the decoded ranges of its three sessions, and the year and month are `YearOrMonth` of the reply |
| Session.Quotes | tradier.py:141-149 | asks for the quotes path and answers with the table of `quotes.quote`, or the `HttpError` |
| Session.Timesales | tradier.py:158-182 | asks `markets/timesales` with the filtered parameters and answers with the table of `series.data`, or the `HttpError` |
| Session.OptionChain | tradier.py:188-201 | asks `markets/options/chains` with symbol and expiration and answers with the table of `options.option`, or the `HttpError` |
| Session.OptionStrikes | tradier.py:205-217 | asks `markets/options/strikes` and answers with `strikes.strike`, or the `HttpError` |
| Session.OptionExpirations | tradier.py:219-224 | asks the expirations path and answers with `expirations.date`, or the `HttpError` |
| Session.HistoricalPricing | tradier.py:226-244 | asks `markets/history` with the filtered parameters and answers with the table of `history.day`, or the `HttpError` |
| Session.ClockNow | tradier.py:249-269 | asks `markets/clock` and answers with the decoded clock, or the `HttpError` |
| Session.CalendarFor | tradier.py:271-333 | an empty integer sequence raises `IndexError` before asking; otherwise asks `markets/calendar` with year/month and answers with the decoded calendar, or the `HttpError` |
| Session.Search | tradier.py:335-344 | asks `markets/search` with the corrected parameters and answers with the table of `securities.security`, or the `HttpError` |
| Session.Lookup | tradier.py:346-366 | no identifying argument raises `ValueError`; otherwise asks `markets/lookup` and answers with the table of `securities.security`, or the `HttpError` |
| Session.LookupWithoutArgumentsSendsNothing | tradier.py:359-360 | the `ValueError` is the same whatever the server would answer, so no request is made |
| Session.ErrorStatusSkipsDecoding | tradier.py:133-139 | a non-2xx reply raises `HttpError` with its status, reason and text, whatever its body holds |

## Left out

- The aiohttp transport (tradier.py:100-139): `ClientSession`, `request`, `json`, `text`, `close` and the context-manager release are I/O over a library not shown. The reply is a parameter of the model.
- The session headers (tradier.py:381-390): `Authorization: Bearer <token>` and `Accept: application/json` are handed to aiohttp, not used by any modelled logic. The model keeps the token in `Transport.Client` only.
- `_synchronously`, `SyncClient` and the `AsyncClient` methods that open a session per call (tradier.py:72-74, 392 onwards): event-loop and connection plumbing around the same `Session` calls.
- pandas: building frames and series, `set_index`, `to_datetime` of columns, `drop`, the per-key conversions of quotes. The quotes, timesales, option, history, search and lookup decoders stop at the list of records a frame would be built from, and their frame-level errors, such as a record without `symbol`, are not modelled. The calendar decoder goes further: it models the column lookups, with their `KeyError` when no record has `date`, `premarket`, `open` or `postmarket` (tradier.py:309, 320), and `to_time_range` on each cell (tradier.py:319-320). It does not model the in-place column update, `to_datetime` of `date`, or `set_index`.
- The float scaling `* 1e6` / `* 1e9` (tradier.py:153, 183, 253): floating point. Timestamps are integer seconds, so no rounding occurs in the model.
- JSON numbers other than integers: floats are not part of `JsonValues.Json`.
- The `exchanges` and `option_exchanges` tables (tradier.py:10-50): constant data with no logic.
- Text.ParseInt: accepts only ASCII digits with an optional sign. Python's `int` also accepts surrounding whitespace, underscores between digits and non-ASCII decimal digits. CPython (3.11 on, and the 3.7-3.10 security releases) raises `ValueError` for a literal of more than 4300 digits; the model parses it. So an `_from_iso_time` field of more than 4300 digits gives `OverflowError` in the model where CPython raises `ValueError` inside `int` (tradier.py:56).
- Text.IntString: CPython raises `ValueError` from `str(i)` when `i` has more than 4300 digits; the model always gives the numeral. So `calendar(10**4300)`, or a tuple holding such a number, sends a year or month where CPython raises (tradier.py:286, 290, 292).
- Times.FromIsoTime: a missing value stands for pandas' NaN. Only text and missing values are modelled. Other non-null inputs go through `Decoders.IsoTimeOf`, which raises `AttributeError` for numbers, booleans, lists and objects.
- Times.ConvertDatetime: date-times are naive. The `+HH:MM` suffix of an aware `datetime` is not modelled. The time part is proved to read back only when it has no microseconds, because `ParseTime` does not read the `.ffffff` part.
- Marshal.CalendarYearMonth: a calendar argument of another type (a float, say) would leave `year` unbound and raise `UnboundLocalError`. The argument datatype has no such case. A `datetime` counts as its date, as in Python. The argument datatype has no `bool` case either: Python would take `True` as an integer and send `year=True` (tradier.py:291-292).
- Marshal.SearchParams: `indexes` is a `bool`. The source's default `None` behaves as `False`.
- Decoders.SnapshotInstant: a JSON `true`/`false` timestamp counts as 1/0, as Python's bool arithmetic does. Every integer timestamp is accepted: the pandas `Timestamp` of tradier.py:253 is 64-bit nanoseconds, covering only 1677-09-21 to 2262-04-11. Beyond that range `pd.to_datetime` raises `OutOfBoundsDatetime` (for a timestamp of 10 000 000 000, say), and `next_date += timedelta(days=1)` at tradier.py:262 can overflow near its upper end. The model raises neither.
- Decoders.IsoTimeOf: a JSON list is refused with `AttributeError`. In the source `pd.isna` tests a list element by element (tradier.py:54): `[None]` is returned as it is, a list of two or more values raises `ValueError` (ambiguous truth value), and `["16:00"]` reaches `split` and raises `AttributeError`.
- Decoders.ToTimeRange: a list-valued session cell raises `TypeError`. In the source `pd.isna` at tradier.py:312 tests it element by element: a day with `"open": [null]` keeps `[None]` as its session, and a list of two or more values raises `ValueError`.
- Session.Search: with `indexes=True` the session sends one `indexes=true` pair, where the source as written sends the two bare strings `'indexes'` and `'true'` (tradier.py:338); see Findings.
- The search path as written is modelled (`Marshal.SearchParamsAsWritten`). The session uses the corrected list; see Findings.

## Findings

| source | as written | input that shows it | evidently intended | confidence | as-written member | corrected member |
|---|---|---|---|---|---|---|
| tradier.py:338 | `params += ('indexes', 'true')` extends the list with the two strings `'indexes'` and `'true'`, not with one pair | `search(query, indexes=True)` | the list gains the one pair `('indexes', 'true')` | high; not executed | Marshal.SearchIndexesMalformed | Marshal.SearchParams |
