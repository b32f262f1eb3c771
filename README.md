# Stock statistics service — Dafny model

This project models the core of a small stock-statistics web service. The endpoint takes a ticker and an optional date range. It returns the number of trading days, the highest high, the lowest low, the mean close and the last close over that range. The data comes from an external historical-price provider. Results are memoised in a process-wide cache.

The model covers the service layer `app/services.py`:

- `dates.dfy` (module `Dates`): `_normalize_range` as the pure function `NormalizeRange`. Calendar dates are proleptic Gregorian day numbers (`date.toordinal()`), valid from 1 (0001-01-01) to 3652059 (9999-12-31). "Today" is a parameter instead of a clock read.
- `aggregation.dfy` (module `Aggregation`): the pandas reductions as recursive functions over a `seq<Row>`. `Summarize` packages them into the response record.
- `services.dfy` (module `Services`): `compute_stats`. The pure function `Respond` specifies one call. It maps a cache, the arguments, "today" and a provider to the reply, the new cache and the provider queries made. The class `StatsService` holds the cache as a `map<Key, StatsResult>` field and a ghost log of provider queries. Its method `ComputeStats` reads and writes that field, and its postcondition equates its effect with `Respond`.
- `models.dfy` (module `Models`): the response record of `app/models.py`, the provider row, the error kinds, and `Option`/`Result`.

The provider is a total function from a `Query` (ticker and half-open day window) to `ProviderFailure(cause)` or `Rows(rows)`. A reply is `Success(Some(stats))`, `Success(None)` for "no data", or `Failure(error)`. The error is one of `InvalidRange`, `DateOverflow` or `UpstreamError(ticker, cause)`.

Edge cases of the code that the model keeps:

- The docstring of `_normalize_range` calls the resolved range "guaranteed to be valid". The code only rejects an inverted range when both dates are given. A start given alone that lies after today resolves to `start > end`. `Dates.NormalizeOrdered` proves ordering only for the cases where it holds. `Dates.NormalizeStartAfterToday` shows the case where it fails. The model follows the code.
- `end - 365 days` below 0001-01-01 raises `OverflowError` outside the `try`. The model returns `DateOverflow`, unwrapped, before the cache or the provider is touched (`Services.RespondDateOverflow`).
- `end + 1 day` on 9999-12-31 raises inside the `try`. It is therefore wrapped like a provider failure, and the provider is never called. The model returns `UpstreamError(ticker, "date value out of range")` and records no query.
- Only results are cached. "No data" and failures are not, so a repeated call asks the provider again (`Services.RespondNoResultRefetches`).
- The cache key holds the ticker exactly as `compute_stats` receives it. Upper-casing happens in the router.

## Model

| member | source | states |
|---|---|---|
| `Dates.NormalizeRange` | app/services.py:15-35 | every resolved date is a valid calendar date; the only failures are InvalidRange and DateOverflow; InvalidRange only for an inverted explicit range, DateOverflow only for a defaulted start |
| `Dates.NormalizeRejectsInverted` | app/services.py:27-28 | with both dates given, the range is rejected as InvalidRange exactly when start > end |
| `Dates.NormalizeFailsOnlyWhen` | app/services.py:27-33 | normalisation fails iff both dates are given and inverted, or the start is defaulted below the first calendar day; it fails with InvalidRange iff the former and with DateOverflow iff the latter |
| `Dates.NormalizeEnd` | app/services.py:30-31 | the resolved end is today when end is absent, and the given end otherwise |
| `Dates.NormalizeStart` | app/services.py:32-33 | the resolved start is the resolved end minus 365 days when start is absent, and the given start otherwise |
| `Dates.NormalizeOrdered` | app/services.py:24-35 | resolved start <= resolved end whenever the start was defaulted or both dates were given |
| `Dates.NormalizeStartAfterToday` | app/services.py:25-33 | a start given alone after today resolves to (start, today), an inverted range, despite the docstring's claim |
| `Aggregation.MaxHigh` | app/services.py:95 | the high is >= every row's high and equals some row's high |
| `Aggregation.MinLow` | app/services.py:96 | the low is <= every row's low and equals some row's low |
| `Aggregation.LastClose` | app/services.py:98 | the last close is present exactly for a non-empty series and is the close of the final row |
| `Aggregation.AvgClose` | app/services.py:97 | the mean close is neither below every close nor above every close |
| `Aggregation.SumCloseStrict` | app/services.py:97 | closes all strictly above lo (below hi) sum to more than n*lo (less than n*hi) |
| `Aggregation.Summarize` | app/services.py:95-110 | count is the number of rows; high/low bound and are attained by the rows; mean close times count is the sum of closes; last close is the final row's close; ticker and dates are carried through |
| `Aggregation.SumCloseBounds` | app/services.py:97 | closes within [lo, hi] sum to between n*lo and n*hi |
| `Aggregation.AvgCloseBetween` | app/services.py:97 | the mean close lies within any bounds that hold for every close |
| `Aggregation.SummarizeConsistent` | app/services.py:95-98 | on rows with low <= close <= high: result low <= high, and mean close and last close lie between them |
| `Aggregation.LastCloseIsLatest` | app/services.py:98 | on date-ordered rows, every row before the final one is strictly older, and the last close is the close of the latest-dated row |
| `Aggregation.SmokeSeries` | tests/test_api.py:17-48 | the three-row fixture (lines 17-29) reduces to count 3, high 106, low 99, mean 103.5, last 105.5, the values asserted at lines 40-48 |
| `Services.StatsKey` | app/services.py:68-69 | the key carries the "stats" namespace tag, the ticker as passed in and both resolved dates |
| `Services.StatsKeyInjective` | app/services.py:68-69 | two requests share a key exactly when ticker, resolved start and resolved end all agree |
| `Services.InclusiveQuery` | app/services.py:79-81 | the provider window contains a day iff it lies in the inclusive resolved range |
| `Services.Classify` | app/services.py:83-110 | provider failure iff UpstreamError carrying the ticker and cause; zero rows iff "no data"; otherwise the summary of the rows |
| `Services.Respond` | app/services.py:66-115 | one call never removes or changes a cached entry and consults the provider at most once |
| `Services.RespondInvalidRange` | app/services.py:27-28 | an inverted explicit range fails with InvalidRange, leaves the cache unchanged and fetches nothing |
| `Services.RespondRangeFailure` | app/services.py:66 | any normalisation failure is the reply unchanged (not wrapped as an upstream error), with the cache unchanged and nothing fetched |
| `Services.RespondDateOverflow` | app/services.py:32-33 | a start defaulted below 0001-01-01 fails with DateOverflow, with the cache unchanged and nothing fetched |
| `Services.RespondHit` | app/services.py:69-74 | on a cache hit the stored result is returned, nothing is fetched and the cache is unchanged |
| `Services.RespondMiss` | app/services.py:77-113 | on a miss the provider is asked once for [start, end + 1); failure gives UpstreamError(ticker), zero rows give "no data", and in both cases the cache is unchanged; rows give their summary stored under exactly the request's key; at the last calendar day the call fails without fetching |
| `Services.RespondSuccess` | app/services.py:101-113 | over a consistent cache a result carries the resolved dates, the cache stays consistent and gains at most the request's key, which maps to the result |
| `Services.RespondRepeat` | app/services.py:69-74 | after a call that produced a result, the same call on the same day returns it without fetching or changing the cache, whatever the provider would answer the second time |
| `Services.RespondNoResultRefetches` | app/services.py:83-89 | a miss that produced no result leaves the cache unchanged, so repeating it sends the same query again and replies with whatever the provider answers then |
| `Services.RespondSmokeScenario` | tests/test_api.py:17-48 | MSFT with the fixture rows (lines 17-29), over the explicit range 2024-01-01..2024-12-31 in place of the test's clock-relative default range, returns count 3, high 106, low 99, mean 103.5, last 105.5, as asserted at lines 40-48, and caches it |
| `Services.StatsService.constructor` | tests/conftest.py:4-8 | a fresh service has an empty cache and has made no queries |
| `Services.StatsService.Get` | app/services.py:72-73 | the lookup hits exactly for cached keys and returns the stored result |
| `Services.StatsService.Set` | app/services.py:113 | the store overwrites exactly one key |
| `Services.StatsService.Clear` | tests/conftest.py:6-8 | after clearing, every key misses |
| `Services.StatsService.ComputeStats` | app/services.py:38-115 | reply, new cache and queries made are those of Respond on the cache before the call; a consistent cache stays consistent |
| `Services.StatsService.ComputeStatsTwice` | app/services.py:69-74 | two identical calls on the same day, each against the provider as it answers at that time: together they behave as Respond twice in sequence, and once the first yields a result the second returns it and makes no provider query |

## Left out

- The provider call `yf.Ticker(ticker).history(...)` (app/services.py:80-81) is a foreign library call. It is a function parameter from query to outcome. The model does not constrain which rows the provider returns for a window.
- The `float(...)` conversions and `round(..., 6)` (app/services.py:95-98, 106-109) are floating point. The model computes exact reals, so the result fields are the unrounded statistics. NaN handling by pandas' `max`/`min`/`mean` is left out for the same reason.
- The column title-casing `df.rename(columns=str.title)` (app/services.py:92) is pandas-specific. Rows already carry `high`, `low` and `close` fields.
- `date.today()` (app/services.py:31) reads the clock. It is the `today` parameter.
- The ISO rendering of dates (`isoformat()`, app/services.py:69, 103-104) is an injective encoding of the day number. The model keeps the day numbers.
- `app/cache.py` is not part of this model. The cache is a plain map with get, set and clear. `make_key` is taken to be injective, so the key is a datatype. Thread safety of the shared cache is not modelled, because the model has no concurrency.
- The HTTP routing in `app/main.py` is left out. So are the ticker's `strip().upper()` and the status mapping: `ValueError` becomes 400, and everything else becomes 500. That includes "no data", because the router raises its 404 inside the same `try` and its catch-all `except Exception` turns it into a 500.
