/** compute_stats: normalise the range, look the request up in the
    process-wide cache, otherwise fetch the rows for the inclusive range from
    the price provider, classify the outcome, reduce the rows and store the
    result. */
module Services {
  import opened Models
  import opened Dates
  import opened Aggregation

  /** Cache keys are built from a namespace tag, the ticker as passed in, and
      the two resolved dates; the key builder is taken to be injective. */
  const StatsNamespace: string := "stats"

  datatype Key = Key(namespace: string, ticker: string, start: Day, end: Day)

  function StatsKey(ticker: string, start: Day, end: Day): (k: Key)
    ensures k.namespace == StatsNamespace
    ensures k.ticker == ticker && k.start == start && k.end == end
  {
    Key(StatsNamespace, ticker, start, end)
  }

  /** Two requests share a cache entry exactly when they name the same ticker
      and the same resolved dates. */
  lemma StatsKeyInjective(t1: string, s1: Day, e1: Day, t2: string, s2: Day, e2: Day)
    ensures StatsKey(t1, s1, e1) == StatsKey(t2, s2, e2) <==> t1 == t2 && s1 == s2 && e1 == e2
  {
  }

  /** A provider request: daily rows for `ticker` on days start <= d < endExclusive. */
  datatype Query = Query(ticker: string, start: Day, endExclusive: Day)

  /** What the provider answers: it fails with a message, or it returns rows. */
  datatype FetchOutcome = ProviderFailure(cause: string) | Rows(rows: seq<Row>)

  /** Success(Some(stats)), Success(None) for "no data", or an error. */
  type Reply = Result<Option<StatsResult>, Error>

  /** Message of the overflow raised when the exclusive end passes the last
      calendar day; it is wrapped like any other fetch failure. */
  const OverflowCause: string := "date value out of range"

  /** Day `d` lies in the half-open window the provider is asked for. */
  predicate Covers(q: Query, d: Day) {
    q.start <= d < q.endExclusive
  }

  /** The provider query for the inclusive range [start, end]: it covers both
      end points and nothing outside them. */
  function InclusiveQuery(ticker: string, start: Day, end: Day): (q: Query)
    ensures q.ticker == ticker
    ensures forall d :: Covers(q, d) <==> start <= d <= end
  {
    Query(ticker, start, end + 1)
  }

  /** Classifies a provider outcome: a failure becomes an UpstreamError naming
      the ticker, zero rows become "no data", anything else is summarised. */
  function Classify(ticker: string, start: Day, end: Day, outcome: FetchOutcome): (r: Reply)
    ensures r.Failure? <==> outcome.ProviderFailure?
    ensures outcome.ProviderFailure? ==> r.error == UpstreamError(ticker, outcome.cause)
    ensures r == Success(None) <==> outcome == Rows([])
    ensures r.Success? && r.value.Some? ==>
      outcome.Rows? && r.value.value == Summarize(ticker, start, end, outcome.rows)
  {
    match outcome
    case ProviderFailure(cause) => Failure(UpstreamError(ticker, cause))
    case Rows(rows) => if |rows| == 0 then Success(None) else Success(Some(Summarize(ticker, start, end, rows)))
  }

  /** The effect of one compute_stats call: its reply, the cache afterwards,
      and the provider queries it made. */
  datatype Step = Step(reply: Reply, cache: map<Key, StatsResult>, queries: seq<Query>)

  /** Specification of compute_stats against a cache and a provider. */
  function Respond(cache: map<Key, StatsResult>, ticker: string, start: Option<Day>, end: Option<Day>,
                   today: Day, provider: Query -> FetchOutcome): (st: Step)
    requires IsDate(today) && IsOptDate(start) && IsOptDate(end)
    ensures cache.Keys <= st.cache.Keys
    ensures forall k :: k in cache ==> st.cache[k] == cache[k]
    ensures |st.queries| <= 1
  {
    match NormalizeRange(start, end, today)
    case Failure(err) => Step(Failure(err), cache, [])
    case Success(range) =>
      var key := StatsKey(ticker, range.0, range.1);
      if key in cache then
        Step(Success(Some(cache[key])), cache, [])
      else if range.1 + 1 > MaxDay then
        Step(Failure(UpstreamError(ticker, OverflowCause)), cache, [])
      else
        var q := InclusiveQuery(ticker, range.0, range.1);
        var reply := Classify(ticker, range.0, range.1, provider(q));
        if reply.Success? && reply.value.Some? then
          Step(reply, cache[key := reply.value.value], [q])
        else
          Step(reply, cache, [q])
  }

  /** An inverted explicit range fails before the cache or the provider is touched. */
  lemma RespondInvalidRange(cache: map<Key, StatsResult>, ticker: string, start: Day, end: Day,
                            today: Day, provider: Query -> FetchOutcome)
    requires IsDate(today) && IsDate(start) && IsDate(end) && start > end
    ensures Respond(cache, ticker, Some(start), Some(end), today, provider) == Step(Failure(InvalidRange), cache, [])
  {
  }

  /** Any normalisation failure is the call's reply as it is, raised before
      the cache or the provider is touched and not wrapped as an upstream error. */
  lemma RespondRangeFailure(cache: map<Key, StatsResult>, ticker: string, start: Option<Day>, end: Option<Day>,
                            today: Day, provider: Query -> FetchOutcome)
    requires IsDate(today) && IsOptDate(start) && IsOptDate(end)
    requires NormalizeRange(start, end, today).Failure?
    ensures Respond(cache, ticker, start, end, today, provider) ==
      Step(Failure(NormalizeRange(start, end, today).error), cache, [])
  {
  }

  /** A start defaulted below the first calendar day fails with DateOverflow,
      before the cache or the provider is touched. */
  lemma RespondDateOverflow(cache: map<Key, StatsResult>, ticker: string, end: Option<Day>,
                            today: Day, provider: Query -> FetchOutcome)
    requires IsDate(today) && IsOptDate(end)
    requires ResolvedEnd(end, today) - DefaultSpan < MinDay
    ensures Respond(cache, ticker, None, end, today, provider) == Step(Failure(DateOverflow), cache, [])
  {
  }

  /** A cache hit returns the stored result, consults no provider and leaves the cache alone. */
  lemma RespondHit(cache: map<Key, StatsResult>, ticker: string, start: Option<Day>, end: Option<Day>,
                   today: Day, provider: Query -> FetchOutcome)
    requires IsDate(today) && IsOptDate(start) && IsOptDate(end)
    requires NormalizeRange(start, end, today).Success?
    requires StatsKey(ticker, NormalizeRange(start, end, today).value.0, NormalizeRange(start, end, today).value.1) in cache
    ensures var key := StatsKey(ticker, NormalizeRange(start, end, today).value.0, NormalizeRange(start, end, today).value.1);
      Respond(cache, ticker, start, end, today, provider) == Step(Success(Some(cache[key])), cache, [])
  {
  }

  /** On a miss the provider is consulted exactly once, for the inclusive
      resolved range, unless the end is the last calendar day. Whatever it
      answers, only a summarised result changes the cache, and then only at
      the request's key. */
  lemma RespondMiss(cache: map<Key, StatsResult>, ticker: string, start: Option<Day>, end: Option<Day>,
                    today: Day, provider: Query -> FetchOutcome)
    requires IsDate(today) && IsOptDate(start) && IsOptDate(end)
    requires NormalizeRange(start, end, today).Success?
    requires StatsKey(ticker, NormalizeRange(start, end, today).value.0, NormalizeRange(start, end, today).value.1) !in cache
    ensures var (s, e) := NormalizeRange(start, end, today).value;
      var st := Respond(cache, ticker, start, end, today, provider);
      var q := Query(ticker, s, e + 1);
      (e == MaxDay ==> st == Step(Failure(UpstreamError(ticker, OverflowCause)), cache, [])) &&
      (e < MaxDay ==> st.queries == [q]) &&
      (e < MaxDay && provider(q).ProviderFailure? ==>
        st == Step(Failure(UpstreamError(ticker, provider(q).cause)), cache, [q])) &&
      (e < MaxDay && provider(q) == Rows([]) ==> st == Step(Success(None), cache, [q])) &&
      (e < MaxDay && provider(q).Rows? && |provider(q).rows| > 0 ==>
        var v := Summarize(ticker, s, e, provider(q).rows);
        st == Step(Success(Some(v)), cache[StatsKey(ticker, s, e) := v], [q]))
  {
  }

  /** Every cached entry describes the request its key names: same ticker,
      same resolved dates, at least one row and a last close. */
  ghost predicate CacheConsistent(cache: map<Key, StatsResult>) {
    forall k :: k in cache ==>
      cache[k].ticker == k.ticker && cache[k].start == k.start && cache[k].end == k.end &&
      cache[k].count > 0 && cache[k].lastClose.Some?
  }

  /** Over a consistent cache a result reply carries the resolved dates, not
      the requested ones; the cache stays consistent and gains at most the
      request's key. */
  lemma RespondSuccess(cache: map<Key, StatsResult>, ticker: string, start: Option<Day>, end: Option<Day>,
                       today: Day, provider: Query -> FetchOutcome)
    requires IsDate(today) && IsOptDate(start) && IsOptDate(end)
    requires CacheConsistent(cache)
    ensures var st := Respond(cache, ticker, start, end, today, provider);
      CacheConsistent(st.cache) &&
      (st.reply.Success? && st.reply.value.Some? ==>
        NormalizeRange(start, end, today).Success? &&
        var (s, e) := NormalizeRange(start, end, today).value;
        var v := st.reply.value.value;
        v.ticker == ticker && v.start == s && v.end == e && v.count > 0 && v.lastClose.Some? &&
        st.cache.Keys - cache.Keys <= {StatsKey(ticker, s, e)} &&
        StatsKey(ticker, s, e) in st.cache && st.cache[StatsKey(ticker, s, e)] == v)
  {
  }

  /** A second call with the same arguments on the same day, after a call
      that produced a result, returns that result without consulting the
      provider, whatever the provider would now answer. */
  lemma RespondRepeat(cache: map<Key, StatsResult>, ticker: string, start: Option<Day>, end: Option<Day>,
                      today: Day, provider: Query -> FetchOutcome, later: Query -> FetchOutcome)
    requires IsDate(today) && IsOptDate(start) && IsOptDate(end)
    requires Respond(cache, ticker, start, end, today, provider).reply.Success?
    requires Respond(cache, ticker, start, end, today, provider).reply.value.Some?
    ensures var first := Respond(cache, ticker, start, end, today, provider);
      Respond(first.cache, ticker, start, end, today, later) == Step(first.reply, first.cache, [])
  {
  }

  /** "No data" and failures are not cached: a second call on a miss that
      produced no result asks the provider again, with the same query, and
      its reply is whatever the provider answers then. */
  lemma RespondNoResultRefetches(cache: map<Key, StatsResult>, ticker: string, start: Option<Day>, end: Option<Day>,
                                 today: Day, provider: Query -> FetchOutcome, later: Query -> FetchOutcome)
    requires IsDate(today) && IsOptDate(start) && IsOptDate(end)
    requires Respond(cache, ticker, start, end, today, provider).queries != []
    requires !(Respond(cache, ticker, start, end, today, provider).reply.Success? &&
               Respond(cache, ticker, start, end, today, provider).reply.value.Some?)
    ensures var first := Respond(cache, ticker, start, end, today, provider);
      var second := Respond(first.cache, ticker, start, end, today, later);
      first.cache == cache &&
      second.queries == first.queries &&
      second.reply == Classify(ticker, first.queries[0].start, first.queries[0].endExclusive - 1, later(first.queries[0]))
  {
  }

  /** The scenario of the smoke test, with the explicit range
      2024-01-01 .. 2024-12-31 in place of its clock-relative default: MSFT with
      the three fixture rows yields count 3, high 106, low 99, mean close 103.5,
      last close 105.5, and caches that result. */
  lemma RespondSmokeScenario(provider: Query -> FetchOutcome)
    requires provider(Query("MSFT", 738886, 739252)) ==
      Rows([Row(738887, 105.0, 99.0, 104.0), Row(738888, 103.0, 100.0, 101.0), Row(738889, 106.0, 101.0, 105.5)])
    ensures var expected := StatsResult("MSFT", 738886, 739251, 3, 106.0, 99.0, 103.5, Some(105.5));
      Respond(map[], "MSFT", Some(738886), Some(739251), 739251, provider) ==
      Step(Success(Some(expected)), map[StatsKey("MSFT", 738886, 739251) := expected], [Query("MSFT", 738886, 739252)])
  {
  }

  /** The process-wide cache together with the provider queries made so far.
      `queries` is bookkeeping only: it records each consultation of the provider. */
  class StatsService {
    var cache: map<Key, StatsResult>
    ghost var queries: seq<Query>

    constructor ()
      ensures cache == map[] && queries == []
    {
      cache := map[];
      queries := [];
    }

    /** Cache lookup. */
    method Get(key: Key) returns (r: Option<StatsResult>)
      ensures r.Some? <==> key in cache
      ensures r.Some? ==> r.value == cache[key]
    {
      if key in cache {
        r := Some(cache[key]);
      } else {
        r := None;
      }
    }

    /** Cache store: unconditional overwrite of one key. */
    method Set(key: Key, value: StatsResult)
      modifies this
      ensures cache == old(cache)[key := value]
      ensures queries == old(queries)
    {
      cache := cache[key := value];
    }

    /** Removes every entry; a previously cached key misses afterwards. */
    method Clear()
      modifies this
      ensures cache == map[]
      ensures queries == old(queries)
    {
      cache := map[];
    }

    /** compute_stats: the reply, the new cache and the provider queries are
        those Respond specifies for the cache before the call. */
    method ComputeStats(ticker: string, start: Option<Day>, end: Option<Day>, today: Day,
                        provider: Query -> FetchOutcome) returns (r: Reply)
      requires IsDate(today) && IsOptDate(start) && IsOptDate(end)
      modifies this
      ensures var st := Respond(old(cache), ticker, start, end, today, provider);
        r == st.reply && cache == st.cache && queries == old(queries) + st.queries
      ensures old(CacheConsistent(cache)) ==> CacheConsistent(cache)
    {
      if CacheConsistent(cache) {
        RespondSuccess(cache, ticker, start, end, today, provider);
      }
      var range := NormalizeRange(start, end, today);
      if range.Failure? {
        return Failure(range.error);
      }
      var (s, e) := range.value;
      var key := StatsKey(ticker, s, e);
      var cached := Get(key);
      if cached.Some? {
        return Success(cached);
      }
      if e + 1 > MaxDay {
        return Failure(UpstreamError(ticker, OverflowCause));
      }
      var q := InclusiveQuery(ticker, s, e);
      queries := queries + [q];
      var outcome := provider(q);
      r := Classify(ticker, s, e, outcome);
      if r.Success? && r.value.Some? {
        Set(key, r.value.value);
      }
    }

    /** Two identical calls on the same day, each meeting the provider as it
        answers at that time. Once the first has produced a result, the second
        returns it and does not consult the provider; otherwise the second
        behaves like a first call. */
    method ComputeStatsTwice(ticker: string, start: Option<Day>, end: Option<Day>, today: Day,
                             provider: Query -> FetchOutcome, later: Query -> FetchOutcome)
      returns (first: Reply, second: Reply)
      requires IsDate(today) && IsOptDate(start) && IsOptDate(end)
      modifies this
      ensures var st1 := Respond(old(cache), ticker, start, end, today, provider);
        var st2 := Respond(st1.cache, ticker, start, end, today, later);
        first == st1.reply && second == st2.reply && cache == st2.cache &&
        queries == old(queries) + st1.queries + st2.queries
      ensures first.Success? && first.value.Some? ==>
        second == first &&
        queries == old(queries) + Respond(old(cache), ticker, start, end, today, provider).queries
    {
      first := ComputeStats(ticker, start, end, today, provider);
      second := ComputeStats(ticker, start, end, today, later);
      if first.Success? && first.value.Some? {
        RespondRepeat(old(cache), ticker, start, end, today, provider, later);
      }
    }
  }
}
