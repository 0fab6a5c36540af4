/** `src/app/hooks/useTrendingData.ts`: the hook behind the trending sidebar.
    It serves the trending data from a two-key `localStorage` cache while the
    cache is younger than fifteen minutes, otherwise asks the trending route,
    caches a good answer with the current time, and on failure records the
    error and falls back to whatever is cached, however old. Each run of
    the effect has its own `mounted` flag, which keeps a late answer to that
    run's request from touching the state once the run is cleaned up, even
    when the effect has run again since. The
    clock is a parameter; the request is split at its `await`. */
module TrendingCache {
  import opened Common
  import opened Decimal
  import opened TrendingRoute

  const CacheDuration: int := 900000

  /** What `localStorage.getItem('trendingData')` can hold: the
      `JSON.stringify` of some data, or a text that `JSON.parse` rejects with
      the given message. */
  datatype CachedText = Serialized(data: TrendingPayload) | Corrupt(text: string, parseError: string)

  /** The cached text is truthy: a serialized object never is empty. */
  predicate Present(c: Option<CachedText>)
  {
    c.Some? && (c.value.Corrupt? ==> c.value.text != "")
  }

  /** The cache may be used without asking the route: both keys are
      present, and the stored time, read with `parseInt`, is less than
      fifteen minutes before `now` (a `NaN` time is never fresh). */
  predicate Fresh(cachedData: Option<CachedText>, cachedTimestamp: Option<string>, now: int)
  {
    Present(cachedData) && Truthy(cachedTimestamp)
    && ParseInt(cachedTimestamp.value).Some? && now - ParseInt(cachedTimestamp.value).value < CacheDuration
  }

  /** The body of the trending route: its optional `error` field, and the data. */
  datatype ApiBody = ApiBody(error: Option<string>, payload: TrendingPayload)

  /** What the awaited request produced: `fetch` or `response.json()`
      threw with a message, the status was not ok, or a body arrived. */
  datatype FetchOutcome = Threw(message: string) | HttpError | Received(body: ApiBody)

  /** How the two cache writes went: both stored, the first one threw
      (nothing stored), or the second one threw (only the data stored). */
  datatype CacheWrite = BothWritten | DataWriteFailed | TimestampWriteFailed

  const HttpErrorMessage := "Failed to fetch trending data"

  /** The request succeeded: an ok status and a body without a truthy `error`. */
  predicate Succeeded(outcome: FetchOutcome)
  {
    outcome.Received? && !Truthy(outcome.body.error)
  }

  /** The message of the error `fetchTrendingData` catches. */
  function FailureMessage(outcome: FetchOutcome): (m: string)
    requires !Succeeded(outcome)
    ensures outcome.HttpError? ==> m == HttpErrorMessage
    ensures outcome.Threw? ==> m == outcome.message
    ensures outcome.Received? ==> m == outcome.body.error.value && m != ""
  {
    match outcome
    case Threw(m) => m
    case HttpError => HttpErrorMessage
    case Received(body) => body.error.value
  }

  /** The data of the failure fallback: the cached data when present and
      parsable, whatever its age; otherwise the data as it was. */
  function Fallback(cachedData: Option<CachedText>, data: Option<TrendingPayload>): (r: Option<TrendingPayload>)
    ensures cachedData.Some? && cachedData.value.Serialized? ==> r == Some(cachedData.value.data)
    ensures !(cachedData.Some? && cachedData.value.Serialized?) ==> r == data
  {
    if Present(cachedData) && cachedData.value.Serialized? then Some(cachedData.value.data) else data
  }

  /** A cache written at time `t` is fresh at `now` exactly when fewer than
      fifteen minutes have passed: the time survives `toString` and
      `parseInt`. */
  lemma WrittenCacheFresh(d: TrendingPayload, t: int, now: int)
    ensures Fresh(Some(Serialized(d)), Some(IntToString(t)), now) <==> now - t < CacheDuration
  {
    IntToStringParses(t);
    assert IntToString(t) != "" by {
      if t >= 0 { assert |NatToString(t)| >= 1; }
    }
  }

  /** The hook's state and the two cache keys it reads and writes. Every
      run of the effect has its own `mounted` variable: runs are numbered
      from 0 in the order they start, `live` holds the runs whose variable
      is still true, and `nextRun` is the number of the next run. */
  class TrendingHook {
    var data: Option<TrendingPayload>
    var loading: bool
    var error: Option<string>
    var live: set<nat>
    var nextRun: nat
    var cachedData: Option<CachedText>
    var cachedTimestamp: Option<string>

    /** Only runs that have started can still be mounted. */
    predicate Valid()
      reads this
    {
      forall r :: r in live ==> r < nextRun
    }

    /** The first render: no data, loading, no error, over the given cache. */
    constructor (cachedData0: Option<CachedText>, cachedTimestamp0: Option<string>)
      ensures Valid()
      ensures data.None? && loading && error.None? && live == {} && nextRun == 0
      ensures cachedData == cachedData0 && cachedTimestamp == cachedTimestamp0
    {
      data, loading, error, live, nextRun := None, true, None, {}, 0;
      cachedData, cachedTimestamp := cachedData0, cachedTimestamp0;
    }

    /** The effect and `fetchTrendingData` up to its first `await`. A fresh
        cache is served without a request: its data when it parses, or its
        parse error (the fallback then finds the same unparsable text); in
        both cases loading ends. Otherwise the request goes out and nothing
        else changes. The cache is only read. `run` is this run's number: a
        new one, whose `mounted` is true. */
    method Start(now: int) returns (run: nat, fetching: bool)
      requires Valid()
      modifies this
      ensures Valid()
      ensures run == old(nextRun) && run !in old(live)
      ensures live == old(live) + {run} && nextRun == old(nextRun) + 1
      ensures fetching <==> !Fresh(old(cachedData), old(cachedTimestamp), now)
      ensures !fetching && cachedData.Some? && cachedData.value.Serialized? ==>
        data == Some(cachedData.value.data) && !loading && error == old(error)
      ensures !fetching && cachedData.Some? && cachedData.value.Corrupt? ==>
        data == old(data) && !loading && error == Some(cachedData.value.parseError)
      ensures fetching ==> data == old(data) && loading == old(loading) && error == old(error)
      ensures cachedData == old(cachedData) && cachedTimestamp == old(cachedTimestamp)
    {
      run := nextRun;
      live := live + {run};
      nextRun := nextRun + 1;
      if Fresh(cachedData, cachedTimestamp, now) {
        match cachedData.value {
          case Serialized(d) =>
            data := Some(d);
          case Corrupt(_, parseError) =>
            error := Some(parseError);
            data := Fallback(cachedData, data);
        }
        loading := false;
        return run, false;
      }
      return run, true;
    }

    /** The cleanup of run `run`: that run's `mounted = false`; the other
        runs' flags are untouched. */
    method Unmount(run: nat)
      requires Valid()
      modifies this
      ensures Valid()
      ensures live == old(live) - {run} && nextRun == old(nextRun)
      ensures data == old(data) && loading == old(loading) && error == old(error)
      ensures cachedData == old(cachedData) && cachedTimestamp == old(cachedTimestamp)
    {
      live := live - {run};
    }

    /** `fetchTrendingData` of run `run` after its `await`, at time `now`.
        Once that run is unmounted nothing changes, whatever later runs
        exist. Otherwise a good answer becomes the data and is cached with
        `now` as far as `write` allows; a failure records its message and
        falls back to the cache; loading ends either way. */
    method Complete(run: nat, outcome: FetchOutcome, now: int, write: CacheWrite)
      requires Valid()
      modifies this
      ensures Valid()
      ensures run !in old(live) ==>
        data == old(data) && loading == old(loading) && error == old(error)
        && cachedData == old(cachedData) && cachedTimestamp == old(cachedTimestamp)
      ensures run in old(live) ==> !loading
      ensures run in old(live) && Succeeded(outcome) ==>
        data == Some(outcome.body.payload) && error == old(error)
      ensures run in old(live) && Succeeded(outcome) && write.BothWritten? ==>
        cachedData == Some(Serialized(outcome.body.payload)) && cachedTimestamp == Some(IntToString(now))
      ensures run in old(live) && Succeeded(outcome) && write.DataWriteFailed? ==>
        cachedData == old(cachedData) && cachedTimestamp == old(cachedTimestamp)
      ensures run in old(live) && Succeeded(outcome) && write.TimestampWriteFailed? ==>
        cachedData == Some(Serialized(outcome.body.payload)) && cachedTimestamp == old(cachedTimestamp)
      ensures run in old(live) && !Succeeded(outcome) ==>
        error == Some(FailureMessage(outcome)) && data == Fallback(old(cachedData), old(data))
        && cachedData == old(cachedData) && cachedTimestamp == old(cachedTimestamp)
      ensures live == old(live) && nextRun == old(nextRun)
    {
      if run !in live {
        return;
      }
      if Succeeded(outcome) {
        data := Some(outcome.body.payload);
        match write {
          case BothWritten =>
            cachedData := Some(Serialized(outcome.body.payload));
            cachedTimestamp := Some(IntToString(now));
          case DataWriteFailed =>
          case TimestampWriteFailed =>
            cachedData := Some(Serialized(outcome.body.payload));
        }
      } else {
        error := Some(FailureMessage(outcome));
        data := Fallback(cachedData, data);
      }
      loading := false;
    }
  }
}
