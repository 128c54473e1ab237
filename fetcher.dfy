/** The retrying HTTP GET that every scraper uses (`get_request`).

    The repository has three copies of the loop, which differ in four
    respects, gathered here in a `Policy`:
    - how the wait grows after a failed attempt (times 4 in
      steam_sales/src/scraping.py and steam_sales/src/collect_metadata.py,
      constant 5 seconds in id_collection.py);
    - what a 429 answer sleeps: `Retry-After` (or the current wait when the
      header is absent), or `Retry-After + 1` with the header mandatory;
    - whether the final log line indexes `parameters['appids']`.

    The network is an environment `env`: `env(k)` is the answer to the k-th
    GET of the call. Sleeps are not performed; they are recorded, together
    with the GETs, in a trace of events. */
module Fetcher {
  import opened PyValues

  /** The outcome of one `requests.get`. Status 429 is "Too Many Requests"
      (section 4 of RFC 6585); `retryAfter` is the delay-seconds form of the
      `Retry-After` header (section 10.2.3 of RFC 9110), absent when the
      response has no such header. */
  datatype Response =
    | Ok(body: Json)                        // status 200, with the body's JSON value
    | RateLimited(retryAfter: Option<nat>)  // status 429
    | OtherStatus(code: int)                // any status other than 200 and 429
    | TransportError                        // SSLError or RequestException raised by the GET

  /** What the `parameters` argument holds, as far as the exhaustion log line cares. */
  datatype ParamKind = NoParameters | WithoutAppids | WithAppids

  datatype Policy = Policy(
    multiplier: nat,            // `wait_time *= multiplier` after each failed attempt
    retryAfterPad: nat,         // seconds added to `Retry-After` before sleeping
    headerRequired: bool,       // `headers["Retry-After"]`: a missing header raises KeyError
    exhaustionLogsAppids: bool) // the give-up log line evaluates `parameters['appids']`

  /** What one call does, in order: GETs (numbered from 0) and sleeps. */
  datatype Event = Request(attempt: nat) | RateLimitSleep(seconds: nat) | BackoffSleep(seconds: nat)

  /** The returned value (a JSON body or None) or the raised exception, and the events. */
  datatype Run = Run(result: Py<Option<Json>>, trace: seq<Event>)

  /** `BaseFetcher.get_request` (steam_sales/src/scraping.py). */
  function BaseFetcherPolicy(multiplier: nat): Policy
  {
    Policy(multiplier, 0, false, true)
  }

  /** `get_request` in steam_sales/src/collect_metadata.py. */
  const MetadataPolicy := Policy(4, 0, false, false)

  /** `get_request` in id_collection.py: the wait stays 5 seconds. */
  const IdCollectionPolicy := Policy(1, 1, true, false)

  /** A response after which the loop goes round again. */
  predicate Retries(p: Policy, r: Response)
  {
    r.TransportError? || (r.RateLimited? && (r.retryAfter.Some? || !p.headerRequired))
  }

  /** What the call does once `max_retries` attempts have failed. */
  function Exhausted(p: Policy, params: ParamKind): Py<Option<Json>>
  {
    if !p.exhaustionLogsAppids then Value(None)
    else match params
      case NoParameters => Raise(TypeError)
      case WithoutAppids => Raise(KeyError)
      case WithAppids => Value(None)
  }

  function Resume(prefix: seq<Event>, run: Run): Run
  {
    Run(run.result, prefix + run.trace)
  }

  /** The wait after a failed attempt: `wait_time *= multiplier`. */
  function Grow(p: Policy, wait: nat): nat
  {
    wait * p.multiplier
  }

  /** The seconds slept on a 429 before the backoff sleep. */
  function Pause(p: Policy, h: Option<nat>, wait: nat): nat
  {
    if h.Some? then h.value + p.retryAfterPad else wait
  }

  /** `response.json()`: a body that is JSON `null` decodes to Python's None,
      which the callers' `json_data is None` tests cannot tell from a failed
      fetch. */
  function Decoded(body: Json): (r: Option<Json>)
    ensures r == None <==> body == JNull
    ensures r.Some? ==> r.value == body
  {
    if body.JNull? then None else Some(body)
  }

  /** The events of attempt `k` when its answer `r` is retried. */
  function RoundEvents(p: Policy, r: Response, k: nat, wait: nat): seq<Event>
    requires Retries(p, r)
  {
    if r.TransportError? then [Request(k), BackoffSleep(wait)]
    else [Request(k), RateLimitSleep(Pause(p, r.retryAfter, wait)), BackoffSleep(wait)]
  }

  /** The call from attempt `k` on, with `wait` the current `wait_time`. */
  function Attempt(p: Policy, env: nat -> Response, k: nat, maxRetries: int, wait: nat, params: ParamKind): Run
    decreases maxRetries - k
  {
    if k >= maxRetries then Run(Exhausted(p, params), [])
    else
      var r := env(k);
      if r.Ok? then Run(Value(Decoded(r.body)), [Request(k)])
      else if r.OtherStatus? then Run(Value(None), [Request(k)])
      else if !Retries(p, r) then Run(Raise(KeyError), [Request(k)])  // `headers["Retry-After"]`
      else Resume(RoundEvents(p, r, k, wait), Attempt(p, env, k + 1, maxRetries, Grow(p, wait), params))
  }

  /** A retried attempt, seen from the loop: its events join the trace and
      the call goes on from the next attempt with the grown wait. */
  lemma RetryResumes(p: Policy, env: nat -> Response, k: nat, maxRetries: int, wait: nat, params: ParamKind, prefix: seq<Event>)
    requires k < maxRetries && Retries(p, env(k))
    ensures Resume(prefix, Attempt(p, env, k, maxRetries, wait, params))
         == Resume(prefix + RoundEvents(p, env(k), k, wait), Attempt(p, env, k + 1, maxRetries, Grow(p, wait), params))
  {
    var round := RoundEvents(p, env(k), k, wait);
    var next := Attempt(p, env, k + 1, maxRetries, Grow(p, wait), params);
    assert Attempt(p, env, k, maxRetries, wait, params) == Resume(round, next);
    assert (prefix + round) + next.trace == prefix + (round + next.trace);
  }

  /** The retry loop: `try_count` counts failed attempts, `wait_time` grows by the multiplier. */
  method GetRequest(p: Policy, env: nat -> Response, params: ParamKind, maxRetries: int, waitTime: nat)
    returns (r: Py<Option<Json>>, ghost trace: seq<Event>)
    ensures r == Attempt(p, env, 0, maxRetries, waitTime, params).result
    ensures Run(r, trace) == Attempt(p, env, 0, maxRetries, waitTime, params)
  {
    var tryCount: nat := 0;
    var wait: nat := waitTime;
    trace := [];
    assert Resume([], Attempt(p, env, 0, maxRetries, waitTime, params)).trace
        == [] + Attempt(p, env, 0, maxRetries, waitTime, params).trace;
    while tryCount < maxRetries
      invariant Attempt(p, env, 0, maxRetries, waitTime, params)
             == Resume(trace, Attempt(p, env, tryCount, maxRetries, wait, params))
      decreases maxRetries - tryCount
    {
      var response := env(tryCount);
      if response.Ok? {
        trace := trace + [Request(tryCount)];
        r := Value(Decoded(response.body));
        return;
      } else if response.OtherStatus? {
        trace := trace + [Request(tryCount)];
        r := Value(None);
        return;
      } else if response.RateLimited? && response.retryAfter.None? && p.headerRequired {
        trace := trace + [Request(tryCount)];
        r := Raise(KeyError);
        return;
      }
      // the GET, the 429 pause if any, and the backoff sleep
      RetryResumes(p, env, tryCount, maxRetries, wait, params, trace);
      trace := trace + RoundEvents(p, response, tryCount, wait);
      tryCount := tryCount + 1;
      wait := Grow(p, wait);
    }
    assert trace + [] == trace;
    r := Exhausted(p, params);
  }

  // ---------------------------------------------------------------------------
  // Views of a trace

  /** The attempt numbers of the GETs, in order. */
  function Requests(t: seq<Event>): seq<nat>
  {
    if t == [] then [] else (if t[0].Request? then [t[0].attempt] else []) + Requests(t[1..])
  }

  /** The backoff sleeps (`time.sleep(wait_time)` after a failed attempt), in order. */
  function Backoffs(t: seq<Event>): seq<nat>
  {
    if t == [] then [] else (if t[0].BackoffSleep? then [t[0].seconds] else []) + Backoffs(t[1..])
  }

  lemma ViewsAppend(a: seq<Event>, b: seq<Event>)
    ensures Requests(a + b) == Requests(a) + Requests(b)
    ensures Backoffs(a + b) == Backoffs(a) + Backoffs(b)
  {
    RequestsAppend(a, b);
    BackoffsAppend(a, b);
  }

  lemma {:induction false} RequestsAppend(a: seq<Event>, b: seq<Event>)
    ensures Requests(a + b) == Requests(a) + Requests(b)
  {
    if a == [] {
      assert a + b == b;
    } else {
      assert (a + b)[0] == a[0];
      assert (a + b)[1..] == a[1..] + b;
      RequestsAppend(a[1..], b);
      var head := if a[0].Request? then [a[0].attempt] else [];
      assert (head + Requests(a[1..])) + Requests(b) == head + (Requests(a[1..]) + Requests(b));
    }
  }

  lemma {:induction false} BackoffsAppend(a: seq<Event>, b: seq<Event>)
    ensures Backoffs(a + b) == Backoffs(a) + Backoffs(b)
  {
    if a == [] {
      assert a + b == b;
    } else {
      assert (a + b)[0] == a[0];
      assert (a + b)[1..] == a[1..] + b;
      BackoffsAppend(a[1..], b);
      var head := if a[0].BackoffSleep? then [a[0].seconds] else [];
      assert (head + Backoffs(a[1..])) + Backoffs(b) == head + (Backoffs(a[1..]) + Backoffs(b));
    }
  }

  /** A retried attempt issues one GET and one backoff sleep of the current wait. */
  lemma RoundViews(p: Policy, r: Response, k: nat, wait: nat)
    requires Retries(p, r)
    ensures Requests(RoundEvents(p, r, k, wait)) == [k]
    ensures Backoffs(RoundEvents(p, r, k, wait)) == [wait]
  {
    var e := RoundEvents(p, r, k, wait);
    var last := [BackoffSleep(wait)];
    assert Requests(last) == [] && Backoffs(last) == [wait] by {
      assert last[1..] == [];
    }
    if r.TransportError? {
      assert e[1..] == last;
    } else {
      var mid := [RateLimitSleep(Pause(p, r.retryAfter, wait))] + last;
      assert mid[1..] == last;
      assert e[1..] == mid;
    }
  }

  /** Unfolds one retried attempt and the views of its trace. */
  lemma RetriedStep(p: Policy, env: nat -> Response, k: nat, maxRetries: int, wait: nat, params: ParamKind)
    requires k < maxRetries && Retries(p, env(k))
    ensures var run := Attempt(p, env, k, maxRetries, wait, params);
      var rest := Attempt(p, env, k + 1, maxRetries, Grow(p, wait), params);
      && run.result == rest.result
      && Requests(run.trace) == [k] + Requests(rest.trace)
      && Backoffs(run.trace) == [wait] + Backoffs(rest.trace)
  {
    var rest := Attempt(p, env, k + 1, maxRetries, Grow(p, wait), params);
    RoundViews(p, env(k), k, wait);
    ViewsAppend(RoundEvents(p, env(k), k, wait), rest.trace);
  }

  function Pow(m: nat, i: nat): nat
  {
    if i == 0 then 1 else m * Pow(m, i - 1)
  }

  /** `n` backoff sleeps starting at `wait`, each `multiplier` times the previous one. */
  function Schedule(wait: nat, multiplier: nat, n: nat): seq<nat>
    decreases n
  {
    if n == 0 then [] else [wait] + Schedule(wait * multiplier, multiplier, n - 1)
  }

  lemma {:induction false} ScheduleLength(wait: nat, multiplier: nat, n: nat)
    ensures |Schedule(wait, multiplier, n)| == n
    decreases n
  {
    if n > 0 {
      ScheduleLength(wait * multiplier, multiplier, n - 1);
    }
  }

  /** The i-th backoff sleep (from 0) is `wait * multiplier^i`. */
  lemma {:induction false} ScheduleAt(wait: nat, multiplier: nat, n: nat, i: nat)
    requires i < n
    ensures |Schedule(wait, multiplier, n)| == n
    ensures Schedule(wait, multiplier, n)[i] == wait * Pow(multiplier, i)
    decreases i
  {
    ScheduleLength(wait, multiplier, n);
    if i > 0 {
      ScheduleAt(wait * multiplier, multiplier, n - 1, i - 1);
      MulAssoc(wait, multiplier, Pow(multiplier, i - 1));
    }
  }

  lemma MulAssoc(a: int, b: int, c: int)
    ensures a * (b * c) == (a * b) * c
  {
  }

  lemma {:induction false} PowOne(i: nat)
    ensures Pow(1, i) == 1
  {
    if i > 0 {
      PowOne(i - 1);
    }
  }

  // ---------------------------------------------------------------------------
  // Properties of the retry loop

  /** At most `max_retries` GETs are issued, numbered consecutively from `k`;
      with `max_retries <= k` (in particular `max_retries <= 0` for a fresh
      call) nothing is requested and nothing is slept. */
  lemma {:induction false} AttemptsBounded(p: Policy, env: nat -> Response, k: nat, maxRetries: int, wait: nat, params: ParamKind)
    ensures var t := Attempt(p, env, k, maxRetries, wait, params).trace;
      && |Requests(t)| <= (if maxRetries <= k then 0 else maxRetries - k)
      && (forall i :: 0 <= i < |Requests(t)| ==> Requests(t)[i] == k + i)
      && (maxRetries <= k ==> t == [])
    decreases maxRetries - k
  {
    if k < maxRetries && Retries(p, env(k)) {
      AttemptsBounded(p, env, k + 1, maxRetries, Grow(p, wait), params);
      RetriedStep(p, env, k, maxRetries, wait, params);
      ConsecutiveFrom(k, Requests(Attempt(p, env, k + 1, maxRetries, Grow(p, wait), params).trace));
    } else if k < maxRetries {
      assert Requests([Request(k)]) == [k];
    } else {
      assert Requests([]) == [];
    }
  }

  /** Putting `k` in front of `k+1, k+2, ...` gives `k, k+1, ...`. */
  lemma ConsecutiveFrom(k: nat, rest: seq<nat>)
    requires forall i :: 0 <= i < |rest| ==> rest[i] == k + 1 + i
    ensures forall i :: 0 <= i < |[k] + rest| ==> ([k] + rest)[i] == k + i
  {
  }

  /** The backoff sleeps follow the schedule `wait, wait*m, wait*m^2, ...`
      whatever mixture of 429 answers and transport errors caused them:
      the wait is never reset within a call. */
  lemma {:induction false} BackoffsFollowSchedule(p: Policy, env: nat -> Response, k: nat, maxRetries: int, wait: nat, params: ParamKind)
    ensures var b := Backoffs(Attempt(p, env, k, maxRetries, wait, params).trace);
      b == Schedule(wait, p.multiplier, |b|)
    decreases maxRetries - k
  {
    if k < maxRetries && Retries(p, env(k)) {
      BackoffsFollowSchedule(p, env, k + 1, maxRetries, Grow(p, wait), params);
      RetriedStep(p, env, k, maxRetries, wait, params);
    } else if k < maxRetries {
      assert Backoffs([Request(k)]) == [];
    }
  }

  /** The only exceptions that escape: KeyError from a 429 without
      `Retry-After` where the header is read unconditionally, and the give-up
      log line's `parameters['appids']` (KeyError without that key, TypeError
      when `parameters` is None). */
  lemma {:induction false} RaisesOnly(p: Policy, env: nat -> Response, k: nat, maxRetries: int, wait: nat, params: ParamKind)
    ensures var r := Attempt(p, env, k, maxRetries, wait, params).result;
      r.Raise? ==>
        || (r.exc == KeyError && (p.headerRequired || (p.exhaustionLogsAppids && params == WithoutAppids)))
        || (r.exc == TypeError && p.exhaustionLogsAppids && params == NoParameters)
    decreases maxRetries - k
  {
    if k < maxRetries {
      RaisesOnly(p, env, k + 1, maxRetries, Grow(p, wait), params);
    }
  }

  lemma LastOfResume(prefix: seq<Event>, run: Run)
    requires |run.trace| > 0
    ensures var t := Resume(prefix, run).trace; |t| > 0 && t[|t| - 1] == run.trace[|run.trace| - 1]
  {
  }

  /** The first 200 answer is returned as is, and any other status that is
      not 429 gives None; either way that GET is the last event of the call:
      no further request and no sleep follow it. */
  lemma StopsAtFinalAnswer(p: Policy, env: nat -> Response, k: nat, n: nat, maxRetries: int, wait: nat, params: ParamKind)
    requires k <= n < maxRetries
    requires forall j :: k <= j < n ==> Retries(p, env(j))
    requires env(n).Ok? || env(n).OtherStatus?
    ensures var run := Attempt(p, env, k, maxRetries, wait, params);
      && run.result == (if env(n).Ok? then Value(Decoded(env(n).body)) else Value(None))
      && |run.trace| > 0 && run.trace[|run.trace| - 1] == Request(n)
      && |Requests(run.trace)| == n - k + 1
      && (n == k ==> run.trace == [Request(n)])
  {
    FinalAnswerEnds(p, env, k, n, maxRetries, wait, params);
    FinalAnswerRequests(p, env, k, n, maxRetries, wait, params);
  }

  /** The result and the last event of a call ended by a final answer. */
  lemma {:induction false} FinalAnswerEnds(p: Policy, env: nat -> Response, k: nat, n: nat, maxRetries: int, wait: nat, params: ParamKind)
    requires k <= n < maxRetries
    requires forall j :: k <= j < n ==> Retries(p, env(j))
    requires env(n).Ok? || env(n).OtherStatus?
    ensures var run := Attempt(p, env, k, maxRetries, wait, params);
      && run.result == (if env(n).Ok? then Value(Decoded(env(n).body)) else Value(None))
      && |run.trace| > 0 && run.trace[|run.trace| - 1] == Request(n)
      && (n == k ==> run.trace == [Request(n)])
    decreases n - k
  {
    if k < n {
      FinalAnswerEnds(p, env, k + 1, n, maxRetries, Grow(p, wait), params);
      var next := Attempt(p, env, k + 1, maxRetries, Grow(p, wait), params);
      assert Attempt(p, env, k, maxRetries, wait, params) == Resume(RoundEvents(p, env(k), k, wait), next);
      LastOfResume(RoundEvents(p, env(k), k, wait), next);
    }
  }

  /** The number of GETs of a call ended by a final answer. */
  lemma {:induction false} FinalAnswerRequests(p: Policy, env: nat -> Response, k: nat, n: nat, maxRetries: int, wait: nat, params: ParamKind)
    requires k <= n < maxRetries
    requires forall j :: k <= j < n ==> Retries(p, env(j))
    requires env(n).Ok? || env(n).OtherStatus?
    ensures |Requests(Attempt(p, env, k, maxRetries, wait, params).trace)| == n - k + 1
    decreases n - k
  {
    if k < n {
      FinalAnswerRequests(p, env, k + 1, n, maxRetries, Grow(p, wait), params);
      RetriedStep(p, env, k, maxRetries, wait, params);
    } else {
      FinalAnswerEnds(p, env, k, n, maxRetries, wait, params);
      assert Requests([Request(k)]) == [k];
    }
  }

  /** When every attempt fails in a retryable way, exactly `max_retries` GETs
      and as many backoff sleeps happen, and the call ends as `Exhausted` says. */
  lemma {:induction false} ExhaustsRetries(p: Policy, env: nat -> Response, k: nat, maxRetries: int, wait: nat, params: ParamKind)
    requires forall j :: k <= j < maxRetries ==> Retries(p, env(j))
    ensures var run := Attempt(p, env, k, maxRetries, wait, params);
      && run.result == Exhausted(p, params)
      && |Requests(run.trace)| == (if maxRetries <= k then 0 else maxRetries - k)
      && |Backoffs(run.trace)| == |Requests(run.trace)|
    decreases maxRetries - k
  {
    if k < maxRetries {
      ExhaustsRetries(p, env, k + 1, maxRetries, Grow(p, wait), params);
      RetriedStep(p, env, k, maxRetries, wait, params);
    }
  }

  /** An SSLError or RequestException is retried on exactly the schedule of
      a 429: swapping one for the other changes neither the result, nor the
      GETs, nor the backoff sleeps. */
  lemma {:induction false} TransportErrorLikeRateLimit(p: Policy, env: nat -> Response, env': nat -> Response, i: nat,
                                                       k: nat, maxRetries: int, wait: nat, params: ParamKind)
    requires env(i) == TransportError && env'(i).RateLimited? && Retries(p, env'(i))
    requires forall j :: j != i ==> env(j) == env'(j)
    ensures var run := Attempt(p, env, k, maxRetries, wait, params);
      var run' := Attempt(p, env', k, maxRetries, wait, params);
      && run.result == run'.result
      && Requests(run.trace) == Requests(run'.trace)
      && Backoffs(run.trace) == Backoffs(run'.trace)
    decreases maxRetries - k
  {
    if k < maxRetries {
      if Retries(p, env(k)) {
        assert Retries(p, env'(k));
        TransportErrorLikeRateLimit(p, env, env', i, k + 1, maxRetries, Grow(p, wait), params);
        RetriedStep(p, env, k, maxRetries, wait, params);
        RetriedStep(p, env', k, maxRetries, wait, params);
      } else {
        assert k != i;
        assert env(k) == env'(k);
      }
    }
  }

  // ---------------------------------------------------------------------------
  // The three copies of the loop

  /** `BaseFetcher.get_request(url, parameters, max_retries=4, wait_time=4, exponential_multiplier=4)`. */
  method BaseFetcherGetRequest(env: nat -> Response, params: ParamKind,
                               maxRetries: int := 4, waitTime: nat := 4, multiplier: nat := 4)
    returns (r: Py<Option<Json>>, ghost trace: seq<Event>)
    ensures Run(r, trace) == Attempt(BaseFetcherPolicy(multiplier), env, 0, maxRetries, waitTime, params)
    ensures r.Raise? ==> r.exc == (if params == NoParameters then TypeError else KeyError) && params != WithAppids
    ensures Backoffs(trace) == Schedule(waitTime, multiplier, |Backoffs(trace)|)
    ensures |Requests(trace)| <= if maxRetries <= 0 then 0 else maxRetries
  {
    r, trace := GetRequest(BaseFetcherPolicy(multiplier), env, params, maxRetries, waitTime);
    RaisesOnly(BaseFetcherPolicy(multiplier), env, 0, maxRetries, waitTime, params);
    BackoffsFollowSchedule(BaseFetcherPolicy(multiplier), env, 0, maxRetries, waitTime, params);
    AttemptsBounded(BaseFetcherPolicy(multiplier), env, 0, maxRetries, waitTime, params);
  }

  /** `get_request(url, parameters, max_retries=4)` of steam_sales/src/collect_metadata.py:
      the wait starts at 1 second and is multiplied by 4; it never raises. */
  method MetadataGetRequest(env: nat -> Response, params: ParamKind, maxRetries: int := 4)
    returns (r: Py<Option<Json>>, ghost trace: seq<Event>)
    ensures Run(r, trace) == Attempt(MetadataPolicy, env, 0, maxRetries, 1, params)
    ensures r.Value?
    ensures Backoffs(trace) == Schedule(1, 4, |Backoffs(trace)|)
    ensures |Requests(trace)| <= if maxRetries <= 0 then 0 else maxRetries
  {
    r, trace := GetRequest(MetadataPolicy, env, params, maxRetries, 1);
    RaisesOnly(MetadataPolicy, env, 0, maxRetries, 1, params);
    BackoffsFollowSchedule(MetadataPolicy, env, 0, maxRetries, 1, params);
    AttemptsBounded(MetadataPolicy, env, 0, maxRetries, 1, params);
  }

  /** `get_request(url, parameters, max_retries=5)` of id_collection.py:
      every failed attempt is followed by the same 5-second sleep, and the
      only exception is the KeyError of a 429 without `Retry-After`. */
  method IdCollectionGetRequest(env: nat -> Response, params: ParamKind, maxRetries: int := 5)
    returns (r: Py<Option<Json>>, ghost trace: seq<Event>)
    ensures Run(r, trace) == Attempt(IdCollectionPolicy, env, 0, maxRetries, 5, params)
    ensures r.Raise? ==> r.exc == KeyError
    ensures forall i :: 0 <= i < |Backoffs(trace)| ==> Backoffs(trace)[i] == 5
    ensures |Requests(trace)| <= if maxRetries <= 0 then 0 else maxRetries
  {
    r, trace := GetRequest(IdCollectionPolicy, env, params, maxRetries, 5);
    RaisesOnly(IdCollectionPolicy, env, 0, maxRetries, 5, params);
    BackoffsFollowSchedule(IdCollectionPolicy, env, 0, maxRetries, 5, params);
    AttemptsBounded(IdCollectionPolicy, env, 0, maxRetries, 5, params);
    forall i | 0 <= i < |Backoffs(trace)|
      ensures Backoffs(trace)[i] == 5
    {
      ScheduleAt(5, 1, |Backoffs(trace)|, i);
      PowOne(i);
    }
  }

  /** With the defaults of `BaseFetcher.get_request` and a server that keeps
      answering 429 without `Retry-After`, each round sleeps the current wait
      twice (as the rate-limit pause and as the backoff): 4, 16, 64, 256 each
      twice. Then the log line's `parameters['appids']` raises KeyError for a
      SteamSpy call, whose parameters have no such key. */
  lemma BaseFetcherAlwaysRateLimited(env: nat -> Response)
    requires forall j :: env(j) == RateLimited(None)
    ensures Attempt(BaseFetcherPolicy(4), env, 0, 4, 4, WithoutAppids)
         == Run(Raise(KeyError),
                [Request(0), RateLimitSleep(4), BackoffSleep(4),
                 Request(1), RateLimitSleep(16), BackoffSleep(16),
                 Request(2), RateLimitSleep(64), BackoffSleep(64),
                 Request(3), RateLimitSleep(256), BackoffSleep(256)])
  {
    var p := BaseFetcherPolicy(4);
    var a3 := Attempt(p, env, 3, 4, 256, WithoutAppids);
    var a2 := Attempt(p, env, 2, 4, 64, WithoutAppids);
    var a1 := Attempt(p, env, 1, 4, 16, WithoutAppids);
    assert env(3) == RateLimited(None) && env(2) == env(3) && env(1) == env(3) && env(0) == env(3);
    assert a3 == Run(Raise(KeyError), [Request(3), RateLimitSleep(256), BackoffSleep(256)]);
    assert a2 == Resume([Request(2), RateLimitSleep(64), BackoffSleep(64)], a3);
    assert a1 == Resume([Request(1), RateLimitSleep(16), BackoffSleep(16)], a2);
    assert Attempt(p, env, 0, 4, 4, WithoutAppids) == Resume([Request(0), RateLimitSleep(4), BackoffSleep(4)], a1);
  }

  /** With collect_metadata's `get_request` and a network that always fails,
      the backoff sleeps are 1, 4, 16, 64 seconds and the call returns None. */
  lemma MetadataAlwaysFailing(env: nat -> Response, params: ParamKind)
    requires forall j :: env(j) == TransportError
    ensures Attempt(MetadataPolicy, env, 0, 4, 1, params)
         == Run(Value(None), [Request(0), BackoffSleep(1), Request(1), BackoffSleep(4),
                              Request(2), BackoffSleep(16), Request(3), BackoffSleep(64)])
  {
    var p := MetadataPolicy;
    var a3 := Attempt(p, env, 3, 4, 64, params);
    var a2 := Attempt(p, env, 2, 4, 16, params);
    var a1 := Attempt(p, env, 1, 4, 4, params);
    assert env(3) == TransportError && env(2) == env(3) && env(1) == env(3) && env(0) == env(3);
    assert a3 == Run(Value(None), [Request(3), BackoffSleep(64)]);
    assert a2 == Resume([Request(2), BackoffSleep(16)], a3);
    assert a1 == Resume([Request(1), BackoffSleep(4)], a2);
    assert Attempt(p, env, 0, 4, 1, params) == Resume([Request(0), BackoffSleep(1)], a1);
  }

  /** In id_collection.py a 429 without `Retry-After` raises KeyError at once,
      before any sleep. */
  lemma IdCollectionMissingRetryAfter(env: nat -> Response, params: ParamKind, maxRetries: int)
    requires maxRetries > 0 && env(0) == RateLimited(None)
    ensures Attempt(IdCollectionPolicy, env, 0, maxRetries, 5, params) == Run(Raise(KeyError), [Request(0)])
  {
  }

  /** In id_collection.py a 429 with `Retry-After: s` sleeps s + 1 seconds, then 5. */
  lemma IdCollectionRateLimitedRound(env: nat -> Response, params: ParamKind, maxRetries: int, s: nat)
    requires maxRetries > 0 && env(0) == RateLimited(Some(s))
    ensures var t := Attempt(IdCollectionPolicy, env, 0, maxRetries, 5, params).trace;
      |t| >= 3 && t[..3] == [Request(0), RateLimitSleep(s + 1), BackoffSleep(5)]
  {
  }
}
