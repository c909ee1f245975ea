/** The app's HTTP client, `UltraAPIClient`: a response cache keyed by
    endpoint and serialized options, with a time-to-live per entry and lazy
    eviction on lookup; a bounded retry loop over a fixed backoff table; the
    rules deciding when a request reads and when it fills the cache; and the
    typed calls of the domain API, each a fixed endpoint, method, cache flag
    and time-to-live.

    The clock (`Date.now()`), the session token and the network are inputs:
    a request receives the time of its cache lookup, the time its response is
    stored, and `fetch`, the outcome of each numbered attempt. */
module ApiClient {
  import opened Common
  import UrlEncoding

  // ---------------------------------------------------------------------
  // Decoded JSON
  // ---------------------------------------------------------------------

  /** A decoded JSON value. Numbers are integers; object members keep the
      order in which they were written. */
  datatype Json =
    | JNull
    | JBool(b: bool)
    | JNum(n: int)
    | JStr(s: string)
    | JArr(items: seq<Json>)
    | JObj(members: seq<Member>)

  datatype Member = Member(name: string, value: Json)

  /** JavaScript truthiness of a decoded value. */
  predicate Truthy(j: Json)
  {
    match j
    case JNull => false
    case JBool(b) => b
    case JNum(n) => n != 0
    case JStr(s) => s != ""
    case JArr(_) => true
    case JObj(_) => true
  }

  /** The value of the last member called `name`, if any. */
  function LastNamed(ms: seq<Member>, name: string): (r: Option<Json>)
    ensures r.Some? <==> exists i :: 0 <= i < |ms| && ms[i].name == name
    ensures r.Some? ==> exists i :: 0 <= i < |ms| && ms[i].name == name && ms[i].value == r.value
  {
    if ms == [] then None
    else if ms[|ms| - 1].name == name then Some(ms[|ms| - 1].value)
    else LastNamed(ms[..|ms| - 1], name)
  }

  /** `j.name` for a decoded value other than null: None stands for undefined. */
  function Field(j: Json, name: string): Option<Json>
  {
    if j.JObj? then LastNamed(j.members, name) else None
  }

  function HexLower(d: nat): char
    requires d < 16
  {
    if d < 10 then (48 + d) as char else (87 + d) as char
  }

  /** One character inside a JSON string literal, escaped as `JSON.stringify` does. */
  function EscapeChar(c: char): string
  {
    if c == '"' then "\\\""
    else if c == '\\' then "\\\\"
    else if c == '\n' then "\\n"
    else if c == '\r' then "\\r"
    else if c == '\t' then "\\t"
    else if c == '\U{0008}' then "\\b"
    else if c == '\U{000C}' then "\\f"
    else if c < ' ' then "\\u00" + [HexLower(c as int / 16), HexLower(c as int % 16)]
    else [c]
  }

  function Escape(s: string): string
  {
    if s == [] then "" else EscapeChar(s[0]) + Escape(s[1..])
  }

  /** `JSON.stringify` of a string. */
  function Quote(s: string): string
  {
    "\"" + Escape(s) + "\""
  }

  function Join(parts: seq<string>): string
  {
    if parts == [] then "" else if |parts| == 1 then parts[0] else parts[0] + "," + Join(parts[1..])
  }

  /** `JSON.stringify(j)`. */
  function Stringify(j: Json): string
  {
    match j
    case JNull => "null"
    case JBool(b) => if b then "true" else "false"
    case JNum(n) => IntToString(n)
    case JStr(s) => Quote(s)
    case JArr(items) => "[" + Join(seq(|items|, i requires 0 <= i < |items| => Stringify(items[i]))) + "]"
    case JObj(ms) =>
      "{" + Join(seq(|ms|, i requires 0 <= i < |ms| => Quote(ms[i].name) + ":" + Stringify(ms[i].value))) + "}"
  }

  // ---------------------------------------------------------------------
  // Requests and errors
  // ---------------------------------------------------------------------

  /** The `RequestInit` the domain calls pass: an HTTP method and a body,
      each possibly absent. */
  datatype RequestOptions = RequestOptions(verb: Option<string>, body: Option<string>)

  const NoOptions := RequestOptions(None, None)

  /** The options object as `JSON.stringify` sees it, in written order. */
  function OptionsJson(o: RequestOptions): Json
  {
    JObj((if o.verb.Some? then [Member("method", JStr(o.verb.value))] else [])
         + (if o.body.Some? then [Member("body", JStr(o.body.value))] else []))
  }

  /** The cache key `${endpoint}:${JSON.stringify(options)}`. */
  function CacheKey(endpoint: string, o: RequestOptions): (key: string)
    ensures |key| > |endpoint| && key[..|endpoint|] == endpoint && key[|endpoint|] == ':'
  {
    endpoint + ":" + Stringify(OptionsJson(o))
  }

  /** A request without options (a plain GET) is keyed `endpoint:{}`. */
  lemma PlainGetKey(endpoint: string)
    ensures CacheKey(endpoint, NoOptions) == endpoint + ":{}"
  {
  }

  /** A method string that JavaScript reads as false: absent or empty. */
  predicate IsFalsyMethod(m: Option<string>)
  {
    m.None? || m == Some("")
  }

  /** The cache is consulted for every method except POST, PUT and DELETE,
      and only when the caller asked for caching. */
  predicate ReadsCache(o: RequestOptions, useCache: bool)
  {
    o.verb != Some("POST") && o.verb != Some("PUT") && o.verb != Some("DELETE") && useCache
  }

  /** A response is stored only for a request with no method or GET, and only
      when the caller asked for caching; such a request also reads the cache. */
  predicate WritesCache(o: RequestOptions, useCache: bool)
    ensures WritesCache(o, useCache) ==> ReadsCache(o, useCache)
  {
    (IsFalsyMethod(o.verb) || o.verb == Some("GET")) && useCache
  }

  /** Any other verb (PATCH, HEAD, ...) is looked up in the cache but its
      response is never stored. */
  lemma OtherVerbsReadButNeverWrite(o: RequestOptions, useCache: bool)
    requires o.verb.Some? && o.verb.value !in {"", "GET", "POST", "PUT", "DELETE"}
    ensures ReadsCache(o, useCache) == useCache
    ensures !WritesCache(o, useCache)
  {
  }

  /** The headers `request` sends: JSON content type, plus a bearer token when
      the session holds a non-empty one. */
  function Headers(token: Option<string>): (h: map<string, string>)
    ensures "Content-Type" in h && h["Content-Type"] == "application/json"
    ensures "Authorization" in h <==> token.Some? && token.value != ""
    ensures "Authorization" in h ==> h["Authorization"] == "Bearer " + token.value
    ensures h.Keys <= {"Content-Type", "Authorization"}
  {
    var base := map["Content-Type" := "application/json"];
    if token.Some? && token.value != "" then base["Authorization" := "Bearer " + token.value] else base
  }

  /** What one attempt of `fetch` yields: a transport failure, or a response
      with its `ok` flag, its status and its body (None when the body is not
      JSON). */
  datatype FetchOutcome =
    | NetworkFailure(reason: string)
    | Response(ok: bool, status: int, body: Option<Json>)

  datatype ApiError =
    | HttpError(message: Json, status: int, code: Option<Json>, details: Json)
    | NetworkError(reason: string)
    | DecodeError
    | NullErrorBody
    | MaxRetriesExceeded

  datatype Result<T> = Ok(value: T) | Err(error: ApiError)

  /** The retried closure of `request`: a failed fetch, a non-ok status and an
      undecodable success body all throw; only a decoded success returns. */
  function AttemptResult(f: FetchOutcome): (r: Result<Json>)
    ensures r.Ok? <==> f.Response? && f.ok && f.body.Some?
    ensures r.Ok? ==> r.value == f.body.value
    ensures f.NetworkFailure? ==> r == Err(NetworkError(f.reason))
    ensures f.Response? && !f.ok && f.body != Some(JNull) ==> r.Err? && r.error.HttpError? && r.error.status == f.status
    ensures f.Response? && !f.ok && f.body != Some(JNull) ==>
              var errorData := f.body.GetOr(JObj([]));
              var message := Field(errorData, "message");
              && r.error.details == errorData
              && r.error.code == Field(errorData, "code")
              && (message.Some? && Truthy(message.value) ==> r.error.message == message.value)
              && (!(message.Some? && Truthy(message.value)) ==> r.error.message == JStr("Request failed"))
    ensures f.Response? && !f.ok && f.body == Some(JNull) ==> r == Err(NullErrorBody)
  {
    match f
    case NetworkFailure(reason) => Err(NetworkError(reason))
    case Response(ok, status, body) =>
      if ok then
        (if body.Some? then Ok(body.value) else Err(DecodeError))
      else
        // `await response.json().catch(() => ({}))`
        var errorData := body.GetOr(JObj([]));
        if errorData == JNull then Err(NullErrorBody)
        else
          var message := Field(errorData, "message");
          Err(HttpError(if message.Some? && Truthy(message.value) then message.value else JStr("Request failed"),
                        status, Field(errorData, "code"), errorData))
  }

  /** A refused request whose error body cannot be decoded throws
      'Request failed' with no code and an empty object as its details. */
  lemma UndecodableErrorBody(status: int)
    ensures AttemptResult(Response(false, status, None)) == Err(HttpError(JStr("Request failed"), status, None, JObj([])))
  {
  }

  /** The operation `request` hands to the retry loop: attempt `i` is the
      closure run on the network's `i`-th answer. */
  function Attempts(fetch: nat -> FetchOutcome): nat -> Result<Json>
  {
    (i: nat) => AttemptResult(fetch(i))
  }

  // ---------------------------------------------------------------------
  // Retry with backoff
  // ---------------------------------------------------------------------

  const RetryDelays: seq<nat> := [1000, 2000, 4000]
  const DefaultRetries := 3

  /** The wait after failed attempt `i`: `retryDelays[min(i, 2)]`. */
  function BackoffDelay(i: nat): nat
  {
    RetryDelays[if i < |RetryDelays| - 1 then i else |RetryDelays| - 1]
  }

  /** What a run of the retry loop did: its result, how many attempts it
      made, and the waits it scheduled between them. */
  datatype RetryRun<T> = RetryRun(result: Result<T>, attempts: nat, delays: seq<nat>)

  /** The retry loop from attempt `i` on; `attempts` counts from attempt 0. */
  function RetryFrom<T>(op: nat -> Result<T>, retries: nat, i: nat): RetryRun<T>
    requires i <= retries
    decreases retries - i
  {
    var outcome := op(i);
    if outcome.Ok? || i == retries then RetryRun(outcome, i + 1, [])
    else
      var rest := RetryFrom(op, retries, i + 1);
      rest.(delays := [BackoffDelay(i)] + rest.delays)
  }

  /** `executeWithRetry(op, retries)`; a negative count runs no attempt and
      throws 'Max retries exceeded'. */
  function Retry<T>(op: nat -> Result<T>, retries: int): RetryRun<T>
  {
    if retries < 0 then RetryRun(Err(MaxRetriesExceeded), 0, []) else RetryFrom(op, retries, 0)
  }

  lemma {:induction false} RetryFromFacts<T>(op: nat -> Result<T>, retries: nat, i: nat)
    requires i <= retries
    ensures var run := RetryFrom(op, retries, i);
      && i + 1 <= run.attempts <= retries + 1
      && |run.delays| == run.attempts - 1 - i
      && (forall j :: 0 <= j < |run.delays| ==> run.delays[j] == BackoffDelay(i + j))
      && (forall j :: i <= j < run.attempts - 1 ==> op(j).Err?)
      && run.result == op(run.attempts - 1)
      && (run.result.Err? ==> run.attempts == retries + 1)
    decreases retries - i
  {
    if op(i).Err? && i < retries {
      RetryFromFacts(op, retries, i + 1);
      var rest := RetryFrom(op, retries, i + 1);
      var run := RetryFrom(op, retries, i);
      assert run.delays == [BackoffDelay(i)] + rest.delays;
      forall j | 0 <= j < |run.delays| ensures run.delays[j] == BackoffDelay(i + j) {
        if j > 0 { assert run.delays[j] == rest.delays[j - 1]; }
      }
    }
  }

  /** The retry loop's contract: with `retries >= 0` it makes between 1 and
      `retries + 1` attempts, every attempt before the last failed, the result
      is the last attempt's (the first success, or the error of attempt
      `retries`), and the wait after failed attempt `j` is `BackoffDelay(j)`. */
  lemma RetryContract<T>(op: nat -> Result<T>, retries: int)
    requires retries >= 0
    ensures var run := Retry(op, retries);
      && 1 <= run.attempts <= retries + 1
      && (forall j :: 0 <= j < run.attempts - 1 ==> op(j).Err?)
      && run.result == op(run.attempts - 1)
      && (run.result.Err? ==> run.attempts == retries + 1)
      && |run.delays| == run.attempts - 1
      && (forall j :: 0 <= j < |run.delays| ==> run.delays[j] == BackoffDelay(j))
  {
    RetryFromFacts(op, retries, 0);
  }

  /** The first success ends the loop: no attempt after it is made. */
  lemma RetryStopsAtFirstSuccess<T>(op: nat -> Result<T>, retries: int, k: nat)
    requires k <= retries && op(k).Ok?
    requires forall j :: 0 <= j < k ==> op(j).Err?
    ensures Retry(op, retries).result == op(k) && Retry(op, retries).attempts == k + 1
  {
    RetryContract(op, retries);
  }

  /** When every attempt fails, the error of attempt `retries` is rethrown. */
  lemma RetryRethrowsLastError<T>(op: nat -> Result<T>, retries: int)
    requires retries >= 0
    requires forall j :: 0 <= j <= retries ==> op(j).Err?
    ensures Retry(op, retries).result == op(retries)
    ensures Retry(op, retries).attempts == retries + 1
  {
    RetryContract(op, retries);
  }

  /** With no retries allowed the operation runs exactly once. */
  lemma NoRetriesMeansOneAttempt<T>(op: nat -> Result<T>)
    ensures Retry(op, 0).attempts == 1 && Retry(op, 0).result == op(0) && Retry(op, 0).delays == []
  {
  }

  function Sum(ds: seq<nat>): nat
  {
    if ds == [] then 0 else ds[0] + Sum(ds[1..])
  }

  /** Two failures then a success, under the default of 3 retries: three
      attempts and 1000 + 2000 ms of waiting. */
  lemma TwoFailuresThenSuccessWaitsThreeSeconds<T>(op: nat -> Result<T>)
    requires op(0).Err? && op(1).Err? && op(2).Ok?
    ensures Retry(op, DefaultRetries).result == op(2)
    ensures Retry(op, DefaultRetries).attempts == 3
    ensures Retry(op, DefaultRetries).delays == [1000, 2000]
    ensures Sum(Retry(op, DefaultRetries).delays) == 3000
  {
    RetryContract(op, DefaultRetries);
    RetryStopsAtFirstSuccess(op, DefaultRetries, 2);
    var run := Retry(op, DefaultRetries);
    assert run.delays[0] == BackoffDelay(0) && run.delays[1] == BackoffDelay(1);
    assert run.delays == [1000, 2000];
    assert Sum([2000]) == 2000 + Sum([]);
  }

  /** A run with `ds` scheduled in front of its own waits. */
  function Prepend<T>(ds: seq<nat>, run: RetryRun<T>): RetryRun<T>
  {
    run.(delays := ds + run.delays)
  }

  /** The retry loop of `executeWithRetry`. */
  method ExecuteWithRetry<T>(op: nat -> Result<T>, retries: int) returns (run: RetryRun<T>)
    ensures run == Retry(op, retries)
  {
    var delays: seq<nat> := [];
    var i: nat := 0;
    while i <= retries
      invariant retries >= 0 ==> i <= retries
      invariant retries >= 0 ==> Retry(op, retries) == Prepend(delays, RetryFrom(op, retries, i))
    {
      var outcome := op(i);
      if outcome.Ok? || i == retries {
        return RetryRun(outcome, i + 1, delays);
      }
      assert Prepend(delays, RetryFrom(op, retries, i))
          == Prepend(delays + [BackoffDelay(i)], RetryFrom(op, retries, i + 1));
      delays := delays + [BackoffDelay(i)];
      i := i + 1;
    }
    run := RetryRun(Err(MaxRetriesExceeded), 0, []);
  }

  // ---------------------------------------------------------------------
  // The cache
  // ---------------------------------------------------------------------

  const DefaultTTL := 300000

  datatype CacheEntry = CacheEntry(data: Json, timestamp: int, ttl: int)

  /** An entry is live at `now` while `now - timestamp < ttl`. */
  predicate Live(e: CacheEntry, now: int)
  {
    now - e.timestamp < e.ttl
  }

  /** What `getCachedData(key)` returns at time `now`. */
  function CachedData(cache: map<string, CacheEntry>, key: string, now: int): (r: Option<Json>)
    ensures r.Some? <==> key in cache && Live(cache[key], now)
    ensures r.Some? ==> r.value == cache[key].data
  {
    if key in cache && Live(cache[key], now) then Some(cache[key].data) else None
  }

  /** The cache after `getCachedData(key)` at time `now`: an absent or
      expired key is deleted, everything else stays. */
  function AfterLookup(cache: map<string, CacheEntry>, key: string, now: int): (r: map<string, CacheEntry>)
    ensures key in r <==> key in cache && Live(cache[key], now)
    ensures forall k :: k in r ==> k in cache && r[k] == cache[k]
    ensures forall k :: k in cache && k != key ==> k in r
  {
    if key in cache && Live(cache[key], now) then cache else cache - {key}
  }

  /** A stored value is returned until its time-to-live has passed, and
      never afterwards. */
  lemma StoreThenLookup(cache: map<string, CacheEntry>, key: string, data: Json, ttl: int, storedAt: int, now: int)
    ensures CachedData(cache[key := CacheEntry(data, storedAt, ttl)], key, now)
            == if now - storedAt < ttl then Some(data) else None
  {
  }

  /** The cache without the entries whose key contains `pattern`. */
  function EvictMatching(cache: map<string, CacheEntry>, pattern: string): (r: map<string, CacheEntry>)
    ensures forall k :: k in r <==> k in cache && !Contains(k, pattern)
    ensures forall k :: k in r ==> r[k] == cache[k]
  {
    map k | k in cache && !Contains(k, pattern) :: cache[k]
  }

  /** Evicting a pattern twice is evicting it once. */
  lemma EvictMatchingIdempotent(cache: map<string, CacheEntry>, pattern: string)
    ensures EvictMatching(EvictMatching(cache, pattern), pattern) == EvictMatching(cache, pattern)
  {
  }

  /** The empty pattern matches every key, so it empties the cache. */
  lemma EvictEmptyPatternClears(cache: map<string, CacheEntry>)
    ensures EvictMatching(cache, "") == map[]
  {
    forall k | k in cache ensures Contains(k, "") {
      ContainsEmpty(k);
    }
  }

  /** The HTTP client. Its one piece of state is the response cache. */
  class UltraAPIClient {
    const baseURL: string
    var cache: map<string, CacheEntry>

    constructor (baseURL: string)
      ensures this.baseURL == baseURL && cache == map[]
    {
      this.baseURL := baseURL;
      cache := map[];
    }

    /** `getCachedData`: the data of a live entry, else None, deleting the key. */
    method GetCachedData(key: string, now: int) returns (data: Option<Json>)
      modifies this
      ensures data == CachedData(old(cache), key, now)
      ensures cache == AfterLookup(old(cache), key, now)
    {
      if key in cache && now - cache[key].timestamp < cache[key].ttl {
        return Some(cache[key].data);
      }
      cache := cache - {key};
      data := None;
    }

    /** `setCachedData`: insert or overwrite exactly `key`, stamped with `now`. */
    method SetCachedData(key: string, data: Json, ttl: int, now: int)
      modifies this
      ensures cache == old(cache)[key := CacheEntry(data, now, ttl)]
    {
      cache := cache[key := CacheEntry(data, now, ttl)];
    }

    /** `request`: consult the cache (a falsy cached value is a miss), else
        run the retry loop with the default 3 retries over the network's
        answers, storing a successful response when the request is cacheable.
        The lookup happens at `now`, the store at `storedAt`. */
    method Request(endpoint: string, options: RequestOptions, useCache: bool, cacheTTL: int,
                   now: int, storedAt: int, fetch: nat -> FetchOutcome)
      returns (result: Result<Json>, attempts: nat)
      modifies this
      ensures var key := CacheKey(endpoint, options);
              var cached := CachedData(old(cache), key, now);
              if ReadsCache(options, useCache) && cached.Some? && Truthy(cached.value) then
                result == Ok(cached.value) && attempts == 0 && cache == old(cache)
              else
                var looked := if ReadsCache(options, useCache) then AfterLookup(old(cache), key, now) else old(cache);
                var run := Retry(Attempts(fetch), DefaultRetries);
                && result == run.result && attempts == run.attempts
                && cache == if run.result.Ok? && WritesCache(options, useCache)
                            then looked[key := CacheEntry(run.result.value, storedAt, cacheTTL)]
                            else looked
    {
      var key := CacheKey(endpoint, options);
      if ReadsCache(options, useCache) {
        var cached := GetCachedData(key, now);
        if cached.Some? && Truthy(cached.value) {
          return Ok(cached.value), 0;
        }
      }
      var run := ExecuteWithRetry(Attempts(fetch), DefaultRetries);
      if run.result.Ok? && WritesCache(options, useCache) {
        SetCachedData(key, run.result.value, cacheTTL, storedAt);
      }
      result, attempts := run.result, run.attempts;
    }

    /** `clearCache`. */
    method ClearCache()
      modifies this
      ensures cache == map[]
    {
      cache := map[];
    }

    /** `clearCacheByPattern`: walk the keys and delete every one the pattern
        matches; every other entry is untouched. */
    method ClearCacheByPattern(pattern: string)
      modifies this
      ensures cache == EvictMatching(old(cache), pattern)
    {
      var remaining := cache.Keys;
      while remaining != {}
        invariant forall k :: k in cache <==> k in old(cache) && (k in remaining || !Contains(k, pattern))
        invariant forall k :: k in cache ==> cache[k] == old(cache)[k]
        decreases remaining
      {
        var key :| key in remaining;
        if Contains(key, pattern) {
          cache := cache - {key};
        }
        remaining := remaining - {key};
      }
    }
  }

  /** The URL and headers `request` hands to `fetch`. */
  function RequestUrl(baseURL: string, endpoint: string): string
  {
    baseURL + endpoint
  }

  // ---------------------------------------------------------------------
  // The domain API
  // ---------------------------------------------------------------------

  /** The arguments a domain method passes to `request`. */
  datatype Call = Call(endpoint: string, options: RequestOptions, useCache: bool, ttl: int)

  /** A mutating call: neither read from nor stored in the cache. */
  predicate Uncached(c: Call)
  {
    !ReadsCache(c.options, c.useCache) && !WritesCache(c.options, c.useCache)
  }

  /** A cacheable read: looked up, and stored on success for `ttl`. */
  predicate CachedRead(c: Call, ttl: int)
  {
    ReadsCache(c.options, c.useCache) && WritesCache(c.options, c.useCache) && c.ttl == ttl
  }

  function Post(endpoint: string, body: Option<Json>): (c: Call)
    ensures Uncached(c)
  {
    Call(endpoint, RequestOptions(Some("POST"), if body.Some? then Some(Stringify(body.value)) else None), false, DefaultTTL)
  }

  function Get(endpoint: string, ttl: int): (c: Call)
    ensures CachedRead(c, ttl) && c.options == NoOptions
  {
    Call(endpoint, NoOptions, true, ttl)
  }

  function StringMembers(pairs: seq<(string, string)>): seq<Member>
  {
    seq(|pairs|, i requires 0 <= i < |pairs| => Member(pairs[i].0, JStr(pairs[i].1)))
  }

  function Login(email: string, password: string): (c: Call)
    ensures Uncached(c) && c.endpoint == "/auth/login/"
  {
    Post("/auth/login/", Some(JObj(StringMembers([("email", email), ("password", password)]))))
  }

  function Register(userData: Json): (c: Call)
    ensures Uncached(c) && c.endpoint == "/auth/register/"
  {
    Post("/auth/register/", Some(userData))
  }

  function RefreshToken(): (c: Call)
    ensures Uncached(c)
  {
    Post("/auth/refresh/", None)
  }

  function Logout(): (c: Call)
    ensures Uncached(c)
  {
    Post("/auth/logout/", None)
  }

  /** The filter object's entries, in its own key order, each value absent
      (undefined) or a string; only truthy values become query parameters. */
  function FilterParams(entries: seq<(string, Option<string>)>): (ps: seq<(string, string)>)
    ensures |ps| <= |entries|
    ensures forall i :: 0 <= i < |ps| ==> ps[i].1 != "" && (ps[i].0, Some(ps[i].1)) in entries
    ensures forall e :: e in entries && e.1.Some? && e.1.value != "" ==> (e.0, e.1.value) in ps
  {
    if entries == [] then []
    else
      var rest := FilterParams(entries[1..]);
      if entries[0].1.Some? && entries[0].1.value != "" then [(entries[0].0, entries[0].1.value)] + rest else rest
  }

  /** The kept parameters keep the entries' order: filtering distributes
      over concatenation, and one entry yields itself exactly when its
      value is truthy. Together these fix the result as the subsequence of
      the truthy entries. */
  lemma {:induction false} FilterParamsInOrder(a: seq<(string, Option<string>)>, b: seq<(string, Option<string>)>)
    ensures FilterParams(a + b) == FilterParams(a) + FilterParams(b)
    ensures |a| == 1 ==> FilterParams(a) == (if a[0].1.Some? && a[0].1.value != "" then [(a[0].0, a[0].1.value)] else [])
    decreases |a|
  {
    if a != [] {
      assert (a + b)[1..] == a[1..] + b;
      FilterParamsInOrder(a[1..], b);
    } else {
      assert a + b == b;
    }
  }

  /** `getEvents`: no filter, or only empty ones, asks for `/events/`; any
      truthy filter adds a query string. */
  function GetEvents(filters: Option<seq<(string, Option<string>)>>): (c: Call)
    ensures CachedRead(c, 600000)
    ensures c.endpoint == "/events/" <==> filters.None? || FilterParams(filters.value) == []
  {
    var query := if filters.Some? then UrlEncoding.FormSerialize(FilterParams(filters.value)) else "";
    Get("/events/" + (if query != "" then "?" + query else ""), 600000)
  }

  function GetEventById(id: string): (c: Call)
    ensures CachedRead(c, 300000)
  {
    Get("/events/" + id + "/", 300000)
  }

  function CreateEvent(eventData: Json): (c: Call)
    ensures Uncached(c)
  {
    Post("/events/", Some(eventData))
  }

  function UpdateEvent(id: string, eventData: Json): (c: Call)
    ensures Uncached(c)
  {
    Call("/events/" + id + "/", RequestOptions(Some("PUT"), Some(Stringify(eventData))), false, DefaultTTL)
  }

  function DeleteEvent(id: string): (c: Call)
    ensures Uncached(c)
  {
    Call("/events/" + id + "/", RequestOptions(Some("DELETE"), None), false, DefaultTTL)
  }

  function GetVenueLayout(eventId: string): (c: Call)
    ensures CachedRead(c, 1800000)
  {
    Get("/events/" + eventId + "/venue/", 1800000)
  }

  /** Seat availability is cached for one minute, under a key that the
      `seats` invalidation pattern matches. */
  function GetAvailableSeats(eventId: string, sectionId: Option<string>): (c: Call)
    ensures CachedRead(c, 60000)
    ensures Contains(CacheKey(c.endpoint, c.options), "seats")
  {
    var tail := if sectionId.Some? && sectionId.value != "" then "/?section=" + sectionId.value else "/";
    var endpoint := "/events/" + eventId + "/" + "seats" + tail;
    var front, back := "/events/" + eventId + "/", tail + ":" + Stringify(OptionsJson(NoOptions));
    assert CacheKey(endpoint, NoOptions) == front + "seats" + back;
    ContainsInfix(front, "seats", back);
    Get(endpoint, 60000)
  }

  function GetUserTickets(): (c: Call)
    ensures CachedRead(c, 120000)
  {
    Get("/my-tickets/", 120000)
  }

  function BookTickets(eventId: string, ticketData: Json): (c: Call)
    ensures Uncached(c)
  {
    Post("/events/" + eventId + "/book/", Some(ticketData))
  }

  function ValidateTicket(validationToken: string): (c: Call)
    ensures Uncached(c)
  {
    Post("/validate-ticket/" + validationToken + "/", None)
  }

  function TransferTicket(ticketId: string, recipientEmail: string): (c: Call)
    ensures Uncached(c)
  {
    Post("/tickets/" + ticketId + "/transfer/", Some(JObj(StringMembers([("recipientEmail", recipientEmail)]))))
  }

  function GetOrganizerEvents(): (c: Call)
    ensures CachedRead(c, 300000)
  {
    Get("/organizer/events/", 300000)
  }

  function GetEventStats(eventId: string): (c: Call)
    ensures CachedRead(c, 60000)
  {
    Get("/organizer/events/" + eventId + "/stats/", 60000)
  }

  function GetEventTickets(eventId: string): (c: Call)
    ensures CachedRead(c, 120000)
  {
    Get("/organizer/events/" + eventId + "/tickets/", 120000)
  }

  function BulkValidateTickets(tokens: seq<string>): (c: Call)
    ensures Uncached(c)
  {
    var items := seq(|tokens|, i requires 0 <= i < |tokens| => JStr(tokens[i]));
    Post("/bulk-validate/", Some(JObj([Member("tokens", JArr(items))])))
  }

  const SearchPrefix := "/events/search/?q="

  /** The search text is percent-encoded, so it stays one `q` parameter:
      nothing after the prefix can start or split another parameter. */
  function SearchEvents(query: string): (c: Call)
    ensures CachedRead(c, 180000)
    ensures |c.endpoint| >= |SearchPrefix| && c.endpoint[..|SearchPrefix|] == SearchPrefix
    ensures forall k :: |SearchPrefix| <= k < |c.endpoint| ==> c.endpoint[k] !in "&=?#"
  {
    UrlEncoding.EncodedComponentsHaveNoDelimiters(query);
    Get(SearchPrefix + UrlEncoding.EncodeUriComponent(query), 180000)
  }

  function GetRecommendations(): (c: Call)
    ensures CachedRead(c, 900000)
  {
    Get("/recommendations/", 900000)
  }

  function RegisterDevice(deviceInfo: Json): (c: Call)
    ensures Uncached(c)
  {
    Post("/devices/register/", Some(deviceInfo))
  }

  function GetNotifications(): (c: Call)
    ensures CachedRead(c, 60000)
  {
    Get("/notifications/", 60000)
  }

  function MarkNotificationRead(notificationId: string): (c: Call)
    ensures Uncached(c)
  {
    Post("/notifications/" + notificationId + "/read/", None)
  }
}
