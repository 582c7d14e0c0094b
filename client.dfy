/**
 * The resilient BayEngage API client (src/client.ts, compiled twin
 * src/client.js): retry decision, exponential backoff with jitter, error
 * classification, the retry loop driven by the response interceptor, the
 * `request` wrapper with its verb shortcuts, and the process-wide singleton.
 *
 * The HTTP transport is an oracle: `outcomes(n)` is what the attempt made
 * with `_retryCount == n` produces. `Math.random()` jitter is the oracle
 * `jitter(n)` for the retry whose post-increment count is `n`. Timestamps
 * are the parameter `now`.
 */
module Client {
  import opened Wrappers
  import opened JsonValue

  datatype Verb = GET | POST | PUT | PATCH | DELETE

  /** The error taxonomy. */
  datatype ErrorCode =
    | BadRequest
    | Unauthorized
    | Forbidden
    | NotFound
    | RateLimitExceeded
    | ServerError
    | Timeout
    | NetworkError
    | UnknownError
    | UnexpectedError

  function CodeName(c: ErrorCode): string
  {
    match c
    case BadRequest => "BAD_REQUEST"
    case Unauthorized => "UNAUTHORIZED"
    case Forbidden => "FORBIDDEN"
    case NotFound => "NOT_FOUND"
    case RateLimitExceeded => "RATE_LIMIT_EXCEEDED"
    case ServerError => "SERVER_ERROR"
    case Timeout => "TIMEOUT"
    case NetworkError => "NETWORK_ERROR"
    case UnknownError => "UNKNOWN_ERROR"
    case UnexpectedError => "UNEXPECTED_ERROR"
  }

  /** `error.message` is whatever the classifier stored: a 400 copies the
      body's `message` field, which need not be a string. */
  datatype ErrorInfo = ErrorInfo(code: ErrorCode, message: Json, details: Option<Json>)

  datatype Meta = Meta(requestId: Option<string>, timestamp: string)

  /** `APIResponse`: exactly one of the two variants. */
  datatype APIResponse =
    | Success(data: Json, meta: Meta)
    | Failure(error: ErrorInfo, meta: Meta)

  /** The part of an Axios error the client reads. */
  datatype HttpResponse = HttpResponse(status: int, data: Option<Json>)

  datatype TransportFault = TransportFault(response: Option<HttpResponse>, code: Option<string>, hasConfig: bool)
  {
    /** `error.response?.status` */
    function Status(): Option<int>
    {
      if response.Some? then Some(response.value.status) else None
    }

    /** `error.response?.data` */
    function Body(): Option<Json>
    {
      if response.Some? then response.value.data else None
    }
  }

  /** What one physical attempt produces. */
  datatype Attempt =
    | Delivered(body: Json, requestIdHeader: Option<string>)
    | Faulted(fault: TransportFault)

  /** A value that reaches `request`'s catch block: an Axios error, the
      already-normalised object the interceptor rejects with, or anything else
      (an `Error` with its message, or a non-Error value). */
  datatype Thrown =
    | AxiosErr(fault: TransportFault)
    | Normalised(response: APIResponse)
    | OtherErr(message: Option<string>)

  /** How the promise returned by the transport (with its interceptors) settles. */
  datatype Settlement =
    | Resolved(body: Json, requestIdHeader: Option<string>)
    | Rejected(thrown: Thrown)

  /** A logical call's retry history: the attempt it stopped at, how many
      attempts it made, and the waits between them. */
  datatype Trace = Trace(last: Attempt, attempts: nat, delays: seq<real>)

  datatype WireRequest = WireRequest(verb: Verb, url: string, data: Option<Json>)

  // ---------------------------------------------------------------- retry decision

  const RetryableStatuses: set<int> := {408, 429, 500, 502, 503, 504}

  /** `config._retryCount || 0` */
  function RetryCount(field: Option<nat>): (r: nat)
    ensures field.Some? ==> r == field.value
    ensures r == 0 <==> field.None? || field == Some(0)
  {
    if field.Some? then field.value else 0
  }

  /** JavaScript truthiness of a status: undefined and 0 are falsy. */
  predicate StatusTruthy(status: Option<int>)
  {
    status.Some? && status.value != 0
  }

  function ShouldRetry(maxRetries: nat, retryField: Option<nat>, status: Option<int>): (r: bool)
    ensures RetryCount(retryField) >= maxRetries ==> !r
    ensures RetryCount(retryField) < maxRetries && status.None? ==> r
    ensures status == Some(400) || status == Some(404) || status == Some(501) ==> !r
    ensures RetryCount(retryField) < maxRetries ==>
      (r <==> status.None? || status.value == 0 || status.value in {408, 429, 500, 502, 503, 504})
  {
    if RetryCount(retryField) >= maxRetries then false
    else !StatusTruthy(status) || status.value in RetryableStatuses
  }

  /** A failure the retry decision treats as transient. */
  function Transient(a: Attempt): (r: bool)
    ensures r ==> a.Faulted? && a.fault.hasConfig
    ensures a.Faulted? && a.fault.hasConfig && a.fault.Status().None? ==> r
    ensures a.Faulted? && a.fault.hasConfig && a.fault.Status() in {Some(408), Some(429), Some(500), Some(502), Some(503), Some(504)} ==> r
    ensures a.Faulted? && a.fault.Status() in {Some(400), Some(401), Some(403), Some(404), Some(422), Some(501)} ==> !r
  {
    a.Faulted? && a.fault.hasConfig
    && (!StatusTruthy(a.fault.Status()) || a.fault.Status().value in RetryableStatuses)
  }

  // ---------------------------------------------------------------- backoff

  const BaseDelay: nat := 1000
  const MaxDelay: nat := 10000

  function Pow2(k: nat): (r: nat)
    ensures r >= 1
  {
    if k == 0 then 1 else 2 * Pow2(k - 1)
  }

  /** `Math.min(baseDelay * Math.pow(2, retryCount - 1), maxDelay)` */
  function ExponentialDelay(retryCount: int): (d: nat)
    requires retryCount >= 1
    ensures BaseDelay <= d <= MaxDelay
  {
    var e := BaseDelay * Pow2(retryCount - 1);
    if e < MaxDelay then e else MaxDelay
  }

  /** The delay before the retry whose post-increment count is `retryCount`. */
  function GetRetryDelay(retryCount: int, jitter: real): (r: real)
    requires retryCount >= 1
    ensures BaseDelay as real + jitter <= r <= MaxDelay as real + jitter
  {
    ExponentialDelay(retryCount) as real + jitter
  }

  // ---------------------------------------------------------------- classification

  const DefaultErrorMessage := "An unexpected error occurred"

  /** The code and message chosen by the if/else-if chain of `normalizeError`. */
  function Classify(f: TransportFault): (r: (ErrorCode, Json))
    ensures r.0 != UnexpectedError
    ensures r.0 == BadRequest <==> f.Status() == Some(400)
    ensures r.0 == UnknownError ==> r.1 == JStr(DefaultErrorMessage)
    ensures r.0 != BadRequest ==> r.1.JStr?
  {
    var status := f.Status();
    if status == Some(400) then
      (BadRequest, Or(Field(f.Body(), "message"), JStr("Invalid request parameters")))
    else if status == Some(401) then (Unauthorized, JStr("Invalid API credentials"))
    else if status == Some(403) then (Forbidden, JStr("Insufficient permissions"))
    else if status == Some(404) then (NotFound, JStr("Resource not found"))
    else if status == Some(429) then
      (RateLimitExceeded, JStr("API rate limit exceeded. Please try again later."))
    else if StatusTruthy(status) && status.value >= 500 then
      (ServerError, JStr("BayEngage API server error"))
    else if f.code == Some("ECONNABORTED") then (Timeout, JStr("Request timeout"))
    else if f.code == Some("ENOTFOUND") || f.code == Some("ECONNREFUSED") then
      (NetworkError, JStr("Network connection error"))
    else (UnknownError, JStr(DefaultErrorMessage))
  }

  function NormalizeError(f: TransportFault, now: string): (r: APIResponse)
    ensures r.Failure? && r.error.details == f.Body() && r.meta == Meta(None, now)
    ensures r.error.code != UnexpectedError
  {
    var (code, message) := Classify(f);
    Failure(ErrorInfo(code, message, f.Body()), Meta(None, now))
  }

  /** The catch block of `request`. */
  function CatchToResponse(t: Thrown, now: string): (r: APIResponse)
    ensures r.Failure? && r.meta == Meta(None, now)
    ensures t.AxiosErr? ==> r == NormalizeError(t.fault, now)
    ensures !t.AxiosErr? ==> r.error.code == UnexpectedError && r.error.details.None?
    ensures t.Normalised? ==> r.error.message == JStr(DefaultErrorMessage)
    ensures t.OtherErr? ==> r.error.message == JStr(if t.message.Some? then t.message.value else DefaultErrorMessage)
  {
    match t
    case AxiosErr(f) => NormalizeError(f, now)
    case Normalised(_) => Failure(ErrorInfo(UnexpectedError, JStr(DefaultErrorMessage), None), Meta(None, now))
    case OtherErr(m) =>
      var message := if m.Some? then m.value else DefaultErrorMessage;
      Failure(ErrorInfo(UnexpectedError, JStr(message), None), Meta(None, now))
  }

  /** The try/catch of `request`: it never throws. */
  function RequestResponse(s: Settlement, now: string): (r: APIResponse)
    ensures r.Success? <==> s.Resolved?
    ensures s.Resolved? ==> r.data == s.body && r.meta.requestId == s.requestIdHeader
    ensures r.meta.timestamp == now
  {
    match s
    case Resolved(body, id) => Success(body, Meta(id, now))
    case Rejected(t) => CatchToResponse(t, now)
  }

  // ---------------------------------------------------------------- retry loop

  /** The interceptor's test for another attempt: the failure carries its
      request config and `shouldRetry` accepts it. */
  function Retried(maxRetries: nat, retryField: Option<nat>, a: Attempt): (r: bool)
    ensures r ==> a.Faulted? && a.fault.hasConfig && RetryCount(retryField) < maxRetries
    ensures r ==> Transient(a)
  {
    a.Faulted? && a.fault.hasConfig && ShouldRetry(maxRetries, retryField, a.fault.Status())
  }

  /**
   * One logical call as the response interceptor runs it, starting from the
   * attempt whose `config._retryCount` is `retryField`: a success or a failure
   * that is not retried ends it; otherwise the count is bumped, the backoff
   * waited, and the same request sent again.
   */
  function Pipeline(maxRetries: nat, outcomes: nat -> Attempt, jitter: nat -> real,
                    retryField: Option<nat>): (t: Trace)
    requires RetryCount(retryField) <= maxRetries
    ensures 1 <= t.attempts <= maxRetries - RetryCount(retryField) + 1
    ensures |t.delays| == t.attempts - 1
    decreases maxRetries - RetryCount(retryField)
  {
    var n := RetryCount(retryField);
    if !Retried(maxRetries, retryField, outcomes(n)) then Trace(outcomes(n), 1, [])
    else
      var rest := Pipeline(maxRetries, outcomes, jitter, Some(n + 1));
      Trace(rest.last, rest.attempts + 1, [GetRetryDelay(n + 1, jitter(n + 1))] + rest.delays)
  }

  /** Moving one retry from the remaining trace to the part already run. */
  lemma TraceShift(whole: Trace, here: Trace, rest: Trace, made: nat, delays: seq<real>, delay: real)
    requires whole == Trace(here.last, made + here.attempts, delays + here.delays)
    requires here == Trace(rest.last, rest.attempts + 1, [delay] + rest.delays)
    ensures whole == Trace(rest.last, (made + 1) + rest.attempts, (delays + [delay]) + rest.delays)
  {
    assert delays + ([delay] + rest.delays) == (delays + [delay]) + rest.delays;
  }

  /** How the interceptor settles on the attempt the call stopped at: a
      delivery resolves, a failure rejects with `normalizeError(error)`. */
  function Settle(last: Attempt, now: string): (s: Settlement)
    ensures s.Resolved? <==> last.Delivered?
    ensures last.Delivered? ==> s.body == last.body && s.requestIdHeader == last.requestIdHeader
    ensures last.Faulted? ==> s.thrown == Normalised(NormalizeError(last.fault, now))
  {
    match last
    case Delivered(body, id) => Resolved(body, id)
    case Faulted(f) => Rejected(Normalised(NormalizeError(f, now)))
  }

  /** What `request` returns for a logical call: never a thrown error. */
  function RequestOutcome(maxRetries: nat, outcomes: nat -> Attempt, jitter: nat -> real, now: string): (r: APIResponse)
    ensures var last := Pipeline(maxRetries, outcomes, jitter, None).last;
      (r.Success? <==> last.Delivered?)
      && (last.Delivered? ==> r == Success(last.body, Meta(last.requestIdHeader, now)))
      && r.meta.timestamp == now
  {
    RequestResponse(Settle(Pipeline(maxRetries, outcomes, jitter, None).last, now), now)
  }

  // ---------------------------------------------------------------- the client

  datatype BayEngageConfig = BayEngageConfig(
    apiKey: string,
    apiSecret: Option<string>,
    baseURL: string,
    timeout: Option<int>,
    maxRetries: Option<nat>)

  const DefaultTimeout: int := 30000
  const DefaultMaxRetries: nat := 3

  /** `{ timeout: 30000, maxRetries: 3, ...config }` */
  function WithDefaults(config: BayEngageConfig): (c: BayEngageConfig)
    ensures c.timeout.Some? && c.maxRetries.Some?
    ensures config.timeout.Some? ==> c.timeout == config.timeout
    ensures config.maxRetries.Some? ==> c.maxRetries == config.maxRetries
    ensures c.apiKey == config.apiKey && c.apiSecret == config.apiSecret && c.baseURL == config.baseURL
  {
    config.(
      timeout := if config.timeout.Some? then config.timeout else Some(DefaultTimeout),
      maxRetries := if config.maxRetries.Some? then config.maxRetries else Some(DefaultMaxRetries))
  }

  class BayEngageClient {
    const config: BayEngageConfig
    const maxRetries: nat
    const timeout: int
    const headers: map<string, string>

    constructor (cfg: BayEngageConfig)
      ensures config == WithDefaults(cfg)
      ensures maxRetries == (if cfg.maxRetries.Some? then cfg.maxRetries.value else DefaultMaxRetries)
      ensures timeout == (if cfg.timeout.Some? then cfg.timeout.value else DefaultTimeout)
      ensures headers == map["Content-Type" := "application/json",
                             "Authorization" := "Bearer " + cfg.apiKey,
                             "X-API-Key" := cfg.apiKey]
    {
      config := WithDefaults(cfg);
      maxRetries := WithDefaults(cfg).maxRetries.value;
      timeout := WithDefaults(cfg).timeout.value;
      headers := map["Content-Type" := "application/json",
                     "Authorization" := "Bearer " + cfg.apiKey,
                     "X-API-Key" := cfg.apiKey];
    }

    /**
     * The interceptor-driven retry loop. `retryField` is `config._retryCount`,
     * updated in place before the delay is computed; every attempt sends the
     * same request.
     */
    method Dispatch(wire: WireRequest, outcomes: nat -> Attempt, jitter: nat -> real, now: string)
      returns (settled: Settlement, sent: seq<WireRequest>, delays: seq<real>)
      ensures var t := Pipeline(maxRetries, outcomes, jitter, None);
        settled == Settle(t.last, now) && |sent| == t.attempts && delays == t.delays
      ensures forall i :: 0 <= i < |sent| ==> sent[i] == wire
    {
      var retryField: Option<nat> := None;
      var done := false;
      ghost var whole := Pipeline(maxRetries, outcomes, jitter, None);
      ghost var last: Attempt := outcomes(0);
      settled, sent, delays := Rejected(OtherErr(None)), [], [];
      while !done
        invariant RetryCount(retryField) <= maxRetries
        invariant forall i :: 0 <= i < |sent| ==> sent[i] == wire
        invariant !done ==>
          var rest := Pipeline(maxRetries, outcomes, jitter, retryField);
          whole == Trace(rest.last, |sent| + rest.attempts, delays + rest.delays)
        invariant done ==> whole == Trace(last, |sent|, delays) && settled == Settle(last, now)
        decreases maxRetries - RetryCount(retryField), if done then 0 else 1
      {
        var n := RetryCount(retryField);
        ghost var here := Pipeline(maxRetries, outcomes, jitter, retryField);
        sent := sent + [wire];
        var a := outcomes(n);
        last := a;
        if a.Delivered? {
          settled := Resolved(a.body, a.requestIdHeader);
          done := true;
          assert here == Trace(a, 1, []);
          assert delays + here.delays == delays;
        } else if !Retried(maxRetries, retryField, a) {
          // `!config || !this.shouldRetry(error)`
          settled := Rejected(Normalised(NormalizeError(a.fault, now)));
          done := true;
          assert here == Trace(a, 1, []);
          assert delays + here.delays == delays;
        } else {
          retryField := Some(n + 1);
          var delay := GetRetryDelay(RetryCount(retryField), jitter(RetryCount(retryField)));
          ghost var rest := Pipeline(maxRetries, outcomes, jitter, retryField);
          assert here == Trace(rest.last, rest.attempts + 1, [delay] + rest.delays);
          TraceShift(whole, here, rest, |sent| - 1, delays, delay);
          delays := delays + [delay];
        }
      }
    }

    /** `request(method, endpoint, data)`: never throws. */
    method Request(verb: Verb, endpoint: string, data: Option<Json>,
                   outcomes: nat -> Attempt, jitter: nat -> real, now: string)
      returns (r: APIResponse, sent: seq<WireRequest>, delays: seq<real>)
      ensures var t := Pipeline(maxRetries, outcomes, jitter, None);
        r == RequestOutcome(maxRetries, outcomes, jitter, now) && |sent| == t.attempts && delays == t.delays
      ensures forall i :: 0 <= i < |sent| ==> sent[i] == WireRequest(verb, endpoint, data)
    {
      var settled;
      settled, sent, delays := Dispatch(WireRequest(verb, endpoint, data), outcomes, jitter, now);
      r := RequestResponse(settled, now);
    }

    method Get(endpoint: string, outcomes: nat -> Attempt, jitter: nat -> real, now: string)
      returns (r: APIResponse, sent: seq<WireRequest>, delays: seq<real>)
      ensures var t := Pipeline(maxRetries, outcomes, jitter, None);
        r == RequestOutcome(maxRetries, outcomes, jitter, now) && |sent| == t.attempts && delays == t.delays
      ensures forall i :: 0 <= i < |sent| ==> sent[i] == WireRequest(GET, endpoint, None)
    {
      r, sent, delays := Request(GET, endpoint, None, outcomes, jitter, now);
    }

    method Post(endpoint: string, data: Option<Json>, outcomes: nat -> Attempt, jitter: nat -> real, now: string)
      returns (r: APIResponse, sent: seq<WireRequest>, delays: seq<real>)
      ensures var t := Pipeline(maxRetries, outcomes, jitter, None);
        r == RequestOutcome(maxRetries, outcomes, jitter, now) && |sent| == t.attempts && delays == t.delays
      ensures forall i :: 0 <= i < |sent| ==> sent[i] == WireRequest(POST, endpoint, data)
    {
      r, sent, delays := Request(POST, endpoint, data, outcomes, jitter, now);
    }

    method Put(endpoint: string, data: Option<Json>, outcomes: nat -> Attempt, jitter: nat -> real, now: string)
      returns (r: APIResponse, sent: seq<WireRequest>, delays: seq<real>)
      ensures var t := Pipeline(maxRetries, outcomes, jitter, None);
        r == RequestOutcome(maxRetries, outcomes, jitter, now) && |sent| == t.attempts && delays == t.delays
      ensures forall i :: 0 <= i < |sent| ==> sent[i] == WireRequest(PUT, endpoint, data)
    {
      r, sent, delays := Request(PUT, endpoint, data, outcomes, jitter, now);
    }

    method Patch(endpoint: string, data: Option<Json>, outcomes: nat -> Attempt, jitter: nat -> real, now: string)
      returns (r: APIResponse, sent: seq<WireRequest>, delays: seq<real>)
      ensures var t := Pipeline(maxRetries, outcomes, jitter, None);
        r == RequestOutcome(maxRetries, outcomes, jitter, now) && |sent| == t.attempts && delays == t.delays
      ensures forall i :: 0 <= i < |sent| ==> sent[i] == WireRequest(PATCH, endpoint, data)
    {
      r, sent, delays := Request(PATCH, endpoint, data, outcomes, jitter, now);
    }

    method Delete(endpoint: string, outcomes: nat -> Attempt, jitter: nat -> real, now: string)
      returns (r: APIResponse, sent: seq<WireRequest>, delays: seq<real>)
      ensures var t := Pipeline(maxRetries, outcomes, jitter, None);
        r == RequestOutcome(maxRetries, outcomes, jitter, now) && |sent| == t.attempts && delays == t.delays
      ensures forall i :: 0 <= i < |sent| ==> sent[i] == WireRequest(DELETE, endpoint, None)
    {
      r, sent, delays := Request(DELETE, endpoint, None, outcomes, jitter, now);
    }
  }

  // ---------------------------------------------------------------- the singleton

  /** The three environment variables the singleton reads. */
  datatype Environment = Environment(apiKey: Option<string>, apiSecret: Option<string>, apiUrl: Option<string>)

  const DefaultBaseURL := "https://api.bayengage.com/v2"
  const MissingKeyMessage := "BAYENGAGE_API_KEY environment variable is required"

  /** The config `getBayEngageClient` builds from a truthy API key. */
  function EnvConfig(env: Environment): (c: BayEngageConfig)
    requires Present(env.apiKey)
    ensures c.apiKey == env.apiKey.value
    ensures c.apiSecret.Some? <==> Present(env.apiSecret)
    ensures c.baseURL == (if env.apiUrl.Some? then env.apiUrl.value else DefaultBaseURL)
    ensures c.timeout.None? && c.maxRetries.None?
  {
    BayEngageConfig(
      env.apiKey.value,
      if Present(env.apiSecret) then env.apiSecret else None,
      if env.apiUrl.Some? then env.apiUrl.value else DefaultBaseURL,
      None, None)
  }

  /** The module-level `clientInstance` slot. */
  class ClientSlot {
    var instance: BayEngageClient?

    constructor ()
      ensures instance == null
    {
      instance := null;
    }

    /** `getBayEngageClient()`; the thrown configuration error is `Err`. */
    method GetClient(env: Environment) returns (r: Result<BayEngageClient, string>)
      modifies this
      ensures old(instance) != null ==> r == Ok(old(instance)) && instance == old(instance)
      ensures old(instance) == null && !Present(env.apiKey) ==> r == Err(MissingKeyMessage) && instance == null
      ensures old(instance) == null && Present(env.apiKey) ==>
        r.Ok? && fresh(r.value) && instance == r.value
        && r.value.config == WithDefaults(EnvConfig(env))
        && r.value.maxRetries == DefaultMaxRetries && r.value.timeout == DefaultTimeout
    {
      if instance == null {
        if !Present(env.apiKey) {
          return Err(MissingKeyMessage);
        }
        var c := new BayEngageClient(EnvConfig(env));
        instance := c;
      }
      r := Ok(instance);
    }

    /** `resetClient()` */
    method Reset()
      modifies this
      ensures instance == null
    {
      instance := null;
    }
  }

  /** The singleton's lifecycle: the same instance until a reset, a new one after. */
  method SingletonLifecycle(env: Environment) returns (first: BayEngageClient, again: BayEngageClient, afterReset: BayEngageClient)
    requires Present(env.apiKey)
    ensures again == first && afterReset != first
    ensures afterReset.config == first.config
  {
    var slot := new ClientSlot();
    var r1 := slot.GetClient(env);
    var r2 := slot.GetClient(env);
    slot.Reset();
    var r3 := slot.GetClient(env);
    first, again, afterReset := r1.value, r2.value, r3.value;
  }
}
