/**
 * What the client promises, proved about the model in module Client:
 * the classifier's priority order, the attempt count of the retry loop,
 * the backoff schedule, and what `request` finally returns.
 */
module ClientProperties {
  import opened Wrappers
  import opened JsonValue
  import opened Client

  // ---------------------------------------------------------------- the taxonomy as a table

  datatype Condition =
    | StatusIs(status: int)
    | StatusAtLeast(bound: int)
    | TransportCodeIn(codes: set<string>)

  /** A row of the taxonomy: when it applies, the code, and the message (for
      BAD_REQUEST, the fallback when the body carries no truthy `message`). */
  datatype Rule = Rule(when: Condition, code: ErrorCode, message: string)

  predicate Holds(c: Condition, f: TransportFault)
  {
    match c
    case StatusIs(s) => f.Status() == Some(s)
    case StatusAtLeast(b) => StatusTruthy(f.Status()) && f.Status().value >= b
    case TransportCodeIn(cs) => f.code.Some? && f.code.value in cs
  }

  /** The error taxonomy in priority order: the HTTP status first, then the
      transport error code; a fault matching no rule gets `NoMatch`. */
  const Taxonomy: seq<Rule> := [
    Rule(StatusIs(400), BadRequest, "Invalid request parameters"),
    Rule(StatusIs(401), Unauthorized, "Invalid API credentials"),
    Rule(StatusIs(403), Forbidden, "Insufficient permissions"),
    Rule(StatusIs(404), NotFound, "Resource not found"),
    Rule(StatusIs(429), RateLimitExceeded, "API rate limit exceeded. Please try again later."),
    Rule(StatusAtLeast(500), ServerError, "BayEngage API server error"),
    Rule(TransportCodeIn({"ECONNABORTED"}), Timeout, "Request timeout"),
    Rule(TransportCodeIn({"ENOTFOUND", "ECONNREFUSED"}), NetworkError, "Network connection error")
  ]

  /** What a fault matching no rule is reported as. */
  const NoMatch := Rule(TransportCodeIn({}), UnknownError, DefaultErrorMessage)

  function FirstMatch(rules: seq<Rule>, f: TransportFault): Rule
  {
    if rules == [] then NoMatch
    else if Holds(rules[0].when, f) then rules[0]
    else FirstMatch(rules[1..], f)
  }

  /** A first-match table picks the earliest rule that holds, and the
      fallback only when no rule holds. */
  lemma {:induction false} FirstMatchIsEarliest(rules: seq<Rule>, f: TransportFault, i: nat)
    requires i <= |rules|
    requires forall j :: 0 <= j < i ==> !Holds(rules[j].when, f)
    ensures i < |rules| && Holds(rules[i].when, f) ==> FirstMatch(rules, f) == rules[i]
    ensures i == |rules| ==> FirstMatch(rules, f) == NoMatch
  {
    if i > 0 {
      assert !Holds(rules[0].when, f);
      FirstMatchIsEarliest(rules[1..], f, i - 1);
    }
  }

  /** `normalizeError` reports exactly the code and the message of the first
      taxonomy rule that holds; a 400 prefers the body's truthy `message`. */
  lemma ClassifierFollowsTaxonomy(f: TransportFault, now: string)
    ensures var rule := FirstMatch(Taxonomy, f);
      NormalizeError(f, now).error.code == rule.code
      && (rule.code != BadRequest ==> NormalizeError(f, now).error.message == JStr(rule.message))
      && (rule.code == BadRequest ==>
            NormalizeError(f, now).error.message == Or(Field(f.Body(), "message"), JStr(rule.message)))
  {
    var s := f.Status();
    var i: nat :=
      if s == Some(400) then 0 else if s == Some(401) then 1 else if s == Some(403) then 2
      else if s == Some(404) then 3 else if s == Some(429) then 4
      else if StatusTruthy(s) && s.value >= 500 then 5
      else if f.code == Some("ECONNABORTED") then 6
      else if f.code == Some("ENOTFOUND") || f.code == Some("ECONNREFUSED") then 7
      else 8;
    forall j | 0 <= j < i
      ensures !Holds(Taxonomy[j].when, f)
    {
    }
    FirstMatchIsEarliest(Taxonomy, f, i);
  }

  /** A status the taxonomy names decides the code whatever the transport code. */
  lemma StatusBeatsTransportCode(f: TransportFault, code: Option<string>, now: string)
    requires f.Status() in {Some(400), Some(401), Some(403), Some(404), Some(429)}
          || (StatusTruthy(f.Status()) && f.Status().value >= 500)
    ensures NormalizeError(f.(code := code), now).error == NormalizeError(f, now).error
  {
  }

  /** TIMEOUT and NETWORK_ERROR only when the status left the code open. */
  lemma TransportCodeOnlyWithoutClassifiedStatus(f: TransportFault, now: string)
    ensures NormalizeError(f, now).error.code in {Timeout, NetworkError, UnknownError} <==>
      !(f.Status() in {Some(400), Some(401), Some(403), Some(404), Some(429)})
      && !(StatusTruthy(f.Status()) && f.Status().value >= 500)
    ensures NormalizeError(f, now).error.code == Timeout <==>
      NormalizeError(f, now).error.code in {Timeout, NetworkError, UnknownError}
      && f.code == Some("ECONNABORTED")
  {
  }

  /** An exhausted 408 (a retryable status the table does not name) ends as UNKNOWN_ERROR. */
  lemma Exhausted408IsUnknown(f: TransportFault, now: string)
    requires f.Status() == Some(408)
    requires f.code !in {Some("ECONNABORTED"), Some("ENOTFOUND"), Some("ECONNREFUSED")}
    ensures NormalizeError(f, now).error == ErrorInfo(UnknownError, JStr(DefaultErrorMessage), f.Body())
  {
  }

  /** A 400 reports the body's truthy `message`, else the fixed text; details are the raw body. */
  lemma BadRequestMessage(f: TransportFault, now: string)
    requires f.Status() == Some(400)
    ensures var e := NormalizeError(f, now).error;
      e.code == BadRequest && e.details == f.Body()
      && (Truthy(Field(f.Body(), "message")) ==> Some(e.message) == Field(f.Body(), "message"))
      && (!Truthy(Field(f.Body(), "message")) ==> e.message == JStr("Invalid request parameters"))
  {
  }

  // ---------------------------------------------------------------- backoff

  lemma {:induction false} Pow2Monotone(a: nat, b: nat)
    requires a <= b
    ensures Pow2(a) <= Pow2(b)
    decreases b - a
  {
    if a < b {
      Pow2Monotone(a, b - 1);
    }
  }

  /** For a fixed jitter, a later retry never waits less. */
  lemma DelayNonDecreasing(n: int, m: int, jitter: real)
    requires 1 <= n <= m
    ensures GetRetryDelay(n, jitter) <= GetRetryDelay(m, jitter)
  {
    Pow2Monotone(n - 1, m - 1);
  }

  /** From the fifth retry on, the exponential part is pinned at the cap. */
  lemma DelayCapReached(n: int)
    requires n >= 5
    ensures ExponentialDelay(n) == MaxDelay
  {
    Pow2Monotone(4, n - 1);
  }

  /** The first three retries wait 1000-2000, 2000-3000 and 4000-5000 ms. */
  lemma FirstDelays(jitter: real)
    requires 0.0 <= jitter < 1000.0
    ensures 1000.0 <= GetRetryDelay(1, jitter) < 2000.0
    ensures 2000.0 <= GetRetryDelay(2, jitter) < 3000.0
    ensures 4000.0 <= GetRetryDelay(3, jitter) < 5000.0
    ensures 8000.0 <= GetRetryDelay(4, jitter) < 9000.0
  {
  }

  // ---------------------------------------------------------------- the retry loop

  /** Below the retry limit, the interceptor retries exactly the transient
      failures: a failure with its config and no status, a 0 status or a
      retryable one. */
  lemma RetriedIffTransient(maxRetries: nat, field: Option<nat>, a: Attempt)
    requires RetryCount(field) < maxRetries
    ensures Retried(maxRetries, field, a) <==> Transient(a)
  {
  }

  /** A persistently transient failure makes exactly `maxRetries + 1` attempts
      in all (counting from `_retryCount == RetryCount(field)`) and stops at the
      last of them. */
  lemma {:induction false} PersistentTransientAttempts(maxRetries: nat, outcomes: nat -> Attempt,
                                                       jitter: nat -> real, field: Option<nat>)
    requires RetryCount(field) <= maxRetries
    requires forall k :: RetryCount(field) <= k <= maxRetries ==> Transient(outcomes(k))
    ensures var t := Pipeline(maxRetries, outcomes, jitter, field);
      t.attempts == maxRetries - RetryCount(field) + 1 && t.last == outcomes(maxRetries)
    decreases maxRetries - RetryCount(field)
  {
    var n := RetryCount(field);
    var t := Pipeline(maxRetries, outcomes, jitter, field);
    if n < maxRetries {
      assert Transient(outcomes(n));
      assert Retried(maxRetries, field, outcomes(n));
      var rest := Pipeline(maxRetries, outcomes, jitter, Some(n + 1));
      PersistentTransientAttempts(maxRetries, outcomes, jitter, Some(n + 1));
      assert t.last == rest.last && t.attempts == rest.attempts + 1;
    } else {
      assert !Retried(maxRetries, field, outcomes(n));
      assert t.last == outcomes(n) && t.attempts == 1;
    }
  }

  /** With `maxRetries == 0` a logical call is one attempt, whatever happens. */
  lemma NoRetriesOneAttempt(outcomes: nat -> Attempt, jitter: nat -> real)
    ensures Pipeline(0, outcomes, jitter, None) == Trace(outcomes(0), 1, [])
  {
  }

  /** A failure that is not transient is never retried. */
  lemma PermanentFailureOneAttempt(maxRetries: nat, outcomes: nat -> Attempt, jitter: nat -> real)
    requires outcomes(0).Faulted? && !Transient(outcomes(0))
    ensures Pipeline(maxRetries, outcomes, jitter, None) == Trace(outcomes(0), 1, [])
  {
  }

  /** Transient failures followed by a delivery stop at that delivery. */
  lemma {:induction false} SuccessAfterTransients(maxRetries: nat, outcomes: nat -> Attempt, jitter: nat -> real,
                                                  field: Option<nat>, k: nat)
    requires RetryCount(field) <= k <= maxRetries
    requires forall i :: RetryCount(field) <= i < k ==> Transient(outcomes(i))
    requires outcomes(k).Delivered?
    ensures var t := Pipeline(maxRetries, outcomes, jitter, field);
      t.last == outcomes(k) && t.attempts == k - RetryCount(field) + 1
    decreases k - RetryCount(field)
  {
    var n := RetryCount(field);
    var t := Pipeline(maxRetries, outcomes, jitter, field);
    if n < k {
      assert Transient(outcomes(n));
      assert Retried(maxRetries, field, outcomes(n));
      var rest := Pipeline(maxRetries, outcomes, jitter, Some(n + 1));
      SuccessAfterTransients(maxRetries, outcomes, jitter, Some(n + 1), k);
      assert t.last == rest.last && t.attempts == rest.attempts + 1;
    } else {
      assert !Retried(maxRetries, field, outcomes(n));
      assert t.last == outcomes(n) && t.attempts == 1;
    }
  }

  /** Only transient failures are retried: every attempt but the last was one. */
  lemma {:induction false} RetriedAttemptsWereTransient(maxRetries: nat, outcomes: nat -> Attempt,
                                                        jitter: nat -> real, field: Option<nat>)
    requires RetryCount(field) <= maxRetries
    ensures var t := Pipeline(maxRetries, outcomes, jitter, field);
      forall k :: RetryCount(field) <= k < RetryCount(field) + t.attempts - 1 ==> Transient(outcomes(k))
    decreases maxRetries - RetryCount(field)
  {
    var n := RetryCount(field);
    var t := Pipeline(maxRetries, outcomes, jitter, field);
    if t.attempts > 1 {
      assert Retried(maxRetries, field, outcomes(n));
      assert Transient(outcomes(n));
      RetriedAttemptsWereTransient(maxRetries, outcomes, jitter, Some(n + 1));
      assert t.attempts == Pipeline(maxRetries, outcomes, jitter, Some(n + 1)).attempts + 1;
    }
  }

  /** The waits of consecutive retries whose post-increment counts run
      from `from` upwards. */
  function Backoffs(jitter: nat -> real, from: nat, count: nat): (ds: seq<real>)
    requires from >= 1
    ensures |ds| == count
    decreases count
  {
    if count == 0 then [] else [GetRetryDelay(from, jitter(from))] + Backoffs(jitter, from + 1, count - 1)
  }

  lemma {:induction false} BackoffAt(jitter: nat -> real, from: nat, count: nat, i: nat)
    requires from >= 1 && i < count
    ensures Backoffs(jitter, from, count)[i] == GetRetryDelay(from + i, jitter(from + i))
    decreases i
  {
    if i > 0 {
      BackoffAt(jitter, from + 1, count - 1, i - 1);
    }
  }

  /** The waits of a call are the backoffs for the counts after the one it
      starts from: the i-th wait of a fresh call is for count i+1. */
  lemma {:induction false} DelaysFollowBackoff(maxRetries: nat, outcomes: nat -> Attempt, jitter: nat -> real,
                                               field: Option<nat>)
    requires RetryCount(field) <= maxRetries
    ensures var t := Pipeline(maxRetries, outcomes, jitter, field);
      t.delays == Backoffs(jitter, RetryCount(field) + 1, |t.delays|)
    decreases maxRetries - RetryCount(field)
  {
    var n := RetryCount(field);
    var t := Pipeline(maxRetries, outcomes, jitter, field);
    if Retried(maxRetries, field, outcomes(n)) {
      var rest := Pipeline(maxRetries, outcomes, jitter, Some(n + 1));
      DelaysFollowBackoff(maxRetries, outcomes, jitter, Some(n + 1));
      assert t.delays == [GetRetryDelay(n + 1, jitter(n + 1))] + rest.delays;
      assert rest.delays == Backoffs(jitter, n + 2, |rest.delays|);
    } else {
      assert t.delays == [];
    }
  }

  /** A call stops at its last attempt, and only at a delivery or at a failure
      that the interceptor does not retry at that count. */
  lemma {:induction false} StopsAtLastAttempt(maxRetries: nat, outcomes: nat -> Attempt,
                                              jitter: nat -> real, field: Option<nat>)
    requires RetryCount(field) <= maxRetries
    ensures var t := Pipeline(maxRetries, outcomes, jitter, field);
      var final := RetryCount(field) + t.attempts - 1;
      t.last == outcomes(final) && !Retried(maxRetries, Some(final), t.last)
    decreases maxRetries - RetryCount(field)
  {
    var n := RetryCount(field);
    var t := Pipeline(maxRetries, outcomes, jitter, field);
    if t.attempts > 1 {
      StopsAtLastAttempt(maxRetries, outcomes, jitter, Some(n + 1));
      assert RetryCount(Some(n + 1)) + (t.attempts - 1) - 1 == n + t.attempts - 1;
    } else {
      assert !Retried(maxRetries, field, outcomes(n));
    }
  }

  // ---------------------------------------------------------------- what request returns

  /** As written, a failed logical call always comes back as UNEXPECTED_ERROR
      with the generic message and no details: the classification is lost. */
  lemma FailedRequestIsUnexpected(maxRetries: nat, outcomes: nat -> Attempt, jitter: nat -> real, now: string)
    ensures var r := RequestOutcome(maxRetries, outcomes, jitter, now);
      r.Failure? ==>
        r.error == ErrorInfo(UnexpectedError, JStr(DefaultErrorMessage), None) && r.meta == Meta(None, now)
  {
  }

  /** A delivered first attempt yields the success variant carrying the body. */
  lemma DeliveredRequestSucceeds(maxRetries: nat, outcomes: nat -> Attempt, jitter: nat -> real, now: string)
    requires outcomes(0).Delivered?
    ensures RequestOutcome(maxRetries, outcomes, jitter, now)
      == Success(outcomes(0).body, Meta(outcomes(0).requestIdHeader, now))
  {
  }

  function ServerFault(status: int): Attempt
  {
    Faulted(TransportFault(Some(HttpResponse(status, None)), Some("ERR_BAD_RESPONSE"), true))
  }

  /** `maxRetries == 0` and a 500: the interceptor normalises to SERVER_ERROR,
      yet `request` returns UNEXPECTED_ERROR. */
  lemma ServerErrorSurfacesAsUnexpected(now: string)
    ensures var outcomes := (k: nat) => ServerFault(500);
      var t := Pipeline(0, outcomes, (k: nat) => 0.0, None);
      t.attempts == 1
      && Settle(t.last, now).thrown.response.error.code == ServerError
      && RequestOutcome(0, outcomes, (k: nat) => 0.0, now).error.code == UnexpectedError
  {
  }

  /** Two 503s then a 200 with `{id: "abc"}` under `maxRetries == 3`: three attempts, success. */
  lemma TwoUnavailableThenSuccess(jitter: nat -> real, now: string)
    ensures var body := JObj(map["id" := JStr("abc")]);
      var outcomes := (k: nat) => if k < 2 then ServerFault(503) else Delivered(body, Some("req-1"));
      Pipeline(3, outcomes, jitter, None).attempts == 3
      && RequestOutcome(3, outcomes, jitter, now) == Success(body, Meta(Some("req-1"), now))
  {
    var body := JObj(map["id" := JStr("abc")]);
    var outcomes := (k: nat) => if k < 2 then ServerFault(503) else Delivered(body, Some("req-1"));
    assert outcomes(0) == ServerFault(503);
    assert ServerFault(503).fault.Status() == Some(503);
    assert Transient(ServerFault(503));
    forall i | 0 <= i < 2
      ensures Transient(outcomes(i))
    {
    }
    SuccessAfterTransients(3, outcomes, jitter, None, 2);
  }

  // ---------------------------------------------------------------- the evidently intended catch

  /** The catch block as evidently intended: an already-normalised response is returned as it is. */
  function IntendedCatch(t: Thrown, now: string): (r: APIResponse)
    ensures t.Normalised? ==> r == t.response
    ensures !t.Normalised? ==> r == CatchToResponse(t, now)
  {
    if t.Normalised? then t.response else CatchToResponse(t, now)
  }

  function IntendedRequestResponse(s: Settlement, now: string): (r: APIResponse)
    ensures s.Resolved? ==> r == RequestResponse(s, now)
  {
    match s
    case Resolved(_, _) => RequestResponse(s, now)
    case Rejected(t) => IntendedCatch(t, now)
  }

  /** What `request` would return with the intended catch. */
  function IntendedRequestOutcome(maxRetries: nat, outcomes: nat -> Attempt, jitter: nat -> real, now: string): APIResponse
  {
    IntendedRequestResponse(Settle(Pipeline(maxRetries, outcomes, jitter, None).last, now), now)
  }

  /** With the intended catch, a failed call reports the classification of
      its last attempt, and only a failed call fails. */
  lemma IntendedRequestClassifies(maxRetries: nat, outcomes: nat -> Attempt, jitter: nat -> real, now: string)
    ensures var t := Pipeline(maxRetries, outcomes, jitter, None);
      var r := IntendedRequestOutcome(maxRetries, outcomes, jitter, now);
      t.last == outcomes(t.attempts - 1)
      && (r.Failure? <==> t.last.Faulted?)
      && (t.last.Faulted? ==> r == NormalizeError(t.last.fault, now))
  {
    StopsAtLastAttempt(maxRetries, outcomes, jitter, None);
  }

  /** Three 429s under `maxRetries == 2`: three attempts, waits in [1000,2000)
      and [2000,3000), and (intended) RATE_LIMIT_EXCEEDED. */
  lemma RateLimitedThreeAttempts(jitter: nat -> real, now: string)
    requires forall k :: 0.0 <= jitter(k) < 1000.0
    ensures var outcomes := (k: nat) => ServerFault(429);
      var t := Pipeline(2, outcomes, jitter, None);
      t.attempts == 3 && |t.delays| == 2
      && 1000.0 <= t.delays[0] < 2000.0 && 2000.0 <= t.delays[1] < 3000.0
      && IntendedRequestOutcome(2, outcomes, jitter, now).error.code == RateLimitExceeded
  {
    var outcomes := (k: nat) => ServerFault(429);
    PersistentTransientAttempts(2, outcomes, jitter, None);
    DelaysFollowBackoff(2, outcomes, jitter, None);
    BackoffAt(jitter, 1, 2, 0);
    BackoffAt(jitter, 1, 2, 1);
    FirstDelays(jitter(1));
    FirstDelays(jitter(2));
  }

  /** A 400 is never retried and (intended) reports BAD_REQUEST. */
  lemma BadRequestNotRetried(maxRetries: nat, jitter: nat -> real, now: string, body: Option<Json>)
    ensures var outcomes := (k: nat) => Faulted(TransportFault(Some(HttpResponse(400, body)), None, true));
      Pipeline(maxRetries, outcomes, jitter, None).attempts == 1
      && IntendedRequestOutcome(maxRetries, outcomes, jitter, now).error.code == BadRequest
  {
  }
}
