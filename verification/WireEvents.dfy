/** The event normaliser (`_wire_event`, `_wire_attempt`) that runs when an event is buffered and again when it is sent. */
module WireEvents {
  import opened Values

  const HOSTS: set<string> :=
    {"apex", "ally", "uptime", "us_central1", "us_east4", "europe_west4", "control", "custom"}
  const ENDPOINTS: set<string> :=
    {"chat_completions", "messages", "responses", "embeddings", "images", "videos", "models",
     "fusion", "control_other", "inference_other"}
  const OUTCOMES: set<string> :=
    {"ok", "http_error", "transport_error", "timeout", "stream_broken", "aborted"}
  const FINAL_OUTCOMES: set<string> := OUTCOMES + {"exhausted"}
  const ERROR_CLASSES: set<string> :=
    {"dns", "tls", "connect_refused", "connect_timeout", "connect_error", "read_timeout",
     "write_timeout", "pool_timeout", "protocol_error", "reset", "io_error", "proxy_error",
     "stream_stalled", "unknown"}
  const TIMEOUT_PHASES: set<string> := {"none", "connect", "first_byte", "idle", "total"}
  const ERROR_SOURCES: set<string> := {"router", "provider", "unknown"}
  const METHODS: set<string> := {"GET", "POST", "PUT", "PATCH", "DELETE"}
  const SAMPLE_REASONS: set<string> := {"failure", "retried", "slow", "random"}
  const MAX_DURATION_MS := 3_600_000
  const MAX_AGE_MS := 86_400_000
  const MAX_WIRE_ATTEMPTS := 16

  /** An event mapping; `completedAt` is the private "_completed_at" key. */
  datatype RawEvent = RawEvent(
    ageMs: Value, attempts: Value, completedAt: Value, endpoint: Value, httpMethod: Value,
    streaming: Value, providerPinned: Value, model: Value, finalOutcome: Value,
    finalHttpStatus: Value, totalMs: Value, ttftMs: Value, failoverUsed: Value,
    timeoutPhase: Value, configuredTimeoutMs: Value, sampleRate: Value, sampleReason: Value)

  function OneOf(v: Value, vocabulary: set<string>, fallback: Value): Value
  {
    if In(v, vocabulary) then v else fallback
  }

  predicate ModelChar(c: char)
  {
    'A' <= c <= 'Z' || 'a' <= c <= 'z' || '0' <= c <= '9' || c in "._:/~@-"
  }

  /** _MODEL_RE */
  predicate ModelName(s: string)
  {
    1 <= |s| <= 128 && forall i :: 0 <= i < |s| ==> ModelChar(s[i])
  }

  /** _REQUEST_ID_RE */
  predicate RequestId(s: string)
  {
    |s| == 37 && s[..5] == "rlog_" &&
    forall i :: 5 <= i < 37 ==> '0' <= s[i] <= '9' || 'a' <= s[i] <= 'f'
  }

  function WireShouldRetry(v: Value): Value
  {
    if v == Bool(true) || v == Str("true") then Bool(true)
    else if v == Bool(false) || v == Str("false") then Bool(false)
    else Missing
  }

  function WireAttempt(a: RawAttempt, p: Parser): RawAttempt
  {
    RawAttempt(
      Int(BoundedInt(a.index, 0, 99, p)),
      OneOf(a.host, HOSTS, Str("custom")),
      OneOf(a.outcome, OUTCOMES, Str("transport_error")),
      BoundedOptionalInt(a.httpStatus, 100, 599, p),
      OneOf(a.errorClass, ERROR_CLASSES, Null),
      OneOf(a.errorSource, ERROR_SOURCES, Null),
      WireShouldRetry(a.shouldRetry),
      BoundedOptionalInt(a.retryAfterMs, 0, MAX_DURATION_MS, p),
      Int(BoundedInt(a.elapsedMs, 0, MAX_DURATION_MS, p)),
      BoundedOptionalInt(a.ttfbMs, 0, MAX_DURATION_MS, p),
      if a.requestId.Str? && RequestId(a.requestId.s) then a.requestId else Null,
      Bool(Truthy(a.moved)))
  }

  /** The attempts that are mappings, each normalised. */
  function WireAttempts(items: seq<Value>, p: Parser): (r: seq<Value>)
    ensures |r| <= |items|
    ensures forall i :: 0 <= i < |r| ==> r[i].Dict?
  {
    if items == [] then []
    else
      (if items[0].Dict? then [Dict(WireAttempt(items[0].attempt, p))] else [])
      + WireAttempts(items[1..], p)
  }

  function FirstAttempts(items: seq<Value>): seq<Value>
  {
    if |items| <= MAX_WIRE_ATTEMPTS then items else items[..MAX_WIRE_ATTEMPTS]
  }

  function AgeMs(e: RawEvent, now: real, p: Parser): int
  {
    var completed := if e.completedAt.Missing? then Float(Finite(now)) else e.completedAt;
    match ToFloat(completed, p)
    case Some(Finite(at)) => Clamp(Truncate((now - at) * 1000.0), 0, MAX_AGE_MS)
    case _ => 0
  }

  /** The fields of an accepted event, given its age, its normalised attempts and its sampling rate. */
  function WireFields(e: RawEvent, ageMs: int, attempts: seq<Value>, rate: real, p: Parser): RawEvent
    requires attempts != [] && attempts[|attempts| - 1].Dict?
  {
    RawEvent(
      Int(ageMs),
      List(attempts),
      Missing,
      OneOf(e.endpoint, ENDPOINTS, Str("inference_other")),
      OneOf(e.httpMethod, METHODS, Str("POST")),
      Bool(Truthy(e.streaming)),
      Bool(Truthy(e.providerPinned)),
      if e.model.Str? && ModelName(e.model.s) then e.model else Null,
      OneOf(e.finalOutcome, FINAL_OUTCOMES, attempts[|attempts| - 1].attempt.outcome),
      BoundedOptionalInt(e.finalHttpStatus, 100, 599, p),
      Int(BoundedInt(e.totalMs, 0, MAX_DURATION_MS, p)),
      BoundedOptionalInt(e.ttftMs, 0, MAX_DURATION_MS, p),
      Bool(Truthy(e.failoverUsed)),
      OneOf(e.timeoutPhase, TIMEOUT_PHASES, Str("none")),
      BoundedOptionalInt(e.configuredTimeoutMs, 1, MAX_DURATION_MS, p),
      Float(Finite(rate)),
      e.sampleReason)
  }

  /** _wire_event: None is a rejected event. */
  function WireEvent(e: RawEvent, now: real, p: Parser): Option<RawEvent>
  {
    if !e.attempts.List? then None
    else
      var attempts := WireAttempts(FirstAttempts(e.attempts.items), p);
      var rate := FiniteValue(e.sampleRate, p);
      if attempts == [] then None
      else if !In(e.sampleReason, SAMPLE_REASONS) then None
      else if rate.None? || rate.value <= 0.0 || rate.value > 1.0 then None
      else Some(WireFields(e, AgeMs(e, now, p), attempts, rate.value, p))
  }

  lemma WireAttemptIdempotent(a: RawAttempt, p: Parser)
    ensures WireAttempt(WireAttempt(a, p), p) == WireAttempt(a, p)
  {
  }

  lemma {:induction false} WireAttemptsIdempotent(items: seq<Value>, p: Parser)
    ensures WireAttempts(WireAttempts(items, p), p) == WireAttempts(items, p)
  {
    if items != [] {
      var rest := WireAttempts(items[1..], p);
      WireAttemptsIdempotent(items[1..], p);
      if items[0].Dict? {
        WireAttemptIdempotent(items[0].attempt, p);
        assert ([Dict(WireAttempt(items[0].attempt, p))] + rest)[1..] == rest;
      } else {
        assert [] + rest == rest;
      }
    }
  }

  /** A normalised outcome stays inside the attempt vocabulary. */
  lemma {:induction false} WireAttemptsOutcomes(items: seq<Value>, p: Parser, i: nat)
    requires i < |WireAttempts(items, p)|
    ensures In(WireAttempts(items, p)[i].attempt.outcome, OUTCOMES)
  {
    if items != [] {
      var skip := if items[0].Dict? then 1 else 0;
      if i >= skip {
        WireAttemptsOutcomes(items[1..], p, i - skip);
      }
    }
  }

  lemma WireFieldsIdempotent(e: RawEvent, age: int, later: int, attempts: seq<Value>, rate: real, completed: Value, p: Parser)
    requires attempts != [] && attempts[|attempts| - 1].Dict?
    ensures var w := WireFields(e, age, attempts, rate, p);
      WireFields(w.(completedAt := completed), later, attempts, rate, p) == w.(ageMs := Int(later))
  {
  }

  /** An accepted event's final outcome is in the wire vocabulary, whatever the caller supplied. */
  lemma FinalOutcomeKnown(e: RawEvent, now: real, p: Parser)
    requires WireEvent(e, now, p).Some?
    ensures In(WireEvent(e, now, p).value.finalOutcome, FINAL_OUTCOMES)
  {
    var items := FirstAttempts(e.attempts.items);
    WireAttemptsOutcomes(items, p, |WireAttempts(items, p)| - 1);
  }

  /** What an accepted event is made of. */
  ghost predicate Carries(e: RawEvent, attempts: seq<Value>, rate: real, p: Parser)
  {
    && e.attempts.List? && attempts == WireAttempts(FirstAttempts(e.attempts.items), p) && attempts != []
    && In(e.sampleReason, SAMPLE_REASONS)
    && FiniteValue(e.sampleRate, p) == Some(rate) && 0.0 < rate <= 1.0
  }

  lemma AcceptedCarries(e: RawEvent, now: real, p: Parser) returns (attempts: seq<Value>, rate: real)
    requires WireEvent(e, now, p).Some?
    ensures Carries(e, attempts, rate, p) && |attempts| <= MAX_WIRE_ATTEMPTS
    ensures WireEvent(e, now, p) == Some(WireFields(e, AgeMs(e, now, p), attempts, rate, p))
  {
    attempts := WireAttempts(FirstAttempts(e.attempts.items), p);
    rate := FiniteValue(e.sampleRate, p).value;
  }

  lemma CarriesAccepted(e: RawEvent, now: real, attempts: seq<Value>, rate: real, p: Parser)
    requires Carries(e, attempts, rate, p)
    ensures WireEvent(e, now, p) == Some(WireFields(e, AgeMs(e, now, p), attempts, rate, p))
  {
  }

  /** A normalised event is made of the same attempts and rate. */
  lemma StillCarries(e: RawEvent, age: int, attempts: seq<Value>, rate: real, completed: Value, p: Parser)
    requires Carries(e, attempts, rate, p) && |attempts| <= MAX_WIRE_ATTEMPTS
    ensures Carries(WireFields(e, age, attempts, rate, p).(completedAt := completed), attempts, rate, p)
  {
    WireAttemptsIdempotent(FirstAttempts(e.attempts.items), p);
    assert FirstAttempts(attempts) == attempts;
    WireFieldsKeep(e, age, attempts, rate, p);
  }

  lemma WireFieldsKeep(e: RawEvent, age: int, attempts: seq<Value>, rate: real, p: Parser)
    requires attempts != [] && attempts[|attempts| - 1].Dict?
    ensures var w := WireFields(e, age, attempts, rate, p);
      w.attempts == List(attempts) && w.sampleReason == e.sampleReason && FiniteValue(w.sampleRate, p) == Some(rate)
  {
  }

  /** What was accepted once is accepted again at any later reading of the clock, and only its age changes. */
  lemma WireEventIdempotent(e: RawEvent, t: real, completed: Value, now: real, p: Parser)
    requires WireEvent(e, t, p).Some?
    ensures
      var buffered := WireEvent(e, t, p).value.(completedAt := completed);
      WireEvent(buffered, now, p)
      == Some(WireEvent(e, t, p).value.(ageMs := Int(AgeMs(buffered, now, p))))
  {
    var attempts, rate := AcceptedCarries(e, t, p);
    var buffered := WireEvent(e, t, p).value.(completedAt := completed);
    StillCarries(e, AgeMs(e, t, p), attempts, rate, completed, p);
    CarriesAccepted(buffered, now, attempts, rate, p);
    WireFieldsIdempotent(e, AgeMs(e, t, p), AgeMs(buffered, now, p), attempts, rate, completed, p);
  }
}
