/** What the normalisers let through: the shape of an event, an attempt and a counter key on the wire, and what they replace. */
module Schema {
  import opened Values
  import opened Counters

  // ----- numbers -----

  /** Conversion to an integer drops the fraction, whatever the sign. */
  lemma TruncateIs(r: real)
    ensures r >= 0.0 ==> Truncate(r) >= 0 && Truncate(r) as real <= r < Truncate(r) as real + 1.0
    ensures r < 0.0 ==> Truncate(r) <= 0 && Truncate(r) as real - 1.0 < r <= Truncate(r) as real
  {
    var x := if r >= 0.0 then r else -r;
    assert x.Floor as real <= x < x.Floor as real + 1.0;
  }

  /** What an increment offers under a cell. */
  function Offer(inc: RawIncrement, c: Cell): Value
  {
    match c
    case Requests => inc.requests
    case Attempts => inc.attempts
    case FailoverUsed => inc.failoverUsed
    case FirstAttemptSuccess => inc.firstAttemptSuccess
    case TotalMs(b) => if inc.totalMs.Histogram? && b in inc.totalMs.buckets then inc.totalMs.buckets[b] else Missing
    case FirstEventMs(b) =>
      if inc.firstEventMs.Histogram? && b in inc.firstEventMs.buckets then inc.firstEventMs.buckets[b] else Missing
  }

  /** An increment is worth, under each cell, the integer it offers there, brought into 0..10,000,000, or nothing. */
  lemma ClampedIs(inc: RawIncrement, p: Parser, c: Cell)
    ensures var worth, offered := Count(Clamped(inc, p), c), ToInt(Offer(inc, c), p);
      && (offered.None? || offered.value < 0 ==> worth == 0)
      && (offered.Some? && 0 <= offered.value <= 10_000_000 ==> worth == offered.value)
      && (offered.Some? && offered.value > 10_000_000 ==> worth == 10_000_000)
  {
  }

  // ----- vocabularies -----

  /** A value in the vocabulary stays, anything else becomes this. */
  predicate Settles(v: Value, vocabulary: set<string>, other: Value, r: Value)
  {
    if v.Str? && v.s in vocabulary then r == v else r == other
  }

  /** Null, or an integer between the bounds. */
  predicate OptionalInt(v: Value, lo: int, hi: int)
  {
    v == Null || (v.Int? && lo <= v.i <= hi)
  }

  predicate BoundedIn(v: Value, lo: int, hi: int)
  {
    v.Int? && lo <= v.i <= hi
  }

  /** A counter key of the table: every dimension in its vocabulary. */
  predicate IsKey(k: Key)
  {
    && (k.level == "attempt" || k.level == "request")
    && k.endpoint in W.ENDPOINTS && k.host in W.HOSTS && k.outcome in W.FINAL_OUTCOMES
    && (k.errorClass.Some? ==> k.errorClass.value in W.ERROR_CLASSES)
    && k.statusClass in STATUS_CLASSES && k.phase in W.TIMEOUT_PHASES
  }

  /** The key as a caller hands it over. */
  function Handed(k: Key): RawKey
  {
    RawKey(Str(k.level), Str(k.endpoint), Bool(k.streaming), Str(k.host), Str(k.outcome),
           if k.errorClass.Some? then Str(k.errorClass.value) else Null,
           Str(k.statusClass), Str(k.phase), Bool(k.floorMet), Bool(k.pinned))
  }

  /** Keys of the vocabulary are exactly the results, and come through as they are. */
  lemma NormaliseKeyFixes(k: RawKey)
    ensures NormaliseKey(k).Some? ==> IsKey(NormaliseKey(k).value)
    ensures forall key: Key :: IsKey(key) ==> NormaliseKey(Handed(key)) == Some(key)
  {
    assert "inference_other" in W.ENDPOINTS && "custom" in W.HOSTS && "unknown" in W.ERROR_CLASSES;
    assert "none" in STATUS_CLASSES && "none" in W.TIMEOUT_PHASES;
  }

  /** Which keys are refused, and what stands in for a dimension outside its vocabulary. */
  lemma NormaliseKeyReplaces(k: RawKey)
    ensures NormaliseKey(k).None?
       <==> k.WrongLength? || (k.level != Str("attempt") && k.level != Str("request"))
            || !(k.outcome.Str? && k.outcome.s in W.FINAL_OUTCOMES)
    ensures NormaliseKey(k).Some? ==>
      var r := NormaliseKey(k).value;
      && Str(r.level) == k.level && Str(r.outcome) == k.outcome
      && Settles(k.endpoint, W.ENDPOINTS, Str("inference_other"), Str(r.endpoint))
      && Settles(k.host, W.HOSTS, Str("custom"), Str(r.host))
      && Settles(k.statusClass, STATUS_CLASSES, Str("none"), Str(r.statusClass))
      && Settles(k.phase, W.TIMEOUT_PHASES, Str("none"), Str(r.phase))
      && (k.errorClass == Null <==> r.errorClass.None?)
      && (r.errorClass.Some? ==> Settles(k.errorClass, W.ERROR_CLASSES, Str("unknown"), Str(r.errorClass.value)))
      && r.streaming == Truthy(k.streaming) && r.floorMet == Truthy(k.floorMet) && r.pinned == Truthy(k.pinned)
  {
  }

  // ----- attempts -----

  /** An attempt of the wire. */
  predicate IsAttempt(a: RawAttempt)
  {
    && BoundedIn(a.index, 0, 99)
    && In(a.host, W.HOSTS) && In(a.outcome, W.OUTCOMES)
    && OptionalInt(a.httpStatus, 100, 599)
    && (a.errorClass == Null || In(a.errorClass, W.ERROR_CLASSES))
    && (a.errorSource == Null || In(a.errorSource, W.ERROR_SOURCES))
    && (a.shouldRetry == Missing || a.shouldRetry.Bool?)
    && OptionalInt(a.retryAfterMs, 0, 3_600_000)
    && BoundedIn(a.elapsedMs, 0, 3_600_000)
    && OptionalInt(a.ttfbMs, 0, 3_600_000)
    && (a.requestId == Null || (a.requestId.Str? && W.RequestId(a.requestId.s)))
    && a.moved.Bool?
  }

  /** Attempts of that shape are exactly the results, and come through as they are. */
  lemma WireAttemptFixes(a: RawAttempt, p: Parser)
    ensures IsAttempt(W.WireAttempt(a, p))
    ensures IsAttempt(a) ==> W.WireAttempt(a, p) == a
  {
    assert "custom" in W.HOSTS && "transport_error" in W.OUTCOMES;
  }

  /** What stands in for a host, an outcome or a class outside its vocabulary. */
  lemma WireAttemptReplaces(a: RawAttempt, p: Parser)
    ensures var r := W.WireAttempt(a, p);
      && Settles(a.host, W.HOSTS, Str("custom"), r.host)
      && Settles(a.outcome, W.OUTCOMES, Str("transport_error"), r.outcome)
      && Settles(a.errorClass, W.ERROR_CLASSES, Null, r.errorClass)
      && Settles(a.errorSource, W.ERROR_SOURCES, Null, r.errorSource)
      && (a.shouldRetry == Str("true") ==> r.shouldRetry == Bool(true))
      && (a.shouldRetry == Str("false") ==> r.shouldRetry == Bool(false))
      && (!a.shouldRetry.Bool? && a.shouldRetry != Str("true") && a.shouldRetry != Str("false") ==> r.shouldRetry == Missing)
  {
  }

  // ----- events -----

  ghost predicate AreAttempts(items: seq<Value>)
  {
    1 <= |items| <= 16 && forall i :: 0 <= i < |items| ==> items[i].Dict? && IsAttempt(items[i].attempt)
  }

  /** An event of the wire. */
  ghost predicate IsEvent(e: W.RawEvent)
  {
    && BoundedIn(e.ageMs, 0, 86_400_000)
    && e.attempts.List? && AreAttempts(e.attempts.items)
    && e.completedAt == Missing
    && In(e.endpoint, W.ENDPOINTS) && In(e.httpMethod, W.METHODS)
    && e.streaming.Bool? && e.providerPinned.Bool?
    && (e.model == Null || (e.model.Str? && W.ModelName(e.model.s)))
    && In(e.finalOutcome, W.FINAL_OUTCOMES)
    && OptionalInt(e.finalHttpStatus, 100, 599)
    && BoundedIn(e.totalMs, 0, 3_600_000)
    && OptionalInt(e.ttftMs, 0, 3_600_000)
    && e.failoverUsed.Bool?
    && In(e.timeoutPhase, W.TIMEOUT_PHASES)
    && OptionalInt(e.configuredTimeoutMs, 1, 3_600_000)
    && e.sampleRate.Float? && e.sampleRate.n.Finite? && 0.0 < e.sampleRate.n.r <= 1.0
    && In(e.sampleReason, W.SAMPLE_REASONS)
  }

  lemma {:induction false} WireAttemptsAre(items: seq<Value>, p: Parser)
    ensures forall i :: 0 <= i < |W.WireAttempts(items, p)| ==> IsAttempt(W.WireAttempts(items, p)[i].attempt)
    ensures (forall i :: 0 <= i < |items| ==> items[i].Dict? && IsAttempt(items[i].attempt)) ==> W.WireAttempts(items, p) == items
  {
    if items != [] {
      WireAttemptsAre(items[1..], p);
      if items[0].Dict? {
        WireAttemptFixes(items[0].attempt, p);
      }
    }
  }

  lemma FieldsAre(e: W.RawEvent, age: int, attempts: seq<Value>, rate: real, p: Parser)
    requires AreAttempts(attempts) && 0 <= age <= 86_400_000 && 0.0 < rate <= 1.0 && In(e.sampleReason, W.SAMPLE_REASONS)
    ensures IsEvent(W.WireFields(e, age, attempts, rate, p))
    ensures IsEvent(e) && e.attempts == List(attempts) && e.sampleRate == Float(Finite(rate)) ==>
      W.WireFields(e, age, attempts, rate, p) == e.(ageMs := Int(age))
  {
    assert In(attempts[|attempts| - 1].attempt.outcome, W.OUTCOMES);
    assert "inference_other" in W.ENDPOINTS && "POST" in W.METHODS && "none" in W.TIMEOUT_PHASES;
  }

  /** Every accepted event is of that shape. */
  lemma WireEventIs(e: W.RawEvent, now: real, p: Parser)
    requires W.WireEvent(e, now, p).Some?
    ensures IsEvent(W.WireEvent(e, now, p).value)
  {
    var attempts, rate := W.AcceptedCarries(e, now, p);
    WireAttemptsAre(W.FirstAttempts(e.attempts.items), p);
    FieldsAre(e, W.AgeMs(e, now, p), attempts, rate, p);
  }

  /** Every event of that shape is accepted, and comes through unchanged but for its age, which starts again. */
  lemma WireEventFixes(e: W.RawEvent, now: real, p: Parser)
    requires IsEvent(e)
    ensures W.WireEvent(e, now, p) == Some(e.(ageMs := Int(0)))
  {
    var items, rate := e.attempts.items, e.sampleRate.n.r;
    WireAttemptsAre(items, p);
    assert W.FirstAttempts(items) == items;
    W.CarriesAccepted(e, now, items, rate, p);
    FieldsAre(e, 0, items, rate, p);
    AgeIs(e, now, p);
  }

  /** The age of an event completed at a reading: milliseconds since then, at least none and at most a day's. */
  lemma AgeIs(e: W.RawEvent, now: real, p: Parser)
    ensures e.completedAt.Missing? ==> W.AgeMs(e, now, p) == 0
    ensures e.completedAt.Float? && e.completedAt.n.Finite? ==>
      var ms, age := (now - e.completedAt.n.r) * 1000.0, W.AgeMs(e, now, p);
      && (ms < 0.0 ==> age == 0) && (ms >= 86_400_000.0 ==> age == 86_400_000)
      && (0.0 <= ms < 86_400_000.0 ==> age as real <= ms < age as real + 1.0)
  {
    if e.completedAt.Float? && e.completedAt.n.Finite? {
      TruncateIs((now - e.completedAt.n.r) * 1000.0);
    }
  }

  /** What stands in for a field outside its vocabulary or range; an unknown final outcome becomes the last attempt's. */
  lemma WireEventReplaces(e: W.RawEvent, now: real, p: Parser)
    requires W.WireEvent(e, now, p).Some?
    ensures var r := W.WireEvent(e, now, p).value;
      && r.attempts.List? && |r.attempts.items| >= 1 && r.attempts.items[|r.attempts.items| - 1].Dict?
      && Settles(e.endpoint, W.ENDPOINTS, Str("inference_other"), r.endpoint)
      && Settles(e.httpMethod, W.METHODS, Str("POST"), r.httpMethod)
      && Settles(e.timeoutPhase, W.TIMEOUT_PHASES, Str("none"), r.timeoutPhase)
      && Settles(e.finalOutcome, W.FINAL_OUTCOMES, r.attempts.items[|r.attempts.items| - 1].attempt.outcome, r.finalOutcome)
      && r.model == (if e.model.Str? && W.ModelName(e.model.s) then e.model else Null)
      && r.streaming == Bool(Truthy(e.streaming)) && r.providerPinned == Bool(Truthy(e.providerPinned))
      && r.failoverUsed == Bool(Truthy(e.failoverUsed)) && r.sampleReason == e.sampleReason
  {
    var attempts, rate := W.AcceptedCarries(e, now, p);
  }
}
