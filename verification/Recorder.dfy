/** RequestRecorder: one record per attempt of a logical call, and the event and counters derived from them. */
module Recorder {
  import opened Values
  import W = WireEvents
  import C = Counters
  import Store
  import StoreLaws

  datatype Attempt = Attempt(
    index: nat, host: string, outcome: string, httpStatus: Option<int>, errorClass: Option<string>,
    errorSource: Option<string>, shouldRetry: string, retryAfterMs: Option<int>, elapsedMs: nat,
    ttfbMs: Option<nat>, requestId: Option<string>, moved: bool)

  /** What a response says about itself, as on_response reads it from the headers. */
  datatype Reply = Reply(
    status: int, shouldRetry: string, retryAfterMs: Option<int>, requestId: Option<string>, errorSource: Option<string>)

  /** A classified transport failure; `timeout` and `readTimeout` are the exception's types. */
  datatype Failure = Failure(errorClass: string, phase: string, timeout: bool, readTimeout: bool)

  datatype Call = Call(
    endpoint: string, httpMethod: string, streaming: bool, pinned: bool, model: Option<string>,
    timeoutMs: string -> Option<int>)

  /** What the sink is handed. */
  datatype Report = Report(event: W.RawEvent, counters: seq<C.RawCounter>)

  function Moves(attempts: seq<Attempt>): nat
  {
    if attempts == [] then 0 else (if attempts[0].moved then 1 else 0) + Moves(attempts[1..])
  }

  lemma {:induction false} MovesConcat(a: seq<Attempt>, b: seq<Attempt>)
    ensures Moves(a + b) == Moves(a) + Moves(b)
  {
    if a == [] {
      assert a + b == b;
    } else {
      assert (a + b)[1..] == a[1..] + b;
      MovesConcat(a[1..], b);
    }
  }

  lemma MovesLast(attempts: seq<Attempt>)
    requires attempts != []
    ensures Moves(attempts) == Moves(attempts[..|attempts| - 1]) + (if attempts[|attempts| - 1].moved then 1 else 0)
  {
    var last := attempts[|attempts| - 1..];
    assert attempts == attempts[..|attempts| - 1] + last;
    MovesConcat(attempts[..|attempts| - 1], last);
    assert last[1..] == [];
  }

  // ----- the report -----

  function Opt<T>(o: Option<T>, wrap: T -> Value): Value
  {
    match o case None => Null case Some(v) => wrap(v)
  }

  function AsDict(a: Attempt): Value
  {
    Dict(RawAttempt(
      Int(a.index), Str(a.host), Str(a.outcome), Opt(a.httpStatus, n => Int(n)), Opt(a.errorClass, s => Str(s)),
      Opt(a.errorSource, s => Str(s)), Str(a.shouldRetry), Opt(a.retryAfterMs, n => Int(n)), Int(a.elapsedMs),
      Opt(a.ttfbMs, (n: nat) => Int(n)), Opt(a.requestId, s => Str(s)), Bool(a.moved)))
  }

  function AsDicts(attempts: seq<Attempt>): (r: seq<Value>)
    ensures |r| == |attempts|
    ensures forall i :: 0 <= i < |r| ==> r[i].Dict?
  {
    seq(|attempts|, i requires 0 <= i < |attempts| => AsDict(attempts[i]))
  }

  /** status_class */
  function StatusClass(status: Option<int>): string
  {
    if status.None? then "none"
    else if 200 <= status.value <= 299 then "2xx"
    else if status.value == 429 then "429"
    else if 400 <= status.value <= 499 then "4xx"
    else if 500 <= status.value <= 599 then "5xx"
    else "none"
  }

  /** latency_bucket */
  function LatencyBucket(ms: nat): C.Bucket
  {
    if ms < 100 then "lt100" else if ms < 200 then "lt200" else if ms < 400 then "lt400"
    else if ms < 800 then "lt800" else if ms < 1600 then "lt1600" else if ms < 3200 then "lt3200"
    else if ms < 6400 then "lt6400" else if ms < 12800 then "lt12800" else if ms < 25600 then "lt25600"
    else if ms < 51200 then "lt51200" else if ms < 102400 then "lt102400" else "ge102400"
  }

  /** timeout_floor_met */
  predicate FloorMet(phase: string, configured: Option<int>)
  {
    configured.Some? &&
    ((phase == "connect" && configured.value >= 10_000)
     || (phase == "first_byte" && configured.value >= 60_000)
     || (phase == "idle" && configured.value >= 30_000))
  }

  function Key(call: Call, level: string, host: string, outcome: string, errorClass: Option<string>,
               status: Option<int>, phase: string): C.RawKey
  {
    C.RawKey(Str(level), Str(call.endpoint), Bool(call.streaming), Str(host), Str(outcome), Opt(errorClass, s => Str(s)),
             Str(StatusClass(status)), Str(phase), Bool(FloorMet(phase, call.timeoutMs(phase))), Bool(call.pinned))
  }

  function FirstErrorClass(attempts: seq<Attempt>): Option<string>
  {
    if attempts == [] then None
    else if attempts[0].errorClass.Some? then attempts[0].errorClass
    else FirstErrorClass(attempts[1..])
  }

  /** One attempt's counter. */
  function AttemptCounter(call: Call, a: Attempt, phase: string): C.RawCounter
  {
    C.Counter(
      Key(call, "attempt", a.host, a.outcome, a.errorClass, a.httpStatus, phase),
      C.RawIncrement(Int(1), Int(1), Int(if a.moved then 1 else 0), Int(0), C.NotAMapping, C.NotAMapping))
  }

  function AttemptCounters(call: Call, attempts: seq<Attempt>, phases: seq<string>): seq<C.RawCounter>
    requires |attempts| == |phases|
  {
    if attempts == [] then []
    else
      [AttemptCounter(call, attempts[0], phases[0])] + AttemptCounters(call, attempts[1..], phases[1..])
  }

  function OneIn(ms: nat): C.RawHistogram
  {
    var bucket: string := LatencyBucket(ms);
    C.Histogram(map[bucket := Int(1)])
  }

  function FirstEventHistogram(ttftMs: Option<nat>, ttfbMs: Option<nat>): C.RawHistogram
  {
    if ttftMs.Some? then OneIn(ttftMs.value)
    else if ttfbMs.Some? then OneIn(ttfbMs.value)
    else C.NotAMapping
  }

  function FinalOutcome(attempts: seq<Attempt>, exhausted: bool): string
    requires attempts != []
  {
    var final := attempts[|attempts| - 1];
    if exhausted && |attempts| > 1 && final.outcome != "ok" then "exhausted" else final.outcome
  }

  /** The call's own counter. */
  function RequestCounter(call: Call, attempts: seq<Attempt>, phase: string, failoverUsed: bool,
                          ttftMs: Option<nat>, totalMs: nat): C.RawCounter
    requires attempts != []
  {
    var final := attempts[|attempts| - 1];
    C.Counter(
      Key(call, "request", final.host, final.outcome, FirstErrorClass(attempts), final.httpStatus, phase),
      C.RawIncrement(
        Int(1), Int(|attempts|), Int(if failoverUsed then 1 else 0), Int(if attempts[0].outcome == "ok" then 1 else 0),
        OneIn(totalMs), FirstEventHistogram(ttftMs, final.ttfbMs)))
  }

  /** _finish: the event, then one request-level and one attempt-level counter per attempt. */
  function MakeReport(call: Call, attempts: seq<Attempt>, phases: seq<string>, failoverUsed: bool,
                      ttftMs: Option<nat>, totalMs: nat, exhausted: bool): Report
    requires attempts != [] && |attempts| == |phases|
  {
    var final, phase := attempts[|attempts| - 1], phases[|phases| - 1];
    var event := W.RawEvent(
      Int(0), List(AsDicts(attempts)), Missing, Str(call.endpoint), Str(call.httpMethod), Bool(call.streaming),
      Bool(call.pinned), Opt(call.model, s => Str(s)), Str(FinalOutcome(attempts, exhausted)),
      Opt(final.httpStatus, n => Int(n)), Int(totalMs), Opt(ttftMs, (n: nat) => Int(n)), Bool(failoverUsed),
      Str(phase), Opt(call.timeoutMs(phase), n => Int(n)), Missing, Missing);
    Report(
      event,
      [RequestCounter(call, attempts, phase, failoverUsed, ttftMs, totalMs)] + AttemptCounters(call, attempts, phases))
  }

  ghost predicate KnownOutcomes(attempts: seq<Attempt>)
  {
    forall i :: 0 <= i < |attempts| ==> attempts[i].outcome in W.OUTCOMES
  }

  lemma AttemptCounterTotals(call: Call, a: Attempt, phase: string, p: Parser)
    requires a.outcome in W.OUTCOMES
    ensures var counter := AttemptCounter(call, a, phase);
      && C.Accepted(counter)
      && C.Count(C.Clamped(counter.increment, p), C.Requests) == 1
      && C.Count(C.Clamped(counter.increment, p), C.Attempts) == 1
      && C.Count(C.Clamped(counter.increment, p), C.FailoverUsed) == (if a.moved then 1 else 0)
      && C.Count(C.Clamped(counter.increment, p), C.FirstAttemptSuccess) == 0
  {
    assert a.outcome in W.FINAL_OUTCOMES;
  }

  lemma {:induction false} AttemptCountersTotals(call: Call, attempts: seq<Attempt>, phases: seq<string>, p: Parser)
    requires |attempts| == |phases| && KnownOutcomes(attempts)
    ensures var cs := AttemptCounters(call, attempts, phases);
      && C.Rejected(cs) == 0
      && C.Offered(cs, p, C.Requests) == C.Offered(cs, p, C.Attempts) == |attempts|
      && C.Offered(cs, p, C.FailoverUsed) == Moves(attempts)
      && C.Offered(cs, p, C.FirstAttemptSuccess) == 0
  {
    if attempts != [] {
      var a := attempts[0];
      AttemptCountersTotals(call, attempts[1..], phases[1..], p);
      var cs := AttemptCounters(call, attempts, phases);
      assert cs[1..] == AttemptCounters(call, attempts[1..], phases[1..]);
      AttemptCounterTotals(call, a, phases[0], p);
    }
  }

  /**
    A finished call's counters are all accepted and add up: one request and one attempt row per send, and the
    attempt rows' failover marks are exactly the host moves.
   */
  lemma ReportTotals(call: Call, attempts: seq<Attempt>, phases: seq<string>, failoverUsed: bool,
                     ttftMs: Option<nat>, totalMs: nat, exhausted: bool, p: Parser)
    requires attempts != [] && |attempts| == |phases| && KnownOutcomes(attempts)
    ensures var cs := MakeReport(call, attempts, phases, failoverUsed, ttftMs, totalMs, exhausted).counters;
      && C.Rejected(cs) == 0
      && C.Offered(cs, p, C.Requests) == 1 + |attempts|
      && C.Offered(cs, p, C.Attempts) == |attempts| + Clamp(|attempts|, 0, C.MAX_COUNT)
      && C.Offered(cs, p, C.FailoverUsed) == Moves(attempts) + (if failoverUsed then 1 else 0)
      && C.Offered(cs, p, C.FirstAttemptSuccess) == (if attempts[0].outcome == "ok" then 1 else 0)
  {
    var cs := MakeReport(call, attempts, phases, failoverUsed, ttftMs, totalMs, exhausted).counters;
    AttemptCountersTotals(call, attempts, phases, p);
    assert cs[1..] == AttemptCounters(call, attempts, phases);
    RequestCounterTotals(call, attempts, phases[|phases| - 1], failoverUsed, ttftMs, totalMs, p);
  }

  lemma RequestCounterTotals(call: Call, attempts: seq<Attempt>, phase: string, failoverUsed: bool,
                             ttftMs: Option<nat>, totalMs: nat, p: Parser)
    requires attempts != [] && KnownOutcomes(attempts)
    ensures var counter := RequestCounter(call, attempts, phase, failoverUsed, ttftMs, totalMs);
      && C.Accepted(counter)
      && C.Count(C.Clamped(counter.increment, p), C.Requests) == 1
      && C.Count(C.Clamped(counter.increment, p), C.Attempts) == Clamp(|attempts|, 0, C.MAX_COUNT)
      && C.Count(C.Clamped(counter.increment, p), C.FailoverUsed) == (if failoverUsed then 1 else 0)
      && C.Count(C.Clamped(counter.increment, p), C.FirstAttemptSuccess) == (if attempts[0].outcome == "ok" then 1 else 0)
  {
    assert attempts[|attempts| - 1].outcome in W.FINAL_OUTCOMES;
  }

  /** A finished call's event is never counted as an invalid sample. */
  lemma ReportIsValidSample(call: Call, attempts: seq<Attempt>, phases: seq<string>, failoverUsed: bool,
                            ttftMs: Option<nat>, totalMs: nat, exhausted: bool, now: real, rate: real, draw: real, p: Parser)
    requires attempts != [] && |attempts| == |phases| && 0.0 <= rate <= 1.0
    ensures !Store.Sample(MakeReport(call, attempts, phases, failoverUsed, ttftMs, totalMs, exhausted).event,
                          now, rate, draw, p).Invalid?
  {
    var e := MakeReport(call, attempts, phases, failoverUsed, ttftMs, totalMs, exhausted).event;
    StoreLaws.InvalidIff(e, now, rate, draw, p);
    assert e.attempts.items[0].Dict?;
  }

  // ----- the recorder -----

  /** What the server told about an attempt, which a later transport failure must not forget. */
  function Told(a: Attempt): (Option<string>, string, Option<int>, Option<string>)
  {
    (a.errorSource, a.shouldRetry, a.retryAfterMs, a.requestId)
  }

  class RequestRecorder {
    const call: Call
    var attempts: seq<Attempt>
    var phases: seq<string>
    var failoverUsed: bool
    var ttftMs: Option<nat>
    var started: bool
    var currentHost: string
    var currentIndex: nat
    var finished: bool
    var reports: seq<Report>

    /** One phase per attempt, attempts numbered in order, and `failoverUsed` exactly when some attempt moved. */
    ghost predicate Coherent()
      reads this
    {
      && |phases| == |attempts|
      && (forall i :: 0 <= i < |attempts| ==> attempts[i].index == i)
      && KnownOutcomes(attempts)
      && (failoverUsed <==> Moves(attempts) > 0)
      && (started ==> currentIndex <= |attempts| <= currentIndex + 1)
      && (!started ==> attempts == [])
    }

    constructor (call: Call)
      ensures this.call == call && Coherent()
      ensures attempts == [] && phases == [] && !failoverUsed && ttftMs.None?
      ensures !started && !finished && reports == []
    {
      this.call := call;
      attempts, phases, failoverUsed, ttftMs := [], [], false, None;
      started, currentHost, currentIndex, finished, reports := false, "", 0, false, [];
    }

    method BeginAttempt(host: string)
      requires Coherent()
      modifies `started, `currentHost, `currentIndex
      ensures Coherent() && started && currentHost == host && currentIndex == |attempts|
    {
      started, currentHost, currentIndex := true, host, |attempts|;
    }

    /** _store_attempt: replace the current attempt's record or append it. */
    method StoreAttempt(a: Attempt, phase: string)
      requires Coherent() && started && a.index == currentIndex && a.outcome in W.OUTCOMES
      requires currentIndex < |attempts| ==> a.moved == attempts[currentIndex].moved
      requires currentIndex == |attempts| ==> !a.moved
      modifies `attempts, `phases
      ensures Coherent()
      ensures attempts == old(attempts)[..currentIndex] + [a] && phases == old(phases)[..currentIndex] + [phase]
      ensures Moves(attempts) == Moves(old(attempts))
    {
      if a.index < |attempts| {
        MovesLast(attempts);
        attempts := attempts[a.index := a];
        phases := phases[a.index := phase];
        assert attempts[..currentIndex] == old(attempts)[..currentIndex];
        MovesLast(attempts);
      } else {
        MovesConcat(attempts, [a]);
        attempts := attempts + [a];
        phases := phases + [phase];
      }
    }

    method OnResponse(r: Reply, elapsedMs: nat)
      requires Coherent() && started && currentIndex == |attempts|
      modifies `attempts, `phases
      ensures Coherent() && Moves(attempts) == Moves(old(attempts)) && |attempts| == currentIndex + 1
      ensures attempts[..currentIndex] == old(attempts)
      ensures var a := attempts[currentIndex];
        && a.host == currentHost && !a.moved && a.httpStatus == Some(r.status)
        && a.outcome == (if r.status < 400 then "ok" else "http_error") && a.errorClass.None?
        && Told(a) == (r.errorSource, r.shouldRetry, r.retryAfterMs, r.requestId)
        && a.elapsedMs == elapsedMs && a.ttfbMs == Some(elapsedMs)
      ensures phases == old(phases) + ["none"]
    {
      StoreAttempt(
        Attempt(currentIndex, currentHost, if r.status < 400 then "ok" else "http_error", Some(r.status), None,
                r.errorSource, r.shouldRetry, r.retryAfterMs, elapsedMs, Some(elapsedMs), r.requestId, false), "none");
    }

    method OnTransportError(f: Failure, responseOpened: bool, bodyStarted: bool, elapsedMs: nat)
      requires Coherent() && started
      requires currentIndex < |attempts| ==> !attempts[currentIndex].moved
      modifies `attempts, `phases
      ensures Coherent() && Moves(attempts) == Moves(old(attempts)) && |attempts| == currentIndex + 1
      ensures attempts[..currentIndex] == old(attempts)[..currentIndex]
      ensures var a := attempts[currentIndex];
        && a.host == currentHost && !a.moved && a.elapsedMs == elapsedMs
        && a.outcome == (if f.timeout then "timeout" else if bodyStarted then "stream_broken" else "transport_error")
        && a.errorClass == Some(if f.timeout && f.readTimeout && bodyStarted then "stream_stalled" else f.errorClass)
      ensures phases == old(phases)[..currentIndex] + [if f.timeout && bodyStarted then "idle" else f.phase]
      ensures currentIndex < |old(attempts)| ==>
        var a, previous := attempts[currentIndex], old(attempts)[currentIndex];
        && Told(a) == Told(previous)
        && (if responseOpened then a.httpStatus == previous.httpStatus && a.ttfbMs == previous.ttfbMs
            else a.httpStatus.None? && a.ttfbMs.None?)
      ensures currentIndex == |old(attempts)| ==>
        var a := attempts[currentIndex];
        Told(a) == (None, "absent", None, None) && a.httpStatus.None? && a.ttfbMs.None?
    {
      var errorClass, phase, outcome := f.errorClass, f.phase, "";
      if f.timeout {
        outcome := "timeout";
        if bodyStarted {
          phase := "idle";
          if f.readTimeout {
            errorClass := "stream_stalled";
          }
        }
      } else if bodyStarted {
        outcome := "stream_broken";
      } else {
        outcome := "transport_error";
      }
      if currentIndex < |attempts| {
        var previous := attempts[currentIndex];
        StoreAttempt(
          Attempt(currentIndex, currentHost, outcome, if responseOpened then previous.httpStatus else None,
                  Some(errorClass), previous.errorSource, previous.shouldRetry, previous.retryAfterMs, elapsedMs,
                  if responseOpened then previous.ttfbMs else None, previous.requestId, false), phase);
      } else {
        StoreAttempt(
          Attempt(currentIndex, currentHost, outcome, None, Some(errorClass), None, "absent", None, elapsedMs, None, None, false),
          phase);
      }
    }

    method OnMoved()
      requires Coherent()
      modifies `attempts, `failoverUsed
      ensures Coherent()
      ensures attempts == if old(attempts) == [] then []
                          else old(attempts)[|old(attempts)| - 1 := old(attempts)[|old(attempts)| - 1].(moved := true)]
      ensures old(attempts) != [] && !old(attempts)[|old(attempts)| - 1].moved ==> Moves(attempts) == Moves(old(attempts)) + 1
    {
      if attempts == [] {
        return;
      }
      MovesLast(attempts);
      var last := |attempts| - 1;
      attempts := attempts[last := attempts[last].(moved := true)];
      failoverUsed := true;
      assert attempts[..last] == old(attempts)[..last];
      MovesLast(attempts);
    }

    method OnFirstEvent(sinceFirstMs: nat)
      modifies `ttftMs
      ensures old(ttftMs).Some? || !started ==> ttftMs == old(ttftMs)
      ensures old(ttftMs).None? && started ==> ttftMs == Some(sinceFirstMs)
    {
      if ttftMs.None? && started {
        ttftMs := Some(sinceFirstMs);
      }
    }

    method OnAborted(elapsedMs: nat)
      requires Coherent() && started
      modifies `attempts, `phases
      ensures Coherent() && Moves(attempts) == Moves(old(attempts)) && |attempts| == currentIndex + 1
      ensures attempts[..currentIndex] == old(attempts)[..currentIndex]
      ensures currentIndex < |old(attempts)| ==>
        && attempts[currentIndex]
           == old(attempts)[currentIndex].(host := currentHost, outcome := "aborted", elapsedMs := elapsedMs)
        && phases == old(phases)
      ensures currentIndex == |old(attempts)| ==>
        && attempts[currentIndex]
           == Attempt(currentIndex, currentHost, "aborted", None, None, None, "absent", None, elapsedMs, None, None, false)
        && phases == old(phases) + ["none"]
    {
      if currentIndex < |attempts| {
        var previous := attempts[currentIndex];
        StoreAttempt(previous.(index := currentIndex, host := currentHost, outcome := "aborted", elapsedMs := elapsedMs),
                     phases[currentIndex]);
      } else {
        StoreAttempt(
          Attempt(currentIndex, currentHost, "aborted", None, None, None, "absent", None, elapsedMs, None, None, false), "none");
      }
    }

    predicate Recordable()
    {
      call.endpoint in W.ENDPOINTS && call.httpMethod in W.METHODS
    }

    /** finish: at most one report per call, and only for a recordable call with at least one attempt. */
    method Finish(exhausted: bool, totalMs: nat)
      requires Coherent()
      modifies `finished, `reports
      ensures finished
      ensures reports == if old(finished) || !Recordable() || attempts == [] then old(reports)
                         else old(reports) + [MakeReport(call, attempts, phases, failoverUsed, ttftMs, totalMs, exhausted)]
    {
      if finished {
        return;
      }
      finished := true;
      if !Recordable() || attempts == [] || !started {
        return;
      }
      reports := reports + [MakeReport(call, attempts, phases, failoverUsed, ttftMs, totalMs, exhausted)];
    }
  }
}
