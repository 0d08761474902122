/** What a finished call reports: the event and the counters, told by the attempts recorded. */
module Reports {
  import opened Values
  import opened Recorder
  import C = Counters

  // ----- buckets and classes -----

  const BUCKET_NAMES: seq<string> :=
    ["lt100", "lt200", "lt400", "lt800", "lt1600", "lt3200", "lt6400", "lt12800", "lt25600", "lt51200", "lt102400",
     "ge102400"]

  /** The upper bound of bucket k: 100 milliseconds, doubled k times. */
  function Upper(k: nat): nat
  {
    if k == 0 then 100 else 2 * Upper(k - 1)
  }

  /** The duration is in bucket k and in no other. */
  predicate InBucket(ms: nat, k: nat)
  {
    k <= 11 && (k < 11 ==> ms < Upper(k)) && (k > 0 ==> ms >= Upper(k - 1))
  }

  lemma UpperIs()
    ensures Upper(0) == 100 && Upper(1) == 200 && Upper(2) == 400 && Upper(3) == 800 && Upper(4) == 1600 && Upper(5) == 3200
    ensures Upper(6) == 6400 && Upper(7) == 12800 && Upper(8) == 25600 && Upper(9) == 51200 && Upper(10) == 102400
  {
    assert Upper(2) == 2 * Upper(1);
    assert Upper(4) == 2 * Upper(3) && Upper(3) == 2 * Upper(2);
    assert Upper(6) == 2 * Upper(5) && Upper(5) == 2 * Upper(4);
    assert Upper(8) == 2 * Upper(7) && Upper(7) == 2 * Upper(6);
    assert Upper(10) == 2 * Upper(9) && Upper(9) == 2 * Upper(8);
  }

  /** Each duration goes to the bucket whose bounds enclose it. */
  lemma LatencyIs(ms: nat, k: nat)
    requires k <= 11
    ensures LatencyBucket(ms) == BUCKET_NAMES[k] <==> InBucket(ms, k)
  {
    UpperIs();
  }

  /** The class of a status: of none, of a rate limit, of the other hundreds that have one, or of nothing. */
  predicate IsClass(status: Option<int>, name: string)
  {
    && (name == "2xx" <==> status.Some? && 200 <= status.value < 300)
    && (name == "429" <==> status == Some(429))
    && (name == "4xx" <==> status.Some? && 400 <= status.value < 500 && status.value != 429)
    && (name == "5xx" <==> status.Some? && 500 <= status.value < 600)
    && (name == "none" <==> status.None? || !(200 <= status.value < 300 || 400 <= status.value < 600))
  }

  predicate NoClass(attempts: seq<Attempt>)
  {
    forall i :: 0 <= i < |attempts| ==> attempts[i].errorClass.None?
  }

  /** The error class of the first attempt that had one. */
  ghost predicate IsFirstClass(attempts: seq<Attempt>, name: Option<string>)
  {
    if name.None? then NoClass(attempts)
    else exists i :: 0 <= i < |attempts| && attempts[i].errorClass == name && NoClass(attempts[..i])
  }

  lemma {:induction false} FirstClassIs(attempts: seq<Attempt>)
    ensures IsFirstClass(attempts, FirstErrorClass(attempts))
  {
    if attempts != [] {
      assert attempts[..0] == [];
      if attempts[0].errorClass.None? {
        FirstClassIs(attempts[1..]);
        assert forall i :: 0 < i < |attempts| ==> attempts[i] == attempts[1..][i - 1];
        if FirstErrorClass(attempts).Some? {
          var i :| 0 <= i < |attempts[1..]| && attempts[1..][i].errorClass == FirstErrorClass(attempts)
            && NoClass(attempts[1..][..i]);
          assert attempts[i + 1].errorClass == FirstErrorClass(attempts);
          assert attempts[..i + 1] == [attempts[0]] + attempts[1..][..i];
        }
      }
    }
  }

  // ----- counters -----

  function Text(o: Option<string>): Value
  {
    if o.Some? then Str(o.value) else Null
  }

  function Number(o: Option<int>): Value
  {
    if o.Some? then Int(o.value) else Null
  }

  /** The timeout configured for the phase is long enough not to blame the caller. */
  predicate LongEnough(phase: string, ms: Option<int>)
  {
    || (phase == "connect" && ms.Some? && ms.value >= 10_000)
    || (phase == "first_byte" && ms.Some? && ms.value >= 60_000)
    || (phase == "idle" && ms.Some? && ms.value >= 30_000)
  }

  /** A counter under these dimensions of this attempt in this phase. */
  ghost predicate Under(c: C.RawCounter, level: string, call: Call, a: Attempt, errorClass: Option<string>, phase: string)
  {
    && c.Counter? && c.key.RawKey?
    && c.key.level == Str(level) && c.key.endpoint == Str(call.endpoint) && c.key.streaming == Bool(call.streaming)
    && c.key.host == Str(a.host) && c.key.outcome == Str(a.outcome) && c.key.errorClass == Text(errorClass)
    && c.key.statusClass.Str? && IsClass(a.httpStatus, c.key.statusClass.s)
    && c.key.phase == Str(phase) && c.key.floorMet == Bool(LongEnough(phase, call.timeoutMs(phase)))
    && c.key.pinned == Bool(call.pinned)
  }

  function Worth(c: C.RawCounter, cell: C.Cell, p: Parser): nat
    requires c.Counter?
  {
    C.Count(C.Clamped(c.increment, p), cell)
  }

  /** A histogram of one duration, or of none. */
  ghost predicate CountsOnce(c: C.RawCounter, ms: Option<nat>, first: bool, p: Parser)
    requires c.Counter?
  {
    forall k: nat, b: C.Bucket :: k <= 11 && b == BUCKET_NAMES[k] ==>
      Worth(c, if first then C.FirstEventMs(b) else C.TotalMs(b), p) == (if ms.Some? && InBucket(ms.value, k) then 1 else 0)
  }

  lemma {:induction false} AttemptCounterAt(call: Call, attempts: seq<Attempt>, phases: seq<string>, i: nat)
    requires |attempts| == |phases| && i < |attempts|
    ensures |AttemptCounters(call, attempts, phases)| == |attempts|
    ensures AttemptCounters(call, attempts, phases)[i] == AttemptCounter(call, attempts[i], phases[i])
  {
    if |attempts| > 1 {
      AttemptCounterAt(call, attempts[1..], phases[1..], if i > 0 then i - 1 else 0);
    }
  }

  lemma KeyUnder(c: C.RawCounter, level: string, call: Call, a: Attempt, errorClass: Option<string>, phase: string)
    requires c.Counter? && c.key == Key(call, level, a.host, a.outcome, errorClass, a.httpStatus, phase)
    ensures Under(c, level, call, a, errorClass, phase)
  {
  }

  lemma NoHistograms(c: C.RawCounter, p: Parser)
    requires c.Counter? && c.increment.totalMs.NotAMapping? && c.increment.firstEventMs.NotAMapping?
    ensures CountsOnce(c, None, true, p) && CountsOnce(c, None, false, p)
  {
    forall b: C.Bucket ensures Worth(c, C.FirstEventMs(b), p) == 0 && Worth(c, C.TotalMs(b), p) == 0 {}
  }

  /** Each attempt has its own counter, in order after the call's, under its own dimensions and in no histogram. */
  lemma AttemptReported(call: Call, attempts: seq<Attempt>, phases: seq<string>, failoverUsed: bool,
                        ttftMs: Option<nat>, totalMs: nat, exhausted: bool, i: nat, p: Parser)
    requires |attempts| == |phases| && i < |attempts|
    ensures var cs := MakeReport(call, attempts, phases, failoverUsed, ttftMs, totalMs, exhausted).counters;
      && |cs| == 1 + |attempts| && Under(cs[1 + i], "attempt", call, attempts[i], attempts[i].errorClass, phases[i])
      && CountsOnce(cs[1 + i], None, true, p) && CountsOnce(cs[1 + i], None, false, p)
  {
    AttemptCounterAt(call, attempts, phases, i);
    var c := AttemptCounter(call, attempts[i], phases[i]);
    KeyUnder(c, "attempt", call, attempts[i], attempts[i].errorClass, phases[i]);
    NoHistograms(c, p);
  }

  lemma OneInIs(ms: nat, k: nat, b: C.Bucket, p: Parser)
    requires k <= 11 && b == BUCKET_NAMES[k]
    ensures C.At(C.MergeHistogram(map[], OneIn(ms), p), b) == (if InBucket(ms, k) then 1 else 0)
  {
    LatencyIs(ms, k);
  }

  /** The duration until the first event, or else until the last attempt's first byte. */
  function FirstSign(attempts: seq<Attempt>, ttftMs: Option<nat>): Option<nat>
    requires attempts != []
  {
    if ttftMs.Some? then ttftMs else attempts[|attempts| - 1].ttfbMs
  }

  /** The call's own counter comes first: the last attempt's dimensions, the first error class, both durations once. */
  lemma CallReported(call: Call, attempts: seq<Attempt>, phases: seq<string>, failoverUsed: bool,
                     ttftMs: Option<nat>, totalMs: nat, exhausted: bool, p: Parser) returns (errorClass: Option<string>)
    requires attempts != [] && |attempts| == |phases|
    ensures IsFirstClass(attempts, errorClass)
    ensures var c := MakeReport(call, attempts, phases, failoverUsed, ttftMs, totalMs, exhausted).counters[0];
      && Under(c, "request", call, attempts[|attempts| - 1], errorClass, phases[|phases| - 1])
      && CountsOnce(c, Some(totalMs), false, p) && CountsOnce(c, FirstSign(attempts, ttftMs), true, p)
  {
    FirstClassIs(attempts);
    errorClass := FirstErrorClass(attempts);
    CallCounter(call, attempts, phases[|phases| - 1], failoverUsed, ttftMs, totalMs, p);
  }

  lemma CallCounter(call: Call, attempts: seq<Attempt>, phase: string, failoverUsed: bool,
                    ttftMs: Option<nat>, totalMs: nat, p: Parser)
    requires attempts != []
    ensures var c := RequestCounter(call, attempts, phase, failoverUsed, ttftMs, totalMs);
      && Under(c, "request", call, attempts[|attempts| - 1], FirstErrorClass(attempts), phase)
      && CountsOnce(c, Some(totalMs), false, p) && CountsOnce(c, FirstSign(attempts, ttftMs), true, p)
  {
    var c := RequestCounter(call, attempts, phase, failoverUsed, ttftMs, totalMs);
    KeyUnder(c, "request", call, attempts[|attempts| - 1], FirstErrorClass(attempts), phase);
    TotalOnce(c, totalMs, p);
    FirstOnce(c, FirstSign(attempts, ttftMs), p);
  }

  lemma TotalOnce(c: C.RawCounter, ms: nat, p: Parser)
    requires c.Counter? && c.increment.totalMs == OneIn(ms)
    ensures CountsOnce(c, Some(ms), false, p)
  {
    forall k: nat, b: C.Bucket | k <= 11 && b == BUCKET_NAMES[k]
      ensures Worth(c, C.TotalMs(b), p) == (if InBucket(ms, k) then 1 else 0)
    {
      OneInIs(ms, k, b, p);
    }
  }

  lemma FirstOnce(c: C.RawCounter, ms: Option<nat>, p: Parser)
    requires c.Counter? && c.increment.firstEventMs == (if ms.Some? then OneIn(ms.value) else C.NotAMapping)
    ensures CountsOnce(c, ms, true, p)
  {
    forall k: nat, b: C.Bucket | k <= 11 && b == BUCKET_NAMES[k]
      ensures Worth(c, C.FirstEventMs(b), p) == (if ms.Some? && InBucket(ms.value, k) then 1 else 0)
    {
      if ms.Some? {
        OneInIs(ms.value, k, b, p);
      }
    }
  }

  // ----- the event -----

  /** The attempt of the event is this record. */
  predicate Describes(v: Value, a: Attempt)
  {
    && v.Dict?
    && v.attempt.index == Int(a.index) && v.attempt.host == Str(a.host) && v.attempt.outcome == Str(a.outcome)
    && v.attempt.httpStatus == Number(a.httpStatus) && v.attempt.errorClass == Text(a.errorClass)
    && v.attempt.errorSource == Text(a.errorSource) && v.attempt.shouldRetry == Str(a.shouldRetry)
    && v.attempt.retryAfterMs == Number(a.retryAfterMs) && v.attempt.elapsedMs == Int(a.elapsedMs)
    && v.attempt.ttfbMs == Number(a.ttfbMs) && v.attempt.requestId == Text(a.requestId) && v.attempt.moved == Bool(a.moved)
  }

  /** The event says what the call was, every attempt of it, and how and when it ended. */
  lemma EventReported(call: Call, attempts: seq<Attempt>, phases: seq<string>, failoverUsed: bool,
                      ttftMs: Option<nat>, totalMs: nat, exhausted: bool)
    requires attempts != [] && |attempts| == |phases|
    ensures var e, last := MakeReport(call, attempts, phases, failoverUsed, ttftMs, totalMs, exhausted).event, |attempts| - 1;
      && e.endpoint == Str(call.endpoint) && e.httpMethod == Str(call.httpMethod) && e.model == Text(call.model)
      && e.streaming == Bool(call.streaming) && e.providerPinned == Bool(call.pinned) && e.failoverUsed == Bool(failoverUsed)
      && e.attempts.List? && |e.attempts.items| == |attempts|
      && (forall i :: 0 <= i < |attempts| ==> Describes(e.attempts.items[i], attempts[i]))
      && (e.finalOutcome == Str("exhausted") <==>
            attempts[last].outcome == "exhausted" || (exhausted && |attempts| >= 2 && attempts[last].outcome != "ok"))
      && (e.finalOutcome != Str("exhausted") ==> e.finalOutcome == Str(attempts[last].outcome))
      && e.finalHttpStatus == Number(attempts[last].httpStatus)
      && e.totalMs == Int(totalMs) && e.ttftMs == Number(ttftMs)
      && e.timeoutPhase == Str(phases[last]) && e.configuredTimeoutMs == Number(call.timeoutMs(phases[last]))
  {
  }
}
