/** What the reporter keeps of a request, and what each answer to a batch makes it do, told in numbers. */
module Answers {
  import opened Values
  import opened Counters
  import opened Store

  // ----- which requests are sampled -----

  /** More than one attempt, or a failover. */
  predicate WasRetried(e: W.RawEvent)
  {
    (e.attempts.List? && |e.attempts.items| >= 2) || Truthy(e.failoverUsed)
  }

  /** More than half a minute. */
  predicate WasSlow(e: W.RawEvent, p: Parser)
  {
    ToInt(e.totalMs, p).Some? && ToInt(e.totalMs, p).value > 30_000
  }

  /**
    A failure is always kept, then a retried success, then a slow one; of the rest those whose draw is below the rate. Only
    the last are kept at the sampling rate, the others at one.
   */
  lemma ReasonIff(e: W.RawEvent, rate: real, draw: real, p: Parser)
    requires 0.0 <= draw
    ensures var r := SampleReason(e, rate, draw, p);
      if e.finalOutcome != Str("ok") then r == Some(("failure", 1.0))
      else if WasRetried(e) then r == Some(("retried", 1.0))
      else if WasSlow(e, p) then r == Some(("slow", 1.0))
      else if draw < rate then r == Some(("random", rate))
      else r == None
  {
  }

  /** A sampled event is the request's, normalised, with the reason and rate it was kept for and the time it was. */
  lemma SampleIs(e: W.RawEvent, now: real, rate: real, draw: real, p: Parser)
    requires Sample(e, now, rate, draw, p).Take?
    ensures SampleReason(e, rate, draw, p).Some?
    ensures var taken, reason := Sample(e, now, rate, draw, p).event, SampleReason(e, rate, draw, p).value;
      && taken.sampleReason == Str(reason.0) && taken.sampleRate == Float(Finite(reason.1))
      && taken.completedAt == Float(Finite(now)) && taken.ageMs == Int(0)
      && e.attempts.List? && taken.attempts == List(W.WireAttempts(W.FirstAttempts(e.attempts.items), p))
      && (In(e.finalOutcome, W.FINAL_OUTCOMES) ==> taken.finalOutcome == e.finalOutcome)
  {
  }

  /** Below a thousand events a new one is appended, and nothing is evicted or counted as dropped. */
  lemma AppendIs(s: State, event: W.RawEvent, env: Env)
    requires |s.events| < 1000
    ensures var b := Buffered(s.nextId, event, env.eventBytes(event));
      AppendEvent(s, event, env)
      == s.(events := s.events + [b], eventBytes := s.eventBytes + b.bytes, nextId := s.nextId + 1)
  {
  }

  // ----- what an answer does -----

  predicate Fatal(r: Response)
  {
    r.off || r.status == 400 || r.status == 401 || r.status == 403 || r.status == 404 || r.status == 410
  }

  /** The delay an answer asks for: finite, not negative, and at most ten minutes, or none. */
  function Hint(r: Response): Option<real>
  {
    if r.retryAfter.Some? && r.retryAfter.value.Finite? && 0.0 <= r.retryAfter.value.r <= 600.0
    then Some(r.retryAfter.value.r) else None
  }

  /** The longer of the current delay and the hint. */
  function Delay(s: State, r: Response): real
  {
    if Hint(r).Some? && Hint(r).value > s.backoff then Hint(r).value else s.backoff
  }

  lemma {:induction false} ResizeFrame(s: State, ids: seq<nat>, env: Env)
    ensures var s' := ResizeAll(s, ids, env);
      s' == s.(windows := s'.windows, retained := s'.retained)
    decreases |ids|
  {
    if ids != [] {
      ResizeFrame(if ids[0] in s.windows then Resize(s, ids[0], env) else s, ids[1..], env);
    }
  }

  lemma RemoveFrame(s: State, f: Inflight, env: Env)
    ensures var s' := Remove(s, f, env);
      s' == s.(events := s'.events, eventBytes := s'.eventBytes, windows := s'.windows, retained := s'.retained,
               closed := s'.closed)
  {
    var t := RemoveEvents(s, f.eventRefs);
    ResizeFrame(t.(windows := DeleteRows(t.windows, f.counterRefs)), Changed(t.windows, f.counterRefs, []), env);
  }

  lemma PolicyFrame(s: State, p: Policy, now: real)
    ensures var s' := ApplyPolicy(s, p, now);
      s' == s.(sampleRate := s'.sampleRate, flushSeconds := s'.flushSeconds, pausedUntil := s'.pausedUntil)
  {
  }

  /** The reporter is switched off by a kill header and five statuses, and then holds nothing; by nothing else. */
  lemma FatalIff(s: State, f: Inflight, r: Response, now: real, env: Env)
    requires !s.disabled
    ensures var s' := Respond(s, f, r, now, env);
      && (s'.disabled <==> Fatal(r))
      && (Fatal(r) ==>
            s' == s.(disabled := true, events := [], eventBytes := 0, current := [], closed := [], retained := 0, dropped := 0))
  {
    RemoveFrame(s, f, env);
    if r.status == 202 && !Fatal(r) {
      Accepted(s, f, r, now, env);
    }
  }

  /** Anything but a fatal answer, a 202 or a 413 only waits: for the delay or a longer hint, at most ten minutes. */
  lemma WaitsIff(s: State, f: Inflight, r: Response, now: real, env: Env)
    requires !Fatal(r) && r.status != 202 && r.status != 413
    ensures Respond(s, f, r, now, env)
         == s.(backoffUntil := now + (if Delay(s, r) <= 600.0 then Delay(s, r) else 600.0),
               backoff := if s.backoff <= 30.0 then 60.0 else if s.backoff <= 300.0 then 2.0 * s.backoff else 600.0)
  {
  }

  /** A 202 takes the batch away, takes the drops it reported off the counter and ends the waiting. */
  lemma Accepted(s: State, f: Inflight, r: Response, now: real, env: Env)
    requires !Fatal(r) && r.status == 202
    ensures var s', removed := Respond(s, f, r, now, env), Remove(s, f, env);
      s' == removed.(dropped := if s.dropped >= f.batch.dropped then s.dropped - f.batch.dropped else 0,
                     backoff := 60.0, backoffUntil := 0.0,
                     sampleRate := s'.sampleRate, flushSeconds := s'.flushSeconds, pausedUntil := s'.pausedUntil)
  {
    RemoveFrame(s, f, env);
    var removed := Remove(s, f, env);
    var credited := removed.(dropped := if s.dropped >= f.batch.dropped then s.dropped - f.batch.dropped else 0,
                             backoff := 60.0, backoffUntil := 0.0);
    PolicyFrame(credited, r.policy, now);
    assert Respond(s, f, r, now, env) == ApplyPolicy(credited, r.policy, now);
  }

  /** A 413 takes the batch away and counts all of it as dropped. */
  lemma TooLarge(s: State, f: Inflight, r: Response, now: real, env: Env)
    requires !Fatal(r) && r.status == 413
    ensures Respond(s, f, r, now, env)
         == Remove(s, f, env).(dropped := s.dropped + |f.eventRefs| + |f.counterRefs|)
  {
    RemoveFrame(s, f, env);
  }
}
