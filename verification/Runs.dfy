/**
  Whole runs of the reporter. A flush is two atomic steps, because the lock is released between
  selecting a batch and handling its answer; any number of requests may fall in between.
  The flush lock allows one batch in flight. `Abandoning` is a flush that dies between the two steps without an
  answer and without a backoff: an interrupt, or a failure before the request is made.
 */
module Runs {
  import opened Values
  import opened Counters
  import opened Store
  import opened StoreLaws

  datatype World = World(state: State, inflight: Option<Inflight>)

  datatype Step =
    | Request(now: real, event: W.RawEvent, draw: real, counters: seq<RawCounter>)
    | Selecting(now: real, sentAtMs: int)
    | Responding(now: real, response: Response)
    | Failing(now: real)
    | Abandoning
    | Shutting

  function Initial(sampleRate: real, flushSeconds: real): World
  {
    World(
      State([], 0, None, [], [], map[], 0, 0, 0, 0, sampleRate, flushSeconds, BACKOFF_MIN, 0.0, 0.0, false, false),
      None)
  }

  predicate Enabled(w: World, step: Step)
  {
    match step
    case Selecting(now, _) =>
      w.inflight.None? && !w.state.disabled && now >= Max(w.state.pausedUntil, w.state.backoffUntil)
    case Responding(_, _) => w.inflight.Some?
    case Failing(_) => w.inflight.Some?
    case Abandoning => w.inflight.Some?
    case _ => true
  }

  function Next(w: World, step: Step, env: Env): World
    requires Enabled(w, step)
  {
    var s := w.state;
    match step
    case Request(now, event, draw, counters) => w.(state := OnRequest(s, now, event, draw, counters, env))
    case Selecting(now, sentAtMs) => var (s', f) := Select(s, now, sentAtMs, env); World(s', f)
    case Responding(now, response) => World(Respond(s, w.inflight.value, response, now, env), None)
    case Failing(now) => World(SetBackoff(s, now, None), None)
    case Abandoning => World(s, None)
    case Shutting => w.(state := s.(shut := true))
  }

  // ----- what every state keeps -----

  ghost predicate ValidEvents(events: seq<Buffered>, bytes: int, nextId: nat, p: Parser)
  {
    && |events| <= MAX_EVENTS
    && Identified(events)
    && (forall i :: 0 <= i < |events| ==> events[i].id < nextId)
    && bytes == EventBytes(events)
    && AllSendable(events, p)
  }

  ghost predicate ValidQueue(closed: seq<nat>, windows: map<nat, Window>, nextId: nat, env: Env)
  {
    && Increasing(closed)
    && (forall i :: 0 <= i < |closed| ==> closed[i] in windows && windows[closed[i]].rows != [])
    && (forall id :: id in windows ==> id < nextId)
    && Keyed(windows)
    && Sized(windows, env)
  }

  ghost predicate ValidOpen(windowStart: Option<int>, current: Table)
  {
    ValidTable(current) && (windowStart.None? ==> current == [])
  }

  ghost predicate ValidPacing(s: State)
  {
    && BACKOFF_MIN <= s.backoff <= BACKOFF_MAX
    && 0.0 <= s.sampleRate <= 1.0
    && 0.0 < s.flushSeconds <= BACKOFF_MAX
  }

  ghost predicate Emptied(s: State)
  {
    s.events == [] && s.current == [] && s.closed == [] && s.retained == 0 && s.dropped == 0
  }

  ghost predicate Valid(s: State, env: Env)
  {
    && ValidEvents(s.events, s.eventBytes, s.nextId, env.parser)
    && ValidQueue(s.closed, s.windows, s.nextId, env)
    && ValidOpen(s.windowStart, s.current)
    && ValidPacing(s)
    && (s.disabled ==> Emptied(s))
  }

  /** Wire events match their references position by position. */
  ghost predicate EventsAligned(refs: seq<Buffered>, events: seq<W.RawEvent>)
  {
    && |events| == |refs| <= MAX_BATCH_EVENTS
    && Identified(refs)
    && forall i :: 0 <= i < |refs| ==>
         events[i].(ageMs := Missing) == refs[i].event.(ageMs := Missing, completedAt := Missing)
  }

  /** Wire rows match their references position by position, and every reference still finds its row. */
  ghost predicate CountersAligned(refs: seq<Ref>, rows: seq<CounterRow>, ws: map<nat, Window>)
  {
    && |rows| == |refs| <= MAX_BATCH_COUNTERS
    && Distinct(refs)
    && forall i :: 0 <= i < |refs| ==>
         Hits(ws, refs[i]) && rows[i] == WireRow(refs[i].key, RowAt(ws, refs[i]), rows[i].ageMs)
  }

  /** The batch in flight: bounded, aligned with its references, and never ahead of the drop counter. */
  ghost predicate ValidFlight(s: State, f: Inflight, env: Env)
  {
    && !s.disabled
    && EventsAligned(f.eventRefs, f.batch.events)
    && CountersAligned(f.counterRefs, f.batch.counters, s.windows)
    && env.batchBytes(f.batch) <= MAX_BATCH_BYTES
    && f.batch.dropped <= s.dropped
  }

  ghost predicate ValidWorld(w: World, env: Env)
  {
    Valid(w.state, env) && (w.inflight.Some? ==> ValidFlight(w.state, w.inflight.value, env))
  }

  /** Requests may fall between a selection and its answer: they only add windows and drops. */
  ghost predicate Grows(s: State, s': State)
  {
    && (forall id :: id in s.windows ==> id in s'.windows && s'.windows[id] == s.windows[id])
    && s.nextId <= s'.nextId && s.dropped <= s'.dropped && s'.disabled == s.disabled
  }

  lemma FlightSurvives(s: State, s': State, f: Inflight, env: Env)
    requires ValidFlight(s, f, env) && Grows(s, s')
    ensures ValidFlight(s', f, env)
  {
  }

  lemma PruneKeeps(s: State, now: real, env: Env)
    requires Valid(s, env) && !s.disabled
    ensures Valid(Prune(s, now), env) && Grows(s, Prune(s, now))
  {
    PruneAccounts(s, now, Bytes);
  }

  lemma EnqueueKeeps(s: State, now: real, env: Env)
    requires Valid(s, env) && !s.disabled && Closes(s)
    ensures Valid(Enqueue(s, now, env), env) && Grows(s, Enqueue(s, now, env))
  {
  }

  lemma CloseKeeps(s: State, now: real, env: Env)
    requires Valid(s, env) && !s.disabled
    ensures Valid(Close(s, now, env), env) && Grows(s, Close(s, now, env))
    ensures s.windowStart.Some? ==> Close(s, now, env).current == []
  {
    if Closes(s) {
      EnqueueKeeps(s, now, env);
      PruneKeeps(Enqueue(s, now, env), now, env);
    }
  }

  lemma StartKeeps(s: State, start: int, env: Env)
    requires Valid(s, env)
    ensures Valid(s.(windowStart := Some(start)), env) && Grows(s, s.(windowStart := Some(start)))
  {
  }

  lemma RollKeeps(s: State, now: real, env: Env)
    requires Valid(s, env) && !s.disabled
    ensures Valid(Roll(s, now, env), env) && Grows(s, Roll(s, now, env)) && Roll(s, now, env).windowStart.Some?
  {
    if s.windowStart.None? {
      StartKeeps(s, MinuteStart(now), env);
    } else if Rolls(s, now) {
      CloseKeeps(s, now, env);
      StartKeeps(Close(s, now, env), MinuteStart(now), env);
    }
  }

  lemma EventRemoved(events: seq<Buffered>, bytes: int, nextId: nat, n: nat, p: Parser)
    requires ValidEvents(events, bytes, nextId, p) && n < |events|
    ensures ValidEvents(events[..n] + events[n + 1..], bytes - events[n].bytes, nextId, p)
  {
    EventBytesRemove(events, n);
    var left := events[..n] + events[n + 1..];
    forall i | 0 <= i < |left| ensures left[i] == events[if i < n then i else i + 1] {}
  }

  lemma EventAdded(events: seq<Buffered>, bytes: int, nextId: nat, b: Buffered, p: Parser)
    requires ValidEvents(events, bytes, nextId, p) && |events| < MAX_EVENTS && b.id == nextId && Sendable(b, p)
    ensures ValidEvents(events + [b], bytes + b.bytes, nextId + 1, p)
  {
    EventBytesAppend(events, b);
  }

  lemma DropEventKeeps(s: State, env: Env)
    requires Valid(s, env) && s.events != []
    ensures Valid(DropEvent(s), env) && Grows(s, DropEvent(s)) && |DropEvent(s).events| == |s.events| - 1
  {
    EventRemoved(s.events, s.eventBytes, s.nextId, EvictionIndex(s.events), env.parser);
  }

  lemma AppendKeeps(s: State, event: W.RawEvent, env: Env)
    requires Valid(s, env) && !s.disabled && Sendable(Buffered(s.nextId, event, env.eventBytes(event)), env.parser)
    ensures Valid(AppendEvent(s, event, env), env) && Grows(s, AppendEvent(s, event, env))
  {
    var b := Buffered(s.nextId, event, env.eventBytes(event));
    var t := s;
    if |s.events| >= MAX_EVENTS {
      DropEventKeeps(s, env);
      t := DropEvent(s);
    }
    EventAdded(t.events, t.eventBytes, t.nextId, b, env.parser);
  }

  lemma OnRequestKeeps(s: State, now: real, event: W.RawEvent, draw: real, counters: seq<RawCounter>, env: Env)
    requires Valid(s, env)
    ensures Valid(OnRequest(s, now, event, draw, counters, env), env)
    ensures Grows(s, OnRequest(s, now, event, draw, counters, env))
  {
    if !s.disabled && !s.shut {
      var rolled := Roll(s, now, env);
      RollKeeps(s, now, env);
      MergeAllKeepsCap(rolled.current, counters, env.parser);
      var merged := MergeCounters(rolled, counters, env.parser);
      assert Valid(merged, env) && Grows(rolled, merged);
      var sample := Sample(event, now, s.sampleRate, draw, env.parser);
      if sample.Take? {
        TakenIsSendable(event, now, s.sampleRate, draw, merged.nextId, env.eventBytes(sample.event), env.parser);
        AppendKeeps(merged, sample.event, env);
      }
    }
  }

  lemma CloseAllKeeps(s: State, now: real, env: Env)
    requires Valid(s, env) && !s.disabled
    ensures Valid(CloseAll(s, now, env), env) && Grows(s, CloseAll(s, now, env))
    ensures DropUnsendable(CloseAll(s, now, env), now, env.parser) == CloseAll(s, now, env)
  {
    RollKeeps(s, now, env);
    CloseKeeps(Roll(s, now, env), now, env);
    PruneKeeps(Close(Roll(s, now, env), now, env), now, env);
    ScanSendable(CloseAll(s, now, env).events, now, MAX_BATCH_EVENTS, env.parser);
  }

  lemma DraftEventsAligned(events: seq<Buffered>, now: real, p: Parser)
    requires Identified(events) && AllSendable(events, p)
    ensures var refs := Scan(events, now, MAX_BATCH_EVENTS, p).0;
      EventsAligned(refs, WireEvents(refs, now, p))
  {
    ScanSendable(events, now, MAX_BATCH_EVENTS, p);
    var refs := Scan(events, now, MAX_BATCH_EVENTS, p).0;
    forall i | 0 <= i < |refs|
      ensures WireEvents(refs, now, p)[i].(ageMs := Missing) == refs[i].event.(ageMs := Missing, completedAt := Missing)
    {
      assert refs[i] == events[i] && Sendable(events[i], p);
      assert W.WireEvent(refs[i].event, now, p).Some?;
    }
  }

  lemma DraftCountersAligned(closed: seq<nat>, ws: map<nat, Window>, now: real)
    requires Increasing(closed) && Keyed(ws)
    ensures var refs := FirstRefs(AllRefs(closed, ws));
      CountersAligned(refs, WireRows(refs, ws, now), ws)
  {
    AllRefsLaws(closed, ws);
    var refs := FirstRefs(AllRefs(closed, ws));
    forall i | 0 <= i < |refs|
      ensures Hits(ws, refs[i])
      ensures WireRows(refs, ws, now)[i] == WireRow(refs[i].key, RowAt(ws, refs[i]), WireRows(refs, ws, now)[i].ageMs)
    {
      assert refs[i] in AllRefs(closed, ws);
    }
  }

  lemma EventsPrefixAligned(refs: seq<Buffered>, events: seq<W.RawEvent>, n: nat)
    requires EventsAligned(refs, events) && n <= |refs|
    ensures EventsAligned(refs[..n], events[..n])
  {
  }

  lemma CountersPrefixAligned(refs: seq<Ref>, rows: seq<CounterRow>, ws: map<nat, Window>, n: nat)
    requires CountersAligned(refs, rows, ws) && n <= |refs|
    ensures CountersAligned(refs[..n], rows[..n], ws)
  {
  }

  lemma TrimKeeps(s: State, d: Inflight, env: Env)
    requires EventsAligned(d.eventRefs, d.batch.events) && CountersAligned(d.counterRefs, d.batch.counters, s.windows)
    ensures Trim(d, env).Some? ==>
      var f := Trim(d, env).value;
      && EventsAligned(f.eventRefs, f.batch.events) && CountersAligned(f.counterRefs, f.batch.counters, s.windows)
      && env.batchBytes(f.batch) <= MAX_BATCH_BYTES && f.batch.dropped == d.batch.dropped
  {
    TrimLaws(d, env);
    if Trim(d, env).Some? {
      var f := Trim(d, env).value;
      EventsPrefixAligned(d.eventRefs, d.batch.events, |f.eventRefs|);
      CountersPrefixAligned(d.counterRefs, d.batch.counters, s.windows, |f.counterRefs|);
    }
  }

  /** What a selection sends is bounded and aligned, and no buffered event is thrown out. */
  lemma SelectKeeps(s: State, now: real, sentAtMs: int, env: Env)
    requires Valid(s, env) && !s.disabled
    ensures var (s', f) := Select(s, now, sentAtMs, env);
      Valid(s', env) && (f.Some? ==> ValidFlight(s', f.value, env))
    ensures Unsendable(CloseAll(s, now, env), now, env.parser) == []
  {
    CloseAllKeeps(s, now, env);
    var closed := CloseAll(s, now, env);
    ScanSendable(closed.events, now, MAX_BATCH_EVENTS, env.parser);
    var d := Draft(closed, now, sentAtMs, env);
    DraftEventsAligned(closed.events, now, env.parser);
    DraftCountersAligned(closed.closed, closed.windows, now);
    TrimKeeps(closed, d, env);
  }
}
