/** A run from a fresh reporter in which an event is both discarded and delivered. */
module EvictionExample {
  import opened Values
  import opened Store
  import opened StoreLaws
  import opened Runs
  import opened Ledgers
  import opened Histories
  import opened Evictions
  import Scenario
  import W = WireEvents

  const ENV := Scenario.ENV

  /** A reporter that samples every request. */
  const START := Initial(1.0, 30.0)

  /** An ok request with one attempt. */
  const OK := Scenario.EVENT.(attempts := List([Dict(EMPTY_ATTEMPT)]))
  const ASK := Request(0.0, OK, 0.0, [])
  const PICK := Selecting(0.0, 0)
  const ANSWER := Responding(0.0, Scenario.ACCEPTED)

  lemma OkTaken()
    ensures Sample(OK, 0.0, 1.0, 0.0, ENV.parser).Take?
    ensures Sample(OK, 0.0, 1.0, 0.0, ENV.parser).event.finalOutcome == Str("ok")
  {
    assert W.FirstAttempts(OK.attempts.items)[0].Dict?;
    HasDict(W.FirstAttempts(OK.attempts.items), ENV.parser);
    InvalidIff(OK, 0.0, 1.0, 0.0, ENV.parser);
  }

  function Asks(n: nat): seq<Step>
  {
    if n == 0 then [] else [ASK] + Asks(n - 1)
  }

  /** Nothing but ok events: no counters, no windows. */
  ghost predicate OnlyEvents(w: World, n: nat)
  {
    && w.inflight.None? && |w.state.events| == n && w.state.current == [] && w.state.closed == []
    && (w.state.windowStart == None || w.state.windowStart == Some(0))
    && (forall i :: 0 <= i < n ==> IsOk(w.state.events[i])) && w.state.sampleRate == 1.0 && !w.state.disabled && !w.state.shut
    && w.state.pausedUntil == 0.0 && w.state.backoffUntil == 0.0
  }

  lemma AskOnce(w: World, n: nat)
    requires OnlyEvents(w, n) && n < MAX_EVENTS
    ensures OnlyEvents(Next(w, ASK, ENV), n + 1)
  {
    OkTaken();
    assert MinuteStart(0.0) == 0;
  }

  lemma StepFirst(w: World, step: Step, rest: seq<Step>, env: Env)
    requires Enabled(w, step) && Possible(Next(w, step, env), rest, env)
    ensures Possible(w, [step] + rest, env) && Exec(w, [step] + rest, env) == Exec(Next(w, step, env), rest, env)
  {
    assert ([step] + rest)[1..] == rest;
  }

  lemma {:induction false} AskTimes(w: World, k: nat, n: nat)
    requires OnlyEvents(w, k) && k + n <= MAX_EVENTS
    ensures Possible(w, Asks(n), ENV) && OnlyEvents(Exec(w, Asks(n), ENV), k + n)
    decreases n
  {
    if n > 0 {
      AskOnce(w, k);
      AskTimes(Next(w, ASK, ENV), k + 1, n - 1);
      StepFirst(w, ASK, Asks(n - 1), ENV);
    }
  }

  lemma {:induction false} AskedOften(n: nat)
    ensures |Asks(n)| == n && forall step :: step in Asks(n) ==> step == ASK
  {
    if n > 0 {
      AskedOften(n - 1);
    }
  }

  /** A run of n sampled requests. */
  lemma Filled(n: nat) returns (asks: seq<Step>)
    requires n <= MAX_EVENTS
    ensures |asks| == n && (forall step :: step in asks ==> step == ASK) && Possible(START, asks, ENV)
    ensures ValidWorld(Exec(START, asks, ENV), ENV) && OnlyEvents(Exec(START, asks, ENV), n)
  {
    asks := Asks(n);
    AskedOften(n);
    AskTimes(START, 0, n);
    InitialValid(1.0, 30.0, ENV);
    RunKeeps(START, asks, ENV);
  }

  lemma NothingToClose(w: World, n: nat)
    requires OnlyEvents(w, n)
    ensures CloseAll(w.state, 0.0, ENV) == w.state.(windowStart := Some(0))
  {
    assert MinuteStart(0.0) == 0;
  }

  lemma FitsWhole(f: Inflight)
    requires |f.batch.events| == |f.eventRefs| && |f.batch.counters| == |f.counterRefs|
    ensures Trim(f, ENV) == Some(f)
  {
    assert ENV.batchBytes(f.batch) == 0;
  }

  /** Picking from a full buffer takes the hundred oldest events and leaves the buffer as it is. */
  lemma PicksOldest(s: State)
    requires AllSendable(s.events, ENV.parser) && |s.events| == MAX_EVENTS
    ensures var (next, f) := Pick(s, 0.0, 0, ENV);
      f.Some? && f.value.eventRefs == s.events[..MAX_BATCH_EVENTS] && next == s.(seqNo := s.seqNo + 1)
  {
    ScanSendable(s.events, 0.0, MAX_BATCH_EVENTS, ENV.parser);
    assert DropUnsendable(s, 0.0, ENV.parser) == s;
    FitsWhole(Draft(s, 0.0, 0, ENV));
  }

  lemma PickOldest(w: World)
    requires ValidWorld(w, ENV) && OnlyEvents(w, MAX_EVENTS)
    ensures var next := Next(w, PICK, ENV);
      && next.inflight.Some? && next.inflight.value.eventRefs == w.state.events[..MAX_BATCH_EVENTS]
      && next.state == w.state.(windowStart := Some(0), seqNo := w.state.seqNo + 1)
  {
    NothingToClose(w, MAX_EVENTS);
    PicksOldest(w.state.(windowStart := Some(0)));
  }

  lemma OldestThere(s: State, f: Inflight)
    requires |s.events| == MAX_EVENTS && f.eventRefs == s.events[..MAX_BATCH_EVENTS]
    ensures AllThere(s, f) && |f.eventRefs| == MAX_BATCH_EVENTS
    ensures forall i :: 0 <= i < MAX_BATCH_EVENTS ==> s.events[i].id in Ids(f.eventRefs)
  {
    forall i | 0 <= i < MAX_BATCH_EVENTS ensures s.events[i].id in Ids(f.eventRefs) {
      assert f.eventRefs[i] in f.eventRefs;
    }
  }

  lemma FromFull(full: World)
    requires ValidWorld(full, ENV) && OnlyEvents(full, MAX_EVENTS)
    ensures Next(full, PICK, ENV).inflight.Some?
    ensures var picked := Next(full, PICK, ENV);
      && StepFlow(picked, ASK, ENV, OfEvents) == STILL.(taken := 1, discarded := 1)
      && StepFlow(Next(picked, ASK, ENV), ANSWER, ENV, OfEvents) == STILL.(delivered := MAX_BATCH_EVENTS, twice := 1)
  {
    var picked := Next(full, PICK, ENV);
    PickOldest(full);
    NextKeeps(full, PICK, ENV);
    OldestThere(picked.state, picked.inflight.value);
    OkTaken();
    assert IsOk(picked.state.events[0]);
    assert EvictionIndex(picked.state.events) == 0;
    EvictedThenDelivered(picked, ASK, Scenario.ACCEPTED, 0.0, ENV);
  }

  /**
    A thousand sampled requests fill the buffer, a selection takes the hundred oldest, one more request evicts the oldest
    of all, and the 202 acknowledges all hundred: that event is counted as discarded and as delivered.
   */
  lemma EvictedInFlight() returns (asks: seq<Step>)
    ensures |asks| == MAX_EVENTS && forall step :: step in asks ==> step == ASK
    ensures Possible(START, asks, ENV) && Enabled(Exec(START, asks, ENV), PICK)
    ensures var picked := Next(Exec(START, asks, ENV), PICK, ENV);
      && picked.inflight.Some?
      && StepFlow(picked, ASK, ENV, OfEvents) == STILL.(taken := 1, discarded := 1)
      && StepFlow(Next(picked, ASK, ENV), ANSWER, ENV, OfEvents) == STILL.(delivered := MAX_BATCH_EVENTS, twice := 1)
  {
    asks := Filled(MAX_EVENTS);
    FromFull(Exec(START, asks, ENV));
  }
}
