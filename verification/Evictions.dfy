/** Events evicted while their batch is in flight: the exact count, when there are none, and the step that evicts one. */
module Evictions {
  import opened Values
  import opened Store
  import opened StoreLaws
  import opened Runs
  import opened Ledgers
  import opened Histories
  import opened Exactness

  // ----- how many are gone -----

  lemma {:induction false} AmongHas(events: seq<Buffered>, ids: set<nat>)
    ensures forall b :: b in events && b.id in ids ==> b in Among(events, ids)
  {
    if events != [] {
      AmongHas(events[1..], ids);
      forall b | b in events && b.id in ids ensures b in Among(events, ids) {
        if b != events[0] { assert b in events[1..]; }
      }
    }
  }

  lemma SplitSize(a: set<nat>, b: set<nat>)
    ensures |a| == |a * b| + |a - b|
  {
    assert a == a * b + (a - b);
  }

  /** The events of a batch that were already gone when its answer came are those whose id is no longer buffered. */
  lemma GoneEvents(s: State, f: Inflight)
    requires Identified(s.events) && Identified(f.eventRefs)
    ensures AlreadyGone(s, f, OfEvents) == |Ids(f.eventRefs) - Ids(s.events)|
  {
    var ids, found := Ids(f.eventRefs), Among(s.events, Ids(f.eventRefs));
    AmongIds(s.events, ids);
    AmongHas(s.events, ids);
    assert Ids(found) == ids * Ids(s.events);
    CountIds(found);
    CountIds(f.eventRefs);
    SplitSize(ids, Ids(s.events));
  }

  /** Every event of the batch is still buffered. */
  predicate AllThere(s: State, f: Inflight)
  {
    forall i :: 0 <= i < |f.eventRefs| ==> f.eventRefs[i].id in Ids(s.events)
  }

  lemma AllThereIff(s: State, f: Inflight)
    ensures AllThere(s, f) <==> Ids(f.eventRefs) - Ids(s.events) == {}
  {
    if AllThere(s, f) {
      forall b | b in f.eventRefs ensures b.id in Ids(s.events) {
        var i :| 0 <= i < |f.eventRefs| && f.eventRefs[i] == b;
      }
    } else {
      var i :| 0 <= i < |f.eventRefs| && f.eventRefs[i].id !in Ids(s.events);
      assert f.eventRefs[i].id in Ids(f.eventRefs) - Ids(s.events);
    }
  }

  // ----- steps and runs -----

  predicate EventsThere(w: World, step: Step)
  {
    Removes(w, step) ==> AllThere(w.state, w.inflight.value)
  }

  predicate AllEventsThere(w: World, steps: seq<Step>, env: Env)
    requires Possible(w, steps, env)
    decreases |steps|
  {
    steps == [] || (EventsThere(w, steps[0]) && AllEventsThere(Next(w, steps[0], env), steps[1..], env))
  }

  /**
    A step counts an event twice for each event its batch still carries although it was evicted in flight. There is none
    if and only if the step removes no batch or every event of the batch is still buffered.
   */
  lemma EventsTwiceFreeIff(w: World, step: Step, env: Env)
    requires ValidWorld(w, env) && Enabled(w, step)
    ensures StepFlow(w, step, env, OfEvents).twice
         == if Removes(w, step) then |Ids(w.inflight.value.eventRefs) - Ids(w.state.events)| else 0
    ensures StepFlow(w, step, env, OfEvents).twice == 0 <==> EventsThere(w, step)
  {
    if Removes(w, step) {
      GoneEvents(w.state, w.inflight.value);
      AllThereIff(w.state, w.inflight.value);
    }
  }

  /** A run counts no event twice if and only if no batch is removed after one of its events was evicted. */
  lemma {:induction false} RunEventsTwiceFreeIff(w: World, steps: seq<Step>, env: Env)
    requires ValidWorld(w, env) && Possible(w, steps, env)
    ensures RunFlow(w, steps, env, OfEvents).twice == 0 <==> AllEventsThere(w, steps, env)
    decreases |steps|
  {
    if steps != [] {
      EventsTwiceFreeIff(w, steps[0], env);
      NextKeeps(w, steps[0], env);
      RunEventsTwiceFreeIff(Next(w, steps[0], env), steps[1..], env);
    }
  }

  lemma EventTerms(w: World, step: Step, env: Env)
    requires Enabled(w, step)
    ensures var flow := StepFlow(w, step, env, OfEvents); flow.lost == 0 && flow.clipped == 0 && flow.invented == 0
  {
  }

  /** In the ledger of events only `twice` can differ from zero. */
  lemma {:induction false} EventFlow(w: World, steps: seq<Step>, env: Env)
    requires Possible(w, steps, env)
    ensures var flow := RunFlow(w, steps, env, OfEvents); flow.lost == 0 && flow.clipped == 0 && flow.invented == 0
    decreases |steps|
  {
    if steps != [] {
      EventTerms(w, steps[0], env);
      EventFlow(Next(w, steps[0], env), steps[1..], env);
    }
  }

  /**
    From a fresh reporter, each sampled event is exactly once among those buffered, delivered and discarded, if and only
    if no batch is removed after one of its events was evicted.
   */
  lemma EventsCountedOnceIff(sampleRate: real, flushSeconds: real, steps: seq<Step>, env: Env)
    requires 0.0 <= sampleRate <= 1.0 && 0.0 < flushSeconds <= BACKOFF_MAX
    requires Possible(Initial(sampleRate, flushSeconds), steps, env)
    ensures var start := Initial(sampleRate, flushSeconds);
      var flow := RunFlow(start, steps, env, OfEvents);
      |Exec(start, steps, env).state.events| + flow.delivered + flow.discarded == flow.taken
      <==> AllEventsThere(start, steps, env)
  {
    var start := Initial(sampleRate, flushSeconds);
    InitialValid(sampleRate, flushSeconds, env);
    Conservation(sampleRate, flushSeconds, steps, env, OfEvents);
    EventFlow(start, steps, env);
    RunEventsTwiceFreeIff(start, steps, env);
  }

  lemma CleanLedger(w: World, steps: seq<Step>, env: Env, l: Ledger)
    requires ValidWorld(w, env) && Possible(w, steps, env) && RunFaithful(w, steps, env) && AllEventsThere(w, steps, env)
    ensures Faithful(RunFlow(w, steps, env, l))
  {
    match l
    case OfCell(c) =>
    case OfEvents =>
      RunEventsTwiceFreeIff(w, steps, env);
      EventFlow(w, steps, env);
    case OfDrops => DropFlow(w, steps, env);
  }

  /** No correction term in any ledger. */
  ghost predicate LedgersFaithful(w: World, steps: seq<Step>, env: Env)
    requires Possible(w, steps, env)
  {
    forall l: Ledger :: Faithful(RunFlow(w, steps, env, l))
  }

  lemma LedgersSplit(w: World, steps: seq<Step>, env: Env)
    requires Possible(w, steps, env) && LedgersFaithful(w, steps, env)
    ensures RunFaithful(w, steps, env) && Faithful(RunFlow(w, steps, env, OfEvents))
  {
    forall c: Counters.Cell ensures Faithful(RunFlow(w, steps, env, OfCell(c))) {}
  }

  /** No ledger of a run needs a correction if and only if every step is clean for counters and evicts nothing in flight. */
  lemma RunExactIff(w: World, steps: seq<Step>, env: Env)
    requires ValidWorld(w, env) && Possible(w, steps, env)
    ensures LedgersFaithful(w, steps, env) <==> AllClean(w, steps, env) && AllEventsThere(w, steps, env)
  {
    RunFaithfulIff(w, steps, env);
    RunEventsTwiceFreeIff(w, steps, env);
    if LedgersFaithful(w, steps, env) {
      LedgersSplit(w, steps, env);
    } else if RunFaithful(w, steps, env) && AllEventsThere(w, steps, env) {
      forall l: Ledger { CleanLedger(w, steps, env, l); }
    }
  }

  // ----- the step that evicts -----

  /** The request is sampled. */
  predicate Samples(s: State, step: Step, env: Env)
  {
    && step.Request? && !s.disabled && !s.shut
    && Sample(step.event, step.now, s.sampleRate, step.draw, env.parser).Take?
  }

  /** The event this request pushes out of a full buffer belongs to the batch in flight. */
  predicate Evicts(w: World, step: Step, env: Env)
  {
    && Samples(w.state, step, env) && w.inflight.Some? && |w.state.events| >= MAX_EVENTS
    && w.state.events[EvictionIndex(w.state.events)].id in Ids(w.inflight.value.eventRefs)
  }

  lemma RolledEvents(s: State, now: real, env: Env)
    requires Valid(s, env) && !s.disabled
    ensures Roll(s, now, env).events == s.events && Roll(s, now, env).nextId >= s.nextId
  {
    RollBalances(s, now, env, Counters.Requests);
    RollKeeps(s, now, env);
  }

  /** The buffer after a request: a full one first loses the evicted event, and a sampled event is added. */
  lemma RequestEvents(w: World, step: Step, env: Env) returns (b: Buffered)
    requires ValidWorld(w, env) && step.Request?
    ensures b.id >= w.state.nextId
    ensures Next(w, step, env).state.events
         == if !Samples(w.state, step, env) then w.state.events
            else (if |w.state.events| >= MAX_EVENTS then DropEvent(w.state).events else w.state.events) + [b]
  {
    var s := w.state;
    b := Buffered(s.nextId, step.event, 0);
    if !s.disabled {
      RolledEvents(s, step.now, env);
      var sample := Sample(step.event, step.now, s.sampleRate, step.draw, env.parser);
      if sample.Take? {
        b := Buffered(Roll(s, step.now, env).nextId, sample.event, env.eventBytes(sample.event));
      }
    }
  }

  lemma WithoutOne(left: seq<Buffered>, gone: Buffered, right: seq<Buffered>)
    requires Identified(left + [gone] + right)
    ensures Ids(left + right) == Ids(left + [gone] + right) - {gone.id}
  {
    var all := left + [gone] + right;
    assert all[|left|] == gone;
    forall b | b in left ensures b.id < gone.id {
      var i :| 0 <= i < |left| && left[i] == b;
      assert all[i] == b;
    }
    forall b | b in right ensures b.id > gone.id {
      var i :| 0 <= i < |right| && right[i] == b;
      assert all[|left| + 1 + i] == b;
    }
    assert forall b :: b in all <==> b in left + right || b == gone;
  }

  /** The ids left after an eviction are all but the evicted one. */
  lemma DroppedIds(s: State)
    requires Identified(s.events) && s.events != []
    ensures Ids(DropEvent(s).events) == Ids(s.events) - {s.events[EvictionIndex(s.events)].id}
  {
    var n := EvictionIndex(s.events);
    SplitAt(s.events, n);
    WithoutOne(s.events[..n], s.events[n], s.events[n + 1..]);
  }

  /** Of a batch still buffered in full, a request takes exactly the event it evicts, if the batch has it. */
  lemma EvictsOne(w: World, step: Step, env: Env)
    requires ValidWorld(w, env) && step.Request? && w.inflight.Some? && AllThere(w.state, w.inflight.value)
    ensures Ids(w.inflight.value.eventRefs) - Ids(Next(w, step, env).state.events)
         == if Evicts(w, step, env) then {w.state.events[EvictionIndex(w.state.events)].id} else {}
  {
    var s, t, ids := w.state, Next(w, step, env).state, Ids(w.inflight.value.eventRefs);
    AllThereIff(s, w.inflight.value);
    var b := RequestEvents(w, step, env);
    if Samples(s, step, env) {
      var kept := if |s.events| >= MAX_EVENTS then DropEvent(s).events else s.events;
      assert Ids(t.events) == Ids(kept) + {b.id} by {
        assert forall e :: e in t.events <==> e in kept || e == b;
      }
      assert b.id !in Ids(s.events);
      if |s.events| >= MAX_EVENTS {
        DroppedIds(s);
      }
    }
  }

  lemma EvictionFlow(w: World, step: Step, env: Env)
    requires Evicts(w, step, env) && Enabled(w, step)
    ensures StepFlow(w, step, env, OfEvents) == STILL.(taken := 1, discarded := 1)
  {
  }

  lemma DeliveryFlow(w: World, r: Response, now: real, env: Env)
    requires ValidWorld(w, env) && w.inflight.Some? && Delivers(r)
    ensures StepFlow(w, Responding(now, r), env, OfEvents)
         == STILL.(delivered := |w.inflight.value.eventRefs|,
                   twice := |Ids(w.inflight.value.eventRefs) - Ids(w.state.events)|)
  {
    EventsTwiceFreeIff(w, Responding(now, r), env);
  }

  /**
    The failing case: a sampled request that finds the buffer full evicts an event of the batch in flight, and a 202 then
    counts it as delivered although it was already counted as discarded.
   */
  lemma EvictedThenDelivered(w: World, step: Step, r: Response, now: real, env: Env)
    requires ValidWorld(w, env) && Evicts(w, step, env) && AllThere(w.state, w.inflight.value) && Delivers(r)
    ensures StepFlow(w, step, env, OfEvents) == STILL.(taken := 1, discarded := 1)
    ensures StepFlow(Next(w, step, env), Responding(now, r), env, OfEvents)
         == STILL.(delivered := |w.inflight.value.eventRefs|, twice := 1)
  {
    var next := Next(w, step, env);
    EvictsOne(w, step, env);
    EvictionFlow(w, step, env);
    NextKeeps(w, step, env);
    DeliveryFlow(next, r, now, env);
  }
}
