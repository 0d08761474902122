/** The theorems about every run: conservation, exact drop accounting, the byte counter, window order and age. */
module Histories {
  import opened Values
  import opened Counters
  import opened Store
  import opened StoreLaws
  import opened Runs
  import opened Ledgers

  /** Steps that can be taken one after another from `w`. */
  predicate Possible(w: World, steps: seq<Step>, env: Env)
    decreases |steps|
  {
    steps == [] || (Enabled(w, steps[0]) && Possible(Next(w, steps[0], env), steps[1..], env))
  }

  function Exec(w: World, steps: seq<Step>, env: Env): World
    requires Possible(w, steps, env)
    decreases |steps|
  {
    if steps == [] then w else Exec(Next(w, steps[0], env), steps[1..], env)
  }

  /** Everything the run moves, step by step. */
  function RunFlow(w: World, steps: seq<Step>, env: Env, l: Ledger): Flow
    requires Possible(w, steps, env)
    decreases |steps|
  {
    if steps == [] then STILL
    else Plus(StepFlow(w, steps[0], env, l), RunFlow(Next(w, steps[0], env), steps[1..], env, l))
  }

  lemma InitialValid(sampleRate: real, flushSeconds: real, env: Env)
    requires 0.0 <= sampleRate <= 1.0 && 0.0 < flushSeconds <= BACKOFF_MAX
    ensures ValidWorld(Initial(sampleRate, flushSeconds), env)
  {
  }

  lemma {:induction false} RunKeeps(w: World, steps: seq<Step>, env: Env)
    requires ValidWorld(w, env) && Possible(w, steps, env)
    ensures ValidWorld(Exec(w, steps, env), env)
    decreases |steps|
  {
    if steps != [] {
      NextKeeps(w, steps[0], env);
      RunKeeps(Next(w, steps[0], env), steps[1..], env);
    }
  }

  /**
    Conservation, for counters, events and drops alike: whatever entered is still held, was sent in a batch answered
    202, was discarded or lost to a clamp; anything delivered or refused after it was already discarded shows up in
    `twice`, and what sending misstated in `clipped` and `invented`.
   */
  lemma {:induction false} RunBalances(w: World, steps: seq<Step>, env: Env, l: Ledger)
    requires ValidWorld(w, env) && Possible(w, steps, env)
    ensures Balances(Held(w.state, l), Held(Exec(w, steps, env).state, l), RunFlow(w, steps, env, l))
    decreases |steps|
  {
    if steps != [] {
      NextKeeps(w, steps[0], env);
      StepBalances(w, steps[0], env, l);
      RunBalances(Next(w, steps[0], env), steps[1..], env, l);
    }
  }

  /** The same from a fresh reporter: everything ever taken is accounted for. */
  lemma Conservation(sampleRate: real, flushSeconds: real, steps: seq<Step>, env: Env, l: Ledger)
    requires 0.0 <= sampleRate <= 1.0 && 0.0 < flushSeconds <= BACKOFF_MAX
    requires Possible(Initial(sampleRate, flushSeconds), steps, env)
    ensures var w := Initial(sampleRate, flushSeconds);
      var flow := RunFlow(w, steps, env, l);
      Held(Exec(w, steps, env).state, l) + flow.delivered + flow.discarded + flow.lost + flow.clipped
      == flow.taken + flow.twice + flow.invented
  {
    InitialValid(sampleRate, flushSeconds, env);
    RunBalances(Initial(sampleRate, flushSeconds), steps, env, l);
  }

  /** The drops acknowledged along a run: what each batch answered 202 reported. */
  function Acknowledged(w: World, steps: seq<Step>, env: Env): nat
    requires Possible(w, steps, env)
    decreases |steps|
  {
    if steps == [] then 0
    else
      (if steps[0].Responding? && Delivers(steps[0].response) then w.inflight.value.batch.dropped else 0)
      + Acknowledged(Next(w, steps[0], env), steps[1..], env)
  }

  /** The drops a disable wiped unreported. */
  function Wiped(w: World, steps: seq<Step>, env: Env): nat
    requires Possible(w, steps, env)
    decreases |steps|
  {
    if steps == [] then 0
    else
      (if steps[0].Responding? && Disables(steps[0].response) then w.state.dropped else 0)
      + Wiped(Next(w, steps[0], env), steps[1..], env)
  }

  /** All a run counts as dropped: pruned rows, rejected counters, invalid, evicted, unsendable events, refused batches. */
  function DropsCounted(w: World, steps: seq<Step>, env: Env): nat
    requires Possible(w, steps, env)
  {
    RunFlow(w, steps, env, OfDrops).taken
  }

  lemma StepDropFlow(w: World, step: Step, env: Env)
    requires Enabled(w, step)
    ensures StepFlow(w, step, env, OfDrops)
         == STILL.(taken := StepFlow(w, step, env, OfDrops).taken,
                   delivered := if step.Responding? && Delivers(step.response) then w.inflight.value.batch.dropped else 0,
                   discarded := if step.Responding? && Disables(step.response) then w.state.dropped else 0)
  {
  }

  lemma {:induction false} DropFlow(w: World, steps: seq<Step>, env: Env)
    requires Possible(w, steps, env)
    ensures RunFlow(w, steps, env, OfDrops)
         == STILL.(taken := DropsCounted(w, steps, env), delivered := Acknowledged(w, steps, env),
                   discarded := Wiped(w, steps, env))
    decreases |steps|
  {
    if steps != [] {
      StepDropFlow(w, steps[0], env);
      DropFlow(Next(w, steps[0], env), steps[1..], env);
    }
  }

  /**
    Drop accounting is exact on every run, drops that happen while a batch is in flight included: the drops counted
    since the start are the pending counter, the drops reported in batches answered 202, and what a disable wiped.
   */
  lemma DropsExact(w: World, steps: seq<Step>, env: Env)
    requires ValidWorld(w, env) && Possible(w, steps, env)
    ensures Exec(w, steps, env).state.dropped + Acknowledged(w, steps, env) + Wiped(w, steps, env)
         == w.state.dropped + DropsCounted(w, steps, env)
  {
    RunBalances(w, steps, env, OfDrops);
    DropFlow(w, steps, env);
  }

  /** The guard max(0, pending - reported) never bites: an acknowledged batch never reports more than is pending. */
  lemma GuardNeverBites(w: World, now: real, r: Response, env: Env)
    requires ValidWorld(w, env) && w.inflight.Some? && Delivers(r)
    ensures Next(w, Responding(now, r), env).state.dropped as int
         == w.state.dropped as int - w.inflight.value.batch.dropped as int
  {
    var f := w.inflight.value;
    RemoveLaws(w.state, f, env, Requests);
    CreditBalances(Remove(w.state, f, env), f.batch.dropped, r.policy, now);
  }

  // ----- runs that prune nothing in flight -----

  /** An answer that removes the batch arrives while every window of it is still queued. */
  predicate Intact(w: World, step: Step)
  {
    Removes(w, step) ==> Stray(w.inflight.value.counterRefs, w.state.closed) == []
  }

  /** The step takes the batch in flight out of the store. */
  predicate Removes(w: World, step: Step)
  {
    step.Responding? && w.inflight.Some? && (Delivers(step.response) || Refuses(step.response))
  }

  predicate AllIntact(w: World, steps: seq<Step>, env: Env)
    requires Possible(w, steps, env)
    decreases |steps|
  {
    steps == [] || (Intact(w, steps[0]) && AllIntact(Next(w, steps[0], env), steps[1..], env))
  }

  lemma {:induction false} StrayMembers(refs: seq<Ref>, closed: seq<nat>)
    ensures Stray(refs, closed) == [] <==> forall i :: 0 <= i < |refs| ==> refs[i].window in closed
  {
    if refs != [] {
      StrayMembers(refs[1..], closed);
      if forall i :: 0 <= i < |refs| ==> refs[i].window in closed {
        assert refs[0].window in closed;
        forall i | 0 <= i < |refs[1..]| ensures refs[1..][i].window in closed { assert refs[1..][i] == refs[i + 1]; }
      }
    }
  }

  lemma {:induction false} ChangedWithin(ws: map<nat, Window>, refs: seq<Ref>, sofar: seq<nat>, closed: seq<nat>)
    requires forall i :: 0 <= i < |refs| ==> refs[i].window in closed
    requires forall id :: id in sofar ==> id in closed
    ensures forall id :: id in Changed(ws, refs, sofar) ==> id in closed
    decreases |refs|
  {
    if refs != [] {
      var next := if Hits(ws, refs[0]) && refs[0].window !in sofar then sofar + [refs[0].window] else sofar;
      ChangedWithin(DeleteRow(ws, refs[0]), refs[1..], next, closed);
    }
  }

  lemma {:induction false} QueuedShrinkNothing(s: State, ids: seq<nat>, env: Env)
    requires forall id :: id in ids ==> id in s.closed
    ensures StrayShrink(s, ids, env) == 0
    decreases |ids|
  {
    if ids != [] {
      assert ids[0] in ids;
      QueuedShrinkNothing(if ids[0] in s.windows then Resize(s, ids[0], env) else s, ids[1..], env);
    }
  }

  /** How far one step pushes the byte counter away from the queue. */
  function DriftOf(w: World, step: Step, env: Env): int
  {
    if !step.Responding? || w.inflight.None? then 0
    else if Disables(step.response) then Drift(w.state)
    else if Delivers(step.response) || Refuses(step.response) then StrayBytes(w.state, w.inflight.value, env)
    else 0
  }

  lemma RequestDrifts(s: State, now: real, event: W.RawEvent, draw: real, counters: seq<RawCounter>, env: Env)
    requires ValidQueue(s.closed, s.windows, s.nextId, env)
    ensures Drift(OnRequest(s, now, event, draw, counters, env)) == Drift(s)
  {
    if !s.disabled && !s.shut {
      RollBalances(s, now, env, Requests);
      AddSampleBalances(MergeCounters(Roll(s, now, env), counters, env.parser),
                        Sample(event, now, s.sampleRate, draw, env.parser), env);
    }
  }

  lemma SelectDrifts(s: State, now: real, sentAtMs: int, env: Env)
    requires Valid(s, env) && !s.disabled
    ensures Drift(Select(s, now, sentAtMs, env).0) == Drift(s)
  {
    CloseAllBalances(s, now, env, Requests);
  }

  lemma RespondDrifts(s: State, f: Inflight, r: Response, now: real, env: Env)
    requires ValidQueue(s.closed, s.windows, s.nextId, env) && Distinct(f.counterRefs)
    ensures Drift(Respond(s, f, r, now, env))
         == if Disables(r) then 0
            else if Delivers(r) || Refuses(r) then Drift(s) - StrayBytes(s, f, env)
            else Drift(s)
  {
    RemoveLaws(s, f, env, Requests);
    CreditBalances(Remove(s, f, env), f.batch.dropped, r.policy, now);
  }

  /** The exact equation of the byte counter, for every step. */
  lemma StepDrifts(w: World, step: Step, env: Env)
    requires ValidWorld(w, env) && Enabled(w, step)
    ensures Drift(Next(w, step, env).state) == Drift(w.state) - DriftOf(w, step, env)
  {
    match step {
      case Request(now, event, draw, counters) => RequestDrifts(w.state, now, event, draw, counters, env);
      case Selecting(now, sentAtMs) => SelectDrifts(w.state, now, sentAtMs, env);
      case Responding(now, r) => RespondDrifts(w.state, w.inflight.value, r, now, env);
      case _ =>
    }
  }

  /** While no window is pruned in flight the byte counter is the sum of the queued sizes, in every reachable state. */
  lemma {:induction false} BytesExact(w: World, steps: seq<Step>, env: Env)
    requires ValidWorld(w, env) && Possible(w, steps, env) && AllIntact(w, steps, env)
    requires Drift(w.state) == 0
    ensures Drift(Exec(w, steps, env).state) == 0
    decreases |steps|
  {
    if steps != [] {
      NextKeeps(w, steps[0], env);
      StepDrifts(w, steps[0], env);
      if Removes(w, steps[0]) {
        var f := w.inflight.value;
        StrayMembers(f.counterRefs, w.state.closed);
        ChangedWithin(w.state.windows, f.counterRefs, [], w.state.closed);
        QueuedShrinkNothing(w.state.(windows := DeleteRows(w.state.windows, f.counterRefs)),
                            Changed(w.state.windows, f.counterRefs, []), env);
      }
      BytesExact(Next(w, steps[0], env), steps[1..], env);
    }
  }

  // ----- window order and age -----

  /** Queued windows are sorted by start, and none starts after the open one. */
  ghost predicate Ordered(s: State)
  {
    && StartsSorted(s.closed, s.windows)
    && (s.windowStart.None? ==> s.closed == [])
    && (s.windowStart.Some? ==> forall i :: 0 <= i < |s.closed| && s.closed[i] in s.windows ==>
          s.windows[s.closed[i]].start <= s.windowStart.value)
  }

  /** A selection closes a table at a clock reading before the table's own minute, and so sets the open minute back. */
  predicate SetsBack(w: World, step: Step)
  {
    && step.Selecting? && Closes(w.state) && MinuteStart(step.now) < w.state.windowStart.value
  }

  predicate NoneSetsBack(w: World, steps: seq<Step>, env: Env)
    requires Possible(w, steps, env)
    decreases |steps|
  {
    steps == [] || (!SetsBack(w, steps[0]) && NoneSetsBack(Next(w, steps[0], env), steps[1..], env))
  }

  lemma MinuteStartMonotone(a: real, b: real)
    requires a <= b
    ensures MinuteStart(a) <= MinuteStart(b)
  {
    assert Max(0.0, a) / 60.0 <= Max(0.0, b) / 60.0;
  }

  lemma PruneOrdered(s: State, now: real)
    requires Ordered(s)
    ensures Ordered(Prune(s, now))
  {
    PruneAccounts(s, now, Bytes);
  }

  lemma EnqueueOrdered(s: State, now: real, env: Env)
    requires Ordered(s) && Closes(s) && ValidQueue(s.closed, s.windows, s.nextId, env)
    ensures StartsSorted(Enqueue(s, now, env).closed, Enqueue(s, now, env).windows)
    ensures s.windowStart.value <= MinuteStart(now) ==> Ordered(Enqueue(s, now, env))
  {
    assert forall i :: 0 <= i < |s.closed| ==> s.closed[i] in s.windows && s.closed[i] < s.nextId;
  }

  lemma CloseOrdered(s: State, now: real, env: Env)
    requires Ordered(s) && ValidQueue(s.closed, s.windows, s.nextId, env)
    ensures StartsSorted(Close(s, now, env).closed, Close(s, now, env).windows)
    ensures (Closes(s) ==> s.windowStart.value <= MinuteStart(now)) ==> Ordered(Close(s, now, env))
  {
    if Closes(s) {
      var e := Enqueue(s, now, env);
      EnqueueOrdered(s, now, env);
      PruneAccounts(e, now, Bytes);
      if s.windowStart.value <= MinuteStart(now) {
        PruneOrdered(e, now);
      }
    }
  }

  /** Rolling only ever moves the open minute forward. */
  lemma RollOrdered(s: State, now: real, env: Env)
    requires Ordered(s) && ValidQueue(s.closed, s.windows, s.nextId, env)
    ensures Ordered(Roll(s, now, env))
  {
    CloseOrdered(s, now, env);
  }

  lemma RemoveOrdered(s: State, f: Inflight, env: Env)
    requires Ordered(s) && Valid(s, env) && Distinct(f.counterRefs)
    ensures Ordered(Remove(s, f, env))
  {
    ShrunkLaws(s, f, env, Requests);
    var t := Shrunk(s, f, env);
    ResizeIgnoresEvents(s.(windows := DeleteRows(s.windows, f.counterRefs)), Changed(s.windows, f.counterRefs, []),
                        RemoveEvents(s, f.eventRefs).events, RemoveEvents(s, f.eventRefs).eventBytes, env);
    assert Remove(s, f, env).closed == NonEmpty(s.closed, t.windows);
    NonEmptySorted(s.closed, t.windows);
    var kept := NonEmpty(s.closed, t.windows);
    forall i | 0 <= i < |kept| ensures kept[i] in s.closed { assert kept[i] in kept; }
  }

  lemma AddSampleKeepsWindow(s: State, sample: Sampled, env: Env)
    ensures var t := AddSample(s, sample, env);
      t.windowStart == s.windowStart && t.closed == s.closed && t.windows == s.windows && t.retained == s.retained
  {
  }

  lemma CreditKeepsWindow(s: State, dropped: nat, p: Policy, now: real)
    ensures var t := Credit(s, dropped, p, now);
      t.windowStart == s.windowStart && t.closed == s.closed && t.windows == s.windows
  {
  }

  lemma PickKeepsWindow(t: State, now: real, sentAtMs: int, env: Env)
    ensures var u := Pick(t, now, sentAtMs, env).0;
      u.windowStart == t.windowStart && u.closed == t.closed && u.windows == t.windows && u.retained == t.retained
  {
  }

  lemma RequestOrdered(s: State, now: real, event: W.RawEvent, draw: real, counters: seq<RawCounter>, env: Env)
    requires ValidQueue(s.closed, s.windows, s.nextId, env) && Ordered(s)
    ensures Ordered(OnRequest(s, now, event, draw, counters, env))
  {
    if !s.disabled && !s.shut {
      RollOrdered(s, now, env);
      AddSampleKeepsWindow(MergeCounters(Roll(s, now, env), counters, env.parser),
                           Sample(event, now, s.sampleRate, draw, env.parser), env);
    }
  }

  /** Closing everything for a selection prunes last, from a sorted queue. */
  lemma CloseAllOrdered(s: State, now: real, env: Env)
    requires Valid(s, env) && !s.disabled && Ordered(s)
    ensures var t := Close(Roll(s, now, env), now, env);
      StartsSorted(t.closed, t.windows) && Valid(t, env)
    ensures !(Closes(s) && MinuteStart(now) < s.windowStart.value) ==> Ordered(CloseAll(s, now, env))
  {
    RollOrdered(s, now, env);
    RollKeeps(s, now, env);
    CloseOrdered(Roll(s, now, env), now, env);
    CloseKeeps(Roll(s, now, env), now, env);
    if !(Closes(s) && MinuteStart(now) < s.windowStart.value) {
      PruneOrdered(Close(Roll(s, now, env), now, env), now);
    }
  }

  lemma SelectOrdered(s: State, now: real, sentAtMs: int, env: Env)
    requires Valid(s, env) && !s.disabled && Ordered(s) && !(Closes(s) && MinuteStart(now) < s.windowStart.value)
    ensures Ordered(Select(s, now, sentAtMs, env).0)
  {
    CloseAllOrdered(s, now, env);
    PickKeepsWindow(CloseAll(s, now, env), now, sentAtMs, env);
  }

  lemma RespondOrdered(s: State, f: Inflight, r: Response, now: real, env: Env)
    requires Valid(s, env) && Ordered(s) && Distinct(f.counterRefs)
    ensures Ordered(Respond(s, f, r, now, env))
  {
    if !Disables(r) && (Delivers(r) || Refuses(r)) {
      RemoveOrdered(s, f, env);
      CreditKeepsWindow(Remove(s, f, env), f.batch.dropped, r.policy, now);
    }
  }

  /** The queue after a prune is the end of what it was, so what was queued last is dropped last. */
  lemma PruneKeepsLast(s: State, now: real)
    ensures var kept := Prune(s, now).closed;
      kept != [] ==> s.closed != [] && kept[|kept| - 1] == s.closed[|s.closed| - 1] && Prune(s, now).windows == s.windows
  {
    PruneAccounts(s, now, Bytes);
  }

  /** The window queued last is of a later minute than the open one. */
  ghost predicate LastIsLater(s: State)
  {
    && s.closed != [] && s.windowStart.Some? && s.closed[|s.closed| - 1] in s.windows
    && s.windows[s.closed[|s.closed| - 1]].start > s.windowStart.value
  }

  lemma PrunedDisorder(s: State, now: real)
    requires LastIsLater(s)
    ensures Prune(s, now).closed == [] || (LastIsLater(Prune(s, now)) && !Ordered(Prune(s, now)))
  {
    PruneKeepsLast(s, now);
    PruneAccounts(s, now, Bytes);
  }

  /** A selection that sets the open minute back leaves behind it a window of a later minute, unless nothing stays queued. */
  lemma SetBackDisorders(s: State, now: real, sentAtMs: int, env: Env)
    requires Closes(s) && MinuteStart(now) < s.windowStart.value
    ensures Ordered(Select(s, now, sentAtMs, env).0) ==> Select(s, now, sentAtMs, env).0.closed == []
  {
    var e := Enqueue(s, now, env);
    PrunedDisorder(e, now);
    if Prune(e, now).closed != [] {
      PrunedDisorder(Prune(e, now), now);
    } else {
      PruneKeepsLast(Prune(e, now), now);
    }
    assert CloseAll(s, now, env) == Prune(Prune(e, now), now);
    PickKeepsWindow(CloseAll(s, now, env), now, sentAtMs, env);
  }

  /** Requests, answers and shutdowns never disorder the queue; a selection does exactly when it sets the open minute back. */
  lemma StepOrderedIff(w: World, step: Step, env: Env)
    requires ValidWorld(w, env) && Enabled(w, step) && Ordered(w.state)
    ensures Ordered(Next(w, step, env).state) <==> !SetsBack(w, step) || Next(w, step, env).state.closed == []
  {
    match step {
      case Request(now, event, draw, counters) => RequestOrdered(w.state, now, event, draw, counters, env);
      case Selecting(now, sentAtMs) =>
        if SetsBack(w, step) {
          SetBackDisorders(w.state, now, sentAtMs, env);
        } else {
          SelectOrdered(w.state, now, sentAtMs, env);
        }
      case Responding(now, r) => RespondOrdered(w.state, w.inflight.value, r, now, env);
      case _ =>
    }
  }

  /** While no selection sets the open minute back, the queue stays sorted by start, whatever order requests read the clock in. */
  lemma {:induction false} QueueSorted(w: World, steps: seq<Step>, env: Env)
    requires ValidWorld(w, env) && Possible(w, steps, env)
    requires Ordered(w.state) && NoneSetsBack(w, steps, env)
    ensures Ordered(Exec(w, steps, env).state)
    decreases |steps|
  {
    if steps != [] {
      NextKeeps(w, steps[0], env);
      StepOrderedIff(w, steps[0], env);
      QueueSorted(Next(w, steps[0], env), steps[1..], env);
    }
  }

  // ----- clock readings in lock order -----

  /** What the clock reads at a step that takes it into account. */
  function Reading(step: Step, last: real): real
  {
    if step.Request? || step.Selecting? then step.now else last
  }

  /** Readings of the clock do not decrease in lock order. */
  predicate Chronological(steps: seq<Step>, last: real)
  {
    steps == [] || (last <= Reading(steps[0], last) && Chronological(steps[1..], Reading(steps[0], last)))
  }

  function LastReading(steps: seq<Step>, last: real): real
  {
    if steps == [] then last
    else LastReading(steps[1..], Reading(steps[0], last))
  }

  /** The open minute has begun. */
  predicate Begun(s: State, last: real)
  {
    s.windowStart.Some? ==> s.windowStart.value <= MinuteStart(last)
  }

  lemma CreditBegun(s: State, f: Inflight, r: Response, now: real, env: Env)
    ensures Respond(s, f, r, now, env).windowStart == s.windowStart
  {
    if Delivers(r) {
      CreditKeepsWindow(Remove(s, f, env), f.batch.dropped, r.policy, now);
    }
    RemoveKeepsStart(s, f, env);
  }

  lemma RemoveKeepsStart(s: State, f: Inflight, env: Env)
    ensures Remove(s, f, env).windowStart == s.windowStart
  {
    var d := RemoveEvents(s, f.eventRefs).(windows := DeleteRows(s.windows, f.counterRefs));
    ResizeAllKeepsStart(d, Changed(s.windows, f.counterRefs, []), env);
  }

  lemma {:induction false} ResizeAllKeepsStart(s: State, ids: seq<nat>, env: Env)
    ensures ResizeAll(s, ids, env).windowStart == s.windowStart
    decreases |ids|
  {
    if ids != [] {
      ResizeAllKeepsStart(if ids[0] in s.windows then Resize(s, ids[0], env) else s, ids[1..], env);
    }
  }

  lemma StepBegun(w: World, step: Step, last: real, env: Env)
    requires Enabled(w, step) && Begun(w.state, last) && last <= Reading(step, last)
    ensures Begun(Next(w, step, env).state, Reading(step, last)) && !SetsBack(w, step)
  {
    MinuteStartMonotone(last, Reading(step, last));
    match step {
      case Request(now, event, draw, counters) =>
        if !w.state.disabled && !w.state.shut {
          AddSampleKeepsWindow(MergeCounters(Roll(w.state, now, env), counters, env.parser),
                               Sample(event, now, w.state.sampleRate, draw, env.parser), env);
        }
      case Selecting(now, sentAtMs) => PickKeepsWindow(CloseAll(w.state, now, env), now, sentAtMs, env);
      case Responding(now, r) => CreditBegun(w.state, w.inflight.value, r, now, env);
      case _ =>
    }
  }

  /** With clock readings in lock order no selection sets the open minute back, and no window starts in the future. */
  lemma {:induction false} ChronologicalRuns(w: World, steps: seq<Step>, last: real, env: Env)
    requires Possible(w, steps, env) && Begun(w.state, last) && Chronological(steps, last)
    ensures NoneSetsBack(w, steps, env) && Begun(Exec(w, steps, env).state, LastReading(steps, last))
    decreases |steps|
  {
    if steps != [] {
      StepBegun(w, steps[0], last, env);
      ChronologicalRuns(Next(w, steps[0], env), steps[1..], Reading(steps[0], last), env);
    }
  }

  // ----- retention -----

  /** The steps that end in a prune. */
  predicate Prunes(w: World, step: Step)
  {
    match step
    case Request(now, _, _, _) =>
      !w.state.disabled && !w.state.shut && Rolls(w.state, now) && Closes(w.state)
    case Selecting(_, _) => true
    case _ => false
  }

  /** At most 524,288 bytes, exactly those queued, sorted by start, none older than a day. */
  ghost predicate Retained(s: State, now: real)
  {
    && s.retained == Total(s.closed, s.windows, Bytes) <= RETENTION_BYTES
    && StartsSorted(s.closed, s.windows)
    && NoneAged(s.closed, s.windows, now)
  }

  lemma PruneRetains(s: State, now: real)
    requires Drift(s) == 0 && StartsSorted(s.closed, s.windows) && AllKnown(s.closed, s.windows)
    ensures Retained(Prune(s, now), now)
  {
    PruneBounds(s, now);
    PruneAges(s, now);
  }

  lemma RequestRetains(s: State, now: real, event: W.RawEvent, draw: real, counters: seq<RawCounter>, env: Env)
    requires Valid(s, env) && !s.disabled && !s.shut && Rolls(s, now) && Closes(s)
    requires Drift(s) == 0 && Ordered(s)
    ensures Retained(OnRequest(s, now, event, draw, counters, env), now)
  {
    EnqueueTotals(s, now, env, Bytes);
    EnqueueOrdered(s, now, env);
    EnqueueKeeps(s, now, env);
    PruneRetains(Enqueue(s, now, env), now);
    AddSampleKeepsWindow(MergeCounters(Roll(s, now, env), counters, env.parser),
                         Sample(event, now, s.sampleRate, draw, env.parser), env);
  }

  lemma SelectRetains(s: State, now: real, sentAtMs: int, env: Env)
    requires Valid(s, env) && !s.disabled && Drift(s) == 0 && Ordered(s)
    ensures Retained(Select(s, now, sentAtMs, env).0, now)
  {
    CloseAllOrdered(s, now, env);
    var t := Close(Roll(s, now, env), now, env);
    assert Drift(t) == 0 by {
      RollKeeps(s, now, env);
      RollBalances(s, now, env, Requests);
      CloseBalances(Roll(s, now, env), now, env, Requests);
    }
    assert AllKnown(t.closed, t.windows);
    PruneRetains(t, now);
    PruneAccounts(t, now, Bytes);
    PickKeepsWindow(CloseAll(s, now, env), now, sentAtMs, env);
  }

  /** Every pruning step restores the retention bounds, even a selection that sets the open minute back. */
  lemma RetentionHolds(w: World, step: Step, env: Env)
    requires ValidWorld(w, env) && Enabled(w, step) && Prunes(w, step)
    requires Drift(w.state) == 0 && Ordered(w.state)
    ensures Retained(Next(w, step, env).state, step.now)
  {
    match step {
      case Request(now, event, draw, counters) => RequestRetains(w.state, now, event, draw, counters, env);
      case Selecting(now, sentAtMs) => SelectRetains(w.state, now, sentAtMs, env);
    }
  }

  /**
    Retention over whole runs: from a fresh reporter, in any run in which no selection sets the open minute back and no
    answer removes rows of a window pruned in flight, every pruning step ends within the byte bound and the age bound.
   */
  lemma RetentionOverRuns(sampleRate: real, flushSeconds: real, steps: seq<Step>, step: Step, env: Env)
    requires 0.0 <= sampleRate <= 1.0 && 0.0 < flushSeconds <= BACKOFF_MAX
    requires var start := Initial(sampleRate, flushSeconds);
      && Possible(start, steps, env) && AllIntact(start, steps, env) && NoneSetsBack(start, steps, env)
      && Enabled(Exec(start, steps, env), step) && Prunes(Exec(start, steps, env), step)
    ensures Retained(Next(Exec(Initial(sampleRate, flushSeconds), steps, env), step, env).state, step.now)
  {
    var start := Initial(sampleRate, flushSeconds);
    InitialValid(sampleRate, flushSeconds, env);
    RunKeeps(start, steps, env);
    BytesExact(start, steps, env);
    QueueSorted(start, steps, env);
    RetentionHolds(Exec(start, steps, env), step, env);
  }

  // ----- waiting -----

  lemma ClosePaces(s: State, now: real, env: Env)
    ensures var s' := Close(s, now, env);
      s'.backoffUntil == s.backoffUntil && s'.pausedUntil == s.pausedUntil
  {
    if Closes(s) {
      PruneAccounts(Enqueue(s, now, env), now, Bytes);
    }
  }

  lemma RequestPaces(s: State, now: real, event: W.RawEvent, draw: real, counters: seq<RawCounter>, env: Env)
    ensures var s' := OnRequest(s, now, event, draw, counters, env);
      s'.backoffUntil == s.backoffUntil && s'.pausedUntil == s.pausedUntil
  {
    var rolled := Roll(s, now, env);
    RollPaces(s, now, env);
    SamplePaces(MergeCounters(rolled, counters, env.parser), Sample(event, now, s.sampleRate, draw, env.parser), env);
  }

  lemma RollPaces(s: State, now: real, env: Env)
    ensures var s' := Roll(s, now, env);
      s'.backoffUntil == s.backoffUntil && s'.pausedUntil == s.pausedUntil
  {
    ClosePaces(s, now, env);
  }

  lemma SamplePaces(s: State, sample: Sampled, env: Env)
    ensures var s' := AddSample(s, sample, env);
      s'.backoffUntil == s.backoffUntil && s'.pausedUntil == s.pausedUntil
  {
  }

  /** With no batch in flight, whatever requests come in, the next selection is not before the backoff and the pause are over. */
  lemma {:induction false} QuietUntil(w: World, steps: seq<Step>, env: Env, i: nat)
    requires Possible(w, steps, env) && w.inflight.None? && i < |steps| && steps[i].Selecting?
    requires forall k :: 0 <= k < i ==> !steps[k].Selecting?
    ensures steps[i].now >= w.state.backoffUntil && steps[i].now >= w.state.pausedUntil
    decreases i
  {
    if i > 0 {
      if steps[0].Request? {
        RequestPaces(w.state, steps[0].now, steps[0].event, steps[0].draw, steps[0].counters, env);
      }
      QuietUntil(Next(w, steps[0], env), steps[1..], env, i - 1);
    }
  }
}
