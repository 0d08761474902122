/** What one step moves between the ledgers: counters, events and drops, and how far the byte counter drifts. */
module Ledgers {
  import opened Values
  import opened Counters
  import opened Store
  import opened StoreLaws
  import opened Runs

  // ----- removing a batch -----

  /** The byte counter's drift from the sum of the queued sizes; zero unless a window was pruned while in flight. */
  function Drift(s: State): int
  {
    s.retained - Total(s.closed, s.windows, Bytes)
  }

  /** The window half of a removal, before emptied windows leave the queue. */
  function Shrunk(s: State, f: Inflight, env: Env): State
  {
    ResizeAll(s.(windows := DeleteRows(s.windows, f.counterRefs)), Changed(s.windows, f.counterRefs, []), env)
  }

  /** The bytes an answer subtracts from the retained counter on account of windows pruned while in flight. */
  function StrayBytes(s: State, f: Inflight, env: Env): int
  {
    StrayShrink(s.(windows := DeleteRows(s.windows, f.counterRefs)), Changed(s.windows, f.counterRefs, []), env)
  }

  lemma {:induction false} DeleteRowsShape(ws: map<nat, Window>, refs: seq<Ref>)
    ensures var ws' := DeleteRows(ws, refs);
      ws'.Keys == ws.Keys && forall id :: id in ws ==> ws'[id] == ws[id].(rows := ws'[id].rows)
    decreases |refs|
  {
    if refs != [] {
      DeleteRowsShape(DeleteRow(ws, refs[0]), refs[1..]);
    }
  }

  lemma DeleteRowsWeighs(closed: seq<nat>, ws: map<nat, Window>, refs: seq<Ref>)
    ensures Total(closed, DeleteRows(ws, refs), Bytes) == Total(closed, ws, Bytes)
  {
    DeleteRowsShape(ws, refs);
    TotalFrame(closed, ws, DeleteRows(ws, refs), Bytes);
  }

  /** Rows and starts after a removal, and the exact byte equation. */
  lemma ShrunkLaws(s: State, f: Inflight, env: Env, c: Cell)
    requires ValidQueue(s.closed, s.windows, s.nextId, env) && Distinct(f.counterRefs)
    ensures var t := Shrunk(s, f, env);
      && t == s.(windows := t.windows, retained := t.retained)
      && t.windows.Keys == s.windows.Keys
      && Keyed(t.windows) && Sized(t.windows, env)
      && (forall id :: id in s.windows ==> t.windows[id].start == s.windows[id].start)
      && Total(s.closed, t.windows, Cells(c)) + RefSum(f.counterRefs, s.windows, c)
         == Total(s.closed, s.windows, Cells(c)) + RefSum(Stray(f.counterRefs, s.closed), s.windows, c)
      && t.retained - Total(s.closed, t.windows, Bytes)
         == s.retained - Total(s.closed, s.windows, Bytes) - StrayBytes(s, f, env)
  {
    var deleted := s.(windows := DeleteRows(s.windows, f.counterRefs));
    var changed := Changed(s.windows, f.counterRefs, []);
    DeleteRowsTotal(s.closed, s.windows, f.counterRefs, c);
    DeleteRowsShape(s.windows, f.counterRefs);
    DeleteRowsWeighs(s.closed, s.windows, f.counterRefs);
    ChangedCovers(s.windows, f.counterRefs, [], env);
    ResizeAllLaws(deleted, changed, env);
    TotalFrame(s.closed, deleted.windows, Shrunk(s, f, env).windows, Cells(c));
  }

  lemma RemoveLaws(s: State, f: Inflight, env: Env, c: Cell)
    requires ValidQueue(s.closed, s.windows, s.nextId, env) && Distinct(f.counterRefs)
    ensures var t := Remove(s, f, env);
      && t == s.(events := t.events, eventBytes := t.eventBytes, closed := t.closed,
                 windows := t.windows, retained := t.retained)
      && t.events == Without(s.events, Ids(f.eventRefs)) && t.eventBytes == EventBytes(t.events)
      && ValidQueue(t.closed, t.windows, t.nextId, env)
      && Total(t.closed, t.windows, Cells(c)) + RefSum(f.counterRefs, s.windows, c)
         == Total(s.closed, s.windows, Cells(c)) + RefSum(Stray(f.counterRefs, s.closed), s.windows, c)
      && Drift(t) == Drift(s) - StrayBytes(s, f, env)
  {
    var e := RemoveEvents(s, f.eventRefs);
    assert Shrunk(e, f, env) == Shrunk(s, f, env).(events := e.events, eventBytes := e.eventBytes) by {
      ResizeIgnoresEvents(s.(windows := DeleteRows(s.windows, f.counterRefs)),
                          Changed(s.windows, f.counterRefs, []), e.events, e.eventBytes, env);
    }
    var t := Shrunk(s, f, env);
    ShrunkLaws(s, f, env, c);
    NonEmptyMembers(s.closed, t.windows);
    NonEmptyTotal(s.closed, t.windows, Cells(c), env);
    NonEmptyTotal(s.closed, t.windows, Bytes, env);
    var kept := NonEmpty(s.closed, t.windows);
    forall i | 0 <= i < |kept| ensures kept[i] in t.windows && t.windows[kept[i]].rows != [] {
      assert kept[i] in kept;
    }
  }

  /** Row by row: each window keeps exactly the rows the batch does not name, in order, and emptied windows leave the queue. */
  lemma RemovedRows(s: State, f: Inflight, env: Env)
    requires ValidQueue(s.closed, s.windows, s.nextId, env) && Distinct(f.counterRefs)
    ensures var t := Remove(s, f, env);
      && t.windows.Keys == s.windows.Keys
      && (forall id :: id in s.windows ==>
            t.windows[id].rows == Surviving(s.windows[id].rows, id, f.counterRefs))
      && t.closed == NonEmpty(s.closed, t.windows)
    ensures forall other :: Hits(Remove(s, f, env).windows, other) <==> Hits(s.windows, other) && other !in f.counterRefs
    ensures forall other :: other !in f.counterRefs ==> RowAt(Remove(s, f, env).windows, other) == RowAt(s.windows, other)
  {
    RemovedWindows(s, f, env);
    var deleted, t := DeleteRows(s.windows, f.counterRefs), Remove(s, f, env);
    forall id | id in s.windows ensures t.windows[id].rows == Surviving(s.windows[id].rows, id, f.counterRefs) {
      DeleteRowsSurvivors(s.windows, f.counterRefs, id);
    }
    forall other: Ref
      ensures Hits(t.windows, other) <==> Hits(s.windows, other) && other !in f.counterRefs
      ensures other !in f.counterRefs ==> RowAt(t.windows, other) == RowAt(s.windows, other)
    {
      DeleteRowsFrame(s.windows, f.counterRefs, other);
      assert Hits(t.windows, other) <==> Hits(deleted, other);
      assert RowAt(t.windows, other) == RowAt(deleted, other);
    }
  }

  /** After the deletion a removal only re-measures windows and shortens the queue. */
  lemma RemovedWindows(s: State, f: Inflight, env: Env)
    requires ValidQueue(s.closed, s.windows, s.nextId, env)
    ensures var t := Remove(s, f, env);
      SameRows(DeleteRows(s.windows, f.counterRefs), t.windows) && t.windows.Keys == s.windows.Keys
      && t.closed == NonEmpty(s.closed, t.windows)
  {
    var e := RemoveEvents(s, f.eventRefs);
    var deleted := e.(windows := DeleteRows(s.windows, f.counterRefs));
    ChangedCovers(s.windows, f.counterRefs, [], env);
    ResizeAllLaws(deleted, Changed(s.windows, f.counterRefs, []), env);
  }

  lemma {:induction false} ResizeIgnoresEvents(s: State, ids: seq<nat>, events: seq<Buffered>, bytes: int, env: Env)
    ensures ResizeAll(s.(events := events, eventBytes := bytes), ids, env)
         == ResizeAll(s, ids, env).(events := events, eventBytes := bytes)
    decreases |ids|
  {
    if ids != [] {
      ResizeIgnoresEvents(if ids[0] in s.windows then Resize(s, ids[0], env) else s, ids[1..], events, bytes, env);
    }
  }

  lemma RemoveKeeps(s: State, f: Inflight, env: Env)
    requires Valid(s, env) && Distinct(f.counterRefs) && !s.disabled
    ensures Valid(Remove(s, f, env), env) && !Remove(s, f, env).disabled
  {
    RemoveLaws(s, f, env, Requests);
    WithoutKeeps(s.events, Ids(f.eventRefs));
    WithoutCounts(s.events, Ids(f.eventRefs));
    var kept := Without(s.events, Ids(f.eventRefs));
    forall i | 0 <= i < |kept| ensures kept[i] in s.events { assert kept[i] in kept; }
  }

  /** A policy only lowers the sampling rate, lengthens the flush interval and extends the pause. */
  lemma PolicyOnlySlows(s: State, p: Policy, now: real)
    requires ValidPacing(s)
    ensures var t := ApplyPolicy(s, p, now);
      && ValidPacing(t)
      && t == s.(sampleRate := t.sampleRate, flushSeconds := t.flushSeconds, pausedUntil := t.pausedUntil)
      && t.sampleRate <= s.sampleRate && t.flushSeconds >= s.flushSeconds && t.pausedUntil >= s.pausedUntil
  {
    if p.Policy? {
      PolicyIsMinMax(s, p, now);
    }
  }

  /** A policy, field by field: each setting is the smaller or larger of what it was and what the server offers. */
  lemma PolicyIsMinMax(s: State, p: Policy, now: real)
    requires ValidPacing(s) && p.Policy?
    ensures var t := ApplyPolicy(s, p, now);
      && t.sampleRate == (if p.sampleRate.Some? && p.sampleRate.value >= 0.0 then Min(s.sampleRate, p.sampleRate.value)
                          else s.sampleRate)
      && t.flushSeconds == (if p.flushSeconds.Some? then Min(BACKOFF_MAX, Max(s.flushSeconds, p.flushSeconds.value))
                            else s.flushSeconds)
      && t.pausedUntil == (if p.pauseSeconds.Some? && 0.0 <= p.pauseSeconds.value <= 86_400.0
                           then Max(s.pausedUntil, now + p.pauseSeconds.value) else s.pausedUntil)
  {
  }

  /** sixty seconds doubled n times, up to six hundred */
  function BackoffAfter(n: nat): real
  {
    if n == 0 then BACKOFF_MIN else Min(BACKOFF_MAX, 2.0 * BackoffAfter(n - 1))
  }

  /** The clock readings and Retry-After hints of failures with no success between them. */
  function Fail(s: State, failures: seq<(real, Option<real>)>): State
  {
    if failures == [] then s
    else SetBackoff(Fail(s, failures[..|failures| - 1]), failures[|failures| - 1].0, failures[|failures| - 1].1)
  }

  /**
    After n failures since the last success the next delay is sixty seconds doubled n times, up to six hundred, and
    no flush starts before the delay of the last failure, or the server's hint if that is longer, has passed.
   */
  lemma {:induction false} BackoffDoubles(s: State, failures: seq<(real, Option<real>)>)
    requires s.backoff == BACKOFF_MIN
    requires forall i :: 0 <= i < |failures| && failures[i].1.Some? ==> 0.0 <= failures[i].1.value <= BACKOFF_MAX
    ensures var t := Fail(s, failures);
      && t.backoff == BackoffAfter(|failures|)
      && (failures != [] ==>
            var (now, hint) := failures[|failures| - 1];
            t.backoffUntil == now + (if hint.Some? then Max(hint.value, BackoffAfter(|failures| - 1))
                                     else BackoffAfter(|failures| - 1)))
    decreases |failures|
  {
    BackoffRange(|failures|);
    if failures != [] {
      var earlier := failures[..|failures| - 1];
      BackoffDoubles(s, earlier);
      BackoffRange(|earlier|);
    }
  }

  lemma {:induction false} BackoffRange(n: nat)
    ensures BACKOFF_MIN <= BackoffAfter(n) <= BACKOFF_MAX
  {
    if n > 0 {
      BackoffRange(n - 1);
    }
  }

  lemma CreditKeeps(s: State, dropped: nat, p: Policy, now: real, env: Env)
    requires Valid(s, env) && !s.disabled
    ensures Valid(Credit(s, dropped, p, now), env)
    ensures var t := Credit(s, dropped, p, now);
      t == s.(dropped := t.dropped, backoff := t.backoff, backoffUntil := t.backoffUntil,
              sampleRate := t.sampleRate, flushSeconds := t.flushSeconds, pausedUntil := t.pausedUntil)
  {
    var pending := if s.dropped >= dropped then s.dropped - dropped else 0;
    var rested := s.(dropped := pending, backoff := BACKOFF_MIN, backoffUntil := 0.0);
    PolicyFrame(rested, p, now);
    PolicyOnlySlows(rested, p, now);
    PacingKeeps(s, Credit(s, dropped, p, now), env);
  }

  lemma PolicyFrame(s: State, p: Policy, now: real)
    ensures var t := ApplyPolicy(s, p, now);
      t == s.(sampleRate := t.sampleRate, flushSeconds := t.flushSeconds, pausedUntil := t.pausedUntil)
  {
  }

  lemma PacingKeeps(s: State, t: State, env: Env)
    requires Valid(s, env) && !s.disabled && ValidPacing(t)
    requires t == s.(dropped := t.dropped, backoff := t.backoff, backoffUntil := t.backoffUntil,
                     sampleRate := t.sampleRate, flushSeconds := t.flushSeconds, pausedUntil := t.pausedUntil)
    ensures Valid(t, env)
  {
  }

  lemma DisableKeeps(s: State, env: Env)
    requires Valid(s, env)
    ensures Valid(Disable(s), env)
  {
  }

  lemma BackoffKeeps(s: State, now: real, retryAfter: Option<real>, env: Env)
    requires Valid(s, env) && !s.disabled
    ensures Valid(SetBackoff(s, now, retryAfter), env)
  {
  }

  lemma RespondKeeps(s: State, f: Inflight, r: Response, now: real, env: Env)
    requires Valid(s, env) && !s.disabled && Distinct(f.counterRefs)
    ensures Valid(Respond(s, f, r, now, env), env)
  {
    if Disables(r) {
      DisableKeeps(s, env);
    } else if Delivers(r) {
      RemoveKeeps(s, f, env);
      CreditKeeps(Remove(s, f, env), f.batch.dropped, r.policy, now, env);
    } else if Refuses(r) {
      RemoveKeeps(s, f, env);
    } else {
      BackoffKeeps(s, now, RetryAfter(r), env);
    }
  }

  /** Every reachable state is well-formed, and so is the batch in flight. */
  lemma NextKeeps(w: World, step: Step, env: Env)
    requires ValidWorld(w, env) && Enabled(w, step)
    ensures ValidWorld(Next(w, step, env), env)
  {
    match step {
      case Request(now, event, draw, counters) =>
        OnRequestKeeps(w.state, now, event, draw, counters, env);
        if w.inflight.Some? {
          FlightSurvives(w.state, Next(w, step, env).state, w.inflight.value, env);
        }
      case Selecting(now, sentAtMs) =>
        SelectKeeps(w.state, now, sentAtMs, env);
      case Responding(now, response) =>
        RespondKeeps(w.state, w.inflight.value, response, now, env);
      case _ =>
    }
  }

  // ----- ledgers -----

  /** What is being counted: one number of the counters, the telemetry events, or the drop counter itself. */
  datatype Ledger = OfCell(c: Cell) | OfEvents | OfDrops

  /** How much the reporter holds. */
  function Held(s: State, l: Ledger): nat
  {
    match l
    case OfCell(c) => Sum(s.current, c, None) + Total(s.closed, s.windows, Cells(c))
    case OfEvents => |s.events|
    case OfDrops => s.dropped
  }

  /**
    What one step moves. `taken` enters; `delivered` is what the rows and events of a batch answered 202 say;
    `discarded` is thrown away explicitly; `lost` is the excess a fold clamps off. `twice` is what an answered
    batch still carried although it had already been discarded while the batch was in flight. `clipped` is what
    the clamp on the wire cut off the delivered rows, and `invented` what its floor of one request added.
   */
  datatype Flow = Flow(
    taken: nat, delivered: nat, discarded: nat, lost: nat, twice: nat, clipped: nat, invented: nat)

  const STILL := Flow(0, 0, 0, 0, 0, 0, 0)

  function Plus(a: Flow, b: Flow): Flow
  {
    Flow(a.taken + b.taken, a.delivered + b.delivered, a.discarded + b.discarded, a.lost + b.lost,
         a.twice + b.twice, a.clipped + b.clipped, a.invented + b.invented)
  }

  /** What the batch itself says: its rows, its events, its drop count. */
  function Sent(f: Inflight, l: Ledger): nat
  {
    match l
    case OfCell(c) => WireSum(f.batch.counters, c)
    case OfEvents => |f.batch.events|
    case OfDrops => f.batch.dropped
  }

  /** How sending the batch misstated what its references hold. */
  function Distorted(s: State, f: Inflight, l: Ledger, over: bool): nat
  {
    if l.OfCell? then MisstatedSum(f.counterRefs, s.windows, l.c, over) else 0
  }

  /** What a batch carries, read from its references. */
  function Carried(s: State, f: Inflight, l: Ledger): nat
  {
    match l
    case OfCell(c) => RefSum(f.counterRefs, s.windows, c)
    case OfEvents => |f.eventRefs|
    case OfDrops => f.batch.dropped
  }

  /** The part of a batch that had left the reporter before the answer came: rows of pruned windows, evicted events. */
  function AlreadyGone(s: State, f: Inflight, l: Ledger): nat
  {
    match l
    case OfCell(c) => RefSum(Stray(f.counterRefs, s.closed), s.windows, c)
    case OfEvents => var there := |Among(s.events, Ids(f.eventRefs))|;
      if there <= |f.eventRefs| then |f.eventRefs| - there else 0
    case OfDrops => 0
  }

  function RequestFlow(s: State, now: real, event: W.RawEvent, draw: real, counters: seq<RawCounter>, env: Env, l: Ledger): Flow
  {
    var sample := Sample(event, now, s.sampleRate, draw, env.parser);
    var full := |s.events| >= MAX_EVENTS;
    match l
    case OfCell(c) =>
      STILL.(taken := Offered(counters, env.parser, c), discarded := RollPruned(s, now, env, Cells(c)),
             lost := LossOf(Roll(s, now, env).current, counters, env.parser, c))
    case OfEvents =>
      STILL.(taken := if sample.Take? then 1 else 0, discarded := if sample.Take? && full then 1 else 0)
    case OfDrops =>
      STILL.(taken := RollPruned(s, now, env, Rows) + Rejected(counters)
                      + (if sample.Invalid? || (sample.Take? && full) then 1 else 0))
  }

  function SelectFlow(s: State, now: real, env: Env, l: Ledger): Flow
  {
    var thrown := |Unsendable(CloseAll(s, now, env), now, env.parser)|;
    match l
    case OfCell(c) => STILL.(discarded := SelectPruned(s, now, env, Cells(c)))
    case OfEvents => STILL.(discarded := thrown)
    case OfDrops => STILL.(taken := SelectPruned(s, now, env, Rows) + thrown)
  }

  function RespondFlow(s: State, f: Inflight, r: Response, l: Ledger): Flow
  {
    if Disables(r) then STILL.(discarded := Held(s, l))
    else if Delivers(r) then
      STILL.(delivered := Sent(f, l), twice := AlreadyGone(s, f, l),
             clipped := Distorted(s, f, l, true), invented := Distorted(s, f, l, false))
    else if Refuses(r) then
      match l
      case OfDrops => STILL.(taken := |f.eventRefs| + |f.counterRefs|)
      case _ => STILL.(discarded := Carried(s, f, l), twice := AlreadyGone(s, f, l))
    else STILL
  }

  function StepFlow(w: World, step: Step, env: Env, l: Ledger): Flow
    requires Enabled(w, step)
  {
    match step
    case Request(now, event, draw, counters) =>
      if w.state.disabled || w.state.shut then STILL else RequestFlow(w.state, now, event, draw, counters, env, l)
    case Selecting(now, _) => SelectFlow(w.state, now, env, l)
    case Responding(_, response) => RespondFlow(w.state, w.inflight.value, response, l)
    case _ => STILL
  }

  ghost predicate Balances(before: nat, after: nat, f: Flow)
  {
    after + f.delivered + f.discarded + f.lost + f.clipped == before + f.taken + f.twice + f.invented
  }

  // ----- windows in the ledgers -----

  lemma EnqueueTotals(s: State, now: real, env: Env, m: Measure)
    requires ValidQueue(s.closed, s.windows, s.nextId, env) && Closes(s)
    ensures var e := Enqueue(s, now, env);
      Total(e.closed, e.windows, m) == Total(s.closed, s.windows, m) + Weigh(e.windows[s.nextId], m)
  {
    var e := Enqueue(s, now, env);
    TotalConcat(s.closed, [s.nextId], e.windows, m);
    TotalFrame(s.closed, s.windows, e.windows, m);
    assert Total([s.nextId], e.windows, m) == WeightOf(s.nextId, e.windows, m) + Total([], e.windows, m);
  }

  lemma PruneBalances(s: State, now: real, c: Cell)
    ensures var t := Prune(s, now);
      && Held(t, OfCell(c)) + Pruned(s, now, Cells(c)) == Held(s, OfCell(c))
      && t.dropped == s.dropped + Pruned(s, now, Rows)
      && t.events == s.events && t.eventBytes == s.eventBytes && t.sampleRate == s.sampleRate
      && Drift(t) == Drift(s)
  {
    PruneAccounts(s, now, Cells(c));
    PruneAccounts(s, now, Bytes);
  }

  lemma CloseBalances(s: State, now: real, env: Env, c: Cell)
    requires ValidQueue(s.closed, s.windows, s.nextId, env)
    ensures var t := Close(s, now, env);
      && Held(t, OfCell(c)) + ClosePruned(s, now, env, Cells(c)) == Held(s, OfCell(c))
      && t.dropped == s.dropped + ClosePruned(s, now, env, Rows)
      && t.events == s.events && t.eventBytes == s.eventBytes && t.sampleRate == s.sampleRate
      && Drift(t) == Drift(s)
  {
    if Closes(s) {
      var e := Enqueue(s, now, env);
      EnqueueTotals(s, now, env, Cells(c));
      EnqueueTotals(s, now, env, Bytes);
      PruneBalances(e, now, c);
    }
  }

  lemma RollBalances(s: State, now: real, env: Env, c: Cell)
    requires ValidQueue(s.closed, s.windows, s.nextId, env)
    ensures var t := Roll(s, now, env);
      && Held(t, OfCell(c)) + RollPruned(s, now, env, Cells(c)) == Held(s, OfCell(c))
      && t.dropped == s.dropped + RollPruned(s, now, env, Rows)
      && t.events == s.events && t.eventBytes == s.eventBytes && t.sampleRate == s.sampleRate
      && Drift(t) == Drift(s)
  {
    CloseBalances(s, now, env, c);
  }

  lemma CloseAllBalances(s: State, now: real, env: Env, c: Cell)
    requires Valid(s, env) && !s.disabled
    ensures var t := CloseAll(s, now, env);
      && Held(t, OfCell(c)) + SelectPruned(s, now, env, Cells(c)) == Held(s, OfCell(c))
      && t.dropped == s.dropped + SelectPruned(s, now, env, Rows)
      && t.events == s.events && t.eventBytes == s.eventBytes
      && Drift(t) == Drift(s)
  {
    RollBalances(s, now, env, c);
    RollKeeps(s, now, env);
    var rolled := Roll(s, now, env);
    CloseBalances(rolled, now, env, c);
    var t := Close(rolled, now, env);
    PruneBalances(t, now, c);
  }

  // ----- one step -----

  lemma AddSampleBalances(s: State, sample: Sampled, env: Env)
    ensures var t := AddSample(s, sample, env);
      var evicted := if sample.Take? && |s.events| >= MAX_EVENTS then 1 else 0;
      && |t.events| + evicted == |s.events| + (if sample.Take? then 1 else 0)
      && t.dropped == s.dropped + evicted + (if sample.Invalid? then 1 else 0)
      && t.current == s.current && t.closed == s.closed && t.windows == s.windows && t.retained == s.retained
  {
  }

  lemma RequestBalances(s: State, now: real, event: W.RawEvent, draw: real, counters: seq<RawCounter>, env: Env, l: Ledger)
    requires ValidQueue(s.closed, s.windows, s.nextId, env) && !s.disabled && !s.shut
    ensures Balances(Held(s, l), Held(OnRequest(s, now, event, draw, counters, env), l),
                     RequestFlow(s, now, event, draw, counters, env, l))
  {
    var c := if l.OfCell? then l.c else Requests;
    RollBalances(s, now, env, c);
    var rolled := Roll(s, now, env);
    MergeAllConserves(rolled.current, counters, env.parser, c);
    AddSampleBalances(MergeCounters(rolled, counters, env.parser),
                      Sample(event, now, s.sampleRate, draw, env.parser), env);
  }

  lemma SelectBalances(s: State, now: real, sentAtMs: int, env: Env, l: Ledger)
    requires Valid(s, env) && !s.disabled
    ensures Balances(Held(s, l), Held(Select(s, now, sentAtMs, env).0, l), SelectFlow(s, now, env, l))
  {
    var c := if l.OfCell? then l.c else Requests;
    CloseAllBalances(s, now, env, c);
    CloseAllKeeps(s, now, env);
    SelectKeeps(s, now, sentAtMs, env);
  }

  /** Removing a batch takes out what it carried, except what had already gone. */
  lemma RemoveBalances(s: State, f: Inflight, env: Env, l: Ledger)
    requires Valid(s, env) && ValidFlight(s, f, env) && !l.OfDrops?
    ensures Held(Remove(s, f, env), l) + Carried(s, f, l) == Held(s, l) + AlreadyGone(s, f, l)
  {
    var c := if l.OfCell? then l.c else Requests;
    RemoveLaws(s, f, env, c);
    WithoutCounts(s.events, Ids(f.eventRefs));
    AmongAtMost(s.events, f.eventRefs);
  }

  /** No more events are found by the ids of a batch than the batch has. */
  lemma AmongAtMost(events: seq<Buffered>, refs: seq<Buffered>)
    requires Identified(events) && Identified(refs)
    ensures |Among(events, Ids(refs))| <= |refs|
  {
    var found := Among(events, Ids(refs));
    AmongIds(events, Ids(refs));
    CountIds(refs);
    SubsetSize(Ids(found), Ids(refs));
    CountIds(found);
  }

  lemma {:induction false} AmongIds(events: seq<Buffered>, ids: set<nat>)
    requires Identified(events)
    ensures Ids(Among(events, ids)) <= ids && Identified(Among(events, ids))
    ensures forall b :: b in Among(events, ids) ==> b in events
  {
    if events != [] {
      AmongIds(events[1..], ids);
      var rest := Among(events[1..], ids);
      forall b | b in rest ensures events[0].id < b.id { assert b in events[1..]; }
      var all := Among(events, ids);
      forall b | b in all ensures b.id in ids { if b in rest { assert b.id in Ids(rest); } }
      forall i, j | 0 <= i < j < |all| ensures all[i].id < all[j].id {
        if |all| > |rest| && i == 0 { assert all[j] == rest[j - 1] && rest[j - 1] in rest; }
      }
    }
  }

  lemma {:induction false} CountIds(events: seq<Buffered>)
    requires Identified(events)
    ensures |Ids(events)| == |events|
  {
    if events != [] {
      CountIds(events[1..]);
      assert Ids(events) == {events[0].id} + Ids(events[1..]) by {
        assert events == [events[0]] + events[1..];
      }
      assert events[0].id !in Ids(events[1..]);
    }
  }

  lemma CreditBalances(s: State, dropped: nat, p: Policy, now: real)
    ensures var t := Credit(s, dropped, p, now);
      && t.dropped == (if s.dropped >= dropped then s.dropped - dropped else 0)
      && t.events == s.events && t.current == s.current && t.closed == s.closed
      && t.windows == s.windows && t.retained == s.retained
  {
    var pending := if s.dropped >= dropped then s.dropped - dropped else 0;
    PolicyFrame(s.(dropped := pending, backoff := BACKOFF_MIN, backoffUntil := 0.0), p, now);
  }

  /** What the batch says is what its references hold, up to the clamp and the floor of the wire. */
  lemma SentBalances(s: State, f: Inflight, env: Env, l: Ledger)
    requires ValidFlight(s, f, env)
    ensures Sent(f, l) + Distorted(s, f, l, true) == Carried(s, f, l) + Distorted(s, f, l, false)
  {
    if l.OfCell? {
      SentEquation(f.counterRefs, f.batch.counters, s.windows, l.c);
    }
  }

  lemma RespondBalances(s: State, f: Inflight, r: Response, now: real, env: Env, l: Ledger)
    requires Valid(s, env) && ValidFlight(s, f, env)
    ensures Balances(Held(s, l), Held(Respond(s, f, r, now, env), l), RespondFlow(s, f, r, l))
  {
    if Disables(r) {
    } else if Delivers(r) || Refuses(r) {
      RemoveLaws(s, f, env, Requests);
      if !l.OfDrops? {
        RemoveBalances(s, f, env, l);
      }
      CreditBalances(Remove(s, f, env), f.batch.dropped, r.policy, now);
      SentBalances(s, f, env, l);
    }
  }

  lemma StepBalances(w: World, step: Step, env: Env, l: Ledger)
    requires ValidWorld(w, env) && Enabled(w, step)
    ensures Balances(Held(w.state, l), Held(Next(w, step, env).state, l), StepFlow(w, step, env, l))
  {
    match step {
      case Request(now, event, draw, counters) =>
        if !w.state.disabled && !w.state.shut {
          RequestBalances(w.state, now, event, draw, counters, env, l);
        }
      case Selecting(now, sentAtMs) =>
        SelectBalances(w.state, now, sentAtMs, env, l);
      case Responding(now, response) =>
        RespondBalances(w.state, w.inflight.value, response, now, env, l);
      case _ =>
    }
  }
}
