/** The reporter's state as a value, and what each critical section does to it. */
module Store {
  import opened Values
  import opened Counters

  const MAX_EVENTS := 1000
  const MAX_BATCH_EVENTS := 100
  const MAX_BATCH_COUNTERS := 200
  const MAX_BATCH_BYTES := 65_536
  const RETENTION_SECONDS := 86_400.0
  const RETENTION_BYTES := 524_288
  const BACKOFF_MIN := 60.0
  const BACKOFF_MAX := 600.0

  /** A buffered event; `id` is its object identity. */
  datatype Buffered = Buffered(id: nat, event: W.RawEvent, bytes: nat)

  /** A closed minute window. Windows are shared objects: the queue and the batch in flight hold ids into one heap. */
  datatype Window = Window(start: int, rows: Table, size: nat)

  /** A (window, key) pair held by the batch in flight. */
  datatype Ref = Ref(window: nat, key: Key)

  datatype CounterRow = CounterRow(ageMs: int, key: Key, row: Row)

  datatype Batch = Batch(seqNo: nat, sentAtMs: int, dropped: nat, events: seq<W.RawEvent>, counters: seq<CounterRow>)

  datatype Inflight = Inflight(batch: Batch, eventRefs: seq<Buffered>, counterRefs: seq<Ref>)

  /** JSON sizes and number parsing are left uninterpreted. */
  datatype Env = Env(
    parser: Parser, eventBytes: W.RawEvent -> nat, windowBytes: Table -> nat, batchBytes: Batch -> nat)

  datatype State = State(
    events: seq<Buffered>, eventBytes: int,
    windowStart: Option<int>, current: Table,
    closed: seq<nat>, windows: map<nat, Window>, retained: int,
    nextId: nat, dropped: nat, seqNo: nat,
    sampleRate: real, flushSeconds: real,
    backoff: real, backoffUntil: real, pausedUntil: real,
    disabled: bool, shut: bool)

  datatype Policy = NoPolicy | Policy(sampleRate: Option<real>, flushSeconds: Option<real>, pauseSeconds: Option<real>)

  /** What the control plane answers: `off` is the x-tr-telemetry kill switch, `retryAfter` the parsed header. */
  datatype Response = Response(status: int, off: bool, retryAfter: Option<Num>, policy: Policy)

  // ----- events -----

  predicate IsOk(b: Buffered)
  {
    b.event.finalOutcome == Str("ok")
  }

  /** The first ok event, or the oldest event when none is ok. */
  function EvictionIndex(events: seq<Buffered>): (n: nat)
    requires events != []
    ensures n < |events|
    ensures IsOk(events[n]) || (n == 0 && forall i :: 0 <= i < |events| ==> !IsOk(events[i]))
    ensures forall i :: 0 <= i < n ==> !IsOk(events[i])
  {
    if exists i :: 0 <= i < |events| && IsOk(events[i]) then FirstOk(events) else 0
  }

  function FirstOk(events: seq<Buffered>): (n: nat)
    requires exists i :: 0 <= i < |events| && IsOk(events[i])
    ensures n < |events| && IsOk(events[n])
    ensures forall i :: 0 <= i < n ==> !IsOk(events[i])
  {
    if IsOk(events[0]) then 0
    else
      assert exists i :: 0 <= i < |events[1..]| && IsOk(events[1..][i]) by {
        var i :| 0 <= i < |events| && IsOk(events[i]);
        assert events[1..][i - 1] == events[i];
      }
      1 + FirstOk(events[1..])
  }

  function EventBytes(events: seq<Buffered>): nat
  {
    if events == [] then 0 else events[0].bytes + EventBytes(events[1..])
  }

  /** _drop_buffered_event_locked */
  function DropEvent(s: State): State
    requires s.events != []
  {
    var n := EvictionIndex(s.events);
    s.(events := s.events[..n] + s.events[n + 1..],
       eventBytes := s.eventBytes - s.events[n].bytes,
       dropped := s.dropped + 1)
  }

  /** _append_event_locked */
  function AppendEvent(s: State, event: W.RawEvent, env: Env): State
  {
    var s := if |s.events| >= MAX_EVENTS then DropEvent(s) else s;
    var b := Buffered(s.nextId, event, env.eventBytes(event));
    s.(events := s.events + [b], eventBytes := s.eventBytes + b.bytes, nextId := s.nextId + 1)
  }

  datatype Sampled = NotSampled | Invalid | Take(event: W.RawEvent)

  /** _sample_reason; `draw` is the random draw in [0, 1). */
  function SampleReason(e: W.RawEvent, rate: real, draw: real, p: Parser): Option<(string, real)>
  {
    if e.finalOutcome != Str("ok") then Some(("failure", 1.0))
    else if (e.attempts.List? && |e.attempts.items| > 1) || Truthy(e.failoverUsed) then Some(("retried", 1.0))
    else if BoundedInt(e.totalMs, 0, W.MAX_DURATION_MS, p) > 30_000 then Some(("slow", 1.0))
    else if rate <= 0.0 || draw >= rate then None
    else Some(("random", rate))
  }

  /** What on_request makes of the event before it takes the lock. */
  function Sample(e: W.RawEvent, now: real, rate: real, draw: real, p: Parser): Sampled
  {
    match SampleReason(e, rate, draw, p)
    case None => NotSampled
    case Some((reason, r)) =>
      var candidate := e.(
        sampleReason := Str(reason), sampleRate := Float(Finite(r)), completedAt := Float(Finite(now)));
      match W.WireEvent(candidate, now, p)
      case None => Invalid
      case Some(w) => Take(w.(completedAt := Float(Finite(now))))
  }

  // ----- windows -----

  /** _minute_start */
  function MinuteStart(now: real): int
  {
    60 * (Max(0.0, now) / 60.0).Floor
  }

  /** What a window can be weighed by. */
  datatype Measure = Bytes | Rows | Cells(c: Cell)

  function Weigh(w: Window, m: Measure): nat
  {
    match m
    case Bytes => w.size
    case Rows => |w.rows|
    case Cells(c) => Sum(w.rows, c, None)
  }

  function WeightOf(id: nat, ws: map<nat, Window>, m: Measure): nat
  {
    if id in ws then Weigh(ws[id], m) else 0
  }

  function Total(ids: seq<nat>, ws: map<nat, Window>, m: Measure): nat
  {
    if ids == [] then 0 else WeightOf(ids[0], ws, m) + Total(ids[1..], ws, m)
  }

  /** How many windows at the front are past the retention age. */
  function AgedOut(closed: seq<nat>, ws: map<nat, Window>, now: real): (n: nat)
    ensures n <= |closed|
  {
    if closed == [] || closed[0] !in ws || now - ws[closed[0]].start as real <= RETENTION_SECONDS then 0
    else 1 + AgedOut(closed[1..], ws, now)
  }

  /** How many windows at the front must go before the byte bound holds. */
  function Overflowing(closed: seq<nat>, ws: map<nat, Window>, retained: int): (n: nat)
    ensures n <= |closed|
  {
    if closed == [] || retained <= RETENTION_BYTES then 0
    else 1 + Overflowing(closed[1..], ws, retained - WeightOf(closed[0], ws, Bytes))
  }

  function DropWindows(s: State, n: nat): State
    requires n <= |s.closed|
  {
    s.(closed := s.closed[n..],
       retained := s.retained - Total(s.closed[..n], s.windows, Bytes),
       dropped := s.dropped + Total(s.closed[..n], s.windows, Rows))
  }

  /** _prune_windows_locked */
  function Prune(s: State, now: real): State
  {
    var aged := DropWindows(s, AgedOut(s.closed, s.windows, now));
    DropWindows(aged, Overflowing(aged.closed, aged.windows, aged.retained))
  }

  /** What Prune(s, now) drops, by measure. */
  function Pruned(s: State, now: real, m: Measure): nat
  {
    var n := AgedOut(s.closed, s.windows, now);
    var aged := DropWindows(s, n);
    Total(s.closed[..n], s.windows, m)
    + Total(aged.closed[..Overflowing(aged.closed, aged.windows, aged.retained)], s.windows, m)
  }

  predicate Closes(s: State)
  {
    s.current != [] && s.windowStart.Some?
  }

  /** The open table queued as a closed window, before pruning. */
  function Enqueue(s: State, now: real, env: Env): State
    requires Closes(s)
  {
    var w := Window(s.windowStart.value, s.current, env.windowBytes(s.current));
    s.(closed := s.closed + [s.nextId], windows := s.windows[s.nextId := w], nextId := s.nextId + 1,
       retained := s.retained + w.size, current := [], windowStart := Some(MinuteStart(now)))
  }

  /** _close_current_window_locked */
  function Close(s: State, now: real, env: Env): State
  {
    if Closes(s) then Prune(Enqueue(s, now, env), now) else s
  }

  predicate Rolls(s: State, now: real)
  {
    s.windowStart.Some? && MinuteStart(now) > s.windowStart.value
  }

  /** _roll_window_locked */
  function Roll(s: State, now: real, env: Env): State
  {
    if s.windowStart.None? then s.(windowStart := Some(MinuteStart(now)))
    else if Rolls(s, now) then Close(s, now, env).(windowStart := Some(MinuteStart(now)))
    else s
  }

  function ClosePruned(s: State, now: real, env: Env, m: Measure): nat
  {
    if Closes(s) then Pruned(Enqueue(s, now, env), now, m) else 0
  }

  function RollPruned(s: State, now: real, env: Env, m: Measure): nat
  {
    if Rolls(s, now) then ClosePruned(s, now, env, m) else 0
  }

  // ----- on_request -----

  function MergeCounters(s: State, counters: seq<RawCounter>, p: Parser): State
  {
    s.(current := MergeAll(s.current, counters, p), dropped := s.dropped + Rejected(counters))
  }

  function AddSample(s: State, sample: Sampled, env: Env): State
  {
    match sample
    case NotSampled => s
    case Invalid => s.(dropped := s.dropped + 1)
    case Take(event) => AppendEvent(s, event, env)
  }

  function OnRequest(s: State, now: real, event: W.RawEvent, draw: real, counters: seq<RawCounter>, env: Env): State
  {
    if s.disabled || s.shut then s
    else
      AddSample(MergeCounters(Roll(s, now, env), counters, env.parser),
                Sample(event, now, s.sampleRate, draw, env.parser), env)
  }

  // ----- select -----

  /** The first `limit` sendable events, and the unsendable ones met on the way. */
  function Scan(events: seq<Buffered>, now: real, limit: nat, p: Parser): (seq<Buffered>, seq<Buffered>)
  {
    if events == [] || limit == 0 then ([], [])
    else if W.WireEvent(events[0].event, now, p).Some? then
      var (good, bad) := Scan(events[1..], now, limit - 1, p);
      ([events[0]] + good, bad)
    else
      var (good, bad) := Scan(events[1..], now, limit, p);
      (good, [events[0]] + bad)
  }

  function Ids(events: seq<Buffered>): set<nat>
  {
    set b | b in events :: b.id
  }

  function Without(events: seq<Buffered>, ids: set<nat>): seq<Buffered>
  {
    if events == [] then []
    else (if events[0].id in ids then [] else [events[0]]) + Without(events[1..], ids)
  }

  function RemoveEvents(s: State, gone: seq<Buffered>): State
  {
    var events := Without(s.events, Ids(gone));
    s.(events := events, eventBytes := EventBytes(events))
  }

  function WireEvents(refs: seq<Buffered>, now: real, p: Parser): (r: seq<W.RawEvent>)
    ensures |r| == |refs|
  {
    seq(|refs|, i requires 0 <= i < |refs| =>
      match W.WireEvent(refs[i].event, now, p) case Some(w) => w case None => refs[i].event)
  }

  function RowRefs(id: nat, rows: Table): (r: seq<Ref>)
    ensures |r| == |rows|
    ensures forall i :: 0 <= i < |r| ==> r[i] == Ref(id, rows[i].key)
  {
    seq(|rows|, i requires 0 <= i < |rows| => Ref(id, rows[i].key))
  }

  /** Every row of every closed window, in queue order. */
  function AllRefs(closed: seq<nat>, ws: map<nat, Window>): seq<Ref>
  {
    if closed == [] then []
    else (if closed[0] in ws then RowRefs(closed[0], ws[closed[0]].rows) else []) + AllRefs(closed[1..], ws)
  }

  function FirstRefs(refs: seq<Ref>): seq<Ref>
  {
    if |refs| <= MAX_BATCH_COUNTERS then refs else refs[..MAX_BATCH_COUNTERS]
  }

  /** The numbers of a row as they are sent: clamped once more, requests to at least one. */
  function Wired(r: Row): Row
  {
    r.(requests := Clamp(r.requests, 1, MAX_COUNT), attempts := Clamp(r.attempts, 0, MAX_COUNT),
       failoverUsed := Clamp(r.failoverUsed, 0, MAX_COUNT),
       firstAttemptSuccess := Clamp(r.firstAttemptSuccess, 0, MAX_COUNT))
  }

  /** _counter_row */
  function WireRow(k: Key, r: Row, ageMs: int): CounterRow
  {
    CounterRow(Clamp(ageMs, 0, W.MAX_AGE_MS), k, Wired(r))
  }

  function RowAt(ws: map<nat, Window>, ref: Ref): Row
  {
    if ref.window in ws && HasKey(ws[ref.window].rows, ref.key)
    then ws[ref.window].rows[IndexOf(ws[ref.window].rows, ref.key)].row else ZERO
  }

  function WindowAge(ws: map<nat, Window>, id: nat, now: real): int
  {
    if id in ws then Truncate((now - ws[id].start as real) * 1000.0) else 0
  }

  function WireRows(refs: seq<Ref>, ws: map<nat, Window>, now: real): (r: seq<CounterRow>)
    ensures |r| == |refs|
  {
    seq(|refs|, i requires 0 <= i < |refs| =>
      WireRow(refs[i].key, RowAt(ws, refs[i]), WindowAge(ws, refs[i].window, now)))
  }

  /** Pop events, then counters, until the batch fits; None when even the empty batch does not. */
  function Trim(f: Inflight, env: Env): Option<Inflight>
    requires |f.batch.events| == |f.eventRefs| && |f.batch.counters| == |f.counterRefs|
    decreases |f.eventRefs| + |f.counterRefs|
  {
    var b := f.batch;
    if env.batchBytes(b) <= MAX_BATCH_BYTES then Some(f)
    else if b.events != [] then
      Trim(f.(batch := b.(events := b.events[..|b.events| - 1]), eventRefs := f.eventRefs[..|b.events| - 1]), env)
    else if b.counters != [] then
      Trim(f.(batch := b.(counters := b.counters[..|b.counters| - 1]), counterRefs := f.counterRefs[..|b.counters| - 1]), env)
    else None
  }

  function CloseAll(s: State, now: real, env: Env): State
  {
    Prune(Close(Roll(s, now, env), now, env), now)
  }

  function SelectPruned(s: State, now: real, env: Env, m: Measure): nat
  {
    var rolled := Roll(s, now, env);
    RollPruned(s, now, env, m) + ClosePruned(rolled, now, env, m) + Pruned(Close(rolled, now, env), now, m)
  }

  /** The buffered events this selection throws out as unsendable. */
  function Unsendable(s: State, now: real, p: Parser): seq<Buffered>
  {
    Scan(s.events, now, MAX_BATCH_EVENTS, p).1
  }

  function DropUnsendable(s: State, now: real, p: Parser): State
  {
    var bad := Unsendable(s, now, p);
    if bad == [] then s else RemoveEvents(s, bad).(dropped := s.dropped + |bad|)
  }

  /** The batch before trimming, drawn from a state whose windows are already closed. */
  function Draft(s: State, now: real, sentAtMs: int, env: Env): (f: Inflight)
    ensures |f.batch.events| == |f.eventRefs| && |f.batch.counters| == |f.counterRefs|
  {
    var eventRefs := Scan(s.events, now, MAX_BATCH_EVENTS, env.parser).0;
    var counterRefs := FirstRefs(AllRefs(s.closed, s.windows));
    Inflight(
      Batch(s.seqNo, sentAtMs, DropUnsendable(s, now, env.parser).dropped,
            WireEvents(eventRefs, now, env.parser), WireRows(counterRefs, s.windows, now)),
      eventRefs, counterRefs)
  }

  /** A batch from a state whose windows are already closed. */
  function Pick(s: State, now: real, sentAtMs: int, env: Env): (State, Option<Inflight>)
  {
    var draft := Draft(s, now, sentAtMs, env);
    var kept := DropUnsendable(s, now, env.parser);
    if draft.eventRefs == [] && draft.counterRefs == [] then (kept, None)
    else (kept.(seqNo := kept.seqNo + 1), Trim(draft, env))
  }

  /** _select_batch_locked */
  function Select(s: State, now: real, sentAtMs: int, env: Env): (State, Option<Inflight>)
  {
    Pick(CloseAll(s, now, env), now, sentAtMs, env)
  }

  // ----- respond -----

  function DeleteKey(t: Table, k: Key): Table
  {
    var n := IndexOf(t, k);
    if n < |t| then t[..n] + t[n + 1..] else t
  }

  predicate Hits(ws: map<nat, Window>, ref: Ref)
  {
    ref.window in ws && HasKey(ws[ref.window].rows, ref.key)
  }

  function DeleteRow(ws: map<nat, Window>, ref: Ref): map<nat, Window>
  {
    if Hits(ws, ref) then ws[ref.window := ws[ref.window].(rows := DeleteKey(ws[ref.window].rows, ref.key))] else ws
  }

  function DeleteRows(ws: map<nat, Window>, refs: seq<Ref>): map<nat, Window>
    decreases |refs|
  {
    if refs == [] then ws else DeleteRows(DeleteRow(ws, refs[0]), refs[1..])
  }

  /** The windows rows were deleted from, in the order of their first deletion. */
  function Changed(ws: map<nat, Window>, refs: seq<Ref>, sofar: seq<nat>): seq<nat>
    decreases |refs|
  {
    if refs == [] then sofar
    else
      var next := if Hits(ws, refs[0]) && refs[0].window !in sofar then sofar + [refs[0].window] else sofar;
      Changed(DeleteRow(ws, refs[0]), refs[1..], next)
  }

  function SizeOf(rows: Table, env: Env): nat
  {
    if rows == [] then 0 else env.windowBytes(rows)
  }

  /** Re-measure one window: its old size leaves the retained total and its new size enters, queued or not. */
  function Resize(s: State, id: nat, env: Env): State
    requires id in s.windows
  {
    var w := s.windows[id];
    var size := SizeOf(w.rows, env);
    s.(windows := s.windows[id := w.(size := size)], retained := s.retained - w.size + size)
  }

  function ResizeAll(s: State, ids: seq<nat>, env: Env): State
    decreases |ids|
  {
    if ids == [] then s
    else if ids[0] in s.windows then ResizeAll(Resize(s, ids[0], env), ids[1..], env)
    else ResizeAll(s, ids[1..], env)
  }

  function NonEmpty(closed: seq<nat>, ws: map<nat, Window>): seq<nat>
  {
    if closed == [] then []
    else (if closed[0] in ws && ws[closed[0]].rows != [] then [closed[0]] else []) + NonEmpty(closed[1..], ws)
  }

  /** _remove_selected_locked */
  function Remove(s: State, f: Inflight, env: Env): State
  {
    var s := RemoveEvents(s, f.eventRefs);
    var changed := Changed(s.windows, f.counterRefs, []);
    var s := ResizeAll(s.(windows := DeleteRows(s.windows, f.counterRefs)), changed, env);
    s.(closed := NonEmpty(s.closed, s.windows))
  }

  /** _disable_locked */
  function Disable(s: State): State
  {
    s.(disabled := true, events := [], eventBytes := 0, current := [], closed := [], retained := 0, dropped := 0)
  }

  /** _retry_after */
  function RetryAfter(r: Response): Option<real>
  {
    match r.retryAfter
    case Some(Finite(x)) => if 0.0 <= x <= 600.0 then Some(x) else None
    case _ => None
  }

  /** _set_backoff_locked */
  function SetBackoff(s: State, now: real, retryAfter: Option<real>): State
  {
    var delay := if retryAfter.Some? then Max(s.backoff, retryAfter.value) else s.backoff;
    s.(backoffUntil := now + Min(BACKOFF_MAX, delay), backoff := Min(BACKOFF_MAX, Max(BACKOFF_MIN, s.backoff * 2.0)))
  }

  /** _apply_policy_locked */
  function ApplyPolicy(s: State, p: Policy, now: real): State
  {
    match p
    case NoPolicy => s
    case Policy(rate, flush, pause) =>
      var s := if rate.Some? && 0.0 <= rate.value < s.sampleRate then s.(sampleRate := rate.value) else s;
      var s := if flush.Some? && flush.value > s.flushSeconds then s.(flushSeconds := Min(BACKOFF_MAX, flush.value)) else s;
      if pause.Some? && 0.0 <= pause.value <= 86_400.0 then s.(pausedUntil := Max(s.pausedUntil, now + pause.value)) else s
  }

  /** What a 202 does once the batch is removed. */
  function Credit(s: State, dropped: nat, p: Policy, now: real): State
  {
    ApplyPolicy(s.(dropped := if s.dropped >= dropped then s.dropped - dropped else 0,
                   backoff := BACKOFF_MIN, backoffUntil := 0.0), p, now)
  }

  predicate Delivers(r: Response)
  {
    !r.off && r.status == 202
  }

  predicate Disables(r: Response)
  {
    r.off || r.status in {400, 401, 403, 404, 410}
  }

  predicate Refuses(r: Response)
  {
    !r.off && r.status == 413
  }

  /** _handle_response */
  function Respond(s: State, f: Inflight, r: Response, now: real, env: Env): State
  {
    if Disables(r) then Disable(s)
    else if Delivers(r) then Credit(Remove(s, f, env), f.batch.dropped, r.policy, now)
    else if Refuses(r) then
      var s := Remove(s, f, env);
      s.(dropped := s.dropped + |f.eventRefs| + |f.counterRefs|)
    else SetBackoff(s, now, RetryAfter(r))
  }
}
