/** TelemetryReporter as the source has it: fields updated in place by loops, each method proved against Store's functions. */
module Reporter {
  import opened Values
  import opened Counters
  import opened Store
  import opened StoreLaws
  import opened Runs
  import opened Ledgers

  /** deque.rotate(n): rotate right by n, left when n is negative. */
  function Rotate<T>(s: seq<T>, n: int): (r: seq<T>)
    ensures |r| == |s|
  {
    if s == [] then s else var k := (-n) % |s|; s[k..] + s[..k]
  }

  /** Rotating an index to the front, popping it and rotating back removes that one element and keeps the order of the others. */
  lemma RotatePopRotate<T>(s: seq<T>, n: int)
    requires 0 <= n < |s|
    ensures Rotate(s, -n)[0] == s[n]
    ensures Rotate(Rotate(s, -n)[1..], n) == s[..n] + s[n + 1..]
  {
    var rotated, popped := s[n..] + s[..n], s[n + 1..] + s[..n];
    NegativeMod(-n, |s|);
    assert Rotate(s, -n) == rotated;
    assert rotated[1..] == popped;
    if popped != [] {
      NegativeMod(n, |popped|);
    }
  }

  lemma NegativeMod(n: int, m: int)
    requires 0 < m && -m < n <= m
    ensures (-n) % m == if n <= 0 then -n else m - n
  {
    if n > 0 {
      var d := (-n) / m;
      assert -n == d * m + (-n) % m;
    }
  }

  class TelemetryReporter {
    const env: Env
    var events: seq<Buffered>
    var eventBytes: int
    var windowStart: Option<int>
    var current: Table
    var closed: seq<nat>
    var windows: map<nat, Window>
    var retained: int
    var nextId: nat
    var dropped: nat
    var seqNo: nat
    var sampleRate: real
    var flushSeconds: real
    var backoff: real
    var backoffUntil: real
    var pausedUntil: real
    var disabled: bool
    var shut: bool

    ghost function Now(): State
      reads this
    {
      State(events, eventBytes, windowStart, current, closed, windows, retained, nextId, dropped, seqNo,
            sampleRate, flushSeconds, backoff, backoffUntil, pausedUntil, disabled, shut)
    }

    constructor (env: Env, sampleRate: real, flushSeconds: real)
      requires 0.0 <= sampleRate <= 1.0 && 0.0 < flushSeconds <= BACKOFF_MAX
      ensures this.env == env
      ensures Now() == Initial(sampleRate, flushSeconds).state && Valid(Now(), env)
    {
      this.env := env;
      events, eventBytes := [], 0;
      windowStart, current, closed, windows, retained := None, [], [], map[], 0;
      nextId, dropped, seqNo := 0, 0, 0;
      this.sampleRate, this.flushSeconds := sampleRate, flushSeconds;
      backoff, backoffUntil, pausedUntil := BACKOFF_MIN, 0.0, 0.0;
      disabled, shut := false, false;
    }

    /** The search for the event to evict. */
    method FindEvicted() returns (index: nat)
      requires events != []
      ensures index == EvictionIndex(events)
    {
      index := 0;
      while index < |events| && !IsOk(events[index])
        invariant 0 <= index <= |events|
        invariant forall i :: 0 <= i < index ==> !IsOk(events[i])
      {
        index := index + 1;
      }
      if index == |events| {
        index := 0;
      }
    }

    /** Rotate an event to the front, pop it, rotate back. */
    method PopAt(index: int) returns (gone: Buffered)
      requires 0 <= index < |events|
      modifies `events
      ensures gone == old(events)[index] && events == old(events)[..index] + old(events)[index + 1..]
    {
      RotatePopRotate(events, index);
      events := Rotate(events, -index);
      gone := events[0];
      events := Rotate(events[1..], index);
    }

    /** _drop_buffered_event_locked */
    method DropBufferedEvent()
      requires events != []
      modifies `events, `eventBytes, `dropped
      ensures Now() == DropEvent(old(Now()))
    {
      var index := FindEvicted();
      var gone := PopAt(index);
      eventBytes := eventBytes - gone.bytes;
      dropped := dropped + 1;
    }

    /** _append_event_locked */
    method AppendBuffered(event: W.RawEvent)
      modifies `events, `eventBytes, `dropped, `nextId
      ensures Now() == AppendEvent(old(Now()), event, env)
    {
      ghost var s := Now();
      if |events| >= MAX_EVENTS {
        DropBufferedEvent();
      }
      assert Now() == if |s.events| >= MAX_EVENTS then DropEvent(s) else s;
      var b := Buffered(nextId, event, env.eventBytes(event));
      events := events + [b];
      eventBytes := eventBytes + b.bytes;
      nextId := nextId + 1;
    }

    /** Take the front window off the queue and count its rows as dropped. */
    method DropFrontWindow()
      requires closed != [] && closed[0] in windows
      modifies `closed, `retained, `dropped
      ensures Now() == DropFront(old(Now()))
    {
      var w := windows[closed[0]];
      closed := closed[1..];
      retained := retained - w.size;
      dropped := dropped + |w.rows|;
    }

    /** The first loop of _prune_windows_locked. */
    method PruneAged(now: real)
      requires AllKnown(closed, windows)
      modifies `closed, `retained, `dropped
      ensures Now() == DropWindows(old(Now()), AgedOut(old(closed), windows, now))
    {
      ghost var s := Now();
      ghost var n := 0;
      while closed != [] && now - windows[closed[0]].start as real > RETENTION_SECONDS
        invariant n <= |s.closed| && Now() == DropWindows(s, n)
        invariant AgedOut(s.closed, windows, now) == n + AgedOut(closed, windows, now)
        decreases |closed|
      {
        DropNext(s, n);
        DropFrontWindow();
        n := n + 1;
      }
    }

    /** The second loop of _prune_windows_locked. */
    method PruneOverflow()
      requires AllKnown(closed, windows)
      modifies `closed, `retained, `dropped
      ensures Now() == DropWindows(old(Now()), Overflowing(old(closed), windows, old(retained)))
    {
      ghost var s := Now();
      ghost var n, all := 0, Overflowing(closed, windows, retained);
      while closed != [] && retained > RETENTION_BYTES
        invariant n <= |s.closed| && Now() == DropWindows(s, n)
        invariant all == n + StillOver(DropWindows(s, n))
        decreases |closed|
      {
        DropNext(s, n);
        OverflowStep(DropWindows(s, n));
        DropFrontWindow();
        n := n + 1;
      }
    }

    /** _prune_windows_locked: by age, then by bytes, always from the front. */
    method PruneWindows(now: real)
      requires AllKnown(closed, windows)
      modifies `closed, `retained, `dropped
      ensures Now() == Prune(old(Now()), now)
    {
      PruneAged(now);
      PruneOverflow();
    }

    /** _close_current_window_locked */
    method CloseCurrentWindow(now: real)
      requires AllKnown(closed, windows) && (forall id :: id in windows ==> id < nextId)
      modifies `windows, `closed, `nextId, `retained, `dropped, `current, `windowStart
      ensures Now() == Close(old(Now()), now, env)
    {
      ghost var s := Now();
      if current == [] || windowStart.None? {
        return;
      }
      var w := Window(windowStart.value, current, env.windowBytes(current));
      windows := windows[nextId := w];
      closed := closed + [nextId];
      nextId := nextId + 1;
      retained := retained + w.size;
      current := [];
      windowStart := Some(MinuteStart(now));
      assert Now() == Enqueue(s, now, env);
      PruneWindows(now);
    }

    /** _roll_window_locked */
    method RollWindow(now: real)
      requires AllKnown(closed, windows) && (forall id :: id in windows ==> id < nextId)
      modifies this
      ensures Now() == Roll(old(Now()), now, env)
    {
      var minuteStart := MinuteStart(now);
      if windowStart.None? {
        windowStart := Some(minuteStart);
        return;
      }
      if minuteStart > windowStart.value {
        CloseCurrentWindow(now);
        windowStart := Some(minuteStart);
      }
    }

    /** The first compatible key of the open table, or its length. */
    method FindCompatible(key: Key, anyEndpoint: bool) returns (n: nat)
      ensures n == FirstCompatible(current, key, anyEndpoint)
    {
      n := 0;
      while n < |current| && !Compatible(current[n].key, key, anyEndpoint)
        invariant n <= |current|
        invariant forall i :: 0 <= i < n ==> !Compatible(current[i].key, key, anyEndpoint)
      {
        n := n + 1;
      }
    }

    /** Pop one entry and store its re-clamped row under the folded key. */
    method FoldAt(n: nat, endpoint: bool) returns (target: Key)
      requires n < |current|
      modifies `current
      ensures current == FoldEntry(old(current), n, endpoint, env.parser)
      ensures target == Fold(old(current)[n].key, endpoint)
    {
      target := Fold(current[n].key, endpoint);
      var previous := current[n].row;
      current := current[..n] + current[n + 1..];
      current := current + [Entry(target, Refold(previous, env.parser))];
    }

    /** _counter_target_locked */
    method CounterTarget(key: Key) returns (target: Key)
      modifies `current
      ensures target == TargetKey(old(current), key)
      ensures current == Retarget(old(current), key, env.parser)
    {
      if HasKey(current, key) || |current| < MAX_WINDOW_KEYS {
        return key;
      }
      if HasKey(current, Fold(key, false)) {
        return Fold(key, false);
      }
      var n := FindCompatible(key, false);
      if n < |current| {
        target := FoldAt(n, false);
        return;
      }
      if HasKey(current, Fold(key, true)) {
        return Fold(key, true);
      }
      n := FindCompatible(key, true);
      if n < |current| {
        target := FoldAt(n, true);
        return;
      }
      return current[0].key;
    }

    /** _merge_counters_locked */
    method MergeIncoming(counters: seq<RawCounter>)
      modifies `current, `dropped
      ensures Now() == MergeCounters(old(Now()), counters, env.parser)
    {
      for i := 0 to |counters|
        invariant MergeAll(old(current), counters, env.parser) == MergeAll(current, counters[i..], env.parser)
        invariant old(dropped) + Rejected(counters) == dropped + Rejected(counters[i..])
      {
        assert counters[i..][1..] == counters[i + 1..];
        if counters[i].NotAPair? {
          dropped := dropped + 1;
          continue;
        }
        var key := NormaliseKey(counters[i].key);
        if key.None? {
          dropped := dropped + 1;
          continue;
        }
        var target := CounterTarget(key.value);
        current := AddAt(current, target, counters[i].increment, env.parser);
      }
    }

    /** on_request */
    method Receive(now: real, event: W.RawEvent, draw: real, counters: seq<RawCounter>)
      requires Valid(Now(), env)
      modifies this
      ensures Now() == OnRequest(old(Now()), now, event, draw, counters, env)
      ensures Valid(Now(), env)
    {
      OnRequestKeeps(Now(), now, event, draw, counters, env);
      var sample := Sample(event, now, sampleRate, draw, env.parser);
      if disabled || shut {
        return;
      }
      RollWindow(now);
      MergeIncoming(counters);
      if sample.Invalid? {
        dropped := dropped + 1;
      }
      if sample.Take? {
        AppendBuffered(sample.event);
      }
    }

    /** The event half of _select_batch_locked: the first hundred sendable events and the rejects met on the way. */
    method ScanEvents(now: real) returns (refs: seq<Buffered>, wire: seq<W.RawEvent>, invalid: seq<Buffered>)
      ensures (refs, invalid) == Scan(events, now, MAX_BATCH_EVENTS, env.parser)
      ensures wire == WireEvents(refs, now, env.parser)
    {
      refs, wire, invalid := [], [], [];
      ghost var scan := Scan(events, now, MAX_BATCH_EVENTS, env.parser);
      assert [] + scan.0 == scan.0 && [] + scan.1 == scan.1 && events[0..] == events;
      var i := 0;
      while i < |events|
        invariant 0 <= i <= |events| && |refs| < MAX_BATCH_EVENTS
        invariant scan.0 == refs + Scan(events[i..], now, MAX_BATCH_EVENTS - |refs|, env.parser).0
        invariant scan.1 == invalid + Scan(events[i..], now, MAX_BATCH_EVENTS - |refs|, env.parser).1
        invariant wire == WireEvents(refs, now, env.parser)
      {
        ScanUnfold(events, i, now, MAX_BATCH_EVENTS - |refs|, env.parser);
        var w := W.WireEvent(events[i].event, now, env.parser);
        if w.None? {
          AppendMoves(invalid, events[i], Scan(events[i + 1..], now, MAX_BATCH_EVENTS - |refs|, env.parser).1);
          invalid := invalid + [events[i]];
        } else {
          AppendMoves(refs, events[i], Scan(events[i + 1..], now, MAX_BATCH_EVENTS - |refs| - 1, env.parser).0);
          WireEventsAppend(refs, events[i], now, env.parser);
          refs, wire := refs + [events[i]], wire + [w.value];
          if |refs| >= MAX_BATCH_EVENTS {
            assert refs + [] == refs && invalid + [] == invalid;
            return;
          }
        }
        i := i + 1;
      }
      assert refs + [] == refs && invalid + [] == invalid;
    }

    /** The counter half of _select_batch_locked: the first two hundred rows of the queue, with their wire form. */
    method CollectRows(now: real) returns (refs: seq<Ref>, wire: seq<CounterRow>)
      requires AllKnown(closed, windows) && Keyed(windows)
      ensures refs == FirstRefs(AllRefs(closed, windows))
      ensures wire == WireRows(refs, windows, now)
    {
      refs, wire := [], [];
      ghost var all := AllRefs(closed, windows);
      assert closed[0..] == closed;
      var i := 0;
      while i < |closed|
        invariant 0 <= i <= |closed| && |refs| < MAX_BATCH_COUNTERS && |refs| <= |all|
        invariant refs == all[..|refs|] && all[|refs|..] == AllRefs(closed[i..], windows)
        invariant wire == WireRows(refs, windows, now)
      {
        assert closed[i..][1..] == closed[i + 1..];
        var full;
        refs, wire, full := CollectWindow(closed[i], refs, wire, now, all, AllRefs(closed[i + 1..], windows));
        if full {
          return;
        }
        i := i + 1;
      }
    }

    /** The inner loop over one window's rows; `full` when the batch limit is reached. */
    method CollectWindow(id: nat, sofar: seq<Ref>, sent: seq<CounterRow>, now: real, ghost all: seq<Ref>, ghost rest: seq<Ref>)
      returns (refs: seq<Ref>, wire: seq<CounterRow>, full: bool)
      requires id in windows && Keyed(windows)
      requires |sofar| < MAX_BATCH_COUNTERS && |sofar| <= |all| && sofar == all[..|sofar|]
      requires all[|sofar|..] == RowRefs(id, windows[id].rows) + rest
      requires sent == WireRows(sofar, windows, now)
      ensures full ==> refs == FirstRefs(all)
      ensures !full ==> |refs| < MAX_BATCH_COUNTERS && |refs| <= |all| && refs == all[..|refs|] && all[|refs|..] == rest
      ensures wire == WireRows(refs, windows, now)
    {
      refs, wire := sofar, sent;
      var rows := windows[id].rows;
      ghost var mine := RowRefs(id, rows);
      var j := 0;
      while j < |rows|
        invariant 0 <= j <= |rows| && |refs| < MAX_BATCH_COUNTERS && |refs| <= |all|
        invariant refs == all[..|refs|] && all[|refs|..] == mine[j..] + rest
        invariant wire == WireRows(refs, windows, now)
      {
        var ref := Ref(id, rows[j].key);
        FoundAt(rows, j);
        Advance(all, |refs|, mine, j, rest);
        WireRowsAppend(refs, ref, windows, now);
        refs, wire := refs + [ref], wire + [WireRow(rows[j].key, rows[j].row, WindowAge(windows, id, now))];
        j := j + 1;
        if |refs| >= MAX_BATCH_COUNTERS {
          return refs, wire, true;
        }
      }
      assert mine[j..] + rest == rest;
      return refs, wire, false;
    }

    /** _select_batch_locked */
    method SelectBatch(now: real, sentAtMs: int) returns (f: Option<Inflight>)
      requires Valid(Now(), env) && !disabled
      modifies this
      ensures (Now(), f) == Select(old(Now()), now, sentAtMs, env)
      ensures Valid(Now(), env) && (f.Some? ==> ValidFlight(Now(), f.value, env))
    {
      ghost var s := Now();
      SelectKeeps(s, now, sentAtMs, env);
      RollKeeps(s, now, env);
      RollWindow(now);
      CloseKeeps(Now(), now, env);
      CloseCurrentWindow(now);
      PruneKeeps(Now(), now, env);
      PruneWindows(now);
      f := PickBatch(now, sentAtMs);
    }

    method DropInvalid(invalid: seq<Buffered>)
      modifies `events, `eventBytes, `dropped
      ensures Now() == if invalid == [] then old(Now())
                       else RemoveEvents(old(Now()), invalid).(dropped := old(dropped) + |invalid|)
    {
      if invalid != [] {
        events := Without(events, Ids(invalid));
        eventBytes := EventBytes(events);
        dropped := dropped + |invalid|;
      }
    }

    /** The untrimmed batch; events that can no longer be sent leave the buffer. */
    method DraftBatch(now: real, sentAtMs: int) returns (draft: Inflight)
      requires AllKnown(closed, windows) && Keyed(windows)
      modifies `events, `eventBytes, `dropped
      ensures Now() == DropUnsendable(old(Now()), now, env.parser)
      ensures draft == Draft(old(Now()), now, sentAtMs, env)
    {
      var eventRefs, wireEvents, invalid := ScanEvents(now);
      DropInvalid(invalid);
      var counterRefs, wireRows := CollectRows(now);
      draft := Inflight(Batch(seqNo, sentAtMs, dropped, wireEvents, wireRows), eventRefs, counterRefs);
    }

    /** The rest of _select_batch_locked, once every window is closed. */
    method PickBatch(now: real, sentAtMs: int) returns (f: Option<Inflight>)
      requires AllKnown(closed, windows) && Keyed(windows)
      modifies `events, `eventBytes, `dropped, `seqNo
      ensures (Now(), f) == Pick(old(Now()), now, sentAtMs, env)
    {
      var draft := DraftBatch(now, sentAtMs);
      if draft.batch.events == [] && draft.batch.counters == [] {
        return None;
      }
      seqNo := seqNo + 1;
      f := TrimBatch(draft);
    }

    /** The trimming loop of _select_batch_locked. */
    method TrimBatch(draft: Inflight) returns (f: Option<Inflight>)
      requires |draft.batch.events| == |draft.eventRefs| && |draft.batch.counters| == |draft.counterRefs|
      ensures f == Trim(draft, env)
    {
      var batch, eventRefs, counterRefs := draft.batch, draft.eventRefs, draft.counterRefs;
      while env.batchBytes(batch) > MAX_BATCH_BYTES
        invariant |batch.events| == |eventRefs| && |batch.counters| == |counterRefs|
        invariant Trim(Inflight(batch, eventRefs, counterRefs), env) == Trim(draft, env)
        decreases |eventRefs| + |counterRefs|
      {
        if batch.events != [] {
          batch := batch.(events := batch.events[..|batch.events| - 1]);
          eventRefs := eventRefs[..|eventRefs| - 1];
        } else if batch.counters != [] {
          batch := batch.(counters := batch.counters[..|batch.counters| - 1]);
          counterRefs := counterRefs[..|counterRefs| - 1];
        } else {
          return None;
        }
      }
      return Some(Inflight(batch, eventRefs, counterRefs));
    }

    /** The first loop of _remove_selected_locked: delete each selected row, noting whose window changed. */
    method DeleteSelected(refs: seq<Ref>) returns (changed: seq<nat>)
      modifies `windows
      ensures windows == DeleteRows(old(windows), refs)
      ensures changed == Changed(old(windows), refs, [])
    {
      changed := [];
      for i := 0 to |refs|
        invariant DeleteRows(old(windows), refs) == DeleteRows(windows, refs[i..])
        invariant Changed(old(windows), refs, []) == Changed(windows, refs[i..], changed)
      {
        assert refs[i..][1..] == refs[i + 1..];
        var w := refs[i].window;
        if w in windows && HasKey(windows[w].rows, refs[i].key) {
          if w !in changed {
            changed := changed + [w];
          }
          windows := windows[w := windows[w].(rows := DeleteKey(windows[w].rows, refs[i].key))];
        }
      }
    }

    /** The second loop of _remove_selected_locked: re-measure each changed window, queued or not. */
    method Remeasure(changed: seq<nat>)
      modifies `windows, `retained
      ensures Now() == ResizeAll(old(Now()), changed, env)
    {
      for i := 0 to |changed|
        invariant ResizeAll(old(Now()), changed, env) == ResizeAll(Now(), changed[i..], env)
      {
        assert changed[i..][1..] == changed[i + 1..];
        if changed[i] in windows {
          var w := windows[changed[i]];
          retained := retained - w.size;
          w := w.(size := if w.rows != [] then env.windowBytes(w.rows) else 0);
          windows := windows[changed[i] := w];
          retained := retained + w.size;
        }
      }
    }

    /** _remove_selected_locked */
    method RemoveSelected(f: Inflight)
      modifies `events, `eventBytes, `windows, `retained, `closed
      ensures Now() == Remove(old(Now()), f, env)
    {
      ghost var s := Now();
      events := Without(events, Ids(f.eventRefs));
      eventBytes := EventBytes(events);
      assert Now() == RemoveEvents(s, f.eventRefs);
      var changed := DeleteSelected(f.counterRefs);
      Remeasure(changed);
      closed := NonEmpty(closed, windows);
    }

    /** _set_backoff_locked */
    method BackOff(now: real, retryAfter: Option<real>)
      modifies `backoff, `backoffUntil
      ensures Now() == SetBackoff(old(Now()), now, retryAfter)
    {
      var delay := backoff;
      if retryAfter.Some? {
        delay := Max(delay, retryAfter.value);
      }
      backoffUntil := now + Min(BACKOFF_MAX, delay);
      backoff := Min(BACKOFF_MAX, Max(BACKOFF_MIN, backoff * 2.0));
    }

    /** _apply_policy_locked */
    method Apply(p: Policy, now: real)
      modifies `sampleRate, `flushSeconds, `pausedUntil
      ensures Now() == ApplyPolicy(old(Now()), p, now)
    {
      if p.NoPolicy? {
        return;
      }
      if p.sampleRate.Some? && 0.0 <= p.sampleRate.value < sampleRate {
        sampleRate := p.sampleRate.value;
      }
      if p.flushSeconds.Some? && p.flushSeconds.value > flushSeconds {
        flushSeconds := Min(BACKOFF_MAX, p.flushSeconds.value);
      }
      if p.pauseSeconds.Some? && 0.0 <= p.pauseSeconds.value <= 86_400.0 {
        pausedUntil := Max(pausedUntil, now + p.pauseSeconds.value);
      }
    }

    /** _disable_locked */
    method DisableReporter()
      modifies `disabled, `events, `eventBytes, `current, `closed, `retained, `dropped
      ensures Now() == Disable(old(Now()))
    {
      ghost var s := Now();
      disabled := true;
      events, eventBytes := [], 0;
      current := [];
      closed, retained := [], 0;
      dropped := 0;
      assert Now() == Disable(s);
    }

    /** The 202 branch of _handle_response, after the removal. */
    method CreditBatch(reported: nat, p: Policy, now: real)
      modifies `dropped, `backoff, `backoffUntil, `sampleRate, `flushSeconds, `pausedUntil
      ensures Now() == Credit(old(Now()), reported, p, now)
    {
      dropped := if dropped >= reported then dropped - reported else 0;
      backoff := BACKOFF_MIN;
      backoffUntil := 0.0;
      Apply(p, now);
    }

    /** _handle_response */
    method HandleResponse(f: Inflight, r: Response, now: real)
      requires Valid(Now(), env) && ValidFlight(Now(), f, env)
      modifies this
      ensures Now() == Respond(old(Now()), f, r, now, env)
      ensures Valid(Now(), env)
    {
      RespondKeeps(Now(), f, r, now, env);
      if r.off {
        DisableReporter();
        return;
      }
      if r.status == 202 {
        RemoveSelected(f);
        CreditBatch(f.batch.dropped, r.policy, now);
        return;
      }
      if r.status in {400, 401, 403, 404, 410} {
        DisableReporter();
        return;
      }
      if r.status == 413 {
        RemoveSelected(f);
        dropped := dropped + |f.eventRefs| + |f.counterRefs|;
        return;
      }
      BackOff(now, RetryAfter(r));
    }
  }

  lemma FoundAt(t: Table, j: nat)
    requires DistinctKeys(t) && j < |t|
    ensures HasKey(t, t[j].key) && IndexOf(t, t[j].key) == j
  {
  }

  /** How many more windows the byte bound makes a state drop. */
  ghost function StillOver(s: State): nat
  {
    Overflowing(s.closed, s.windows, s.retained)
  }

  lemma OverflowStep(s: State)
    requires s.closed != [] && s.retained > RETENTION_BYTES
    ensures StillOver(s) == 1 + StillOver(DropFront(s))
  {
  }

  /** Without the window at the front of the queue. */
  ghost function DropFront(s: State): State
    requires s.closed != []
  {
    s.(closed := s.closed[1..],
       retained := s.retained - WeightOf(s.closed[0], s.windows, Bytes),
       dropped := s.dropped + WeightOf(s.closed[0], s.windows, Rows))
  }

  lemma DropNext(s: State, n: nat)
    requires n < |s.closed|
    ensures DropWindows(s, n).closed != [] && DropWindows(s, n + 1) == DropFront(DropWindows(s, n))
  {
    assert s.closed[n..][0] == s.closed[n] && s.closed[n..][1..] == s.closed[n + 1..];
    TotalStep(s.closed, n, s.windows, Bytes);
    TotalStep(s.closed, n, s.windows, Rows);
  }

  lemma TotalStep(ids: seq<nat>, n: nat, ws: map<nat, Window>, m: Measure)
    requires n < |ids|
    ensures Total(ids[..n + 1], ws, m) == Total(ids[..n], ws, m) + WeightOf(ids[n], ws, m)
  {
    assert ids[..n + 1] == ids[..n] + [ids[n]];
    TotalConcat(ids[..n], [ids[n]], ws, m);
    assert [ids[n]][1..] == [];
  }

  lemma ScanUnfold(events: seq<Buffered>, i: nat, now: real, limit: nat, p: Parser)
    requires i < |events| && limit > 0
    ensures Scan(events[i..], now, limit, p)
         == if W.WireEvent(events[i].event, now, p).Some?
            then ([events[i]] + Scan(events[i + 1..], now, limit - 1, p).0, Scan(events[i + 1..], now, limit - 1, p).1)
            else (Scan(events[i + 1..], now, limit, p).0, [events[i]] + Scan(events[i + 1..], now, limit, p).1)
  {
    assert events[i..][1..] == events[i + 1..];
  }

  lemma Advance(all: seq<Ref>, at: nat, mine: seq<Ref>, j: nat, rest: seq<Ref>)
    requires at <= |all| && j < |mine| && all[at..] == mine[j..] + rest
    ensures at < |all| && all[..at + 1] == all[..at] + [mine[j]]
    ensures all[at + 1..] == mine[j + 1..] + rest
  {
    assert all[at] == all[at..][0] == mine[j];
    assert all[at + 1..] == all[at..][1..];
  }

  lemma WireEventsAppend(refs: seq<Buffered>, b: Buffered, now: real, p: Parser)
    requires W.WireEvent(b.event, now, p).Some?
    ensures WireEvents(refs + [b], now, p) == WireEvents(refs, now, p) + [W.WireEvent(b.event, now, p).value]
  {
  }

  lemma WireRowsAppend(refs: seq<Ref>, ref: Ref, ws: map<nat, Window>, now: real)
    ensures WireRows(refs + [ref], ws, now)
         == WireRows(refs, ws, now) + [WireRow(ref.key, RowAt(ws, ref), WindowAge(ws, ref.window, now))]
  {
  }
}
