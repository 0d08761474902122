/** A run in which a selection reads the clock before the minute it closes, and the queue ends up out of order. */
module OrderExample {
  import opened Values
  import opened Counters
  import opened Store
  import opened StoreLaws
  import opened Runs
  import opened Histories
  import opened Scenario

  const ROW := PlainRow(1, 1)
  const TABLE := [Entry(KEY, ROW)]

  /** What the example needs of a state: its open table, its queue and that it records. */
  ghost predicate Looks(s: State, start: Option<int>, current: Table, starts: seq<int>)
  {
    && s.windowStart == start && s.current == current && s.sampleRate == 0.0 && !s.disabled && !s.shut
    && s.nextId == |starts| == |s.closed| && s.retained == 100 * |starts|
    && forall i :: 0 <= i < |starts| ==>
         s.closed[i] == i && i in s.windows && s.windows[i] == Window(starts[i], TABLE, 100)
  }

  lemma Recorded(w: World, now: real, c: RawCounter, minute: int, starts: seq<int>)
    requires Looks(w.state, w.state.windowStart, [], starts) && Plain(c, 1, 1) && MinuteStart(now) == minute
    requires w.state.windowStart.Some? ==> w.state.windowStart.value <= minute
    ensures Looks(Next(w, Request(now, EVENT, 0.0, [c]), ENV).state, Some(minute), TABLE, starts)
    ensures Next(w, Request(now, EVENT, 0.0, [c]), ENV).inflight == w.inflight
  {
    OneFills(c, 1, 1);
    QuietStep(w, now, [c], ROW, 1);
  }

  /** Closing a table whose windows are all young and small queues it and drops nothing. */
  lemma QueuedLast(s: State, now: real, start: int, starts: seq<int>)
    requires Looks(s, Some(start), TABLE, starts) && |starts| <= 1 && now <= 60.0
    requires 0 <= start && forall i :: 0 <= i < |starts| ==> 0 <= starts[i]
    ensures Looks(Close(s, now, ENV), Some(MinuteStart(now)), [], starts + [start])
    ensures Prune(Close(s, now, ENV), now) == Close(s, now, ENV)
  {
    var e := Enqueue(s, now, ENV);
    assert Looks(e, Some(MinuteStart(now)), [], starts + [start]);
    assert AgedOut(e.closed, e.windows, now) == 0;
    assert Overflowing(e.closed, e.windows, e.retained) == 0;
    assert e.closed[..0] == [] && e.closed[0..] == e.closed;
    assert Prune(e, now) == e;
  }

  lemma Minutes()
    ensures MinuteStart(0.0) == 0 && MinuteStart(60.0) == 60
  {
  }

  const FIRST_MINUTE := Selecting(0.0, 0)
  const LATER := Request(60.0, EVENT, 0.0, [])

  function At(c: RawCounter, now: real): Step
  {
    Request(now, EVENT, 0.0, [c])
  }

  lemma TheFirst(w: World, c: RawCounter)
    requires Idle(w) && Plain(c, 1, 1)
    ensures var asked := Next(w, At(c, 60.0), ENV);
      asked.inflight.None? && Looks(asked.state, Some(60), TABLE, []) && Enabled(asked, FIRST_MINUTE)
  {
    Minutes();
    OneFills(c, 1, 1);
    QuietStep(w, 60.0, [c], ROW, 1);
  }

  lemma PickLooks(t: State, now: real, start: Option<int>, starts: seq<int>)
    requires Looks(t, start, [], starts)
    ensures Looks(Pick(t, now, 0, ENV).0, start, [], starts)
  {
  }

  lemma ClosesAll(s: State)
    requires Looks(s, Some(60), TABLE, [])
    ensures Looks(CloseAll(s, 0.0, ENV), Some(0), [], [60])
  {
    Minutes();
    QueuedLast(s, 0.0, 60, []);
    assert Roll(s, 0.0, ENV) == s;
  }

  lemma TheSelection(w: World)
    requires w.inflight.None? && Looks(w.state, Some(60), TABLE, []) && Enabled(w, FIRST_MINUTE)
    ensures Looks(Next(w, FIRST_MINUTE, ENV).state, Some(0), [], [60]) && SetsBack(w, FIRST_MINUTE)
  {
    Minutes();
    ClosesAll(w.state);
    PickLooks(CloseAll(w.state, 0.0, ENV), 0.0, Some(0), [60]);
  }

  lemma TheRoll(w: World)
    requires Looks(w.state, Some(0), TABLE, [60])
    ensures var s := Next(w, LATER, ENV).state;
      && s.closed == [0, 1] && 0 in s.windows && 1 in s.windows
      && s.windows[0].start == 60 && s.windows[1].start == 0 && !StartsSorted(s.closed, s.windows)
  {
    Minutes();
    QueuedLast(w.state, 60.0, 0, [60]);
    Unsampled(60.0);
    var s := Next(w, LATER, ENV).state;
    assert s == Roll(w.state, 60.0, ENV);
    assert s.closed == [0, 1];
  }

  /** Fresh enough for the run: nothing recorded, nothing queued, no batch in flight. */
  ghost predicate Idle(w: World)
  {
    w.inflight.None? && Looks(w.state, None, [], []) && w.state.pausedUntil == 0.0 == w.state.backoffUntil
  }

  /**
    A counter is recorded at second 60 and its window closed by a selection that read the clock at second 0; a counter
    recorded at second 0 then opens a window of an earlier minute, which is queued behind.
   */
  lemma QueueDisordered(w: World, c: RawCounter) returns (asked: World, picked: World, reopened: World)
    requires Idle(w) && Plain(c, 1, 1)
    ensures asked == Next(w, At(c, 60.0), ENV) && Enabled(asked, FIRST_MINUTE) && SetsBack(asked, FIRST_MINUTE)
    ensures picked == Next(asked, FIRST_MINUTE, ENV) && reopened == Next(picked, At(c, 0.0), ENV)
    ensures var s := Next(reopened, LATER, ENV).state;
      && s.closed == [0, 1] && 0 in s.windows && 1 in s.windows
      && s.windows[0].start == 60 && s.windows[1].start == 0 && !StartsSorted(s.closed, s.windows)
  {
    Minutes();
    TheFirst(w, c);
    asked := Next(w, At(c, 60.0), ENV);
    TheSelection(asked);
    picked := Next(asked, FIRST_MINUTE, ENV);
    Recorded(picked, 0.0, c, 0, [60]);
    reopened := Next(picked, At(c, 0.0), ENV);
    TheRoll(reopened);
  }

  lemma FreshIsIdle()
    ensures Idle(START)
  {
  }
}
