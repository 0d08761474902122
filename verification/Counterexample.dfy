/** The interleaving in which conservation needs its `twice` term: a window pruned while its rows are in flight. */
module Counterexample {
  import opened Values
  import opened Counters
  import opened Store
  import opened StoreLaws
  import opened Runs
  import opened Ledgers
  import opened Scenario

  const ROW := Row(1, 1, 0, 0, map[], map[])
  const TABLE: Table := [Entry(KEY, ROW)]

  // A request at the epoch, its selection, a request a minute later, one 25 hours later, then the 202.
  function Ask(c: RawCounter): Step { Request(0.0, EVENT, 0.0, [c]) }
  function AskAgain(c: RawCounter): Step { Request(60.0, EVENT, 0.0, [c]) }
  const ASK_LATE := Request(90_000.0, EVENT, 0.0, [])
  const ANSWER := Responding(90_000.0, ACCEPTED)

  const FIRST := START.(state := START.state.(windowStart := Some(0), current := TABLE))
  const QUEUED := START.state.(
    windowStart := Some(0), closed := [0], windows := map[0 := Window(0, TABLE, 100)], retained := 100, nextId := 1, seqNo := 1)
  const FLIGHT := Inflight(Batch(0, 0, 0, [], [CounterRow(0, KEY, ROW)]), [], [Ref(0, KEY)])
  const SELECTED := World(QUEUED, Some(FLIGHT))
  const SECOND := SELECTED.(state := QUEUED.(windowStart := Some(60), current := TABLE))
  const PRUNED := SELECTED.(state := QUEUED.(
    windowStart := Some(90_000), closed := [], retained := 0, nextId := 2, dropped := 2,
    windows := map[0 := Window(0, TABLE, 100), 1 := Window(60, TABLE, 100)]))

  lemma TheSecondRequest(c: RawCounter)
    requires Fills([c], ROW, 1)
    ensures Next(SELECTED, AskAgain(c), ENV) == SECOND
    ensures StepFlow(SELECTED, AskAgain(c), ENV, OfCell(Requests)) == STILL.(taken := 1)
  {
    assert MinuteStart(60.0) == 60;
    QuietStep(SELECTED, 60.0, [c], ROW, 1);
  }

  /** The queue of two windows, both older than a day. */
  const STALE := SECOND.state.(
    windowStart := Some(90_000), current := [], closed := [0, 1], retained := 200, nextId := 2,
    windows := map[0 := Window(0, TABLE, 100), 1 := Window(60, TABLE, 100)])

  lemma StaleWeighs(m: Measure)
    ensures Total([0, 1], STALE.windows, m) == Weigh(STALE.windows[0], m) + Weigh(STALE.windows[1], m)
  {
    assert [0, 1][1..] == [1] && [1][1..] == [];
    assert Total([1], STALE.windows, m) == Weigh(STALE.windows[1], m);
  }

  lemma StalePrunes()
    ensures Prune(STALE, 90_000.0) == STALE.(closed := [], retained := 0, dropped := 2)
    ensures Pruned(STALE, 90_000.0, Cells(Requests)) == 2
  {
    assert [0, 1][1..] == [1] && [1][1..] == [];
    assert AgedOut([1], STALE.windows, 90_000.0) == 1;
    assert AgedOut([0, 1], STALE.windows, 90_000.0) == 2;
    StaleWeighs(Bytes);
    StaleWeighs(Rows);
    StaleWeighs(Cells(Requests));
    SumOne(TABLE[0], Requests, None);
    assert [0, 1][..2] == [0, 1] && [0, 1][2..] == [];
  }

  lemma LateMinute()
    ensures MinuteStart(90_000.0) == 90_000
  {
  }

  lemma StaleEnqueued()
    ensures Closes(SECOND.state) && Enqueue(SECOND.state, 90_000.0, ENV) == STALE
  {
    LateMinute();
    assert [0] + [1] == [0, 1];
    assert QUEUED.windows[1 := Window(60, TABLE, 100)] == STALE.windows;
  }

  lemma RollsInto(s: State, now: real, e: State)
    requires Rolls(s, now) && Closes(s) && Enqueue(s, now, ENV) == e
    ensures Roll(s, now, ENV) == Prune(e, now).(windowStart := Some(MinuteStart(now)))
    ensures RollPruned(s, now, ENV, Cells(Requests)) == Pruned(e, now, Cells(Requests))
  {
  }

  lemma StaleRolls()
    ensures Roll(SECOND.state, 90_000.0, ENV) == PRUNED.state
    ensures RollPruned(SECOND.state, 90_000.0, ENV, Cells(Requests)) == 2
  {
    LateMinute();
    StaleEnqueued();
    StalePrunes();
    RollsInto(SECOND.state, 90_000.0, STALE);
  }

  /** A request that carries no counters and is not sampled only rolls the window. */
  lemma BareRequest(s: State, now: real)
    requires !s.disabled && !s.shut && s.sampleRate == 0.0
    ensures OnRequest(s, now, EVENT, 0.0, [], ENV) == Roll(s, now, ENV)
    ensures RequestFlow(s, now, EVENT, 0.0, [], ENV, OfCell(Requests))
         == STILL.(discarded := RollPruned(s, now, ENV, Cells(Requests)))
  {
    Unsampled(now);
  }

  lemma ThePrune()
    ensures Next(SECOND, ASK_LATE, ENV) == PRUNED
    ensures StepFlow(SECOND, ASK_LATE, ENV, OfCell(Requests)) == STILL.(discarded := 2)
  {
    BareRequest(SECOND.state, 90_000.0);
    StaleRolls();
  }

  lemma TheAnswer()
    ensures Next(PRUNED, ANSWER, ENV).state.retained == -100
    ensures Next(PRUNED, ANSWER, ENV).state.closed == []
    ensures StepFlow(PRUNED, ANSWER, ENV, OfCell(Requests)) == STILL.(delivered := 1, twice := 1)
  {
    var s := PRUNED.state;
    var ref := Ref(0, KEY);
    assert TABLE[0].key == KEY;
    assert Hits(s.windows, ref);
    assert DeleteKey(TABLE, KEY) == [];
    assert [ref][1..] == [];
    assert DeleteRows(s.windows, [ref]) == s.windows[0 := Window(0, [], 100)];
    assert Changed(s.windows, [ref], []) == [0];
    var d := s.(windows := s.windows[0 := Window(0, [], 100)]);
    assert [0][1..] == [];
    assert ResizeAll(d, [0], ENV) == Resize(d, 0, ENV);
    assert RemoveEvents(s, []) == s;
    assert Stray([ref], []) == [ref];
    assert RowAt(s.windows, ref) == ROW;
    assert RefSum([ref], s.windows, Requests) == 1;
    assert MisstatedSum([ref], s.windows, Requests, true) == 0;
    assert MisstatedSum([ref], s.windows, Requests, false) == 0;
    assert [CounterRow(0, KEY, ROW)][1..] == [];
    assert WireSum([CounterRow(0, KEY, ROW)], Requests) == 1;
  }

  /**
    The run, step by step, for a counter of one request. The retained byte counter ends at -100 with an empty
    queue, and the row pruned in flight is counted both as discarded and as delivered: two requests entered, two
    were discarded, one delivered.
   */
  lemma PrunedInFlight(c: RawCounter)
    requires Plain(c, 1, 1)
    ensures Next(START, Ask(c), ENV) == FIRST && Next(FIRST, PICK, ENV) == SELECTED
    ensures Next(SELECTED, AskAgain(c), ENV) == SECOND && Next(SECOND, ASK_LATE, ENV) == PRUNED
    ensures Next(PRUNED, ANSWER, ENV).state.retained == -100 && Next(PRUNED, ANSWER, ENV).state.closed == []
    ensures StepFlow(SECOND, ASK_LATE, ENV, OfCell(Requests)) == STILL.(discarded := 2)
    ensures StepFlow(PRUNED, ANSWER, ENV, OfCell(Requests)) == STILL.(delivered := 1, twice := 1)
  {
    OneFills(c, 1, 1);
    FirstRequest([c], ROW, 1);
    Selection(ROW);
    TheSecondRequest(c);
    ThePrune();
    TheAnswer();
  }
}
