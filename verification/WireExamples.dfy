/** Two runs in which a delivered row does not say what was counted, and two rows whose misstatements hide each other. */
module WireExamples {
  import opened Values
  import opened Counters
  import opened Store
  import opened StoreLaws
  import opened Runs
  import opened Ledgers
  import opened Scenario

  const ANSWER := Responding(0.0, ACCEPTED)

  lemma OnlyRef(refs: seq<Ref>, rows: seq<CounterRow>, ws: map<nat, Window>, c: Cell, over: bool)
    requires |refs| == |rows| == 1
    ensures WireSum(rows, c) == Count(rows[0].row, c)
    ensures MisstatedSum(refs, ws, c, over) == Misstated(RowAt(ws, refs[0]), c, over)
  {
    assert refs[1..] == [] && rows[1..] == [];
  }

  lemma Answered(row: Row)
    ensures StepFlow(AfterPick(row), ANSWER, ENV, OfCell(Requests))
         == STILL.(delivered := Wired(row).requests,
                   clipped := Excess(row.requests), invented := if row.requests == 0 then 1 else 0)
  {
    var s, f, ref := AfterPick(row).state, Flight(row), Ref(0, KEY);
    Lone(row);
    assert RowAt(s.windows, ref) == row;
    OnlyRef(f.counterRefs, f.batch.counters, s.windows, Requests, true);
    OnlyRef(f.counterRefs, f.batch.counters, s.windows, Requests, false);
    assert f.counterRefs[1..] == [] && Stray([], s.closed) == [];
    assert Stray(f.counterRefs, s.closed) == [];
  }

  lemma MergesFirst(t: Table, c: RawCounter, rest: seq<RawCounter>, next: Table)
    requires Accepted(c) && NormaliseKey(c.key) == Some(KEY) && Place(t, KEY) == InPlace
    requires Accumulate(t, KEY, c.increment, ENV.parser) == next
    ensures MergeAll(t, [c] + rest, ENV.parser) == MergeAll(next, rest, ENV.parser)
    ensures Rejected([c] + rest) == Rejected(rest)
    ensures Offered([c] + rest, ENV.parser, Requests)
         == Count(Clamped(c.increment, ENV.parser), Requests) + Offered(rest, ENV.parser, Requests)
    ensures LossOf(t, [c] + rest, ENV.parser, Requests) == LossOf(next, rest, ENV.parser, Requests)
    ensures AllFoldsInRange(t, [c] + rest, ENV.parser) <==> AllFoldsInRange(next, rest, ENV.parser)
  {
    assert ([c] + rest)[1..] == rest;
  }

  lemma AddsTwice(inc: RawIncrement, n: nat, m: nat)
    requires inc.requests == Int(n) && inc.attempts == Int(m)
    requires inc.failoverUsed == Int(0) && inc.firstAttemptSuccess == Int(0)
    requires inc.totalMs == NotAMapping && inc.firstEventMs == NotAMapping && n <= MAX_COUNT && m <= MAX_COUNT
    ensures var one := [Entry(KEY, PlainRow(n, m))];
      && Accumulate([], KEY, inc, ENV.parser) == one
      && Accumulate(one, KEY, inc, ENV.parser) == [Entry(KEY, PlainRow(2 * n, 2 * m))]
  {
    PlainMerges(ZERO, inc, n, m);
    PlainMerges(PlainRow(n, m), inc, n, m);
    Lone(PlainRow(n, m));
    assert Place([], KEY) == InPlace;
  }

  lemma MergesTwo(c: RawCounter, one: Table, two: Table)
    requires Accepted(c) && NormaliseKey(c.key) == Some(KEY)
    requires Accumulate([], KEY, c.increment, ENV.parser) == one && Accumulate(one, KEY, c.increment, ENV.parser) == two
    requires Place([], KEY) == InPlace && Place(one, KEY) == InPlace
    ensures MergeAll([], [c, c], ENV.parser) == two && Rejected([c, c]) == 0
    ensures Offered([c, c], ENV.parser, Requests) == 2 * Count(Clamped(c.increment, ENV.parser), Requests)
    ensures LossOf([], [c, c], ENV.parser, Requests) == 0 && AllFoldsInRange([], [c, c], ENV.parser)
  {
    MergesFirst([], c, [c], one);
    MergesFirst(one, c, [], two);
    assert [c] + [c] == [c, c] && [c] + [] == [c];
  }

  lemma TwoFill(c: RawCounter, n: nat, m: nat)
    requires Plain(c, n, m) && n <= MAX_COUNT && m <= MAX_COUNT
    ensures Fills([c, c], PlainRow(2 * n, 2 * m), 2 * n)
  {
    KeyNormalises(c.key);
    PlainMerges(ZERO, c.increment, n, m);
    Lone(PlainRow(n, m));
    AddsTwice(c.increment, n, m);
    assert Place([], KEY) == InPlace;
    MergesTwo(c, [Entry(KEY, PlainRow(n, m))], [Entry(KEY, PlainRow(2 * n, 2 * m))]);
  }

  /**
    Two accepted counters of ten million requests under one key fold nothing and store twenty million, but the row
    sent and acknowledged says ten million.
   */
  lemma TwoFullCounters(c: RawCounter)
    requires Plain(c, MAX_COUNT, 1)
    ensures var row := PlainRow(2 * MAX_COUNT, 2);
      && AllFoldsInRange([], [c, c], ENV.parser)
      && Next(START, Request(0.0, EVENT, 0.0, [c, c]), ENV) == AfterAsk(row) && Next(AfterAsk(row), PICK, ENV) == AfterPick(row)
      && StepFlow(START, Request(0.0, EVENT, 0.0, [c, c]), ENV, OfCell(Requests)) == STILL.(taken := 2 * MAX_COUNT)
      && StepFlow(AfterPick(row), ANSWER, ENV, OfCell(Requests)) == STILL.(delivered := MAX_COUNT, clipped := MAX_COUNT)
  {
    var row := PlainRow(2 * MAX_COUNT, 2);
    TwoFill(c, MAX_COUNT, 1);
    FirstRequest([c, c], row, 2 * MAX_COUNT);
    Selection(row);
    Answered(row);
  }

  /** A counter of no requests is sent and acknowledged as one. */
  lemma EmptyCounter(c: RawCounter)
    requires Plain(c, 0, 1)
    ensures var row := PlainRow(0, 1);
      && AllFoldsInRange([], [c], ENV.parser)
      && Next(START, Request(0.0, EVENT, 0.0, [c]), ENV) == AfterAsk(row) && Next(AfterAsk(row), PICK, ENV) == AfterPick(row)
      && StepFlow(START, Request(0.0, EVENT, 0.0, [c]), ENV, OfCell(Requests)) == STILL
      && StepFlow(AfterPick(row), ANSWER, ENV, OfCell(Requests)) == STILL.(delivered := 1, invented := 1)
  {
    var row := PlainRow(0, 1);
    OneFills(c, 0, 1);
    FirstRequest([c], row, 0);
    Selection(row);
    Answered(row);
  }

  /**
    Equal sums in every cell do not mean that the rows were sent as stored: an empty row and one just above the clamp
    make up for each other. The exact condition is therefore on the rows.
   */
  lemma MisstatementsHide(refs: seq<Ref>, rows: seq<CounterRow>, ws: map<nat, Window>)
    requires |refs| == 2 && RowsWired(refs, rows, ws)
    requires RowAt(ws, refs[0]) == PlainRow(0, 1) && RowAt(ws, refs[1]) == PlainRow(MAX_COUNT + 1, 1)
    ensures forall c: Cell :: WireSum(rows, c) == RefSum(refs, ws, c)
    ensures !Sendworthy(RowAt(ws, refs[0])) && !Sendworthy(RowAt(ws, refs[1]))
  {
    forall c: Cell ensures WireSum(rows, c) == RefSum(refs, ws, c) {
      SentEquation(refs, rows, ws, c);
      assert refs[1..][0] == refs[1] && refs[1..][1..] == [];
      assert MisstatedSum(refs[1..], ws, c, true) == Misstated(RowAt(ws, refs[1]), c, true);
      assert MisstatedSum(refs[1..], ws, c, false) == Misstated(RowAt(ws, refs[1]), c, false);
    }
  }
}
