/** Short concrete runs shared by the examples: one kind of counter recorded at the epoch, selected, and answered. */
module Scenario {
  import opened Values
  import opened Counters
  import opened Store
  import opened Runs
  import opened Ledgers

  const ENV := Env(Parser(_ => None, _ => None), _ => 10, _ => 100, _ => 0)

  /** An ok event nobody samples. */
  const EVENT := W.RawEvent(
    Missing, List([]), Missing, Missing, Missing, Missing, Missing, Missing, Str("ok"),
    Missing, Int(0), Missing, Missing, Missing, Missing, Missing, Missing)
  const KEY := Key("request", "responses", false, "apex", "ok", None, "2xx", "none", false, false)
  const ACCEPTED := Response(202, false, None, NoPolicy)
  const START := Initial(0.0, 30.0)
  const PICK := Selecting(0.0, 0)

  /** A buffered request to the responses endpoint that the apex host answered with a 2xx. */
  ghost predicate Buffered2xx(k: RawKey)
  {
    && k.RawKey?
    && k.level == Str("request") && k.endpoint == Str("responses") && k.streaming == Bool(false)
    && k.host == Str("apex") && k.outcome == Str("ok") && k.errorClass == Null
    && k.statusClass == Str("2xx") && k.phase == Str("none")
    && k.floorMet == Bool(false) && k.pinned == Bool(false)
  }

  /** A counter under that key with this many requests and attempts, and no histograms. */
  ghost predicate Plain(c: RawCounter, requests: int, attempts: int)
  {
    && c.Counter? && Buffered2xx(c.key)
    && c.increment.requests == Int(requests) && c.increment.attempts == Int(attempts)
    && c.increment.failoverUsed == Int(0) && c.increment.firstAttemptSuccess == Int(0)
    && c.increment.totalMs == NotAMapping && c.increment.firstEventMs == NotAMapping
  }

  function PlainRow(requests: nat, attempts: nat): Row
  {
    Row(requests, attempts, 0, 0, map[], map[])
  }

  lemma KeyNormalises(k: RawKey)
    requires Buffered2xx(k)
    ensures NormaliseKey(k) == Some(KEY)
  {
    InAll(k);
  }

  lemma InAll(k: RawKey)
    requires Buffered2xx(k)
    ensures In(k.level, {"attempt", "request"}) && In(k.outcome, W.FINAL_OUTCOMES) && In(k.endpoint, W.ENDPOINTS)
    ensures In(k.host, W.HOSTS) && In(k.statusClass, STATUS_CLASSES) && In(k.phase, W.TIMEOUT_PHASES)
  {
  }

  lemma PlainMerges(r: Row, inc: RawIncrement, requests: nat, attempts: nat)
    requires inc.requests == Int(requests) && inc.attempts == Int(attempts)
    requires inc.failoverUsed == Int(0) && inc.firstAttemptSuccess == Int(0)
    requires inc.totalMs == NotAMapping && inc.firstEventMs == NotAMapping
    requires requests <= MAX_COUNT && attempts <= MAX_COUNT && r.totalMs == map[] && r.firstEventMs == map[]
    ensures MergeIncrement(r, inc, ENV.parser)
         == r.(requests := r.requests + requests, attempts := r.attempts + attempts)
  {
    assert MergeHistogram(map[], NotAMapping, ENV.parser) == map[];
  }

  /** A list of counters that fills an empty table with one row, taking `n` requests and losing none. */
  ghost predicate Fills(cs: seq<RawCounter>, row: Row, n: nat)
  {
    && MergeAll([], cs, ENV.parser) == [Entry(KEY, row)] && Rejected(cs) == 0
    && Offered(cs, ENV.parser, Requests) == n && LossOf([], cs, ENV.parser, Requests) == 0
    && AllFoldsInRange([], cs, ENV.parser)
  }

  lemma OneFills(c: RawCounter, requests: nat, attempts: nat)
    requires Plain(c, requests, attempts) && requests <= MAX_COUNT && attempts <= MAX_COUNT
    ensures Fills([c], PlainRow(requests, attempts), requests)
  {
    KeyNormalises(c.key);
    PlainMerges(ZERO, c.increment, requests, attempts);
    OneCounter(c, KEY);
    assert Place([], KEY) == InPlace;
  }

  /** A list of one accepted counter, step by step. */
  lemma OneCounter(c: RawCounter, k: Key)
    requires c.Counter? && NormaliseKey(c.key) == Some(k)
    ensures MergeAll([], [c], ENV.parser) == Accumulate([], k, c.increment, ENV.parser) && Rejected([c]) == 0
    ensures Offered([c], ENV.parser, Requests) == Count(Clamped(c.increment, ENV.parser), Requests)
    ensures LossOf([], [c], ENV.parser, Requests) == FoldLoss([], k, Requests, None)
    ensures AllFoldsInRange([], [c], ENV.parser) <==> FoldsInRange([], k)
  {
    assert [c][1..] == [];
  }

  lemma Unsampled(now: real)
    ensures Sample(EVENT, now, 0.0, 0.0, ENV.parser) == NotSampled
  {
  }

  lemma QuietRoll(s: State, now: real)
    requires s.current == []
    requires s.windowStart.Some? ==> s.windowStart.value <= MinuteStart(now)
    ensures Roll(s, now, ENV) == s.(windowStart := Some(MinuteStart(now)))
    ensures RollPruned(s, now, ENV, Cells(Requests)) == 0
  {
  }

  lemma QuietRequest(s: State, now: real, cs: seq<RawCounter>, row: Row, n: nat)
    requires !s.disabled && !s.shut && s.current == [] && s.sampleRate == 0.0 && Fills(cs, row, n)
    requires s.windowStart.Some? ==> s.windowStart.value <= MinuteStart(now)
    ensures OnRequest(s, now, EVENT, 0.0, cs, ENV)
         == s.(windowStart := Some(MinuteStart(now)), current := [Entry(KEY, row)])
  {
    QuietRoll(s, now);
    Unsampled(now);
  }

  lemma QuietFlow(s: State, now: real, cs: seq<RawCounter>, row: Row, n: nat)
    requires s.current == [] && Fills(cs, row, n)
    requires s.windowStart.Some? ==> s.windowStart.value <= MinuteStart(now)
    ensures RequestFlow(s, now, EVENT, 0.0, cs, ENV, OfCell(Requests)) == STILL.(taken := n)
  {
    QuietRoll(s, now);
  }

  lemma QuietStep(w: World, now: real, cs: seq<RawCounter>, row: Row, n: nat)
    requires !w.state.disabled && !w.state.shut && w.state.current == [] && w.state.sampleRate == 0.0 && Fills(cs, row, n)
    requires w.state.windowStart.Some? ==> w.state.windowStart.value <= MinuteStart(now)
    ensures Next(w, Request(now, EVENT, 0.0, cs), ENV)
         == w.(state := w.state.(windowStart := Some(MinuteStart(now)), current := [Entry(KEY, row)]))
    ensures StepFlow(w, Request(now, EVENT, 0.0, cs), ENV, OfCell(Requests)) == STILL.(taken := n)
  {
    QuietRequest(w.state, now, cs, row, n);
    QuietFlow(w.state, now, cs, row, n);
  }

  /** After the first request, whose counters fill one row. */
  function AfterAsk(row: Row): World
  {
    START.(state := START.state.(windowStart := Some(0), current := [Entry(KEY, row)]))
  }

  /** The queue right after the open table is closed. */
  function Closed(row: Row): State
  {
    START.state.(
      windowStart := Some(0), closed := [0], windows := map[0 := Window(0, [Entry(KEY, row)], 100)],
      retained := 100, nextId := 1)
  }

  function Flight(row: Row): Inflight
  {
    Inflight(Batch(0, 0, 0, [], [CounterRow(0, KEY, Wired(row))]), [], [Ref(0, KEY)])
  }

  /** After the selection. */
  function AfterPick(row: Row): World
  {
    World(Closed(row).(seqNo := 1), Some(Flight(row)))
  }

  lemma FirstRequest(cs: seq<RawCounter>, row: Row, n: nat)
    requires Fills(cs, row, n)
    ensures Next(START, Request(0.0, EVENT, 0.0, cs), ENV) == AfterAsk(row)
    ensures StepFlow(START, Request(0.0, EVENT, 0.0, cs), ENV, OfCell(Requests)) == STILL.(taken := n)
  {
    assert MinuteStart(0.0) == 0;
    QuietStep(START, 0.0, cs, row, n);
  }

  lemma Closing(row: Row)
    ensures CloseAll(AfterAsk(row).state, 0.0, ENV) == Closed(row)
    ensures SelectPruned(AfterAsk(row).state, 0.0, ENV, Cells(Requests)) == 0
  {
    var s, c := AfterAsk(row).state, Closed(row);
    assert MinuteStart(0.0) == 0;
    assert Enqueue(s, 0.0, ENV) == c;
    assert AgedOut([0], c.windows, 0.0) == 0;
    assert Overflowing([0], c.windows, 100) == 0;
    assert Prune(c, 0.0) == c && Pruned(c, 0.0, Cells(Requests)) == 0;
  }

  lemma Lone(row: Row)
    ensures var t := [Entry(KEY, row)]; HasKey(t, KEY) && IndexOf(t, KEY) == 0 && Place(t, KEY) == InPlace
  {
    var t := [Entry(KEY, row)];
    assert t[0].key == KEY;
  }

  lemma Drafting(row: Row)
    ensures Draft(Closed(row), 0.0, 0, ENV) == Flight(row)
    ensures DropUnsendable(Closed(row), 0.0, ENV.parser) == Closed(row)
  {
    var ws := Closed(row).windows;
    assert RowRefs(0, ws[0].rows) == [Ref(0, KEY)];
    assert AllRefs([0][1..], ws) == [];
    assert AllRefs([0], ws) == [Ref(0, KEY)];
    Lone(row);
    assert RowAt(ws, Ref(0, KEY)) == row;
    assert WireRows([Ref(0, KEY)], ws, 0.0) == [CounterRow(0, KEY, Wired(row))];
    assert WireEvents([], 0.0, ENV.parser) == [];
  }

  lemma Selects(w: World, s: State, now: real, sentAtMs: int, c: State, f: Inflight)
    requires CloseAll(s, now, ENV) == c && SelectPruned(s, now, ENV, Cells(Requests)) == 0
    requires Draft(c, now, sentAtMs, ENV) == f && DropUnsendable(c, now, ENV.parser) == c && f.counterRefs != []
    requires w.state == s && Enabled(w, Selecting(now, sentAtMs))
    ensures Next(w, Selecting(now, sentAtMs), ENV) == World(c.(seqNo := c.seqNo + 1), Some(f))
    ensures StepFlow(w, Selecting(now, sentAtMs), ENV, OfCell(Requests)) == STILL
  {
    assert ENV.batchBytes(f.batch) == 0;
    assert Trim(f, ENV) == Some(f);
  }

  lemma Selection(row: Row)
    ensures Next(AfterAsk(row), PICK, ENV) == AfterPick(row)
    ensures StepFlow(AfterAsk(row), PICK, ENV, OfCell(Requests)) == STILL
  {
    Closing(row);
    Drafting(row);
    Selects(AfterAsk(row), AfterAsk(row).state, 0.0, 0, Closed(row), Flight(row));
  }
}
