/** Minute windows, told in numbers: when one closes, which a prune drops, in which order rows leave, and at what age. */
module Windows {
  import opened Values
  import opened Counters
  import opened Store
  import opened StoreLaws

  // ----- pruning -----

  /** Position i of the queue is a window more than a day old. */
  predicate Aged(s: State, now: real, i: nat)
    requires i < |s.closed|
  {
    s.closed[i] in s.windows && now - s.windows[s.closed[i]].start as real > 86_400.0
  }

  /** Once everything before position i is gone, the counter still says more than 512 KiB. */
  predicate Over(s: State, i: nat)
    requires i <= |s.closed|
  {
    s.retained - Total(s.closed[..i], s.windows, Bytes) > 524_288
  }

  lemma {:induction false} AgedOutIs(closed: seq<nat>, ws: map<nat, Window>, now: real)
    ensures var m := AgedOut(closed, ws, now);
      && (forall i :: 0 <= i < m ==> closed[i] in ws && now - ws[closed[i]].start as real > 86_400.0)
      && (m < |closed| ==> !(closed[m] in ws && now - ws[closed[m]].start as real > 86_400.0))
  {
    if closed != [] && closed[0] in ws && now - ws[closed[0]].start as real > 86_400.0 {
      AgedOutIs(closed[1..], ws, now);
      assert forall i :: 0 < i < |closed| ==> closed[i] == closed[1..][i - 1];
    }
  }

  lemma TotalNext(closed: seq<nat>, ws: map<nat, Window>, m: nat)
    requires m < |closed|
    ensures Total(closed[..m + 1], ws, Bytes) == Total(closed[..m], ws, Bytes) + WeightOf(closed[m], ws, Bytes)
  {
    assert closed[..m + 1] == closed[..m] + [closed[m]];
    TotalConcat(closed[..m], [closed[m]], ws, Bytes);
    assert [closed[m]][1..] == [];
  }

  /** How many windows the second loop drops once m are gone. */
  function OverflowAfter(s: State, m: nat): nat
    requires m <= |s.closed|
  {
    Overflowing(s.closed[m..], s.windows, s.retained - Total(s.closed[..m], s.windows, Bytes))
  }

  lemma {:induction false} OverflowIs(s: State, m: nat)
    requires m <= |s.closed|
    ensures var n := m + OverflowAfter(s, m);
      && n <= |s.closed| && (forall i :: m <= i < n ==> Over(s, i)) && (n < |s.closed| ==> !Over(s, n))
    decreases |s.closed| - m
  {
    if m < |s.closed| && Over(s, m) {
      assert s.closed[m..][1..] == s.closed[m + 1..];
      TotalNext(s.closed, s.windows, m);
      assert OverflowAfter(s, m) == 1 + OverflowAfter(s, m + 1);
      OverflowIs(s, m + 1);
    }
  }

  /** A prune drops from the front while the window there is aged, then while the counter is over, and nothing more. */
  lemma PruneIs(s: State, now: real) returns (m: nat, n: nat)
    ensures m <= n <= |s.closed| && Prune(s, now).closed == s.closed[n..]
    ensures forall i :: 0 <= i < m ==> Aged(s, now, i)
    ensures m < |s.closed| ==> !Aged(s, now, m)
    ensures forall i :: m <= i < n ==> Over(s, i)
    ensures n < |s.closed| ==> !Over(s, n)
  {
    m := AgedOut(s.closed, s.windows, now);
    n := m + OverflowAfter(s, m);
    AgedOutIs(s.closed, s.windows, now);
    OverflowIs(s, m);
    PrunedTo(s, now);
  }

  lemma PrunedTo(s: State, now: real)
    ensures var m := AgedOut(s.closed, s.windows, now);
      m + OverflowAfter(s, m) <= |s.closed| && Prune(s, now).closed == s.closed[m + OverflowAfter(s, m)..]
  {
  }

  lemma OverStops(s: State, i: nat, j: nat)
    requires i <= j <= |s.closed| && Over(s, j)
    ensures Over(s, i)
  {
    assert s.closed[..j] == s.closed[..i] + s.closed[i..j];
    TotalConcat(s.closed[..i], s.closed[i..j], s.windows, Bytes);
  }

  /** In a queue sorted by start a window goes if and only if it is more than a day old or the bytes from it on are too many. */
  lemma PruneIff(s: State, now: real) returns (n: nat)
    requires StartsSorted(s.closed, s.windows) && AllKnown(s.closed, s.windows)
    ensures n <= |s.closed| && Prune(s, now).closed == s.closed[n..]
    ensures forall i :: 0 <= i < |s.closed| ==> (i < n <==> Aged(s, now, i) || Over(s, i))
  {
    var m;
    m, n := PruneIs(s, now);
    forall i | 0 <= i < |s.closed| ensures i < n <==> Aged(s, now, i) || Over(s, i) {
      if i >= n && Over(s, i) {
        OverStops(s, n, i);
      }
      if i >= m && Aged(s, now, i) {
        assert s.windows[s.closed[m]].start <= s.windows[s.closed[i]].start;
      }
    }
  }

  lemma PruneFrame(s: State, now: real)
    ensures var s' := Prune(s, now);
      s' == s.(closed := s'.closed, retained := s'.retained, dropped := s'.dropped)
  {
    PruneAccounts(s, now, Bytes);
  }

  // ----- rolling -----

  /** The minute a reading falls in; readings below zero fall in the first one. */
  lemma MinuteStartIs(now: real)
    ensures var start := MinuteStart(now);
      && start % 60 == 0 && start as real <= Max(0.0, now) < start as real + 60.0
  {
    var x := Max(0.0, now) / 60.0;
    assert x.Floor as real <= x < x.Floor as real + 1.0;
    assert 60.0 * x == Max(0.0, now);
    assert MinuteStart(now) as real == 60.0 * x.Floor as real;
  }


  /** With the open table at a minute `start`, a reading closes it exactly from 60 seconds after that on. */
  lemma RollsIff(s: State, now: real, start: int)
    requires s.windowStart == Some(start) && start >= 0 && start % 60 == 0
    ensures Rolls(s, now) <==> now >= start as real + 60.0
  {
    MinuteStartIs(now);
    var minute := MinuteStart(now);
    assert minute > start <==> minute >= start + 60;
  }

  /** The table of a minute goes to the end of the queue whole, under that minute, before the prune; a new one begins. */
  lemma RollIs(s: State, now: real, start: int, env: Env)
    requires s.windowStart == Some(start) && start >= 0 && start % 60 == 0
    ensures now < start as real + 60.0 ==> Roll(s, now, env) == s
    ensures now >= start as real + 60.0 && s.current == [] ==>
      Roll(s, now, env) == s.(windowStart := Some(MinuteStart(now)))
    ensures now >= start as real + 60.0 && s.current != [] ==>
      var id, w := s.nextId, Window(start, s.current, env.windowBytes(s.current));
      var queued := s.(closed := s.closed + [id], windows := s.windows[id := w], nextId := id + 1,
                       retained := s.retained + w.size, current := [], windowStart := Some(MinuteStart(now)));
      Roll(s, now, env) == Prune(queued, now)
  {
    RollsIff(s, now, start);
    if Rolls(s, now) && s.current != [] {
      PruneFrame(Enqueue(s, now, env), now);
    }
  }

  /** A selection closes the open table even within its minute: its rows are all in one window, and none is left open. */
  lemma CloseAllIs(s: State, now: real, start: int, env: Env)
    requires s.windowStart == Some(start) && start >= 0 && start % 60 == 0 && s.current != []
    ensures var s' := CloseAll(s, now, env);
      && s'.current == [] && s'.windowStart == Some(MinuteStart(now))
      && s'.windows == s.windows[s.nextId := Window(start, s.current, env.windowBytes(s.current))]
      && s'.nextId == s.nextId + 1
  {
    RollIs(s, now, start, env);
    var rolled := Roll(s, now, env);
    if now >= start as real + 60.0 {
      PruneFrame(Enqueue(s, now, env), now);
      assert rolled.current == [] && Close(rolled, now, env) == rolled;
    } else {
      PruneFrame(Enqueue(s, now, env), now);
    }
    PruneFrame(Close(rolled, now, env), now);
  }

  // ----- drawing rows -----

  /** Every row of every queued window is named, window after window in queue order, row after row in table order. */
  lemma {:induction false} AllRefsIs(closed: seq<nat>, ws: map<nat, Window>, i: nat, j: nat)
    requires AllKnown(closed, ws)
    ensures |AllRefs(closed, ws)| == Total(closed, ws, Rows)
    ensures i < |closed| && j < |ws[closed[i]].rows| ==>
      var k := Total(closed[..i], ws, Rows) + j;
      k < |AllRefs(closed, ws)| && AllRefs(closed, ws)[k] == Ref(closed[i], ws[closed[i]].rows[j].key)
  {
    if closed != [] {
      AllRefsIs(closed[1..], ws, if i > 0 then i - 1 else 0, j);
      if 0 < i < |closed| {
        assert closed[..i][1..] == closed[1..][..i - 1];
      }
    }
  }

  /** A window's age in milliseconds, cut to whole ones and to a day. */
  ghost predicate IsAge(ageMs: int, start: int, now: real)
  {
    var ms := (now - start as real) * 1000.0;
    if ms < 0.0 then ageMs == 0
    else if ms >= 86_400_000.0 then ageMs == 86_400_000
    else ageMs as real <= ms < ageMs as real + 1.0
  }

  lemma AgeClamped(k: Key, r: Row, ws: map<nat, Window>, id: nat, now: real)
    requires id in ws
    ensures IsAge(WireRow(k, r, WindowAge(ws, id, now)).ageMs, ws[id].start, now)
  {
    var ms := (now - ws[id].start as real) * 1000.0;
    if ms >= 0.0 {
      assert ms.Floor as real <= ms < ms.Floor as real + 1.0;
    } else {
      assert (-ms).Floor >= 0;
    }
  }

  lemma {:induction false} ScanLimit(events: seq<Buffered>, now: real, limit: nat, p: Parser)
    ensures |Scan(events, now, limit, p).0| <= limit
    decreases |events|
  {
    if events != [] && limit > 0 {
      if W.WireEvent(events[0].event, now, p).Some? {
        ScanLimit(events[1..], now, limit - 1, p);
      } else {
        ScanLimit(events[1..], now, limit, p);
      }
    }
  }

  /** Rows from the front of the queue with their windows' ages, at most 100 events and 200 rows, and this number. */
  ghost predicate DrawnFrom(closed: State, f: Inflight, now: real, seqNo: nat)
  {
    && |f.eventRefs| <= 100 && |f.counterRefs| <= 200 && |f.batch.counters| == |f.counterRefs|
    && f.counterRefs <= AllRefs(closed.closed, closed.windows)
    && (forall i :: 0 <= i < |f.counterRefs| && f.counterRefs[i].window in closed.windows ==>
          IsAge(f.batch.counters[i].ageMs, closed.windows[f.counterRefs[i].window].start, now))
    && f.batch.seqNo == seqNo
  }

  /** A draft takes as many rows and events as there are, up to those limits. */
  lemma DraftIs(closed: State, now: real, sentAtMs: int, env: Env)
    ensures var d, rows := Draft(closed, now, sentAtMs, env), AllRefs(closed.closed, closed.windows);
      && DrawnFrom(closed, d, now, closed.seqNo)
      && |d.counterRefs| == (if |rows| <= 200 then |rows| else 200)
      && (AllSendable(closed.events, env.parser) ==>
            d.eventRefs == closed.events[..if |closed.events| <= 100 then |closed.events| else 100])
  {
    var d := Draft(closed, now, sentAtMs, env);
    ScanLimit(closed.events, now, 100, env.parser);
    if AllSendable(closed.events, env.parser) {
      ScanSendable(closed.events, now, 100, env.parser);
    }
    forall i | 0 <= i < |d.counterRefs| && d.counterRefs[i].window in closed.windows
      ensures IsAge(d.batch.counters[i].ageMs, closed.windows[d.counterRefs[i].window].start, now)
    {
      var ref := d.counterRefs[i];
      AgeClamped(ref.key, RowAt(closed.windows, ref), closed.windows, ref.window, now);
    }
  }

  lemma CutDrawn(closed: State, f: Inflight, d: Inflight, now: real, seqNo: nat)
    requires DrawnFrom(closed, d, now, seqNo) && CutOf(f, d)
    ensures DrawnFrom(closed, f, now, seqNo)
  {
    forall i | 0 <= i < |f.counterRefs|
      ensures f.counterRefs[i] == d.counterRefs[i] && f.batch.counters[i] == d.batch.counters[i]
    {
    }
  }

  lemma CloseFrame(s: State, now: real, env: Env)
    ensures Close(s, now, env).events == s.events && Close(s, now, env).seqNo == s.seqNo
  {
    if Closes(s) {
      PruneAccounts(Enqueue(s, now, env), now, Bytes);
    }
  }

  lemma CloseAllFrame(s: State, now: real, env: Env)
    ensures CloseAll(s, now, env).events == s.events && CloseAll(s, now, env).seqNo == s.seqNo
  {
    var rolled := Roll(s, now, env);
    CloseFrame(s, now, env);
    assert rolled.events == s.events && rolled.seqNo == s.seqNo;
    CloseFrame(rolled, now, env);
    PruneAccounts(Close(rolled, now, env), now, Bytes);
  }

  /**
    What a selection sends: the draft drawn from the queue once the open table is closed and pruned, or a longest part of it
    that fits into 65,536 bytes, under the next number.
   */
  lemma SelectIs(s: State, now: real, sentAtMs: int, env: Env)
    requires Select(s, now, sentAtMs, env).1.Some?
    ensures var f, d := Select(s, now, sentAtMs, env).1.value, Draft(CloseAll(s, now, env), now, sentAtMs, env);
      && DrawnFrom(CloseAll(s, now, env), f, now, s.seqNo) && f.batch.sentAtMs == sentAtMs
      && CutOf(f, d) && env.batchBytes(f.batch) <= 65_536 && Maximal(f, d, env)
    ensures Select(s, now, sentAtMs, env).0.seqNo == s.seqNo + 1
  {
    var closed := CloseAll(s, now, env);
    CloseAllFrame(s, now, env);
    var d := Draft(closed, now, sentAtMs, env);
    DraftIs(closed, now, sentAtMs, env);
    TrimLaws(d, env);
    assert Trim(d, env) == Select(s, now, sentAtMs, env).1;
    CutDrawn(closed, Trim(d, env).value, d, now, s.seqNo);
  }

  /** Nothing is sent exactly when there is nothing to send, or when not even the empty part of the draft fits. */
  lemma SelectsNothingIff(s: State, now: real, sentAtMs: int, env: Env)
    ensures var d := Draft(CloseAll(s, now, env), now, sentAtMs, env);
      Select(s, now, sentAtMs, env).1.None? <==> (d.eventRefs == [] && d.counterRefs == []) || NoneFits(d, env)
  {
    var d := Draft(CloseAll(s, now, env), now, sentAtMs, env);
    TrimLaws(d, env);
    if Trim(d, env).Some? {
      assert CutOf(Trim(d, env).value, d);
    }
  }
}
