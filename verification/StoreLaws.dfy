/** What one critical section keeps: totals over queued windows, the byte counter, the event buffer, batch alignment. */
module StoreLaws {
  import opened Values
  import opened Counters
  import opened Store

  // ----- totals over window queues -----

  ghost predicate Increasing(ids: seq<nat>)
  {
    forall i, j :: 0 <= i < j < |ids| ==> ids[i] < ids[j]
  }

  lemma {:induction false} TotalConcat(a: seq<nat>, b: seq<nat>, ws: map<nat, Window>, m: Measure)
    ensures Total(a + b, ws, m) == Total(a, ws, m) + Total(b, ws, m)
  {
    if a == [] {
      assert a + b == b;
    } else {
      assert (a + b)[1..] == a[1..] + b;
      TotalConcat(a[1..], b, ws, m);
    }
  }

  lemma TotalSplit(ids: seq<nat>, n: nat, ws: map<nat, Window>, m: Measure)
    requires n <= |ids|
    ensures Total(ids, ws, m) == Total(ids[..n], ws, m) + Total(ids[n..], ws, m)
  {
    assert ids == ids[..n] + ids[n..];
    TotalConcat(ids[..n], ids[n..], ws, m);
  }

  lemma {:induction false} TotalFrame(ids: seq<nat>, ws: map<nat, Window>, ws': map<nat, Window>, m: Measure)
    requires forall id :: id in ids ==> WeightOf(id, ws, m) == WeightOf(id, ws', m)
    ensures Total(ids, ws, m) == Total(ids, ws', m)
  {
    if ids != [] {
      assert ids[0] in ids;
      forall id | id in ids[1..] ensures WeightOf(id, ws, m) == WeightOf(id, ws', m) { assert id in ids; }
      TotalFrame(ids[1..], ws, ws', m);
    }
  }

  /** Replacing one window moves the total by that window's weight if it is queued, and not otherwise. */
  lemma {:induction false} TotalUpdate(ids: seq<nat>, ws: map<nat, Window>, id: nat, w: Window, m: Measure)
    requires Increasing(ids) && id in ws
    ensures Total(ids, ws[id := w], m) + (if id in ids then Weigh(ws[id], m) else 0)
         == Total(ids, ws, m) + (if id in ids then Weigh(w, m) else 0)
  {
    if ids != [] {
      if ids[0] == id {
        assert id !in ids[1..];
        TotalFrame(ids[1..], ws, ws[id := w], m);
      } else {
        TotalUpdate(ids[1..], ws, id, w, m);
      }
    }
  }

  // ----- pruning -----

  /** Pruning takes a prefix of the queue, weighing exactly what Pruned says, and accounts for its bytes and rows. */
  lemma PruneAccounts(s: State, now: real, m: Measure)
    ensures var s' := Prune(s, now);
      && (exists n :: 0 <= n <= |s.closed| && s'.closed == s.closed[n..])
      && Total(s'.closed, s.windows, m) + Pruned(s, now, m) == Total(s.closed, s.windows, m)
      && s'.retained == s.retained - Pruned(s, now, Bytes)
      && s'.dropped == s.dropped + Pruned(s, now, Rows)
      && s' == s.(closed := s'.closed, retained := s'.retained, dropped := s'.dropped)
  {
    var n := AgedOut(s.closed, s.windows, now);
    var aged := DropWindows(s, n);
    var k := Overflowing(aged.closed, aged.windows, aged.retained);
    TotalSplit(s.closed, n, s.windows, m);
    TotalSplit(aged.closed, k, s.windows, m);
    assert Prune(s, now).closed == s.closed[n + k..];
  }

  lemma {:induction false} OverflowingStops(closed: seq<nat>, ws: map<nat, Window>, retained: int)
    ensures var n := Overflowing(closed, ws, retained);
      n < |closed| ==> retained - Total(closed[..n], ws, Bytes) <= RETENTION_BYTES
  {
    if closed != [] && retained > RETENTION_BYTES {
      OverflowingStops(closed[1..], ws, retained - WeightOf(closed[0], ws, Bytes));
      var n := Overflowing(closed, ws, retained);
      assert closed[..n][1..] == closed[1..][..n - 1];
    }
  }

  /** After a prune the retained bytes are within the bound whenever the counter was the sum of the queued sizes. */
  lemma PruneBounds(s: State, now: real)
    requires s.retained == Total(s.closed, s.windows, Bytes)
    ensures Prune(s, now).retained == Total(Prune(s, now).closed, s.windows, Bytes) <= RETENTION_BYTES
  {
    PruneAccounts(s, now, Bytes);
    var aged := DropWindows(s, AgedOut(s.closed, s.windows, now));
    var k := Overflowing(aged.closed, aged.windows, aged.retained);
    OverflowingStops(aged.closed, aged.windows, aged.retained);
    if k == |aged.closed| {
      assert Prune(s, now).closed == [];
    }
  }

  ghost predicate StartsSorted(closed: seq<nat>, ws: map<nat, Window>)
  {
    forall i, j :: 0 <= i < j < |closed| && closed[i] in ws && closed[j] in ws ==>
      ws[closed[i]].start <= ws[closed[j]].start
  }

  ghost predicate NoneAged(closed: seq<nat>, ws: map<nat, Window>, now: real)
  {
    forall i :: 0 <= i < |closed| && closed[i] in ws ==> now - ws[closed[i]].start as real <= RETENTION_SECONDS
  }

  ghost predicate AllKnown(closed: seq<nat>, ws: map<nat, Window>)
  {
    forall i :: 0 <= i < |closed| ==> closed[i] in ws
  }

  lemma {:induction false} AgedOutStops(closed: seq<nat>, ws: map<nat, Window>, now: real)
    requires StartsSorted(closed, ws) && AllKnown(closed, ws)
    ensures NoneAged(closed[AgedOut(closed, ws, now)..], ws, now)
  {
    if closed != [] && now - ws[closed[0]].start as real > RETENTION_SECONDS {
      AgedOutStops(closed[1..], ws, now);
      var n := AgedOut(closed, ws, now);
      assert closed[n..] == closed[1..][n - 1..];
    } else if closed != [] {
      assert closed[AgedOut(closed, ws, now)..] == closed;
    }
  }

  /** A prune of a queue sorted by start leaves it sorted and holding no window past the retention age. */
  lemma PruneAges(s: State, now: real)
    requires StartsSorted(s.closed, s.windows) && AllKnown(s.closed, s.windows)
    ensures StartsSorted(Prune(s, now).closed, s.windows) && NoneAged(Prune(s, now).closed, s.windows, now)
  {
    AgedOutStops(s.closed, s.windows, now);
  }

  // ----- deleting delivered rows -----

  ghost predicate Distinct(refs: seq<Ref>)
  {
    forall i, j :: 0 <= i < j < |refs| ==> refs[i] != refs[j]
  }

  ghost predicate Keyed(ws: map<nat, Window>)
  {
    forall id :: id in ws ==> DistinctKeys(ws[id].rows)
  }

  /** What the referenced rows hold, each counted once. */
  function RefSum(refs: seq<Ref>, ws: map<nat, Window>, c: Cell): nat
  {
    if refs == [] then 0 else Count(RowAt(ws, refs[0]), c) + RefSum(refs[1..], ws, c)
  }

  /** The references whose window has left the queue. */
  function Stray(refs: seq<Ref>, closed: seq<nat>): seq<Ref>
  {
    if refs == [] then []
    else (if refs[0].window in closed then [] else [refs[0]]) + Stray(refs[1..], closed)
  }

  lemma DeleteKeyLaws(t: Table, k: Key, c: Cell)
    requires DistinctKeys(t)
    ensures DistinctKeys(DeleteKey(t, k))
    ensures !HasKey(DeleteKey(t, k), k)
    ensures Sum(DeleteKey(t, k), c, None) + (if HasKey(t, k) then Count(t[IndexOf(t, k)].row, c) else 0) == Sum(t, c, None)
  {
    var n := IndexOf(t, k);
    if n < |t| {
      SumSplitAt(t, n, c, None);
      SumConcat(t[..n], t[n + 1..], c, None);
    }
  }

  /** Deleting one key leaves every other key's row where a lookup finds it. */
  lemma DeleteKeyFrame(t: Table, k: Key, other: Key)
    requires DistinctKeys(t) && k != other
    ensures HasKey(DeleteKey(t, k), other) <==> HasKey(t, other)
    ensures HasKey(t, other) ==>
      DeleteKey(t, k)[IndexOf(DeleteKey(t, k), other)].row == t[IndexOf(t, other)].row
  {
    var n := IndexOf(t, k);
    if n < |t| {
      var u := DeleteKey(t, k);
      if HasKey(t, other) {
        var i := IndexOf(t, other);
        assert u[if i < n then i else i - 1] == t[i];
        var j := IndexOf(u, other);
        assert t[if j < n then j else j + 1] == u[j];
      }
      if HasKey(u, other) {
        var j := IndexOf(u, other);
        assert t[if j < n then j else j + 1] == u[j];
      }
    }
  }

  lemma DeleteRowFrame(ws: map<nat, Window>, ref: Ref, other: Ref)
    requires Keyed(ws) && ref != other
    ensures RowAt(DeleteRow(ws, ref), other) == RowAt(ws, other)
    ensures Hits(DeleteRow(ws, ref), other) <==> Hits(ws, other)
  {
    if Hits(ws, ref) && ref.window == other.window {
      DeleteKeyFrame(ws[ref.window].rows, ref.key, other.key);
    }
  }

  lemma {:induction false} RefSumFrame(refs: seq<Ref>, ws: map<nat, Window>, gone: Ref, c: Cell)
    requires Keyed(ws) && gone !in refs
    ensures RefSum(refs, DeleteRow(ws, gone), c) == RefSum(refs, ws, c)
  {
    if refs != [] {
      DeleteRowFrame(ws, gone, refs[0]);
      RefSumFrame(refs[1..], ws, gone, c);
    }
  }

  lemma {:induction false} StrayIncluded(refs: seq<Ref>, closed: seq<nat>, ref: Ref)
    requires ref !in refs
    ensures ref !in Stray(refs, closed)
  {
    if refs != [] {
      StrayIncluded(refs[1..], closed, ref);
    }
  }

  lemma DeleteRowTotal(closed: seq<nat>, ws: map<nat, Window>, ref: Ref, c: Cell)
    requires Keyed(ws) && Increasing(closed)
    ensures Keyed(DeleteRow(ws, ref)) && DeleteRow(ws, ref).Keys == ws.Keys
    ensures Total(closed, DeleteRow(ws, ref), Cells(c)) + (if ref.window in closed then Count(RowAt(ws, ref), c) else 0)
         == Total(closed, ws, Cells(c))
  {
    if Hits(ws, ref) {
      var w := ws[ref.window];
      DeleteKeyLaws(w.rows, ref.key, c);
      TotalUpdate(closed, ws, ref.window, w.(rows := DeleteKey(w.rows, ref.key)), Cells(c));
    }
  }

  /** Deleting a batch's rows takes exactly their worth out of the queue, except for rows whose window was pruned meanwhile. */
  lemma {:induction false} DeleteRowsTotal(closed: seq<nat>, ws: map<nat, Window>, refs: seq<Ref>, c: Cell)
    requires Keyed(ws) && Increasing(closed) && Distinct(refs)
    ensures Keyed(DeleteRows(ws, refs)) && DeleteRows(ws, refs).Keys == ws.Keys
    ensures Total(closed, DeleteRows(ws, refs), Cells(c)) + RefSum(refs, ws, c)
         == Total(closed, ws, Cells(c)) + RefSum(Stray(refs, closed), ws, c)
    decreases |refs|
  {
    if refs != [] {
      var ws' := DeleteRow(ws, refs[0]);
      DeleteRowTotal(closed, ws, refs[0], c);
      assert refs[0] !in refs[1..];
      RefSumFrame(refs[1..], ws, refs[0], c);
      StrayIncluded(refs[1..], closed, refs[0]);
      RefSumFrame(Stray(refs[1..], closed), ws, refs[0], c);
      DeleteRowsTotal(closed, ws', refs[1..], c);
      if refs[0].window in closed {
        assert Stray(refs, closed) == Stray(refs[1..], closed);
      } else {
        assert Stray(refs, closed)[1..] == Stray(refs[1..], closed);
      }
    }
  }

  /** The entries of a window's table that no reference names, in order. */
  function Surviving(rows: Table, id: nat, refs: seq<Ref>): Table
  {
    if rows == [] then []
    else (if Ref(id, rows[0].key) in refs then [] else [rows[0]]) + Surviving(rows[1..], id, refs)
  }

  lemma {:induction false} SurvivingAlike(rows: Table, id: nat, refs: seq<Ref>, others: seq<Ref>)
    requires forall i :: 0 <= i < |rows| ==> (Ref(id, rows[i].key) in refs <==> Ref(id, rows[i].key) in others)
    ensures Surviving(rows, id, refs) == Surviving(rows, id, others)
  {
    if rows != [] {
      assert Ref(id, rows[0].key) in refs <==> Ref(id, rows[0].key) in others;
      assert forall i :: 0 <= i < |rows[1..]| ==> rows[1..][i] == rows[i + 1];
      SurvivingAlike(rows[1..], id, refs, others);
    }
  }

  lemma {:induction false} SurvivingConcat(a: Table, b: Table, id: nat, refs: seq<Ref>)
    ensures Surviving(a + b, id, refs) == Surviving(a, id, refs) + Surviving(b, id, refs)
  {
    if a == [] {
      assert a + b == b;
    } else {
      assert (a + b)[1..] == a[1..] + b;
      SurvivingConcat(a[1..], b, id, refs);
    }
  }

  lemma SurvivingMiddle(head: Table, e: Entry, tail: Table, id: nat, refs: seq<Ref>)
    requires Ref(id, e.key) in refs
    ensures Surviving(head + [e] + tail, id, refs) == Surviving(head + tail, id, refs)
  {
    SurvivingConcat(head + [e], tail, id, refs);
    SurvivingConcat(head, [e], id, refs);
    SurvivingConcat(head, tail, id, refs);
    assert Surviving([e][1..], id, refs) == [];
  }

  /** Deleting a key and then filtering is filtering with one reference more. */
  lemma SurvivingDelete(rows: Table, id: nat, ref: Ref, refs: seq<Ref>)
    requires DistinctKeys(rows) && ref.window == id && ref !in refs
    ensures Surviving(DeleteKey(rows, ref.key), id, refs) == Surviving(rows, id, [ref] + refs)
  {
    var n := IndexOf(rows, ref.key);
    if n < |rows| {
      assert rows == rows[..n] + [rows[n]] + rows[n + 1..];
      SurvivingMiddle(rows[..n], rows[n], rows[n + 1..], id, [ref] + refs);
    }
    var left := DeleteKey(rows, ref.key);
    DeleteKeyLaws(rows, ref.key, Requests);
    SurvivingAlike(left, id, refs, [ref] + refs);
  }

  lemma {:induction false} SurvivingAll(rows: Table, id: nat)
    ensures Surviving(rows, id, []) == rows
  {
    if rows != [] {
      SurvivingAll(rows[1..], id);
    }
  }

  /** A batch's deletion leaves, in each window, exactly the rows the batch does not name, in order. */
  lemma {:induction false} DeleteRowsSurvivors(ws: map<nat, Window>, refs: seq<Ref>, id: nat)
    requires Keyed(ws) && Distinct(refs) && id in ws
    ensures id in DeleteRows(ws, refs) && DeleteRows(ws, refs)[id].rows == Surviving(ws[id].rows, id, refs)
    decreases |refs|
  {
    if refs == [] {
      SurvivingAll(ws[id].rows, id);
    } else {
      var ref, rest := refs[0], refs[1..];
      var ws' := DeleteRow(ws, ref);
      DeleteRowTotal([], ws, ref, Requests);
      assert ref !in rest && refs == [ref] + rest;
      DeleteRowsSurvivors(ws', rest, id);
      if ref.window == id {
        SurvivingDelete(ws[id].rows, id, ref, rest);
      } else {
        SurvivingAlike(ws[id].rows, id, rest, refs);
      }
    }
  }

  /** Rows a batch does not name are still found, unchanged; rows it names are gone. */
  lemma {:induction false} DeleteRowsFrame(ws: map<nat, Window>, refs: seq<Ref>, other: Ref)
    requires Keyed(ws)
    ensures other !in refs ==> RowAt(DeleteRows(ws, refs), other) == RowAt(ws, other)
    ensures Hits(DeleteRows(ws, refs), other) <==> Hits(ws, other) && other !in refs
    decreases |refs|
  {
    if refs != [] {
      var ref := refs[0];
      DeleteRowTotal([], ws, ref, Requests);
      DeleteRowsFrame(DeleteRow(ws, ref), refs[1..], other);
      assert refs == [ref] + refs[1..];
      if ref != other {
        DeleteRowFrame(ws, ref, other);
      } else if Hits(ws, ref) {
        DeleteKeyLaws(ws[ref.window].rows, ref.key, Requests);
      }
    }
  }

  // ----- what is sent -----

  /** What the rows of a batch say. */
  function WireSum(rows: seq<CounterRow>, c: Cell): nat
  {
    if rows == [] then 0 else Count(rows[0].row, c) + WireSum(rows[1..], c)
  }

  /** How sending misstates a cell of a row: `over` is what the clamp cuts off, otherwise what the floor of one request adds. */
  function Misstated(r: Row, c: Cell, over: bool): nat
  {
    if c.TotalMs? || c.FirstEventMs? then 0
    else if over then Excess(Count(r, c))
    else if c.Requests? && r.requests == 0 then 1 else 0
  }

  function MisstatedSum(refs: seq<Ref>, ws: map<nat, Window>, c: Cell, over: bool): nat
  {
    if refs == [] then 0 else Misstated(RowAt(ws, refs[0]), c, over) + MisstatedSum(refs[1..], ws, c, over)
  }

  /** The rows are the referenced ones as they are sent. */
  ghost predicate RowsWired(refs: seq<Ref>, rows: seq<CounterRow>, ws: map<nat, Window>)
  {
    |rows| == |refs| && forall i :: 0 <= i < |refs| ==> rows[i].row == Wired(RowAt(ws, refs[i]))
  }

  lemma WiredCell(r: Row, c: Cell)
    ensures Count(Wired(r), c) + Misstated(r, c, true) == Count(r, c) + Misstated(r, c, false)
  {
  }

  /** What is sent, plus what the clamp cut off, is what was stored, plus what the floor added. */
  lemma {:induction false} SentEquation(refs: seq<Ref>, rows: seq<CounterRow>, ws: map<nat, Window>, c: Cell)
    requires RowsWired(refs, rows, ws)
    ensures WireSum(rows, c) + MisstatedSum(refs, ws, c, true) == RefSum(refs, ws, c) + MisstatedSum(refs, ws, c, false)
    decreases |refs|
  {
    if refs != [] {
      WiredCell(RowAt(ws, refs[0]), c);
      SentEquation(refs[1..], rows[1..], ws, c);
    }
  }

  // ----- re-measuring windows -----

  ghost predicate Sized(ws: map<nat, Window>, env: Env)
  {
    forall id :: id in ws ==> ws[id].size == SizeOf(ws[id].rows, env)
  }

  /** Every window outside `except` has a size that matches its rows. */
  ghost predicate SizedBut(ws: map<nat, Window>, except: seq<nat>, env: Env)
  {
    forall id :: id in ws && id !in except ==> ws[id].size == SizeOf(ws[id].rows, env)
  }

  lemma {:induction false} ChangedCovers(ws: map<nat, Window>, refs: seq<Ref>, sofar: seq<nat>, env: Env)
    requires SizedBut(ws, sofar, env)
    ensures SizedBut(DeleteRows(ws, refs), Changed(ws, refs, sofar), env)
    ensures DeleteRows(ws, refs).Keys == ws.Keys
    decreases |refs|
  {
    if refs != [] {
      var next := if Hits(ws, refs[0]) && refs[0].window !in sofar then sofar + [refs[0].window] else sofar;
      ChangedCovers(DeleteRow(ws, refs[0]), refs[1..], next, env);
    }
  }

  /** Bytes subtracted from the retained counter for windows that were no longer in the queue. */
  function StrayShrink(s: State, ids: seq<nat>, env: Env): int
    decreases |ids|
  {
    if ids == [] then 0
    else if ids[0] !in s.windows then StrayShrink(s, ids[1..], env)
    else
      (if ids[0] in s.closed then 0 else s.windows[ids[0]].size - SizeOf(s.windows[ids[0]].rows, env))
      + StrayShrink(Resize(s, ids[0], env), ids[1..], env)
  }

  ghost predicate SameRows(ws: map<nat, Window>, ws': map<nat, Window>)
  {
    ws.Keys == ws'.Keys && forall id :: id in ws ==> ws'[id] == ws[id].(size := ws'[id].size)
  }

  /** Re-measuring keeps the byte counter in step with the queue, up to the strays. */
  lemma {:induction false} ResizeAllLaws(s: State, ids: seq<nat>, env: Env)
    requires Increasing(s.closed) && SizedBut(s.windows, ids, env)
    ensures var s' := ResizeAll(s, ids, env);
      && s' == s.(windows := s'.windows, retained := s'.retained)
      && SameRows(s.windows, s'.windows)
      && Sized(s'.windows, env)
      && s'.retained - Total(s.closed, s'.windows, Bytes)
         == s.retained - Total(s.closed, s.windows, Bytes) - StrayShrink(s, ids, env)
    decreases |ids|
  {
    if ids != [] {
      if ids[0] in s.windows {
        var w := s.windows[ids[0]];
        TotalUpdate(s.closed, s.windows, ids[0], w.(size := SizeOf(w.rows, env)), Bytes);
        var r := Resize(s, ids[0], env);
        forall id | id in r.windows && id !in ids[1..] ensures r.windows[id].size == SizeOf(r.windows[id].rows, env) {
          if id != ids[0] { assert id !in ids; }
        }
        ResizeAllLaws(r, ids[1..], env);
      } else {
        ResizeAllLaws(s, ids[1..], env);
      }
    }
  }

  lemma {:induction false} NonEmptyMembers(closed: seq<nat>, ws: map<nat, Window>)
    requires Increasing(closed)
    ensures forall id :: id in NonEmpty(closed, ws) <==> id in closed && id in ws && ws[id].rows != []
    ensures Increasing(NonEmpty(closed, ws))
  {
    if closed != [] {
      NonEmptyMembers(closed[1..], ws);
      var rest := NonEmpty(closed[1..], ws);
      var all := NonEmpty(closed, ws);
      forall i, j | 0 <= i < j < |all| ensures all[i] < all[j] {
        if |all| > |rest| && i == 0 {
          assert all[j] == rest[j - 1] && rest[j - 1] in rest;
        }
      }
    }
  }

  /** Dropping emptied windows from the queue changes no total, because an emptied window weighs nothing. */
  lemma {:induction false} NonEmptyTotal(closed: seq<nat>, ws: map<nat, Window>, m: Measure, env: Env)
    requires Sized(ws, env)
    ensures Total(NonEmpty(closed, ws), ws, m) == Total(closed, ws, m)
  {
    if closed != [] {
      NonEmptyTotal(closed[1..], ws, m, env);
      var head := if closed[0] in ws && ws[closed[0]].rows != [] then [closed[0]] else [];
      TotalConcat(head, NonEmpty(closed[1..], ws), ws, m);
      assert head != [] ==> Total(head, ws, m) == WeightOf(closed[0], ws, m) + Total([], ws, m);
    }
  }

  /** A subsequence of starts that were sorted is sorted. */
  lemma {:induction false} NonEmptySorted(closed: seq<nat>, ws: map<nat, Window>)
    requires StartsSorted(closed, ws) && AllKnown(closed, ws)
    ensures StartsSorted(NonEmpty(closed, ws), ws)
    ensures forall id :: id in NonEmpty(closed, ws) ==> id in closed
  {
    if closed != [] {
      NonEmptySorted(closed[1..], ws);
      var rest := NonEmpty(closed[1..], ws);
      forall id | id in rest ensures ws[closed[0]].start <= ws[id].start {
        assert id in closed[1..];
      }
    }
  }

  // ----- the event buffer -----

  ghost predicate Identified(events: seq<Buffered>)
  {
    forall i, j :: 0 <= i < j < |events| ==> events[i].id < events[j].id
  }

  lemma {:induction false} EventBytesConcat(a: seq<Buffered>, b: seq<Buffered>)
    ensures EventBytes(a + b) == EventBytes(a) + EventBytes(b)
  {
    if a == [] {
      assert a + b == b;
    } else {
      assert (a + b)[1..] == a[1..] + b;
      EventBytesConcat(a[1..], b);
    }
  }

  lemma EventBytesAppend(a: seq<Buffered>, b: Buffered)
    ensures EventBytes(a + [b]) == EventBytes(a) + b.bytes
  {
    EventBytesConcat(a, [b]);
    assert EventBytes([b]) == b.bytes + EventBytes([]);
  }

  lemma EventBytesRemove(a: seq<Buffered>, n: nat)
    requires n < |a|
    ensures EventBytes(a[..n] + a[n + 1..]) == EventBytes(a) - a[n].bytes
  {
    SplitAt(a, n);
    EventBytesAround(a[..n], a[n], a[n + 1..]);
  }

  lemma EventBytesAround(left: seq<Buffered>, b: Buffered, right: seq<Buffered>)
    ensures EventBytes(left + [b] + right) == EventBytes(left + right) + b.bytes
  {
    EventBytesAppend(left, b);
    EventBytesConcat(left + [b], right);
    EventBytesConcat(left, right);
  }

  /** At a full buffer exactly one event goes: an ok one while any is buffered, in whose absence the oldest. */
  lemma EvictionPrefersOk(s: State, event: W.RawEvent, env: Env)
    requires |s.events| == MAX_EVENTS && s.eventBytes == EventBytes(s.events)
    ensures var s' := AppendEvent(s, event, env);
      exists n :: 0 <= n < |s.events|
        && s'.events == s.events[..n] + s.events[n + 1..] + [Buffered(s.nextId, event, env.eventBytes(event))]
        && ((exists i :: 0 <= i < |s.events| && IsOk(s.events[i])) ==> IsOk(s.events[n]))
        && ((forall i :: 0 <= i < |s.events| ==> !IsOk(s.events[i])) ==> n == 0)
        && s'.eventBytes == EventBytes(s'.events) && s'.dropped == s.dropped + 1
  {
    var n := EvictionIndex(s.events);
    EventBytesRemove(s.events, n);
    EventBytesAppend(s.events[..n] + s.events[n + 1..], Buffered(s.nextId, event, env.eventBytes(event)));
    assert AppendEvent(s, event, env).events
        == s.events[..n] + s.events[n + 1..] + [Buffered(s.nextId, event, env.eventBytes(event))];
  }

  /** The events whose ids are given, in order. */
  function Among(events: seq<Buffered>, ids: set<nat>): seq<Buffered>
  {
    if events == [] then []
    else (if events[0].id in ids then [events[0]] else []) + Among(events[1..], ids)
  }

  lemma {:induction false} WithoutKeeps(events: seq<Buffered>, ids: set<nat>)
    requires Identified(events)
    ensures Identified(Without(events, ids))
    ensures forall b :: b in Without(events, ids) <==> b in events && b.id !in ids
  {
    if events != [] {
      WithoutKeeps(events[1..], ids);
      forall b | b in Without(events[1..], ids) ensures events[0].id < b.id { assert b in events[1..]; }
    }
  }

  /** Each event is either kept or among the removed. */
  lemma {:induction false} WithoutCounts(events: seq<Buffered>, ids: set<nat>)
    ensures |Without(events, ids)| + |Among(events, ids)| == |events|
  {
    if events != [] {
      WithoutCounts(events[1..], ids);
    }
  }

  // ----- selection -----

  /** Normalising the event again, at any time, succeeds and changes nothing but its age. */
  ghost predicate Sendable(b: Buffered, p: Parser)
  {
    forall t: real ::
      var w := W.WireEvent(b.event, t, p);
      w.Some? && w.value.(ageMs := Missing) == b.event.(ageMs := Missing, completedAt := Missing)
  }

  /** An event buffered by on_request is accepted by every later normalisation, so no selection throws it out. */
  lemma TakenIsSendable(e: W.RawEvent, now: real, rate: real, draw: real, id: nat, bytes: nat, p: Parser)
    requires Sample(e, now, rate, draw, p).Take?
    ensures Sendable(Buffered(id, Sample(e, now, rate, draw, p).event, bytes), p)
  {
    var (reason, r) := SampleReason(e, rate, draw, p).value;
    var candidate := e.(
      sampleReason := Str(reason), sampleRate := Float(Finite(r)), completedAt := Float(Finite(now)));
    forall t: real
      ensures var taken := Sample(e, now, rate, draw, p).event;
        var w := W.WireEvent(taken, t, p);
        w.Some? && w.value.(ageMs := Missing) == taken.(ageMs := Missing, completedAt := Missing)
    {
      W.WireEventIdempotent(candidate, now, Float(Finite(now)), t, p);
    }
  }

  /** With a sampling rate in [0, 1], only an event without a mapping among its first sixteen attempts is counted invalid. */
  lemma InvalidIff(e: W.RawEvent, now: real, rate: real, draw: real, p: Parser)
    requires 0.0 <= rate <= 1.0
    ensures Sample(e, now, rate, draw, p).Invalid?
       <==> SampleReason(e, rate, draw, p).Some?
            && !(e.attempts.List?
                 && exists i :: 0 <= i < |e.attempts.items| && i < W.MAX_WIRE_ATTEMPTS && e.attempts.items[i].Dict?)
  {
    if e.attempts.List? {
      HasDict(W.FirstAttempts(e.attempts.items), p);
      var first := W.FirstAttempts(e.attempts.items);
      if i :| 0 <= i < |e.attempts.items| && i < W.MAX_WIRE_ATTEMPTS && e.attempts.items[i].Dict? {
        assert first[i].Dict?;
      }
      if i :| 0 <= i < |first| && first[i].Dict? {
        assert e.attempts.items[i].Dict?;
      }
    }
    assert "failure" in W.SAMPLE_REASONS && "retried" in W.SAMPLE_REASONS
        && "slow" in W.SAMPLE_REASONS && "random" in W.SAMPLE_REASONS;
  }

  lemma {:induction false} HasDict(items: seq<Value>, p: Parser)
    ensures W.WireAttempts(items, p) != [] <==> exists i :: 0 <= i < |items| && items[i].Dict?
  {
    if items != [] {
      HasDict(items[1..], p);
      if !items[0].Dict? {
        if i :| 0 <= i < |items| && items[i].Dict? { assert items[1..][i - 1].Dict?; }
        if i :| 0 <= i < |items[1..]| && items[1..][i].Dict? { assert items[i + 1].Dict?; }
      }
    }
  }

  ghost predicate AllSendable(events: seq<Buffered>, p: Parser)
  {
    forall i :: 0 <= i < |events| ==> Sendable(events[i], p)
  }

  predicate Passes(b: Buffered, now: real, p: Parser)
  {
    W.WireEvent(b.event, now, p).Some?
  }

  lemma {:induction false} ScanAll(events: seq<Buffered>, now: real, limit: nat, n: nat, p: Parser)
    requires forall b :: b in events ==> Passes(b, now, p)
    requires n == if |events| <= limit then |events| else limit
    ensures Scan(events, now, limit, p) == (events[..n], [])
  {
    if n > 0 {
      ScanPassing(events, now, limit, p);
      ScanAll(events[1..], now, limit - 1, n - 1, p);
      assert events[..n] == [events[0]] + events[1..][..n - 1];
    }
  }

  lemma ScanPassing(events: seq<Buffered>, now: real, limit: nat, p: Parser)
    requires events != [] && limit > 0 && Passes(events[0], now, p)
    ensures Scan(events, now, limit, p)
         == ([events[0]] + Scan(events[1..], now, limit - 1, p).0, Scan(events[1..], now, limit - 1, p).1)
  {
  }

  lemma ScanSendable(events: seq<Buffered>, now: real, limit: nat, p: Parser)
    requires AllSendable(events, p)
    ensures Scan(events, now, limit, p) == (events[..if |events| <= limit then |events| else limit], [])
  {
    forall b | b in events ensures Passes(b, now, p) {
      assert Sendable(b, p);
    }
    ScanAll(events, now, limit, if |events| <= limit then |events| else limit, p);
  }

  lemma {:induction false} AllRefsLaws(closed: seq<nat>, ws: map<nat, Window>)
    requires Increasing(closed) && Keyed(ws)
    ensures Distinct(AllRefs(closed, ws))
    ensures forall r :: r in AllRefs(closed, ws) ==> r.window in closed && Hits(ws, r)
  {
    if closed != [] {
      AllRefsLaws(closed[1..], ws);
      var head := if closed[0] in ws then RowRefs(closed[0], ws[closed[0]].rows) else [];
      var rest := AllRefs(closed[1..], ws);
      forall r | r in head ensures r.window == closed[0] && Hits(ws, r) {
        var i :| 0 <= i < |head| && head[i] == r;
        assert ws[closed[0]].rows[i].key == r.key;
      }
      forall r | r in rest ensures r.window != closed[0] { assert r.window in closed[1..]; }
      var all := AllRefs(closed, ws);
      forall i, j | 0 <= i < j < |all| ensures all[i] != all[j] {
        if i < |head| && j >= |head| {
          assert all[i] in head && all[j] in rest;
        }
      }
    }
  }

  /** `f` is `d` cut short: fewer events, or all events gone and fewer counters. */
  ghost predicate CutOf(f: Inflight, d: Inflight)
  {
    && |f.eventRefs| <= |d.eventRefs| && |f.counterRefs| <= |d.counterRefs|
    && |d.batch.events| == |d.eventRefs| && |d.batch.counters| == |d.counterRefs|
    && f.eventRefs == d.eventRefs[..|f.eventRefs|]
    && f.counterRefs == d.counterRefs[..|f.counterRefs|]
    && f.batch == d.batch.(events := d.batch.events[..|f.eventRefs|], counters := d.batch.counters[..|f.counterRefs|])
    && (|f.counterRefs| < |d.counterRefs| ==> f.eventRefs == [])
  }

  /** The result is a longest fitting cut: one element fewer popped would still be too big. */
  ghost predicate Maximal(f: Inflight, d: Inflight, env: Env)
    requires CutOf(f, d)
  {
    forall g: Inflight :: CutOf(g, d) && |f.eventRefs| + |f.counterRefs| < |g.eventRefs| + |g.counterRefs|
      ==> env.batchBytes(g.batch) > MAX_BATCH_BYTES
  }

  ghost predicate NoneFits(d: Inflight, env: Env)
  {
    forall g: Inflight :: CutOf(g, d) ==> env.batchBytes(g.batch) > MAX_BATCH_BYTES
  }

  /** A batch after one event is popped from it. */
  ghost function EventPopped(d: Inflight): (e: Inflight)
    requires |d.batch.events| == |d.eventRefs| > 0 && |d.batch.counters| == |d.counterRefs|
    ensures CutOf(e, d) && |e.eventRefs| + 1 == |d.eventRefs| && e.counterRefs == d.counterRefs
  {
    var n := |d.eventRefs| - 1;
    d.(batch := d.batch.(events := d.batch.events[..n]), eventRefs := d.eventRefs[..n])
  }

  /** A batch without events after one counter is popped from it. */
  ghost function CounterPopped(d: Inflight): (e: Inflight)
    requires |d.batch.events| == |d.eventRefs| == 0 && |d.batch.counters| == |d.counterRefs| > 0
    ensures CutOf(e, d) && e.eventRefs == [] && |e.counterRefs| + 1 == |d.counterRefs|
  {
    var n := |d.counterRefs| - 1;
    d.(batch := d.batch.(counters := d.batch.counters[..n]), counterRefs := d.counterRefs[..n])
  }

  /** Trimming keeps references and wire rows aligned, fits the byte cap, and pops no more than it must. */
  lemma {:induction false} TrimLaws(d: Inflight, env: Env)
    requires |d.batch.events| == |d.eventRefs| && |d.batch.counters| == |d.counterRefs|
    ensures Trim(d, env).Some? ==>
      var f := Trim(d, env).value;
      CutOf(f, d) && env.batchBytes(f.batch) <= MAX_BATCH_BYTES && Maximal(f, d, env)
    ensures Trim(d, env).None? ==> NoneFits(d, env)
    decreases |d.eventRefs| + |d.counterRefs|
  {
    if env.batchBytes(d.batch) <= MAX_BATCH_BYTES {
      CutOfSelf(d);
    } else if d.eventRefs != [] {
      var e := EventPopped(d);
      TrimLaws(e, env);
      TrimStep(d, e, env);
    } else if d.counterRefs != [] {
      var e := CounterPopped(d);
      TrimLaws(e, env);
      TrimStep(d, e, env);
    } else {
      forall g: Inflight | CutOf(g, d) ensures g.batch == d.batch {
        CutOfEmpty(g, d);
      }
    }
  }

  lemma CutOfSelf(d: Inflight)
    requires |d.batch.events| == |d.eventRefs| && |d.batch.counters| == |d.counterRefs|
    ensures CutOf(d, d)
  {
  }

  lemma CutOfEmpty(g: Inflight, d: Inflight)
    requires CutOf(g, d) && d.eventRefs == [] && d.counterRefs == []
    ensures g.batch == d.batch
  {
  }

  /** A cut of `d` other than `d` itself is a cut of `d` after one pop. */
  lemma CutAfterPop(g: Inflight, d: Inflight, e: Inflight)
    requires CutOf(g, d) && CutOf(e, d)
    requires |e.eventRefs| + |e.counterRefs| + 1 == |d.eventRefs| + |d.counterRefs|
    requires |g.eventRefs| + |g.counterRefs| < |d.eventRefs| + |d.counterRefs|
    ensures CutOf(g, e)
  {
    assert e.batch.events[..|g.eventRefs|] == d.batch.events[..|g.eventRefs|];
    assert e.batch.counters[..|g.counterRefs|] == d.batch.counters[..|g.counterRefs|];
    assert e.eventRefs[..|g.eventRefs|] == d.eventRefs[..|g.eventRefs|];
    assert e.counterRefs[..|g.counterRefs|] == d.counterRefs[..|g.counterRefs|];
  }

  lemma CutTransitive(f: Inflight, e: Inflight, d: Inflight)
    requires CutOf(f, e) && CutOf(e, d)
    ensures CutOf(f, d)
  {
    assert e.batch.events[..|f.eventRefs|] == d.batch.events[..|f.eventRefs|];
    assert e.batch.counters[..|f.counterRefs|] == d.batch.counters[..|f.counterRefs|];
    assert e.eventRefs[..|f.eventRefs|] == d.eventRefs[..|f.eventRefs|];
    assert e.counterRefs[..|f.counterRefs|] == d.counterRefs[..|f.counterRefs|];
  }

  lemma TrimStep(d: Inflight, e: Inflight, env: Env)
    requires CutOf(e, d) && |e.eventRefs| + |e.counterRefs| + 1 == |d.eventRefs| + |d.counterRefs|
    requires env.batchBytes(d.batch) > MAX_BATCH_BYTES
    requires Trim(e, env) == Trim(d, env)
    requires Trim(e, env).Some? ==>
      CutOf(Trim(e, env).value, e) && Maximal(Trim(e, env).value, e, env)
    requires Trim(e, env).None? ==> NoneFits(e, env)
    ensures Trim(d, env).Some? ==> CutOf(Trim(d, env).value, d) && Maximal(Trim(d, env).value, d, env)
    ensures Trim(d, env).None? ==> NoneFits(d, env)
  {
    var f := Trim(e, env);
    if f.Some? {
      CutTransitive(f.value, e, d);
    }
    forall g: Inflight | CutOf(g, d)
      && (f.Some? ==> |f.value.eventRefs| + |f.value.counterRefs| < |g.eventRefs| + |g.counterRefs|)
      ensures env.batchBytes(g.batch) > MAX_BATCH_BYTES
    {
      if |g.eventRefs| + |g.counterRefs| == |d.eventRefs| + |d.counterRefs| {
        assert g.batch == d.batch;
      } else {
        CutAfterPop(g, d, e);
      }
    }
  }

  /** A row whose counts are in range, with at least one request, crosses the wire unchanged. */
  lemma WireRowExactIff(k: Key, r: Row, ageMs: int)
    ensures WireRow(k, r, ageMs).row == r <==> Sendworthy(r)
  {
  }

  /** At least one request, and none of the four numbers above the clamp. */
  predicate Sendworthy(r: Row)
  {
    && 1 <= r.requests <= MAX_COUNT && r.attempts <= MAX_COUNT
    && r.failoverUsed <= MAX_COUNT && r.firstAttemptSuccess <= MAX_COUNT
  }
}
