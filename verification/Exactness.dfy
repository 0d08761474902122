/** Exactly when the correction terms of the ledgers are zero, and exactly when the byte counter is right, on every run. */
module Exactness {
  import opened Values
  import opened Counters
  import opened Store
  import opened StoreLaws
  import opened Runs
  import opened Ledgers
  import opened Histories

  // ----- nothing discarded twice -----

  /** What an answer removes from windows that already left the queue holds nothing in this cell. */
  predicate NothingGone(w: World, step: Step, c: Cell)
  {
    Removes(w, step) ==>
      var refs := w.inflight.value.counterRefs;
      forall i :: 0 <= i < |refs| && refs[i].window !in w.state.closed ==> Count(RowAt(w.state.windows, refs[i]), c) == 0
  }

  predicate AllNothingGone(w: World, steps: seq<Step>, env: Env, c: Cell)
    requires Possible(w, steps, env)
    decreases |steps|
  {
    steps == [] || (NothingGone(w, steps[0], c) && AllNothingGone(Next(w, steps[0], env), steps[1..], env, c))
  }

  lemma {:induction false} StrayHoldsNothing(refs: seq<Ref>, closed: seq<nat>, ws: map<nat, Window>, c: Cell)
    ensures RefSum(Stray(refs, closed), ws, c) == 0
       <==> forall i :: 0 <= i < |refs| && refs[i].window !in closed ==> Count(RowAt(ws, refs[i]), c) == 0
  {
    if refs != [] {
      var rest := refs[1..];
      StrayHoldsNothing(rest, closed, ws, c);
      if refs[0].window in closed {
        assert Stray(refs, closed) == Stray(rest, closed);
      } else {
        assert Stray(refs, closed)[1..] == Stray(rest, closed);
      }
      assert forall i :: 0 < i < |refs| ==> refs[i] == rest[i - 1];
      assert forall i :: 0 <= i < |rest| ==> rest[i] == refs[i + 1];
    }
  }

  /** One step counts nothing of a cell twice if and only if what it removes from pruned windows is empty there. */
  lemma TwiceFreeIff(w: World, step: Step, env: Env, c: Cell)
    requires Enabled(w, step)
    ensures StepFlow(w, step, env, OfCell(c)).twice == 0 <==> NothingGone(w, step, c)
  {
    if Removes(w, step) {
      StrayHoldsNothing(w.inflight.value.counterRefs, w.state.closed, w.state.windows, c);
    }
  }

  /** A run counts nothing of a cell twice if and only if none of its steps does. */
  lemma {:induction false} RunTwiceFreeIff(w: World, steps: seq<Step>, env: Env, c: Cell)
    requires Possible(w, steps, env)
    ensures RunFlow(w, steps, env, OfCell(c)).twice == 0 <==> AllNothingGone(w, steps, env, c)
    decreases |steps|
  {
    if steps != [] {
      TwiceFreeIff(w, steps[0], env, c);
      RunTwiceFreeIff(Next(w, steps[0], env), steps[1..], env, c);
    }
  }

  // ----- nothing misstated on the wire -----

  /** Every row of a batch answered 202 is sent as it is stored. */
  predicate SentAsStored(w: World, step: Step)
  {
    step.Responding? && w.inflight.Some? && Delivers(step.response) ==>
      var refs := w.inflight.value.counterRefs;
      forall i :: 0 <= i < |refs| ==> Sendworthy(RowAt(w.state.windows, refs[i]))
  }

  lemma {:induction false} MisstatesNothing(refs: seq<Ref>, ws: map<nat, Window>, c: Cell, over: bool)
    ensures MisstatedSum(refs, ws, c, over) == 0
       <==> forall i :: 0 <= i < |refs| ==> Misstated(RowAt(ws, refs[i]), c, over) == 0
  {
    if refs != [] {
      var rest := refs[1..];
      MisstatesNothing(rest, ws, c, over);
      assert forall i :: 0 < i < |refs| ==> refs[i] == rest[i - 1];
      assert forall i :: 0 <= i < |rest| ==> rest[i] == refs[i + 1];
    }
  }

  /** A row is misstated in no cell exactly when it can be sent as it is. */
  lemma SendworthyIff(r: Row)
    ensures Sendworthy(r) <==> forall c: Cell, over: bool :: Misstated(r, c, over) == 0
  {
    if forall c: Cell, over: bool :: Misstated(r, c, over) == 0 {
      assert Misstated(r, Requests, true) == 0 && Misstated(r, Requests, false) == 0;
      assert Misstated(r, Attempts, true) == 0;
      assert Misstated(r, FailoverUsed, true) == 0;
      assert Misstated(r, FirstAttemptSuccess, true) == 0;
    }
  }

  /** No cell of a batch is misstated, over or under, if and only if every row it carries can be sent as it is. */
  lemma MisstatesNothingIff(refs: seq<Ref>, ws: map<nat, Window>)
    ensures (forall c: Cell, over: bool :: MisstatedSum(refs, ws, c, over) == 0)
       <==> forall i :: 0 <= i < |refs| ==> Sendworthy(RowAt(ws, refs[i]))
  {
    if forall c: Cell, over: bool :: MisstatedSum(refs, ws, c, over) == 0 {
      forall i | 0 <= i < |refs| ensures Sendworthy(RowAt(ws, refs[i])) {
        forall c: Cell, over: bool ensures Misstated(RowAt(ws, refs[i]), c, over) == 0 {
          assert MisstatedSum(refs, ws, c, over) == 0;
          MisstatesNothing(refs, ws, c, over);
        }
        SendworthyIff(RowAt(ws, refs[i]));
      }
    } else {
      var c: Cell, over: bool :| MisstatedSum(refs, ws, c, over) != 0;
      MisstatesNothing(refs, ws, c, over);
      var i :| 0 <= i < |refs| && Misstated(RowAt(ws, refs[i]), c, over) != 0;
      SendworthyIff(RowAt(ws, refs[i]));
    }
  }

  /** The rows of a batch in flight are the stored ones, one by one, if and only if each can be sent as it is. */
  lemma BatchIsStoredIff(s: State, f: Inflight, env: Env)
    requires ValidFlight(s, f, env)
    ensures (forall i :: 0 <= i < |f.counterRefs| ==> f.batch.counters[i].row == RowAt(s.windows, f.counterRefs[i]))
       <==> forall i :: 0 <= i < |f.counterRefs| ==> Sendworthy(RowAt(s.windows, f.counterRefs[i]))
  {
    forall i | 0 <= i < |f.counterRefs|
      ensures f.batch.counters[i].row == RowAt(s.windows, f.counterRefs[i])
         <==> Sendworthy(RowAt(s.windows, f.counterRefs[i]))
    {
      var ref := f.counterRefs[i];
      WireRowExactIff(ref.key, RowAt(s.windows, ref), f.batch.counters[i].ageMs);
    }
  }

  // ----- all four terms -----

  /** Every row the step folds is within the clamp. */
  ghost predicate FoldsClean(w: World, step: Step, env: Env)
  {
    step.Request? && !w.state.disabled && !w.state.shut ==>
      AllFoldsInRange(Roll(w.state, step.now, env).current, step.counters, env.parser)
  }

  /** Folds within the clamp, removals from pruned windows empty in every cell, and rows sent as stored. */
  ghost predicate Clean(w: World, step: Step, env: Env)
  {
    FoldsClean(w, step, env) && (forall c: Cell :: NothingGone(w, step, c)) && SentAsStored(w, step)
  }

  ghost predicate AllClean(w: World, steps: seq<Step>, env: Env)
    requires Possible(w, steps, env)
    decreases |steps|
  {
    steps == [] || (Clean(w, steps[0], env) && AllClean(Next(w, steps[0], env), steps[1..], env))
  }

  /** No correction term. */
  predicate Faithful(f: Flow)
  {
    f.lost == 0 && f.twice == 0 && f.clipped == 0 && f.invented == 0
  }

  ghost predicate StepFaithful(w: World, step: Step, env: Env)
    requires Enabled(w, step)
  {
    forall c: Cell :: Faithful(StepFlow(w, step, env, OfCell(c)))
  }

  ghost predicate RunFaithful(w: World, steps: seq<Step>, env: Env)
    requires Possible(w, steps, env)
  {
    forall c: Cell :: Faithful(RunFlow(w, steps, env, OfCell(c)))
  }

  lemma LostFreeIff(w: World, step: Step, env: Env)
    requires Enabled(w, step)
    ensures (forall c: Cell :: StepFlow(w, step, env, OfCell(c)).lost == 0) <==> FoldsClean(w, step, env)
  {
    if step.Request? && !w.state.disabled && !w.state.shut {
      var table := Roll(w.state, step.now, env).current;
      LossFreeIff(table, step.counters, env.parser);
      assert forall c: Cell ::
        StepFlow(w, step, env, OfCell(c)).lost == LossOf(table, step.counters, env.parser, c);
    }
  }

  /** What the wire misstates in a step's batch, or nothing when the step delivers none. */
  lemma WireTerms(w: World, step: Step, env: Env, c: Cell)
    requires Enabled(w, step)
    ensures var flow := StepFlow(w, step, env, OfCell(c));
      if step.Responding? && Delivers(step.response) then
        var refs, ws := w.inflight.value.counterRefs, w.state.windows;
        flow.clipped == MisstatedSum(refs, ws, c, true) && flow.invented == MisstatedSum(refs, ws, c, false)
      else flow.clipped == 0 && flow.invented == 0
  {
  }

  ghost predicate WireFree(w: World, step: Step, env: Env)
    requires Enabled(w, step)
  {
    forall c: Cell :: StepFlow(w, step, env, OfCell(c)).clipped == 0 && StepFlow(w, step, env, OfCell(c)).invented == 0
  }

  lemma WireFreeIff(w: World, step: Step, env: Env)
    requires Enabled(w, step)
    ensures WireFree(w, step, env) <==> SentAsStored(w, step)
  {
    forall c: Cell { WireTerms(w, step, env, c); }
    if step.Responding? && Delivers(step.response) {
      var refs, ws := w.inflight.value.counterRefs, w.state.windows;
      MisstatesNothingIff(refs, ws);
      if SentAsStored(w, step) {
        forall c: Cell
          ensures StepFlow(w, step, env, OfCell(c)).clipped == 0 && StepFlow(w, step, env, OfCell(c)).invented == 0
        {
          WireTerms(w, step, env, c);
          assert MisstatedSum(refs, ws, c, true) == 0 && MisstatedSum(refs, ws, c, false) == 0;
        }
      } else {
        var c: Cell, over: bool :| MisstatedSum(refs, ws, c, over) != 0;
        WireTerms(w, step, env, c);
      }
    }
  }

  lemma StepFaithfulIff(w: World, step: Step, env: Env)
    requires Enabled(w, step)
    ensures StepFaithful(w, step, env) <==> Clean(w, step, env)
  {
    LostFreeIff(w, step, env);
    WireFreeIff(w, step, env);
    forall c: Cell ensures StepFlow(w, step, env, OfCell(c)).twice == 0 <==> NothingGone(w, step, c) {
      TwiceFreeIff(w, step, env, c);
    }
    if StepFaithful(w, step, env) {
      forall c: Cell ensures Faithful(StepFlow(w, step, env, OfCell(c))) {}
    }
    if Clean(w, step, env) {
      forall c: Cell ensures Faithful(StepFlow(w, step, env, OfCell(c))) { assert NothingGone(w, step, c); }
    }
  }

  /**
    On a run every correction term of every counter is zero if and only if each step is clean: each row folded is
    within the clamp, each row removed from a pruned window is empty, and each row delivered can be sent as it is.
   */
  lemma {:induction false} RunFaithfulIff(w: World, steps: seq<Step>, env: Env)
    requires Possible(w, steps, env)
    ensures RunFaithful(w, steps, env) <==> AllClean(w, steps, env)
    decreases |steps|
  {
    if steps != [] {
      var next := Next(w, steps[0], env);
      StepFaithfulIff(w, steps[0], env);
      RunFaithfulIff(next, steps[1..], env);
      RunFaithfulStep(w, steps, env);
    }
  }

  lemma RunFaithfulStep(w: World, steps: seq<Step>, env: Env)
    requires Possible(w, steps, env) && steps != []
    ensures RunFaithful(w, steps, env)
       <==> StepFaithful(w, steps[0], env) && RunFaithful(Next(w, steps[0], env), steps[1..], env)
  {
    var next := Next(w, steps[0], env);
    forall c: Cell
      ensures Faithful(RunFlow(w, steps, env, OfCell(c)))
         <==> Faithful(StepFlow(w, steps[0], env, OfCell(c))) && Faithful(RunFlow(next, steps[1..], env, OfCell(c)))
    {
      FaithfulPlus(StepFlow(w, steps[0], env, OfCell(c)), RunFlow(next, steps[1..], env, OfCell(c)));
    }
    if RunFaithful(w, steps, env) {
      forall c: Cell ensures Faithful(StepFlow(w, steps[0], env, OfCell(c))) {
        assert Faithful(RunFlow(w, steps, env, OfCell(c)));
      }
      forall c: Cell ensures Faithful(RunFlow(next, steps[1..], env, OfCell(c))) {
        assert Faithful(RunFlow(w, steps, env, OfCell(c)));
      }
    }
  }

  lemma FaithfulPlus(a: Flow, b: Flow)
    ensures Faithful(Plus(a, b)) <==> Faithful(a) && Faithful(b)
  {
  }

  /**
    Each accepted increment is counted exactly once, among the open table, the closed windows, the rows of batches
    answered 202 as they were sent, and explicit discards, on every clean run.
   */
  lemma CountedExactlyOnce(sampleRate: real, flushSeconds: real, steps: seq<Step>, env: Env, c: Cell)
    requires 0.0 <= sampleRate <= 1.0 && 0.0 < flushSeconds <= BACKOFF_MAX
    requires Possible(Initial(sampleRate, flushSeconds), steps, env)
    requires AllClean(Initial(sampleRate, flushSeconds), steps, env)
    ensures var start := Initial(sampleRate, flushSeconds);
      var flow := RunFlow(start, steps, env, OfCell(c));
      var s := Exec(start, steps, env).state;
      Sum(s.current, c, None) + Total(s.closed, s.windows, Cells(c)) + flow.delivered + flow.discarded == flow.taken
  {
    var start := Initial(sampleRate, flushSeconds);
    Conservation(sampleRate, flushSeconds, steps, env, OfCell(c));
    RunFaithfulIff(start, steps, env);
    assert Faithful(RunFlow(start, steps, env, OfCell(c)));
  }

  // ----- the byte counter -----

  /** Deleting a row makes a window smaller, as it does in JSON. */
  ghost predicate Shrinks(env: Env)
  {
    forall t: Table, k: Key :: HasKey(t, k) ==> SizeOf(DeleteKey(t, k), env) < SizeOf(t, env)
  }

  lemma {:induction false} DeletingNeverGrows(ws: map<nat, Window>, refs: seq<Ref>, id: nat, env: Env)
    requires Shrinks(env) && id in ws
    ensures id in DeleteRows(ws, refs) && SizeOf(DeleteRows(ws, refs)[id].rows, env) <= SizeOf(ws[id].rows, env)
    decreases |refs|
  {
    if refs != [] {
      DeletingNeverGrows(DeleteRow(ws, refs[0]), refs[1..], id, env);
    }
  }

  lemma DeletingOne(ws: map<nat, Window>, ref: Ref, id: nat, env: Env)
    requires Shrinks(env) && id in ws
    ensures id in DeleteRow(ws, ref) && SizeOf(DeleteRow(ws, ref)[id].rows, env) <= SizeOf(ws[id].rows, env)
    ensures Hits(ws, ref) && ref.window == id ==> SizeOf(DeleteRow(ws, ref)[id].rows, env) < SizeOf(ws[id].rows, env)
  {
  }

  lemma {:induction false} DeletingShrinks(ws: map<nat, Window>, refs: seq<Ref>, i: nat, env: Env)
    requires Shrinks(env) && Keyed(ws) && Distinct(refs) && i < |refs| && Hits(ws, refs[i])
    ensures var id := refs[i].window;
      id in DeleteRows(ws, refs) && SizeOf(DeleteRows(ws, refs)[id].rows, env) < SizeOf(ws[id].rows, env)
    decreases |refs|
  {
    var ws', id := DeleteRow(ws, refs[0]), refs[i].window;
    DeletingOne(ws, refs[0], id, env);
    if i == 0 {
      DeletingNeverGrows(ws', refs[1..], id, env);
    } else {
      StillHits(ws, refs, i);
      DeletingShrinks(ws', refs[1..], i - 1, env);
    }
  }

  /** Deleting the first row leaves the other references where they point. */
  lemma StillHits(ws: map<nat, Window>, refs: seq<Ref>, i: nat)
    requires Keyed(ws) && Distinct(refs) && 0 < i < |refs| && Hits(ws, refs[i])
    ensures Keyed(DeleteRow(ws, refs[0])) && Distinct(refs[1..])
    ensures refs[1..][i - 1] == refs[i] && Hits(DeleteRow(ws, refs[0]), refs[i])
  {
    DeleteRowTotal([], ws, refs[0], Requests);
    DeleteRowFrame(ws, refs[0], refs[i]);
  }

  lemma {:induction false} ChangedKeeps(ws: map<nat, Window>, refs: seq<Ref>, sofar: seq<nat>)
    ensures forall id :: id in sofar ==> id in Changed(ws, refs, sofar)
    decreases |refs|
  {
    if refs != [] {
      var next := if Hits(ws, refs[0]) && refs[0].window !in sofar then sofar + [refs[0].window] else sofar;
      ChangedKeeps(DeleteRow(ws, refs[0]), refs[1..], next);
    }
  }

  lemma {:induction false} ChangedHas(ws: map<nat, Window>, refs: seq<Ref>, sofar: seq<nat>, i: nat)
    requires Keyed(ws) && Distinct(refs) && i < |refs| && Hits(ws, refs[i])
    ensures refs[i].window in Changed(ws, refs, sofar)
    decreases |refs|
  {
    var ws' := DeleteRow(ws, refs[0]);
    var next := if Hits(ws, refs[0]) && refs[0].window !in sofar then sofar + [refs[0].window] else sofar;
    if i == 0 {
      ChangedKeeps(ws', refs[1..], next);
    } else {
      StillHits(ws, refs, i);
      ChangedHas(ws', refs[1..], next, i - 1);
    }
  }

  /** No window outgrew its recorded size. */
  ghost predicate NoneGrew(ws: map<nat, Window>, env: Env)
  {
    forall id :: id in ws ==> SizeOf(ws[id].rows, env) <= ws[id].size
  }

  lemma {:induction false} StrayShrinkNatural(s: State, ids: seq<nat>, env: Env)
    requires NoneGrew(s.windows, env)
    ensures StrayShrink(s, ids, env) >= 0
    decreases |ids|
  {
    if ids != [] {
      StrayShrinkNatural(if ids[0] in s.windows then Resize(s, ids[0], env) else s, ids[1..], env);
    }
  }

  lemma {:induction false} StrayShrinkPositive(s: State, ids: seq<nat>, env: Env, id: nat)
    requires NoneGrew(s.windows, env) && id in ids && id in s.windows && id !in s.closed
    requires SizeOf(s.windows[id].rows, env) < s.windows[id].size
    ensures StrayShrink(s, ids, env) > 0
    decreases |ids|
  {
    var next := if ids[0] in s.windows then Resize(s, ids[0], env) else s;
    if ids[0] == id {
      StrayShrinkNatural(next, ids[1..], env);
    } else {
      StrayShrinkPositive(next, ids[1..], env, id);
    }
  }

  /** An answer moves the byte counter for windows pruned in flight if and only if the batch has rows of such windows. */
  lemma StrayBytesIff(s: State, f: Inflight, env: Env)
    requires Valid(s, env) && ValidFlight(s, f, env) && Shrinks(env)
    ensures StrayBytes(s, f, env) >= 0
    ensures StrayBytes(s, f, env) == 0 <==> Stray(f.counterRefs, s.closed) == []
  {
    var refs := f.counterRefs;
    var deleted, changed := s.(windows := DeleteRows(s.windows, refs)), Changed(s.windows, refs, []);
    DeleteRowsShape(s.windows, refs);
    forall id | id in deleted.windows ensures SizeOf(deleted.windows[id].rows, env) <= deleted.windows[id].size {
      DeletingNeverGrows(s.windows, refs, id, env);
    }
    StrayShrinkNatural(deleted, changed, env);
    StrayMembers(refs, s.closed);
    if Stray(refs, s.closed) == [] {
      ChangedWithin(s.windows, refs, [], s.closed);
      QueuedShrinkNothing(deleted, changed, env);
    } else {
      var i :| 0 <= i < |refs| && refs[i].window !in s.closed;
      assert Hits(s.windows, refs[i]);
      DeletingShrinks(s.windows, refs, i, env);
      ChangedHas(s.windows, refs, [], i);
      StrayShrinkPositive(deleted, changed, env, refs[i].window);
    }
  }

  /** A step leaves an exact byte counter exact if and only if it removes nothing from a window pruned in flight. */
  lemma StepBytesIff(w: World, step: Step, env: Env)
    requires ValidWorld(w, env) && Enabled(w, step) && Shrinks(env) && Drift(w.state) == 0
    ensures Drift(Next(w, step, env).state) == 0 <==> Intact(w, step)
  {
    StepDrifts(w, step, env);
    if Removes(w, step) {
      StrayBytesIff(w.state, w.inflight.value, env);
    }
  }

  /** The byte counter is the sum of the queued sizes in every state of the run. */
  predicate ExactThroughout(w: World, steps: seq<Step>, env: Env)
    requires Possible(w, steps, env)
    decreases |steps|
  {
    Drift(w.state) == 0 && (steps == [] || ExactThroughout(Next(w, steps[0], env), steps[1..], env))
  }

  /** On a run the byte counter is exact throughout if and only if no answer removes rows of a window pruned in flight. */
  lemma {:induction false} BytesExactIff(w: World, steps: seq<Step>, env: Env)
    requires ValidWorld(w, env) && Possible(w, steps, env) && Shrinks(env) && Drift(w.state) == 0
    ensures ExactThroughout(w, steps, env) <==> AllIntact(w, steps, env)
    decreases |steps|
  {
    if steps != [] {
      NextKeeps(w, steps[0], env);
      StepBytesIff(w, steps[0], env);
      if Intact(w, steps[0]) {
        BytesExactIff(Next(w, steps[0], env), steps[1..], env);
      }
    }
  }
}
