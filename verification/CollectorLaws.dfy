/** The collected completion does not depend on how the stream was cut or interleaved. */
module CollectorLaws {
  import opened Values
  import opened Collector

  // ----- the fold over concatenations -----

  lemma {:induction false} TakeChunksConcat(a: Acc, xs: seq<Fields>, ys: seq<Fields>)
    ensures TakeChunks(a, xs + ys)
         == match TakeChunks(a, xs) case Err(e) => Err(e) case Ok(b) => TakeChunks(b, ys)
    decreases |xs|
  {
    if xs == [] {
      assert xs + ys == ys;
    } else {
      assert (xs + ys)[1..] == xs[1..] + ys;
      if TakeChunk(a, xs[0]).Ok? {
        TakeChunksConcat(TakeChunk(a, xs[0]).value, xs[1..], ys);
      }
    }
  }

  /** Chunks that act alike on every accumulator may replace one another anywhere in a stream. */
  lemma ReplaceAnywhere(before: seq<Fields>, xs: seq<Fields>, ys: seq<Fields>, after: seq<Fields>)
    requires xs != [] && ys != []
    requires forall a: Acc :: TakeChunks(a, xs) == TakeChunks(a, ys)
    ensures Collect(before + xs + after) == Collect(before + ys + after)
  {
    TakeChunksConcat(START, before + xs, after);
    TakeChunksConcat(START, before, xs);
    TakeChunksConcat(START, before + ys, after);
    TakeChunksConcat(START, before, ys);
  }

  // ----- what a delta leaves alone -----

  lemma NotStructural(field: string)
    requires field in TEXT_FIELDS
    ensures field != "role" && field != "tool_calls" && field != "function_call"
  {
    assert "role" !in TEXT_FIELDS && "tool_calls" !in TEXT_FIELDS && "function_call" !in TEXT_FIELDS;
  }

  lemma CallsKeepPlain(s: ChoiceState, d: Fields)
    ensures MergeCalls(s, d).Ok? ==>
      var t := MergeCalls(s, d).value;
      t.texts == s.texts && t.seen == s.seen && t.messageExtras == s.messageExtras && t.role == s.role
  {
  }

  // ----- one and two chunks -----

  lemma TakeOneChunk(a: Acc, x: Fields)
    ensures TakeChunks(a, [x]) == TakeChunk(a, x)
  {
    assert [x][1..] == [];
  }

  lemma TakeTwoChunks(a: Acc, x: Fields, y: Fields)
    ensures TakeChunks(a, [x, y]) == match TakeChunk(a, x) case Err(e) => Err(e) case Ok(b) => TakeChunk(b, y)
  {
    assert [x, y][1..] == [y];
    if TakeChunk(a, x).Ok? {
      TakeOneChunk(TakeChunk(a, x).value, y);
    }
  }

  // ----- which indexes a chunk touches -----

  function IndexesOf(choices: seq<Json>, ordinal: int): set<int>
    decreases |choices|
  {
    if choices == [] then {}
    else (if choices[0].JObj? then {IndexOr(choices[0].fields, ordinal)} else {}) + IndexesOf(choices[1..], ordinal + 1)
  }

  ghost predicate AgreeOn(m: Choices, n: Choices, indexes: set<int>)
  {
    forall i :: i in indexes ==> (i in m <==> i in n) && (i in m && i in n ==> m[i] == n[i])
  }

  /** Choices change only the indexes they name, and every one of those. */
  lemma {:induction false} TouchesOnly(m: Choices, choices: seq<Json>, ordinal: int)
    ensures var r := TakeChoices(m, choices, ordinal);
      r.Ok? ==>
        && r.value.Keys == m.Keys + IndexesOf(choices, ordinal)
        && forall i :: i in m && i !in IndexesOf(choices, ordinal) ==> r.value[i] == m[i]
    decreases |choices|
  {
    if choices != [] && TakeChoice(m, choices[0], ordinal).Ok? {
      TouchesOnly(TakeChoice(m, choices[0], ordinal).value, choices[1..], ordinal + 1);
    }
  }

  ghost predicate WrittenAlike(m: Choices, n: Choices, m': Choices, n': Choices, i: int)
  {
    i in m' && i in n' && m'[i] == n'[i] && m' == m[i := m'[i]] && n' == n[i := n'[i]]
  }

  lemma {:induction false} ToolErrors(calls: map<int, ToolSlot>, deltas: seq<Json>, ordinal: int)
    ensures TakeToolCalls(calls, deltas, ordinal).Err? ==> TakeToolCalls(calls, deltas, ordinal) == Err(BadShape)
    decreases |deltas|
  {
    if deltas != [] && TakeToolCall(calls, deltas[0], ordinal).Ok? {
      ToolErrors(TakeToolCall(calls, deltas[0], ordinal).value, deltas[1..], ordinal + 1);
    }
  }

  lemma CallErrors(s: ChoiceState, d: Fields)
    ensures MergeCalls(s, d).Err? ==> MergeCalls(s, d) == Err(BadShape)
  {
    if Get(d, "tool_calls").JArr? {
      ToolErrors(s.toolCalls, Get(d, "tool_calls").items, 0);
    }
  }

  lemma ChoiceErrors(s: ChoiceState, choice: Fields)
    ensures MergeChoice(s, choice).Err? ==> MergeChoice(s, choice) == Err(BadShape)
  {
    if DeltaOf(choice).Some? {
      CallErrors(MergePlain(Started(s, choice), DeltaOf(choice).value), DeltaOf(choice).value);
    }
  }

  lemma OneDependsOnOwn(m: Choices, n: Choices, choice: Json, ordinal: int)
    requires choice.JObj? ==> AgreeOn(m, n, {IndexOr(choice.fields, ordinal)})
    ensures var r, q := TakeChoice(m, choice, ordinal), TakeChoice(n, choice, ordinal);
      && (r.Ok? <==> q.Ok?) && (r.Err? ==> r == Err(BadShape) && q == Err(BadShape))
      && (r.Ok? ==> choice.JObj? && WrittenAlike(m, n, r.value, q.value, IndexOr(choice.fields, ordinal)))
  {
    if choice.JObj? {
      var i := IndexOr(choice.fields, ordinal);
      assert StateAt(m, i) == StateAt(n, i);
      ChoiceErrors(StateAt(m, i), choice.fields);
    }
  }

  /** What choices do to their indexes depends on those indexes alone. */
  lemma {:induction false} DependsOnlyOn(m: Choices, n: Choices, choices: seq<Json>, ordinal: int, indexes: set<int>)
    requires IndexesOf(choices, ordinal) <= indexes && AgreeOn(m, n, indexes)
    ensures var r, q := TakeChoices(m, choices, ordinal), TakeChoices(n, choices, ordinal);
      && (r.Ok? <==> q.Ok?) && (r.Err? ==> r == Err(BadShape) && q == Err(BadShape))
      && (r.Ok? ==> AgreeOn(r.value, q.value, indexes))
    decreases |choices|
  {
    if choices != [] {
      OneDependsOnOwn(m, n, choices[0], ordinal);
      var r, q := TakeChoice(m, choices[0], ordinal), TakeChoice(n, choices[0], ordinal);
      if r.Ok? {
        DependsOnlyOn(r.value, q.value, choices[1..], ordinal + 1, indexes);
      }
    }
  }

  /** Two lists of choices, one after the other. */
  function InTurn(m: Choices, xs: seq<Json>, ys: seq<Json>): Result<Choices, CollectError>
  {
    var first := TakeChoices(m, xs, 0);
    if first.Err? then first else TakeChoices(first.value, ys, 0)
  }

  /** Choices at disjoint indexes commute. */
  lemma ChoicesCommute(m: Choices, xs: seq<Json>, ys: seq<Json>)
    requires IndexesOf(xs, 0) !! IndexesOf(ys, 0)
    ensures InTurn(m, xs, ys) == InTurn(m, ys, xs)
  {
    var a, b := TakeChoices(m, xs, 0), TakeChoices(m, ys, 0);
    TouchesOnly(m, xs, 0);
    TouchesOnly(m, ys, 0);
    DependsOnlyOn(m, m, xs, 0, IndexesOf(xs, 0));
    DependsOnlyOn(m, m, ys, 0, IndexesOf(ys, 0));
    if a.Ok? {
      DependsOnlyOn(m, a.value, ys, 0, IndexesOf(ys, 0));
    }
    if b.Ok? {
      DependsOnlyOn(m, b.value, xs, 0, IndexesOf(xs, 0));
    }
    if a.Ok? && b.Ok? {
      TouchesOnly(a.value, ys, 0);
      TouchesOnly(b.value, xs, 0);
      SameOutcome(m, IndexesOf(xs, 0), IndexesOf(ys, 0), a.value, b.value,
                  TakeChoices(a.value, ys, 0).value, TakeChoices(b.value, xs, 0).value);
    }
  }

  lemma SameOutcome(m: Choices, xs: set<int>, ys: set<int>, a: Choices, b: Choices, ab: Choices, ba: Choices)
    requires xs !! ys
    requires a.Keys == m.Keys + xs && b.Keys == m.Keys + ys && ab.Keys == a.Keys + ys && ba.Keys == b.Keys + xs
    requires forall i :: i in m && i !in xs ==> a[i] == m[i]
    requires forall i :: i in m && i !in ys ==> b[i] == m[i]
    requires forall i :: i in a && i !in ys ==> ab[i] == a[i]
    requires forall i :: i in b && i !in xs ==> ba[i] == b[i]
    requires AgreeOn(b, ab, ys) && AgreeOn(a, ba, xs)
    ensures ab == ba
  {
    assert ab.Keys == ba.Keys;
    forall i | i in ab ensures ab[i] == ba[i] {}
  }

  // ----- swapping chunks -----

  function Touched(chunk: Fields): set<int>
  {
    if ChoicesOf(chunk).Some? then IndexesOf(ChoicesOf(chunk).value, 0) else {}
  }

  /** Two chunks whose choices touch different indexes, and whose other fields do not contradict each other. */
  ghost predicate Independent(x: Fields, y: Fields)
  {
    && Touched(x) !! Touched(y)
    && (forall k :: k in EnvelopeOf(x) && k in EnvelopeOf(y) ==> x[k] == y[k])
    && (UsageOf(x).Some? && UsageOf(y).Some? ==> UsageOf(x) == UsageOf(y))
  }

  lemma OnlyBadShape(m: Choices, choices: seq<Json>, ordinal: int)
    ensures TakeChoices(m, choices, ordinal).Err? ==> TakeChoices(m, choices, ordinal) == Err(BadShape)
  {
    DependsOnlyOn(m, m, choices, ordinal, IndexesOf(choices, ordinal));
  }

  lemma SwapOnce(a: Acc, x: Fields, y: Fields)
    requires Independent(x, y)
    ensures TakeChunks(a, [x, y]) == TakeChunks(a, [y, x])
  {
    TakeTwoChunks(a, x, y);
    TakeTwoChunks(a, y, x);
    var xs, ys := ChoicesOf(x), ChoicesOf(y);
    if xs.Some? && ys.Some? {
      ChoicesCommute(a.choices, xs.value, ys.value);
      assert a.envelope + EnvelopeOf(x) + EnvelopeOf(y) == a.envelope + EnvelopeOf(y) + EnvelopeOf(x);
    }
    if xs.Some? { OnlyBadShape(a.choices, xs.value, 0); }
    if ys.Some? { OnlyBadShape(a.choices, ys.value, 0); }
  }

  /** Swapping adjacent independent chunks, anywhere in a stream, leaves the completion unchanged. */
  lemma SwapAnywhere(before: seq<Fields>, x: Fields, y: Fields, after: seq<Fields>)
    requires Independent(x, y)
    ensures Collect(before + [x, y] + after) == Collect(before + [y, x] + after)
  {
    forall a: Acc ensures TakeChunks(a, [x, y]) == TakeChunks(a, [y, x]) {
      SwapOnce(a, x, y);
    }
    ReplaceAnywhere(before, [x, y], [y, x], after);
  }
}
