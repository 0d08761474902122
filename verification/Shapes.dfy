/** Which streams collect at all: a matter of the shape of each chunk, whatever was collected before it. */
module Shapes {
  import opened Values
  import opened Collector
  import opened CollectorLaws
  import opened Indexed

  /** One choice merged into its state, and one call delta merged into its slot, as merges of indexed items. */
  const MERGE_CHOICE: Merge<ChoiceState> := (s, choice) => MergeChoice(s, choice)
  const MERGE_SLOT: Merge<ToolSlot> := (slot, call) => MergeSlot(slot, call)

  lemma {:induction false} ChoicesAreItems(m: Choices, choices: seq<Json>, k: int)
    ensures TakeChoices(m, choices, k) == TakeItems(MERGE_CHOICE, NEW_STATE, m, choices, k)
    decreases |choices|
  {
    if choices != [] && TakeChoice(m, choices[0], k).Ok? {
      ChoicesAreItems(TakeChoice(m, choices[0], k).value, choices[1..], k + 1);
    }
  }

  lemma {:induction false} CallsAreItems(calls: map<int, ToolSlot>, items: seq<Json>, k: int)
    ensures TakeToolCalls(calls, items, k) == TakeItems(MERGE_SLOT, NEW_SLOT, calls, items, k)
    decreases |items|
  {
    if items != [] && TakeToolCall(calls, items[0], k).Ok? {
      CallsAreItems(TakeToolCall(calls, items[0], k).value, items[1..], k + 1);
    }
  }

  /** The function-call half of a delta does not look at the tool calls. */
  lemma FunctionCallIgnoresTools(s: ChoiceState, calls: map<int, ToolSlot>, value: Json)
    ensures MergeFunctionCall(s.(toolCalls := calls), value)
         == match MergeFunctionCall(s, value) case Err(e) => Err(e) case Ok(t) => Ok(t.(toolCalls := calls))
  {
  }

  // ----- shapes -----

  /** A function delta: absent, or an object whose arguments are a string, null or absent. */
  predicate ShapedFunction(value: Json)
  {
    value == JNull
    || (value.JObj? && (Get(value.fields, "arguments") == JNull || Get(value.fields, "arguments").JStr?))
  }

  predicate ShapedCall(call: Fields)
  {
    ShapedFunction(Get(call, "function"))
  }

  predicate ShapedItems(items: seq<Json>)
  {
    forall i :: 0 <= i < |items| ==> items[i].JObj? && ShapedCall(items[i].fields)
  }

  predicate ShapedDelta(d: Fields)
  {
    && (Get(d, "tool_calls") == JNull || (Get(d, "tool_calls").JArr? && ShapedItems(Get(d, "tool_calls").items)))
    && ShapedFunction(Get(d, "function_call"))
  }

  /** The delta of a choice is absent or an object, so a null one is malformed. */
  predicate ShapedChoice(choice: Fields)
  {
    "delta" in choice ==> choice["delta"].JObj? && ShapedDelta(choice["delta"].fields)
  }

  predicate ShapedChoices(choices: seq<Json>)
  {
    forall i :: 0 <= i < |choices| ==> choices[i].JObj? && ShapedChoice(choices[i].fields)
  }

  /** The choices of a chunk are absent or an array, so a null one is malformed. */
  predicate ShapedChunk(chunk: Fields)
  {
    "choices" in chunk ==> chunk["choices"].JArr? && ShapedChoices(chunk["choices"].items)
  }

  lemma SlotShape(slot: ToolSlot, call: Fields)
    ensures MergeSlot(slot, call).Ok? <==> ShapedCall(call)
  {
  }

  lemma {:induction false} CallsShape(calls: map<int, ToolSlot>, items: seq<Json>, k: int)
    ensures TakeToolCalls(calls, items, k).Ok? <==> ShapedItems(items)
    decreases |items|
  {
    if items != [] {
      assert ShapedItems(items) <==> items[0].JObj? && ShapedCall(items[0].fields) && ShapedItems(items[1..]) by {
        assert forall i :: 0 < i < |items| ==> items[i] == items[1..][i - 1];
        assert forall i :: 0 <= i < |items[1..]| ==> items[1..][i] == items[i + 1];
      }
      if items[0].JObj? {
        SlotShape(SlotAt(calls, IndexOr(items[0].fields, k)), items[0].fields);
        if TakeToolCall(calls, items[0], k).Ok? {
          CallsShape(TakeToolCall(calls, items[0], k).value, items[1..], k + 1);
        }
      }
    }
  }

  lemma DeltaShape(s: ChoiceState, d: Fields)
    ensures MergeCalls(s, d).Ok? <==> ShapedDelta(d)
  {
    if Get(d, "tool_calls").JArr? {
      CallsShape(s.toolCalls, Get(d, "tool_calls").items, 0);
    }
  }

  lemma ChoiceShape(s: ChoiceState, choice: Fields)
    ensures MergeChoice(s, choice).Ok? <==> ShapedChoice(choice)
  {
    if DeltaOf(choice).Some? {
      DeltaShape(MergePlain(Started(s, choice), DeltaOf(choice).value), DeltaOf(choice).value);
    }
  }

  lemma ShapedSplit(choices: seq<Json>)
    requires choices != []
    ensures ShapedChoices(choices) <==> choices[0].JObj? && ShapedChoice(choices[0].fields) && ShapedChoices(choices[1..])
  {
    assert forall i :: 0 < i < |choices| ==> choices[i] == choices[1..][i - 1];
    assert forall i :: 0 <= i < |choices[1..]| ==> choices[1..][i] == choices[i + 1];
  }

  lemma {:induction false} ChoicesShape(m: Choices, choices: seq<Json>, k: int)
    ensures TakeChoices(m, choices, k).Ok? <==> ShapedChoices(choices)
    decreases |choices|
  {
    if choices != [] {
      ShapedSplit(choices);
      if choices[0].JObj? {
        ChoiceShape(StateAt(m, IndexOr(choices[0].fields, k)), choices[0].fields);
        if TakeChoice(m, choices[0], k).Ok? {
          ChoicesShape(TakeChoice(m, choices[0], k).value, choices[1..], k + 1);
        }
      }
    }
  }

  /** Every failure of a chunk is a shape failure, and does not depend on what was collected before. */
  lemma ChunkShape(a: Acc, chunk: Fields)
    ensures if ShapedChunk(chunk) then TakeChunk(a, chunk).Ok? else TakeChunk(a, chunk) == Err(BadShape)
  {
    if ChoicesOf(chunk).Some? {
      ChoicesShape(a.choices, ChoicesOf(chunk).value, 0);
      OnlyBadShape(a.choices, ChoicesOf(chunk).value, 0);
    }
  }

  predicate AllShaped(chunks: seq<Fields>)
  {
    forall i :: 0 <= i < |chunks| ==> ShapedChunk(chunks[i])
  }

  lemma {:induction false} ChunksShape(a: Acc, chunks: seq<Fields>)
    ensures if AllShaped(chunks) then TakeChunks(a, chunks).Ok? else TakeChunks(a, chunks) == Err(BadShape)
    decreases |chunks|
  {
    if chunks != [] {
      ChunkShape(a, chunks[0]);
      assert forall i :: 0 < i < |chunks| ==> chunks[i] == chunks[1..][i - 1];
      assert forall i :: 0 <= i < |chunks[1..]| ==> chunks[1..][i] == chunks[i + 1];
      if TakeChunk(a, chunks[0]).Ok? {
        ChunksShape(TakeChunk(a, chunks[0]).value, chunks[1..]);
      }
    }
  }

  /** The indexes a stream names. */
  function TouchedBy(chunks: seq<Fields>): set<int>
  {
    if chunks == [] then {} else Touched(chunks[0]) + TouchedBy(chunks[1..])
  }

  lemma {:induction false} TouchedAll(a: Acc, chunks: seq<Fields>)
    requires TakeChunks(a, chunks).Ok?
    ensures TakeChunks(a, chunks).value.choices.Keys == a.choices.Keys + TouchedBy(chunks)
    decreases |chunks|
  {
    if chunks != [] {
      TouchesOnly(a.choices, ChoicesOf(chunks[0]).value, 0);
      TouchedAll(TakeChunk(a, chunks[0]).value, chunks[1..]);
    }
  }

  /** A stream collects if and only if every chunk is well shaped and some chunk has a choice; otherwise the error says why. */
  lemma CollectsIff(chunks: seq<Fields>)
    ensures Collect(chunks).Ok? <==> AllShaped(chunks) && TouchedBy(chunks) != {}
    ensures Collect(chunks) == Err(EmptyStream) <==> chunks == []
    ensures Collect(chunks) == Err(BadShape) <==> !AllShaped(chunks)
  {
    ChunksShape(START, chunks);
    if TakeChunks(START, chunks).Ok? {
      TouchedAll(START, chunks);
      assert TakeChunks(START, chunks).value.choices.Keys == TouchedBy(chunks);
    }
  }

  // ----- folds -----

  lemma {:induction false} FoldShape(s: ChoiceState, list: seq<Fields>)
    ensures FoldAll(MERGE_CHOICE, s, list).Ok? <==> forall c :: c in list ==> ShapedChoice(c)
    decreases |list|
  {
    if list != [] {
      ChoiceShape(s, list[0]);
      assert forall c :: c in list <==> c == list[0] || c in list[1..];
      if MergeChoice(s, list[0]).Ok? {
        FoldShape(MergeChoice(s, list[0]).value, list[1..]);
      }
    }
  }

  lemma {:induction false} FoldSlotShape(slot: ToolSlot, list: seq<Fields>)
    ensures FoldAll(MERGE_SLOT, slot, list).Ok? <==> forall c :: c in list ==> ShapedCall(c)
    decreases |list|
  {
    if list != [] {
      SlotShape(slot, list[0]);
      assert forall c :: c in list <==> c == list[0] || c in list[1..];
      if MergeSlot(slot, list[0]).Ok? {
        FoldSlotShape(MergeSlot(slot, list[0]).value, list[1..]);
      }
    }
  }

  lemma {:induction false} ItemsForIn(items: seq<Json>, k: int, i: int)
    ensures forall c :: c in ItemsFor(items, k, i) ==> JObj(c) in items
    decreases |items|
  {
    if items != [] {
      ItemsForIn(items[1..], k + 1, i);
      assert forall item :: item in items[1..] ==> item in items;
    }
  }
}
