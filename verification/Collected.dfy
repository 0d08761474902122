/** What the collected completion says: each choice is its own deltas, merged in order, whatever ran between them. */
module Collected {
  import opened Values
  import opened Collector
  import opened CollectorLaws
  import opened Indexed
  import opened Shapes

  // ----- one choice of a stream -----

  /** The choice objects at one index: of one chunk, and of a stream in order. */
  function ChoicesIn(chunk: Fields, i: int): seq<Fields>
  {
    if Get(chunk, "choices").JArr? then ItemsFor(Get(chunk, "choices").items, 0, i) else []
  }

  function ChoicesFor(chunks: seq<Fields>, i: int): seq<Fields>
  {
    if chunks == [] then [] else ChoicesIn(chunks[0], i) + ChoicesFor(chunks[1..], i)
  }

  lemma ChunkAt(a: Acc, chunk: Fields, i: int)
    requires TakeChunk(a, chunk).Ok?
    ensures ChoicesOf(chunk).Some?
    ensures var b := TakeChunk(a, chunk).value;
      && FoldAll(MERGE_CHOICE, StateAt(a.choices, i), ItemsFor(ChoicesOf(chunk).value, 0, i)) == Ok(StateAt(b.choices, i))
      && b.choices.Keys == a.choices.Keys + Touched(chunk)
  {
    var choices := ChoicesOf(chunk).value;
    ChoicesAreItems(a.choices, choices, 0);
    TakenAt(MERGE_CHOICE, NEW_STATE, a.choices, choices, 0, i);
    TouchesOnly(a.choices, choices, 0);
  }

  /** The state collected for an index is its own choice objects merged in order; the indexes are exactly those seen. */
  lemma {:induction false} StateIsFold(a: Acc, chunks: seq<Fields>, i: int)
    requires TakeChunks(a, chunks).Ok?
    ensures var b := TakeChunks(a, chunks).value;
      && FoldAll(MERGE_CHOICE, StateAt(a.choices, i), ChoicesFor(chunks, i)) == Ok(StateAt(b.choices, i))
      && b.choices.Keys == a.choices.Keys + TouchedBy(chunks)
    decreases |chunks|
  {
    if chunks != [] {
      var next := TakeChunk(a, chunks[0]).value;
      ChunkAt(a, chunks[0], i);
      StateIsFold(next, chunks[1..], i);
      FoldAllConcat(MERGE_CHOICE, StateAt(a.choices, i), ItemsFor(ChoicesOf(chunks[0]).value, 0, i), ChoicesFor(chunks[1..], i));
    }
  }

  // ----- texts -----

  /** Two stretches of text, either of which may be missing. */
  function Both(a: Option<string>, b: Option<string>): Option<string>
  {
    if a.None? then b else if b.None? then a else Some(a.value + b.value)
  }

  lemma BothInTurn(a: Option<string>, b: Option<string>, c: Option<string>)
    ensures Both(Both(a, b), c) == Both(a, Both(b, c))
  {
    if a.Some? && b.Some? && c.Some? {
      Associate(a.value, b.value, c.value);
    }
  }

  function TextIn(choice: Fields, field: string): Option<string>
  {
    var value := Get(DeltaFields(choice), field);
    if field in TEXT_FIELDS && value.JStr? then Some(value.s) else None
  }

  /** The in-order concatenation of the string deltas of one field, or None when there was none. */
  function TextOf(choices: seq<Fields>, field: string): Option<string>
  {
    if choices == [] then None else Both(TextIn(choices[0], field), TextOf(choices[1..], field))
  }

  /** Merging into one text of the map. */
  lemma MergedTextAt(texts: map<string, string>, d: Fields, f: string)
    ensures f in MergeTexts(texts, d) <==> f in texts || IsText(d, f)
    ensures f in MergeTexts(texts, d) ==> MergeTexts(texts, d)[f] == TextAt(texts, f) + (if IsText(d, f) then d[f].s else "")
  {
    assert f in TextsIn(d) <==> IsText(d, f);
  }

  function Shown(s: ChoiceState, field: string): Option<string>
  {
    if field in s.texts then Some(s.texts[field]) else None
  }

  lemma MergedText(s: ChoiceState, choice: Fields, field: string)
    requires MergeChoice(s, choice).Ok?
    ensures Shown(MergeChoice(s, choice).value, field) == Both(Shown(s, field), TextIn(choice, field))
  {
    var d := DeltaOf(choice).value;
    CallsKeepPlain(MergePlain(Started(s, choice), d), d);
    MergedTextAt(s.texts, d, field);
    assert TextAt(s.texts, field) + "" == TextAt(s.texts, field);
    if IsText(d, field) {
      assert "" + d[field].s == d[field].s;
    }
  }

  lemma {:induction false} FoldTexts(s: ChoiceState, choices: seq<Fields>, field: string)
    requires FoldAll(MERGE_CHOICE, s, choices).Ok?
    ensures Shown(FoldAll(MERGE_CHOICE, s, choices).value, field) == Both(Shown(s, field), TextOf(choices, field))
    decreases |choices|
  {
    if choices != [] {
      var t := MergeChoice(s, choices[0]).value;
      MergedText(s, choices[0], field);
      FoldTexts(t, choices[1..], field);
      BothInTurn(Shown(s, field), TextIn(choices[0], field), TextOf(choices[1..], field));
    }
  }

  // ----- function-call arguments -----

  function ArgumentIn(f: Fields): string
  {
    if Get(f, "arguments").JStr? then Get(f, "arguments").s else ""
  }

  /** The strings a list of function deltas appends, in order. */
  function ArgumentsOf(list: seq<Fields>): string
  {
    if list == [] then ""
    else ArgumentIn(list[0]) + ArgumentsOf(list[1..])
  }

  lemma {:induction false} ArgumentsOfConcat(a: seq<Fields>, b: seq<Fields>)
    ensures ArgumentsOf(a + b) == ArgumentsOf(a) + ArgumentsOf(b)
    decreases |a|
  {
    if a == [] {
      assert a + b == b;
      assert "" + ArgumentsOf(b) == ArgumentsOf(b);
    } else {
      assert (a + b)[1..] == a[1..] + b;
      ArgumentsOfConcat(a[1..], b);
      Associate(ArgumentIn(a[0]), ArgumentsOf(a[1..]), ArgumentsOf(b));
    }
  }

  function DeltaFields(choice: Fields): Fields
  {
    if Get(choice, "delta").JObj? then Get(choice, "delta").fields else map[]
  }

  /** The function-call object of one choice, and those of a list of choices. */
  function FunctionOf(choice: Fields): seq<Fields>
  {
    if Get(DeltaFields(choice), "function_call").JObj? then [Get(DeltaFields(choice), "function_call").fields] else []
  }

  function FunctionDeltas(choices: seq<Fields>): seq<Fields>
  {
    if choices == [] then [] else FunctionOf(choices[0]) + FunctionDeltas(choices[1..])
  }

  lemma MergedFunction(s: ChoiceState, choice: Fields)
    requires MergeChoice(s, choice).Ok?
    ensures var t, list := MergeChoice(s, choice).value, FunctionDeltas([choice]);
      && t.functionArguments == s.functionArguments + ArgumentsOf(list)
      && t.sawFunctionCall == (s.sawFunctionCall || list != [])
  {
    assert [choice][1..] == [];
    var d := DeltaOf(choice).value;
    var value := Get(d, "function_call");
    assert s.functionArguments + "" == s.functionArguments;
    if value.JObj? {
      assert FunctionDeltas([choice]) == [value.fields] && [value.fields][1..] == [];
      assert ArgumentsOf([value.fields]) == ArgumentText(value.fields).value;
    }
  }

  lemma {:induction false} FoldFunctions(s: ChoiceState, choices: seq<Fields>)
    requires FoldAll(MERGE_CHOICE, s, choices).Ok?
    ensures var t := FoldAll(MERGE_CHOICE, s, choices).value;
      && t.functionArguments == s.functionArguments + ArgumentsOf(FunctionDeltas(choices))
      && t.sawFunctionCall == (s.sawFunctionCall || FunctionDeltas(choices) != [])
    decreases |choices|
  {
    if choices == [] {
      assert s.functionArguments + "" == s.functionArguments;
    } else {
      MergedFunction(s, choices[0]);
      FoldFunctions(MergeChoice(s, choices[0]).value, choices[1..]);
      FunctionsSplit(choices);
      var first, rest := FunctionDeltas([choices[0]]), FunctionDeltas(choices[1..]);
      ArgumentsOfConcat(first, rest);
      Associate(s.functionArguments, ArgumentsOf(first), ArgumentsOf(rest));
    }
  }

  lemma FunctionsSplit(choices: seq<Fields>)
    requires choices != []
    ensures FunctionDeltas(choices) == FunctionDeltas([choices[0]]) + FunctionDeltas(choices[1..])
  {
    assert [choices[0]][1..] == [];
  }

  // ----- tool-call arguments -----

  function ToolItems(choice: Fields): seq<Json>
  {
    if Get(DeltaFields(choice), "tool_calls").JArr? then Get(DeltaFields(choice), "tool_calls").items else []
  }

  /** The call deltas at one call index, in stream order. */
  function CallDeltas(choices: seq<Fields>, j: int): seq<Fields>
  {
    if choices == [] then [] else ItemsFor(ToolItems(choices[0]), 0, j) + CallDeltas(choices[1..], j)
  }

  function CallIndexes(choices: seq<Fields>): set<int>
  {
    if choices == [] then {} else IndexesOf(ToolItems(choices[0]), 0) + CallIndexes(choices[1..])
  }

  /** A delta's tool calls are taken apart from its other fields. */
  lemma MergeApart(s: ChoiceState, delta: Fields, items: seq<Json>)
    requires Get(delta, "tool_calls") == JArr(items)
    ensures var plain := MergePlain(s, delta);
      MergeDelta(s, delta)
      == match TakeToolCalls(plain.toolCalls, items, 0)
         case Err(e) => Err(e)
         case Ok(n) =>
           match MergeFunctionCall(plain, Get(delta, "function_call"))
           case Err(e) => Err(e)
           case Ok(t) => Ok(t.(toolCalls := n))
  {
    var plain := MergePlain(s, delta);
    var n := TakeToolCalls(plain.toolCalls, items, 0);
    if n.Ok? {
      FunctionCallIgnoresTools(plain, n.value, Get(delta, "function_call"));
    }
  }

  lemma MergedCalls(s: ChoiceState, choice: Fields, j: int)
    requires MergeChoice(s, choice).Ok?
    ensures var t := MergeChoice(s, choice).value;
      && FoldAll(MERGE_SLOT, SlotAt(s.toolCalls, j), ItemsFor(ToolItems(choice), 0, j)) == Ok(SlotAt(t.toolCalls, j))
      && (j in t.toolCalls <==> j in s.toolCalls || j in IndexesOf(ToolItems(choice), 0))
  {
    MergedCallMap(s, choice);
    CallsAreItems(s.toolCalls, ToolItems(choice), 0);
    TakenAt(MERGE_SLOT, NEW_SLOT, s.toolCalls, ToolItems(choice), 0, j);
    ItemsForIff(ToolItems(choice), 0, j);
  }

  /** The tool calls of a merged choice are its call deltas taken in order. */
  lemma MergedCallMap(s: ChoiceState, choice: Fields)
    requires MergeChoice(s, choice).Ok?
    ensures TakeToolCalls(s.toolCalls, ToolItems(choice), 0) == Ok(MergeChoice(s, choice).value.toolCalls)
  {
    var d := DeltaOf(choice).value;
    var plain := MergePlain(Started(s, choice), d);
    if Get(d, "tool_calls").JArr? {
      MergeApart(Started(s, choice), d, ToolItems(choice));
    } else {
      assert MergeDelta(Started(s, choice), d) == MergeFunctionCall(plain, Get(d, "function_call"));
    }
  }

  lemma {:induction false} FoldCalls(s: ChoiceState, choices: seq<Fields>, j: int)
    requires FoldAll(MERGE_CHOICE, s, choices).Ok?
    ensures var t := FoldAll(MERGE_CHOICE, s, choices).value;
      && FoldAll(MERGE_SLOT, SlotAt(s.toolCalls, j), CallDeltas(choices, j)) == Ok(SlotAt(t.toolCalls, j))
      && (j in t.toolCalls <==> j in s.toolCalls || j in CallIndexes(choices))
    decreases |choices|
  {
    if choices != [] {
      MergedCalls(s, choices[0], j);
      FoldCalls(MergeChoice(s, choices[0]).value, choices[1..], j);
      FoldAllConcat(MERGE_SLOT, SlotAt(s.toolCalls, j), ItemsFor(ToolItems(choices[0]), 0, j), CallDeltas(choices[1..], j));
    }
  }

  function FunctionIn(call: Fields): seq<Fields>
  {
    if Get(call, "function").JObj? then [Get(call, "function").fields] else []
  }

  /** The function objects of a list of call deltas. */
  function FunctionsIn(calls: seq<Fields>): seq<Fields>
  {
    if calls == [] then [] else FunctionIn(calls[0]) + FunctionsIn(calls[1..])
  }

  lemma MergedSlot(slot: ToolSlot, call: Fields)
    requires MergeSlot(slot, call).Ok?
    ensures MergeSlot(slot, call).value.arguments == slot.arguments + ArgumentsOf(FunctionsIn([call]))
  {
    assert [call][1..] == [];
    assert slot.arguments + "" == slot.arguments;
    var f := Get(call, "function");
    if f.JObj? {
      assert FunctionsIn([call]) == [f.fields] && [f.fields][1..] == [];
      assert ArgumentsOf([f.fields]) == ArgumentText(f.fields).value;
    }
  }

  lemma {:induction false} FoldSlot(slot: ToolSlot, calls: seq<Fields>)
    requires FoldAll(MERGE_SLOT, slot, calls).Ok?
    ensures FoldAll(MERGE_SLOT, slot, calls).value.arguments == slot.arguments + ArgumentsOf(FunctionsIn(calls))
    decreases |calls|
  {
    if calls == [] {
      assert slot.arguments + "" == slot.arguments;
    } else {
      MergedSlot(slot, calls[0]);
      FoldSlot(MergeSlot(slot, calls[0]).value, calls[1..]);
      assert [calls[0]][1..] == [];
      var first, rest := FunctionsIn([calls[0]]), FunctionsIn(calls[1..]);
      assert FunctionsIn(calls) == first + rest;
      ArgumentsOfConcat(first, rest);
      Associate(slot.arguments, ArgumentsOf(first), ArgumentsOf(rest));
    }
  }

  // ----- extra fields -----

  /** What a state keeps verbatim is never a text, a role, or a call. */
  ghost predicate ExtrasClean(s: ChoiceState)
  {
    forall k :: k in s.messageExtras ==> IsExtra(k, s.messageExtras[k])
  }

  lemma MergedExtras(s: ChoiceState, choice: Fields)
    requires MergeChoice(s, choice).Ok? && ExtrasClean(s)
    ensures ExtrasClean(MergeChoice(s, choice).value)
  {
    var d := DeltaOf(choice).value;
    CallsKeepPlain(MergePlain(Started(s, choice), d), d);
  }

  lemma {:induction false} FoldExtras(s: ChoiceState, choices: seq<Fields>)
    requires FoldAll(MERGE_CHOICE, s, choices).Ok? && ExtrasClean(s)
    ensures ExtrasClean(FoldAll(MERGE_CHOICE, s, choices).value)
    decreases |choices|
  {
    if choices != [] {
      MergedExtras(s, choices[0]);
      FoldExtras(MergeChoice(s, choices[0]).value, choices[1..]);
    }
  }

  // ----- the message -----

  lemma CallsKeepTexts(s: ChoiceState, m: Fields, field: string)
    requires field != "tool_calls" && field != "function_call"
    ensures field in WithCalls(s, m) <==> field in m
    ensures field in m ==> WithCalls(s, m)[field] == m[field]
  {
  }

  /** The text a message shows in a field, if it is text at all. */
  function MessageText(m: Fields, field: string): Option<string>
  {
    if Get(m, field).JStr? then Some(Get(m, field).s) else None
  }

  lemma TextsShown(s: ChoiceState, field: string)
    requires field in TEXT_FIELDS && ExtrasClean(s)
    ensures field in s.texts ==> Get(WithTexts(s), field) == JStr(s.texts[field])
    ensures field !in s.texts ==> !Get(WithTexts(s), field).JStr?
  {
    NotStructural(field);
    if field !in s.texts && field in s.messageExtras {
      assert IsExtra(field, s.messageExtras[field]);
    }
  }

  lemma NullsShown(s: ChoiceState, m: Fields, field: string)
    ensures field in m ==> Get(WithNulls(s, m), field) == m[field]
    ensures field !in m ==> !Get(WithNulls(s, m), field).JStr?
  {
  }

  /** A text field of the message is the state's text; content alone may also default to the empty string. */
  lemma TextReachesMessage(s: ChoiceState, field: string)
    requires field in TEXT_FIELDS && ExtrasClean(s)
    ensures field in s.texts ==> MessageText(Message(s), field) == Some(s.texts[field])
    ensures field !in s.texts ==>
      MessageText(Message(s), field) == None || (field == "content" && MessageText(Message(s), field) == Some(""))
  {
    NotStructural(field);
    TextsShown(s, field);
    NullsShown(s, WithTexts(s), field);
    CallsKeepTexts(s, WithNulls(s, WithTexts(s)), field);
    MessageDefault(s, field);
  }

  lemma MessageDefault(s: ChoiceState, field: string)
    ensures field in MessageBody(s) ==> field in Message(s) && Message(s)[field] == MessageBody(s)[field]
    ensures field !in MessageBody(s) && field != "content" ==> field !in Message(s)
    ensures "content" !in MessageBody(s) ==> Get(Message(s), "content") in {JNull, JStr("")}
  {
  }

  lemma MessageFunction(s: ChoiceState)
    requires ExtrasClean(s)
    ensures if s.sawFunctionCall then
        Get(Message(s), "function_call") == JObj(s.functionCall["arguments" := JStr(s.functionArguments)])
      else "function_call" !in Message(s)
  {
    assert "function_call" !in s.messageExtras;
    assert "function_call" !in TEXT_FIELDS;
  }

  lemma MessageCalls(s: ChoiceState)
    requires ExtrasClean(s)
    ensures if s.toolCalls.Keys != {} then Get(Message(s), "tool_calls") == JArr(ToolCallList(s.toolCalls))
      else "tool_calls" !in Message(s)
  {
    assert "tool_calls" !in s.messageExtras;
    assert "tool_calls" !in TEXT_FIELDS;
  }

  // ----- the completion -----

  lemma ChoiceAt(m: Choices, n: nat)
    requires n < |Sorted(m.Keys)|
    ensures Sorted(m.Keys)[n] in m
    ensures ChoiceList(m)[n] == ChoiceJson(Sorted(m.Keys)[n], m[Sorted(m.Keys)[n]])
  {
    assert Sorted(m.Keys)[n] in Sorted(m.Keys);
  }

  lemma AssembledChoices(a: Acc)
    ensures Get(Assemble(a), "choices") == JArr(ChoiceList(a.choices))
  {
  }

  /** The indexes of the choices in the completion. */
  function Indexes(chunks: seq<Fields>): seq<int>
  {
    Sorted(TouchedBy(chunks))
  }

  /** The message of choice n of the completion, or nothing. */
  function MessageAt(out: Fields, n: nat): Fields
  {
    var choices := Get(out, "choices");
    if choices.JArr? && n < |choices.items| && choices.items[n].JObj? && Get(choices.items[n].fields, "message").JObj?
    then Get(choices.items[n].fields, "message").fields else map[]
  }

  lemma ChoiceMessage(index: int, s: ChoiceState)
    ensures ChoiceJson(index, s).JObj? && Get(ChoiceJson(index, s).fields, "message") == JObj(Message(s))
  {
  }

  lemma ChoiceIndex(index: int, s: ChoiceState)
    ensures ChoiceJson(index, s).JObj? && Get(ChoiceJson(index, s).fields, "index") == JInt(index)
  {
  }

  lemma AssembledMessage(a: Acc, n: nat)
    requires n < |Sorted(a.choices.Keys)|
    ensures Sorted(a.choices.Keys)[n] in a.choices
    ensures MessageAt(Assemble(a), n) == Message(a.choices[Sorted(a.choices.Keys)[n]])
  {
    var i := Sorted(a.choices.Keys)[n];
    AssembledChoices(a);
    ChoiceAt(a.choices, n);
    ChoiceMessage(i, a.choices[i]);
  }

  lemma StateBehind(chunks: seq<Fields>, i: int)
    requires TakeChunks(START, chunks).Ok?
    ensures var a := TakeChunks(START, chunks).value;
      && a.choices.Keys == TouchedBy(chunks)
      && FoldAll(MERGE_CHOICE, NEW_STATE, ChoicesFor(chunks, i)) == Ok(StateAt(a.choices, i))
      && ExtrasClean(StateAt(a.choices, i))
  {
    StateIsFold(START, chunks, i);
    FoldExtras(NEW_STATE, ChoicesFor(chunks, i));
  }

  /** The state behind choice n: that of its own deltas alone. */
  lemma CollectedState(chunks: seq<Fields>, n: nat) returns (s: ChoiceState)
    requires Collect(chunks).Ok? && n < |Indexes(chunks)|
    ensures FoldAll(MERGE_CHOICE, NEW_STATE, ChoicesFor(chunks, Indexes(chunks)[n])) == Ok(s) && ExtrasClean(s)
    ensures MessageAt(Collect(chunks).value, n) == Message(s)
  {
    var a, i := TakeChunks(START, chunks).value, Indexes(chunks)[n];
    StateBehind(chunks, i);
    AssembledMessage(a, n);
    s := a.choices[i];
  }

  /** The output has one choice per index seen, in strictly increasing order of index. */
  lemma CollectedChoices(chunks: seq<Fields>)
    requires Collect(chunks).Ok?
    ensures var out, indexes := Get(Collect(chunks).value, "choices"), Indexes(chunks);
      && out.JArr? && |out.items| == |indexes|
      && forall n :: 0 <= n < |indexes| ==>
           out.items[n].JObj? && Get(out.items[n].fields, "index") == JInt(indexes[n])
  {
    var a := TakeChunks(START, chunks).value;
    StateBehind(chunks, 0);
    AssembledChoices(a);
    forall n | 0 <= n < |Sorted(a.choices.Keys)|
      ensures ChoiceList(a.choices)[n].JObj?
           && Get(ChoiceList(a.choices)[n].fields, "index") == JInt(Sorted(a.choices.Keys)[n])
    {
      ChoiceAt(a.choices, n);
      ChoiceIndex(Sorted(a.choices.Keys)[n], a.choices[Sorted(a.choices.Keys)[n]]);
    }
  }

  /**
    Each text field of each message in the completion is the in-order concatenation of its index's string deltas. When
    there was none the field is no text, except that content may default to the empty string.
   */
  lemma CollectedText(chunks: seq<Fields>, n: nat, field: string)
    requires Collect(chunks).Ok? && n < |Indexes(chunks)| && field in TEXT_FIELDS
    ensures var text := TextOf(ChoicesFor(chunks, Indexes(chunks)[n]), field);
      var shown := MessageText(MessageAt(Collect(chunks).value, n), field);
      && (text.Some? ==> shown == text)
      && (text.None? ==> shown == None || (field == "content" && shown == Some("")))
  {
    var s := CollectedState(chunks, n);
    FoldTexts(NEW_STATE, ChoicesFor(chunks, Indexes(chunks)[n]), field);
    TextReachesMessage(s, field);
  }

  /** The message has a function call exactly when some delta had one, and its arguments are theirs concatenated in order. */
  lemma CollectedFunction(chunks: seq<Fields>, n: nat)
    requires Collect(chunks).Ok? && n < |Indexes(chunks)|
    ensures var list := FunctionDeltas(ChoicesFor(chunks, Indexes(chunks)[n]));
      var m := MessageAt(Collect(chunks).value, n);
      && ("function_call" in m <==> list != [])
      && (list != [] ==> m["function_call"].JObj? && Get(m["function_call"].fields, "arguments") == JStr(ArgumentsOf(list)))
  {
    var s := CollectedState(chunks, n);
    FoldFunctions(NEW_STATE, ChoicesFor(chunks, Indexes(chunks)[n]));
    assert "" + ArgumentsOf(FunctionDeltas(ChoicesFor(chunks, Indexes(chunks)[n])))
        == ArgumentsOf(FunctionDeltas(ChoicesFor(chunks, Indexes(chunks)[n])));
    MessageFunction(s);
  }

  /** A tool call of the output, at index j with this argument string. */
  predicate IsCall(item: Json, j: int, arguments: string)
  {
    && item.JObj? && Get(item.fields, "index") == JInt(j)
    && Get(item.fields, "function").JObj? && Get(Get(item.fields, "function").fields, "arguments") == JStr(arguments)
  }

  lemma SlotIsCall(calls: map<int, ToolSlot>, p: nat)
    requires p < |Sorted(calls.Keys)|
    ensures Sorted(calls.Keys)[p] in calls
    ensures IsCall(ToolCallList(calls)[p], Sorted(calls.Keys)[p], calls[Sorted(calls.Keys)[p]].arguments)
  {
    assert Sorted(calls.Keys)[p] in Sorted(calls.Keys);
  }

  /**
    The message has tool calls exactly when some delta had one: one per call index seen, in increasing order, each
    with the in-order concatenation of its own argument strings.
   */
  lemma CollectedCalls(chunks: seq<Fields>, n: nat)
    requires Collect(chunks).Ok? && n < |Indexes(chunks)|
    ensures var choices := ChoicesFor(chunks, Indexes(chunks)[n]);
      var indexes, m := Sorted(CallIndexes(choices)), MessageAt(Collect(chunks).value, n);
      && ("tool_calls" in m <==> indexes != [])
      && (indexes != [] ==>
            && m["tool_calls"].JArr? && |m["tool_calls"].items| == |indexes|
            && forall p :: 0 <= p < |indexes| ==>
                 IsCall(m["tool_calls"].items[p], indexes[p], ArgumentsOf(FunctionsIn(CallDeltas(choices, indexes[p])))))
  {
    var s := CollectedState(chunks, n);
    var choices := ChoicesFor(chunks, Indexes(chunks)[n]);
    forall j: int ensures j in s.toolCalls <==> j in CallIndexes(choices) { FoldCalls(NEW_STATE, choices, j); }
    assert s.toolCalls.Keys == CallIndexes(choices);
    MessageCalls(s);
    SortedEmpty(s.toolCalls.Keys);
    forall p | 0 <= p < |Sorted(s.toolCalls.Keys)|
      ensures var j := Sorted(s.toolCalls.Keys)[p];
        IsCall(ToolCallList(s.toolCalls)[p], j, ArgumentsOf(FunctionsIn(CallDeltas(choices, j))))
    {
      CallArguments(s, choices, p);
    }
  }

  lemma CallArguments(s: ChoiceState, choices: seq<Fields>, p: nat)
    requires FoldAll(MERGE_CHOICE, NEW_STATE, choices) == Ok(s) && p < |Sorted(s.toolCalls.Keys)|
    ensures var j := Sorted(s.toolCalls.Keys)[p];
      IsCall(ToolCallList(s.toolCalls)[p], j, ArgumentsOf(FunctionsIn(CallDeltas(choices, j))))
  {
    var j := Sorted(s.toolCalls.Keys)[p];
    SlotIsCall(s.toolCalls, p);
    FoldCalls(NEW_STATE, choices, j);
    FoldSlot(NEW_SLOT, CallDeltas(choices, j));
    assert "" + ArgumentsOf(FunctionsIn(CallDeltas(choices, j))) == ArgumentsOf(FunctionsIn(CallDeltas(choices, j)));
  }

  lemma SortedEmpty(s: set<int>)
    ensures Sorted(s) == [] <==> s == {}
  {
    EmptyOrNot(s);
    if s != {} {
      var x :| x in s;
      assert x in Sorted(s);
    }
  }
}
