/** Two halves of a choice: what they leave of a state is, but for one kind of string, what the whole leaves. */
module Parts {
  import opened Values
  import opened Collector
  import opened CollectorLaws
  import opened Indexed
  import opened Shapes

  // ----- all of a state but one kind of string -----

  datatype Part = Texts | Arguments | Calls

  /** A state without its texts, its function-call arguments, or its tool calls. */
  function Erased(s: ChoiceState, p: Part): ChoiceState
  {
    match p
    case Texts => s.(texts := map[])
    case Arguments => s.(functionArguments := "")
    case Calls => s.(toolCalls := map[])
  }

  lemma ArgumentsErased(s: ChoiceState, d: Fields, arguments: string)
    requires ShapedDelta(d)
    ensures MergeCalls(s, d).Ok? && MergeCalls(s.(functionArguments := arguments), d).Ok?
    ensures Erased(MergeCalls(s.(functionArguments := arguments), d).value, Arguments)
         == Erased(MergeCalls(s, d).value, Arguments)
  {
    DeltaShape(s, d);
    DeltaShape(s.(functionArguments := arguments), d);
  }

  lemma CallsErased(s: ChoiceState, d: Fields, calls: map<int, ToolSlot>)
    requires ShapedDelta(d)
    ensures MergeCalls(s, d).Ok? && MergeCalls(s.(toolCalls := calls), d).Ok?
    ensures Erased(MergeCalls(s.(toolCalls := calls), d).value, Calls) == Erased(MergeCalls(s, d).value, Calls)
  {
    DeltaShape(s, d);
    DeltaShape(s.(toolCalls := calls), d);
    CallsApart(s, d);
    CallsApart(s.(toolCalls := calls), d);
    FunctionCallIgnoresTools(s, calls, Get(d, "function_call"));
  }

  lemma CallsApart(s: ChoiceState, d: Fields)
    requires MergeCalls(s, d).Ok?
    ensures MergeFunctionCall(s, Get(d, "function_call")).Ok?
    ensures Erased(MergeCalls(s, d).value, Calls) == Erased(MergeFunctionCall(s, Get(d, "function_call")).value, Calls)
  {
    var calls := MergeToolCalls(s.toolCalls, Get(d, "tool_calls")).value;
    FunctionCallIgnoresTools(s, calls, Get(d, "function_call"));
  }

  /** What a choice does to the rest of a state does not depend on that part. */
  lemma ErasedMerge(s: ChoiceState, t: ChoiceState, choice: Fields, p: Part)
    requires ShapedChoice(choice) && Erased(s, p) == Erased(t, p)
    ensures MergeChoice(s, choice).Ok? && MergeChoice(t, choice).Ok?
    ensures Erased(MergeChoice(s, choice).value, p) == Erased(MergeChoice(t, choice).value, p)
  {
    ChoiceShape(s, choice);
    ChoiceShape(t, choice);
    var d := DeltaOf(choice).value;
    var a, b := MergePlain(Started(s, choice), d), MergePlain(Started(t, choice), d);
    match p
    case Texts => CallsIgnoreTexts(a, b.texts, d);
    case Arguments => ArgumentsErased(a, d, b.functionArguments);
    case Calls => CallsErased(a, d, b.toolCalls);
  }

  lemma {:induction false} ErasedFold(s: ChoiceState, t: ChoiceState, list: seq<Fields>, p: Part)
    requires (forall c :: c in list ==> ShapedChoice(c)) && Erased(s, p) == Erased(t, p)
    ensures FoldAll(MERGE_CHOICE, s, list).Ok? && FoldAll(MERGE_CHOICE, t, list).Ok?
    ensures Erased(FoldAll(MERGE_CHOICE, s, list).value, p) == Erased(FoldAll(MERGE_CHOICE, t, list).value, p)
    decreases |list|
  {
    if list != [] {
      ErasedMerge(s, t, list[0], p);
      ErasedFold(MergeChoice(s, list[0]).value, MergeChoice(t, list[0]).value, list[1..], p);
    }
  }

  lemma SeenGrows(s: ChoiceState, choice: Fields)
    requires MergeChoice(s, choice).Ok?
    ensures var t := MergeChoice(s, choice).value;
      s.seen + DeltaOf(choice).value.Keys == t.seen && (s.sawFunctionCall ==> t.sawFunctionCall)
  {
    CallsKeepPlain(MergePlain(Started(s, choice), DeltaOf(choice).value), DeltaOf(choice).value);
  }

  lemma {:induction false} FoldSeen(s: ChoiceState, list: seq<Fields>)
    requires FoldAll(MERGE_CHOICE, s, list).Ok?
    ensures var t := FoldAll(MERGE_CHOICE, s, list).value; s.seen <= t.seen && (s.sawFunctionCall ==> t.sawFunctionCall)
    decreases |list|
  {
    if list != [] {
      SeenGrows(s, list[0]);
      FoldSeen(MergeChoice(s, list[0]).value, list[1..]);
    }
  }

  /** A state that has already had such a string. */
  predicate Marked(s: ChoiceState, key: string)
  {
    key in s.seen && (key == "function_call" ==> s.sawFunctionCall)
  }

  /** The first half leaves all but that part as the whole does, and then the second half changes nothing else. */
  ghost predicate Halves(choice: Fields, head: Fields, rest: Fields, key: string, p: Part)
  {
    && ShapedChoice(choice) && ShapedChoice(head) && ShapedChoice(rest)
    && (forall s: ChoiceState :: MergeChoice(s, choice).Ok? && MergeChoice(s, head).Ok? ==>
          Erased(MergeChoice(s, choice).value, p) == Erased(MergeChoice(s, head).value, p)
          && Marked(MergeChoice(s, head).value, key))
    && (forall s: ChoiceState :: Marked(s, key) && MergeChoice(s, rest).Ok? ==>
          Erased(MergeChoice(s, rest).value, p) == Erased(s, p))
  }

  lemma FoldFirst(s: ChoiceState, first: Fields, rest: seq<Fields>)
    requires ShapedChoice(first)
    ensures MergeChoice(s, first).Ok?
    ensures FoldAll(MERGE_CHOICE, s, [first] + rest) == FoldAll(MERGE_CHOICE, MergeChoice(s, first).value, rest)
  {
    ChoiceShape(s, first);
    assert ([first] + rest)[1..] == rest;
  }

  lemma FoldLast(s: ChoiceState, list: seq<Fields>, last: Fields)
    requires FoldAll(MERGE_CHOICE, s, list).Ok?
    ensures FoldAll(MERGE_CHOICE, s, list + [last]) == MergeChoice(FoldAll(MERGE_CHOICE, s, list).value, last)
  {
    FoldAllConcat(MERGE_CHOICE, s, list, [last]);
    assert [last][1..] == [];
  }

  /** The whole, and the halves with the later choices between them, leave the same but for that part. */
  lemma HalvesErased(s: ChoiceState, choice: Fields, head: Fields, rest: Fields, later: seq<Fields>, key: string, p: Part)
    requires Halves(choice, head, rest, key, p) && forall c :: c in later ==> ShapedChoice(c)
    ensures FoldAll(MERGE_CHOICE, s, [choice] + later).Ok? && FoldAll(MERGE_CHOICE, s, [head] + later + [rest]).Ok?
    ensures Erased(FoldAll(MERGE_CHOICE, s, [choice] + later).value, p)
         == Erased(FoldAll(MERGE_CHOICE, s, [head] + later + [rest]).value, p)
  {
    FoldFirst(s, choice, later);
    FoldFirst(s, head, later);
    var a, b := MergeChoice(s, choice).value, MergeChoice(s, head).value;
    ErasedFold(a, b, later, p);
    FoldSeen(b, later);
    FoldLast(s, [head] + later, rest);
    ChoiceShape(FoldAll(MERGE_CHOICE, b, later).value, rest);
  }

  lemma DeltaOnly(t: ChoiceState, index: int, d: Fields)
    ensures MergeChoice(t, map["index" := JInt(index), "delta" := JObj(d)]) == MergeDelta(t, d)
  {
    var rest: Fields := map["index" := JInt(index), "delta" := JObj(d)];
    assert ChoiceExtrasOf(rest) == map[];
    assert t.choiceExtras + map[] == t.choiceExtras;
    assert Started(t, rest) == t;
  }

  /** Fields beside the texts that a delta may change without changing what it merges plainly. */
  lemma PlainButOther(s: ChoiceState, d: Fields, key: string, value: Json)
    requires key in d && (key == "tool_calls" || key == "function_call")
    ensures MergePlain(s, d[key := value]) == MergePlain(s, d)
  {
    var other := d[key := value];
    assert "tool_calls" !in TEXT_FIELDS && "function_call" !in TEXT_FIELDS;
    assert other.Keys == d.Keys && TextsIn(other) == TextsIn(d);
    assert ExtrasOf(other) == ExtrasOf(d);
    assert MergeTexts(s.texts, other) == MergeTexts(s.texts, d);
  }

  /** A delta holding only one of these fields merges nothing plainly, once the field has been seen. */
  lemma PlainNothing(s: ChoiceState, key: string, value: Json)
    requires key in s.seen && (key == "tool_calls" || key == "function_call")
    ensures MergePlain(s, map[key := value]) == s
  {
    var d: Fields := map[key := value];
    assert "tool_calls" !in TEXT_FIELDS && "function_call" !in TEXT_FIELDS;
    assert d.Keys == {key} && s.seen + {key} == s.seen;
    assert TextsIn(d) == {} && ExtrasOf(d) == map[];
    assert MergeTexts(s.texts, d) == s.texts by {
      forall f | f in s.texts ensures TextAt(s.texts, f) + "" == s.texts[f] {}
    }
    assert s.messageExtras + map[] == s.messageExtras;
  }
}
