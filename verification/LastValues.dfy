/** The fields a completion takes from its last delta to carry them: names, ids, roles, reasons, usage and everything unnamed. */
module LastValues {
  import opened Values
  import opened Collector
  import opened CollectorLaws
  import opened Indexed
  import opened Shapes
  import opened Collected

  // ----- last values -----

  type Accept = Json -> bool

  const ANY: Accept := (v: Json) => true
  const NOT_NULL: Accept := (v: Json) => v != JNull
  const IS_STRING: Accept := (v: Json) => v.JStr?
  const NOT_STRING: Accept := (v: Json) => !v.JStr?
  const IS_OBJECT: Accept := (v: Json) => v.JObj?
  /** Neither text nor null. */
  const IS_OTHER: Accept := (v: Json) => !v.JStr? && v != JNull

  /** Where in a delta the fields are looked for. */
  type View = Fields -> Fields

  function ObjectAt(m: Fields, key: string): Fields
  {
    if key in m && m[key].JObj? then m[key].fields else map[]
  }

  const ITSELF: View := (m: Fields) => m
  const DELTA: View := (choice: Fields) => ObjectAt(choice, "delta")
  const FUNCTION_CALL: View := (choice: Fields) => ObjectAt(ObjectAt(choice, "delta"), "function_call")
  const FUNCTION: View := (call: Fields) => ObjectAt(call, "function")

  function Held(m: Fields, key: string): Option<Json>
  {
    if key in m then Some(m[key]) else None
  }

  function Or(a: Option<Json>, b: Option<Json>): Option<Json>
  {
    if a.Some? then a else b
  }

  function Picked(m: Fields, key: string, accept: Accept): Option<Json>
  {
    if key in m && accept(m[key]) then Some(m[key]) else None
  }

  /** The last acceptable value under a key. */
  function Last(list: seq<Fields>, view: View, key: string, accept: Accept): Option<Json>
  {
    if list == [] then None
    else Or(Last(list[1..], view, key, accept), Picked(view(list[0]), key, accept))
  }

  /** It is one, and there is none after it. */
  lemma {:induction false} LastIs(list: seq<Fields>, view: View, key: string, accept: Accept)
    ensures var last := Last(list, view, key, accept);
      && (last.None? ==> forall i :: 0 <= i < |list| ==> Picked(view(list[i]), key, accept).None?)
      && (last.Some? ==>
            exists i :: 0 <= i < |list| && Picked(view(list[i]), key, accept) == last
              && forall k :: i < k < |list| ==> Picked(view(list[k]), key, accept).None?)
  {
    if list != [] {
      LastIs(list[1..], view, key, accept);
      assert forall i :: 0 < i < |list| ==> list[i] == list[1..][i - 1];
      var rest := Last(list[1..], view, key, accept);
      if rest.Some? {
        var i :| 0 <= i < |list[1..]| && Picked(view(list[1..][i]), key, accept) == rest
          && forall k :: i < k < |list[1..]| ==> Picked(view(list[1..][k]), key, accept).None?;
        assert list[i + 1] == list[1..][i];
      }
    }
  }

  /** A part of the state that every merge overwrites with the value it finds. */
  ghost predicate Overwrites<S(!new)>(merge: Merge<S>, part: S -> Option<Json>, view: View, key: string, accept: Accept)
  {
    forall s: S, c: Fields :: merge(s, c).Ok? ==>
      part(merge(s, c).value) == Or(Picked(view(c), key, accept), part(s))
  }

  lemma OrInTurn(a: Option<Json>, b: Option<Json>, c: Option<Json>)
    ensures Or(a, Or(b, c)) == Or(Or(a, b), c)
  {
  }

  /** After a fold such a part is the last value found, or what it was before. */
  lemma {:induction false} FoldLast<S(!new)>(merge: Merge<S>, part: S -> Option<Json>, view: View, key: string, accept: Accept,
                                             s: S, list: seq<Fields>)
    requires Overwrites(merge, part, view, key, accept) && FoldAll(merge, s, list).Ok?
    ensures part(FoldAll(merge, s, list).value) == Or(Last(list, view, key, accept), part(s))
    decreases |list|
  {
    if list != [] {
      FoldLast(merge, part, view, key, accept, merge(s, list[0]).value, list[1..]);
      OrInTurn(Last(list[1..], view, key, accept), Picked(view(list[0]), key, accept), part(s));
    }
  }

  // ----- parts of a choice -----

  function ChoiceExtra(key: string): ChoiceState -> Option<Json> { (s: ChoiceState) => Held(s.choiceExtras, key) }
  function MessageExtra(key: string): ChoiceState -> Option<Json> { (s: ChoiceState) => Held(s.messageExtras, key) }
  function NamedPart(key: string): ChoiceState -> Option<Json> { (s: ChoiceState) => Held(s.functionCall, key) }
  function FinishPart(): ChoiceState -> Option<Json>
  {
    (s: ChoiceState) => if s.finishReason == JNull then None else Some(s.finishReason)
  }

  function RolePart(): ChoiceState -> Option<Json> { (s: ChoiceState) => Some(JStr(s.role)) }
  function SlotExtra(key: string): ToolSlot -> Option<Json> { (slot: ToolSlot) => Held(slot.extras, key) }
  function SlotNamed(key: string): ToolSlot -> Option<Json> { (slot: ToolSlot) => Held(slot.named, key) }

  lemma Plain(s: ChoiceState, c: Fields)
    requires MergeChoice(s, c).Ok?
    ensures var d, t := DeltaOf(c), MergeChoice(s, c).value;
      && d == Some(ObjectAt(c, "delta"))
      && t.choiceExtras == s.choiceExtras + ChoiceExtrasOf(c)
      && t.messageExtras == s.messageExtras + ExtrasOf(d.value)
      && t.role == (if Get(d.value, "role").JStr? then Get(d.value, "role").s else s.role)
      && t.finishReason == (if Get(c, "finish_reason") != JNull then Get(c, "finish_reason") else s.finishReason)
      && t.seen == s.seen + d.value.Keys
  {
    var d := DeltaOf(c).value;
    CallsKeepPlain(MergePlain(Started(s, c), d), d);
  }

  lemma ChoiceExtraOverwrites(key: string)
    requires key !in {"index", "delta", "finish_reason"}
    ensures Overwrites(MERGE_CHOICE, ChoiceExtra(key), ITSELF, key, ANY)
  {
    forall s: ChoiceState, c: Fields | MergeChoice(s, c).Ok?
      ensures ChoiceExtra(key)(MergeChoice(s, c).value) == Or(Picked(c, key, ANY), ChoiceExtra(key)(s))
    {
      Plain(s, c);
    }
  }

  lemma FinishOverwrites()
    ensures Overwrites(MERGE_CHOICE, FinishPart(), ITSELF, "finish_reason", NOT_NULL)
  {
    forall s: ChoiceState, c: Fields | MergeChoice(s, c).Ok?
      ensures FinishPart()(MergeChoice(s, c).value) == Or(Picked(c, "finish_reason", NOT_NULL), FinishPart()(s))
    {
      Plain(s, c);
    }
  }

  lemma RoleOverwrites()
    ensures Overwrites(MERGE_CHOICE, RolePart(), DELTA, "role", IS_STRING)
  {
    forall s: ChoiceState, c: Fields | MergeChoice(s, c).Ok?
      ensures RolePart()(MergeChoice(s, c).value) == Or(Picked(DELTA(c), "role", IS_STRING), RolePart()(s))
    {
      Plain(s, c);
    }
  }

  /** Which values of a delta's field stay in the message as they are. */
  function Kept(key: string): Accept
  {
    if key == "role" then NOT_STRING else if key in TEXT_FIELDS then IS_OTHER else ANY
  }

  lemma MessageExtraOverwrites(key: string)
    requires key !in {"tool_calls", "function_call"}
    ensures Overwrites(MERGE_CHOICE, MessageExtra(key), DELTA, key, Kept(key))
  {
    forall s: ChoiceState, c: Fields | MergeChoice(s, c).Ok?
      ensures MessageExtra(key)(MergeChoice(s, c).value) == Or(Picked(DELTA(c), key, Kept(key)), MessageExtra(key)(s))
    {
      Plain(s, c);
    }
  }

  lemma CallNamed(s: ChoiceState, value: Json, key: string)
    requires MergeFunctionCall(s, value).Ok? && key != "arguments"
    ensures Held(MergeFunctionCall(s, value).value.functionCall, key)
         == Or(Picked(if value.JObj? then value.fields else map[], key, NOT_NULL), Held(s.functionCall, key))
  {
  }

  lemma MergedFunctionCall(s: ChoiceState, c: Fields) returns (t: ChoiceState, value: Json)
    requires MergeChoice(s, c).Ok?
    ensures t.functionCall == s.functionCall && MergeFunctionCall(t, value) == MergeChoice(s, c)
    ensures FUNCTION_CALL(c) == if value.JObj? then value.fields else map[]
  {
    var d := DeltaOf(c).value;
    var plain := MergePlain(Started(s, c), d);
    t, value := plain.(toolCalls := MergeToolCalls(plain.toolCalls, Get(d, "tool_calls")).value), Get(d, "function_call");
    DeltaIs(c);
  }

  lemma DeltaIs(c: Fields)
    requires DeltaOf(c).Some?
    ensures DeltaOf(c).value == ObjectAt(c, "delta")
  {
  }

  lemma NamedOverwrites(key: string)
    requires key != "arguments"
    ensures Overwrites(MERGE_CHOICE, NamedPart(key), FUNCTION_CALL, key, NOT_NULL)
  {
    forall s: ChoiceState, c: Fields | MergeChoice(s, c).Ok?
      ensures NamedPart(key)(MergeChoice(s, c).value) == Or(Picked(FUNCTION_CALL(c), key, NOT_NULL), NamedPart(key)(s))
    {
      var t, value := MergedFunctionCall(s, c);
      CallNamed(t, value, key);
    }
  }

  lemma SlotExtraOverwrites(key: string)
    requires key !in {"index", "function"}
    ensures Overwrites(MERGE_SLOT, SlotExtra(key), ITSELF, key, ANY)
  {
  }

  lemma SlotNamedOverwrites(key: string)
    requires key != "arguments"
    ensures Overwrites(MERGE_SLOT, SlotNamed(key), FUNCTION, key, NOT_NULL)
  {
    forall slot: ToolSlot, call: Fields | MergeSlot(slot, call).Ok?
      ensures SlotNamed(key)(MergeSlot(slot, call).value) == Or(Picked(FUNCTION(call), key, NOT_NULL), SlotNamed(key)(slot))
    {
      assert FUNCTION(call) == if Get(call, "function").JObj? then Get(call, "function").fields else map[];
    }
  }

  /** The names a stream's deltas carry, wherever they are. */
  ghost predicate Seen(choices: seq<Fields>, key: string)
  {
    Last(choices, DELTA, key, ANY).Some?
  }

  lemma {:induction false} SeenTaken(s: ChoiceState, choices: seq<Fields>, key: string)
    requires FoldAll(MERGE_CHOICE, s, choices).Ok?
    ensures key in FoldAll(MERGE_CHOICE, s, choices).value.seen <==> key in s.seen || Seen(choices, key)
    decreases |choices|
  {
    if choices != [] {
      Plain(s, choices[0]);
      SeenTaken(MergeChoice(s, choices[0]).value, choices[1..], key);
    }
  }

  // ----- choices of the completion -----

  /** Choice n of the completion, or nothing. */
  function ChoiceOut(out: Fields, n: nat): Fields
  {
    var choices := Get(out, "choices");
    if choices.JArr? && n < |choices.items| && choices.items[n].JObj? then choices.items[n].fields else map[]
  }

  /** The choice objects a stream has for the index of choice n of its completion. */
  function Deltas(chunks: seq<Fields>, n: nat): seq<Fields>
    requires n < |Indexes(chunks)|
  {
    ChoicesFor(chunks, Indexes(chunks)[n])
  }

  lemma CollectedChoice(chunks: seq<Fields>, n: nat) returns (s: ChoiceState)
    requires Collect(chunks).Ok? && n < |Indexes(chunks)|
    ensures FoldAll(MERGE_CHOICE, NEW_STATE, Deltas(chunks, n)) == Ok(s) && ExtrasClean(s)
    ensures ChoiceOut(Collect(chunks).value, n) == ChoiceJson(Indexes(chunks)[n], s).fields
    ensures MessageAt(Collect(chunks).value, n) == Message(s)
  {
    var a := TakeChunks(START, chunks).value;
    s := CollectedState(chunks, n);
    StateBehind(chunks, Indexes(chunks)[n]);
    AssembledChoices(a);
    ChoiceAt(a.choices, n);
  }

  lemma ChoiceField(index: int, s: ChoiceState, key: string)
    requires key !in {"index", "message", "finish_reason"}
    ensures Held(ChoiceJson(index, s).fields, key) == Held(s.choiceExtras, key)
    ensures Held(ChoiceJson(index, s).fields, "finish_reason") == Some(s.finishReason)
  {
  }

  /** The reason a choice finished is the last non-null one, and every field of its own is the last value it was given. */
  lemma CollectedReason(chunks: seq<Fields>, n: nat, key: string)
    requires Collect(chunks).Ok? && n < |Indexes(chunks)| && key !in {"index", "delta", "message", "finish_reason"}
    ensures Held(ChoiceOut(Collect(chunks).value, n), "finish_reason")
         == Or(Last(Deltas(chunks, n), ITSELF, "finish_reason", NOT_NULL), Some(JNull))
    ensures Held(ChoiceOut(Collect(chunks).value, n), key) == Last(Deltas(chunks, n), ITSELF, key, ANY)
  {
    var s := CollectedChoice(chunks, n);
    ChoiceField(Indexes(chunks)[n], s, key);
    FinishOverwrites();
    FoldLast(MERGE_CHOICE, FinishPart(), ITSELF, "finish_reason", NOT_NULL, NEW_STATE, Deltas(chunks, n));
    ChoiceExtraOverwrites(key);
    FoldLast(MERGE_CHOICE, ChoiceExtra(key), ITSELF, key, ANY, NEW_STATE, Deltas(chunks, n));
  }

  // ----- messages of the completion -----

  lemma PlainField(s: ChoiceState, key: string)
    requires key !in TEXT_FIELDS && key !in {"tool_calls", "function_call"}
    ensures Held(Message(s), key) == Or(Held(s.messageExtras, key), if key == "role" then Some(JStr(s.role)) else None)
  {
    CallsKeepTexts(s, WithNulls(s, WithTexts(s)), key);
    MessageDefault(s, key);
  }

  lemma ExtraTaken(choices: seq<Fields>, s: ChoiceState, key: string)
    requires FoldAll(MERGE_CHOICE, NEW_STATE, choices) == Ok(s) && key !in {"tool_calls", "function_call"}
    ensures Held(s.messageExtras, key) == Last(choices, DELTA, key, Kept(key))
  {
    MessageExtraOverwrites(key);
    FoldLast(MERGE_CHOICE, MessageExtra(key), DELTA, key, Kept(key), NEW_STATE, choices);
  }

  lemma RoleTaken(choices: seq<Fields>, s: ChoiceState)
    requires FoldAll(MERGE_CHOICE, NEW_STATE, choices) == Ok(s)
    ensures Some(JStr(s.role)) == Or(Last(choices, DELTA, "role", IS_STRING), Some(JStr("assistant")))
  {
    RoleOverwrites();
    FoldLast(MERGE_CHOICE, RolePart(), DELTA, "role", IS_STRING, NEW_STATE, choices);
  }

  lemma RoleShown(choices: seq<Fields>, s: ChoiceState)
    requires FoldAll(MERGE_CHOICE, NEW_STATE, choices) == Ok(s)
    ensures Held(Message(s), "role")
         == Or(Last(choices, DELTA, "role", NOT_STRING), Or(Last(choices, DELTA, "role", IS_STRING), Some(JStr("assistant"))))
  {
    RoleField(s, "role");
    ExtraTaken(choices, s, "role");
    RoleTaken(choices, s);
  }

  lemma RoleField(s: ChoiceState, key: string)
    requires key == "role"
    ensures Held(Message(s), key) == Or(Held(s.messageExtras, key), Some(JStr(s.role)))
  {
    PlainField(s, key);
  }

  /** A role that is no string, null included, stays as it is and wins; else the role is the last string, or assistant. */
  lemma CollectedRole(chunks: seq<Fields>, n: nat)
    requires Collect(chunks).Ok? && n < |Indexes(chunks)|
    ensures Held(MessageAt(Collect(chunks).value, n), "role")
         == Or(Last(Deltas(chunks, n), DELTA, "role", NOT_STRING),
               Or(Last(Deltas(chunks, n), DELTA, "role", IS_STRING), Some(JStr("assistant"))))
  {
    var s := CollectedChoice(chunks, n);
    RoleShown(Deltas(chunks, n), s);
  }

  /** Every other field of the message is the last value a delta gave it. */
  lemma CollectedExtra(chunks: seq<Fields>, n: nat, key: string)
    requires Collect(chunks).Ok? && n < |Indexes(chunks)|
    requires key !in TEXT_FIELDS && key !in {"role", "tool_calls", "function_call"}
    ensures Held(MessageAt(Collect(chunks).value, n), key) == Last(Deltas(chunks, n), DELTA, key, ANY)
  {
    var s := CollectedChoice(chunks, n);
    PlainField(s, key);
    ExtraTaken(Deltas(chunks, n), s, key);
  }

  /** The message says something besides its content. */
  predicate SaysElse(m: Fields)
  {
    "reasoning" in m || "reasoning_content" in m || "refusal" in m || "tool_calls" in m || "function_call" in m
  }

  lemma SilentField(s: ChoiceState, key: string)
    requires key in TEXT_FIELDS && key !in s.texts && ExtrasClean(s)
    ensures key in s.messageExtras || key in s.seen ==> Held(Message(s), key) == Or(Held(s.messageExtras, key), Some(JNull))
    ensures key !in s.messageExtras && key !in s.seen && key != "content" ==> key !in Message(s)
    ensures key !in s.messageExtras && key !in s.seen && key == "content" ==>
      Held(Message(s), key) == Some(if SaysElse(Message(s)) then JNull else JStr(""))
  {
    NotStructural(key);
    CallsKeepTexts(s, WithNulls(s, WithTexts(s)), key);
    MessageDefault(s, key);
    if key == "content" {
      MessageCalls(s);
      MessageFunction(s);
      MessageDefault(s, "reasoning");
      MessageDefault(s, "reasoning_content");
      MessageDefault(s, "refusal");
    }
  }

  /**
    A text field without a string delta is the last other value it was given, else null if it was ever named; the content
    is there in any case, empty when the message says nothing else and null when it does.
   */
  lemma CollectedSilence(chunks: seq<Fields>, n: nat, key: string)
    requires Collect(chunks).Ok? && n < |Indexes(chunks)| && key in TEXT_FIELDS && TextOf(Deltas(chunks, n), key).None?
    ensures var m, list := MessageAt(Collect(chunks).value, n), Deltas(chunks, n);
      && (Seen(list, key) ==> Held(m, key) == Or(Last(list, DELTA, key, IS_OTHER), Some(JNull)))
      && (!Seen(list, key) && key != "content" ==> key !in m)
      && (!Seen(list, key) && key == "content" ==> Held(m, key) == Some(if SaysElse(m) then JNull else JStr("")))
  {
    var s := CollectedChoice(chunks, n);
    var list := Deltas(chunks, n);
    FoldTexts(NEW_STATE, list, key);
    assert key !in s.texts;
    SeenTaken(NEW_STATE, list, key);
    NotStructural(key);
    ExtraTaken(list, s, key);
    LastAny(list, DELTA, key, IS_OTHER);
    assert key != "role";
    SilentField(s, key);
  }

  lemma {:induction false} LastAny(list: seq<Fields>, view: View, key: string, accept: Accept)
    ensures Last(list, view, key, accept).Some? ==> Last(list, view, key, ANY).Some?
  {
    if list != [] {
      LastAny(list[1..], view, key, accept);
    }
  }

  // ----- calls -----

  lemma NamedTaken(choices: seq<Fields>, s: ChoiceState, key: string)
    requires FoldAll(MERGE_CHOICE, NEW_STATE, choices) == Ok(s) && key != "arguments"
    ensures Held(s.functionCall, key)
         == Or(Last(choices, FUNCTION_CALL, key, NOT_NULL), if key == "name" then Some(JStr("")) else None)
  {
    NamedOverwrites(key);
    FoldLast(MERGE_CHOICE, NamedPart(key), FUNCTION_CALL, key, NOT_NULL, NEW_STATE, choices);
  }

  lemma FunctionShown(choices: seq<Fields>, s: ChoiceState)
    requires FoldAll(MERGE_CHOICE, NEW_STATE, choices) == Ok(s) && ExtrasClean(s) && FunctionDeltas(choices) != []
    ensures ObjectAt(Message(s), "function_call") == s.functionCall["arguments" := JStr(s.functionArguments)]
  {
    FoldFunctions(NEW_STATE, choices);
    MessageFunction(s);
  }

  /** The legacy function call's name is the last non-null one, or empty; so is every other field of it but the arguments. */
  lemma CollectedFunctionName(chunks: seq<Fields>, n: nat, key: string)
    requires Collect(chunks).Ok? && n < |Indexes(chunks)| && FunctionDeltas(Deltas(chunks, n)) != [] && key != "arguments"
    ensures Held(ObjectAt(MessageAt(Collect(chunks).value, n), "function_call"), key)
         == Or(Last(Deltas(chunks, n), FUNCTION_CALL, key, NOT_NULL), if key == "name" then Some(JStr("")) else None)
  {
    var s := CollectedChoice(chunks, n);
    FunctionShown(Deltas(chunks, n), s);
    NamedTaken(Deltas(chunks, n), s, key);
  }

  /** Call p of a message, or nothing. */
  function CallOut(m: Fields, p: nat): Fields
  {
    var calls := Get(m, "tool_calls");
    if calls.JArr? && p < |calls.items| && calls.items[p].JObj? then calls.items[p].fields else map[]
  }

  /** The call deltas for the index of call p of message n. */
  function CallsAt(chunks: seq<Fields>, n: nat, p: nat): seq<Fields>
    requires n < |Indexes(chunks)| && p < |Sorted(CallIndexes(Deltas(chunks, n)))|
  {
    CallDeltas(Deltas(chunks, n), Sorted(CallIndexes(Deltas(chunks, n)))[p])
  }

  lemma CollectedSlot(chunks: seq<Fields>, n: nat, p: nat) returns (slot: ToolSlot)
    requires Collect(chunks).Ok? && n < |Indexes(chunks)| && p < |Sorted(CallIndexes(Deltas(chunks, n)))|
    ensures FoldAll(MERGE_SLOT, NEW_SLOT, CallsAt(chunks, n, p)) == Ok(slot)
    ensures CallOut(MessageAt(Collect(chunks).value, n), p)
         == SlotJson(Sorted(CallIndexes(Deltas(chunks, n)))[p], slot).fields
  {
    var s := CollectedChoice(chunks, n);
    slot := SlotBehind(Deltas(chunks, n), s, p);
  }

  lemma SlotBehind(choices: seq<Fields>, s: ChoiceState, p: nat) returns (slot: ToolSlot)
    requires FoldAll(MERGE_CHOICE, NEW_STATE, choices) == Ok(s) && ExtrasClean(s) && p < |Sorted(CallIndexes(choices))|
    ensures FoldAll(MERGE_SLOT, NEW_SLOT, CallDeltas(choices, Sorted(CallIndexes(choices))[p])) == Ok(slot)
    ensures CallOut(Message(s), p) == SlotJson(Sorted(CallIndexes(choices))[p], slot).fields
  {
    var j := Sorted(CallIndexes(choices))[p];
    forall i: int ensures i in s.toolCalls <==> i in CallIndexes(choices) { FoldCalls(NEW_STATE, choices, i); }
    assert s.toolCalls.Keys == CallIndexes(choices);
    assert j in Sorted(CallIndexes(choices));
    slot := s.toolCalls[j];
    FoldCalls(NEW_STATE, choices, j);
    CallsShown(s, p);
  }

  lemma CallsShown(s: ChoiceState, p: nat)
    requires ExtrasClean(s) && p < |Sorted(s.toolCalls.Keys)|
    ensures Sorted(s.toolCalls.Keys)[p] in s.toolCalls
    ensures CallOut(Message(s), p) == SlotJson(Sorted(s.toolCalls.Keys)[p], s.toolCalls[Sorted(s.toolCalls.Keys)[p]]).fields
  {
    assert Sorted(s.toolCalls.Keys)[p] in Sorted(s.toolCalls.Keys);
    MessageCalls(s);
  }

  lemma SlotTaken(calls: seq<Fields>, slot: ToolSlot, key: string)
    requires FoldAll(MERGE_SLOT, NEW_SLOT, calls) == Ok(slot)
    ensures key !in {"index", "function"} ==>
      Held(slot.extras, key) == Or(Last(calls, ITSELF, key, ANY), if key == "type" then Some(JStr("function")) else None)
    ensures key != "arguments" ==>
      Held(slot.named, key) == Or(Last(calls, FUNCTION, key, NOT_NULL), if key == "name" then Some(JStr("")) else None)
  {
    if key !in {"index", "function"} {
      SlotExtraOverwrites(key);
      FoldLast(MERGE_SLOT, SlotExtra(key), ITSELF, key, ANY, NEW_SLOT, calls);
    }
    if key != "arguments" {
      SlotNamedOverwrites(key);
      FoldLast(MERGE_SLOT, SlotNamed(key), FUNCTION, key, NOT_NULL, NEW_SLOT, calls);
    }
  }

  /**
    A tool call's function name is the last non-null name among its own deltas, or empty, and every other field of the
    function but the arguments likewise; its id, its type and every other field of its own is the last value given, with
    "function" for a type that was never given.
   */
  lemma CollectedCall(chunks: seq<Fields>, n: nat, p: nat, key: string)
    requires Collect(chunks).Ok? && n < |Indexes(chunks)| && p < |Sorted(CallIndexes(Deltas(chunks, n)))|
    ensures var call, deltas := CallOut(MessageAt(Collect(chunks).value, n), p), CallsAt(chunks, n, p);
      && (key != "arguments" ==>
            Held(ObjectAt(call, "function"), key)
            == Or(Last(deltas, FUNCTION, key, NOT_NULL), if key == "name" then Some(JStr("")) else None))
      && (key !in {"index", "function"} ==>
            Held(call, key) == Or(Last(deltas, ITSELF, key, ANY), if key == "type" then Some(JStr("function")) else None))
  {
    var slot := CollectedSlot(chunks, n, p);
    SlotTaken(CallsAt(chunks, n, p), slot, key);
  }

  // ----- the envelope -----

  lemma {:induction false} EnvelopeTaken(a: Acc, chunks: seq<Fields>, key: string)
    requires TakeChunks(a, chunks).Ok?
    ensures var b := TakeChunks(a, chunks).value;
      && (key !in {"choices", "usage", "trustedrouter", "object"} ==>
            Held(b.envelope, key) == Or(Last(chunks, ITSELF, key, ANY), Held(a.envelope, key)))
      && b.usage == Or(Last(chunks, ITSELF, "usage", IS_OBJECT), a.usage)
    decreases |chunks|
  {
    if chunks != [] {
      EnvelopeTaken(TakeChunk(a, chunks[0]).value, chunks[1..], key);
    }
  }

  function EnvelopeDefault(key: string): Option<Json>
  {
    if key == "id" || key == "model" then Some(JStr("")) else if key == "created" then Some(JInt(0)) else None
  }

  lemma AssembledField(a: Acc, key: string)
    requires key !in {"choices", "usage", "object"}
    ensures Held(Assemble(a), key) == Or(Held(a.envelope, key), EnvelopeDefault(key))
    ensures "usage" !in a.envelope ==> Held(Assemble(a), "usage") == a.usage
    ensures Held(Assemble(a), "object") == Some(JStr("chat.completion"))
  {
  }

  lemma {:induction false} NoUsageInside(a: Acc, chunks: seq<Fields>)
    requires TakeChunks(a, chunks).Ok? && "usage" !in a.envelope
    ensures "usage" !in TakeChunks(a, chunks).value.envelope
    decreases |chunks|
  {
    if chunks != [] {
      NoUsageInside(TakeChunk(a, chunks[0]).value, chunks[1..]);
    }
  }

  /** Every field of the envelope is the last value a chunk gave it, with the three defaults; the usage is the last object. */
  lemma CollectedEnvelope(chunks: seq<Fields>, key: string)
    requires Collect(chunks).Ok? && key !in {"choices", "usage", "object", "trustedrouter"}
    ensures var out := Collect(chunks).value;
      && Held(out, key) == Or(Last(chunks, ITSELF, key, ANY), EnvelopeDefault(key))
      && Held(out, "usage") == Last(chunks, ITSELF, "usage", IS_OBJECT)
      && Held(out, "object") == Some(JStr("chat.completion"))
  {
    var a := TakeChunks(START, chunks).value;
    EnvelopeTaken(START, chunks, key);
    NoUsageInside(START, chunks);
    AssembledField(a, key);
  }
}
