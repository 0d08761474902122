/** Rebuilding a completion from streamed chunks: a fold that must not depend on how the stream was cut. */
module Collector {
  import opened Values

  datatype Json =
    | JNull | JBool(b: bool) | JInt(i: int) | JFloat(r: real) | JStr(s: string)
    | JArr(items: seq<Json>) | JObj(fields: map<string, Json>)

  type Fields = map<string, Json>

  /** Every shape failure is the same stream protocol error to the caller. */
  datatype CollectError = EmptyStream | NoChoices | BadShape

  const TEXT_FIELDS: set<string> := {"content", "reasoning", "reasoning_content", "refusal"}

  datatype ToolSlot = ToolSlot(extras: Fields, named: Fields, arguments: string)

  datatype ChoiceState = ChoiceState(
    role: string, texts: map<string, string>, seen: set<string>, messageExtras: Fields, choiceExtras: Fields,
    toolCalls: map<int, ToolSlot>, functionCall: Fields, functionArguments: string, sawFunctionCall: bool,
    finishReason: Json)

  const NEW_SLOT := ToolSlot(map["type" := JStr("function")], map["name" := JStr("")], "")
  const NEW_STATE := ChoiceState(
    "assistant", map[], {}, map[], map[], map[], map["name" := JStr("")], "", false, JNull)

  type Choices = map<int, ChoiceState>

  datatype Acc = Acc(envelope: Fields, usage: Option<Json>, choices: Choices)

  function Get(m: Fields, key: string): Json
  {
    if key in m then m[key] else JNull
  }

  /** isinstance(raw, int), which holds of booleans too; anything else falls back to the position. */
  function IndexOr(m: Fields, ordinal: int): int
  {
    if "index" !in m then ordinal
    else match m["index"]
      case JInt(i) => i
      case JBool(b) => if b then 1 else 0
      case _ => ordinal
  }

  // ----- tool calls -----

  /** The string appended to a slot's arguments, or None when the value is neither a string nor null. */
  function ArgumentText(f: Fields): Option<string>
  {
    match Get(f, "arguments")
    case JNull => Some("")
    case JStr(s) => Some(s)
    case _ => None
  }

  /** The non-null fields of a function delta other than its arguments. */
  function Named(f: Fields): Fields
  {
    f - ({"arguments"} + set k | k in f && f[k] == JNull)
  }

  function SlotAt(calls: map<int, ToolSlot>, j: int): ToolSlot
  {
    if j in calls then calls[j] else NEW_SLOT
  }

  function CallExtrasOf(call: Fields): Fields
  {
    call - {"index", "function"}
  }

  /** One tool-call delta merged into its slot. */
  function MergeSlot(slot: ToolSlot, call: Fields): Result<ToolSlot, CollectError>
  {
    var extras := slot.extras + CallExtrasOf(call);
    match Get(call, "function")
    case JNull => Ok(slot.(extras := extras))
    case JObj(f) =>
      var text := ArgumentText(f);
      if text.None? then Err(BadShape)
      else Ok(ToolSlot(extras, slot.named + Named(f), slot.arguments + text.value))
    case _ => Err(BadShape)
  }

  function TakeToolCall(calls: map<int, ToolSlot>, call: Json, ordinal: int): Result<map<int, ToolSlot>, CollectError>
  {
    if !call.JObj? then Err(BadShape)
    else
      var j := IndexOr(call.fields, ordinal);
      match MergeSlot(SlotAt(calls, j), call.fields)
      case Err(e) => Err(e)
      case Ok(slot) => Ok(calls[j := slot])
  }

  function TakeToolCalls(calls: map<int, ToolSlot>, deltas: seq<Json>, ordinal: int): Result<map<int, ToolSlot>, CollectError>
    decreases |deltas|
  {
    if deltas == [] then Ok(calls)
    else
      match TakeToolCall(calls, deltas[0], ordinal)
      case Err(e) => Err(e)
      case Ok(next) => TakeToolCalls(next, deltas[1..], ordinal + 1)
  }

  /** _merge_tool_call_deltas */
  function MergeToolCalls(calls: map<int, ToolSlot>, value: Json): Result<map<int, ToolSlot>, CollectError>
  {
    match value
    case JNull => Ok(calls)
    case JArr(deltas) => TakeToolCalls(calls, deltas, 0)
    case _ => Err(BadShape)
  }

  /** _merge_function_call_delta */
  function MergeFunctionCall(s: ChoiceState, value: Json): Result<ChoiceState, CollectError>
  {
    match value
    case JNull => Ok(s)
    case JObj(f) =>
      var text := ArgumentText(f);
      if text.None? then Err(BadShape)
      else Ok(s.(sawFunctionCall := true, functionCall := s.functionCall + Named(f),
                 functionArguments := s.functionArguments + text.value))
    case _ => Err(BadShape)
  }

  // ----- one choice -----

  predicate IsText(d: Fields, field: string)
  {
    field in d && field in TEXT_FIELDS && d[field].JStr?
  }

  function TextsIn(d: Fields): set<string>
  {
    set f | f in d && IsText(d, f)
  }

  function TextAt(m: map<string, string>, field: string): string
  {
    if field in m then m[field] else ""
  }

  /** Which delta fields are kept as they are. */
  predicate IsExtra(key: string, value: Json)
  {
    if key == "role" then !value.JStr?
    else if key in TEXT_FIELDS then !value.JStr? && value != JNull
    else key != "tool_calls" && key != "function_call"
  }

  function MergeTexts(texts: map<string, string>, d: Fields): map<string, string>
  {
    map f | f in texts.Keys + TextsIn(d) :: TextAt(texts, f) + (if IsText(d, f) then d[f].s else "")
  }

  function ExtrasOf(d: Fields): Fields
  {
    d - (set k | k in d && !IsExtra(k, d[k]))
  }

  function MergePlain(s: ChoiceState, d: Fields): ChoiceState
  {
    s.(role := if Get(d, "role").JStr? then Get(d, "role").s else s.role,
       texts := MergeTexts(s.texts, d),
       seen := s.seen + d.Keys,
       messageExtras := s.messageExtras + ExtrasOf(d))
  }

  function MergeCalls(s: ChoiceState, d: Fields): Result<ChoiceState, CollectError>
  {
    match MergeToolCalls(s.toolCalls, Get(d, "tool_calls"))
    case Err(e) => Err(e)
    case Ok(calls) => MergeFunctionCall(s.(toolCalls := calls), Get(d, "function_call"))
  }

  function MergeDelta(s: ChoiceState, d: Fields): Result<ChoiceState, CollectError>
  {
    MergeCalls(MergePlain(s, d), d)
  }

  /** A choice's delta: a missing one is empty, anything but an object is an error. */
  function DeltaOf(choice: Fields): Option<Fields>
  {
    if "delta" !in choice then Some(map[])
    else if choice["delta"].JObj? then Some(choice["delta"].fields) else None
  }

  function ChoiceExtrasOf(choice: Fields): Fields
  {
    choice - {"index", "delta", "finish_reason"}
  }

  /** A choice's own fields, before its delta. */
  function Started(s: ChoiceState, choice: Fields): ChoiceState
  {
    s.(choiceExtras := s.choiceExtras + ChoiceExtrasOf(choice),
       finishReason := if Get(choice, "finish_reason") != JNull then Get(choice, "finish_reason") else s.finishReason)
  }

  function MergeChoice(s: ChoiceState, choice: Fields): Result<ChoiceState, CollectError>
  {
    match DeltaOf(choice)
    case None => Err(BadShape)
    case Some(d) => MergeDelta(Started(s, choice), d)
  }

  function StateAt(m: Choices, i: int): ChoiceState
  {
    if i in m then m[i] else NEW_STATE
  }

  function TakeChoice(m: Choices, choice: Json, ordinal: int): Result<Choices, CollectError>
  {
    if !choice.JObj? then Err(BadShape)
    else
      var i := IndexOr(choice.fields, ordinal);
      match MergeChoice(StateAt(m, i), choice.fields)
      case Err(e) => Err(e)
      case Ok(s) => Ok(m[i := s])
  }

  function TakeChoices(m: Choices, choices: seq<Json>, ordinal: int): Result<Choices, CollectError>
    decreases |choices|
  {
    if choices == [] then Ok(m)
    else
      match TakeChoice(m, choices[0], ordinal)
      case Err(e) => Err(e)
      case Ok(next) => TakeChoices(next, choices[1..], ordinal + 1)
  }

  // ----- the fold -----

  function EnvelopeOf(chunk: Fields): Fields
  {
    chunk - {"choices", "usage", "trustedrouter", "object"}
  }

  function UsageOf(chunk: Fields): Option<Json>
  {
    if Get(chunk, "usage").JObj? then Some(chunk["usage"]) else None
  }

  function ChoicesOf(chunk: Fields): Option<seq<Json>>
  {
    if "choices" !in chunk then Some([])
    else if chunk["choices"].JArr? then Some(chunk["choices"].items) else None
  }

  function TakeChunk(a: Acc, chunk: Fields): Result<Acc, CollectError>
  {
    if ChoicesOf(chunk).None? then Err(BadShape)
    else
      match TakeChoices(a.choices, ChoicesOf(chunk).value, 0)
      case Err(e) => Err(e)
      case Ok(m) =>
        Ok(Acc(a.envelope + EnvelopeOf(chunk), if UsageOf(chunk).Some? then UsageOf(chunk) else a.usage, m))
  }

  function TakeChunks(a: Acc, chunks: seq<Fields>): Result<Acc, CollectError>
    decreases |chunks|
  {
    if chunks == [] then Ok(a)
    else
      match TakeChunk(a, chunks[0])
      case Err(e) => Err(e)
      case Ok(next) => TakeChunks(next, chunks[1..])
  }

  const START := Acc(map[], None, map[])

  // ----- assembly -----

  lemma EmptyOrNot(s: set<int>)
    ensures s == {} || exists x :: x in s
  {
    if forall x :: x !in s {
      assert s == {};
    }
  }

  lemma {:induction false} LeastExists(s: set<int>) returns (least: int)
    requires s != {}
    ensures least in s && forall y :: y in s ==> least <= y
  {
    EmptyOrNot(s);
    var x :| x in s;
    least := x;
    if s != {least} {
      var other := LeastExists(s - {least});
      if other < x {
        least := other;
      }
      forall y | y in s ensures least <= y { if y != x { assert y in s - {x}; } }
    }
  }

  function Sorted(s: set<int>): (r: seq<int>)
    ensures forall i, j :: 0 <= i < j < |r| ==> r[i] < r[j]
    ensures forall x :: x in r <==> x in s
  {
    if s == {} then []
    else
      assert exists x :: x in s && forall y :: y in s ==> x <= y by { var least := LeastExists(s); }
      var x :| x in s && forall y :: y in s ==> x <= y;
      [x] + Sorted(s - {x})
  }

  function SlotJson(index: int, slot: ToolSlot): Json
  {
    JObj(slot.extras["index" := JInt(index)]["function" := JObj(slot.named["arguments" := JStr(slot.arguments)])])
  }

  function ToolCallList(calls: map<int, ToolSlot>): seq<Json>
  {
    var keys := Sorted(calls.Keys);
    seq(|keys|, i requires 0 <= i < |keys| => assert keys[i] in keys; SlotJson(keys[i], calls[keys[i]]))
  }

  function TextJson(texts: map<string, string>, field: string): Json
  {
    if field in texts && field in TEXT_FIELDS then JStr(texts[field]) else JNull
  }

  /** The role, the extra fields, then the joined texts. */
  function WithTexts(s: ChoiceState): Fields
  {
    map["role" := JStr(s.role)] + s.messageExtras + (map f | f in s.texts.Keys * TEXT_FIELDS :: TextJson(s.texts, f))
  }

  /** Text fields that were named but never carried a string. */
  function WithNulls(s: ChoiceState, m: Fields): Fields
  {
    m + (map f | f in TEXT_FIELDS && f in s.seen && f !in m :: JNull)
  }

  function WithCalls(s: ChoiceState, m: Fields): Fields
  {
    var tools := if s.toolCalls.Keys != {} then m["tool_calls" := JArr(ToolCallList(s.toolCalls))] else m;
    if s.sawFunctionCall
    then tools["function_call" := JObj(s.functionCall["arguments" := JStr(s.functionArguments)])] else tools
  }

  /** The message before the default for content. */
  function MessageBody(s: ChoiceState): Fields
  {
    WithCalls(s, WithNulls(s, WithTexts(s)))
  }

  function Message(s: ChoiceState): Fields
  {
    var m := MessageBody(s);
    if "content" in m then m
    else
      var silent := s.toolCalls.Keys != {} || s.sawFunctionCall || "reasoning" in m || "reasoning_content" in m || "refusal" in m;
      m["content" := if silent then JNull else JStr("")]
  }

  function ChoiceJson(index: int, s: ChoiceState): Json
  {
    JObj(s.choiceExtras["index" := JInt(index)]["message" := JObj(Message(s))]["finish_reason" := s.finishReason])
  }

  function ChoiceList(m: Choices): (r: seq<Json>)
    ensures |r| == |Sorted(m.Keys)|
  {
    var keys := Sorted(m.Keys);
    seq(|keys|, i requires 0 <= i < |keys| => assert keys[i] in keys; ChoiceJson(keys[i], m[keys[i]]))
  }

  function Default(m: Fields, key: string, value: Json): Fields
  {
    if key in m then m else m[key := value]
  }

  function Assemble(a: Acc): Fields
  {
    var envelope := Default(Default(Default(a.envelope, "id", JStr("")), "created", JInt(0)), "model", JStr(""));
    var result := envelope["object" := JStr("chat.completion")]["choices" := JArr(ChoiceList(a.choices))];
    if a.usage.Some? then result["usage" := a.usage.value] else result
  }

  /** _collect_completion */
  function Collect(chunks: seq<Fields>): Result<Fields, CollectError>
  {
    if chunks == [] then Err(EmptyStream)
    else
      match TakeChunks(START, chunks)
      case Err(e) => Err(e)
      case Ok(a) => if a.choices.Keys == {} then Err(NoChoices) else Ok(Assemble(a))
  }

  // ----- the collector's own loops, with lists of parts -----

  /** A choice as the source keeps it: the text fields are lists of parts, joined only at the end. */
  datatype Live = Live(parts: map<string, seq<string>>, rest: ChoiceState)

  function JoinParts(parts: seq<string>): string
  {
    if parts == [] then "" else JoinParts(parts[..|parts| - 1]) + parts[|parts| - 1]
  }

  function TextsOf(parts: map<string, seq<string>>): map<string, string>
  {
    map f | f in parts :: JoinParts(PartsAt(parts, f))
  }

  /** The state a live choice stands for. */
  function View(l: Live): ChoiceState
  {
    l.rest.(texts := TextsOf(l.parts))
  }

  function Views(m: map<int, Live>): Choices
  {
    map i | i in m :: View(m[i])
  }

  function PartsAt(m: map<string, seq<string>>, field: string): seq<string>
  {
    if field in m then m[field] else []
  }

  /** setdefault(key, []).append(value) for each text field of a delta. */
  function AppendParts(parts: map<string, seq<string>>, d: Fields): map<string, seq<string>>
  {
    map f | f in parts.Keys + TextsIn(d) :: PartsAt(parts, f) + (if IsText(d, f) then [d[f].s] else [])
  }

  lemma JoinAppend(parts: seq<string>, s: string)
    ensures JoinParts(parts + [s]) == JoinParts(parts) + s
  {
    assert (parts + [s])[..|parts|] == parts;
  }

  lemma TextAppend(parts: map<string, seq<string>>, d: Fields, f: string)
    ensures JoinParts(PartsAt(parts, f) + (if IsText(d, f) then [d[f].s] else []))
         == TextAt(TextsOf(parts), f) + (if IsText(d, f) then d[f].s else "")
  {
    if IsText(d, f) {
      JoinAppend(PartsAt(parts, f), d[f].s);
    } else {
      assert PartsAt(parts, f) + [] == PartsAt(parts, f);
      assert TextAt(TextsOf(parts), f) + "" == TextAt(TextsOf(parts), f);
    }
  }

  lemma TextsAppendAt(parts: map<string, seq<string>>, d: Fields, f: string)
    ensures var joined, merged := TextsOf(AppendParts(parts, d)), MergeTexts(TextsOf(parts), d);
      (f in joined <==> f in merged) && (f in merged ==> joined[f] == merged[f])
  {
    TextAppend(parts, d, f);
    assert f in TextsIn(d) <==> IsText(d, f);
    assert PartsAt(AppendParts(parts, d), f) == PartsAt(parts, f) + (if IsText(d, f) then [d[f].s] else []);
  }

  lemma TextsAppend(parts: map<string, seq<string>>, d: Fields)
    ensures TextsOf(AppendParts(parts, d)) == MergeTexts(TextsOf(parts), d)
  {
    var joined, merged := TextsOf(AppendParts(parts, d)), MergeTexts(TextsOf(parts), d);
    forall f: string ensures (f in joined <==> f in merged) && (f in merged ==> joined[f] == merged[f]) {
      TextsAppendAt(parts, d, f);
    }
    SameMap(joined, merged);
  }

  lemma CallsIgnoreTexts(s: ChoiceState, texts: map<string, string>, d: Fields)
    ensures MergeCalls(s.(texts := texts), d)
         == match MergeCalls(s, d) case Err(e) => Err(e) case Ok(t) => Ok(t.(texts := texts))
  {
  }

  /** The loop over tool-call deltas. */
  method MergeToolCallDeltas(calls: map<int, ToolSlot>, deltas: seq<Json>) returns (r: Result<map<int, ToolSlot>, CollectError>)
    ensures r == TakeToolCalls(calls, deltas, 0)
  {
    var slots := calls;
    var ordinal := 0;
    while ordinal < |deltas|
      invariant 0 <= ordinal <= |deltas|
      invariant TakeToolCalls(calls, deltas, 0) == TakeToolCalls(slots, deltas[ordinal..], ordinal)
    {
      assert deltas[ordinal..][1..] == deltas[ordinal + 1..];
      var next := TakeToolCall(slots, deltas[ordinal], ordinal);
      if next.Err? {
        return next;
      }
      slots := next.value;
      ordinal := ordinal + 1;
    }
    return Ok(slots);
  }

  /** One choice of one chunk, merged into its live state. */
  method MergeLive(l: Live, choice: Fields) returns (r: Result<Live, CollectError>)
    ensures r.Ok? <==> MergeChoice(View(l), choice).Ok?
    ensures r.Ok? ==> Ok(View(r.value)) == MergeChoice(View(l), choice)
    ensures r.Err? ==> Err(r.error) == MergeChoice(View(l), choice)
  {
    var delta := DeltaOf(choice);
    if delta.None? {
      return Err(BadShape);
    }
    var d := delta.value;
    var started := Started(l.rest, choice);
    var parts := AppendParts(l.parts, d);
    var merged := MergeCallsLoop(MergePlain(started, d), d);
    LiveMerge(l, choice, d);
    if merged.Err? {
      return Err(merged.error);
    }
    return Ok(Live(parts, merged.value));
  }

  /** Merging a choice into the viewed state is merging it live and viewing the result. */
  lemma LiveMerge(l: Live, choice: Fields, d: Fields)
    requires DeltaOf(choice) == Some(d)
    ensures MergeChoice(View(l), choice)
         == match MergeCalls(MergePlain(Started(l.rest, choice), d), d)
            case Err(e) => Err(e)
            case Ok(t) => Ok(View(Live(AppendParts(l.parts, d), t)))
  {
    var plain := MergePlain(Started(l.rest, choice), d);
    TextsAppend(l.parts, d);
    CallsIgnoreTexts(plain, TextsOf(AppendParts(l.parts, d)), d);
    assert MergePlain(Started(View(l), choice), d) == plain.(texts := TextsOf(AppendParts(l.parts, d)));
  }

  /** Tool calls, then the function call. */
  method MergeCallsLoop(s: ChoiceState, d: Fields) returns (r: Result<ChoiceState, CollectError>)
    ensures r == MergeCalls(s, d)
  {
    var value := Get(d, "tool_calls");
    var calls := Ok(s.toolCalls);
    if value.JArr? {
      calls := MergeToolCallDeltas(s.toolCalls, value.items);
    } else if value != JNull {
      return Err(BadShape);
    }
    if calls.Err? {
      return Err(calls.error);
    }
    return MergeFunctionCall(s.(toolCalls := calls.value), Get(d, "function_call"));
  }

  /** The loop over one chunk's choices. */
  method MergeChoices(m: map<int, Live>, choices: seq<Json>) returns (r: Result<map<int, Live>, CollectError>)
    ensures r.Ok? ==> TakeChoices(Views(m), choices, 0) == Ok(Views(r.value))
    ensures r.Err? ==> TakeChoices(Views(m), choices, 0) == Err(r.error)
  {
    var byIndex := m;
    var ordinal := 0;
    while ordinal < |choices|
      invariant 0 <= ordinal <= |choices|
      invariant TakeChoices(Views(m), choices, 0) == TakeChoices(Views(byIndex), choices[ordinal..], ordinal)
    {
      assert choices[ordinal..][1..] == choices[ordinal + 1..];
      if !choices[ordinal].JObj? {
        return Err(BadShape);
      }
      var choice := choices[ordinal].fields;
      var index := IndexOr(choice, ordinal);
      var live := if index in byIndex then byIndex[index] else Live(map[], NEW_STATE);
      LiveAt(byIndex, index);
      var merged := MergeLive(live, choice);
      if merged.Err? {
        return Err(merged.error);
      }
      ViewsUpdate(byIndex, index, merged.value);
      byIndex := byIndex[index := merged.value];
      ordinal := ordinal + 1;
    }
    return Ok(byIndex);
  }

  lemma LiveAt(m: map<int, Live>, i: int)
    ensures View(if i in m then m[i] else Live(map[], NEW_STATE)) == StateAt(Views(m), i)
  {
    assert TextsOf(map[]) == map[];
  }

  lemma ViewsUpdate(m: map<int, Live>, i: int, l: Live)
    ensures Views(m[i := l]) == Views(m)[i := View(l)]
  {
  }

  /** _collect_completion as its loops. */
  method CollectCompletion(chunks: seq<Fields>) returns (r: Result<Fields, CollectError>)
    ensures r == Collect(chunks)
  {
    if chunks == [] {
      return Err(EmptyStream);
    }
    var envelope: Fields := map[];
    var usage: Option<Json> := None;
    var byIndex: map<int, Live> := map[];
    assert Views(byIndex) == map[];
    var i := 0;
    while i < |chunks|
      invariant 0 <= i <= |chunks|
      invariant TakeChunks(START, chunks) == TakeChunks(Acc(envelope, usage, Views(byIndex)), chunks[i..])
    {
      var c := chunks[i];
      assert chunks[i..][1..] == chunks[i + 1..];
      ghost var before := Acc(envelope, usage, Views(byIndex));
      var choices := ChoicesOf(c);
      if choices.None? {
        return Err(BadShape);
      }
      envelope := envelope + EnvelopeOf(c);
      if UsageOf(c).Some? {
        usage := UsageOf(c);
      }
      var merged := MergeChoices(byIndex, choices.value);
      if merged.Err? {
        return Err(merged.error);
      }
      byIndex := merged.value;
      assert TakeChunk(before, c) == Ok(Acc(envelope, usage, Views(byIndex)));
      i := i + 1;
    }
    var a := Acc(envelope, usage, Views(byIndex));
    if a.choices.Keys == {} {
      return Err(NoChoices);
    }
    return Ok(Assemble(a));
  }
}
