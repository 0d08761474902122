/** Cutting the argument string of a tool call in two: into the next chunk, or into the next call of the same delta. */
module CallCuts {
  import opened Values
  import opened Collector
  import opened Indexed
  import opened Shapes
  import opened Collected
  import opened Alike
  import opened Parts
  import opened Readings

  /** Where a tool call stands: its delta, the calls before and after it there, its index and its function. */
  datatype Place = Place(d: Fields, us: seq<Json>, call: Fields, vs: seq<Json>, j: int, f: Fields)

  /** The choice's delta has this tool call, with these arguments. */
  predicate HasCall(choice: Fields, p: Place, text: string)
  {
    && Get(choice, "delta") == JObj(p.d) && Get(p.d, "tool_calls") == JArr(p.us + ([JObj(p.call)] + p.vs))
    && IndexOr(p.call, |p.us|) == p.j && Get(p.call, "function") == JObj(p.f) && Get(p.f, "arguments") == JStr(text)
  }

  /** The call with another argument string. */
  function CallWith(p: Place, text: string): Fields
  {
    p.call["function" := JObj(p.f["arguments" := JStr(text)])]
  }

  /** The choice with other calls in the place of that one. */
  function CallsInstead(choice: Fields, p: Place, calls: seq<Json>): Fields
  {
    choice["delta" := JObj(p.d["tool_calls" := JArr(p.us + (calls + p.vs))])]
  }

  function CallHead(choice: Fields, p: Place, x: string): Fields
  {
    CallsInstead(choice, p, [JObj(CallWith(p, x))])
  }

  /** A call that carries nothing but arguments, and a delta that carries nothing but that call. */
  function ArgumentsCall(j: int, y: string): Fields
  {
    map["index" := JInt(j), "function" := JObj(map["arguments" := JStr(y)])]
  }

  function CallDelta(j: int, y: string): Fields
  {
    map["tool_calls" := JArr([JObj(ArgumentsCall(j, y))])]
  }

  // ----- one slot -----

  function Bare(slot: ToolSlot): ToolSlot
  {
    slot.(arguments := "")
  }

  lemma BareMerge(s: ToolSlot, t: ToolSlot, call: Fields)
    requires ShapedCall(call) && Bare(s) == Bare(t)
    ensures MergeSlot(s, call).Ok? && MergeSlot(t, call).Ok?
    ensures Bare(MergeSlot(s, call).value) == Bare(MergeSlot(t, call).value)
  {
  }

  lemma {:induction false} BareFold(s: ToolSlot, t: ToolSlot, list: seq<Fields>)
    requires (forall c :: c in list ==> ShapedCall(c)) && Bare(s) == Bare(t)
    ensures FoldAll(MERGE_SLOT, s, list).Ok? && FoldAll(MERGE_SLOT, t, list).Ok?
    ensures Bare(FoldAll(MERGE_SLOT, s, list).value) == Bare(FoldAll(MERGE_SLOT, t, list).value)
    decreases |list|
  {
    if list != [] {
      BareMerge(s, t, list[0]);
      BareFold(MergeSlot(s, list[0]).value, MergeSlot(t, list[0]).value, list[1..]);
    }
  }

  lemma CallParts(p: Place, x: string, y: string)
    ensures CallExtrasOf(CallWith(p, x)) == CallExtrasOf(p.call) && CallExtrasOf(ArgumentsCall(p.j, y)) == map[]
    ensures Named(p.f["arguments" := JStr(x)]) == Named(p.f) && Named(map["arguments" := JStr(y)]) == map[]
  {
  }

  lemma CallHalves(slot: ToolSlot, choice: Fields, p: Place, x: string, y: string)
    requires HasCall(choice, p, x + y)
    ensures ShapedCall(p.call) && ShapedCall(CallWith(p, x)) && ShapedCall(ArgumentsCall(p.j, y))
    ensures Bare(MergeSlot(slot, p.call).value) == Bare(MergeSlot(slot, CallWith(p, x)).value)
    ensures Bare(MergeSlot(slot, ArgumentsCall(p.j, y)).value) == Bare(slot)
  {
    CallParts(p, x, y);
    assert slot.extras + map[] == slot.extras && slot.named + map[] == slot.named;
  }

  lemma SlotFirst(slot: ToolSlot, first: Fields, rest: seq<Fields>)
    requires ShapedCall(first)
    ensures MergeSlot(slot, first).Ok?
    ensures FoldAll(MERGE_SLOT, slot, [first] + rest) == FoldAll(MERGE_SLOT, MergeSlot(slot, first).value, rest)
  {
    assert ([first] + rest)[1..] == rest;
  }

  lemma SlotLast(slot: ToolSlot, list: seq<Fields>, last: Fields)
    requires FoldAll(MERGE_SLOT, slot, list).Ok?
    ensures FoldAll(MERGE_SLOT, slot, list + [last]) == MergeSlot(FoldAll(MERGE_SLOT, slot, list).value, last)
  {
    FoldAllConcat(MERGE_SLOT, slot, list, [last]);
    assert [last][1..] == [];
  }

  lemma BareHalves(slot: ToolSlot, choice: Fields, p: Place, x: string, y: string, later: seq<Fields>)
    requires HasCall(choice, p, x + y) && forall c :: c in later ==> ShapedCall(c)
    ensures var one, two := [p.call] + later, [CallWith(p, x)] + later + [ArgumentsCall(p.j, y)];
      && FoldAll(MERGE_SLOT, slot, one).Ok? && FoldAll(MERGE_SLOT, slot, two).Ok?
      && Bare(FoldAll(MERGE_SLOT, slot, one).value) == Bare(FoldAll(MERGE_SLOT, slot, two).value)
  {
    CallHalves(slot, choice, p, x, y);
    SlotFirst(slot, p.call, later);
    SlotFirst(slot, CallWith(p, x), later);
    BareFold(MergeSlot(slot, p.call).value, MergeSlot(slot, CallWith(p, x)).value, later);
    SlotLast(slot, [CallWith(p, x)] + later, ArgumentsCall(p.j, y));
    CallHalves(FoldAll(MERGE_SLOT, slot, [CallWith(p, x)] + later).value, choice, p, x, y);
  }

  // ----- reading the calls of one index -----

  function CallsText(calls: seq<Fields>): string
  {
    ArgumentsOf(FunctionsIn(calls))
  }

  const READ: seq<Fields> -> string := (calls: seq<Fields>) => CallsText(calls)

  lemma {:induction false} FunctionsInConcat(a: seq<Fields>, b: seq<Fields>)
    ensures FunctionsIn(a + b) == FunctionsIn(a) + FunctionsIn(b)
    decreases |a|
  {
    if a == [] {
      assert a + b == b;
    } else {
      assert (a + b)[1..] == a[1..] + b;
      FunctionsInConcat(a[1..], b);
      Associate(FunctionIn(a[0]), FunctionsIn(a[1..]), FunctionsIn(b));
    }
  }

  lemma CallsTextConcat(a: seq<Fields>, b: seq<Fields>)
    ensures CallsText(a + b) == CallsText(a) + CallsText(b)
  {
    FunctionsInConcat(a, b);
    ArgumentsOfConcat(FunctionsIn(a), FunctionsIn(b));
  }

  lemma CallsRead()
    ensures Reads(READ)
  {
    forall a: seq<Fields>, b: seq<Fields> ensures CallsText(a + b) == CallsText(a) + CallsText(b) {
      CallsTextConcat(a, b);
    }
  }

  lemma OneCallText(call: Fields, f: Fields, text: string)
    requires Get(call, "function") == JObj(f) && Get(f, "arguments") == JStr(text)
    ensures CallsText([call]) == text
  {
    assert [call][1..] == [] && [f][1..] == [];
    assert FunctionsIn([call]) == [f] + FunctionsIn([]);
    assert ArgumentsOf([f]) == ArgumentIn(f) + ArgumentsOf([]);
    NothingAdded(text);
  }

  lemma CallReadsCut(choice: Fields, p: Place, x: string, y: string)
    requires HasCall(choice, p, x + y)
    ensures ReadsCut(READ, p.call, CallWith(p, x), ArgumentsCall(p.j, y), "", x, y, "")
  {
    OneCallText(p.call, p.f, x + y);
    OneCallText(CallWith(p, x), p.f["arguments" := JStr(x)], x);
    OneCallText(ArgumentsCall(p.j, y), map["arguments" := JStr(y)], y);
    NothingAdded(x + y);
    NothingAdded(x);
  }

  lemma CallTextIff(choice: Fields, p: Place, x: string, y: string, later: seq<Fields>)
    requires HasCall(choice, p, x + y)
    ensures CallsText([p.call] + later) == CallsText([CallWith(p, x)] + later + [ArgumentsCall(p.j, y)])
       <==> y + CallsText(later) == CallsText(later) + y
  {
    CallsRead();
    CallReadsCut(choice, p, x, y);
    ReadHalves(READ, p.call, CallWith(p, x), ArgumentsCall(p.j, y), later, "", x, y, "");
    NothingAdded(CallsText(later));
  }

  /** If what comes between commutes with the second half, no slot can tell the whole call from its halves. */
  lemma SlotAlike(slot: ToolSlot, choice: Fields, p: Place, x: string, y: string, later: seq<Fields>)
    requires HasCall(choice, p, x + y) && forall c :: c in later ==> ShapedCall(c)
    requires y + CallsText(later) == CallsText(later) + y
    ensures FoldAll(MERGE_SLOT, slot, [p.call] + later)
         == FoldAll(MERGE_SLOT, slot, [CallWith(p, x)] + later + [ArgumentsCall(p.j, y)])
  {
    BareHalves(slot, choice, p, x, y, later);
    CallTextIff(choice, p, x, y, later);
    FoldSlot(slot, [p.call] + later);
    FoldSlot(slot, [CallWith(p, x)] + later + [ArgumentsCall(p.j, y)]);
  }

  // ----- the calls of several choices -----

  lemma {:induction false} CallDeltasConcat(a: seq<Fields>, b: seq<Fields>, k: int)
    ensures CallDeltas(a + b, k) == CallDeltas(a, k) + CallDeltas(b, k)
    decreases |a|
  {
    if a == [] {
      assert a + b == b;
    } else {
      assert (a + b)[1..] == a[1..] + b;
      CallDeltasConcat(a[1..], b, k);
      Associate(ItemsFor(ToolItems(a[0]), 0, k), CallDeltas(a[1..], k), CallDeltas(b, k));
    }
  }

  lemma OneChoiceCalls(choice: Fields, k: int)
    ensures CallDeltas([choice], k) == ItemsFor(ToolItems(choice), 0, k)
  {
    assert [choice][1..] == [];
  }

  lemma {:induction false} CallIndexesIff(choices: seq<Fields>, k: int)
    ensures k in CallIndexes(choices) <==> CallDeltas(choices, k) != []
  {
    if choices != [] {
      ItemsForIff(ToolItems(choices[0]), 0, k);
      CallIndexesIff(choices[1..], k);
    }
  }

  lemma ItemsShaped(items: seq<Json>, n: int, k: int)
    requires ShapedItems(items)
    ensures forall c :: c in ItemsFor(items, n, k) ==> ShapedCall(c)
  {
    ItemsForIn(items, n, k);
    forall c | c in ItemsFor(items, n, k) ensures ShapedCall(c) {
      var i :| 0 <= i < |items| && items[i] == JObj(c);
    }
  }

  lemma {:induction false} CallDeltasShaped(choices: seq<Fields>, k: int)
    requires forall c :: c in choices ==> ShapedChoice(c)
    ensures forall c :: c in CallDeltas(choices, k) ==> ShapedCall(c)
  {
    if choices != [] {
      assert ShapedChoice(choices[0]);
      ItemsShaped(ToolItems(choices[0]), 0, k);
      CallDeltasShaped(choices[1..], k);
    }
  }

  lemma ToolsOf(choice: Fields, p: Place, calls: seq<Json>, text: string)
    requires HasCall(choice, p, text)
    ensures ToolItems(choice) == p.us + ([JObj(p.call)] + p.vs)
    ensures ToolItems(CallsInstead(choice, p, calls)) == p.us + (calls + p.vs)
  {
    assert DeltaOf(choice) == Some(p.d);
    assert DeltaOf(CallsInstead(choice, p, calls)) == Some(p.d["tool_calls" := JArr(p.us + (calls + p.vs))]);
  }

  lemma RestCalls(i: int, j: int, y: string, k: int)
    ensures CallDeltas([DeltaChoice(i, CallDelta(j, y))], k) == if j == k then [ArgumentsCall(j, y)] else []
  {
    var rest := DeltaChoice(i, CallDelta(j, y));
    assert DeltaOf(rest) == Some(CallDelta(j, y));
    OneChoiceCalls(rest, k);
    OneItemFor(ArgumentsCall(j, y), 0, k);
  }

  /** The calls of one index in the whole choice. */
  lemma WholeCalls(choice: Fields, p: Place, text: string, k: int)
    requires HasCall(choice, p, text)
    ensures CallDeltas([choice], k)
         == ItemsFor(p.us, 0, k) + ((if p.j == k then [p.call] else []) + ItemsFor(p.vs, |p.us| + 1, k))
  {
    OneChoiceCalls(choice, k);
    ToolsOf(choice, p, [], text);
    ItemsAround(p.us, p.call, p.vs, k);
  }

  /** The calls of one index in the first half. */
  lemma HeadCalls(choice: Fields, p: Place, x: string, text: string, k: int)
    requires HasCall(choice, p, text)
    ensures CallDeltas([CallHead(choice, p, x)], k)
         == ItemsFor(p.us, 0, k) + ((if p.j == k then [CallWith(p, x)] else []) + ItemsFor(p.vs, |p.us| + 1, k))
  {
    OneChoiceCalls(CallHead(choice, p, x), k);
    ToolsOf(choice, p, [JObj(CallWith(p, x))], text);
    ItemsAround(p.us, CallWith(p, x), p.vs, k);
  }

  /** The calls at this index between the two halves: later ones of the same delta, then those of later choices. */
  function LaterCalls(p: Place, later: seq<Fields>): seq<Fields>
  {
    ItemsFor(p.vs, |p.us| + 1, p.j) + CallDeltas(later, p.j)
  }

  lemma SlotFrame(slot: ToolSlot, before: seq<Fields>, xs: seq<Fields>, ys: seq<Fields>)
    requires forall s: ToolSlot :: FoldAll(MERGE_SLOT, s, xs) == FoldAll(MERGE_SLOT, s, ys)
    ensures FoldAll(MERGE_SLOT, slot, before + xs) == FoldAll(MERGE_SLOT, slot, before + ys)
  {
    FoldAllConcat(MERGE_SLOT, slot, before, xs);
    FoldAllConcat(MERGE_SLOT, slot, before, ys);
  }

  lemma Regroup(u: seq<Fields>, c: seq<Fields>, v: seq<Fields>, r: seq<Fields>, e: seq<Fields>)
    ensures u + (c + v) + r == u + (c + (v + r))
    ensures u + (c + v) + r + e == u + (c + (v + r) + e)
  {
  }

  lemma OwnCalls(choice: Fields, p: Place, x: string, y: string, i: int, later: seq<Fields>)
    requires HasCall(choice, p, x + y)
    ensures CallDeltas([choice] + later, p.j) == ItemsFor(p.us, 0, p.j) + ([p.call] + LaterCalls(p, later))
    ensures CallDeltas([CallHead(choice, p, x)] + later + [DeltaChoice(i, CallDelta(p.j, y))], p.j)
         == ItemsFor(p.us, 0, p.j) + ([CallWith(p, x)] + LaterCalls(p, later) + [ArgumentsCall(p.j, y)])
  {
    var head, rest := CallHead(choice, p, x), DeltaChoice(i, CallDelta(p.j, y));
    WholeCalls(choice, p, x + y, p.j);
    HeadCalls(choice, p, x, x + y, p.j);
    RestCalls(i, p.j, y, p.j);
    CallDeltasConcat([choice], later, p.j);
    CallDeltasConcat([head], later, p.j);
    CallDeltasConcat([head] + later, [rest], p.j);
    var u, v, r := ItemsFor(p.us, 0, p.j), ItemsFor(p.vs, |p.us| + 1, p.j), CallDeltas(later, p.j);
    Regroup(u, [p.call], v, r, []);
    Regroup(u, [CallWith(p, x)], v, r, [ArgumentsCall(p.j, y)]);
  }

  lemma OtherCalls(choice: Fields, p: Place, x: string, y: string, i: int, later: seq<Fields>, k: int)
    requires HasCall(choice, p, x + y) && k != p.j
    ensures CallDeltas([choice] + later, k)
         == CallDeltas([CallHead(choice, p, x)] + later + [DeltaChoice(i, CallDelta(p.j, y))], k)
  {
    var head, rest := CallHead(choice, p, x), DeltaChoice(i, CallDelta(p.j, y));
    WholeCalls(choice, p, x + y, k);
    HeadCalls(choice, p, x, x + y, k);
    RestCalls(i, p.j, y, k);
    CallDeltasConcat([choice], later, k);
    CallDeltasConcat([head], later, k);
    CallDeltasConcat([head] + later, [rest], k);
  }

  lemma LaterCallsShaped(choice: Fields, p: Place, text: string, later: seq<Fields>)
    requires HasCall(choice, p, text) && ShapedChoice(choice) && forall c :: c in later ==> ShapedChoice(c)
    ensures ShapedItems(p.vs) && forall c :: c in LaterCalls(p, later) ==> ShapedCall(c)
  {
    assert DeltaOf(choice) == Some(p.d);
    var items := p.us + ([JObj(p.call)] + p.vs);
    forall n | 0 <= n < |p.vs| ensures p.vs[n].JObj? && ShapedCall(p.vs[n].fields) {
      assert items[|p.us| + 1 + n] == p.vs[n];
    }
    ItemsShaped(p.vs, |p.us| + 1, p.j);
    CallDeltasShaped(later, p.j);
  }

  /** At every index, no slot can tell the calls of the whole from those of the halves. */
  lemma SlotsAlike(slot: ToolSlot, choice: Fields, p: Place, x: string, y: string, i: int, later: seq<Fields>, k: int)
    requires HasCall(choice, p, x + y) && ShapedChoice(choice) && forall c :: c in later ==> ShapedChoice(c)
    requires y + CallsText(LaterCalls(p, later)) == CallsText(LaterCalls(p, later)) + y
    ensures var one, two := [choice] + later, [CallHead(choice, p, x)] + later + [DeltaChoice(i, CallDelta(p.j, y))];
      && FoldAll(MERGE_SLOT, slot, CallDeltas(one, k)) == FoldAll(MERGE_SLOT, slot, CallDeltas(two, k))
      && (CallDeltas(one, k) == [] <==> CallDeltas(two, k) == [])
  {
    if k == p.j {
      OwnCalls(choice, p, x, y, i, later);
      LaterCallsShaped(choice, p, x + y, later);
      forall s: ToolSlot
        ensures FoldAll(MERGE_SLOT, s, [p.call] + LaterCalls(p, later))
             == FoldAll(MERGE_SLOT, s, [CallWith(p, x)] + LaterCalls(p, later) + [ArgumentsCall(p.j, y)])
      {
        SlotAlike(s, choice, p, x, y, LaterCalls(p, later));
      }
      SlotFrame(slot, ItemsFor(p.us, 0, p.j), [p.call] + LaterCalls(p, later),
                [CallWith(p, x)] + LaterCalls(p, later) + [ArgumentsCall(p.j, y)]);
    } else {
      OtherCalls(choice, p, x, y, i, later, k);
    }
  }

  // ----- one state -----

  lemma CallShapes(choice: Fields, p: Place, x: string, y: string, text: string)
    requires HasCall(choice, p, text)
    ensures ShapedChoice(choice) <==> ShapedChoice(CallHead(choice, p, x))
    ensures ShapedDelta(CallDelta(p.j, y))
  {
    InsteadShapes(choice, p, [JObj(CallWith(p, x))], text);
    assert ShapedItems([JObj(CallWith(p, x))]) && ShapedItems([JObj(ArgumentsCall(p.j, y))]);
  }

  /** Well-shaped calls may stand in the place of the one without changing the shape of its choice. */
  lemma InsteadShapes(choice: Fields, p: Place, calls: seq<Json>, text: string)
    requires HasCall(choice, p, text) && ShapedItems(calls)
    ensures ShapedChoice(choice) <==> ShapedChoice(CallsInstead(choice, p, calls))
  {
    var was, now := p.us + ([JObj(p.call)] + p.vs), p.us + (calls + p.vs);
    assert DeltaOf(choice) == Some(p.d);
    assert DeltaOf(CallsInstead(choice, p, calls)) == Some(p.d["tool_calls" := JArr(now)]);
    ShapedItemsWithin(p.us, [JObj(p.call)], p.vs);
    ShapedItemsWithin(p.us, calls, p.vs);
    assert ShapedItems([JObj(p.call)]);
  }

  lemma ShapedItemsWithin(us: seq<Json>, middle: seq<Json>, vs: seq<Json>)
    ensures ShapedItems(us + (middle + vs)) <==> ShapedItems(us) && ShapedItems(middle) && ShapedItems(vs)
  {
    var all := us + (middle + vs);
    assert forall i :: 0 <= i < |us| ==> all[i] == us[i];
    assert forall i :: 0 <= i < |middle| ==> all[|us| + i] == middle[i];
    assert forall i :: 0 <= i < |vs| ==> all[|us| + |middle| + i] == vs[i];
  }

  /** Other calls in the place of the one leave all of a state but its tool calls as it was. */
  lemma InsteadErased(s: ChoiceState, choice: Fields, p: Place, calls: seq<Json>, text: string)
    requires HasCall(choice, p, text) && ShapedItems(calls) && ShapedChoice(choice)
    ensures var other := CallsInstead(choice, p, calls);
      && MergeChoice(s, choice).Ok? && MergeChoice(s, other).Ok?
      && Erased(MergeChoice(s, choice).value, Calls) == Erased(MergeChoice(s, other).value, Calls)
      && Marked(MergeChoice(s, other).value, "tool_calls")
  {
    var other, d := CallsInstead(choice, p, calls), p.d["tool_calls" := JArr(p.us + (calls + p.vs))];
    InsteadShapes(choice, p, calls, text);
    assert DeltaOf(choice) == Some(p.d) && DeltaOf(other) == Some(d);
    ChoiceShape(s, choice);
    ChoiceShape(s, other);
    assert ChoiceExtrasOf(other) == ChoiceExtrasOf(choice) && Started(s, other) == Started(s, choice);
    PlainButOther(Started(s, choice), p.d, "tool_calls", d["tool_calls"]);
    var plain := MergePlain(Started(s, choice), p.d);
    CallsApart(plain, p.d);
    CallsApart(plain, d);
    SeenGrows(s, other);
  }

  lemma OnlyCalls(s: ChoiceState, j: int, y: string)
    ensures MergeCalls(s, CallDelta(j, y)).Ok? && Erased(MergeCalls(s, CallDelta(j, y)).value, Calls) == Erased(s, Calls)
  {
    assert ShapedItems([JObj(ArgumentsCall(j, y))]);
    DeltaShape(s, CallDelta(j, y));
    CallsApart(s, CallDelta(j, y));
  }

  lemma CallRest(s: ChoiceState, i: int, j: int, y: string)
    requires Marked(s, "tool_calls")
    ensures var r := MergeChoice(s, DeltaChoice(i, CallDelta(j, y)));
      r.Ok? && Erased(r.value, Calls) == Erased(s, Calls)
  {
    DeltaOnly(s, i, CallDelta(j, y));
    PlainNothing(s, "tool_calls", CallDelta(j, y)["tool_calls"]);
    OnlyCalls(s, j, y);
  }

  lemma CallHalved(choice: Fields, p: Place, x: string, y: string, i: int)
    requires HasCall(choice, p, x + y) && ShapedChoice(choice)
    ensures Halves(choice, CallHead(choice, p, x), DeltaChoice(i, CallDelta(p.j, y)), "tool_calls", Calls)
  {
    var head, rest := CallHead(choice, p, x), DeltaChoice(i, CallDelta(p.j, y));
    CallShapes(choice, p, x, y, x + y);
    DeltaChunkShape(i, CallDelta(p.j, y));
    assert ShapedItems([JObj(CallWith(p, x))]);
    forall s: ChoiceState | MergeChoice(s, choice).Ok? && MergeChoice(s, head).Ok?
      ensures Erased(MergeChoice(s, choice).value, Calls) == Erased(MergeChoice(s, head).value, Calls)
           && Marked(MergeChoice(s, head).value, "tool_calls")
    {
      InsteadErased(s, choice, p, [JObj(CallWith(p, x))], x + y);
    }
    forall s: ChoiceState | Marked(s, "tool_calls") && MergeChoice(s, rest).Ok?
      ensures Erased(MergeChoice(s, rest).value, Calls) == Erased(s, Calls)
    {
      CallRest(s, i, p.j, y);
    }
  }

  lemma SameCalls(s: ChoiceState, t: ChoiceState)
    requires Erased(s, Calls) == Erased(t, Calls)
    requires forall k: int :: (k in s.toolCalls <==> k in t.toolCalls) && SlotAt(s.toolCalls, k) == SlotAt(t.toolCalls, k)
    ensures s == t
  {
    forall k: int ensures (k in s.toolCalls <==> k in t.toolCalls) && (k in t.toolCalls ==> s.toolCalls[k] == t.toolCalls[k]) {
      assert SlotAt(s.toolCalls, k) == SlotAt(t.toolCalls, k);
    }
    SameMap(s.toolCalls, t.toolCalls);
  }

  /** Choices whose calls fold alike at one index leave the same slot there. */
  lemma SameSlot(s: ChoiceState, xs: seq<Fields>, ys: seq<Fields>, k: int)
    requires FoldAll(MERGE_CHOICE, s, xs).Ok? && FoldAll(MERGE_CHOICE, s, ys).Ok?
    requires FoldAll(MERGE_SLOT, SlotAt(s.toolCalls, k), CallDeltas(xs, k))
          == FoldAll(MERGE_SLOT, SlotAt(s.toolCalls, k), CallDeltas(ys, k))
    requires CallDeltas(xs, k) == [] <==> CallDeltas(ys, k) == []
    ensures var t, u := FoldAll(MERGE_CHOICE, s, xs).value.toolCalls, FoldAll(MERGE_CHOICE, s, ys).value.toolCalls;
      (k in t <==> k in u) && SlotAt(t, k) == SlotAt(u, k)
  {
    FoldCalls(s, xs, k);
    FoldCalls(s, ys, k);
    CallIndexesIff(xs, k);
    CallIndexesIff(ys, k);
  }

  /** If what comes between commutes with the second half, no state can tell the whole from the halves. */
  lemma CallAlike(choice: Fields, p: Place, x: string, y: string, i: int, later: seq<Fields>)
    requires HasCall(choice, p, x + y) && ShapedChoice(choice) && forall c :: c in later ==> ShapedChoice(c)
    requires y + CallsText(LaterCalls(p, later)) == CallsText(LaterCalls(p, later)) + y
    ensures FoldAlike([choice] + later, [CallHead(choice, p, x)] + later + [DeltaChoice(i, CallDelta(p.j, y))])
  {
    var head, rest := CallHead(choice, p, x), DeltaChoice(i, CallDelta(p.j, y));
    var one, two := [choice] + later, [head] + later + [rest];
    CallHalved(choice, p, x, y, i);
    forall s: ChoiceState ensures FoldAll(MERGE_CHOICE, s, one) == FoldAll(MERGE_CHOICE, s, two) {
      HalvesErased(s, choice, head, rest, later, "tool_calls", Calls);
      var t, u := FoldAll(MERGE_CHOICE, s, one).value, FoldAll(MERGE_CHOICE, s, two).value;
      forall k: int
        ensures (k in t.toolCalls <==> k in u.toolCalls) && SlotAt(t.toolCalls, k) == SlotAt(u.toolCalls, k)
      {
        SlotsAlike(SlotAt(s.toolCalls, k), choice, p, x, y, i, later, k);
        SameSlot(s, one, two, k);
      }
      SameCalls(t, u);
    }
  }

  // ----- streams -----

  /** The arguments that choices stream for one tool call. */
  function CallArguments(choices: seq<Fields>, j: int): string
  {
    CallsText(CallDeltas(choices, j))
  }

  function ReadCall(j: int): seq<Fields> -> string
  {
    (choices: seq<Fields>) => CallArguments(choices, j)
  }

  lemma ArgumentsRead(j: int)
    ensures Reads(ReadCall(j))
  {
    forall a: seq<Fields>, b: seq<Fields> ensures CallArguments(a + b, j) == CallArguments(a, j) + CallArguments(b, j) {
      CallDeltasConcat(a, b, j);
      CallsTextConcat(CallDeltas(a, j), CallDeltas(b, j));
    }
  }

  lemma CallReadsIn(u: seq<Fields>, call: Fields, v: seq<Fields>, f: Fields, text: string)
    requires Get(call, "function") == JObj(f) && Get(f, "arguments") == JStr(text)
    ensures CallsText(u + ([call] + v)) == CallsText(u) + (text + CallsText(v))
  {
    CallsTextConcat(u, [call] + v);
    CallsTextConcat([call], v);
    OneCallText(call, f, text);
  }

  lemma ArgumentsReadCut(choice: Fields, p: Place, x: string, y: string, i: int)
    requires HasCall(choice, p, x + y)
    ensures ReadsCut(ReadCall(p.j), choice, CallHead(choice, p, x), DeltaChoice(i, CallDelta(p.j, y)),
                     CallsText(ItemsFor(p.us, 0, p.j)), x, y, CallsText(ItemsFor(p.vs, |p.us| + 1, p.j)))
  {
    var u, v := ItemsFor(p.us, 0, p.j), ItemsFor(p.vs, |p.us| + 1, p.j);
    WholeCalls(choice, p, x + y, p.j);
    HeadCalls(choice, p, x, x + y, p.j);
    RestCalls(i, p.j, y, p.j);
    CallReadsIn(u, p.call, v, p.f, x + y);
    CallReadsIn(u, CallWith(p, x), v, p.f["arguments" := JStr(x)], x);
    OneCallText(ArgumentsCall(p.j, y), map["arguments" := JStr(y)], y);
  }

  /** The second half of the arguments moved to a chunk of its own. */
  function CallCut(chunk: Fields, xs: seq<Json>, choice: Fields, ys: seq<Json>, i: int,
                   p: Place, x: string, y: string): seq<Fields>
  {
    CutInTwo(chunk, xs, CallHead(choice, p, x), ys, i, CallDelta(p.j, y))
  }

  lemma ArgumentsIff(choice: Fields, p: Place, x: string, y: string, i: int, later: seq<Fields>)
    requires HasCall(choice, p, x + y)
    ensures CallArguments([choice] + later, p.j)
         == CallArguments([CallHead(choice, p, x)] + later + [DeltaChoice(i, CallDelta(p.j, y))], p.j)
       <==> y + CallsText(LaterCalls(p, later)) == CallsText(LaterCalls(p, later)) + y
  {
    var u, v := CallsText(ItemsFor(p.us, 0, p.j)), CallsText(ItemsFor(p.vs, |p.us| + 1, p.j));
    ArgumentsRead(p.j);
    ArgumentsReadCut(choice, p, x, y, i);
    ReadHalves(ReadCall(p.j), choice, CallHead(choice, p, x), DeltaChoice(i, CallDelta(p.j, y)), later, u, x, y, v);
    CallsTextConcat(ItemsFor(p.vs, |p.us| + 1, p.j), CallDeltas(later, p.j));
  }

  lemma ArgumentsStreamsIff(chunk: Fields, xs: seq<Json>, choice: Fields, ys: seq<Json>, i: int,
                            p: Place, x: string, y: string, before: seq<Fields>, after: seq<Fields>)
    requires Holds(chunk, xs, choice, ys, i) && HasCall(choice, p, x + y) && IndexOr(CallHead(choice, p, x), |xs|) == i
    ensures CallArguments(ChoicesFor(before + [chunk] + after, i), p.j)
         == CallArguments(ChoicesFor(before + CallCut(chunk, xs, choice, ys, i, p, x, y) + after, i), p.j)
       <==> y + CallsText(LaterCalls(p, Later(xs, ys, i))) == CallsText(LaterCalls(p, Later(xs, ys, i))) + y
  {
    ArgumentsRead(p.j);
    ReadStreams(ReadCall(p.j), chunk, xs, choice, ys, i, CallHead(choice, p, x), CallDelta(p.j, y), before, after);
    ArgumentsIff(choice, p, x, y, i, Later(xs, ys, i));
  }

  // ----- completions -----

  /** The argument string of one tool call in the message of choice n. */
  ghost predicate ShowsCall(out: Fields, n: nat, j: int, arguments: string)
  {
    var calls := Get(MessageAt(out, n), "tool_calls");
    calls.JArr? && exists q: nat :: q < |calls.items| && IsCall(calls.items[q], j, arguments)
  }

  lemma CallShown(chunks: seq<Fields>, n: nat, j: int)
    requires Collect(chunks).Ok? && n < |Indexes(chunks)| && CallDeltas(ChoicesFor(chunks, Indexes(chunks)[n]), j) != []
    ensures ShowsCall(Collect(chunks).value, n, j, CallArguments(ChoicesFor(chunks, Indexes(chunks)[n]), j))
  {
    var choices := ChoicesFor(chunks, Indexes(chunks)[n]);
    CollectedCalls(chunks, n);
    CallIndexesIff(choices, j);
    var indexes := Sorted(CallIndexes(choices));
    assert j in indexes;
    var q: nat :| q < |indexes| && indexes[q] == j;
    var calls := Get(MessageAt(Collect(chunks).value, n), "tool_calls");
    assert IsCall(calls.items[q], indexes[q], ArgumentsOf(FunctionsIn(CallDeltas(choices, indexes[q]))));
  }

  /** The argument string a completion shows for a tool call is the one its deltas give. */
  lemma ShownIs(chunks: seq<Fields>, n: nat, j: int, u: string)
    requires Collect(chunks).Ok? && n < |Indexes(chunks)| && ShowsCall(Collect(chunks).value, n, j, u)
    ensures u == ArgumentsOf(FunctionsIn(CallDeltas(ChoicesFor(chunks, Indexes(chunks)[n]), j)))
  {
    var choices := ChoicesFor(chunks, Indexes(chunks)[n]);
    var indexes, calls := Sorted(CallIndexes(choices)), Get(MessageAt(Collect(chunks).value, n), "tool_calls");
    CollectedCalls(chunks, n);
    var q: nat :| q < |calls.items| && IsCall(calls.items[q], j, u);
    assert IsCall(calls.items[q], indexes[q], ArgumentsOf(FunctionsIn(CallDeltas(choices, indexes[q]))));
  }

  /** A completion shows one argument string per tool call. */
  lemma ShownOnce(chunks: seq<Fields>, n: nat, j: int, u: string, v: string)
    requires Collect(chunks).Ok? && n < |Indexes(chunks)|
    requires ShowsCall(Collect(chunks).value, n, j, u) && ShowsCall(Collect(chunks).value, n, j, v)
    ensures u == v
  {
    ShownIs(chunks, n, j, u);
    ShownIs(chunks, n, j, v);
  }

  /** Streams whose arguments of one tool call read differently collect to different completions. */
  lemma CallsTell(a: seq<Fields>, b: seq<Fields>, n: nat, j: int)
    requires Collect(a).Ok? && Collect(b).Ok? && Indexes(a) == Indexes(b) && n < |Indexes(a)|
    requires CallDeltas(ChoicesFor(a, Indexes(a)[n]), j) != [] && CallDeltas(ChoicesFor(b, Indexes(a)[n]), j) != []
    requires CallArguments(ChoicesFor(a, Indexes(a)[n]), j) != CallArguments(ChoicesFor(b, Indexes(a)[n]), j)
    ensures Collect(a) != Collect(b)
  {
    CallShown(a, n, j);
    CallShown(b, n, j);
    if Collect(a) == Collect(b) {
      ShownOnce(a, n, j, CallArguments(ChoicesFor(a, Indexes(a)[n]), j), CallArguments(ChoicesFor(b, Indexes(a)[n]), j));
    }
  }

  lemma CallsWithin(before: seq<Fields>, xs: seq<Fields>, after: seq<Fields>, i: int, j: int)
    requires CallDeltas(ChoicesFor(xs, i), j) != []
    ensures CallDeltas(ChoicesFor(before + xs + after, i), j) != []
  {
    ChoicesWithin(before, xs, after, i);
    CallDeltasConcat(ChoicesFor(before, i), ChoicesFor(xs, i) + ChoicesFor(after, i), j);
    CallDeltasConcat(ChoicesFor(xs, i), ChoicesFor(after, i), j);
  }

  lemma CutCallsThere(chunk: Fields, xs: seq<Json>, choice: Fields, ys: seq<Json>, i: int,
                      p: Place, x: string, y: string, before: seq<Fields>, after: seq<Fields>)
    requires Holds(chunk, xs, choice, ys, i) && HasCall(choice, p, x + y)
    ensures CallDeltas(ChoicesFor(before + [chunk] + after, i), p.j) != []
    ensures CallDeltas(ChoicesFor(before + CallCut(chunk, xs, choice, ys, i, p, x, y) + after, i), p.j) != []
  {
    var head, rest, later := CallHead(choice, p, x), DeltaChoice(i, CallDelta(p.j, y)), Later(xs, ys, i);
    CutChoices(chunk, xs, choice, ys, i, head, CallDelta(p.j, y), i);
    OwnCalls(choice, p, x, y, i, later);
    CallDeltasConcat(ItemsFor(xs, 0, i), [choice] + later, p.j);
    CallDeltasConcat(ItemsFor(xs, 0, i), [head] + later + [rest], p.j);
    CallsWithin(before, [chunk], after, i, p.j);
    CallsWithin(before, CallCut(chunk, xs, choice, ys, i, p, x, y), after, i, p.j);
  }

  lemma CallsClash(chunk: Fields, xs: seq<Json>, choice: Fields, ys: seq<Json>, i: int,
                   p: Place, x: string, y: string, before: seq<Fields>, after: seq<Fields>) returns (n: nat)
    requires Holds(chunk, xs, choice, ys, i) && HasCall(choice, p, x + y)
    requires y + CallsText(LaterCalls(p, Later(xs, ys, i))) != CallsText(LaterCalls(p, Later(xs, ys, i))) + y
    ensures var a, b := before + [chunk] + after, before + CallCut(chunk, xs, choice, ys, i, p, x, y) + after;
      && n < |Indexes(a)| && Indexes(a)[n] == i
      && CallArguments(ChoicesFor(a, i), p.j) != CallArguments(ChoicesFor(b, i), p.j)
      && CallDeltas(ChoicesFor(a, i), p.j) != [] && CallDeltas(ChoicesFor(b, i), p.j) != []
  {
    ArgumentsStreamsIff(chunk, xs, choice, ys, i, p, x, y, before, after);
    CutCallsThere(chunk, xs, choice, ys, i, p, x, y, before, after);
    n := IndexAt(before, chunk, xs, choice, ys, i, after);
  }

  /**
    Moving the second half of a tool call's arguments to a chunk of its own leaves what a stream collects to, or how it
    fails, unchanged exactly when the stream fails anyway or the half commutes with the arguments that come between: those
    of later calls of the delta, and of later choices of the chunk, for the same call of the same choice.
   */
  lemma CutCallIff(chunk: Fields, xs: seq<Json>, choice: Fields, ys: seq<Json>, i: int,
                   p: Place, x: string, y: string, before: seq<Fields>, after: seq<Fields>)
    requires Holds(chunk, xs, choice, ys, i) && HasCall(choice, p, x + y)
    ensures Collect(before + [chunk] + after) == Collect(before + CallCut(chunk, xs, choice, ys, i, p, x, y) + after)
       <==> Collect(before + [chunk] + after).Err?
            || y + CallsText(LaterCalls(p, Later(xs, ys, i))) == CallsText(LaterCalls(p, Later(xs, ys, i))) + y
  {
    var head, delta := CallHead(choice, p, x), CallDelta(p.j, y);
    CallShapes(choice, p, x, y, x + y);
    CutFailsAlike(chunk, xs, choice, ys, i, head, delta, before, after);
    if Collect(before + [chunk] + after).Ok? {
      if y + CallsText(LaterCalls(p, Later(xs, ys, i))) == CallsText(LaterCalls(p, Later(xs, ys, i))) + y {
        CollectedChunk(before, chunk, after);
        HeldShapes(chunk, xs, choice, ys, i);
        CallAlike(choice, p, x, y, i, Later(xs, ys, i));
        CutUnnoticed(chunk, xs, choice, ys, i, head, delta, before, after);
      } else {
        var n := CallsClash(chunk, xs, choice, ys, i, p, x, y, before, after);
        CallsTell(before + [chunk] + after, before + CallCut(chunk, xs, choice, ys, i, p, x, y) + after, n, p.j);
      }
    }
  }

  // ----- two calls in one delta -----

  lemma PairFor(p: Place, x: string, y: string, k: int)
    ensures ItemsFor([JObj(CallWith(p, x)), JObj(ArgumentsCall(p.j, y))], |p.us|, k)
         == (if IndexOr(p.call, |p.us|) == k then [CallWith(p, x)] else []) + (if p.j == k then [ArgumentsCall(p.j, y)] else [])
  {
    TwoItemsFor(CallWith(p, x), ArgumentsCall(p.j, y), |p.us|, k);
  }

  /** The calls of one index when the halves stand next to each other. */
  lemma PairCalls(choice: Fields, p: Place, x: string, y: string, k: int)
    requires HasCall(choice, p, x + y) && Explicit(p.vs)
    ensures CallDeltas([CallsInstead(choice, p, [JObj(CallWith(p, x)), JObj(ArgumentsCall(p.j, y))])], k)
         == ItemsFor(p.us, 0, k)
            + ((if p.j == k then [CallWith(p, x), ArgumentsCall(p.j, y)] else []) + ItemsFor(p.vs, |p.us| + 1, k))
  {
    var pair := [JObj(CallWith(p, x)), JObj(ArgumentsCall(p.j, y))];
    OneChoiceCalls(CallsInstead(choice, p, pair), k);
    ToolsOf(choice, p, pair, x + y);
    InsteadAt(p.us, pair, p.vs, k);
    PairFor(p, x, y, k);
    ExplicitShifts(p.vs, |p.us| + 1, |p.us| + 2, k);
  }

  lemma PairAlike(slot: ToolSlot, choice: Fields, p: Place, x: string, y: string, k: int)
    requires HasCall(choice, p, x + y) && Explicit(p.vs)
    ensures var other := CallsInstead(choice, p, [JObj(CallWith(p, x)), JObj(ArgumentsCall(p.j, y))]);
      && FoldAll(MERGE_SLOT, slot, CallDeltas([choice], k)) == FoldAll(MERGE_SLOT, slot, CallDeltas([other], k))
      && (CallDeltas([choice], k) == [] <==> CallDeltas([other], k) == [])
  {
    WholeCalls(choice, p, x + y, k);
    PairCalls(choice, p, x, y, k);
    if k == p.j {
      var u, v := ItemsFor(p.us, 0, k), ItemsFor(p.vs, |p.us| + 1, k);
      forall s: ToolSlot
        ensures FoldAll(MERGE_SLOT, s, [p.call] + v) == FoldAll(MERGE_SLOT, s, [CallWith(p, x), ArgumentsCall(p.j, y)] + v)
      {
        NothingAdded(y);
        SlotAlike(s, choice, p, x, y, []);
        assert [p.call] + [] == [p.call];
        assert [CallWith(p, x)] + [] + [ArgumentsCall(p.j, y)] == [CallWith(p, x), ArgumentsCall(p.j, y)];
        FoldAllConcat(MERGE_SLOT, s, [p.call], v);
        FoldAllConcat(MERGE_SLOT, s, [CallWith(p, x), ArgumentsCall(p.j, y)], v);
      }
      SlotFrame(slot, u, [p.call] + v, [CallWith(p, x), ArgumentsCall(p.j, y)] + v);
    }
  }

  lemma FoldOne(s: ChoiceState, choice: Fields)
    ensures FoldAll(MERGE_CHOICE, s, [choice]) == MergeChoice(s, choice)
  {
    assert [choice][1..] == [];
  }

  lemma PairFolds(choice: Fields, p: Place, x: string, y: string)
    requires HasCall(choice, p, x + y) && Explicit(p.vs) && ShapedChoice(choice)
    ensures FoldAlike([choice], [CallsInstead(choice, p, [JObj(CallWith(p, x)), JObj(ArgumentsCall(p.j, y))])])
  {
    var pair := [JObj(CallWith(p, x)), JObj(ArgumentsCall(p.j, y))];
    var other := CallsInstead(choice, p, pair);
    forall s: ChoiceState ensures FoldAll(MERGE_CHOICE, s, [choice]) == FoldAll(MERGE_CHOICE, s, [other]) {
      InsteadErased(s, choice, p, pair, x + y);
      FoldOne(s, choice);
      FoldOne(s, other);
      var t, u := MergeChoice(s, choice).value, MergeChoice(s, other).value;
      forall k: int
        ensures (k in t.toolCalls <==> k in u.toolCalls) && SlotAt(t.toolCalls, k) == SlotAt(u.toolCalls, k)
      {
        PairAlike(SlotAt(s.toolCalls, k), choice, p, x, y, k);
        SameSlot(s, [choice], [other], k);
      }
      SameCalls(t, u);
    }
  }

  /** Cutting the arguments into two calls next to each other changes nothing, if the calls after them name their indexes. */
  lemma CutCallInPlace(chunk: Fields, xs: seq<Json>, choice: Fields, ys: seq<Json>, i: int,
                       p: Place, x: string, y: string, before: seq<Fields>, after: seq<Fields>)
    requires Holds(chunk, xs, choice, ys, i) && HasCall(choice, p, x + y) && Explicit(p.vs)
    ensures var pair := [JObj(CallWith(p, x)), JObj(ArgumentsCall(p.j, y))];
      Collect(before + [chunk] + after)
      == Collect(before + [Instead(chunk, xs, [JObj(CallsInstead(choice, p, pair))], ys)] + after)
  {
    var other := CallsInstead(choice, p, [JObj(CallWith(p, x)), JObj(ArgumentsCall(p.j, y))]);
    InsteadShapes(choice, p, [JObj(CallWith(p, x)), JObj(ArgumentsCall(p.j, y))], x + y);
    if ShapedChoice(choice) {
      PairFolds(choice, p, x, y);
    }
    SwapChoice(chunk, xs, choice, ys, i, other, before, after);
  }
}
