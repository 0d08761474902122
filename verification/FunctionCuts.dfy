/** Cutting the argument string of a legacy function call in two. */
module FunctionCuts {
  import opened Values
  import opened Collector
  import opened Indexed
  import opened Shapes
  import opened Collected
  import opened Alike
  import opened Parts
  import opened Readings

  /** The choice's delta has a function call with these arguments. */
  predicate HasFunction(choice: Fields, d: Fields, f: Fields, text: string)
  {
    && Get(choice, "delta") == JObj(d) && Get(d, "function_call") == JObj(f) && Get(f, "arguments") == JStr(text)
  }

  function FunctionDelta(d: Fields, f: Fields, x: string): Fields
  {
    d["function_call" := JObj(f["arguments" := JStr(x)])]
  }

  function FunctionHead(choice: Fields, d: Fields, f: Fields, x: string): Fields
  {
    choice["delta" := JObj(FunctionDelta(d, f, x))]
  }

  function ArgumentsDelta(y: string): Fields
  {
    map["function_call" := JObj(map["arguments" := JStr(y)])]
  }

  // ----- halves -----

  lemma NamedApart(f: Fields, x: string)
    ensures Named(f["arguments" := JStr(x)]) == Named(f) && Named(map["arguments" := JStr(x)]) == map[]
  {
  }

  lemma CallsWhole(s: ChoiceState, d: Fields, f: Fields, x: string)
    requires Get(d, "function_call") == JObj(f) && MergeCalls(s, d).Ok?
    ensures var first := FunctionDelta(d, f, x);
      && MergeCalls(s, first).Ok? && MergeCalls(s, d).value.sawFunctionCall && MergeCalls(s, first).value.sawFunctionCall
      && Erased(MergeCalls(s, d).value, Arguments) == Erased(MergeCalls(s, first).value, Arguments)
  {
    NamedApart(f, x);
  }

  lemma FunctionWhole(s: ChoiceState, choice: Fields, d: Fields, f: Fields, x: string, text: string)
    requires HasFunction(choice, d, f, text) && ShapedChoice(choice)
    ensures var head := FunctionHead(choice, d, f, x);
      && MergeChoice(s, choice).Ok? && MergeChoice(s, head).Ok?
      && Erased(MergeChoice(s, choice).value, Arguments) == Erased(MergeChoice(s, head).value, Arguments)
      && Marked(MergeChoice(s, head).value, "function_call")
  {
    var head, first := FunctionHead(choice, d, f, x), FunctionDelta(d, f, x);
    ChoiceShape(s, choice);
    assert DeltaOf(choice) == Some(d) && DeltaOf(head) == Some(first);
    assert ChoiceExtrasOf(head) == ChoiceExtrasOf(choice) && Started(s, head) == Started(s, choice);
    PlainButOther(Started(s, choice), d, "function_call", first["function_call"]);
    CallsWhole(MergePlain(Started(s, choice), d), d, f, x);
    SeenGrows(s, head);
  }

  lemma CallsRest(s: ChoiceState, y: string)
    requires s.sawFunctionCall
    ensures MergeCalls(s, ArgumentsDelta(y)) == Ok(s.(functionArguments := s.functionArguments + y))
  {
    NamedApart(map[], y);
    assert s.functionCall + map[] == s.functionCall;
  }

  lemma FunctionRest(s: ChoiceState, i: int, y: string)
    requires Marked(s, "function_call")
    ensures var r := MergeChoice(s, DeltaChoice(i, ArgumentsDelta(y)));
      r.Ok? && Erased(r.value, Arguments) == Erased(s, Arguments)
  {
    DeltaOnly(s, i, ArgumentsDelta(y));
    PlainNothing(s, "function_call", ArgumentsDelta(y)["function_call"]);
    CallsRest(s, y);
  }

  lemma FunctionShapes(choice: Fields, d: Fields, f: Fields, x: string, y: string, text: string)
    requires HasFunction(choice, d, f, text)
    ensures ShapedChoice(choice) <==> ShapedChoice(FunctionHead(choice, d, f, x))
    ensures ShapedDelta(ArgumentsDelta(y))
  {
    assert DeltaOf(choice) == Some(d) && DeltaOf(FunctionHead(choice, d, f, x)) == Some(FunctionDelta(d, f, x));
  }

  lemma FunctionHalves(choice: Fields, d: Fields, f: Fields, x: string, y: string, i: int)
    requires HasFunction(choice, d, f, x + y) && ShapedChoice(choice)
    ensures Halves(choice, FunctionHead(choice, d, f, x), DeltaChoice(i, ArgumentsDelta(y)), "function_call", Arguments)
  {
    var head, rest := FunctionHead(choice, d, f, x), DeltaChoice(i, ArgumentsDelta(y));
    FunctionShapes(choice, d, f, x, y, x + y);
    DeltaChunkShape(i, ArgumentsDelta(y));
    forall s: ChoiceState | MergeChoice(s, choice).Ok? && MergeChoice(s, head).Ok?
      ensures Erased(MergeChoice(s, choice).value, Arguments) == Erased(MergeChoice(s, head).value, Arguments)
           && Marked(MergeChoice(s, head).value, "function_call")
    {
      FunctionWhole(s, choice, d, f, x, x + y);
    }
    forall s: ChoiceState | Marked(s, "function_call") && MergeChoice(s, rest).Ok?
      ensures Erased(MergeChoice(s, rest).value, Arguments) == Erased(s, Arguments)
    {
      FunctionRest(s, i, y);
    }
  }

  // ----- reading -----

  /** The function-call arguments that choices stream. */
  function FunctionText(choices: seq<Fields>): string
  {
    ArgumentsOf(FunctionDeltas(choices))
  }

  const READ: seq<Fields> -> string := (choices: seq<Fields>) => FunctionText(choices)

  lemma {:induction false} FunctionDeltasConcat(a: seq<Fields>, b: seq<Fields>)
    ensures FunctionDeltas(a + b) == FunctionDeltas(a) + FunctionDeltas(b)
    decreases |a|
  {
    if a == [] {
      assert a + b == b;
    } else {
      assert (a + b)[1..] == a[1..] + b;
      FunctionDeltasConcat(a[1..], b);
      Associate(FunctionOf(a[0]), FunctionDeltas(a[1..]), FunctionDeltas(b));
    }
  }

  lemma FunctionReads()
    ensures Reads(READ)
  {
    forall a: seq<Fields>, b: seq<Fields> ensures FunctionText(a + b) == FunctionText(a) + FunctionText(b) {
      FunctionDeltasConcat(a, b);
      ArgumentsOfConcat(FunctionDeltas(a), FunctionDeltas(b));
    }
  }

  lemma OneFunction(choice: Fields, d: Fields, f: Fields, text: string)
    requires HasFunction(choice, d, f, text)
    ensures FunctionDeltas([choice]) == [f] && FunctionText([choice]) == text
  {
    assert DeltaOf(choice) == Some(d) && [choice][1..] == [] && [f][1..] == [];
    assert FunctionDeltas([choice]) == [f] + FunctionDeltas([]);
    assert ArgumentsOf([f]) == ArgumentIn(f) + ArgumentsOf([]);
    NothingAdded(text);
  }

  lemma FunctionReadsCut(choice: Fields, d: Fields, f: Fields, x: string, y: string, i: int)
    requires HasFunction(choice, d, f, x + y)
    ensures ReadsCut(READ, choice, FunctionHead(choice, d, f, x), DeltaChoice(i, ArgumentsDelta(y)), "", x, y, "")
  {
    OneFunction(choice, d, f, x + y);
    OneFunction(FunctionHead(choice, d, f, x), FunctionDelta(d, f, x), f["arguments" := JStr(x)], x);
    OneFunction(DeltaChoice(i, ArgumentsDelta(y)), ArgumentsDelta(y), map["arguments" := JStr(y)], y);
    NothingAdded(x + y);
    NothingAdded(x);
  }

  lemma FunctionFieldIff(choice: Fields, d: Fields, f: Fields, x: string, y: string, i: int, later: seq<Fields>)
    requires HasFunction(choice, d, f, x + y)
    ensures FunctionText([choice] + later)
         == FunctionText([FunctionHead(choice, d, f, x)] + later + [DeltaChoice(i, ArgumentsDelta(y))])
       <==> y + FunctionText(later) == FunctionText(later) + y
  {
    FunctionReads();
    FunctionReadsCut(choice, d, f, x, y, i);
    ReadHalves(READ, choice, FunctionHead(choice, d, f, x), DeltaChoice(i, ArgumentsDelta(y)), later, "", x, y, "");
    NothingAdded(FunctionText(later));
  }

  /** If what comes between commutes with the second half, no state can tell the whole from the halves. */
  lemma FunctionAlike(choice: Fields, d: Fields, f: Fields, x: string, y: string, i: int, later: seq<Fields>)
    requires HasFunction(choice, d, f, x + y) && ShapedChoice(choice) && forall c :: c in later ==> ShapedChoice(c)
    requires y + FunctionText(later) == FunctionText(later) + y
    ensures FoldAlike([choice] + later, [FunctionHead(choice, d, f, x)] + later + [DeltaChoice(i, ArgumentsDelta(y))])
  {
    var head, rest := FunctionHead(choice, d, f, x), DeltaChoice(i, ArgumentsDelta(y));
    var one, two := [choice] + later, [head] + later + [rest];
    FunctionHalves(choice, d, f, x, y, i);
    FunctionFieldIff(choice, d, f, x, y, i, later);
    forall s: ChoiceState ensures FoldAll(MERGE_CHOICE, s, one) == FoldAll(MERGE_CHOICE, s, two) {
      HalvesErased(s, choice, head, rest, later, "function_call", Arguments);
      FoldFunctions(s, one);
      FoldFunctions(s, two);
    }
  }

  // ----- streams -----

  /** The second half of the arguments moved to a chunk of its own. */
  function FunctionCut(chunk: Fields, xs: seq<Json>, choice: Fields, ys: seq<Json>, i: int,
                       d: Fields, f: Fields, x: string, y: string): seq<Fields>
  {
    CutInTwo(chunk, xs, FunctionHead(choice, d, f, x), ys, i, ArgumentsDelta(y))
  }

  lemma FunctionStreamsIff(chunk: Fields, xs: seq<Json>, choice: Fields, ys: seq<Json>, i: int,
                           d: Fields, f: Fields, x: string, y: string, before: seq<Fields>, after: seq<Fields>)
    requires Holds(chunk, xs, choice, ys, i) && HasFunction(choice, d, f, x + y)
    ensures FunctionText(ChoicesFor(before + [chunk] + after, i))
         == FunctionText(ChoicesFor(before + FunctionCut(chunk, xs, choice, ys, i, d, f, x, y) + after, i))
       <==> y + FunctionText(Later(xs, ys, i)) == FunctionText(Later(xs, ys, i)) + y
  {
    FunctionReads();
    ReadStreams(READ, chunk, xs, choice, ys, i, FunctionHead(choice, d, f, x), ArgumentsDelta(y), before, after);
    FunctionFieldIff(choice, d, f, x, y, i, Later(xs, ys, i));
  }

  /** Streams whose function-call arguments read differently at one index collect to different completions. */
  lemma FunctionsTell(a: seq<Fields>, b: seq<Fields>, n: nat)
    requires Collect(a).Ok? && Collect(b).Ok? && Indexes(a) == Indexes(b) && n < |Indexes(a)|
    requires FunctionText(ChoicesFor(a, Indexes(a)[n])) != FunctionText(ChoicesFor(b, Indexes(a)[n]))
    ensures Collect(a) != Collect(b)
  {
    CollectedFunction(a, n);
    CollectedFunction(b, n);
  }

  lemma FunctionsClash(chunk: Fields, xs: seq<Json>, choice: Fields, ys: seq<Json>, i: int,
                       d: Fields, f: Fields, x: string, y: string, before: seq<Fields>, after: seq<Fields>) returns (n: nat)
    requires Holds(chunk, xs, choice, ys, i) && HasFunction(choice, d, f, x + y)
    requires y + FunctionText(Later(xs, ys, i)) != FunctionText(Later(xs, ys, i)) + y
    ensures var a, b := before + [chunk] + after, before + FunctionCut(chunk, xs, choice, ys, i, d, f, x, y) + after;
      n < |Indexes(a)| && FunctionText(ChoicesFor(a, Indexes(a)[n])) != FunctionText(ChoicesFor(b, Indexes(a)[n]))
  {
    FunctionStreamsIff(chunk, xs, choice, ys, i, d, f, x, y, before, after);
    n := IndexAt(before, chunk, xs, choice, ys, i, after);
  }

  /**
    Moving the second half of a function call's arguments to a chunk of its own leaves what a stream collects to, or how it
    fails, unchanged exactly when the stream fails anyway or the half commutes with the arguments that later choices of its
    chunk stream for the same index.
   */
  lemma CutFunctionIff(chunk: Fields, xs: seq<Json>, choice: Fields, ys: seq<Json>, i: int,
                       d: Fields, f: Fields, x: string, y: string, before: seq<Fields>, after: seq<Fields>)
    requires Holds(chunk, xs, choice, ys, i) && HasFunction(choice, d, f, x + y)
    ensures Collect(before + [chunk] + after) == Collect(before + FunctionCut(chunk, xs, choice, ys, i, d, f, x, y) + after)
       <==> Collect(before + [chunk] + after).Err?
            || y + FunctionText(Later(xs, ys, i)) == FunctionText(Later(xs, ys, i)) + y
  {
    var head, delta := FunctionHead(choice, d, f, x), ArgumentsDelta(y);
    FunctionShapes(choice, d, f, x, y, x + y);
    CutFailsAlike(chunk, xs, choice, ys, i, head, delta, before, after);
    if Collect(before + [chunk] + after).Ok? {
      if y + FunctionText(Later(xs, ys, i)) == FunctionText(Later(xs, ys, i)) + y {
        CollectedChunk(before, chunk, after);
        HeldShapes(chunk, xs, choice, ys, i);
        FunctionAlike(choice, d, f, x, y, i, Later(xs, ys, i));
        CutUnnoticed(chunk, xs, choice, ys, i, head, delta, before, after);
      } else {
        var n := FunctionsClash(chunk, xs, choice, ys, i, d, f, x, y, before, after);
        FunctionsTell(before + [chunk] + after, before + FunctionCut(chunk, xs, choice, ys, i, d, f, x, y) + after, n);
      }
    }
  }

  /** Cutting the arguments into two choices next to each other changes nothing, if the choices after them name their indexes. */
  lemma CutFunctionInPlace(chunk: Fields, xs: seq<Json>, choice: Fields, ys: seq<Json>, i: int,
                           d: Fields, f: Fields, x: string, y: string, before: seq<Fields>, after: seq<Fields>)
    requires Holds(chunk, xs, choice, ys, i) && HasFunction(choice, d, f, x + y) && Explicit(ys)
    ensures var halves := [JObj(FunctionHead(choice, d, f, x)), JObj(DeltaChoice(i, ArgumentsDelta(y)))];
      Collect(before + [chunk] + after) == Collect(before + [Instead(chunk, xs, halves, ys)] + after)
  {
    var head, rest := FunctionHead(choice, d, f, x), DeltaChoice(i, ArgumentsDelta(y));
    FunctionShapes(choice, d, f, x, y, x + y);
    if ShapedChoice(choice) {
      NothingAdded(y);
      FunctionAlike(choice, d, f, x, y, i, []);
      assert [choice] + [] == [choice] && [head] + [] + [rest] == [head, rest];
    }
    InPlaceUnnoticed(chunk, xs, choice, ys, i, head, ArgumentsDelta(y), before, after);
  }
}
