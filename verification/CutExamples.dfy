/** Two choices of one chunk, or two calls of one delta, at the same index: when cutting the first changes the completion. */
module CutExamples {
  import opened Values
  import opened Collector
  import opened Indexed
  import opened Shapes
  import opened Alike
  import opened TextCuts
  import CallCuts

  // ----- text -----

  function Content(text: string): Fields
  {
    map["content" := JStr(text)]
  }

  /** A chunk with two choices, both at index 0. */
  function TwoTexts(a: string, b: string): Fields
  {
    map["choices" := JArr([JObj(DeltaChoice(0, Content(a))), JObj(DeltaChoice(0, Content(b)))])]
  }

  lemma OneText(text: string)
    ensures Streamed([DeltaChoice(0, Content(text))], "content") == text
    ensures HasText(DeltaChoice(0, Content(text)), Content(text), "content", text) && ShapedDelta(Content(text))
  {
    HasTextIn(DeltaChoice(0, Content(text)), Content(text), "content", text);
    TextOfOne(DeltaChoice(0, Content(text)), "content");
  }

  lemma TextsHeld(a: string, b: string)
    ensures Holds(TwoTexts(a, b), [], DeltaChoice(0, Content(a)), [JObj(DeltaChoice(0, Content(b)))], 0)
    ensures ShapedChunk(TwoTexts(a, b)) && Later([], [JObj(DeltaChoice(0, Content(b)))], 0) == [DeltaChoice(0, Content(b))]
  {
    var one, two := DeltaChoice(0, Content(a)), DeltaChoice(0, Content(b));
    assert [] + ([JObj(one)] + [JObj(two)]) == [JObj(one), JObj(two)];
    OneItemFor(two, 1, 0);
    DeltaChunkShape(0, Content(a));
    DeltaChunkShape(0, Content(b));
    TwoShaped(one, two);
  }

  /** Cut into another chunk, the text changes exactly when the order of its second half and the other choice's text shows. */
  lemma TwoTextsIff(x: string, y: string, z: string)
    ensures var whole := TwoTexts(x + y, z);
      var halves := TextCut(whole, [], DeltaChoice(0, Content(x + y)), [JObj(DeltaChoice(0, Content(z)))], 0,
                            Content(x + y), "content", x, y);
      && Collect([] + [whole] + []).Ok?
      && (Collect([] + [whole] + []) == Collect([] + halves + []) <==> y + z == z + y)
  {
    var whole, choice, ys := TwoTexts(x + y, z), DeltaChoice(0, Content(x + y)), [JObj(DeltaChoice(0, Content(z)))];
    TextsHeld(x + y, z);
    OneText(x + y);
    OneText(z);
    FailsIff(whole, [], choice, ys, 0, [], []);
    CutTextIff(whole, [], choice, ys, 0, Content(x + y), "content", x, y, [], []);
  }

  /** "ab" then "c" is "abc", but "a", "c", "b" is not; "ab" then "b" is the same either way. */
  lemma CutChangesText()
    ensures var whole := TwoTexts("a" + "b", "c");
      Collect([] + [whole] + [])
      != Collect([] + TextCut(whole, [], DeltaChoice(0, Content("a" + "b")), [JObj(DeltaChoice(0, Content("c")))], 0,
                              Content("a" + "b"), "content", "a", "b") + [])
    ensures var whole := TwoTexts("a" + "b", "b");
      Collect([] + [whole] + [])
      == Collect([] + TextCut(whole, [], DeltaChoice(0, Content("a" + "b")), [JObj(DeltaChoice(0, Content("b")))], 0,
                              Content("a" + "b"), "content", "a", "b") + [])
  {
    assert ("b" + "c")[0] != ("c" + "b")[0];
    TwoTextsIff("a", "b", "c");
    TwoTextsIff("a", "b", "b");
  }

  // ----- tool-call arguments -----

  /** The first of two calls for index 0, with its arguments. */
  function First(a: string, b: string): CallCuts.Place
  {
    CallCuts.Place(map["tool_calls" := JArr([JObj(CallCuts.ArgumentsCall(0, a)), JObj(CallCuts.ArgumentsCall(0, b))])],
                   [], CallCuts.ArgumentsCall(0, a), [JObj(CallCuts.ArgumentsCall(0, b))], 0, map["arguments" := JStr(a)])
  }

  lemma CallsHeld(a: string, b: string)
    ensures CallCuts.HasCall(DeltaChoice(0, First(a, b).d), First(a, b), a)
    ensures Holds(DeltaChunk(0, First(a, b).d), [], DeltaChoice(0, First(a, b).d), [], 0)
    ensures ShapedChunk(DeltaChunk(0, First(a, b).d)) && CallCuts.CallsText(CallCuts.LaterCalls(First(a, b), [])) == b
  {
    var one, two := JObj(CallCuts.ArgumentsCall(0, a)), JObj(CallCuts.ArgumentsCall(0, b));
    assert [] + ([one] + [two]) == [one, two];
    assert ShapedItems([one, two]);
    DeltaChunkShape(0, First(a, b).d);
    assert [] + ([JObj(DeltaChoice(0, First(a, b).d))] + []) == [JObj(DeltaChoice(0, First(a, b).d))];
    OneItemFor(CallCuts.ArgumentsCall(0, b), 1, 0);
    CallCuts.OneCallText(CallCuts.ArgumentsCall(0, b), map["arguments" := JStr(b)], b);
    assert CallCuts.LaterCalls(First(a, b), []) == [CallCuts.ArgumentsCall(0, b)];
  }

  /** The same for two argument strings of one call in one delta. */
  lemma TwoCallsIff(x: string, y: string, z: string)
    ensures var p := First(x + y, z);
      var whole := DeltaChunk(0, p.d);
      var halves := CallCuts.CallCut(whole, [], DeltaChoice(0, p.d), [], 0, p, x, y);
      && Collect([] + [whole] + []).Ok?
      && (Collect([] + [whole] + []) == Collect([] + halves + []) <==> y + z == z + y)
  {
    var p := First(x + y, z);
    CallsHeld(x + y, z);
    FailsIff(DeltaChunk(0, p.d), [], DeltaChoice(0, p.d), [], 0, [], []);
    CallCuts.CutCallIff(DeltaChunk(0, p.d), [], DeltaChoice(0, p.d), [], 0, p, x, y, [], []);
    assert Later([], [], 0) == [];
  }
}
