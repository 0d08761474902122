/**
  Cutting a string of a stream in two. The halves may come one after the other in one chunk, or the second half may wait
  for a chunk of its own; the completion then stays the same exactly when the strings between them commute with it.
 */
module TextCuts {
  import opened Values
  import opened Collector
  import opened CollectorLaws
  import opened Indexed
  import opened Shapes
  import opened Collected
  import opened Alike
  import opened Parts
  import opened Readings

  // ----- texts -----

  function TextHead(choice: Fields, d: Fields, field: string, x: string): Fields
  {
    choice["delta" := JObj(d[field := JStr(x)])]
  }

  function TextDelta(field: string, y: string): Fields
  {
    map[field := JStr(y)]
  }

  /** The choice's delta has this text. */
  predicate HasText(choice: Fields, d: Fields, field: string, text: string)
  {
    Get(choice, "delta") == JObj(d) && field in TEXT_FIELDS && Get(d, field) == JStr(text)
  }

  /** The two ways of cutting differ, before the second half arrives, only in the texts. */
  lemma PlainButTexts(s: ChoiceState, delta: Fields, field: string, x: string, y: string)
    requires field in TEXT_FIELDS && Get(delta, field) == JStr(x + y)
    ensures var first := delta[field := JStr(x)];
      MergePlain(s, first) == MergePlain(s, delta).(texts := MergeTexts(s.texts, first))
  {
    var first := delta[field := JStr(x)];
    NotStructural(field);
    assert first.Keys == delta.Keys;
    assert ExtrasOf(first) == ExtrasOf(delta);
  }

  /** A delta holding one text field only appends to that text, once the field has been seen. */
  lemma TextOnly(u: ChoiceState, field: string, y: string)
    requires field in TEXT_FIELDS && field in u.seen
    ensures MergeDelta(u, map[field := JStr(y)]) == Ok(u.(texts := MergeTexts(u.texts, map[field := JStr(y)])))
  {
    var second: Fields := map[field := JStr(y)];
    NotStructural(field);
    assert second.Keys == {field};
    assert u.seen + {field} == u.seen;
    assert ExtrasOf(second) == map[];
    assert u.messageExtras + map[] == u.messageExtras;
  }

  lemma SameCalls(s: ChoiceState, d: Fields, e: Fields)
    requires Get(d, "tool_calls") == Get(e, "tool_calls") && Get(d, "function_call") == Get(e, "function_call")
    ensures MergeCalls(s, d) == MergeCalls(s, e)
  {
  }

  lemma TextWhole(s: ChoiceState, choice: Fields, d: Fields, field: string, x: string, y: string)
    requires HasText(choice, d, field, x + y) && ShapedChoice(choice)
    ensures var head := TextHead(choice, d, field, x);
      && MergeChoice(s, choice).Ok? && MergeChoice(s, head).Ok?
      && Erased(MergeChoice(s, choice).value, Texts) == Erased(MergeChoice(s, head).value, Texts)
      && Marked(MergeChoice(s, head).value, field)
  {
    var head, first := TextHead(choice, d, field, x), d[field := JStr(x)];
    NotStructural(field);
    ChoiceShape(s, choice);
    assert ChoiceExtrasOf(head) == ChoiceExtrasOf(choice) && Started(s, head) == Started(s, choice);
    var one, both := MergePlain(Started(s, choice), first), MergePlain(Started(s, choice), d);
    PlainButTexts(Started(s, choice), d, field, x, y);
    CallsIgnoreTexts(both, one.texts, d);
    SameCalls(one, first, d);
    SeenGrows(s, head);
  }

  lemma TextRest(s: ChoiceState, i: int, field: string, y: string)
    requires field in TEXT_FIELDS && Marked(s, field)
    ensures var r := MergeChoice(s, DeltaChoice(i, TextDelta(field, y)));
      r.Ok? && Erased(r.value, Texts) == Erased(s, Texts)
  {
    DeltaOnly(s, i, TextDelta(field, y));
    TextOnly(s, field, y);
  }

  lemma TextHalves(choice: Fields, d: Fields, field: string, x: string, y: string, i: int)
    requires HasText(choice, d, field, x + y) && ShapedChoice(choice)
    ensures Halves(choice, TextHead(choice, d, field, x), DeltaChoice(i, TextDelta(field, y)), field, Texts)
  {
    var head, rest := TextHead(choice, d, field, x), DeltaChoice(i, TextDelta(field, y));
    NotStructural(field);
    forall s: ChoiceState | MergeChoice(s, choice).Ok? && MergeChoice(s, head).Ok?
      ensures Erased(MergeChoice(s, choice).value, Texts) == Erased(MergeChoice(s, head).value, Texts)
           && Marked(MergeChoice(s, head).value, field)
    {
      TextWhole(s, choice, d, field, x, y);
    }
    forall s: ChoiceState | Marked(s, field) && MergeChoice(s, rest).Ok?
      ensures Erased(MergeChoice(s, rest).value, Texts) == Erased(s, Texts)
    {
      TextRest(s, i, field, y);
    }
  }

  lemma {:induction false} TextOfConcat(a: seq<Fields>, b: seq<Fields>, field: string)
    ensures TextOf(a + b, field) == Both(TextOf(a, field), TextOf(b, field))
    decreases |a|
  {
    if a == [] {
      assert a + b == b;
    } else {
      assert (a + b)[1..] == a[1..] + b;
      TextOfConcat(a[1..], b, field);
      BothInTurn(TextIn(a[0], field), TextOf(a[1..], field), TextOf(b, field));
    }
  }

  /** What choices stream in a text field, or nothing. */
  function Streamed(choices: seq<Fields>, field: string): string
  {
    if TextOf(choices, field).Some? then TextOf(choices, field).value else ""
  }

  lemma TextOfOne(choice: Fields, field: string)
    ensures TextOf([choice], field) == TextIn(choice, field)
  {
    assert [choice][1..] == [];
  }

  lemma HasTextIn(choice: Fields, d: Fields, field: string, text: string)
    requires HasText(choice, d, field, text)
    ensures TextIn(choice, field) == Some(text)
  {
    assert DeltaOf(choice) == Some(d);
  }

  /** Reading one text field. */
  function ReadText(field: string): seq<Fields> -> string
  {
    (choices: seq<Fields>) => Streamed(choices, field)
  }

  lemma TextReads(field: string)
    ensures Reads(ReadText(field))
  {
    forall a: seq<Fields>, b: seq<Fields> ensures Streamed(a + b, field) == Streamed(a, field) + Streamed(b, field) {
      TextOfConcat(a, b, field);
      NothingAdded(Streamed(a, field));
      assert "" + Streamed(b, field) == Streamed(b, field);
    }
  }

  lemma TextReadsCut(choice: Fields, d: Fields, field: string, x: string, y: string, i: int)
    requires HasText(choice, d, field, x + y)
    ensures ReadsCut(ReadText(field), choice, TextHead(choice, d, field, x), DeltaChoice(i, TextDelta(field, y)), "", x, y, "")
  {
    var head, rest := TextHead(choice, d, field, x), DeltaChoice(i, TextDelta(field, y));
    HasTextIn(choice, d, field, x + y);
    HasTextIn(head, d[field := JStr(x)], field, x);
    HasTextIn(rest, TextDelta(field, y), field, y);
    TextOfOne(choice, field);
    TextOfOne(head, field);
    TextOfOne(rest, field);
    assert "" + ((x + y) + "") == x + y && "" + (x + "") == x;
  }

  /** Both halves stream the field, so what is read is what is shown. */
  lemma TextThere(choice: Fields, d: Fields, field: string, text: string, later: seq<Fields>)
    requires HasText(choice, d, field, text)
    ensures TextOf([choice] + later, field).Some?
  {
    HasTextIn(choice, d, field, text);
    TextOfOne(choice, field);
    TextOfConcat([choice], later, field);
  }

  /** The other fields do not change. */
  lemma OtherTexts(choice: Fields, d: Fields, field: string, x: string, y: string, i: int, later: seq<Fields>, f: string)
    requires HasText(choice, d, field, x + y) && f != field
    ensures TextOf([choice] + later, f)
         == TextOf([TextHead(choice, d, field, x)] + later + [DeltaChoice(i, TextDelta(field, y))], f)
  {
    var head, rest := TextHead(choice, d, field, x), DeltaChoice(i, TextDelta(field, y));
    assert DeltaOf(choice) == Some(d) && DeltaOf(head) == Some(d[field := JStr(x)]) && DeltaOf(rest) == Some(TextDelta(field, y));
    assert TextIn(choice, f) == TextIn(head, f) && TextIn(rest, f) == None;
    TextOfConcat([choice], later, f);
    TextOfConcat([head], later, f);
    TextOfConcat([head] + later, [rest], f);
    TextOfOne(choice, f);
    TextOfOne(head, f);
    TextOfOne(rest, f);
  }

  lemma SameTexts(s: ChoiceState, t: ChoiceState)
    requires Erased(s, Texts) == Erased(t, Texts) && forall f: string :: Shown(s, f) == Shown(t, f)
    ensures s == t
  {
    forall f: string ensures (f in s.texts <==> f in t.texts) && (f in t.texts ==> s.texts[f] == t.texts[f]) {
      assert Shown(s, f) == Shown(t, f);
    }
    SameMap(s.texts, t.texts);
  }

  /** The cut field reads the same in the whole and in the halves exactly when what comes between commutes. */
  lemma CutFieldIff(choice: Fields, d: Fields, field: string, x: string, y: string, i: int, later: seq<Fields>)
    requires HasText(choice, d, field, x + y)
    ensures Streamed([choice] + later, field)
         == Streamed([TextHead(choice, d, field, x)] + later + [DeltaChoice(i, TextDelta(field, y))], field)
       <==> y + Streamed(later, field) == Streamed(later, field) + y
  {
    var head, rest, read := TextHead(choice, d, field, x), DeltaChoice(i, TextDelta(field, y)), ReadText(field);
    TextReads(field);
    TextReadsCut(choice, d, field, x, y, i);
    ReadHalves(read, choice, head, rest, later, "", x, y, "");
    assert Between(read, "", later) == Streamed(later, field);
  }

  lemma BothThere(choice: Fields, d: Fields, field: string, x: string, y: string, i: int, later: seq<Fields>)
    requires HasText(choice, d, field, x + y)
    ensures TextOf([choice] + later, field).Some?
    ensures TextOf([TextHead(choice, d, field, x)] + later + [DeltaChoice(i, TextDelta(field, y))], field).Some?
  {
    var head, rest := TextHead(choice, d, field, x), DeltaChoice(i, TextDelta(field, y));
    TextThere(choice, d, field, x + y, later);
    TextThere(head, d[field := JStr(x)], field, x, later + [rest]);
    assert [head] + (later + [rest]) == [head] + later + [rest];
  }

  /** If what comes between commutes with the second half, no state can tell the whole from the halves. */
  lemma TextAlike(choice: Fields, d: Fields, field: string, x: string, y: string, i: int, later: seq<Fields>)
    requires HasText(choice, d, field, x + y) && ShapedChoice(choice) && forall c :: c in later ==> ShapedChoice(c)
    requires y + Streamed(later, field) == Streamed(later, field) + y
    ensures FoldAlike([choice] + later, [TextHead(choice, d, field, x)] + later + [DeltaChoice(i, TextDelta(field, y))])
  {
    var head, rest := TextHead(choice, d, field, x), DeltaChoice(i, TextDelta(field, y));
    var one, two := [choice] + later, [head] + later + [rest];
    TextHalves(choice, d, field, x, y, i);
    forall s: ChoiceState ensures FoldAll(MERGE_CHOICE, s, one) == FoldAll(MERGE_CHOICE, s, two) {
      HalvesErased(s, choice, head, rest, later, field, Texts);
      var t, u := FoldAll(MERGE_CHOICE, s, one).value, FoldAll(MERGE_CHOICE, s, two).value;
      forall f: string ensures Shown(t, f) == Shown(u, f) {
        FoldTexts(s, one, f);
        FoldTexts(s, two, f);
        if f == field {
          CutFieldIff(choice, d, field, x, y, i, later);
          BothThere(choice, d, field, x, y, i, later);
        } else {
          OtherTexts(choice, d, field, x, y, i, later, f);
        }
      }
      SameTexts(t, u);
    }
  }

  lemma TextShapes(choice: Fields, d: Fields, field: string, x: string, y: string, text: string)
    requires HasText(choice, d, field, text)
    ensures ShapedChoice(choice) <==> ShapedChoice(TextHead(choice, d, field, x))
    ensures ShapedDelta(TextDelta(field, y))
  {
    NotStructural(field);
    assert DeltaOf(choice) == Some(d) && DeltaOf(TextHead(choice, d, field, x)) == Some(d[field := JStr(x)]);
  }

  /** Streams whose texts read differently at one index collect to different completions. */
  lemma TextsTell(a: seq<Fields>, b: seq<Fields>, n: nat, field: string)
    requires Collect(a).Ok? && Collect(b).Ok? && Indexes(a) == Indexes(b) && n < |Indexes(a)| && field in TEXT_FIELDS
    requires var i := Indexes(a)[n]; TextOf(ChoicesFor(a, i), field) != TextOf(ChoicesFor(b, i), field)
    requires TextOf(ChoicesFor(a, Indexes(a)[n]), field).Some? && TextOf(ChoicesFor(b, Indexes(a)[n]), field).Some?
    ensures Collect(a) != Collect(b)
  {
    CollectedText(a, n, field);
    CollectedText(b, n, field);
  }

  lemma TextIsThere(before: seq<Fields>, xs: seq<Fields>, after: seq<Fields>, i: int, field: string)
    requires TextOf(ChoicesFor(xs, i), field).Some?
    ensures TextOf(ChoicesFor(before + xs + after, i), field).Some?
  {
    ChoicesWithin(before, xs, after, i);
    TextOfConcat(ChoicesFor(xs, i), ChoicesFor(after, i), field);
    TextOfConcat(ChoicesFor(before, i), ChoicesFor(xs, i) + ChoicesFor(after, i), field);
  }

  /** The second half of a text moved to a chunk of its own. */
  function TextCut(chunk: Fields, xs: seq<Json>, choice: Fields, ys: seq<Json>, i: int,
                   d: Fields, field: string, x: string, y: string): seq<Fields>
  {
    CutInTwo(chunk, xs, TextHead(choice, d, field, x), ys, i, TextDelta(field, y))
  }

  lemma CutTextsThere(chunk: Fields, xs: seq<Json>, choice: Fields, ys: seq<Json>, i: int,
                      d: Fields, field: string, x: string, y: string, before: seq<Fields>, after: seq<Fields>)
    requires Holds(chunk, xs, choice, ys, i) && HasText(choice, d, field, x + y)
    ensures TextOf(ChoicesFor(before + [chunk] + after, i), field).Some?
    ensures TextOf(ChoicesFor(before + TextCut(chunk, xs, choice, ys, i, d, field, x, y) + after, i), field).Some?
  {
    var head, rest, later := TextHead(choice, d, field, x), DeltaChoice(i, TextDelta(field, y)), Later(xs, ys, i);
    CutChoices(chunk, xs, choice, ys, i, head, TextDelta(field, y), i);
    BothThere(choice, d, field, x, y, i, later);
    TextOfConcat(ItemsFor(xs, 0, i), [choice] + later, field);
    TextOfConcat(ItemsFor(xs, 0, i), [head] + later + [rest], field);
    TextIsThere(before, [chunk], after, i, field);
    TextIsThere(before, TextCut(chunk, xs, choice, ys, i, d, field, x, y), after, i, field);
  }

  lemma TextStreamsRead(chunk: Fields, xs: seq<Json>, choice: Fields, ys: seq<Json>, i: int,
                        d: Fields, field: string, x: string, y: string, before: seq<Fields>, after: seq<Fields>)
    requires Holds(chunk, xs, choice, ys, i) && HasText(choice, d, field, x + y)
    ensures Streamed(ChoicesFor(before + [chunk] + after, i), field)
         == Streamed(ChoicesFor(before + TextCut(chunk, xs, choice, ys, i, d, field, x, y) + after, i), field)
       <==> (Streamed([choice] + Later(xs, ys, i), field)
             == Streamed([TextHead(choice, d, field, x)] + Later(xs, ys, i) + [DeltaChoice(i, TextDelta(field, y))], field))
  {
    var read := ReadText(field);
    TextReads(field);
    ReadStreams(read, chunk, xs, choice, ys, i, TextHead(choice, d, field, x), TextDelta(field, y), before, after);
  }

  lemma TextStreamsIff(chunk: Fields, xs: seq<Json>, choice: Fields, ys: seq<Json>, i: int,
                       d: Fields, field: string, x: string, y: string, before: seq<Fields>, after: seq<Fields>)
    requires Holds(chunk, xs, choice, ys, i) && HasText(choice, d, field, x + y)
    ensures Streamed(ChoicesFor(before + [chunk] + after, i), field)
         == Streamed(ChoicesFor(before + TextCut(chunk, xs, choice, ys, i, d, field, x, y) + after, i), field)
       <==> y + Streamed(Later(xs, ys, i), field) == Streamed(Later(xs, ys, i), field) + y
  {
    TextStreamsRead(chunk, xs, choice, ys, i, d, field, x, y, before, after);
    CutFieldIff(choice, d, field, x, y, i, Later(xs, ys, i));
  }

  lemma TextsClash(chunk: Fields, xs: seq<Json>, choice: Fields, ys: seq<Json>, i: int,
                   d: Fields, field: string, x: string, y: string, before: seq<Fields>, after: seq<Fields>) returns (n: nat)
    requires Holds(chunk, xs, choice, ys, i) && HasText(choice, d, field, x + y)
    requires y + Streamed(Later(xs, ys, i), field) != Streamed(Later(xs, ys, i), field) + y
    ensures var a, b := before + [chunk] + after, before + TextCut(chunk, xs, choice, ys, i, d, field, x, y) + after;
      && n < |Indexes(a)| && Indexes(a)[n] == i
      && TextOf(ChoicesFor(a, i), field) != TextOf(ChoicesFor(b, i), field)
      && TextOf(ChoicesFor(a, i), field).Some? && TextOf(ChoicesFor(b, i), field).Some?
  {
    TextStreamsIff(chunk, xs, choice, ys, i, d, field, x, y, before, after);
    CutTextsThere(chunk, xs, choice, ys, i, d, field, x, y, before, after);
    n := IndexAt(before, chunk, xs, choice, ys, i, after);
  }

  /**
    Moving the second half of a text to a chunk of its own leaves what a stream collects to, or how it fails, unchanged
    exactly when the stream fails anyway or the half commutes with the text that later choices of its chunk stream for the
    same index.
   */
  lemma CutTextIff(chunk: Fields, xs: seq<Json>, choice: Fields, ys: seq<Json>, i: int,
                   d: Fields, field: string, x: string, y: string, before: seq<Fields>, after: seq<Fields>)
    requires Holds(chunk, xs, choice, ys, i) && HasText(choice, d, field, x + y)
    ensures Collect(before + [chunk] + after) == Collect(before + TextCut(chunk, xs, choice, ys, i, d, field, x, y) + after)
       <==> Collect(before + [chunk] + after).Err?
            || y + Streamed(Later(xs, ys, i), field) == Streamed(Later(xs, ys, i), field) + y
  {
    var head, delta := TextHead(choice, d, field, x), TextDelta(field, y);
    TextShapes(choice, d, field, x, y, x + y);
    CutFailsAlike(chunk, xs, choice, ys, i, head, delta, before, after);
    if Collect(before + [chunk] + after).Ok? {
      if y + Streamed(Later(xs, ys, i), field) == Streamed(Later(xs, ys, i), field) + y {
        CollectedChunk(before, chunk, after);
        HeldShapes(chunk, xs, choice, ys, i);
        TextAlike(choice, d, field, x, y, i, Later(xs, ys, i));
        CutUnnoticed(chunk, xs, choice, ys, i, head, delta, before, after);
      } else {
        var n := TextsClash(chunk, xs, choice, ys, i, d, field, x, y, before, after);
        TextsTell(before + [chunk] + after, before + TextCut(chunk, xs, choice, ys, i, d, field, x, y) + after, n, field);
      }
    }
  }

  /** Cutting a text into two choices next to each other changes nothing, if the choices after them name their indexes. */
  lemma CutTextInPlace(chunk: Fields, xs: seq<Json>, choice: Fields, ys: seq<Json>, i: int,
                       d: Fields, field: string, x: string, y: string, before: seq<Fields>, after: seq<Fields>)
    requires Holds(chunk, xs, choice, ys, i) && HasText(choice, d, field, x + y) && Explicit(ys)
    ensures var halves := [JObj(TextHead(choice, d, field, x)), JObj(DeltaChoice(i, TextDelta(field, y)))];
      Collect(before + [chunk] + after) == Collect(before + [Instead(chunk, xs, halves, ys)] + after)
  {
    var head, rest := TextHead(choice, d, field, x), DeltaChoice(i, TextDelta(field, y));
    TextShapes(choice, d, field, x, y, x + y);
    if ShapedChoice(choice) {
      NothingAdded(y);
      TextAlike(choice, d, field, x, y, i, []);
      assert [choice] + [] == [choice] && [head] + [] + [rest] == [head, rest];
    }
    InPlaceUnnoticed(chunk, xs, choice, ys, i, head, TextDelta(field, y), before, after);
  }
}
