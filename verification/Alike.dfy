/** Streams that collect alike because they fold alike at every index; replacing choices in place, or moving one on. */
module Alike {
  import opened Values
  import opened Collector
  import opened CollectorLaws
  import opened Indexed
  import opened Shapes
  import opened Collected

  // ----- streams that fold alike -----

  /** What a stream leaves beside the choices. */
  function Headers(a: Acc, chunks: seq<Fields>): (Fields, Option<Json>)
    decreases |chunks|
  {
    if chunks == [] then (a.envelope, a.usage)
    else
      var usage := if UsageOf(chunks[0]).Some? then UsageOf(chunks[0]) else a.usage;
      Headers(Acc(a.envelope + EnvelopeOf(chunks[0]), usage, a.choices), chunks[1..])
  }

  lemma {:induction false} HeadersTaken(a: Acc, b: Acc, chunks: seq<Fields>)
    requires TakeChunks(a, chunks).Ok? && b.envelope == a.envelope && b.usage == a.usage
    ensures var c := TakeChunks(a, chunks).value; (c.envelope, c.usage) == Headers(b, chunks)
    decreases |chunks|
  {
    if chunks != [] {
      var usage := if UsageOf(chunks[0]).Some? then UsageOf(chunks[0]) else b.usage;
      HeadersTaken(TakeChunk(a, chunks[0]).value, Acc(b.envelope + EnvelopeOf(chunks[0]), usage, b.choices), chunks[1..]);
    }
  }

  lemma {:induction false} TouchedHas(chunks: seq<Fields>, i: int)
    ensures i in TouchedBy(chunks) <==> ChoicesFor(chunks, i) != []
  {
    if chunks != [] {
      if ChoicesOf(chunks[0]).Some? {
        ItemsForIff(ChoicesOf(chunks[0]).value, 0, i);
      }
      TouchedHas(chunks[1..], i);
    }
  }

  /** The same choices at an index, as far as any state can tell. */
  ghost predicate FoldAlike(xs: seq<Fields>, ys: seq<Fields>)
  {
    && (xs == [] <==> ys == [])
    && forall s: ChoiceState :: FoldAll(MERGE_CHOICE, s, xs) == FoldAll(MERGE_CHOICE, s, ys)
  }

  /** Chunks that leave the same headers and fold alike at every index do the same to every accumulator. */
  lemma SameChunks(a: Acc, xs: seq<Fields>, ys: seq<Fields>)
    requires TakeChunks(a, xs).Ok? && TakeChunks(a, ys).Ok? && Headers(a, xs) == Headers(a, ys)
    requires forall i: int :: FoldAlike(ChoicesFor(xs, i), ChoicesFor(ys, i))
    ensures TakeChunks(a, xs) == TakeChunks(a, ys)
  {
    var b, c := TakeChunks(a, xs).value, TakeChunks(a, ys).value;
    HeadersTaken(a, a, xs);
    HeadersTaken(a, a, ys);
    forall i: int ensures (i in b.choices <==> i in c.choices) && (i in c.choices ==> b.choices[i] == c.choices[i]) {
      SameAt(a, xs, ys, i);
    }
    SameMap(b.choices, c.choices);
  }

  lemma SameAt(a: Acc, xs: seq<Fields>, ys: seq<Fields>, i: int)
    requires TakeChunks(a, xs).Ok? && TakeChunks(a, ys).Ok? && FoldAlike(ChoicesFor(xs, i), ChoicesFor(ys, i))
    ensures var b, c := TakeChunks(a, xs).value.choices, TakeChunks(a, ys).value.choices;
      (i in b <==> i in c) && StateAt(b, i) == StateAt(c, i)
  {
    StateIsFold(a, xs, i);
    StateIsFold(a, ys, i);
    TouchedHas(xs, i);
    TouchedHas(ys, i);
  }

  // ----- one choice in its chunk -----

  /** The chunk holds this choice among others, at this index. */
  predicate Holds(chunk: Fields, xs: seq<Json>, choice: Fields, ys: seq<Json>, i: int)
  {
    Get(chunk, "choices") == JArr(xs + ([JObj(choice)] + ys)) && IndexOr(choice, |xs|) == i
  }

  /** The chunk with something else in the place of that choice. */
  function Instead(chunk: Fields, xs: seq<Json>, middle: seq<Json>, ys: seq<Json>): Fields
  {
    chunk["choices" := JArr(xs + (middle + ys))]
  }

  /** A choice that carries nothing but a delta for this index, and a chunk that carries nothing but that choice. */
  function DeltaChoice(i: int, delta: Fields): Fields
  {
    map["index" := JInt(i), "delta" := JObj(delta)]
  }

  function DeltaChunk(i: int, delta: Fields): Fields
  {
    map["choices" := JArr([JObj(DeltaChoice(i, delta))])]
  }

  /** The choices after this one in its chunk that take the same index. */
  function Later(xs: seq<Json>, ys: seq<Json>, i: int): seq<Fields>
  {
    ItemsFor(ys, |xs| + 1, i)
  }

  lemma FoldFrame(s: ChoiceState, before: seq<Fields>, xs: seq<Fields>, ys: seq<Fields>, after: seq<Fields>)
    requires FoldAlike(xs, ys)
    ensures FoldAll(MERGE_CHOICE, s, before + (xs + after)) == FoldAll(MERGE_CHOICE, s, before + (ys + after))
  {
    FoldAllConcat(MERGE_CHOICE, s, before, xs + after);
    FoldAllConcat(MERGE_CHOICE, s, before, ys + after);
    var t := FoldAll(MERGE_CHOICE, s, before);
    if t.Ok? {
      FoldAllConcat(MERGE_CHOICE, t.value, xs, after);
      FoldAllConcat(MERGE_CHOICE, t.value, ys, after);
    }
  }

  lemma AlikeFrame(before: seq<Fields>, xs: seq<Fields>, ys: seq<Fields>, after: seq<Fields>)
    requires FoldAlike(xs, ys)
    ensures FoldAlike(before + (xs + after), before + (ys + after))
  {
    forall s: ChoiceState
      ensures FoldAll(MERGE_CHOICE, s, before + (xs + after)) == FoldAll(MERGE_CHOICE, s, before + (ys + after))
    {
      FoldFrame(s, before, xs, ys, after);
    }
  }

  lemma ChoicesOfOne(chunk: Fields, choices: seq<Json>, i: int)
    requires Get(chunk, "choices") == JArr(choices)
    ensures ChoicesFor([chunk], i) == ItemsFor(choices, 0, i)
  {
    assert [chunk][1..] == [];
  }

  lemma ChoicesOfTwo(x: Fields, xs: seq<Json>, y: Fields, ys: seq<Json>, i: int)
    requires Get(x, "choices") == JArr(xs) && Get(y, "choices") == JArr(ys)
    ensures ChoicesFor([x, y], i) == ItemsFor(xs, 0, i) + ItemsFor(ys, 0, i)
  {
    assert [x, y][1..] == [y];
    ChoicesOfOne(y, ys, i);
  }

  // ----- the second half in place -----

  lemma InsteadAt(xs: seq<Json>, middle: seq<Json>, ys: seq<Json>, i: int)
    ensures ItemsFor(xs + (middle + ys), 0, i)
         == ItemsFor(xs, 0, i) + (ItemsFor(middle, |xs|, i) + ItemsFor(ys, |xs| + |middle|, i))
  {
    ItemsForConcat(xs, middle + ys, 0, i);
    ItemsForConcat(middle, ys, |xs|, i);
  }

  lemma SameHeaders(a: Acc, chunk: Fields, choices: Json)
    requires "choices" in chunk
    ensures Headers(a, [chunk["choices" := choices]]) == Headers(a, [chunk])
  {
    var other := chunk["choices" := choices];
    assert EnvelopeOf(other) == EnvelopeOf(chunk) && UsageOf(other) == UsageOf(chunk);
    assert [other][1..] == [] && [chunk][1..] == [];
  }

  lemma ChoicesInstead(chunk: Fields, xs: seq<Json>, middle: seq<Json>, ys: seq<Json>, i: int)
    requires Get(chunk, "choices") == JArr(xs + (middle + ys))
    ensures ChoicesFor([chunk], i)
         == ItemsFor(xs, 0, i) + (ItemsFor(middle, |xs|, i) + ItemsFor(ys, |xs| + |middle|, i))
  {
    ChoicesOfOne(chunk, xs + (middle + ys), i);
    InsteadAt(xs, middle, ys, i);
  }

  /** Two stretches of choices that fold alike at every index. */
  ghost predicate AllAlike(was: seq<Json>, middle: seq<Json>, k: int)
  {
    forall i: int :: FoldAlike(ItemsFor(was, k, i), ItemsFor(middle, k, i))
  }

  lemma ReplacedAt(x: Fields, y: Fields, xs: seq<Json>, was: seq<Json>, middle: seq<Json>, ys: seq<Json>, i: int)
    requires Get(x, "choices") == JArr(xs + (was + ys)) && Get(y, "choices") == JArr(xs + (middle + ys))
    requires AllAlike(was, middle, |xs|) && (|was| == |middle| || Explicit(ys))
    ensures FoldAlike(ChoicesFor([x], i), ChoicesFor([y], i))
  {
    var before, one, two := ItemsFor(xs, 0, i), ItemsFor(was, |xs|, i), ItemsFor(middle, |xs|, i);
    assert FoldAlike(one, two);
    var after := ItemsFor(ys, |xs| + |was|, i);
    assert ChoicesFor([x], i) == before + (one + after) by { ChoicesInstead(x, xs, was, ys, i); }
    assert ChoicesFor([y], i) == before + (two + after) by {
      ChoicesInstead(y, xs, middle, ys, i);
      if |was| != |middle| {
        ExplicitShifts(ys, |xs| + |was|, |xs| + |middle|, i);
      }
    }
    AlikeFrame(before, one, two, after);
  }

  /** Choices may be replaced by others that fold alike, if those after them keep their indexes. */
  lemma ReplaceChoices(a: Acc, chunk: Fields, xs: seq<Json>, was: seq<Json>, middle: seq<Json>, ys: seq<Json>)
    requires Get(chunk, "choices") == JArr(xs + (was + ys)) && (|was| == |middle| || Explicit(ys))
    requires ShapedChunk(chunk) && ShapedChunk(Instead(chunk, xs, middle, ys)) && AllAlike(was, middle, |xs|)
    ensures TakeChunks(a, [chunk]) == TakeChunks(a, [Instead(chunk, xs, middle, ys)])
  {
    var other := Instead(chunk, xs, middle, ys);
    assert TakeChunks(a, [chunk]).Ok? && TakeChunks(a, [other]).Ok? by {
      ChunksShape(a, [chunk]);
      ChunksShape(a, [other]);
    }
    SameHeaders(a, chunk, JArr(xs + (middle + ys)));
    forall i: int ensures FoldAlike(ChoicesFor([chunk], i), ChoicesFor([other], i)) {
      ReplacedAt(chunk, other, xs, was, middle, ys, i);
    }
    SameChunks(a, [chunk], [other]);
  }

  // ----- the second half in the next chunk -----

  lemma TailHeaders(a: Acc, part: Fields, i: int, delta: Fields)
    ensures Headers(a, [part, DeltaChunk(i, delta)]) == Headers(a, [part])
  {
    var tail := DeltaChunk(i, delta);
    assert EnvelopeOf(tail) == map[] && UsageOf(tail) == None;
    assert [part, tail][1..] == [tail] && [tail][1..] == [] && [part][1..] == [];
    assert a.envelope + EnvelopeOf(part) + map[] == a.envelope + EnvelopeOf(part);
  }

  lemma TailAt(i: int, delta: Fields, j: int)
    ensures ItemsFor([JObj(DeltaChoice(i, delta))], 0, j) == if i == j then [DeltaChoice(i, delta)] else []
  {
    OneItemFor(DeltaChoice(i, delta), 0, j);
  }

  /** The chunk cut in two: the choice's first half in its place, the second in a chunk of its own. */
  function CutInTwo(chunk: Fields, xs: seq<Json>, head: Fields, ys: seq<Json>, i: int, delta: Fields): seq<Fields>
  {
    [Instead(chunk, xs, [JObj(head)], ys), DeltaChunk(i, delta)]
  }

  lemma CutChoices(chunk: Fields, xs: seq<Json>, choice: Fields, ys: seq<Json>, i: int, head: Fields, delta: Fields, j: int)
    requires Holds(chunk, xs, choice, ys, i) && IndexOr(head, |xs|) == i
    ensures ChoicesFor([chunk], j)
         == ItemsFor(xs, 0, j) + (if i == j then [choice] + Later(xs, ys, i) else ItemsFor(ys, |xs| + 1, j))
    ensures ChoicesFor(CutInTwo(chunk, xs, head, ys, i, delta), j)
         == ItemsFor(xs, 0, j)
            + (if i == j then [head] + Later(xs, ys, i) + [DeltaChoice(i, delta)] else ItemsFor(ys, |xs| + 1, j))
  {
    var part, tail := Instead(chunk, xs, [JObj(head)], ys), DeltaChunk(i, delta);
    ChoicesOfOne(chunk, xs + ([JObj(choice)] + ys), j);
    ChoicesOfTwo(part, xs + ([JObj(head)] + ys), tail, [JObj(DeltaChoice(i, delta))], j);
    ItemsAround(xs, choice, ys, j);
    ItemsAround(xs, head, ys, j);
    TailAt(i, delta, j);
    var p, q := ItemsFor(xs, 0, j), ItemsFor(ys, |xs| + 1, j);
    if i == j {
      Associate(p, [head] + q, [DeltaChoice(i, delta)]);
    } else {
      assert [] + q == q;
      assert (p + q) + [] == p + q;
    }
  }

  /** One index of the stream before and after the second half moves to a chunk of its own. */
  lemma CutAwayAt(chunk: Fields, xs: seq<Json>, choice: Fields, ys: seq<Json>, i: int, head: Fields, delta: Fields, j: int)
    requires Holds(chunk, xs, choice, ys, i) && IndexOr(head, |xs|) == i
    requires FoldAlike([choice] + Later(xs, ys, i), [head] + Later(xs, ys, i) + [DeltaChoice(i, delta)])
    ensures FoldAlike(ChoicesFor([chunk], j), ChoicesFor(CutInTwo(chunk, xs, head, ys, i, delta), j))
  {
    CutChoices(chunk, xs, choice, ys, i, head, delta, j);
    if i == j {
      var p, one, two := ItemsFor(xs, 0, i), [choice] + Later(xs, ys, i), [head] + Later(xs, ys, i) + [DeltaChoice(i, delta)];
      AlikeFrame(p, one, two, []);
      assert p + (one + []) == p + one && p + (two + []) == p + two;
    }
  }

  lemma CutAway(a: Acc, chunk: Fields, xs: seq<Json>, choice: Fields, ys: seq<Json>, i: int, head: Fields, delta: Fields)
    requires Holds(chunk, xs, choice, ys, i) && IndexOr(head, |xs|) == i
    requires ShapedChunk(chunk) && ShapedChunk(Instead(chunk, xs, [JObj(head)], ys)) && ShapedChunk(DeltaChunk(i, delta))
    requires FoldAlike([choice] + Later(xs, ys, i), [head] + Later(xs, ys, i) + [DeltaChoice(i, delta)])
    ensures TakeChunks(a, [chunk]) == TakeChunks(a, [Instead(chunk, xs, [JObj(head)], ys), DeltaChunk(i, delta)])
  {
    var part, tail := Instead(chunk, xs, [JObj(head)], ys), DeltaChunk(i, delta);
    ChunksShape(a, [chunk]);
    ChunksShape(a, [part, tail]);
    SameHeaders(a, chunk, JArr(xs + ([JObj(head)] + ys)));
    TailHeaders(a, part, i, delta);
    forall j: int ensures FoldAlike(ChoicesFor([chunk], j), ChoicesFor([part, tail], j)) {
      CutAwayAt(chunk, xs, choice, ys, i, head, delta, j);
    }
    SameChunks(a, [chunk], [part, tail]);
  }

  // ----- whole streams -----

  lemma {:induction false} ChoicesForConcat(a: seq<Fields>, b: seq<Fields>, i: int)
    ensures ChoicesFor(a + b, i) == ChoicesFor(a, i) + ChoicesFor(b, i)
    decreases |a|
  {
    if a == [] {
      assert a + b == b;
    } else {
      assert (a + b)[1..] == a[1..] + b;
      ChoicesForConcat(a[1..], b, i);
      Associate(ChoicesIn(a[0], i), ChoicesFor(a[1..], i), ChoicesFor(b, i));
    }
  }

  lemma ChoicesWithin(before: seq<Fields>, xs: seq<Fields>, after: seq<Fields>, i: int)
    ensures ChoicesFor(before + xs + after, i) == ChoicesFor(before, i) + (ChoicesFor(xs, i) + ChoicesFor(after, i))
  {
    ChoicesForConcat(before + xs, after, i);
    ChoicesForConcat(before, xs, i);
    Associate(ChoicesFor(before, i), ChoicesFor(xs, i), ChoicesFor(after, i));
  }

  lemma AllShapedWithin(before: seq<Fields>, xs: seq<Fields>, after: seq<Fields>)
    ensures AllShaped(before + xs + after) <==> AllShaped(before) && AllShaped(xs) && AllShaped(after)
  {
    var all := before + xs + after;
    assert forall i :: 0 <= i < |before| ==> all[i] == before[i];
    assert forall i :: 0 <= i < |xs| ==> all[|before| + i] == xs[i];
    assert forall i :: 0 <= i < |after| ==> all[|before| + |xs| + i] == after[i];
  }

  lemma SameTouched(before: seq<Fields>, xs: seq<Fields>, ys: seq<Fields>, after: seq<Fields>)
    requires forall i: int :: ChoicesFor(xs, i) == [] <==> ChoicesFor(ys, i) == []
    ensures TouchedBy(before + xs + after) == TouchedBy(before + ys + after)
  {
    forall i: int ensures i in TouchedBy(before + xs + after) <==> i in TouchedBy(before + ys + after) {
      TouchedHas(before + xs + after, i);
      TouchedHas(before + ys + after, i);
      ChoicesWithin(before, xs, after, i);
      ChoicesWithin(before, ys, after, i);
    }
  }

  /** Stretches that are shaped alike and name the same indexes fail alike in every stream, and collect the same indexes. */
  lemma StreamsFailAlike(before: seq<Fields>, xs: seq<Fields>, ys: seq<Fields>, after: seq<Fields>)
    requires xs != [] && ys != [] && (AllShaped(xs) <==> AllShaped(ys))
    requires forall i: int :: ChoicesFor(xs, i) == [] <==> ChoicesFor(ys, i) == []
    ensures var a, b := Collect(before + xs + after), Collect(before + ys + after);
      (a.Ok? <==> b.Ok?) && (a.Err? ==> a == b)
    ensures Indexes(before + xs + after) == Indexes(before + ys + after)
  {
    AllShapedWithin(before, xs, after);
    AllShapedWithin(before, ys, after);
    SameTouched(before, xs, ys, after);
    CollectsIff(before + xs + after);
    CollectsIff(before + ys + after);
    if Collect(before + xs + after).Err? {
      ErrorsOf(before + xs + after);
      ErrorsOf(before + ys + after);
    }
  }

  lemma ErrorsOf(chunks: seq<Fields>)
    requires chunks != [] && Collect(chunks).Err?
    ensures Collect(chunks) == Err(if AllShaped(chunks) then NoChoices else BadShape)
  {
    CollectsIff(chunks);
    var e := Collect(chunks).error;
    assert e.EmptyStream? || e.NoChoices? || e.BadShape?;
  }

  lemma ShapedWithin(xs: seq<Json>, middle: seq<Json>, ys: seq<Json>)
    ensures ShapedChoices(xs + (middle + ys)) <==> ShapedChoices(xs) && ShapedChoices(middle) && ShapedChoices(ys)
  {
    var all := xs + (middle + ys);
    assert forall i :: 0 <= i < |xs| ==> all[i] == xs[i];
    assert forall i :: 0 <= i < |middle| ==> all[|xs| + i] == middle[i];
    assert forall i :: 0 <= i < |ys| ==> all[|xs| + |middle| + i] == ys[i];
  }

  lemma InsteadShape(chunk: Fields, xs: seq<Json>, was: seq<Json>, middle: seq<Json>, ys: seq<Json>)
    requires Get(chunk, "choices") == JArr(xs + (was + ys)) && (ShapedChoices(was) <==> ShapedChoices(middle))
    ensures ShapedChunk(chunk) <==> ShapedChunk(Instead(chunk, xs, middle, ys))
  {
    ShapedWithin(xs, was, ys);
    ShapedWithin(xs, middle, ys);
  }

  lemma OneShaped(choice: Fields)
    ensures ShapedChoices([JObj(choice)]) <==> ShapedChoice(choice)
  {
    ShapedSplit([JObj(choice)]);
  }

  lemma DeltaChunkShape(i: int, delta: Fields)
    ensures ShapedChunk(DeltaChunk(i, delta)) <==> ShapedDelta(delta)
    ensures ShapedChoice(DeltaChoice(i, delta)) <==> ShapedDelta(delta)
  {
    assert DeltaOf(DeltaChoice(i, delta)) == Some(delta);
    var items := [JObj(DeltaChoice(i, delta))];
    assert ChoicesOf(DeltaChunk(i, delta)) == Some(items);
    OneShaped(DeltaChoice(i, delta));
  }

  /** The stream with the whole chunk and the stream with the cut one fail alike, and collect the same indexes. */
  lemma CutFailsAlike(chunk: Fields, xs: seq<Json>, choice: Fields, ys: seq<Json>, i: int, head: Fields, delta: Fields,
                      before: seq<Fields>, after: seq<Fields>)
    requires Holds(chunk, xs, choice, ys, i) && IndexOr(head, |xs|) == i
    requires (ShapedChoice(choice) <==> ShapedChoice(head)) && ShapedDelta(delta)
    ensures AllShaped([chunk]) <==> AllShaped(CutInTwo(chunk, xs, head, ys, i, delta))
    ensures var a, b := Collect(before + [chunk] + after), Collect(before + CutInTwo(chunk, xs, head, ys, i, delta) + after);
      (a.Ok? <==> b.Ok?) && (a.Err? ==> a == b)
    ensures Indexes(before + [chunk] + after) == Indexes(before + CutInTwo(chunk, xs, head, ys, i, delta) + after)
  {
    var two := CutInTwo(chunk, xs, head, ys, i, delta);
    OneShaped(choice);
    OneShaped(head);
    InsteadShape(chunk, xs, [JObj(choice)], [JObj(head)], ys);
    DeltaChunkShape(i, delta);
    assert two[0] == Instead(chunk, xs, [JObj(head)], ys) && two[1] == DeltaChunk(i, delta);
    forall j: int ensures ChoicesFor([chunk], j) == [] <==> ChoicesFor(two, j) == [] {
      CutChoices(chunk, xs, choice, ys, i, head, delta, j);
    }
    StreamsFailAlike(before, [chunk], two, after);
  }

  lemma {:induction false} LaterShaped(ys: seq<Json>, k: int, i: int)
    requires ShapedChoices(ys)
    ensures forall c :: c in ItemsFor(ys, k, i) ==> ShapedChoice(c)
  {
    ItemsForIn(ys, k, i);
    forall c | c in ItemsFor(ys, k, i) ensures ShapedChoice(c) {
      var n :| 0 <= n < |ys| && ys[n] == JObj(c);
    }
  }

  lemma HeldShapes(chunk: Fields, xs: seq<Json>, choice: Fields, ys: seq<Json>, i: int)
    requires Holds(chunk, xs, choice, ys, i) && ShapedChunk(chunk)
    ensures ShapedChoice(choice) && forall c :: c in Later(xs, ys, i) ==> ShapedChoice(c)
  {
    ShapedWithin(xs, [JObj(choice)], ys);
    OneShaped(choice);
    LaterShaped(ys, |xs| + 1, i);
  }

  /** If no state can tell the whole choice from its halves, no stream can. */
  lemma CutUnnoticed(chunk: Fields, xs: seq<Json>, choice: Fields, ys: seq<Json>, i: int, head: Fields, delta: Fields,
                     before: seq<Fields>, after: seq<Fields>)
    requires Holds(chunk, xs, choice, ys, i) && IndexOr(head, |xs|) == i && ShapedChunk(chunk)
    requires (ShapedChoice(choice) <==> ShapedChoice(head)) && ShapedDelta(delta)
    requires FoldAlike([choice] + Later(xs, ys, i), [head] + Later(xs, ys, i) + [DeltaChoice(i, delta)])
    ensures Collect(before + [chunk] + after) == Collect(before + CutInTwo(chunk, xs, head, ys, i, delta) + after)
  {
    var two := CutInTwo(chunk, xs, head, ys, i, delta);
    CutFailsAlike(chunk, xs, choice, ys, i, head, delta, before, after);
    assert two[0] == Instead(chunk, xs, [JObj(head)], ys) && two[1] == DeltaChunk(i, delta);
    forall a: Acc ensures TakeChunks(a, [chunk]) == TakeChunks(a, two) {
      CutAway(a, chunk, xs, choice, ys, i, head, delta);
    }
    ReplaceAnywhere(before, [chunk], two, after);
  }

  /** A stream with a choice in it fails exactly when one of its chunks is badly shaped. */
  lemma FailsIff(chunk: Fields, xs: seq<Json>, choice: Fields, ys: seq<Json>, i: int, before: seq<Fields>, after: seq<Fields>)
    requires Holds(chunk, xs, choice, ys, i)
    ensures Collect(before + [chunk] + after).Err? <==> !(AllShaped(before) && ShapedChunk(chunk) && AllShaped(after))
  {
    var all := before + [chunk] + after;
    CollectsIff(all);
    AllShapedWithin(before, [chunk], after);
    ChoicesOfOne(chunk, xs + ([JObj(choice)] + ys), i);
    ItemsAround(xs, choice, ys, i);
    ChoicesWithin(before, [chunk], after, i);
    TouchedHas(all, i);
    assert ShapedChunk([chunk][0]) <==> ShapedChunk(chunk);
  }

  lemma CollectedChunk(before: seq<Fields>, chunk: Fields, after: seq<Fields>)
    requires Collect(before + [chunk] + after).Ok?
    ensures ShapedChunk(chunk)
  {
    CollectsIff(before + [chunk] + after);
    AllShapedWithin(before, [chunk], after);
    assert ShapedChunk([chunk][0]);
  }

  lemma TwoItemsFor(x: Fields, y: Fields, k: int, j: int)
    ensures ItemsFor([JObj(x), JObj(y)], k, j)
         == (if IndexOr(x, k) == j then [x] else []) + (if IndexOr(y, k + 1) == j then [y] else [])
  {
    assert [JObj(x)] + [JObj(y)] == [JObj(x), JObj(y)];
    ItemsForConcat([JObj(x)], [JObj(y)], k, j);
    OneItemFor(x, k, j);
    OneItemFor(y, k + 1, j);
  }

  lemma TwoShaped(x: Fields, y: Fields)
    ensures ShapedChoices([JObj(x), JObj(y)]) <==> ShapedChoice(x) && ShapedChoice(y)
  {
    ShapedSplit([JObj(x), JObj(y)]);
    assert [JObj(x), JObj(y)][1..] == [JObj(y)];
    OneShaped(y);
  }

  /** Halves that fold like the whole may stand next to each other in its place, if the choices after them keep their indexes. */
  lemma InPlaceUnnoticed(chunk: Fields, xs: seq<Json>, choice: Fields, ys: seq<Json>, i: int, head: Fields, delta: Fields,
                         before: seq<Fields>, after: seq<Fields>)
    requires Holds(chunk, xs, choice, ys, i) && IndexOr(head, |xs|) == i && Explicit(ys)
    requires (ShapedChoice(choice) <==> ShapedChoice(head)) && ShapedDelta(delta)
    requires ShapedChoice(choice) ==> FoldAlike([choice], [head, DeltaChoice(i, delta)])
    ensures var other := Instead(chunk, xs, [JObj(head), JObj(DeltaChoice(i, delta))], ys);
      Collect(before + [chunk] + after) == Collect(before + [other] + after)
  {
    var rest := DeltaChoice(i, delta);
    var was, middle := [JObj(choice)], [JObj(head), JObj(rest)];
    OneShaped(choice);
    TwoShaped(head, rest);
    DeltaChunkShape(i, delta);
    InsteadShape(chunk, xs, was, middle, ys);
    var other := Instead(chunk, xs, middle, ys);
    forall a: Acc ensures TakeChunks(a, [chunk]) == TakeChunks(a, [other]) {
      if ShapedChunk(chunk) {
        ShapedWithin(xs, was, ys);
        forall j: int ensures FoldAlike(ItemsFor(was, |xs|, j), ItemsFor(middle, |xs|, j)) {
          OneItemFor(choice, |xs|, j);
          TwoItemsFor(head, rest, |xs|, j);
        }
        ReplaceChoices(a, chunk, xs, was, middle, ys);
      } else {
        ChunksShape(a, [chunk]);
        ChunksShape(a, [other]);
        assert !ShapedChunk([chunk][0]) && !ShapedChunk([other][0]);
      }
    }
    ReplaceAnywhere(before, [chunk], [other], after);
  }

  /** A choice may be replaced by one at the same index that folds like it. */
  lemma SwapChoice(chunk: Fields, xs: seq<Json>, choice: Fields, ys: seq<Json>, i: int, other: Fields,
                   before: seq<Fields>, after: seq<Fields>)
    requires Holds(chunk, xs, choice, ys, i) && IndexOr(other, |xs|) == i
    requires ShapedChoice(choice) <==> ShapedChoice(other)
    requires ShapedChoice(choice) ==> FoldAlike([choice], [other])
    ensures Collect(before + [chunk] + after) == Collect(before + [Instead(chunk, xs, [JObj(other)], ys)] + after)
  {
    var next := Instead(chunk, xs, [JObj(other)], ys);
    OneShaped(choice);
    OneShaped(other);
    InsteadShape(chunk, xs, [JObj(choice)], [JObj(other)], ys);
    forall a: Acc ensures TakeChunks(a, [chunk]) == TakeChunks(a, [next]) {
      if ShapedChunk(chunk) {
        ShapedWithin(xs, [JObj(choice)], ys);
        forall j: int ensures FoldAlike(ItemsFor([JObj(choice)], |xs|, j), ItemsFor([JObj(other)], |xs|, j)) {
          OneItemFor(choice, |xs|, j);
          OneItemFor(other, |xs|, j);
        }
        ReplaceChoices(a, chunk, xs, [JObj(choice)], [JObj(other)], ys);
      } else {
        ChunksShape(a, [chunk]);
        ChunksShape(a, [next]);
        assert !ShapedChunk([chunk][0]) && !ShapedChunk([next][0]);
      }
    }
    ReplaceAnywhere(before, [chunk], [next], after);
  }
}
