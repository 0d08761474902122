/** The grammar of frames and of streams of them, read off the bytes, and the decoder proved to accept exactly that. */
module Grammar {
  import opened Values
  import opened Framing

  // ----- lines -----

  /** Lines put together again, a line feed between them. */
  function Join(lines: seq<Bytes>): Bytes
    requires lines != []
  {
    if |lines| == 1 then lines[0] else lines[0] + [10] + Join(lines[1..])
  }

  /** Splitting takes nothing away and leaves no line feed in a line. */
  lemma {:induction false} SplitIs(s: Bytes)
    ensures Join(Split(s)) == s
    ensures forall i :: 0 <= i < |Split(s)| ==> 10 !in Split(s)[i]
  {
    if s != [] {
      SplitIs(s[1..]);
      var rest, lines := Split(s[1..]), Split(s);
      if s[0] == LF {
        assert lines[1..] == rest;
        assert [] + [10] + Join(rest) == [s[0]] + s[1..];
      } else if |rest| == 1 {
        assert Join(lines) == [s[0]] + s[1..];
      } else {
        assert lines[1..] == rest[1..];
        assert ([s[0]] + rest[0]) + [10] + Join(rest[1..]) == [s[0]] + (rest[0] + [10] + Join(rest[1..]));
      }
      assert [s[0]] + s[1..] == s;
    }
  }

  /** The line begins with this field name and its colon. */
  predicate Tagged(line: Bytes, tag: Bytes)
  {
    |line| >= |tag| && line[..|tag|] == tag
  }

  const DATA_TAG: Bytes := [100, 97, 116, 97, 58]
  const EVENT_TAG: Bytes := [101, 118, 101, 110, 116, 58]

  /** The optional space after the colon: there is one unless the value shows that there is not. */
  predicate IsSpace(space: Bytes, value: Bytes)
  {
    space == [32] || (space == [] && (value == [] || value[0] != 32))
  }

  /** The optional carriage return at the end of a line. */
  predicate IsReturn(cr: Bytes, value: Bytes)
  {
    cr == [13] || (cr == [] && (value == [] || value[|value| - 1] != 13))
  }

  /** The line is this field with this value. */
  ghost predicate Bears(line: Bytes, tag: Bytes, value: Bytes)
  {
    exists space: Bytes, cr: Bytes ::
      IsSpace(space, value) && IsReturn(cr, value) && line == tag + (space + value) + cr
  }

  predicate IsTag(tag: Bytes)
  {
    tag == DATA_TAG || tag == EVENT_TAG
  }

  lemma StripKeepsTag(line: Bytes, tag: Bytes)
    requires IsTag(tag)
    ensures BeginsWith(StripCr(line), tag) <==> Tagged(line, tag)
  {
    if Tagged(line, tag) {
      assert line[|tag| - 1] == line[..|tag|][|tag| - 1] == 58;
    }
    if BeginsWith(StripCr(line), tag) {
      assert line[..|tag|] == StripCr(line)[..|tag|];
    }
  }

  lemma StripBack(head: Bytes, cr: Bytes)
    requires cr == [13] || (cr == [] && (head == [] || head[|head| - 1] != 13))
    ensures StripCr(head + cr) == head
  {
    if cr == [13] {
      assert (head + cr)[..|head|] == head;
    } else {
      assert head + cr == head;
    }
  }

  lemma SpaceBack(space: Bytes, value: Bytes)
    requires IsSpace(space, value)
    ensures StripSpace(space + value) == value
  {
    if space == [32] {
      assert (space + value)[1..] == value;
    } else {
      assert space + value == value;
    }
  }

  lemma BornIs(tag: Bytes, space: Bytes, value: Bytes, cr: Bytes)
    requires IsTag(tag) && IsSpace(space, value) && IsReturn(cr, value)
    ensures var line := tag + (space + value) + cr;
      Tagged(line, tag) && value == StripSpace(StripCr(line)[|tag|..])
  {
    var rest := space + value;
    var line := tag + rest + cr;
    assert line[..|tag|] == tag;
    var head := tag + rest;
    assert head[|head| - 1] == if rest == [] then 58 else rest[|rest| - 1];
    assert rest != [] && value != [] ==> rest[|rest| - 1] == value[|value| - 1];
    StripBack(head, cr);
    assert head[|tag|..] == rest;
    SpaceBack(space, value);
  }

  lemma Unstripped(line: Bytes) returns (cr: Bytes)
    ensures line == StripCr(line) + cr
    ensures cr == [13] || (cr == [] && (line == [] || line[|line| - 1] != 13))
  {
    cr := line[|StripCr(line)|..];
  }

  lemma Unspaced(rest: Bytes) returns (space: Bytes)
    ensures rest == space + StripSpace(rest) && IsSpace(space, StripSpace(rest))
  {
    if rest != [] && rest[0] == SPACE {
      space := [32];
      assert rest == [rest[0]] + rest[1..];
    } else {
      space := [];
      assert [] + rest == rest;
    }
  }

  lemma BearsStripped(line: Bytes, tag: Bytes)
    requires IsTag(tag) && Tagged(line, tag)
    ensures BeginsWith(StripCr(line), tag) && Bears(line, tag, StripSpace(StripCr(line)[|tag|..]))
  {
    StripKeepsTag(line, tag);
    var rest := StripCr(line)[|tag|..];
    var cr := Unstripped(line);
    var space := Unspaced(rest);
    Rejoined(line, tag, rest, space, StripSpace(rest), cr);
  }

  lemma Rejoined(line: Bytes, tag: Bytes, rest: Bytes, space: Bytes, value: Bytes, cr: Bytes)
    requires line == tag + rest + cr && rest == space + value && IsSpace(space, value)
    requires cr == [13] || (cr == [] && (line == [] || line[|line| - 1] != 13))
    ensures Bears(line, tag, value)
  {
    if cr == [] && value != [] {
      assert value[|value| - 1] == line[|line| - 1];
    }
    assert IsReturn(cr, value);
  }

  /** What a field line is, in the decoder's terms. */
  lemma BearsIff(line: Bytes, tag: Bytes, value: Bytes)
    requires IsTag(tag)
    ensures Bears(line, tag, value) <==> Tagged(line, tag) && value == StripSpace(StripCr(line)[|tag|..])
  {
    if Bears(line, tag, value) {
      var space: Bytes, cr: Bytes :|
        IsSpace(space, value) && IsReturn(cr, value) && line == tag + (space + value) + cr;
      BornIs(tag, space, value, cr);
    }
    if Tagged(line, tag) {
      BearsStripped(line, tag);
    }
  }

  // ----- the lines of a frame -----

  predicate IsDataLine(line: Bytes)
  {
    Tagged(line, DATA_TAG)
  }

  predicate IsEventLine(line: Bytes)
  {
    Tagged(line, EVENT_TAG)
  }

  predicate SomeData(lines: seq<Bytes>)
  {
    exists i :: 0 <= i < |lines| && IsDataLine(lines[i])
  }

  predicate SomeEvent(lines: seq<Bytes>)
  {
    exists i :: 0 <= i < |lines| && IsEventLine(lines[i])
  }

  /** Line i may not be there: it is no known field, or its field was there before. */
  predicate Offends(lines: seq<Bytes>, i: nat)
  {
    && i < |lines|
    && (|| (!IsDataLine(lines[i]) && !IsEventLine(lines[i]))
        || (IsDataLine(lines[i]) && SomeData(lines[..i]))
        || (IsEventLine(lines[i]) && SomeEvent(lines[..i])))
  }

  predicate FirstOffence(lines: seq<Bytes>, i: nat)
  {
    Offends(lines, i) && forall k :: 0 <= k < i ==> !Offends(lines, k)
  }

  predicate Clean(lines: seq<Bytes>)
  {
    forall i :: 0 <= i < |lines| ==> !Offends(lines, i)
  }

  /** The error an offending line gives. */
  function OffenceOf(line: Bytes): FrameError
  {
    if IsDataLine(line) then TwoDataFields else if IsEventLine(line) then TwoEventFields else UnsupportedField
  }

  lemma OneTag(line: Bytes)
    ensures !(IsDataLine(line) && IsEventLine(line))
  {
    if IsDataLine(line) {
      assert line[0] == line[..5][0] == 100;
    }
    if IsEventLine(line) {
      assert line[0] == line[..6][0] == 101;
    }
  }

  /** The fields read so far are those of these lines. */
  ghost predicate Fits(lines: seq<Bytes>, f: Fields)
  {
    && (f.payload.Some? <==> SomeData(lines))
    && (f.payload.Some? ==> exists i :: 0 <= i < |lines| && Bears(lines[i], DATA_TAG, f.payload.value))
    && (f.name.Some? <==> SomeEvent(lines))
    && (f.name.Some? ==> exists i :: 0 <= i < |lines| && Bears(lines[i], EVENT_TAG, f.name.value))
  }

  lemma SomeSnoc(lines: seq<Bytes>, line: Bytes)
    ensures SomeData(lines + [line]) <==> SomeData(lines) || IsDataLine(line)
    ensures SomeEvent(lines + [line]) <==> SomeEvent(lines) || IsEventLine(line)
  {
    var all := lines + [line];
    assert all[|lines|] == line && forall i :: 0 <= i < |lines| ==> all[i] == lines[i];
  }

  lemma TakenLine(before: seq<Bytes>, f: Fields, line: Bytes)
    requires Fits(before, f)
    ensures Offends(before + [line], |before|) ==> TakeLine(f, line) == Err(OffenceOf(line))
    ensures !Offends(before + [line], |before|) ==>
      TakeLine(f, line).Ok? && Fits(before + [line], TakeLine(f, line).value)
  {
    var all := before + [line];
    assert all[..|before|] == before;
    SomeSnoc(before, line);
    OneTag(line);
    StripKeepsTag(line, DATA_TAG);
    StripKeepsTag(line, EVENT_TAG);
    if !Offends(all, |before|) {
      BearsStripped(line, if IsDataLine(line) then DATA_TAG else EVENT_TAG);
      assert all[|before|] == line && forall i :: 0 <= i < |before| ==> all[i] == before[i];
    }
  }

  lemma OffendsPrefix(a: seq<Bytes>, b: seq<Bytes>, i: nat)
    requires i < |a|
    ensures Offends(a + b, i) <==> Offends(a, i)
  {
    assert (a + b)[..i] == a[..i] && (a + b)[i] == a[i];
  }

  lemma {:induction false} TakenLines(before: seq<Bytes>, f: Fields, lines: seq<Bytes>)
    requires Fits(before, f) && Clean(before)
    ensures var all, r := before + lines, TakeLines(f, lines);
      && (r.Ok? <==> Clean(all))
      && (r.Ok? ==> Fits(all, r.value))
      && (r.Err? ==> exists i: nat :: FirstOffence(all, i) && r.error == OffenceOf(all[i]))
    decreases |lines|
  {
    var all := before + lines;
    if lines == [] {
      assert all == before;
    } else {
      var next := before + [lines[0]];
      assert all == next + lines[1..];
      TakenLine(before, f, lines[0]);
      forall i | 0 <= i < |before| ensures !Offends(next, i) && !Offends(all, i) {
        OffendsPrefix(before, [lines[0]], i);
        OffendsPrefix(before, lines, i);
      }
      OffendsPrefix(next, lines[1..], |before|);
      if Offends(next, |before|) {
        assert FirstOffence(all, |before|);
      } else {
        TakenLines(next, TakeLine(f, lines[0]).value, lines[1..]);
      }
    }
  }

  // ----- frames -----

  predicate IsLines(lines: seq<Bytes>)
  {
    lines != [] && forall i :: 0 <= i < |lines| ==> 10 !in lines[i]
  }

  /** The two ways a frame may end: two line feeds, or two carriage returns with a line feed each. */
  predicate IsEnd(end: Bytes)
  {
    end == [10, 10] || end == [13, 10, 13, 10]
  }

  lemma {:induction false} JoinSplit(lines: seq<Bytes>)
    requires IsLines(lines)
    ensures Split(Join(lines)) == lines
  {
    if |lines| == 1 {
      SplitPlain(lines[0]);
    } else {
      SplitJoin(lines[0], Join(lines[1..]));
      JoinSplit(lines[1..]);
    }
  }

  lemma BodyEnds(body: Bytes, end: Bytes)
    requires IsEnd(end)
    ensures Body(body + end) == Some(body)
  {
    BodyOfTerminated(body, if end == [10, 10] then LfLf else CrlfCrlf);
  }

  lemma EndsBody(raw: Bytes) returns (end: Bytes)
    requires Body(raw).Some?
    ensures IsEnd(end) && raw == Body(raw).value + end
  {
    end := raw[|Body(raw).value|..];
  }

  /** A frame that does not end is incomplete, and is the only kind that is. */
  lemma IncompleteIff(raw: Bytes)
    ensures Decode(raw) == Err(Incomplete) <==> forall body: Bytes, end: Bytes :: IsEnd(end) ==> raw != body + end
  {
    if Body(raw).Some? {
      var end := EndsBody(raw);
      TakenLines([], Fields(None, None), Split(Body(raw).value));
    }
    forall body: Bytes, end: Bytes | IsEnd(end) && raw == body + end ensures Body(raw).Some? {
      BodyEnds(body, end);
    }
  }

  /** What the fields of clean lines say: the value of the data line, and that of the event line or nothing. */
  ghost predicate Says(lines: seq<Bytes>, e: Event)
  {
    && (exists i :: 0 <= i < |lines| && Bears(lines[i], DATA_TAG, e.payload))
    && (if SomeEvent(lines) then exists i :: 0 <= i < |lines| && Bears(lines[i], EVENT_TAG, e.name) else e.name == [])
  }

  /**
    What a complete frame decodes to. Its first offending line says which error; without one, it is an error to have no
    data line, and otherwise the event is what the lines say.
   */
  lemma DecodeIs(lines: seq<Bytes>, end: Bytes)
    requires IsLines(lines) && IsEnd(end)
    ensures var r := Decode(Join(lines) + end);
      && (forall i: nat :: FirstOffence(lines, i) ==> r == Err(OffenceOf(lines[i])))
      && (Clean(lines) && !SomeData(lines) ==> r == Err(NoDataField))
      && (Clean(lines) && SomeData(lines) ==> r.Ok? && Says(lines, r.value))
  {
    BodyEnds(Join(lines), end);
    JoinSplit(lines);
    assert [] + lines == lines;
    TakenLines([], Fields(None, None), lines);
    var r := TakeLines(Fields(None, None), lines);
    forall i: nat | FirstOffence(lines, i) ensures r == Err(OffenceOf(lines[i])) {
      var k: nat :| FirstOffence(lines, k) && r.error == OffenceOf(lines[k]);
      assert k == i;
    }
  }

  // ----- one frame as a whole -----

  /** One data line, alone or with one event line before or after it. */
  ghost predicate Reads(lines: seq<Bytes>, e: Event)
  {
    || (|lines| == 1 && Bears(lines[0], DATA_TAG, e.payload) && e.name == [])
    || (|lines| == 2 && Bears(lines[0], DATA_TAG, e.payload) && Bears(lines[1], EVENT_TAG, e.name))
    || (|lines| == 2 && Bears(lines[0], EVENT_TAG, e.name) && Bears(lines[1], DATA_TAG, e.payload))
  }

  /** These bytes are one complete frame of this event. */
  ghost predicate IsFrame(raw: Bytes, e: Event)
  {
    exists lines: seq<Bytes>, end: Bytes ::
      IsLines(lines) && IsEnd(end) && Reads(lines, e) && raw == Join(lines) + end
  }

  lemma BearsTagged(lines: seq<Bytes>)
    ensures forall i, value :: 0 <= i < |lines| && Bears(lines[i], DATA_TAG, value) ==> IsDataLine(lines[i])
    ensures forall i, value :: 0 <= i < |lines| && Bears(lines[i], EVENT_TAG, value) ==> IsEventLine(lines[i])
    ensures forall i :: 0 <= i < |lines| ==> !(IsDataLine(lines[i]) && IsEventLine(lines[i]))
  {
    forall i, value | 0 <= i < |lines| && Bears(lines[i], DATA_TAG, value) ensures IsDataLine(lines[i]) {
      BearsIff(lines[i], DATA_TAG, value);
    }
    forall i, value | 0 <= i < |lines| && Bears(lines[i], EVENT_TAG, value) ensures IsEventLine(lines[i]) {
      BearsIff(lines[i], EVENT_TAG, value);
    }
    forall i | 0 <= i < |lines| ensures !(IsDataLine(lines[i]) && IsEventLine(lines[i])) {
      OneTag(lines[i]);
    }
  }

  /** Clean lines are one or two, with different fields. */
  lemma CleanIff(lines: seq<Bytes>)
    ensures Clean(lines) && SomeData(lines)
       <==> || (|lines| == 1 && IsDataLine(lines[0]))
            || (|lines| == 2 && IsDataLine(lines[0]) && IsEventLine(lines[1]))
            || (|lines| == 2 && IsEventLine(lines[0]) && IsDataLine(lines[1]))
  {
    BearsTagged(lines);
    if |lines| > 0 {
      assert lines[..0] == [];
      assert Offends(lines, 0) <==> !IsDataLine(lines[0]) && !IsEventLine(lines[0]);
    }
    if |lines| > 1 {
      SomeSnoc([], lines[0]);
      assert lines[..1] == [] + [lines[0]];
      assert Offends(lines, 1) <==>
        || (!IsDataLine(lines[1]) && !IsEventLine(lines[1]))
        || (IsDataLine(lines[1]) && IsDataLine(lines[0])) || (IsEventLine(lines[1]) && IsEventLine(lines[0]));
      assert IsDataLine(lines[0]) || IsDataLine(lines[1]) ==> SomeData(lines);
    }
    if |lines| > 2 {
      SomeSnoc([lines[0]], lines[1]);
      assert lines[..2] == [lines[0]] + [lines[1]];
      assert Offends(lines, 0) || Offends(lines, 1) || Offends(lines, 2);
    }
  }

  /** The lines are clean and say this event exactly when they are such a pair or a single line. */
  lemma ReadsIff(lines: seq<Bytes>, e: Event)
    ensures Reads(lines, e) <==> Clean(lines) && SomeData(lines) && Says(lines, e)
  {
    BearsTagged(lines);
    CleanIff(lines);
  }

  lemma ReadsOnce(lines: seq<Bytes>, d: Event, e: Event)
    requires Reads(lines, d) && Reads(lines, e)
    ensures d == e
  {
    BearsTagged(lines);
    forall i | 0 <= i < |lines|
      ensures Bears(lines[i], DATA_TAG, d.payload) && Bears(lines[i], DATA_TAG, e.payload) ==> d.payload == e.payload
      ensures Bears(lines[i], EVENT_TAG, d.name) && Bears(lines[i], EVENT_TAG, e.name) ==> d.name == e.name
    {
      BearsIff(lines[i], DATA_TAG, d.payload);
      BearsIff(lines[i], DATA_TAG, e.payload);
      BearsIff(lines[i], EVENT_TAG, d.name);
      BearsIff(lines[i], EVENT_TAG, e.name);
    }
  }

  /** The decoder accepts exactly the frames, and reads off what they say. */
  lemma FrameIff(raw: Bytes, e: Event)
    ensures Decode(raw) == Ok(e) <==> IsFrame(raw, e)
  {
    if Decode(raw) == Ok(e) {
      var body := Body(raw).value;
      var end := EndsBody(raw);
      SplitIs(body);
      assert [] + Split(body) == Split(body);
      TakenLines([], Fields(None, None), Split(body));
      ReadsIff(Split(body), e);
    }
    if IsFrame(raw, e) {
      var lines: seq<Bytes>, end: Bytes :|
        IsLines(lines) && IsEnd(end) && Reads(lines, e) && raw == Join(lines) + end;
      ReadsIff(lines, e);
      DecodeIs(lines, end);
      ReadsIff(lines, Decode(raw).value);
      ReadsOnce(lines, Decode(raw).value, e);
    }
  }

  // ----- streams of frames -----

  /** Every line feed is followed by the first letter of a field name. */
  ghost predicate FeedsLead(body: Bytes)
  {
    forall k :: 0 <= k < |body| && body[k] == 10 ==> k + 1 < |body| && (body[k + 1] == 100 || body[k + 1] == 101)
  }

  predicate Leads(line: Bytes)
  {
    line != [] && (line[0] == 100 || line[0] == 101)
  }

  lemma NoFeed(line: Bytes)
    requires 10 !in line
    ensures FeedsLead(line) && forall k :: 0 <= k < |line| ==> line[k] != 10
  {
    forall k | 0 <= k < |line| ensures line[k] != 10 { assert line[k] in line; }
  }

  lemma FeedsAppend(line: Bytes, rest: Bytes)
    requires 10 !in line && FeedsLead(rest) && Leads(rest)
    ensures FeedsLead(line + [10] + rest)
  {
    var body := line + [10] + rest;
    NoFeed(line);
    forall k | |line| <= k < |body| && body[k] == 10
      ensures k + 1 < |body| && (body[k + 1] == 100 || body[k + 1] == 101)
    {
      if k > |line| {
        assert body[k] == rest[k - |line| - 1];
      }
    }
  }

  lemma ReadsLead(lines: seq<Bytes>, e: Event)
    requires Reads(lines, e)
    ensures forall i :: 0 <= i < |lines| ==> Leads(lines[i])
  {
    BearsTagged(lines);
    forall i | 0 <= i < |lines| ensures Leads(lines[i]) {
      var line := lines[i];
      assert line[0] == line[..5][0];
      if IsEventLine(line) {
        assert line[0] == line[..6][0];
      }
    }
  }

  lemma FrameFeeds(lines: seq<Bytes>, e: Event)
    requires IsLines(lines) && Reads(lines, e)
    ensures Join(lines) != [] && FeedsLead(Join(lines))
  {
    ReadsLead(lines, e);
    NoFeed(lines[0]);
    if |lines| == 2 {
      NoFeed(lines[1]);
      assert lines[1..] == [lines[1]];
      FeedsAppend(lines[0], lines[1]);
    }
  }

  /** No terminator begins before the end of such lines, even with a carriage return at their end. */
  lemma NoneInside(body: Bytes, end: Bytes, data: Bytes, start: nat, i: nat)
    requires FeedsLead(body) && IsEnd(end) && start <= i < start + |body|
    requires start + |body| + |end| <= |data| && data[start..start + |body| + |end|] == body + end
    ensures !Boundary(data, i)
  {
    var k, all := i - start, body + end;
    InSlice(data, start, all, k);
    InSlice(data, start, all, k + 1);
    assert all[k] == body[k];
    if k + 1 < |body| {
      assert all[k + 1] == body[k + 1];
      if k + 2 < |all| {
        InSlice(data, start, all, k + 2);
        assert body[k + 1] == 10 ==> k + 2 < |body| && all[k + 2] == body[k + 2];
      }
    } else {
      InSlice(data, start, all, k + 2);
      assert all[k + 1] == end[0] && all[k + 2] == end[1];
    }
  }

  lemma BoundaryAfter(body: Bytes, end: Bytes, t: Terminator, data: Bytes, start: nat)
    requires FeedsLead(body) && IsEnd(end) && t.Bytes() == end && start + |body| + |end| <= |data|
    requires data[start..start + |body| + |end|] == body + end && Starts(data, t, start + |body|)
    ensures FirstBoundary(data, start, start + |body|, t)
  {
    forall i | start <= i < start + |body| ensures !Boundary(data, i) {
      NoneInside(body, end, data, start, i);
    }
  }

  lemma LinesStand(body: Bytes, end: Bytes, before: Bytes, after: Bytes)
    requires FeedsLead(body) && IsEnd(end)
    ensures NextEvent(before + (body + end) + after, |before|) == Some(Frame(body + end, |before| + |body + end|))
  {
    var t := if end == [10, 10] then LfLf else CrlfCrlf;
    assert t.Bytes() == end && t.Width() == |end|;
    TerminatedFrame(body, t, before, after);
    var data := before + (body + end) + after;
    BoundaryAfter(body, end, t, data, |before|);
    FirstBoundaryIsNextEvent(data, |before|, |before| + |body|, t);
  }

  lemma FrameBody(raw: Bytes, e: Event) returns (body: Bytes, end: Bytes)
    requires IsFrame(raw, e)
    ensures raw == body + end && raw != [] && FeedsLead(body) && IsEnd(end)
  {
    var lines: seq<Bytes>, ending: Bytes :|
      IsLines(lines) && IsEnd(ending) && Reads(lines, e) && raw == Join(lines) + ending;
    FrameFeeds(lines, e);
    body, end := Join(lines), ending;
  }

  /** Wherever a frame stands, it is the next one found there, and nothing after it matters. */
  lemma FrameStands(raw: Bytes, e: Event, before: Bytes, after: Bytes)
    requires IsFrame(raw, e)
    ensures raw != [] && NextEvent(before + raw + after, |before|) == Some(Frame(raw, |before| + |raw|))
  {
    var body, end := FrameBody(raw, e);
    LinesStand(body, end, before, after);
  }

  // ----- printed frames -----

  /** The lines of a printed event. */
  function PrintedLines(e: Event, t: Terminator): seq<Bytes>
  {
    var data := DATA_TAG + ([32] + e.payload) + [];
    if e.name == [] then [data] else [EVENT_TAG + ([32] + e.name) + (if t.LfLf? then [] else [13]), data]
  }

  lemma PrintedJoin(e: Event, t: Terminator)
    ensures Join(PrintedLines(e, t)) + t.Bytes() == Print(e, t)
  {
    var data := DATA_TAG + ([32] + e.payload) + [];
    assert data == DATA + [SPACE] + e.payload;
    if e.name != [] {
      var line := PrintedLines(e, t)[0];
      assert PrintedLines(e, t)[1..] == [data];
      assert line + [10] == EVENT + [SPACE] + e.name + Newline(t);
    }
  }

  lemma PrintedRead(e: Event, t: Terminator)
    requires Printable(e)
    ensures IsLines(PrintedLines(e, t)) && Reads(PrintedLines(e, t), e)
  {
    var data := DATA_TAG + ([32] + e.payload) + [];
    assert IsSpace([32], e.payload) && IsReturn([], e.payload);
    assert Bears(data, DATA_TAG, e.payload);
    if e.name != [] {
      var cr: Bytes := if t.LfLf? then [] else [13];
      assert IsSpace([32], e.name) && IsReturn(cr, e.name);
      assert Bears(EVENT_TAG + ([32] + e.name) + cr, EVENT_TAG, e.name);
    }
  }

  /** A printed event is a frame of it, whichever terminator is used. */
  lemma PrintedIsFrame(e: Event, t: Terminator)
    requires Printable(e)
    ensures IsFrame(Print(e, t), e)
  {
    PrintedRead(e, t);
    PrintedJoin(e, t);
    assert IsEnd(t.Bytes());
  }

  /** Decoding a printed event gives it back. */
  lemma DecodePrinted(e: Event, t: Terminator)
    requires Printable(e)
    ensures Decode(Print(e, t)) == Ok(e)
  {
    PrintedIsFrame(e, t);
    FrameIff(Print(e, t), e);
  }

  /** The first boundary of a printed frame, whatever is around it, is its own terminator. */
  lemma PrintedFrame(e: Event, t: Terminator, before: Bytes, after: Bytes)
    requires Printable(e)
    ensures NextEvent(before + Print(e, t) + after, |before|) == Some(Frame(Print(e, t), |before| + |Print(e, t)|))
  {
    var raw := Print(e, t);
    PrintedIsFrame(e, t);
    FrameStands(raw, e, before, after);
  }

  // ----- parsing streams -----

  /** Every event of a stream tiled by complete, decodable frames. */
  function Events(stream: Bytes, offset: nat): Option<seq<Event>>
    decreases |stream| - offset
  {
    if offset >= |stream| then Some([])
    else
      match NextEvent(stream, offset)
      case None => None
      case Some(f) =>
        match (Decode(f.raw), Events(stream, f.end))
        case (Ok(e), Some(rest)) => Some([e] + rest)
        case _ => None
  }

  /** The bytes are frames of these events, one after another, and nothing else. */
  ghost predicate IsStream(data: Bytes, es: seq<Event>)
    decreases |es|
  {
    if es == [] then data == []
    else exists raw: Bytes, rest: Bytes :: data == raw + rest && IsFrame(raw, es[0]) && IsStream(rest, es[1..])
  }

  lemma Advance(stream: Bytes, offset: nat, end: nat, raw: Bytes, rest: Bytes) returns (mid: nat)
    requires offset <= end <= |stream| && stream[offset..end] == raw + rest
    ensures mid == offset + |raw| <= end && stream[offset..mid] == raw && stream[mid..end] == rest
    ensures stream == stream[..offset] + raw + stream[mid..]
  {
    mid := offset + |raw|;
    assert stream[offset..mid] == stream[offset..end][..|raw|];
    assert stream[mid..end] == stream[offset..end][|raw|..];
    assert stream == stream[..offset] + stream[offset..mid] + stream[mid..];
  }

  /** The first frame of a stretch of a stream is the next one found there. */
  lemma StreamStep(stream: Bytes, offset: nat, end: nat, es: seq<Event>) returns (mid: nat)
    requires offset <= end <= |stream| && es != [] && IsStream(stream[offset..end], es)
    ensures offset < mid <= end && IsStream(stream[mid..end], es[1..])
    ensures NextEvent(stream, offset) == Some(Frame(stream[offset..mid], mid)) && Decode(stream[offset..mid]) == Ok(es[0])
  {
    var raw: Bytes, rest: Bytes :|
      stream[offset..end] == raw + rest && IsFrame(raw, es[0]) && IsStream(rest, es[1..]);
    mid := Advance(stream, offset, end, raw, rest);
    FrameStands(raw, es[0], stream[..offset], stream[mid..]);
    FrameIff(raw, es[0]);
  }

  lemma StreamCons(data: Bytes, raw: Bytes, rest: Bytes, es: seq<Event>)
    requires data == raw + rest && es != [] && IsFrame(raw, es[0]) && IsStream(rest, es[1..])
    ensures IsStream(data, es)
  {
  }

  /** Parsing from one offset gives these events and arrives at another. */
  predicate PathTo(stream: Bytes, offset: nat, es: seq<Event>, end: nat)
    decreases |es|
  {
    if es == [] then offset == end <= |stream|
    else
      match NextEvent(stream, offset)
      case None => false
      case Some(f) => Decode(f.raw) == Ok(es[0]) && PathTo(stream, f.end, es[1..], end)
  }

  lemma {:induction false} PathIsStream(stream: Bytes, offset: nat, es: seq<Event>, end: nat)
    requires PathTo(stream, offset, es, end)
    ensures offset <= end <= |stream| && IsStream(stream[offset..end], es)
    decreases |es|
  {
    if es != [] {
      var f := NextEvent(stream, offset).value;
      PathIsStream(stream, f.end, es[1..], end);
      FrameIff(f.raw, es[0]);
      Resumes(stream, offset, f.end, end);
      StreamCons(stream[offset..end], f.raw, stream[f.end..end], es);
    }
  }

  lemma Resumes(stream: Bytes, offset: nat, mid: nat, end: nat)
    requires offset <= mid <= end <= |stream|
    ensures stream[offset..end] == stream[offset..mid] + stream[mid..end]
  {
  }

  lemma {:induction false} StreamIsPath(stream: Bytes, offset: nat, es: seq<Event>, end: nat)
    requires offset <= end <= |stream| && IsStream(stream[offset..end], es)
    ensures PathTo(stream, offset, es, end)
    decreases |es|
  {
    if es == [] {
      assert |stream[offset..end]| == end - offset;
    } else {
      var mid := StreamStep(stream, offset, end, es);
      StreamIsPath(stream, mid, es[1..], end);
    }
  }

  lemma {:induction false} EventsArePath(stream: Bytes, offset: nat, es: seq<Event>)
    requires offset <= |stream|
    ensures Events(stream, offset) == Some(es) <==> PathTo(stream, offset, es, |stream|)
    decreases |stream| - offset
  {
    if offset < |stream| && NextEvent(stream, offset).Some? {
      var end := NextEvent(stream, offset).value.end;
      if es != [] {
        EventsArePath(stream, end, es[1..]);
        assert [es[0]] + es[1..] == es;
      }
      assert forall e: Event, rest: seq<Event> :: ([e] + rest)[1..] == rest;
    }
  }

  /** The parser finds exactly the streams of the grammar, and their events. */
  lemma EventsIff(stream: Bytes, es: seq<Event>)
    ensures Events(stream, 0) == Some(es) <==> IsStream(stream, es)
  {
    EventsArePath(stream, 0, es);
    assert stream[0..|stream|] == stream;
    if PathTo(stream, 0, es, |stream|) {
      PathIsStream(stream, 0, es, |stream|);
    }
    if IsStream(stream, es) {
      StreamIsPath(stream, 0, es, |stream|);
    }
  }
}
