/** The two SSE codecs over decoded lines: the line codec of completions and the frame codec of events. */
module Codecs {
  import opened Values

  datatype Parsed<J> = MalformedJson | NotAnObject(value: J) | Object(value: J, reportsError: bool)

  /** JSON text and object construction, left uninterpreted. */
  datatype Reader<!J> = Reader(
    parse: string -> Parsed<J>,
    named: (string, J) -> J,
    wrapped: (Option<string>, J) -> J)

  datatype CodecError = Malformed | MustBeObject | StreamError | DataAfterDone | EndedEarly

  /** What a generator hands out before it stops, and the error it stops with, if any. */
  datatype Output<J> = Output(yielded: seq<J>, error: Option<CodecError>)

  function Then<J>(head: seq<J>, o: Output<J>): Output<J>
  {
    o.(yielded := head + o.yielded)
  }

  const DONE := "[DONE]"

  predicate IsSpace(c: char)
  {
    c == ' ' || '\t' <= c <= '\r' || '\U{1c}' <= c <= '\U{1f}' || c == '\U{85}' || c == '\U{a0}' || c == '\U{1680}'
    || '\U{2000}' <= c <= '\U{200a}' || c in "\U{2028}\U{2029}\U{202f}\U{205f}\U{3000}"
  }

  function LeftStrip(s: string): (r: string)
    ensures r == "" || !IsSpace(r[0])
    ensures s != "" && !IsSpace(s[|s| - 1]) ==> r != "" && r[|r| - 1] == s[|s| - 1]
    ensures s == "" || !IsSpace(s[0]) ==> r == s
  {
    if s != "" && IsSpace(s[0]) then LeftStrip(s[1..]) else s
  }

  function RightStrip(s: string): (r: string)
    ensures r == "" || !IsSpace(r[|r| - 1])
    ensures s == "" || !IsSpace(s[|s| - 1]) ==> r == s
  {
    if s != "" && IsSpace(s[|s| - 1]) then RightStrip(s[..|s| - 1]) else s
  }

  /** str.strip() */
  function Strip(s: string): string
  {
    LeftStrip(RightStrip(s))
  }

  lemma StripTwice(s: string)
    ensures Strip(Strip(s)) == Strip(s)
  {
  }

  predicate HasPrefix(s: string, prefix: string)
  {
    |s| >= |prefix| && s[..|prefix|] == prefix
  }

  /** _sse_data */
  function SseData(line: string): Option<string>
  {
    if HasPrefix(line, "data:") then Some(Strip(line[5..])) else None
  }

  // ----- the line codec -----

  /** _parse_sse_line */
  function ParseLine<J>(line: string, r: Reader<J>): Result<Option<J>, CodecError>
  {
    var data := SseData(line);
    if data.None? || data.value == "" || data.value == DONE then Ok(None)
    else
      match r.parse(data.value)
      case MalformedJson => Err(Malformed)
      case NotAnObject(_) => Err(MustBeObject)
      case Object(o, reportsError) => if reportsError then Err(StreamError) else Ok(Some(o))
  }

  function ChunksFrom<J>(lines: seq<string>, sawDone: bool, r: Reader<J>): Output<J>
    decreases |lines|
  {
    if lines == [] then Output([], if sawDone then None else Some(EndedEarly))
    else
      var data := SseData(lines[0]);
      if data == Some(DONE) then ChunksFrom(lines[1..], true, r)
      else if sawDone && data.Some? && data.value != "" then Output([], Some(DataAfterDone))
      else
        match ParseLine(lines[0], r)
        case Err(e) => Output([], Some(e))
        case Ok(None) => ChunksFrom(lines[1..], sawDone, r)
        case Ok(Some(chunk)) => Then([chunk], ChunksFrom(lines[1..], sawDone, r))
  }

  function Chunks<J>(lines: seq<string>, r: Reader<J>): Output<J>
  {
    ChunksFrom(lines, false, r)
  }

  lemma ThenNothing<J>(o: Output<J>)
    ensures Then([], o) == o
  {
  }

  lemma ThenMore<J>(head: seq<J>, x: J, o: Output<J>)
    ensures Then(head, Then([x], o)) == Then(head + [x], o)
  {
    AppendMoves(head, x, o.yielded);
  }

  /** _iter_sse_chunks as its loop. */
  method IterChunks<J>(lines: seq<string>, r: Reader<J>) returns (o: Output<J>)
    ensures o == Chunks(lines, r)
  {
    var yielded: seq<J> := [];
    var sawDone := false;
    ThenNothing(Chunks(lines, r));
    var i := 0;
    while i < |lines|
      invariant 0 <= i <= |lines|
      invariant Chunks(lines, r) == Then(yielded, ChunksFrom(lines[i..], sawDone, r))
    {
      assert lines[i..][1..] == lines[i + 1..];
      var data := SseData(lines[i]);
      if data == Some(DONE) {
        sawDone := true;
      } else if sawDone && data.Some? && data.value != "" {
        assert yielded + [] == yielded;
        return Output(yielded, Some(DataAfterDone));
      } else {
        var chunk := ParseLine(lines[i], r);
        if chunk.Err? {
          assert yielded + [] == yielded;
          return Output(yielded, Some(chunk.error));
        }
        if chunk.value.Some? {
          ThenMore(yielded, chunk.value.value, ChunksFrom(lines[i + 1..], sawDone, r));
          yielded := yielded + [chunk.value.value];
        }
      }
      i := i + 1;
    }
    assert yielded + [] == yielded;
    return Output(yielded, if sawDone then None else Some(EndedEarly));
  }

  predicate IsDone(line: string)
  {
    SseData(line) == Some(DONE)
  }

  /** [DONE], no data, or empty data: all that may follow [DONE]. */
  predicate Idle(line: string)
  {
    IsDone(line) || SseData(line).None? || SseData(line).value == ""
  }

  /** The first [DONE] is line k, everything before it is a clean chunk or no data, everything after it is idle. */
  ghost predicate CompleteAt<J>(lines: seq<string>, k: nat, r: Reader<J>)
  {
    && k < |lines| && IsDone(lines[k])
    && (forall i :: 0 <= i < k ==> !IsDone(lines[i]) && ParseLine(lines[i], r).Ok?)
    && (forall i :: k < i < |lines| ==> Idle(lines[i]))
  }

  /** The chunks of the lines, in order. */
  function ChunksOf<J>(lines: seq<string>, r: Reader<J>): seq<J>
  {
    if lines == [] then []
    else
      (match ParseLine(lines[0], r) case Ok(Some(chunk)) => [chunk] case _ => []) + ChunksOf(lines[1..], r)
  }

  lemma {:induction false} AfterDone<J>(lines: seq<string>, r: Reader<J>)
    ensures ChunksFrom(lines, true, r).error.None? <==> forall i :: 0 <= i < |lines| ==> Idle(lines[i])
    ensures ChunksFrom(lines, true, r).error.None? ==> ChunksFrom(lines, true, r).yielded == []
    decreases |lines|
  {
    if lines != [] {
      AfterDone(lines[1..], r);
      if forall i :: 0 <= i < |lines| ==> Idle(lines[i]) {
        forall i | 0 <= i < |lines[1..]| ensures Idle(lines[1..][i]) { assert Idle(lines[i + 1]); }
      }
      if Idle(lines[0]) && forall i :: 0 <= i < |lines[1..]| ==> Idle(lines[1..][i]) {
        forall i | 0 <= i < |lines| ensures Idle(lines[i]) { if i > 0 { assert Idle(lines[1..][i - 1]); } }
      }
    }
  }

  /** The line codec ends normally exactly on complete streams, and then yields exactly the chunks before [DONE]. */
  lemma {:induction false} EndsNormallyIff<J>(lines: seq<string>, r: Reader<J>)
    ensures Chunks(lines, r).error.None? <==> exists k: nat :: CompleteAt(lines, k, r)
    ensures forall k: nat :: CompleteAt(lines, k, r) ==> Chunks(lines, r) == Output(ChunksOf(lines[..k], r), None)
    decreases |lines|
  {
    if lines != [] {
      if IsDone(lines[0]) {
        AfterDone(lines[1..], r);
        DoneFirst(lines, r);
      } else {
        EndsNormallyIff(lines[1..], r);
        NotDoneFirst(lines, r);
      }
    }
  }

  lemma DoneFirst<J>(lines: seq<string>, r: Reader<J>)
    requires lines != [] && IsDone(lines[0])
    ensures CompleteAt(lines, 0, r) <==> forall i :: 0 <= i < |lines[1..]| ==> Idle(lines[1..][i])
    ensures forall k: nat :: CompleteAt(lines, k, r) ==> k == 0
  {
    if forall i :: 0 <= i < |lines[1..]| ==> Idle(lines[1..][i]) {
      forall i | 0 < i < |lines| ensures Idle(lines[i]) { assert Idle(lines[1..][i - 1]); }
    }
    if CompleteAt(lines, 0, r) {
      forall i | 0 <= i < |lines[1..]| ensures Idle(lines[1..][i]) { assert Idle(lines[i + 1]); }
    }
  }

  lemma NotDoneFirst<J>(lines: seq<string>, r: Reader<J>)
    requires lines != [] && !IsDone(lines[0])
    requires var rest := lines[1..];
      && (Chunks(rest, r).error.None? <==> exists k: nat :: CompleteAt(rest, k, r))
      && (forall k: nat :: CompleteAt(rest, k, r) ==> Chunks(rest, r) == Output(ChunksOf(rest[..k], r), None))
    ensures Chunks(lines, r).error.None? <==> exists k: nat :: CompleteAt(lines, k, r)
    ensures forall k: nat :: CompleteAt(lines, k, r) ==> Chunks(lines, r) == Output(ChunksOf(lines[..k], r), None)
  {
    var rest := lines[1..];
    forall k: nat | CompleteAt(lines, k, r)
      ensures Chunks(lines, r) == Output(ChunksOf(lines[..k], r), None)
    {
      ShiftComplete(lines, k, r);
      assert lines[..k][1..] == rest[..k - 1];
    }
    if Chunks(lines, r).error.None? {
      var k: nat :| CompleteAt(rest, k, r);
      ShiftComplete(lines, k + 1, r);
    }
  }

  lemma ShiftComplete<J>(lines: seq<string>, k: nat, r: Reader<J>)
    requires lines != [] && !IsDone(lines[0])
    ensures CompleteAt(lines, k, r) <==> k > 0 && ParseLine(lines[0], r).Ok? && CompleteAt(lines[1..], k - 1, r)
  {
    var rest := lines[1..];
    if CompleteAt(lines, k, r) {
      forall i | 0 <= i < k - 1 ensures !IsDone(rest[i]) && ParseLine(rest[i], r).Ok? { assert rest[i] == lines[i + 1]; }
      forall i | k - 1 < i < |rest| ensures Idle(rest[i]) { assert rest[i] == lines[i + 1]; }
    }
    if k > 0 && ParseLine(lines[0], r).Ok? && CompleteAt(rest, k - 1, r) {
      forall i | 0 <= i < k ensures !IsDone(lines[i]) && ParseLine(lines[i], r).Ok? {
        if i > 0 { assert lines[i] == rest[i - 1]; }
      }
      forall i | k < i < |lines| ensures Idle(lines[i]) { assert lines[i] == rest[i - 1]; }
    }
  }

  /** A stream cut before its [DONE] raises: it is never taken for a completion. */
  lemma CutLinesRaise<J>(lines: seq<string>, r: Reader<J>)
    requires forall i :: 0 <= i < |lines| ==> !IsDone(lines[i])
    ensures Chunks(lines, r).error.Some?
  {
    EndsNormallyIff(lines, r);
  }

  // ----- the frame codec -----

  /** The event name, if any line sets one (the last wins), and the data lines. */
  function EventName(frame: seq<string>): Option<string>
  {
    if frame == [] then None
    else
      var later := EventName(frame[1..]);
      if later.Some? then later
      else if HasPrefix(frame[0], "event:") then Some(Strip(frame[0][6..]))
      else None
  }

  function Payloads(frame: seq<string>): seq<string>
  {
    if frame == [] then []
    else (if !HasPrefix(frame[0], "event:") && SseData(frame[0]).Some? then [SseData(frame[0]).value] else [])
         + Payloads(frame[1..])
  }

  function JoinLines(parts: seq<string>): string
  {
    if parts == [] then "" else if |parts| == 1 then parts[0] else parts[0] + "\n" + JoinLines(parts[1..])
  }

  /** _event_from_sse_frame */
  function EventFromFrame<J>(frame: seq<string>, r: Reader<J>): Result<Option<J>, CodecError>
  {
    var data := Strip(JoinLines(Payloads(frame)));
    var name := EventName(frame);
    if data == "" || data == DONE then Ok(None)
    else
      match r.parse(data)
      case MalformedJson => Err(Malformed)
      case NotAnObject(v) => Ok(Some(r.wrapped(name, v)))
      case Object(o, _) => Ok(Some(if name.Some? && name.value != "" then r.named(name.value, o) else o))
  }

  predicate AnyDone(frame: seq<string>)
  {
    exists i :: 0 <= i < |frame| && IsDone(frame[i])
  }

  predicate AnyData(frame: seq<string>)
  {
    exists i :: 0 <= i < |frame| && SseData(frame[i]).Some? && SseData(frame[i]).value != ""
  }

  /** What one finished frame does: the [DONE] flag after it, an event, or an error. */
  datatype FrameStep<J> = Done | Event(event: Option<J>) | Failed(error: CodecError)

  function TakeFrame<J>(frame: seq<string>, sawDone: bool, r: Reader<J>): FrameStep<J>
  {
    if AnyDone(frame) then Done
    else if sawDone && AnyData(frame) then Failed(DataAfterDone)
    else
      match EventFromFrame(frame, r)
      case Err(e) => Failed(e)
      case Ok(event) => Event(event)
  }

  function EventsFrom<J>(lines: seq<string>, frame: seq<string>, sawDone: bool, r: Reader<J>): Output<J>
    decreases |lines|
  {
    if lines != [] && lines[0] != "" then EventsFrom(lines[1..], frame + [lines[0]], sawDone, r)
    else
      match TakeFrame(frame, sawDone, r)
      case Failed(e) => Output([], Some(e))
      case Done =>
        if lines == [] then Output([], None) else EventsFrom(lines[1..], [], true, r)
      case Event(event) =>
        Then(if event.Some? then [event.value] else [],
             if lines == [] then Output([], if sawDone then None else Some(EndedEarly))
             else EventsFrom(lines[1..], [], sawDone, r))
  }

  function Events<J>(lines: seq<string>, r: Reader<J>): Output<J>
  {
    EventsFrom(lines, [], false, r)
  }

  /** What the unterminated frame at the end of the lines does. */
  lemma LastFrame<J>(frame: seq<string>, sawDone: bool, r: Reader<J>)
    ensures EventsFrom([], frame, sawDone, r)
         == match TakeFrame(frame, sawDone, r)
            case Failed(e) => Output([], Some(e))
            case Done => Output([], None)
            case Event(event) => Output(if event.Some? then [event.value] else [], if sawDone then None else Some(EndedEarly))
    ensures frame == [] ==> TakeFrame(frame, sawDone, r) == Event(None)
  {
    assert Strip("") == "";
  }

  /** _iter_sse_events as its loop. */
  method IterEvents<J>(lines: seq<string>, r: Reader<J>) returns (o: Output<J>)
    ensures o == Events(lines, r)
  {
    var yielded: seq<J> := [];
    var frame: seq<string> := [];
    var sawDone := false;
    ThenNothing(Events(lines, r));
    var i := 0;
    while i < |lines|
      invariant 0 <= i <= |lines|
      invariant Events(lines, r) == Then(yielded, EventsFrom(lines[i..], frame, sawDone, r))
    {
      assert lines[i..][1..] == lines[i + 1..];
      if lines[i] != "" {
        frame := frame + [lines[i]];
      } else {
        var step := TakeFrame(frame, sawDone, r);
        if step.Failed? {
          assert yielded + [] == yielded;
          return Output(yielded, Some(step.error));
        }
        frame := [];
        if step.Done? {
          sawDone := true;
        } else if step.event.Some? {
          ThenMore(yielded, step.event.value, EventsFrom(lines[i + 1..], [], sawDone, r));
          yielded := yielded + [step.event.value];
        } else {
          ThenNothing(EventsFrom(lines[i + 1..], [], sawDone, r));
        }
      }
      i := i + 1;
    }
    LastFrame(frame, sawDone, r);
    if frame != [] {
      var step := TakeFrame(frame, sawDone, r);
      if step.Failed? {
        assert yielded + [] == yielded;
        return Output(yielded, Some(step.error));
      }
      if step.Done? {
        sawDone := true;
      } else if step.event.Some? {
        yielded := yielded + [step.event.value];
      }
    }
    assert yielded + [] == yielded;
    return Output(yielded, if sawDone then None else Some(EndedEarly));
  }

  /** The frame codec, too, raises on a stream cut before its [DONE]. */
  lemma {:induction false} CutFramesRaise<J>(lines: seq<string>, frame: seq<string>, r: Reader<J>)
    requires forall i :: 0 <= i < |lines| ==> !IsDone(lines[i])
    requires !AnyDone(frame)
    ensures EventsFrom(lines, frame, false, r).error.Some?
    decreases |lines|
  {
    if lines != [] {
      assert forall i :: 0 <= i < |lines[1..]| ==> lines[1..][i] == lines[i + 1];
      CutFramesRaise(lines[1..], if lines[0] != "" then frame + [lines[0]] else [], r);
    }
  }

  /** The frames the lines make up, the first one continuing `frame`. */
  function Frames(lines: seq<string>, frame: seq<string>): seq<seq<string>>
    decreases |lines|
  {
    if lines == [] then [frame]
    else if lines[0] == "" then [frame] + Frames(lines[1..], [])
    else Frames(lines[1..], frame + [lines[0]])
  }

  /** One frame after another. */
  function FoldFrames<J>(frames: seq<seq<string>>, sawDone: bool, r: Reader<J>): Output<J>
    decreases |frames|
  {
    if frames == [] then Output([], if sawDone then None else Some(EndedEarly))
    else
      match TakeFrame(frames[0], sawDone, r)
      case Failed(e) => Output([], Some(e))
      case Done => FoldFrames(frames[1..], true, r)
      case Event(event) => Then(if event.Some? then [event.value] else [], FoldFrames(frames[1..], sawDone, r))
  }

  lemma {:induction false} EventsAreFrames<J>(lines: seq<string>, frame: seq<string>, sawDone: bool, r: Reader<J>)
    ensures EventsFrom(lines, frame, sawDone, r) == FoldFrames(Frames(lines, frame), sawDone, r)
    decreases |lines|
  {
    if lines == [] {
      FoldFirst(frame, [], sawDone, r);
      LastFrame(frame, sawDone, r);
      ThenLast(TakeFrame(frame, sawDone, r), sawDone);
    } else if lines[0] == "" {
      FoldFirst(frame, Frames(lines[1..], []), sawDone, r);
      EventsAreFrames(lines[1..], [], true, r);
      EventsAreFrames(lines[1..], [], sawDone, r);
    } else {
      EventsAreFrames(lines[1..], frame + [lines[0]], sawDone, r);
    }
  }

  lemma FoldFirst<J>(frame: seq<string>, rest: seq<seq<string>>, sawDone: bool, r: Reader<J>)
    ensures FoldFrames([frame] + rest, sawDone, r)
         == match TakeFrame(frame, sawDone, r)
            case Failed(e) => Output([], Some(e))
            case Done => FoldFrames(rest, true, r)
            case Event(event) => Then(if event.Some? then [event.value] else [], FoldFrames(rest, sawDone, r))
  {
    assert ([frame] + rest)[1..] == rest;
  }

  lemma ThenLast<J>(step: FrameStep<J>, sawDone: bool)
    ensures step.Event? ==>
      Then(if step.event.Some? then [step.event.value] else [], Output([], if sawDone then None else Some(EndedEarly)))
      == Output(if step.event.Some? then [step.event.value] else [], if sawDone then None else Some(EndedEarly))
  {
    if step.Event? && step.event.Some? {
      assert [step.event.value] + [] == [step.event.value];
    }
  }

  /** The first frame with a [DONE] line, or |frames|. */
  function FirstDone(frames: seq<seq<string>>): (n: nat)
    ensures n <= |frames|
    ensures n < |frames| ==> AnyDone(frames[n])
    ensures forall i :: 0 <= i < n ==> !AnyDone(frames[i])
    decreases |frames|
  {
    if frames == [] || AnyDone(frames[0]) then 0 else 1 + FirstDone(frames[1..])
  }

  /** A frame has [DONE], every frame before it reads without error, and every frame after it has [DONE] or no data. */
  ghost predicate CompleteFrames<J>(frames: seq<seq<string>>, r: Reader<J>)
  {
    var n := FirstDone(frames);
    && n < |frames|
    && (forall i :: 0 <= i < n ==> EventFromFrame(frames[i], r).Ok?)
    && (forall i :: n < i < |frames| ==> SilentFrame(frames[i]))
  }

  predicate SilentFrame(frame: seq<string>)
  {
    AnyDone(frame) || !AnyData(frame)
  }

  /** The events of the frames, in order. */
  function EventsOf<J>(frames: seq<seq<string>>, r: Reader<J>): seq<J>
    decreases |frames|
  {
    if frames == [] then []
    else
      (match EventFromFrame(frames[0], r) case Ok(Some(event)) => [event] case _ => []) + EventsOf(frames[1..], r)
  }

  lemma {:induction false} EmptyPayloads(frame: seq<string>)
    requires !AnyData(frame)
    ensures forall i :: 0 <= i < |Payloads(frame)| ==> Payloads(frame)[i] == ""
    decreases |frame|
  {
    if frame != [] {
      assert forall i :: 0 <= i < |frame[1..]| ==> frame[1..][i] == frame[i + 1];
      EmptyPayloads(frame[1..]);
    }
  }

  lemma {:induction false} EmptyJoin(parts: seq<string>)
    requires forall i :: 0 <= i < |parts| ==> parts[i] == ""
    ensures forall i :: 0 <= i < |JoinLines(parts)| ==> IsSpace(JoinLines(parts)[i])
    decreases |parts|
  {
    if |parts| > 1 {
      EmptyJoin(parts[1..]);
    }
  }

  lemma {:induction false} BlankStrips(s: string)
    requires forall i :: 0 <= i < |s| ==> IsSpace(s[i])
    ensures Strip(s) == ""
    decreases |s|
  {
    if s != "" {
      BlankStrips(s[..|s| - 1]);
    }
  }

  /** A frame without data is no event and no error. */
  lemma NoDataNoEvent<J>(frame: seq<string>, r: Reader<J>)
    requires !AnyData(frame)
    ensures EventFromFrame(frame, r) == Ok(None)
  {
    EmptyPayloads(frame);
    EmptyJoin(Payloads(frame));
    BlankStrips(JoinLines(Payloads(frame)));
  }

  lemma {:induction false} AfterDoneFrames<J>(frames: seq<seq<string>>, r: Reader<J>)
    ensures FoldFrames(frames, true, r).error.None? <==> forall i :: 0 <= i < |frames| ==> SilentFrame(frames[i])
    ensures FoldFrames(frames, true, r).error.None? ==> FoldFrames(frames, true, r).yielded == []
    decreases |frames|
  {
    if frames != [] {
      var rest := frames[1..];
      AfterDoneFrames(rest, r);
      assert forall i :: 0 <= i < |rest| ==> rest[i] == frames[i + 1];
      assert forall i :: 0 < i < |frames| ==> frames[i] == rest[i - 1];
      if !AnyData(frames[0]) {
        NoDataNoEvent(frames[0], r);
      }
    }
  }

  lemma CompleteFirst<J>(frames: seq<seq<string>>, r: Reader<J>)
    requires frames != []
    ensures AnyDone(frames[0]) ==>
      (CompleteFrames(frames, r) <==> forall i :: 0 <= i < |frames[1..]| ==> SilentFrame(frames[1..][i]))
    ensures !AnyDone(frames[0]) ==>
      (CompleteFrames(frames, r) <==> EventFromFrame(frames[0], r).Ok? && CompleteFrames(frames[1..], r))
  {
    var rest := frames[1..];
    assert forall i :: 0 <= i < |rest| ==> rest[i] == frames[i + 1];
    assert forall i :: 0 < i < |frames| ==> frames[i] == rest[i - 1];
  }

  lemma EventsFront<J>(frames: seq<seq<string>>, r: Reader<J>)
    requires frames != [] && !AnyDone(frames[0])
    ensures EventsOf(frames[..FirstDone(frames)], r)
         == (match EventFromFrame(frames[0], r) case Ok(Some(event)) => [event] case _ => [])
            + EventsOf(frames[1..][..FirstDone(frames[1..])], r)
  {
    var n := FirstDone(frames);
    assert frames[..n][0] == frames[0] && frames[..n][1..] == frames[1..][..n - 1];
  }

  lemma {:induction false} FoldEndsNormallyIff<J>(frames: seq<seq<string>>, r: Reader<J>)
    ensures FoldFrames(frames, false, r).error.None? <==> CompleteFrames(frames, r)
    ensures CompleteFrames(frames, r) ==>
      FoldFrames(frames, false, r) == Output(EventsOf(frames[..FirstDone(frames)], r), None)
    decreases |frames|
  {
    if frames != [] {
      CompleteFirst(frames, r);
      if AnyDone(frames[0]) {
        AfterDoneFrames(frames[1..], r);
      } else {
        FoldEndsNormallyIff(frames[1..], r);
        EventsFront(frames, r);
      }
    }
  }

  /**
    The frame codec ends normally exactly when some frame has a [DONE] line, every frame before it reads without error
    and every frame after it has a [DONE] line or no data, and then yields exactly the events before it.
   */
  lemma FramesEndNormallyIff<J>(lines: seq<string>, r: Reader<J>)
    ensures Events(lines, r).error.None? <==> CompleteFrames(Frames(lines, []), r)
    ensures CompleteFrames(Frames(lines, []), r) ==>
      Events(lines, r) == Output(EventsOf(Frames(lines, [])[..FirstDone(Frames(lines, []))], r), None)
  {
    EventsAreFrames(lines, [], false, r);
    FoldEndsNormallyIff(Frames(lines, []), r);
  }

  // ----- agreement -----

  /** Empty, [DONE], malformed, or an object that reports no error: what both codecs read alike. */
  predicate SharedPayload<J>(payload: string, r: Reader<J>)
  {
    var v := r.parse(payload);
    payload == "" || payload == DONE || v.MalformedJson? || (v.Object? && !v.reportsError)
  }

  /** At most one data line, no event name, and its payload is not one the codecs are meant to treat differently. */
  ghost predicate Tame<J>(frame: seq<string>, r: Reader<J>)
  {
    && (forall i, j :: 0 <= i < j < |frame| ==> SseData(frame[i]).None? || SseData(frame[j]).None?)
    && (forall i :: 0 <= i < |frame| ==> !HasPrefix(frame[i], "event:"))
    && (forall i :: 0 <= i < |frame| && SseData(frame[i]).Some? ==>
         SharedPayload(SseData(frame[i]).value, r))
  }

  /** Every frame of the stream is tame, the first one continuing `frame`. */
  ghost predicate TameFrom<J>(lines: seq<string>, frame: seq<string>, r: Reader<J>)
    decreases |lines|
  {
    if lines == [] then Tame(frame, r)
    else if lines[0] == "" then Tame(frame, r) && TameFrom(lines[1..], [], r)
    else TameFrom(lines[1..], frame + [lines[0]], r)
  }

  /** The only data line of a tame frame, or |frame|. */
  function DataIndex(frame: seq<string>): (n: nat)
    ensures n <= |frame|
    ensures n < |frame| ==> SseData(frame[n]).Some?
    ensures forall i :: 0 <= i < n ==> SseData(frame[i]).None?
    decreases |frame|
  {
    if frame == [] || SseData(frame[0]).Some? then 0 else 1 + DataIndex(frame[1..])
  }

  lemma {:induction false} SkipNoData<J>(frame: seq<string>, tail: seq<string>, sawDone: bool, r: Reader<J>)
    requires forall i :: 0 <= i < |frame| ==> SseData(frame[i]).None?
    ensures ChunksFrom(frame + tail, sawDone, r) == ChunksFrom(tail, sawDone, r)
    decreases |frame|
  {
    if frame == [] {
      assert frame + tail == tail;
    } else {
      assert (frame + tail)[1..] == frame[1..] + tail;
      SkipNoData(frame[1..], tail, sawDone, r);
    }
  }

  lemma {:induction false} NoPayloads(frame: seq<string>)
    requires forall i :: 0 <= i < |frame| ==> SseData(frame[i]).None?
    ensures Payloads(frame) == []
  {
    if frame != [] {
      NoPayloads(frame[1..]);
    }
  }

  lemma {:induction false} OnePayload<J>(frame: seq<string>, n: nat, r: Reader<J>)
    requires Tame(frame, r) && n < |frame| && SseData(frame[n]).Some?
    ensures Payloads(frame) == [SseData(frame[n]).value]
    decreases |frame|
  {
    if n == 0 {
      NoPayloads(frame[1..]);
    } else {
      assert SseData(frame[0]).None?;
      OnePayload(frame[1..], n - 1, r);
    }
  }

  lemma {:induction false} NoName<J>(frame: seq<string>, r: Reader<J>)
    requires Tame(frame, r)
    ensures EventName(frame).None?
    decreases |frame|
  {
    if frame != [] {
      NoName(frame[1..], r);
    }
  }

  /** A data line as the step of a frame that holds nothing else. */
  function LineStep<J>(line: string, sawDone: bool, r: Reader<J>): FrameStep<J>
    requires SseData(line).Some?
  {
    if IsDone(line) then Done
    else if sawDone && SseData(line).value != "" then Failed(DataAfterDone)
    else match ParseLine(line, r) case Err(e) => Failed(e) case Ok(chunk) => Event(chunk)
  }

  /** The line codec's output when a step is followed by the lines `tail`. */
  function Resume<J>(step: FrameStep<J>, tail: seq<string>, sawDone: bool, r: Reader<J>): Output<J>
  {
    match step
    case Failed(e) => Output([], Some(e))
    case Done => ChunksFrom(tail, true, r)
    case Event(event) => Then(if event.Some? then [event.value] else [], ChunksFrom(tail, sawDone, r))
  }

  lemma ChunksFirst<J>(line: string, rest: seq<string>, sawDone: bool, r: Reader<J>)
    requires SseData(line).Some?
    ensures ChunksFrom([line] + rest, sawDone, r) == Resume(LineStep(line, sawDone, r), rest, sawDone, r)
  {
    var lines := [line] + rest;
    assert lines[0] == line && lines[1..] == rest;
    ThenNothing(ChunksFrom(rest, sawDone, r));
  }

  lemma ResumeNoData<J>(step: FrameStep<J>, after: seq<string>, tail: seq<string>, sawDone: bool, r: Reader<J>)
    requires forall i :: 0 <= i < |after| ==> SseData(after[i]).None?
    ensures Resume(step, after + tail, sawDone, r) == Resume(step, tail, sawDone, r)
  {
    SkipNoData(after, tail, sawDone, r);
    SkipNoData(after, tail, true, r);
  }

  /** What line n does to the line codec, when nothing around it carries data. */
  lemma ChunksAround<J>(frame: seq<string>, n: nat, tail: seq<string>, sawDone: bool, r: Reader<J>)
    requires n < |frame| && SseData(frame[n]).Some?
    requires forall i :: 0 <= i < |frame| && i != n ==> SseData(frame[i]).None?
    ensures ChunksFrom(frame + tail, sawDone, r) == Resume(LineStep(frame[n], sawDone, r), tail, sawDone, r)
  {
    var before, line, after := frame[..n], frame[n], frame[n + 1..];
    assert frame + tail == before + ([line] + (after + tail));
    SkipNoData(before, [line] + (after + tail), sawDone, r);
    ChunksFirst(line, after + tail, sawDone, r);
    ResumeNoData(LineStep(line, sawDone, r), after, tail, sawDone, r);
  }

  /** What a tame frame's only data line, line n, does to the frame codec. */
  lemma TakeTame<J>(frame: seq<string>, n: nat, sawDone: bool, r: Reader<J>)
    requires Tame(frame, r) && n < |frame| && SseData(frame[n]).Some?
    ensures TakeFrame(frame, sawDone, r)
         == LineStep(frame[n], sawDone, r)
  {
    var data := SseData(frame[n]).value;
    assert SharedPayload(data, r);
    assert AnyDone(frame) <==> data == DONE;
    assert AnyData(frame) <==> data != "";
    OnlyPayload(frame, n, r);
    NoName(frame, r);
  }

  lemma OnlyPayload<J>(frame: seq<string>, n: nat, r: Reader<J>)
    requires Tame(frame, r) && n < |frame| && SseData(frame[n]).Some?
    ensures Strip(JoinLines(Payloads(frame))) == SseData(frame[n]).value
  {
    OnePayload(frame, n, r);
    StripTwice(frame[n][5..]);
  }

  lemma TakeNoData<J>(frame: seq<string>, sawDone: bool, r: Reader<J>)
    requires forall i :: 0 <= i < |frame| ==> SseData(frame[i]).None?
    ensures TakeFrame(frame, sawDone, r) == Event(None)
  {
    NoPayloads(frame);
    assert Strip("") == "";
  }

  /** A tame frame means the same to both codecs. */
  lemma TameFrameAgrees<J>(frame: seq<string>, tail: seq<string>, sawDone: bool, r: Reader<J>)
    requires Tame(frame, r)
    ensures ChunksFrom(frame + tail, sawDone, r)
         == Resume(TakeFrame(frame, sawDone, r), tail, sawDone, r)
  {
    var n := DataIndex(frame);
    ThenNothing(ChunksFrom(tail, sawDone, r));
    if n == |frame| {
      TakeNoData(frame, sawDone, r);
      SkipNoData(frame, tail, sawDone, r);
    } else {
      ChunksAround(frame, n, tail, sawDone, r);
      TakeTame(frame, n, sawDone, r);
    }
  }

  /** On streams of tame frames the line codec and the frame codec yield the same sequence and end the same way. */
  lemma {:induction false} CodecsAgree<J>(lines: seq<string>, frame: seq<string>, sawDone: bool, r: Reader<J>)
    requires TameFrom(lines, frame, r)
    ensures EventsFrom(lines, frame, sawDone, r) == ChunksFrom(frame + lines, sawDone, r)
    decreases |lines|
  {
    if lines == [] {
      TameFrameAgrees(frame, [], sawDone, r);
    } else if lines[0] != "" {
      assert (frame + [lines[0]]) + lines[1..] == frame + lines;
      CodecsAgree(lines[1..], frame + [lines[0]], sawDone, r);
    } else {
      TameFrameAgrees(frame, lines, sawDone, r);
      CodecsAgree(lines[1..], [], true, r);
      CodecsAgree(lines[1..], [], sawDone, r);
      assert [] + lines[1..] == lines[1..];
    }
  }
}
