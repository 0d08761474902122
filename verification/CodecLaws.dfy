/** What lines and frames mean to the codecs, read off their text, and what a whole stream gives up to its first error. */
module CodecLaws {
  import opened Values
  import opened Codecs

  // ----- data lines -----

  predicate Blank(s: string)
  {
    forall i :: 0 <= i < |s| ==> IsSpace(s[i])
  }

  predicate Trimmed(s: string)
  {
    s == "" || (!IsSpace(s[0]) && !IsSpace(s[|s| - 1]))
  }

  /** The text is this one with white space around it. */
  ghost predicate Surrounds(s: string, text: string)
  {
    Trimmed(text) && exists left: string, right: string :: Blank(left) && Blank(right) && s == left + text + right
  }

  lemma {:induction false} RightStripSplits(s: string) returns (right: string)
    ensures Blank(right) && s == RightStrip(s) + right
    decreases |s|
  {
    right := "";
    if s != "" && IsSpace(s[|s| - 1]) {
      var shorter := RightStripSplits(s[..|s| - 1]);
      right := shorter + [s[|s| - 1]];
      Associate(RightStrip(s), shorter, [s[|s| - 1]]);
    }
  }

  lemma {:induction false} LeftStripSplits(s: string) returns (left: string)
    ensures Blank(left) && s == left + LeftStrip(s)
    decreases |s|
  {
    left := "";
    if s != "" && IsSpace(s[0]) {
      var shorter := LeftStripSplits(s[1..]);
      left := [s[0]] + shorter;
      Associate([s[0]], shorter, LeftStrip(s));
      assert s == [s[0]] + s[1..];
    }
  }

  lemma {:induction false} RightStripBack(s: string, right: string)
    requires Blank(right) && (s == "" || !IsSpace(s[|s| - 1]))
    ensures RightStrip(s + right) == s
    decreases |right|
  {
    if right == "" {
      assert s + right == s;
    } else {
      assert (s + right)[..|s + right| - 1] == s + right[..|right| - 1];
      RightStripBack(s, right[..|right| - 1]);
    }
  }

  lemma {:induction false} LeftStripBack(left: string, s: string)
    requires Blank(left) && (s == "" || !IsSpace(s[0]))
    ensures LeftStrip(left + s) == s
    decreases |left|
  {
    if left == "" {
      assert left + s == s;
    } else {
      assert (left + s)[1..] == left[1..] + s;
      LeftStripBack(left[1..], s);
    }
  }

  /** Stripping takes exactly the white space around a text. */
  lemma StripIff(s: string, text: string)
    ensures Strip(s) == text <==> Surrounds(s, text)
  {
    if Strip(s) == text {
      var right := RightStripSplits(s);
      var left := LeftStripSplits(RightStrip(s));
      assert s == left + text + right;
    }
    if Surrounds(s, text) {
      var left: string, right: string :| Blank(left) && Blank(right) && s == left + text + right;
      StripBack(left, text, right);
    }
  }

  lemma StripBack(left: string, text: string, right: string)
    requires Blank(left) && Blank(right) && Trimmed(text)
    ensures Strip(left + text + right) == text
  {
    if text == "" {
      assert Blank(left + text + right);
      BlankStrips(left + text + right);
    } else {
      var head := left + text;
      assert head[|head| - 1] == text[|text| - 1];
      RightStripBack(head, right);
      LeftStripBack(left, text);
    }
  }

  /** The line is a data line with this text. */
  ghost predicate Carries(line: string, text: string)
  {
    exists rest: string :: line == "data:" + rest && Surrounds(rest, text)
  }

  lemma DataIff(line: string, text: string)
    ensures SseData(line) == Some(text) <==> Carries(line, text)
  {
    if HasPrefix(line, "data:") {
      assert line == "data:" + line[5..];
      StripIff(line[5..], text);
    }
    if Carries(line, text) {
      var rest: string :| line == "data:" + rest && Surrounds(rest, text);
      assert line[..5] == "data:" && line[5..] == rest;
      StripIff(rest, text);
    }
  }

  /** There is something to parse: text that is not [DONE]. */
  ghost predicate Asks(line: string, text: string)
  {
    Carries(line, text) && text != "" && text != "[DONE]"
  }

  /** What is wrong with a text: no JSON, no object, or an object that reports an error. */
  function Fault<J>(p: Parsed<J>): Option<CodecError>
  {
    match p
    case MalformedJson => Some(Malformed)
    case NotAnObject(_) => Some(MustBeObject)
    case Object(_, reportsError) => if reportsError then Some(StreamError) else None
  }

  /** A line is its object, or the fault of its text, or nothing when there is no text. */
  lemma LineIs<J>(line: string, r: Reader<J>)
    ensures forall text :: Asks(line, text) ==>
      ParseLine(line, r) == (if Fault(r.parse(text)).Some? then Err(Fault(r.parse(text)).value)
                             else Ok(Some(r.parse(text).value)))
    ensures (forall text :: !Asks(line, text)) ==> ParseLine(line, r) == Ok(None)
  {
    var data := SseData(line);
    if data.Some? {
      DataIff(line, data.value);
    }
    forall text | Asks(line, text) ensures data == Some(text) {
      DataIff(line, text);
    }
  }

  // ----- frames -----

  /** Frames put together again, an empty line between them. */
  function Unframed(frames: seq<seq<string>>): seq<string>
    requires frames != []
  {
    if |frames| == 1 then frames[0] else frames[0] + [""] + Unframed(frames[1..])
  }

  predicate IsWhole(frame: seq<string>)
  {
    forall i :: 0 <= i < |frame| ==> frame[i] != ""
  }

  /** The frames of a stream are its lines between empty lines, the last of them included. */
  lemma {:induction false} FramesAre(lines: seq<string>, frame: seq<string>)
    requires IsWhole(frame)
    ensures Frames(lines, frame) != [] && Unframed(Frames(lines, frame)) == frame + lines
    ensures forall i :: 0 <= i < |Frames(lines, frame)| ==> IsWhole(Frames(lines, frame)[i])
    decreases |lines|
  {
    if lines == [] {
      assert frame + lines == frame;
    } else if lines[0] == "" {
      FramesAre(lines[1..], []);
      var rest := Frames(lines[1..], []);
      assert Frames(lines, frame)[1..] == rest;
      assert frame + [""] + ([] + lines[1..]) == frame + lines;
    } else {
      FramesAre(lines[1..], frame + [lines[0]]);
      assert frame + [lines[0]] + lines[1..] == frame + lines;
    }
  }

  lemma {:induction false} PayloadsConcat(a: seq<string>, b: seq<string>)
    ensures Payloads(a + b) == Payloads(a) + Payloads(b)
    decreases |a|
  {
    if a == [] {
      assert a + b == b;
    } else {
      assert (a + b)[1..] == a[1..] + b;
      PayloadsConcat(a[1..], b);
    }
  }

  /** The payloads of a frame are the texts of its data lines, in order. */
  lemma PayloadsAre(before: seq<string>, line: string)
    ensures forall text :: Carries(line, text) ==> Payloads(before + [line]) == Payloads(before) + [text]
    ensures (forall text :: !Carries(line, text)) ==> Payloads(before + [line]) == Payloads(before)
    ensures Payloads([]) == []
  {
    PayloadsConcat(before, [line]);
    assert [line][1..] == [];
    if SseData(line).Some? {
      DataIff(line, SseData(line).value);
      assert line[..5] == "data:";
      assert !HasPrefix(line, "event:") by { assert line[..5][0] == 'd'; }
    }
    forall text | Carries(line, text) ensures SseData(line) == Some(text) { DataIff(line, text); }
  }

  /** The line names an event. */
  ghost predicate Names(line: string, name: string)
  {
    exists rest: string :: line == "event:" + rest && Surrounds(rest, name)
  }

  lemma NameIff(line: string, name: string)
    ensures HasPrefix(line, "event:") && Strip(line[6..]) == name <==> Names(line, name)
  {
    if HasPrefix(line, "event:") {
      assert line == "event:" + line[6..];
      StripIff(line[6..], name);
    }
    if Names(line, name) {
      var rest: string :| line == "event:" + rest && Surrounds(rest, name);
      assert line[..6] == "event:" && line[6..] == rest;
      StripIff(rest, name);
    }
  }

  lemma {:induction false} NameConcat(a: seq<string>, b: seq<string>)
    ensures EventName(a + b) == if EventName(b).Some? then EventName(b) else EventName(a)
    decreases |a|
  {
    if a == [] {
      assert a + b == b;
    } else {
      assert (a + b)[1..] == a[1..] + b;
      NameConcat(a[1..], b);
    }
  }

  /** The name of a frame is the last one given. */
  lemma NameIs(before: seq<string>, line: string)
    ensures forall name :: Names(line, name) ==> EventName(before + [line]) == Some(name)
    ensures (forall name :: !Names(line, name)) ==> EventName(before + [line]) == EventName(before)
    ensures EventName([]).None?
  {
    NameConcat(before, [line]);
    assert [line][1..] == [];
    if HasPrefix(line, "event:") {
      NameIff(line, Strip(line[6..]));
    }
    forall name | Names(line, name) ensures EventName([line]) == Some(name) { NameIff(line, name); }
  }

  /** The payloads joined by line breaks, or a single one as it is. */
  lemma JoinIs(parts: seq<string>)
    ensures |parts| == 0 ==> JoinLines(parts) == ""
    ensures |parts| == 1 ==> JoinLines(parts) == parts[0]
    ensures |parts| >= 2 ==> JoinLines(parts) == parts[0] + "\n" + JoinLines(parts[1..])
  {
  }

  /**
    A frame is the object its joined payloads are, under its name if it has one that is not empty; other JSON is wrapped;
    text that is no JSON is malformed; and without text, or with [DONE] alone, it is nothing. What an object reports is
    not looked at.
   */
  lemma FrameIs<J>(frame: seq<string>, text: string, r: Reader<J>)
    requires Surrounds(JoinLines(Payloads(frame)), text)
    ensures var name, read := EventName(frame), r.parse(text);
      EventFromFrame(frame, r)
      == if text == "" || text == "[DONE]" then Ok(None)
         else if read.MalformedJson? then Err(Malformed)
         else if read.NotAnObject? then Ok(Some(r.wrapped(name, read.value)))
         else if name.Some? && name.value != "" then Ok(Some(r.named(name.value, read.value)))
         else Ok(Some(read.value))
  {
    StripIff(JoinLines(Payloads(frame)), text);
  }

  // ----- whole streams -----

  /** What one line does to the line codec. */
  function TakeLine<J>(line: string, sawDone: bool, r: Reader<J>): FrameStep<J>
  {
    if SseData(line).Some? then LineStep(line, sawDone, r) else Event(None)
  }

  /** One step after another, whatever the steps are. */
  function FoldSteps<T, J>(items: seq<T>, sawDone: bool, step: (T, bool) -> FrameStep<J>): Output<J>
    decreases |items|
  {
    if items == [] then Output([], if sawDone then None else Some(EndedEarly))
    else
      match step(items[0], sawDone)
      case Failed(e) => Output([], Some(e))
      case Done => FoldSteps(items[1..], true, step)
      case Event(event) => Then(if event.Some? then [event.value] else [], FoldSteps(items[1..], sawDone, step))
  }

  lemma {:induction false} ChunksAreSteps<J>(lines: seq<string>, sawDone: bool, r: Reader<J>,
                                             step: (string, bool) -> FrameStep<J>)
    requires forall line, b :: step(line, b) == TakeLine(line, b, r)
    ensures ChunksFrom(lines, sawDone, r) == FoldSteps(lines, sawDone, step)
    decreases |lines|
  {
    if lines != [] {
      assert step(lines[0], sawDone) == TakeLine(lines[0], sawDone, r);
      ChunksAreSteps(lines[1..], true, r, step);
      ChunksAreSteps(lines[1..], sawDone, r, step);
      ThenNothing(ChunksFrom(lines[1..], sawDone, r));
    }
  }

  lemma {:induction false} FramesAreSteps<J>(frames: seq<seq<string>>, sawDone: bool, r: Reader<J>,
                                             step: (seq<string>, bool) -> FrameStep<J>)
    requires forall frame, b :: step(frame, b) == TakeFrame(frame, b, r)
    ensures FoldFrames(frames, sawDone, r) == FoldSteps(frames, sawDone, step)
    decreases |frames|
  {
    if frames != [] {
      assert step(frames[0], sawDone) == TakeFrame(frames[0], sawDone, r);
      FramesAreSteps(frames[1..], true, r, step);
      FramesAreSteps(frames[1..], sawDone, r, step);
    }
  }

  /** Item i is met after a [DONE]. */
  predicate AfterEnd<T>(items: seq<T>, i: nat, ends: T -> bool)
  {
    exists k :: 0 <= k < i && k < |items| && ends(items[k])
  }

  /** Item i fails, met where it is. */
  predicate FailsAt<T, J>(items: seq<T>, i: nat, ends: T -> bool, step: (T, bool) -> FrameStep<J>)
  {
    i < |items| && step(items[i], AfterEnd(items, i, ends)).Failed?
  }

  predicate FailsFirst<T, J>(items: seq<T>, i: nat, ends: T -> bool, step: (T, bool) -> FrameStep<J>)
  {
    FailsAt(items, i, ends, step) && forall k :: 0 <= k < i ==> !FailsAt(items, k, ends, step)
  }

  /** The objects of the first n items, each met where it is. */
  function Given<T, J>(items: seq<T>, n: nat, ends: T -> bool, step: (T, bool) -> FrameStep<J>): seq<J>
    requires n <= |items|
  {
    if n == 0 then []
    else
      var last := step(items[n - 1], AfterEnd(items, n - 1, ends));
      Given(items, n - 1, ends, step) + (if last.Event? && last.event.Some? then [last.event.value] else [])
  }

  /** The fold resumed after n items, none of which failed. */
  lemma {:induction false} FoldResumes<T, J>(items: seq<T>, n: nat, ends: T -> bool, step: (T, bool) -> FrameStep<J>)
    requires n <= |items| && forall k :: 0 <= k < n ==> !FailsAt(items, k, ends, step)
    requires forall k, b :: 0 <= k < |items| ==> (step(items[k], b).Done? <==> ends(items[k]))
    ensures FoldSteps(items, false, step)
         == Then(Given(items, n, ends, step), FoldSteps(items[n..], AfterEnd(items, n, ends), step))
    decreases n
  {
    if n == 0 {
      ThenNothing(FoldSteps(items, false, step));
      assert items[0..] == items;
    } else {
      FoldResumes(items, n - 1, ends, step);
      assert !FailsAt(items, n - 1, ends, step);
      var b := AfterEnd(items, n - 1, ends);
      assert items[n - 1..][0] == items[n - 1] && items[n - 1..][1..] == items[n..];
      assert AfterEnd(items, n, ends) <==> b || ends(items[n - 1]);
      ThenStep(Given(items, n - 1, ends, step), step(items[n - 1], b), FoldSteps(items[n..], AfterEnd(items, n, ends), step));
    }
  }

  lemma ThenStep<J>(head: seq<J>, step: FrameStep<J>, o: Output<J>)
    ensures var more := if step.Event? && step.event.Some? then [step.event.value] else [];
      Then(head, Then(more, o)) == Then(head + more, o)
  {
    var more := if step.Event? && step.event.Some? then [step.event.value] else [];
    Associate(head, more, o.yielded);
  }

  /**
    What a fold of steps gives: everything before the first item that fails, and its error; or everything, and no error
    exactly when an item ended it.
   */
  lemma FoldIs<T, J>(items: seq<T>, ends: T -> bool, step: (T, bool) -> FrameStep<J>)
    requires forall k, b :: 0 <= k < |items| ==> (step(items[k], b).Done? <==> ends(items[k]))
    ensures var o := FoldSteps(items, false, step);
      && (forall i: nat :: FailsFirst(items, i, ends, step) ==>
            o == Output(Given(items, i, ends, step), Some(step(items[i], AfterEnd(items, i, ends)).error)))
      && ((forall i: nat :: !FailsAt(items, i, ends, step)) ==>
            o == Output(Given(items, |items|, ends, step), if AfterEnd(items, |items|, ends) then None else Some(EndedEarly)))
  {
    forall i: nat | FailsFirst(items, i, ends, step)
      ensures FoldSteps(items, false, step)
           == Output(Given(items, i, ends, step), Some(step(items[i], AfterEnd(items, i, ends)).error))
    {
      FoldResumes(items, i, ends, step);
      assert items[i..][0] == items[i];
      assert Given(items, i, ends, step) + [] == Given(items, i, ends, step);
    }
    if forall i: nat :: !FailsAt(items, i, ends, step) {
      FoldResumes(items, |items|, ends, step);
      assert items[|items|..] == [];
      assert Given(items, |items|, ends, step) + [] == Given(items, |items|, ends, step);
    }
  }

  /** What a line does where it is met: text after [DONE] is an error whatever it says, and [DONE] itself never is. */
  lemma TakeLineIs<J>(line: string, sawDone: bool, r: Reader<J>)
    ensures TakeLine(line, sawDone, r).Done? <==> Carries(line, "[DONE]")
    ensures forall text :: Asks(line, text) ==>
      TakeLine(line, sawDone, r)
      == (if sawDone then Failed(DataAfterDone)
          else if Fault(r.parse(text)).Some? then Failed(Fault(r.parse(text)).value)
          else Event(Some(r.parse(text).value)))
    ensures !Carries(line, "[DONE]") && (forall text :: !Asks(line, text)) ==> TakeLine(line, sawDone, r) == Event(None)
  {
    LineIs(line, r);
    DataIff(line, DONE);
    if SseData(line).Some? {
      DataIff(line, SseData(line).value);
    }
    forall text | Asks(line, text) ensures SseData(line) == Some(text) {
      DataIff(line, text);
    }
  }

  ghost predicate SomeCarries(frame: seq<string>, text: string)
  {
    exists i :: 0 <= i < |frame| && Carries(frame[i], text)
  }

  ghost predicate SomeAsks(frame: seq<string>)
  {
    exists i, text :: 0 <= i < |frame| && Asks(frame[i], text)
  }

  lemma FrameData(frame: seq<string>)
    ensures AnyDone(frame) <==> SomeCarries(frame, "[DONE]")
    ensures AnyData(frame) && !AnyDone(frame) <==> SomeAsks(frame) && !SomeCarries(frame, "[DONE]")
  {
    forall i | 0 <= i < |frame| ensures IsDone(frame[i]) <==> Carries(frame[i], "[DONE]") { DataIff(frame[i], DONE); }
    if AnyData(frame) && !AnyDone(frame) {
      var i :| 0 <= i < |frame| && SseData(frame[i]).Some? && SseData(frame[i]).value != "";
      DataIff(frame[i], SseData(frame[i]).value);
      assert Asks(frame[i], SseData(frame[i]).value);
    }
    if SomeAsks(frame) {
      var i, text :| 0 <= i < |frame| && Asks(frame[i], text);
      DataIff(frame[i], text);
    }
  }

  /** What a frame does where it is met: any [DONE] line in it ends the stream; after that a data line with text is an error. */
  lemma TakeFrameIs<J>(frame: seq<string>, sawDone: bool, r: Reader<J>)
    ensures TakeFrame(frame, sawDone, r).Done? <==> SomeCarries(frame, "[DONE]")
    ensures !SomeCarries(frame, "[DONE]") ==>
      TakeFrame(frame, sawDone, r)
      == (if sawDone && SomeAsks(frame) then Failed(DataAfterDone)
          else match EventFromFrame(frame, r) case Err(e) => Failed(e) case Ok(event) => Event(event))
  {
    FrameData(frame);
  }

  /** The line codec as such a fold, over the lines. */
  lemma ChunksAre<J>(lines: seq<string>, r: Reader<J>, ends: string -> bool, step: (string, bool) -> FrameStep<J>)
    requires forall line, b :: step(line, b) == TakeLine(line, b, r)
    requires forall line :: ends(line) <==> IsDone(line)
    ensures var o := Chunks(lines, r);
      && (forall i: nat :: FailsFirst(lines, i, ends, step) ==>
            o == Output(Given(lines, i, ends, step), Some(step(lines[i], AfterEnd(lines, i, ends)).error)))
      && ((forall i: nat :: !FailsAt(lines, i, ends, step)) ==>
            o == Output(Given(lines, |lines|, ends, step), if AfterEnd(lines, |lines|, ends) then None else Some(EndedEarly)))
  {
    ChunksAreSteps(lines, false, r, step);
    FoldIs(lines, ends, step);
  }

  /** The frame codec likewise, over the frames of the lines. */
  lemma EventsAre<J>(lines: seq<string>, r: Reader<J>, ends: seq<string> -> bool, step: (seq<string>, bool) -> FrameStep<J>)
    requires forall frame, b :: step(frame, b) == TakeFrame(frame, b, r)
    requires forall frame :: ends(frame) <==> AnyDone(frame)
    ensures var o, frames := Events(lines, r), Frames(lines, []);
      && (forall i: nat :: FailsFirst(frames, i, ends, step) ==>
            o == Output(Given(frames, i, ends, step), Some(step(frames[i], AfterEnd(frames, i, ends)).error)))
      && ((forall i: nat :: !FailsAt(frames, i, ends, step)) ==>
            o == Output(Given(frames, |frames|, ends, step), if AfterEnd(frames, |frames|, ends) then None else Some(EndedEarly)))
  {
    EventsAreFrames(lines, [], false, r);
    FramesAreSteps(Frames(lines, []), false, r, step);
    FoldIs(Frames(lines, []), ends, step);
  }
}
