/** The byte-level event-stream framing of receipts: splitting at blank lines, and the strict frame decoder. */
module Framing {
  import opened Values

  newtype byte = x: int | 0 <= x < 256

  type Bytes = seq<byte>

  const LF: byte := 10
  const CR: byte := 13
  const SPACE: byte := 32
  /** "data:" and "event:" */
  const DATA: Bytes := [100, 97, 116, 97, 58]
  const EVENT: Bytes := [101, 118, 101, 110, 116, 58]
  /** "[DONE]" */
  const DONE: Bytes := [91, 68, 79, 78, 69, 93]

  // ----- finding a terminator -----

  datatype Terminator = LfLf | CrlfCrlf {
    function Width(): nat { if LfLf? then 2 else 4 }
    function Bytes(): Bytes { if LfLf? then [LF, LF] else [CR, LF, CR, LF] }
  }

  predicate Starts(data: Bytes, t: Terminator, i: nat)
  {
    match t
    case LfLf => i + 2 <= |data| && data[i] == LF && data[i + 1] == LF
    case CrlfCrlf => i + 4 <= |data| && data[i] == CR && data[i + 1] == LF && data[i + 2] == CR && data[i + 3] == LF
  }

  predicate Boundary(data: Bytes, i: nat)
  {
    Starts(data, LfLf, i) || Starts(data, CrlfCrlf, i)
  }

  /** bytes.find: the least index at or after `offset` where the terminator starts. */
  function Find(data: Bytes, t: Terminator, offset: nat): (r: Option<nat>)
    ensures r.Some? ==> offset <= r.value && Starts(data, t, r.value)
    ensures forall i :: offset <= i && (r.Some? ==> i < r.value) ==> !Starts(data, t, i)
    decreases |data| - offset
  {
    if offset >= |data| then None
    else if Starts(data, t, offset) then Some(offset)
    else Find(data, t, offset + 1)
  }

  /** A raw frame with its terminator, and the offset just past it. */
  datatype Frame = Frame(raw: Bytes, end: nat)

  /** _next_sse_event: whichever terminator starts first ends the frame. */
  function NextEvent(data: Bytes, offset: nat): (r: Option<Frame>)
    ensures r.Some? ==> offset < r.value.end <= |data| && r.value.raw == data[offset..r.value.end]
  {
    var lf := Find(data, LfLf, offset);
    var crlf := Find(data, CrlfCrlf, offset);
    if lf.None? && crlf.None? then None
    else if lf.Some? && (crlf.None? || lf.value < crlf.value) then
      Some(Frame(data[offset..lf.value + 2], lf.value + 2))
    else Some(Frame(data[offset..crlf.value + 4], crlf.value + 4))
  }

  /** The first boundary at or after `offset` is `t`, starting at `at`. */
  ghost predicate FirstBoundary(data: Bytes, offset: nat, at: nat, t: Terminator)
  {
    offset <= at && Starts(data, t, at) && forall i :: offset <= i < at ==> !Boundary(data, i)
  }

  lemma NextEventIsFirstBoundary(data: Bytes, offset: nat) returns (at: nat, t: Terminator)
    requires NextEvent(data, offset).Some?
    ensures FirstBoundary(data, offset, at, t) && NextEvent(data, offset).value.end == at + t.Width()
  {
    var lf, crlf := Find(data, LfLf, offset), Find(data, CrlfCrlf, offset);
    if lf.Some? && (crlf.None? || lf.value < crlf.value) {
      at, t := lf.value, LfLf;
    } else {
      at, t := crlf.value, CrlfCrlf;
    }
  }

  lemma FirstBoundaryIsNextEvent(data: Bytes, offset: nat, at: nat, t: Terminator)
    requires FirstBoundary(data, offset, at, t)
    ensures NextEvent(data, offset) == Some(Frame(data[offset..at + t.Width()], at + t.Width()))
  {
    forall i | offset <= i < at ensures !Starts(data, LfLf, i) && !Starts(data, CrlfCrlf, i) {
      assert !Boundary(data, i);
    }
    FindFirst(data, t, offset, at);
    var other := Find(data, if t.LfLf? then CrlfCrlf else LfLf, offset);
    if other.Some? {
      assert other.value >= at;
      assert other.value != at by { assert data[at] == if t.LfLf? then LF else CR; }
    }
  }

  lemma FindFirst(data: Bytes, t: Terminator, offset: nat, at: nat)
    requires offset <= at && Starts(data, t, at)
    requires forall i :: offset <= i < at ==> !Starts(data, t, i)
    ensures Find(data, t, offset) == Some(at)
  {
    var r := Find(data, t, offset);
    assert r.Some? && r.value <= at;
    assert r.value >= at;
  }

  lemma NoBoundaryNoEvent(data: Bytes, offset: nat)
    ensures NextEvent(data, offset).None? <==> forall i :: offset <= i ==> !Boundary(data, i)
  {
    if NextEvent(data, offset).Some? {
      var at, t := NextEventIsFirstBoundary(data, offset);
      assert Boundary(data, at);
    }
  }

  /** The first terminator found in a prefix is the first terminator of every extension, although the two compete. */
  lemma FirstTerminatorStable(data: Bytes, more: Bytes, offset: nat)
    requires NextEvent(data, offset).Some?
    ensures NextEvent(data + more, offset) == NextEvent(data, offset)
  {
    var at, t := NextEventIsFirstBoundary(data, offset);
    var all := data + more;
    forall i | offset <= i < at ensures !Boundary(all, i) {
      assert !Boundary(data, i);
    }
    assert Starts(all, t, at);
    FirstBoundaryIsNextEvent(all, offset, at, t);
    assert all[offset..at + t.Width()] == data[offset..at + t.Width()];
  }

  // ----- decoding a frame -----

  datatype Event = Event(name: Bytes, payload: Bytes)

  datatype FrameError = Incomplete | TwoDataFields | TwoEventFields | UnsupportedField | NoDataField

  predicate EndsWith(s: Bytes, suffix: Bytes)
  {
    |s| >= |suffix| && s[|s| - |suffix|..] == suffix
  }

  predicate BeginsWith(s: Bytes, prefix: Bytes)
  {
    |s| >= |prefix| && s[..|prefix|] == prefix
  }

  /** bytes.split(b"\n"): always at least one piece. */
  function Split(s: Bytes): (r: seq<Bytes>)
    ensures r != []
    ensures forall i :: 0 <= i < |r| ==> LF !in r[i]
  {
    if s == [] then [[]]
    else
      var rest := Split(s[1..]);
      if s[0] == LF then [[]] + rest else [[s[0]] + rest[0]] + rest[1..]
  }

  function StripCr(line: Bytes): Bytes
  {
    if line != [] && line[|line| - 1] == CR then line[..|line| - 1] else line
  }

  function StripSpace(value: Bytes): Bytes
  {
    if value != [] && value[0] == SPACE then value[1..] else value
  }

  /** What the line loop has seen so far. */
  datatype Fields = Fields(name: Option<Bytes>, payload: Option<Bytes>)

  function TakeLine(f: Fields, raw: Bytes): Result<Fields, FrameError>
  {
    var line := StripCr(raw);
    if BeginsWith(line, DATA) then
      if f.payload.Some? then Err(TwoDataFields)
      else Ok(f.(payload := Some(StripSpace(line[|DATA|..]))))
    else if BeginsWith(line, EVENT) then
      if f.name.Some? then Err(TwoEventFields)
      else Ok(f.(name := Some(StripSpace(line[|EVENT|..]))))
    else Err(UnsupportedField)
  }

  function TakeLines(f: Fields, lines: seq<Bytes>): Result<Fields, FrameError>
    decreases |lines|
  {
    if lines == [] then Ok(f)
    else
      var next := TakeLine(f, lines[0]);
      if next.Err? then next else TakeLines(next.value, lines[1..])
  }

  function Body(raw: Bytes): Option<Bytes>
  {
    if EndsWith(raw, CrlfCrlf.Bytes()) then Some(raw[..|raw| - 4])
    else if EndsWith(raw, LfLf.Bytes()) then Some(raw[..|raw| - 2])
    else None
  }

  function Finish(r: Result<Fields, FrameError>): Result<Event, FrameError>
  {
    if r.Err? then Err(r.error)
    else if r.value.payload.None? then Err(NoDataField)
    else Ok(Event(if r.value.name.Some? then r.value.name.value else [], r.value.payload.value))
  }

  /** _decode_sse_event */
  function Decode(raw: Bytes): Result<Event, FrameError>
  {
    var body := Body(raw);
    if body.None? then Err(Incomplete) else Finish(TakeLines(Fields(None, None), Split(body.value)))
  }

  /** _decode_sse_event as its loop over lines. */
  method DecodeEvent(raw: Bytes) returns (r: Result<Event, FrameError>)
    ensures r == Decode(raw)
  {
    var body: Bytes;
    if EndsWith(raw, CrlfCrlf.Bytes()) {
      body := raw[..|raw| - 4];
    } else if EndsWith(raw, LfLf.Bytes()) {
      body := raw[..|raw| - 2];
    } else {
      return Err(Incomplete);
    }
    var name, payload: Bytes := [], [];
    var sawName, sawData := false, false;
    var lines := Split(body);
    var i := 0;
    while i < |lines|
      invariant 0 <= i <= |lines|
      invariant !sawName ==> name == []
      invariant TakeLines(Fields(None, None), lines)
             == TakeLines(Fields(if sawName then Some(name) else None, if sawData then Some(payload) else None), lines[i..])
    {
      var line := StripCr(lines[i]);
      assert lines[i..][1..] == lines[i + 1..];
      if BeginsWith(line, DATA) {
        if sawData { return Err(TwoDataFields); }
        sawData := true;
        payload := StripSpace(line[|DATA|..]);
      } else if BeginsWith(line, EVENT) {
        if sawName { return Err(TwoEventFields); }
        sawName := true;
        name := StripSpace(line[|EVENT|..]);
      } else {
        return Err(UnsupportedField);
      }
      i := i + 1;
    }
    if !sawData { return Err(NoDataField); }
    return Ok(Event(name, payload));
  }

  lemma {:induction false} TakeLinesNoLf(f: Fields, lines: seq<Bytes>)
    requires forall i :: 0 <= i < |lines| ==> LF !in lines[i]
    requires f.name.Some? ==> LF !in f.name.value
    requires f.payload.Some? ==> LF !in f.payload.value
    ensures var r := TakeLines(f, lines);
      r.Ok? ==> && (r.value.name.Some? ==> LF !in r.value.name.value)
                && (r.value.payload.Some? ==> LF !in r.value.payload.value)
    decreases |lines|
  {
    if lines != [] && TakeLine(f, lines[0]).Ok? {
      assert LF !in lines[0];
      TakeLinesNoLf(TakeLine(f, lines[0]).value, lines[1..]);
    }
  }

  /** Decoded names and payloads contain no line feed. */
  lemma DecodedHasNoLf(raw: Bytes)
    ensures Decode(raw).Ok? ==> LF !in Decode(raw).value.name && LF !in Decode(raw).value.payload
  {
    if Body(raw).Some? {
      TakeLinesNoLf(Fields(None, None), Split(Body(raw).value));
    }
  }

  // ----- printing -----

  predicate Plain(s: Bytes)
  {
    LF !in s && (s == [] || s[|s| - 1] != CR)
  }

  predicate Printable(e: Event)
  {
    Plain(e.name) && Plain(e.payload)
  }

  function Newline(t: Terminator): Bytes
  {
    if t.LfLf? then [LF] else [CR, LF]
  }

  /** One frame on the wire: the event field is omitted when the name is empty. */
  function Print(e: Event, t: Terminator): Bytes
  {
    (if e.name == [] then [] else EVENT + [SPACE] + e.name + Newline(t))
    + DATA + [SPACE] + e.payload + t.Bytes()
  }

  lemma {:induction false} SplitPlain(s: Bytes)
    requires LF !in s
    ensures Split(s) == [s]
  {
    if s != [] {
      assert s[0] in s;
      SplitPlain(s[1..]);
      assert [s[0]] + s[1..] == s;
    }
  }

  lemma {:induction false} SplitJoin(a: Bytes, b: Bytes)
    requires LF !in a
    ensures Split(a + [LF] + b) == [a] + Split(b)
  {
    var s := a + [LF] + b;
    if a == [] {
      assert s[1..] == b;
    } else {
      assert s[1..] == a[1..] + [LF] + b;
      SplitJoin(a[1..], b);
      assert a[0] in a && s[0] == a[0];
      assert [a[0]] + a[1..] == a;
      assert ([a[1..]] + Split(b))[1..] == Split(b);
    }
  }

  lemma BodyOfTerminated(body: Bytes, t: Terminator)
    ensures Body(body + t.Bytes()) == Some(body)
  {
    var raw := body + t.Bytes();
    assert raw[..|raw| - t.Width()] == body;
    assert raw[|raw| - t.Width()..] == t.Bytes();
    if t.LfLf? && |raw| >= 4 {
      assert raw[|raw| - 4..][2] == raw[|raw| - 2] == LF;
    }
  }

  lemma Middle(before: Bytes, mid: Bytes, after: Bytes)
    ensures (before + mid + after)[|before|..|before| + |mid|] == mid
  {
  }

  lemma TerminatorStarts(t: Terminator, before: Bytes, after: Bytes)
    ensures Starts(before + t.Bytes() + after, t, |before|)
  {
    var data, bytes := before + t.Bytes() + after, t.Bytes();
    Middle(before, bytes, after);
    forall k | 0 <= k < t.Width() ensures data[|before| + k] == bytes[k] {
      assert data[|before|..|before| + t.Width()][k] == bytes[k];
    }
  }

  lemma TerminatedFrame(body: Bytes, t: Terminator, before: Bytes, after: Bytes)
    ensures var data := before + (body + t.Bytes()) + after;
      && data[|before|..|before| + |body|] == body
      && data[|before|..|before| + |body| + t.Width()] == body + t.Bytes()
      && Starts(data, t, |before| + |body|)
  {
    var data := before + (body + t.Bytes()) + after;
    Middle(before, body + t.Bytes(), after);
    assert data == before + body + (t.Bytes() + after);
    Middle(before, body, t.Bytes() + after);
    assert data == (before + body) + t.Bytes() + after;
    TerminatorStarts(t, before + body, after);
  }

  lemma InSlice(data: Bytes, start: nat, body: Bytes, k: nat)
    requires start + |body| <= |data| && data[start..start + |body|] == body && k < |body|
    ensures data[start + k] == body[k]
  {
    assert data[start..start + |body|][k] == body[k];
  }
}
