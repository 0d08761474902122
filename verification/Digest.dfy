/** The stream digest: which streams it accepts, and what the hashed preimage determines. */
module Digest {
  import opened Values
  import opened Framing
  import opened Grammar

  /** What a payload embeds. JSON is left uninterpreted; `Malformed` is any payload the reader raises on. */
  datatype Embedded<R> = Malformed | NoReceipt | Receipt(receipt: R)

  datatype Domain = DataV1 | EventsV1 | OtherDomain

  datatype DigestError =
    | IncompleteTail | BadFrame(frame: FrameError) | AfterDone | BadJson | SecondReceipt
    | WrongReceipt | ReceiptNotLast | NamedEvent | UnsupportedDomain | ReceiptMissing | DoneMissing

  /** The loop's variables; the digest object is the bytes fed to it. */
  datatype Scan = Scan(preimage: Bytes, events: nat, sawReceipt: bool, sawDone: bool)

  const FRESH := Scan([], 0, false, false)

  datatype Claim<R> = Claim(domain: Domain, expected: Option<R>, embedded: Bytes -> Embedded<R>)

  /** The bytes one data event contributes. */
  function Contribution(e: Event, domain: Domain): Bytes
  {
    (if domain.EventsV1? then e.name + [LF] else []) + e.payload + [LF]
  }

  function TakeEvent<R(==)>(s: Scan, e: Event, c: Claim<R>): Result<Scan, DigestError>
  {
    if s.sawDone then Err(AfterDone)
    else if e.payload == DONE then Ok(s.(sawDone := true))
    else
      match c.embedded(e.payload)
      case Malformed => Err(BadJson)
      case Receipt(r) =>
        if s.sawReceipt then Err(SecondReceipt)
        else if c.expected != Some(r) then Err(WrongReceipt)
        else Ok(s.(sawReceipt := true))
      case NoReceipt =>
        if s.sawReceipt then Err(ReceiptNotLast)
        else if c.domain.DataV1? && e.name != [] then Err(NamedEvent)
        else if c.domain.OtherDomain? then Err(UnsupportedDomain)
        else Ok(s.(preimage := s.preimage + Contribution(e, c.domain), events := s.events + 1))
  }

  function ScanFrom<R(==)>(stream: Bytes, offset: nat, s: Scan, c: Claim<R>): Result<Scan, DigestError>
    decreases |stream| - offset
  {
    if offset >= |stream| then Ok(s)
    else
      match NextEvent(stream, offset)
      case None => Err(IncompleteTail)
      case Some(f) =>
        match Decode(f.raw)
        case Err(e) => Err(BadFrame(e))
        case Ok(event) =>
          match TakeEvent(s, event, c)
          case Err(e) => Err(e)
          case Ok(next) => ScanFrom(stream, f.end, next, c)
  }

  /** The preimage and the event count. */
  function Conclude(r: Result<Scan, DigestError>): Result<(Bytes, nat), DigestError>
  {
    match r
    case Err(e) => Err(e)
    case Ok(s) =>
      if !s.sawReceipt then Err(ReceiptMissing)
      else if !s.sawDone then Err(DoneMissing)
      else Ok((s.preimage, s.events))
  }

  function StreamDigest<R(==)>(stream: Bytes, c: Claim<R>): Result<(Bytes, nat), DigestError>
  {
    Conclude(ScanFrom(stream, 0, FRESH, c))
  }

  /** What the loop does with one decoded event. */
  method Absorb<R(==)>(s: Scan, event: Event, c: Claim<R>) returns (r: Result<Scan, DigestError>)
    ensures r == TakeEvent(s, event, c)
  {
    if s.sawDone { return Err(AfterDone); }
    if event.payload == DONE { return Ok(s.(sawDone := true)); }
    var embedded := c.embedded(event.payload);
    if embedded.Malformed? { return Err(BadJson); }
    if embedded.Receipt? {
      if s.sawReceipt { return Err(SecondReceipt); }
      if c.expected.None? || c.expected.value != embedded.receipt { return Err(WrongReceipt); }
      return Ok(s.(sawReceipt := true));
    }
    if s.sawReceipt { return Err(ReceiptNotLast); }
    var digest := s.preimage;
    if c.domain.DataV1? {
      if event.name != [] { return Err(NamedEvent); }
    } else if c.domain.EventsV1? {
      digest := digest + event.name;
      digest := digest + [LF];
    } else {
      return Err(UnsupportedDomain);
    }
    digest := digest + event.payload;
    digest := digest + [LF];
    assert digest == s.preimage + Contribution(event, c.domain);
    return Ok(s.(preimage := digest, events := s.events + 1));
  }

  /** _stream_digest as its loop; it terminates because the offset strictly grows. */
  method DigestStream<R(==)>(stream: Bytes, c: Claim<R>) returns (r: Result<(Bytes, nat), DigestError>)
    ensures r == StreamDigest(stream, c)
  {
    var s := FRESH;
    var offset := 0;
    while offset < |stream|
      invariant 0 <= offset
      invariant ScanFrom(stream, 0, FRESH, c) == ScanFrom(stream, offset, s, c)
      decreases |stream| - offset
    {
      var found := NextEvent(stream, offset);
      if found.None? { return Err(IncompleteTail); }
      offset := found.value.end;
      var decoded := DecodeEvent(found.value.raw);
      if decoded.Err? { return Err(BadFrame(decoded.error)); }
      var next := Absorb(s, decoded.value, c);
      if next.Err? { return Err(next.error); }
      s := next.value;
    }
    if !s.sawReceipt { return Err(ReceiptMissing); }
    if !s.sawDone { return Err(DoneMissing); }
    return Ok((s.preimage, s.events));
  }

  // ----- the language accepted -----

  predicate IsData<R(==)>(e: Event, c: Claim<R>)
  {
    && e.payload != DONE && c.embedded(e.payload).NoReceipt?
    && !c.domain.OtherDomain? && (c.domain.DataV1? ==> e.name == [])
  }

  predicate IsReceipt<R(==)>(e: Event, c: Claim<R>)
  {
    && e.payload != DONE && c.embedded(e.payload).Receipt?
    && c.expected == Some(c.embedded(e.payload).receipt)
  }

  /** Data events, then the expected receipt, then [DONE]. */
  ghost predicate WellShaped<R>(es: seq<Event>, c: Claim<R>)
  {
    && |es| >= 2
    && es[|es| - 1].payload == DONE
    && IsReceipt(es[|es| - 2], c)
    && forall i :: 0 <= i < |es| - 2 ==> IsData(es[i], c)
  }

  function Preimage(es: seq<Event>, domain: Domain): Bytes
  {
    if es == [] then [] else Contribution(es[0], domain) + Preimage(es[1..], domain)
  }

  function FoldEvents<R(==)>(s: Scan, es: seq<Event>, c: Claim<R>): Result<Scan, DigestError>
    decreases |es|
  {
    if es == [] then Ok(s)
    else
      match TakeEvent(s, es[0], c)
      case Err(e) => Err(e)
      case Ok(next) => FoldEvents(next, es[1..], c)
  }

  lemma {:induction false} ScanIsFold<R>(stream: Bytes, offset: nat, s: Scan, c: Claim<R>)
    ensures Events(stream, offset).Some? ==>
      ScanFrom(stream, offset, s, c) == FoldEvents(s, Events(stream, offset).value, c)
    ensures Events(stream, offset).None? ==> ScanFrom(stream, offset, s, c).Err?
    decreases |stream| - offset
  {
    if offset < |stream| {
      var f := NextEvent(stream, offset);
      if f.Some? && Decode(f.value.raw).Ok? {
        var e := Decode(f.value.raw).value;
        var next := TakeEvent(s, e, c);
        if next.Ok? {
          ScanIsFold(stream, f.value.end, next.value, c);
        }
        if Events(stream, f.value.end).Some? {
          var rest := Events(stream, f.value.end).value;
          assert ([e] + rest)[1..] == rest;
        }
      }
    }
  }

  lemma {:induction false} FoldAccepts<R>(s: Scan, es: seq<Event>, c: Claim<R>)
    requires !s.sawReceipt && !s.sawDone
    ensures Conclude(FoldEvents(s, es, c)).Ok? <==> WellShaped(es, c)
    ensures WellShaped(es, c) ==>
      Conclude(FoldEvents(s, es, c)) == Ok((s.preimage + Preimage(es[..|es| - 2], c.domain), s.events + |es| - 2))
    decreases |es|
  {
    if es != [] {
      var e, rest := es[0], es[1..];
      var next := TakeEvent(s, e, c);
      if IsData(e, c) {
        FoldAccepts(next.value, rest, c);
        DataFirst(es, c);
        if WellShaped(es, c) {
          var mine, theirs := Contribution(e, c.domain), Preimage(rest[..|rest| - 2], c.domain);
          assert es[..|es| - 2][1..] == rest[..|rest| - 2];
          assert s.preimage + mine + theirs == s.preimage + (mine + theirs);
        }
      } else if IsReceipt(e, c) {
        if rest != [] && TakeEvent(next.value, rest[0], c).Ok? {
          assert rest[0].payload == DONE;
          if rest[1..] != [] {
            assert FoldEvents(next.value, rest, c).Err?;
          }
        }
        assert WellShaped(es, c) <==> |es| == 2 && es[1].payload == DONE;
        if WellShaped(es, c) {
          assert rest[1..] == [];
          assert FoldEvents(next.value, rest, c) == Ok(next.value.(sawDone := true));
          assert es[..0] == [] && s.preimage + [] == s.preimage;
        }
      } else {
        if e.payload == DONE && rest != [] {
          assert TakeEvent(next.value, rest[0], c).Err?;
        }
      }
    }
  }

  lemma DataFirst<R>(es: seq<Event>, c: Claim<R>)
    requires es != [] && IsData(es[0], c)
    ensures WellShaped(es, c) <==> WellShaped(es[1..], c)
  {
    var rest := es[1..];
    if WellShaped(es, c) {
      assert |es| > 2;
      forall i | 0 <= i < |rest| - 2 ensures IsData(rest[i], c) { assert rest[i] == es[i + 1]; }
    }
    if WellShaped(rest, c) {
      forall i | 0 <= i < |es| - 2 ensures IsData(es[i], c) { if i > 0 { assert es[i] == rest[i - 1]; } }
    }
  }

  /** The acceptance language of the digest loop, and the value it returns. */
  lemma AcceptsExactly<R>(stream: Bytes, c: Claim<R>)
    ensures StreamDigest(stream, c).Ok? <==> exists es :: IsStream(stream, es) && WellShaped(es, c)
    ensures forall es :: IsStream(stream, es) && WellShaped(es, c) ==>
      StreamDigest(stream, c) == Ok((Preimage(es[..|es| - 2], c.domain), |es| - 2))
  {
    AcceptsParsed(stream, c);
    forall es ensures Events(stream, 0) == Some(es) <==> IsStream(stream, es) {
      EventsIff(stream, es);
    }
  }

  /** The same in terms of the events parsed. */
  lemma AcceptsParsed<R>(stream: Bytes, c: Claim<R>)
    ensures StreamDigest(stream, c).Ok? <==> Events(stream, 0).Some? && WellShaped(Events(stream, 0).value, c)
    ensures StreamDigest(stream, c).Ok? ==>
      var es := Events(stream, 0).value;
      StreamDigest(stream, c) == Ok((Preimage(es[..|es| - 2], c.domain), |es| - 2))
  {
    ScanIsFold(stream, 0, FRESH, c);
    var events := Events(stream, 0);
    if events.Some? {
      FoldAcceptsFresh(events.value, c);
    }
  }

  lemma FoldAcceptsFresh<R>(es: seq<Event>, c: Claim<R>)
    ensures Conclude(FoldEvents(FRESH, es, c)).Ok? <==> WellShaped(es, c)
    ensures WellShaped(es, c) ==>
      Conclude(FoldEvents(FRESH, es, c)) == Ok((Preimage(es[..|es| - 2], c.domain), |es| - 2))
  {
    FoldAccepts(FRESH, es, c);
    if WellShaped(es, c) {
      var p := Preimage(es[..|es| - 2], c.domain);
      assert [] + p == p;
    }
  }

  // ----- which error -----

  predicate Closed(es: seq<Event>)
  {
    exists i :: 0 <= i < |es| && es[i].payload == DONE
  }

  predicate Receipted<R(==)>(es: seq<Event>, c: Claim<R>)
  {
    exists i :: 0 <= i < |es| && es[i].payload != DONE && c.embedded(es[i].payload).Receipt?
  }

  /** What is wrong with this event after those, told by what they were. */
  function Objection<R(==)>(before: seq<Event>, e: Event, c: Claim<R>): Option<DigestError>
  {
    if Closed(before) then Some(AfterDone)
    else if e.payload == DONE then None
    else
      match c.embedded(e.payload)
      case Malformed => Some(BadJson)
      case Receipt(r) =>
        if Receipted(before, c) then Some(SecondReceipt)
        else if c.expected == Some(r) then None else Some(WrongReceipt)
      case NoReceipt =>
        if Receipted(before, c) then Some(ReceiptNotLast)
        else if c.domain.OtherDomain? then Some(UnsupportedDomain)
        else if c.domain.DataV1? && e.name != [] then Some(NamedEvent) else None
  }

  ghost predicate Unobjected<R>(before: seq<Event>, es: seq<Event>, c: Claim<R>)
  {
    forall i :: 0 <= i < |es| ==> Objection(before + es[..i], es[i], c).None?
  }

  predicate Tracks<R(==)>(before: seq<Event>, s: Scan, c: Claim<R>)
  {
    (s.sawDone <==> Closed(before)) && (s.sawReceipt <==> Receipted(before, c))
  }

  /** The loop's flags are what the events before say, so each event meets its own objection. */
  lemma TakeTracks<R>(before: seq<Event>, s: Scan, e: Event, c: Claim<R>)
    requires Tracks(before, s, c)
    ensures Objection(before, e, c).Some? ==> TakeEvent(s, e, c) == Err(Objection(before, e, c).value)
    ensures Objection(before, e, c).None? ==>
      TakeEvent(s, e, c).Ok? && Tracks(before + [e], TakeEvent(s, e, c).value, c)
  {
    var all := before + [e];
    assert all[|before|] == e && forall i :: 0 <= i < |before| ==> all[i] == before[i];
  }

  lemma UnobjectedStep<R>(before: seq<Event>, es: seq<Event>, c: Claim<R>)
    requires es != [] && Unobjected(before, es, c)
    ensures Objection(before, es[0], c).None? && Unobjected(before + [es[0]], es[1..], c)
  {
    assert before + es[..0] == before;
    forall i | 0 <= i < |es[1..]| ensures Objection(before + [es[0]] + es[1..][..i], es[1..][i], c).None? {
      assert before + es[..i + 1] == before + [es[0]] + es[1..][..i];
    }
  }

  /** Events nothing is objected to are all taken. */
  lemma {:induction false} FoldTracks<R>(before: seq<Event>, s: Scan, es: seq<Event>, c: Claim<R>)
    requires Tracks(before, s, c) && Unobjected(before, es, c)
    ensures FoldEvents(s, es, c).Ok? && Tracks(before + es, FoldEvents(s, es, c).value, c)
    decreases |es|
  {
    if es == [] {
      assert before + es == before;
    } else {
      UnobjectedStep(before, es, c);
      TakeTracks(before, s, es[0], c);
      FoldTracks(before + [es[0]], TakeEvent(s, es[0], c).value, es[1..], c);
      assert before + [es[0]] + es[1..] == before + es;
    }
  }

  /** The loop gets through the frames of events that are all taken, whatever follows them. */
  lemma {:induction false} ScanThrough<R>(stream: Bytes, offset: nat, es: seq<Event>, end: nat, s: Scan, c: Claim<R>)
    requires offset <= |stream| && PathTo(stream, offset, es, end) && FoldEvents(s, es, c).Ok?
    ensures ScanFrom(stream, offset, s, c) == ScanFrom(stream, end, FoldEvents(s, es, c).value, c)
    decreases |es|
  {
    if es != [] {
      var f := NextEvent(stream, offset).value;
      ScanThrough(stream, f.end, es[1..], end, TakeEvent(s, es[0], c).value, c);
    }
  }

  /**
    Which error a stream gives, told by the frames it begins with that nothing is objected to: what is objected to the next
    one, why the next one does not decode, that there is none, or what is missing at the end.
   */
  lemma ErrorIs<R>(stream: Bytes, end: nat, es: seq<Event>, c: Claim<R>)
    requires end <= |stream| && IsStream(stream[..end], es) && Unobjected([], es, c)
    ensures var r, next := StreamDigest(stream, c), NextEvent(stream, end);
      && (end == |stream| && !Receipted(es, c) ==> r == Err(ReceiptMissing))
      && (end == |stream| && Receipted(es, c) && !Closed(es) ==> r == Err(DoneMissing))
      && (end < |stream| && next.None? ==> r == Err(IncompleteTail))
      && (next.Some? && Decode(next.value.raw).Err? ==> r == Err(BadFrame(Decode(next.value.raw).error)))
      && (next.Some? && Decode(next.value.raw).Ok? && Objection(es, Decode(next.value.raw).value, c).Some? ==>
            r == Err(Objection(es, Decode(next.value.raw).value, c).value))
  {
    assert stream[0..end] == stream[..end] && [] + es == es;
    StreamIsPath(stream, 0, es, end);
    FoldTracks([], FRESH, es, c);
    var t := FoldEvents(FRESH, es, c).value;
    ScanThrough(stream, 0, es, end, FRESH, c);
    if NextEvent(stream, end).Some? && Decode(NextEvent(stream, end).value.raw).Ok? {
      TakeTracks(es, t, Decode(NextEvent(stream, end).value.raw).value, c);
    }
  }

  // ----- what is hashed -----

  /** The lines hashed for each event: its name where the domain has names, and its payload. */
  function HashedLines(es: seq<Event>, domain: Domain): seq<Bytes>
  {
    if es == [] then []
    else (if domain.EventsV1? then [es[0].name, es[0].payload] else [es[0].payload]) + HashedLines(es[1..], domain)
  }

  /** The preimage is these lines, each ended by a line feed. */
  lemma {:induction false} PreimageIs(es: seq<Event>, domain: Domain)
    ensures Preimage(es, domain) == Join(HashedLines(es, domain) + [[]])
  {
    if es != [] {
      PreimageIs(es[1..], domain);
      var e, rest := es[0], HashedLines(es[1..], domain) + [[]];
      JoinCons(e.payload, rest);
      if domain.EventsV1? {
        JoinCons(e.name, [e.payload] + rest);
        assert HashedLines(es, domain) + [[]] == [e.name] + ([e.payload] + rest);
        Associate(e.name + [10], e.payload + [10], Join(rest));
        Associate(e.name + [10], e.payload, [10]);
      } else {
        assert HashedLines(es, domain) + [[]] == [e.payload] + rest;
        assert Contribution(e, domain) == e.payload + [10];
      }
    }
  }

  lemma JoinCons(line: Bytes, lines: seq<Bytes>)
    requires lines != []
    ensures Join([line] + lines) == line + [10] + Join(lines)
  {
    assert ([line] + lines)[1..] == lines;
  }

  // ----- what the preimage determines -----

  function FirstLf(s: Bytes): nat
  {
    if s == [] || s[0] == LF then 0 else 1 + FirstLf(s[1..])
  }

  lemma {:induction false} FirstLfAfter(a: Bytes, u: Bytes)
    requires LF !in a
    ensures FirstLf(a + [LF] + u) == |a|
  {
    if a != [] {
      assert a[0] in a;
      assert (a + [LF] + u)[1..] == a[1..] + [LF] + u;
      FirstLfAfter(a[1..], u);
    }
  }

  lemma FirstLine(a: Bytes, u: Bytes, b: Bytes, v: Bytes)
    requires LF !in a && LF !in b && a + [LF] + u == b + [LF] + v
    ensures a == b && u == v
  {
    FirstLfAfter(a, u);
    FirstLfAfter(b, v);
    assert (a + [LF] + u)[..|a|] == a && (b + [LF] + v)[..|a|] == b;
    assert (a + [LF] + u)[|a| + 1..] == u && (b + [LF] + v)[|a| + 1..] == v;
  }

  ghost predicate NoLf(es: seq<Event>)
  {
    forall i :: 0 <= i < |es| ==> LF !in es[i].name && LF !in es[i].payload
  }

  ghost predicate Unnamed(es: seq<Event>)
  {
    forall i :: 0 <= i < |es| ==> es[i].name == []
  }

  lemma PreimageEmpty(es: seq<Event>, domain: Domain)
    ensures Preimage(es, domain) == [] <==> es == []
  {
  }

  /** Equal preimages of line-feed-free events come from equal event sequences. */
  lemma {:induction false} PreimageDetermines(a: seq<Event>, b: seq<Event>, domain: Domain)
    requires NoLf(a) && NoLf(b) && !domain.OtherDomain?
    requires domain.DataV1? ==> Unnamed(a) && Unnamed(b)
    requires Preimage(a, domain) == Preimage(b, domain)
    ensures a == b
  {
    PreimageEmpty(a, domain);
    PreimageEmpty(b, domain);
    if a != [] && b != [] {
      var u, v := Preimage(a[1..], domain), Preimage(b[1..], domain);
      if domain.EventsV1? {
        assert Preimage(a, domain) == a[0].name + [LF] + (a[0].payload + [LF] + u);
        assert Preimage(b, domain) == b[0].name + [LF] + (b[0].payload + [LF] + v);
        FirstLine(a[0].name, a[0].payload + [LF] + u, b[0].name, b[0].payload + [LF] + v);
      } else {
        assert Preimage(a, domain) == a[0].payload + [LF] + u;
        assert Preimage(b, domain) == b[0].payload + [LF] + v;
      }
      FirstLine(a[0].payload, u, b[0].payload, v);
      PreimageDetermines(a[1..], b[1..], domain);
      assert a == [a[0]] + a[1..] && b == [b[0]] + b[1..];
    }
  }

  lemma {:induction false} EventsHaveNoLf(stream: Bytes, offset: nat)
    ensures Events(stream, offset).Some? ==> NoLf(Events(stream, offset).value)
    decreases |stream| - offset
  {
    if offset < |stream| && NextEvent(stream, offset).Some? {
      var f := NextEvent(stream, offset).value;
      DecodedHasNoLf(f.raw);
      EventsHaveNoLf(stream, f.end);
    }
  }

  lemma DataPart<R>(stream: Bytes, c: Claim<R>) returns (es: seq<Event>)
    requires StreamDigest(stream, c).Ok?
    ensures Events(stream, 0) == Some(es) && |es| >= 2 && Hashed(es[..|es| - 2], c.domain)
    ensures StreamDigest(stream, c) == Ok((Preimage(es[..|es| - 2], c.domain), |es| - 2))
  {
    AcceptsParsed(stream, c);
    EventsHaveNoLf(stream, 0);
    es := Events(stream, 0).value;
    WellShapedHashed(es, c);
  }

  /** What every hashed event sequence satisfies. */
  ghost predicate Hashed(data: seq<Event>, domain: Domain)
  {
    NoLf(data) && (domain.DataV1? ==> Unnamed(data)) && (domain.OtherDomain? ==> data == [])
  }

  lemma WellShapedHashed<R>(es: seq<Event>, c: Claim<R>)
    requires WellShaped(es, c) && NoLf(es)
    ensures Hashed(es[..|es| - 2], c.domain)
  {
    var data := es[..|es| - 2];
    forall i | 0 <= i < |data|
      ensures IsData(data[i], c) && LF !in data[i].name && LF !in data[i].payload
    {
      assert data[i] == es[i];
    }
    if data != [] {
      assert IsData(data[0], c);
    }
  }

  /** Two accepted streams with equal preimages in one domain have the same data events, hence the same count. */
  lemma PreimageInjective<R>(s1: Bytes, s2: Bytes, c1: Claim<R>, c2: Claim<R>, preimage: Bytes, m: nat, n: nat)
    requires StreamDigest(s1, c1) == Ok((preimage, m)) && StreamDigest(s2, c2) == Ok((preimage, n))
    requires c1.domain == c2.domain
    ensures m == n && Events(s1, 0).Some? && Events(s2, 0).Some?
    ensures var a, b := Events(s1, 0).value, Events(s2, 0).value;
      |a| == |b| == n + 2 && a[..n] == b[..n]
  {
    var a := DataPart(s1, c1);
    var b := DataPart(s2, c2);
    HashedInjective(a[..|a| - 2], b[..|b| - 2], c1.domain);
  }

  lemma HashedInjective(a: seq<Event>, b: seq<Event>, domain: Domain)
    requires Hashed(a, domain) && Hashed(b, domain) && Preimage(a, domain) == Preimage(b, domain)
    ensures a == b
  {
    if !domain.OtherDomain? {
      PreimageDetermines(a, b, domain);
    }
  }

  // ----- reframing -----

  /** Events printed one after another, each with its own terminator. */
  function PrintAll(es: seq<Event>, ts: seq<Terminator>): Bytes
    requires |es| == |ts|
  {
    if es == [] then [] else Print(es[0], ts[0]) + PrintAll(es[1..], ts[1..])
  }

  ghost predicate AllPrintable(es: seq<Event>)
  {
    forall i :: 0 <= i < |es| ==> Printable(es[i])
  }

  lemma PrintedThen(e: Event, t: Terminator, before: Bytes, after: Bytes, rest: seq<Event>)
    requires Printable(e) && Events(before + Print(e, t) + after, |before + Print(e, t)|) == Some(rest)
    ensures Events(before + Print(e, t) + after, |before|) == Some([e] + rest)
  {
    PrintedFrame(e, t, before, after);
    DecodePrinted(e, t);
  }

  lemma PrintAllFirst(es: seq<Event>, ts: seq<Terminator>, before: Bytes)
    requires |es| == |ts| && es != []
    ensures before + PrintAll(es, ts) == before + Print(es[0], ts[0]) + PrintAll(es[1..], ts[1..])
  {
    Associate(before, Print(es[0], ts[0]), PrintAll(es[1..], ts[1..]));
  }

  lemma {:induction false} PrintAllAfter(es: seq<Event>, ts: seq<Terminator>, before: Bytes, data: Bytes)
    requires |es| == |ts| && AllPrintable(es) && data == before + PrintAll(es, ts)
    ensures Events(data, |before|) == Some(es)
    decreases |es|
  {
    if es != [] {
      var first := Print(es[0], ts[0]);
      PrintAllFirst(es, ts, before);
      PrintAllAfter(es[1..], ts[1..], before + first, data);
      PrintedThen(es[0], ts[0], before, PrintAll(es[1..], ts[1..]), es[1..]);
      assert [es[0]] + es[1..] == es;
    }
  }

  /** Printing any events, with any mix of terminators, and parsing the result gives the same events. */
  lemma ReframingRoundTrip(es: seq<Event>, ts: seq<Terminator>)
    requires |es| == |ts| && AllPrintable(es)
    ensures Events(PrintAll(es, ts), 0) == Some(es)
  {
    assert [] + PrintAll(es, ts) == PrintAll(es, ts);
    PrintAllAfter(es, ts, [], PrintAll(es, ts));
  }

  /** The digest does not see how the stream was framed. */
  lemma ReframingKeepsDigest<R>(es: seq<Event>, ts: seq<Terminator>, us: seq<Terminator>, c: Claim<R>)
    requires |es| == |ts| == |us| && AllPrintable(es)
    ensures StreamDigest(PrintAll(es, ts), c) == StreamDigest(PrintAll(es, us), c)
  {
    ReframingRoundTrip(es, ts);
    ReframingRoundTrip(es, us);
    ScanIsFold(PrintAll(es, ts), 0, FRESH, c);
    ScanIsFold(PrintAll(es, us), 0, FRESH, c);
  }
}
