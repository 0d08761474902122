/** ReceiptCapture: raw chunks kept exactly, and the receipt found by re-parsing everything after each chunk. */
module Capture {
  import opened Values
  import opened Framing
  import opened Grammar
  import opened Digest

  /** The receipt a raw frame carries, if it decodes and embeds one. */
  function ReceiptIn<R>(raw: Bytes, embedded: Bytes -> Embedded<R>): Option<R>
  {
    match Decode(raw)
    case Err(_) => None
    case Ok(e) => if embedded(e.payload).Receipt? then Some(embedded(e.payload).receipt) else None
  }

  /** Walk the complete frames from `offset`, keeping the latest receipt. */
  function Walk<R>(data: Bytes, offset: nat, sofar: Option<R>, embedded: Bytes -> Embedded<R>): Option<R>
    decreases |data| - offset
  {
    if offset >= |data| then sofar
    else
      match NextEvent(data, offset)
      case None => sofar
      case Some(f) =>
        var r := ReceiptIn(f.raw, embedded);
        Walk(data, f.end, if r.Some? then r else sofar, embedded)
  }

  /** The last embedded receipt in a one-shot parse. */
  function LastReceipt<R>(data: Bytes, embedded: Bytes -> Embedded<R>): Option<R>
  {
    Walk(data, 0, None, embedded)
  }

  lemma {:induction false} WalkOverrides<R>(data: Bytes, offset: nat, sofar: Option<R>, embedded: Bytes -> Embedded<R>)
    ensures Walk(data, offset, sofar, embedded)
         == if Walk(data, offset, None, embedded).Some? then Walk(data, offset, None, embedded) else sofar
    decreases |data| - offset
  {
    if offset < |data| && NextEvent(data, offset).Some? {
      var f := NextEvent(data, offset).value;
      var r := ReceiptIn(f.raw, embedded);
      WalkOverrides(data, f.end, if r.Some? then r else sofar, embedded);
      WalkOverrides(data, f.end, r, embedded);
    }
  }

  /** A receipt seen in a prefix is never unseen. */
  lemma {:induction false} ExtensionKeepsReceipt<R>(data: Bytes, more: Bytes, offset: nat, embedded: Bytes -> Embedded<R>)
    ensures Walk(data, offset, None, embedded).Some? ==> Walk(data + more, offset, None, embedded).Some?
    decreases |data| - offset
  {
    if offset < |data| && NextEvent(data, offset).Some? {
      FirstTerminatorStable(data, more, offset);
      var f := NextEvent(data, offset).value;
      var r := ReceiptIn(f.raw, embedded);
      ExtensionKeepsReceipt(data, more, f.end, embedded);
      WalkOverrides(data, f.end, r, embedded);
      WalkOverrides(data + more, f.end, r, embedded);
    }
  }

  /** Re-parsing after one more chunk, starting from the receipt known so far, equals the one-shot parse. */
  lemma RefreshIsOneShot<R>(data: Bytes, chunk: Bytes, embedded: Bytes -> Embedded<R>)
    ensures Walk(data + chunk, 0, LastReceipt(data, embedded), embedded) == LastReceipt(data + chunk, embedded)
  {
    WalkOverrides(data + chunk, 0, LastReceipt(data, embedded), embedded);
    ExtensionKeepsReceipt(data, chunk, 0, embedded);
  }

  // ----- which receipt -----

  /** The complete frames from `offset`, each ended by its first terminator; what is left over is not looked at. */
  function RawFrames(data: Bytes, offset: nat): seq<Bytes>
    decreases |data| - offset
  {
    if offset >= |data| then []
    else match NextEvent(data, offset) case None => [] case Some(f) => [f.raw] + RawFrames(data, f.end)
  }

  /** The bytes are a frame whose payload embeds this receipt. */
  ghost predicate Embeds<R>(raw: Bytes, receipt: R, embedded: Bytes -> Embedded<R>)
  {
    exists e: Event :: IsFrame(raw, e) && embedded(e.payload) == Receipt(receipt)
  }

  /** They are a frame whose payload embeds some receipt. */
  ghost predicate EmbedsSome<R>(raw: Bytes, embedded: Bytes -> Embedded<R>)
  {
    exists e: Event :: IsFrame(raw, e) && embedded(e.payload).Receipt?
  }

  lemma ReceiptIff<R>(raw: Bytes, embedded: Bytes -> Embedded<R>)
    ensures ReceiptIn(raw, embedded).Some? <==> EmbedsSome(raw, embedded)
    ensures ReceiptIn(raw, embedded).Some? ==> Embeds(raw, ReceiptIn(raw, embedded).value, embedded)
  {
    if Decode(raw).Ok? {
      FrameIff(raw, Decode(raw).value);
    }
    if EmbedsSome(raw, embedded) {
      var e: Event :| IsFrame(raw, e) && embedded(e.payload).Receipt?;
      FrameIff(raw, e);
    }
  }

  ghost predicate NoneEmbeds<R>(raws: seq<Bytes>, embedded: Bytes -> Embedded<R>)
  {
    forall k :: 0 <= k < |raws| ==> !EmbedsSome(raws[k], embedded)
  }

  /** This is the receipt of frame i, and no frame after it has one. */
  ghost predicate LastAt<R>(raws: seq<Bytes>, i: nat, receipt: R, embedded: Bytes -> Embedded<R>)
  {
    i < |raws| && Embeds(raws[i], receipt, embedded) && NoneEmbeds(raws[i + 1..], embedded)
  }

  /** A walk ends with the receipt of the last frame that embeds one, or with what it began with when none does. */
  lemma {:induction false} WalkIs<R>(data: Bytes, offset: nat, sofar: Option<R>, embedded: Bytes -> Embedded<R>)
    ensures var raws, receipt := RawFrames(data, offset), Walk(data, offset, sofar, embedded);
      if NoneEmbeds(raws, embedded) then receipt == sofar
      else receipt.Some? && exists i: nat :: LastAt(raws, i, receipt.value, embedded)
    decreases |data| - offset
  {
    if offset < |data| && NextEvent(data, offset).Some? {
      var f := NextEvent(data, offset).value;
      var first := ReceiptIn(f.raw, embedded);
      var rest := RawFrames(data, f.end);
      WalkIs(data, f.end, if first.Some? then first else sofar, embedded);
      ReceiptIff(f.raw, embedded);
      WalkStep(f.raw, rest, first, Walk(data, offset, sofar, embedded), sofar, embedded);
    }
  }

  lemma WalkStep<R>(raw: Bytes, rest: seq<Bytes>, first: Option<R>, receipt: Option<R>, sofar: Option<R>,
                    embedded: Bytes -> Embedded<R>)
    requires first.Some? <==> EmbedsSome(raw, embedded)
    requires first.Some? ==> Embeds(raw, first.value, embedded)
    requires if NoneEmbeds(rest, embedded) then receipt == (if first.Some? then first else sofar)
             else receipt.Some? && exists i: nat :: LastAt(rest, i, receipt.value, embedded)
    ensures if NoneEmbeds([raw] + rest, embedded) then receipt == sofar
            else receipt.Some? && exists i: nat :: LastAt([raw] + rest, i, receipt.value, embedded)
  {
    var raws := [raw] + rest;
    assert raws[0] == raw && raws[1..] == rest;
    assert forall k :: 0 <= k < |rest| ==> raws[k + 1] == rest[k];
    assert NoneEmbeds(raws, embedded) <==> first.None? && NoneEmbeds(rest, embedded);
    if !NoneEmbeds(rest, embedded) {
      var i: nat :| LastAt(rest, i, receipt.value, embedded);
      assert raws[i + 1 + 1..] == rest[i + 1..];
      assert LastAt(raws, i + 1, receipt.value, embedded);
    } else if first.Some? {
      assert LastAt(raws, 0, first.value, embedded);
    }
  }

  class ReceiptCapture<R> {
    const embedded: Bytes -> Embedded<R>
    var wire: Bytes
    var receipt: Option<R>

    ghost predicate Valid()
      reads this
    {
      receipt == LastReceipt(wire, embedded)
    }

    constructor (embedded: Bytes -> Embedded<R>)
      ensures this.embedded == embedded && wire == [] && Valid()
    {
      this.embedded := embedded;
      wire, receipt := [], None;
    }

    /** __next__ on one chunk of the source. */
    method Next(chunk: Bytes)
      requires Valid()
      modifies this
      ensures wire == old(wire) + chunk && Valid()
    {
      RefreshIsOneShot(wire, chunk, embedded);
      wire := wire + chunk;
      RefreshReceipt();
    }

    /** _refresh_receipt */
    method RefreshReceipt()
      modifies `receipt
      ensures receipt == Walk(wire, 0, old(receipt), embedded)
    {
      var offset := 0;
      while offset < |wire|
        invariant 0 <= offset
        invariant Walk(wire, 0, old(receipt), embedded) == Walk(wire, offset, receipt, embedded)
        decreases |wire| - offset
      {
        var found := NextEvent(wire, offset);
        if found.None? {
          return;
        }
        offset := found.value.end;
        var event := DecodeEvent(found.value.raw);
        if event.Err? || embedded(event.value.payload).Malformed? {
          continue;
        }
        if embedded(event.value.payload).Receipt? {
          receipt := Some(embedded(event.value.payload).receipt);
        }
      }
    }

    /** Iterating the capture to the end of its source. */
    method Drain(chunks: seq<Bytes>)
      requires Valid()
      modifies this
      ensures wire == old(wire) + Joined(chunks)
      ensures receipt == LastReceipt(wire, embedded) && Valid()
    {
      ghost var whole := wire + Joined(chunks);
      for i := 0 to |chunks|
        invariant Valid() && wire + Joined(chunks[i..]) == whole
      {
        JoinedFirst(wire, chunks, i);
        Next(chunks[i]);
      }
      assert wire + [] == wire;
    }
  }

  function Joined(chunks: seq<Bytes>): Bytes
  {
    if chunks == [] then [] else chunks[0] + Joined(chunks[1..])
  }

  lemma JoinedFirst(wire: Bytes, chunks: seq<Bytes>, i: nat)
    requires i < |chunks|
    ensures wire + Joined(chunks[i..]) == (wire + chunks[i]) + Joined(chunks[i + 1..])
  {
    assert chunks[i..][1..] == chunks[i + 1..];
  }

  /** The capture's incremental algorithm on values: the receipt after each chunk, re-parsed over all bytes so far. */
  function Feed<R>(wire: Bytes, receipt: Option<R>, chunks: seq<Bytes>, embedded: Bytes -> Embedded<R>): (Bytes, Option<R>)
    decreases |chunks|
  {
    if chunks == [] then (wire, receipt)
    else Feed(wire + chunks[0], Walk(wire + chunks[0], 0, receipt, embedded), chunks[1..], embedded)
  }

  lemma {:induction false} FeedIsOneShot<R>(wire: Bytes, chunks: seq<Bytes>, embedded: Bytes -> Embedded<R>)
    ensures Feed(wire, LastReceipt(wire, embedded), chunks, embedded)
         == (wire + Joined(chunks), LastReceipt(wire + Joined(chunks), embedded))
    decreases |chunks|
  {
    if chunks == [] {
      assert wire + [] == wire;
    } else {
      RefreshIsOneShot(wire, chunks[0], embedded);
      FeedIsOneShot(wire + chunks[0], chunks[1..], embedded);
      JoinedFirst(wire, chunks, 0);
      assert chunks[0..] == chunks;
    }
  }

  /** However the same bytes are cut into chunks, the capture ends with the same bytes and the same receipt. */
  lemma ChunkIndependent<R>(chunks: seq<Bytes>, others: seq<Bytes>, embedded: Bytes -> Embedded<R>)
    requires Joined(chunks) == Joined(others)
    ensures Feed([], None, chunks, embedded) == Feed([], None, others, embedded)
  {
    FeedIsOneShot([], chunks, embedded);
    FeedIsOneShot([], others, embedded);
  }

  lemma {:induction false} WalkReads<R>(stream: Bytes, offset: nat, sofar: Option<R>, embedded: Bytes -> Embedded<R>)
    requires Events(stream, offset).Some?
    ensures Walk(stream, offset, sofar, embedded) == LatestOf(Events(stream, offset).value, sofar, embedded)
    decreases |stream| - offset
  {
    if offset < |stream| {
      var f := NextEvent(stream, offset).value;
      var e, rest := Decode(f.raw).value, Events(stream, f.end).value;
      var r := ReceiptIn(f.raw, embedded);
      WalkReads(stream, f.end, if r.Some? then r else sofar, embedded);
      assert ([e] + rest)[1..] == rest;
    }
  }

  function LatestOf<R>(es: seq<Event>, sofar: Option<R>, embedded: Bytes -> Embedded<R>): Option<R>
    decreases |es|
  {
    if es == [] then sofar
    else LatestOf(es[1..], if embedded(es[0].payload).Receipt? then Some(embedded(es[0].payload).receipt) else sofar, embedded)
  }

  lemma {:induction false} LatestOfShaped<R>(es: seq<Event>, sofar: Option<R>, c: Claim<R>)
    requires WellShaped(es, c) && !c.embedded(DONE).Receipt?
    ensures LatestOf(es, sofar, c.embedded) == c.expected
    decreases |es|
  {
    if |es| == 2 {
      var r := Some(c.embedded(es[0].payload).receipt);
      assert LatestOf(es[1..][1..], r, c.embedded) == r;
      assert LatestOf(es[1..], r, c.embedded) == r;
    } else {
      DataFirst(es, c);
      LatestOfShaped(es[1..], sofar, c);
    }
  }

  /** Capture and digest agree: from a stream the digest accepts, the capture holds exactly the receipt expected. */
  lemma CapturedIsExpected<R>(stream: Bytes, c: Claim<R>)
    requires StreamDigest(stream, c).Ok? && !c.embedded(DONE).Receipt?
    ensures LastReceipt(stream, c.embedded) == c.expected
  {
    AcceptsParsed(stream, c);
    WalkReads(stream, 0, None, c.embedded);
    LatestOfShaped(Events(stream, 0).value, None, c);
  }
}
