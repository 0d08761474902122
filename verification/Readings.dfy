/** Reading a string off the choices of a stream, piece by piece, and when cutting one in two changes what is read. */
module Readings {
  import opened Values
  import opened Collector
  import opened Indexed
  import opened Collected
  import opened Alike

  /** A way to read choices off as one string, piece by piece. */
  ghost predicate Reads(read: seq<Fields> -> string)
  {
    forall a: seq<Fields>, b: seq<Fields> :: read(a + b) == read(a) + read(b)
  }

  lemma CancelFront(x: string, u: string, v: string)
    ensures x + u == x + v <==> u == v
  {
    assert (x + u)[|x|..] == u && (x + v)[|x|..] == v;
  }

  lemma CancelAround(before: string, u: string, v: string, after: string)
    ensures before + (u + after) == before + (v + after) <==> u == v
  {
    CancelFront(before, u + after, v + after);
    if u + after == v + after {
      assert |u| == |v| && (u + after)[..|u|] == u && (v + after)[..|v|] == v;
    }
  }

  /** A string cut in two, with another between the halves: the same exactly when that one commutes with the second half. */
  lemma HalvesAgree(x: string, y: string, between: string)
    ensures (x + y) + between == x + (between + y) <==> y + between == between + y
  {
    Associate(x, y, between);
    CancelFront(x, y + between, between + y);
  }

  /** What comes between the halves of a string of a choice: the rest of the choice, and the later choices. */
  function Between(read: seq<Fields> -> string, v: string, later: seq<Fields>): string
  {
    v + read(later)
  }

  /** The string is u, x, y, v in the choice, u, x, v in its first half and y in its second. */
  ghost predicate ReadsCut(read: seq<Fields> -> string, choice: Fields, head: Fields, rest: Fields,
                           u: string, x: string, y: string, v: string)
  {
    read([choice]) == u + ((x + y) + v) && read([head]) == u + (x + v) && read([rest]) == y
  }

  lemma ReadWhole(read: seq<Fields> -> string, choice: Fields, later: seq<Fields>, u: string, xy: string, v: string)
    requires Reads(read) && read([choice]) == u + (xy + v)
    ensures read([choice] + later) == u + (xy + Between(read, v, later))
  {
    Associate(u, xy + v, read(later));
    Associate(xy, v, read(later));
  }

  /** Off the choice and off its halves the same is read, later choices included, exactly when the second half commutes. */
  lemma ReadHalves(read: seq<Fields> -> string, choice: Fields, head: Fields, rest: Fields, later: seq<Fields>,
                   u: string, x: string, y: string, v: string)
    requires Reads(read) && ReadsCut(read, choice, head, rest, u, x, y, v)
    ensures read([choice] + later) == read([head] + later + [rest])
       <==> y + Between(read, v, later) == Between(read, v, later) + y
  {
    var between := Between(read, v, later);
    ReadWhole(read, choice, later, u, x + y, v);
    ReadWhole(read, head, later, u, x, v);
    assert read([head] + later + [rest]) == read([head] + later) + y;
    Associate(u, x + between, y);
    Associate(x, between, y);
    CancelFront(u, (x + y) + between, x + (between + y));
    HalvesAgree(x, y, between);
  }

  lemma ReadWithin(read: seq<Fields> -> string, before: seq<Fields>, start: seq<Fields>, one: seq<Fields>, two: seq<Fields>,
                   after: seq<Fields>)
    requires Reads(read)
    ensures read(before + ((start + one) + after)) == read(before + ((start + two) + after)) <==> read(one) == read(two)
  {
    assert read(before + ((start + one) + after)) == read(before) + (read(start + one) + read(after));
    assert read(before + ((start + two) + after)) == read(before) + (read(start + two) + read(after));
    CancelAround(read(before), read(start + one), read(start + two), read(after));
    CancelFront(read(start), read(one), read(two));
  }

  lemma StreamOf(before: seq<Fields>, xs: seq<Fields>, after: seq<Fields>, i: int, start: seq<Fields>, own: seq<Fields>)
    requires ChoicesFor(xs, i) == start + own
    ensures ChoicesFor(before + xs + after, i) == ChoicesFor(before, i) + ((start + own) + ChoicesFor(after, i))
  {
    ChoicesWithin(before, xs, after, i);
  }

  /** The same for whole streams. */
  lemma ReadStreams(read: seq<Fields> -> string, chunk: Fields, xs: seq<Json>, choice: Fields, ys: seq<Json>, i: int,
                    head: Fields, delta: Fields, before: seq<Fields>, after: seq<Fields>)
    requires Reads(read) && Holds(chunk, xs, choice, ys, i) && IndexOr(head, |xs|) == i
    ensures read(ChoicesFor(before + [chunk] + after, i))
         == read(ChoicesFor(before + CutInTwo(chunk, xs, head, ys, i, delta) + after, i))
       <==> read([choice] + Later(xs, ys, i)) == read([head] + Later(xs, ys, i) + [DeltaChoice(i, delta)])
  {
    var two, later, p := CutInTwo(chunk, xs, head, ys, i, delta), Later(xs, ys, i), ItemsFor(xs, 0, i);
    var one, halves := [choice] + later, [head] + later + [DeltaChoice(i, delta)];
    assert ChoicesFor([chunk], i) == p + one && ChoicesFor(two, i) == p + halves by {
      CutChoices(chunk, xs, choice, ys, i, head, delta, i);
    }
    StreamOf(before, [chunk], after, i, p, one);
    StreamOf(before, two, after, i, p, halves);
    ReadWithin(read, ChoicesFor(before, i), p, one, halves, ChoicesFor(after, i));
  }

  lemma IndexAt(before: seq<Fields>, chunk: Fields, xs: seq<Json>, choice: Fields, ys: seq<Json>, i: int, after: seq<Fields>)
    returns (n: nat)
    requires Holds(chunk, xs, choice, ys, i)
    ensures n < |Indexes(before + [chunk] + after)| && Indexes(before + [chunk] + after)[n] == i
  {
    ChoicesOfOne(chunk, xs + ([JObj(choice)] + ys), i);
    ItemsAround(xs, choice, ys, i);
    TouchedHas(before + [chunk] + after, i);
    ChoicesWithin(before, [chunk], after, i);
    assert i in Indexes(before + [chunk] + after);
    n :| n < |Indexes(before + [chunk] + after)| && Indexes(before + [chunk] + after)[n] == i;
  }
}
