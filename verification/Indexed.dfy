/** Lists of indexed deltas folded into a map of states: the shape choices and tool calls share, whatever one merge does. */
module Indexed {
  import opened Values
  import opened Collector
  import opened CollectorLaws

  type Merge<!S> = (S, Fields) -> Result<S, CollectError>

  function At<S>(m: map<int, S>, i: int, start: S): S
  {
    if i in m then m[i] else start
  }

  function TakeItem<S>(merge: Merge<S>, start: S, m: map<int, S>, item: Json, k: int): Result<map<int, S>, CollectError>
  {
    if !item.JObj? then Err(BadShape)
    else
      var i := IndexOr(item.fields, k);
      match merge(At(m, i, start), item.fields)
      case Err(e) => Err(e)
      case Ok(s) => Ok(m[i := s])
  }

  function TakeItems<S>(merge: Merge<S>, start: S, m: map<int, S>, items: seq<Json>, k: int): Result<map<int, S>, CollectError>
    decreases |items|
  {
    if items == [] then Ok(m)
    else
      match TakeItem(merge, start, m, items[0], k)
      case Err(e) => Err(e)
      case Ok(next) => TakeItems(merge, start, next, items[1..], k + 1)
  }

  // ----- one index at a time -----

  /** A list of deltas merged into one state. */
  function FoldAll<S>(merge: Merge<S>, s: S, list: seq<Fields>): Result<S, CollectError>
    decreases |list|
  {
    if list == [] then Ok(s)
    else match merge(s, list[0]) case Err(e) => Err(e) case Ok(t) => FoldAll(merge, t, list[1..])
  }

  lemma {:induction false} FoldAllConcat<S>(merge: Merge<S>, s: S, a: seq<Fields>, b: seq<Fields>)
    ensures FoldAll(merge, s, a + b)
         == match FoldAll(merge, s, a) case Err(e) => Err(e) case Ok(t) => FoldAll(merge, t, b)
    decreases |a|
  {
    if a == [] {
      assert a + b == b;
    } else {
      assert (a + b)[1..] == a[1..] + b;
      var t := merge(s, a[0]);
      if t.Ok? {
        FoldAllConcat(merge, t.value, a[1..], b);
      }
    }
  }

  /** The items at one index, in order. */
  function ItemsFor(items: seq<Json>, k: int, i: int): seq<Fields>
    decreases |items|
  {
    if items == [] then []
    else
      (if items[0].JObj? && IndexOr(items[0].fields, k) == i then [items[0].fields] else [])
      + ItemsFor(items[1..], k + 1, i)
  }

  lemma {:induction false} ItemsForIff(items: seq<Json>, k: int, i: int)
    ensures ItemsFor(items, k, i) != [] <==> i in IndexesOf(items, k)
    decreases |items|
  {
    if items != [] {
      ItemsForIff(items[1..], k + 1, i);
    }
  }

  /** The state at an index is that index's own items merged in order, and it exists once it had one. */
  lemma {:induction false} TakenAt<S>(merge: Merge<S>, start: S, m: map<int, S>, items: seq<Json>, k: int, i: int)
    requires TakeItems(merge, start, m, items, k).Ok?
    ensures var n := TakeItems(merge, start, m, items, k).value;
      && FoldAll(merge, At(m, i, start), ItemsFor(items, k, i)) == Ok(At(n, i, start))
      && (i in n <==> i in m || ItemsFor(items, k, i) != [])
    decreases |items|
  {
    if items != [] {
      var next := TakeItem(merge, start, m, items[0], k).value;
      TakenAt(merge, start, next, items[1..], k + 1, i);
      var rest := ItemsFor(items[1..], k + 1, i);
      if IndexOr(items[0].fields, k) == i {
        assert ([items[0].fields] + rest)[1..] == rest;
      } else {
        assert [] + rest == rest && At(next, i, start) == At(m, i, start);
      }
    }
  }

  lemma {:induction false} ItemsForConcat(a: seq<Json>, b: seq<Json>, k: int, i: int)
    ensures ItemsFor(a + b, k, i) == ItemsFor(a, k, i) + ItemsFor(b, k + |a|, i)
    decreases |a|
  {
    if a == [] {
      assert a + b == b;
    } else {
      assert (a + b)[1..] == a[1..] + b;
      ItemsForConcat(a[1..], b, k + 1, i);
    }
  }

  lemma OneItemFor(item: Fields, k: int, i: int)
    ensures ItemsFor([JObj(item)], k, i) == if IndexOr(item, k) == i then [item] else []
  {
    assert [JObj(item)][1..] == [];
  }

  /** The items at one index of a list with this item in the middle. */
  lemma ItemsAround(xs: seq<Json>, item: Fields, ys: seq<Json>, i: int)
    ensures ItemsFor(xs + ([JObj(item)] + ys), 0, i)
         == ItemsFor(xs, 0, i) + ((if IndexOr(item, |xs|) == i then [item] else []) + ItemsFor(ys, |xs| + 1, i))
  {
    ItemsForConcat(xs, [JObj(item)] + ys, 0, i);
    ItemsForConcat([JObj(item)], ys, |xs|, i);
    OneItemFor(item, |xs|, i);
  }

  /** Every item says which index it is for, so its position does not matter. */
  predicate Explicit(items: seq<Json>)
  {
    forall i :: 0 <= i < |items| && items[i].JObj? ==>
      Get(items[i].fields, "index").JInt? || Get(items[i].fields, "index").JBool?
  }

  lemma {:induction false} ExplicitShifts(items: seq<Json>, k: int, l: int, i: int)
    requires Explicit(items)
    ensures ItemsFor(items, k, i) == ItemsFor(items, l, i)
    decreases |items|
  {
    if items != [] {
      ExplicitShifts(items[1..], k + 1, l + 1, i);
    }
  }
}
