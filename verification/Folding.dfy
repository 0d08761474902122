/** Where an increment lands when the table is full, read off the rows of the table, and which sums that leaves exact. */
module Folding {
  import opened Values
  import opened Counters

  // ----- the row written -----

  /** Equal in everything but the error class. */
  predicate SameButError(a: Key, k: Key)
  {
    a.(errorClass := None) == k.(errorClass := None)
  }

  /** Equal in everything but the error class and the endpoint. */
  predicate SameButEndpoint(a: Key, k: Key)
  {
    a.(endpoint := "", errorClass := None) == k.(endpoint := "", errorClass := None)
  }

  predicate SomeSameButError(t: Table, k: Key)
  {
    exists i :: 0 <= i < |t| && SameButError(t[i].key, k)
  }

  predicate SomeSameButEndpoint(t: Table, k: Key)
  {
    exists i :: 0 <= i < |t| && SameButEndpoint(t[i].key, k)
  }

  /**
    The row written. A key in the table, or one there is room for, keeps everything. In a full table an absent key loses
    its error class if some row differs from it in no more than that, so it keeps its endpoint; else it loses its
    endpoint too if some row differs in no more than both; and only without such a row does it go to the first one.
   */
  lemma TargetIs(t: Table, k: Key)
    ensures HasKey(t, k) || |t| < 256 ==> TargetKey(t, k) == k
    ensures !HasKey(t, k) && |t| >= 256 ==>
      TargetKey(t, k)
      == if SomeSameButError(t, k) then k.(errorClass := Some("unknown"))
         else if SomeSameButEndpoint(t, k) then k.(endpoint := "inference_other", errorClass := Some("unknown"))
         else t[0].key
  {
    if !HasKey(t, k) && |t| >= 256 {
      if SomeSameButError(t, k) {
        var i :| 0 <= i < |t| && SameButError(t[i].key, k);
        assert Compatible(t[i].key, k, false);
      }
      if SomeSameButEndpoint(t, k) {
        var i :| 0 <= i < |t| && SameButEndpoint(t[i].key, k);
        assert Compatible(t[i].key, k, true);
      }
      match Place(t, k) {
        case ErrorFolded => assert SameButError(t[IndexOf(t, Fold(k, false))].key, k);
        case FoldError(n) => assert SameButError(t[n].key, k);
        case EndpointFolded => assert SameButEndpoint(t[IndexOf(t, Fold(k, true))].key, k);
        case FoldEndpoint(n) => assert SameButEndpoint(t[n].key, k);
        case _ =>
      }
    }
  }

  // ----- the whole table afterwards -----

  function Keys(t: Table): seq<Key>
  {
    seq(|t|, i requires 0 <= i < |t| => t[i].key)
  }

  /** What the table says under a key: nothing is zero. */
  function CountAt(t: Table, k: Key, c: Cell): nat
  {
    if HasKey(t, k) then Count(t[IndexOf(t, k)].row, c) else 0
  }

  /** The first row that may be folded to make room for this key. */
  predicate FoldsFirst(t: Table, k: Key, n: nat)
  {
    && n < |t|
    && (if SomeSameButError(t, k) then SameButError(t[n].key, k) else SameButEndpoint(t[n].key, k))
    && forall i :: 0 <= i < n ==>
         !(if SomeSameButError(t, k) then SameButError(t[i].key, k) else SameButEndpoint(t[i].key, k))
  }

  /** The counts after an increment under `target`, when row `n` was first folded into it. */
  predicate FoldedAt(t: Table, u: Table, n: nat, target: Key, worth: Row, q: Key, c: Cell)
    requires n < |t|
  {
    CountAt(u, q, c)
    == if q == target then Clamp(Count(t[n].row, c), 0, 10_000_000) + Count(worth, c)
       else if q == t[n].key then 0 else CountAt(t, q, c)
  }

  /** The counts after an increment under `target`, when no row was folded. */
  predicate AddedAt(t: Table, u: Table, target: Key, worth: Row, q: Key, c: Cell)
  {
    CountAt(u, q, c) == CountAt(t, q, c) + (if q == target then Count(worth, c) else 0)
  }

  lemma CountOf(t: Table, n: nat, c: Cell)
    requires DistinctKeys(t) && n < |t|
    ensures IndexOf(t, t[n].key) == n && CountAt(t, t[n].key, c) == Count(t[n].row, c)
  {
  }

  lemma AddAtCounts(t: Table, k: Key, inc: RawIncrement, p: Parser, q: Key, c: Cell)
    requires DistinctKeys(t)
    ensures AddedAt(t, AddAt(t, k, inc, p), k, Clamped(inc, p), q, c)
  {
    AddAtValid(t, k, inc, p);
    var u, n := AddAt(t, k, inc, p), IndexOf(t, k);
    if n < |t| {
      MergeAdds(t[n].row, inc, p, c);
    }
    if HasKey(t, q) {
      var i := IndexOf(t, q);
      assert u[i].key == q;
      CountOf(u, i, c);
    } else if q == k {
      assert u[|t|].key == k;
      CountOf(u, |t|, c);
    }
  }

  lemma AddAtKeys(t: Table, k: Key, inc: RawIncrement, p: Parser)
    ensures Keys(AddAt(t, k, inc, p)) == if HasKey(t, k) then Keys(t) else Keys(t) + [k]
  {
  }

  lemma FoldEntryCounts(t: Table, n: nat, endpoint: bool, p: Parser, q: Key, c: Cell)
    requires n < |t| && DistinctKeys(t) && !HasKey(t, Fold(t[n].key, endpoint))
    ensures FoldedAt(t, FoldEntry(t, n, endpoint, p), n, Fold(t[n].key, endpoint), ZERO, q, c)
  {
    FoldEntryValid(t, n, endpoint, p);
    RefoldLosesExcess(t[n].row, p, c);
    var u, target := FoldEntry(t, n, endpoint, p), Fold(t[n].key, endpoint);
    if q == target {
      CountOf(u, |t| - 1, c);
    } else if q != t[n].key && HasKey(t, q) {
      var i := IndexOf(t, q);
      assert u[if i < n then i else i - 1] == t[i];
      CountOf(u, if i < n then i else i - 1, c);
    }
  }

  lemma FoldEntryKeys(t: Table, n: nat, endpoint: bool, p: Parser)
    requires n < |t|
    ensures Keys(FoldEntry(t, n, endpoint, p)) == Keys(t)[..n] + Keys(t)[n + 1..] + [Fold(t[n].key, endpoint)]
  {
  }

  /** The first row that can be folded is the one the source finds, and its folded key is the target. */
  lemma FoldedIsFirst(t: Table, k: Key)
    requires Place(t, k).FoldError? || Place(t, k).FoldEndpoint?
    ensures FoldsFirst(t, k, Place(t, k).at)
    ensures TargetKey(t, k) == Fold(t[Place(t, k).at].key, Place(t, k).FoldEndpoint?) && !HasKey(t, TargetKey(t, k))
  {
    var n, endpoint := Place(t, k).at, Place(t, k).FoldEndpoint?;
    FoldedCompatibleIsFoldedKey(t[n].key, k, endpoint);
    forall i | 0 <= i < |t|
      ensures SameButError(t[i].key, k) <==> Compatible(t[i].key, k, false)
      ensures SameButEndpoint(t[i].key, k) <==> Compatible(t[i].key, k, true)
    {
    }
    assert SomeSameButError(t, k) <==> !endpoint;
  }

  lemma NothingFolded(t: Table, k: Key)
    requires !Place(t, k).FoldError? && !Place(t, k).FoldEndpoint?
    ensures HasKey(t, TargetKey(t, k)) || |t| < 256
  {
    if Place(t, k).LastResort? {
      assert t[0].key == TargetKey(t, k);
    }
  }

  /** A target that is there, or for which there is room, gets the increment, at the end if it is new. */
  lemma AccumulatedInPlace(t: Table, k: Key, inc: RawIncrement, p: Parser)
    requires ValidTable(t) && (HasKey(t, TargetKey(t, k)) || |t| < 256)
    ensures var u, target := Accumulate(t, k, inc, p), TargetKey(t, k);
      && Keys(u) == (if HasKey(t, target) then Keys(t) else Keys(t) + [target])
      && forall q: Key, c: Cell :: AddedAt(t, u, target, Clamped(inc, p), q, c)
  {
    if Place(t, k).FoldError? || Place(t, k).FoldEndpoint? {
      FoldedIsFirst(t, k);
    }
    var target := TargetKey(t, k);
    AddAtKeys(t, target, inc, p);
    forall q: Key, c: Cell ensures AddedAt(t, AddAt(t, target, inc, p), target, Clamped(inc, p), q, c) {
      AddAtCounts(t, target, inc, p, q, c);
    }
  }

  lemma FoldedThenAdded(t: Table, n: nat, endpoint: bool, inc: RawIncrement, p: Parser, q: Key, c: Cell)
    requires n < |t| && DistinctKeys(t) && !HasKey(t, Fold(t[n].key, endpoint))
    ensures var target := Fold(t[n].key, endpoint);
      FoldedAt(t, AddAt(FoldEntry(t, n, endpoint, p), target, inc, p), n, target, Clamped(inc, p), q, c)
  {
    var folded, target := FoldEntry(t, n, endpoint, p), Fold(t[n].key, endpoint);
    FoldEntryValid(t, n, endpoint, p);
    FoldEntryCounts(t, n, endpoint, p, q, c);
    AddAtCounts(folded, target, inc, p, q, c);
  }

  /** Otherwise the first row that can be folded leaves its place, and what it held goes to the target at the end. */
  lemma AccumulatedFolding(t: Table, k: Key, inc: RawIncrement, p: Parser) returns (n: nat)
    requires ValidTable(t) && !HasKey(t, TargetKey(t, k)) && |t| >= 256
    ensures FoldsFirst(t, k, n)
    ensures var u, target := Accumulate(t, k, inc, p), TargetKey(t, k);
      && Keys(u) == Keys(t)[..n] + Keys(t)[n + 1..] + [target]
      && forall q: Key, c: Cell :: FoldedAt(t, u, n, target, Clamped(inc, p), q, c)
  {
    if !Place(t, k).FoldError? && !Place(t, k).FoldEndpoint? {
      NothingFolded(t, k);
    }
    FoldedIsFirst(t, k);
    n := Place(t, k).at;
    var endpoint, target := Place(t, k).FoldEndpoint?, TargetKey(t, k);
    var folded := FoldEntry(t, n, endpoint, p);
    FoldEntryValid(t, n, endpoint, p);
    FoldEntryKeys(t, n, endpoint, p);
    AddAtKeys(folded, target, inc, p);
    forall q: Key, c: Cell ensures FoldedAt(t, AddAt(folded, target, inc, p), n, target, Clamped(inc, p), q, c) {
      FoldedThenAdded(t, n, endpoint, inc, p, q, c);
    }
  }

  // ----- sums that keep the endpoint -----

  /** The rows that are under this key up to the error class. */
  function AlikeRows(t: Table, k: Key): Table
  {
    if t == [] then [] else (if SameButError(t[0].key, k) then [t[0]] else []) + AlikeRows(t[1..], k)
  }

  /** The sum over those rows: a group by every dimension except the error class. */
  function SumAlike(t: Table, c: Cell, k: Key): nat
  {
    Sum(AlikeRows(t, k), c, None)
  }

  lemma {:induction false} AlikeRowsConcat(a: Table, b: Table, k: Key)
    ensures AlikeRows(a + b, k) == AlikeRows(a, k) + AlikeRows(b, k)
  {
    if a == [] {
      assert a + b == b;
    } else {
      assert (a + b)[1..] == a[1..] + b;
      AlikeRowsConcat(a[1..], b, k);
    }
  }

  lemma SumAlikeConcat(a: Table, b: Table, c: Cell, k: Key)
    ensures SumAlike(a + b, c, k) == SumAlike(a, c, k) + SumAlike(b, c, k)
  {
    AlikeRowsConcat(a, b, k);
    SumConcat(AlikeRows(a, k), AlikeRows(b, k), c, None);
  }

  function PartAlike(e: Entry, c: Cell, k: Key): nat
  {
    if SameButError(e.key, k) then Count(e.row, c) else 0
  }

  lemma SumAlikeOne(e: Entry, c: Cell, k: Key)
    ensures SumAlike([e], c, k) == PartAlike(e, c, k)
  {
    assert [e][1..] == [];
    assert AlikeRows([e], k) == if SameButError(e.key, k) then [e] else [];
    SumOne(e, c, None);
  }

  lemma SumAlikeSplit(t: Table, n: nat, c: Cell, k: Key)
    requires n < |t|
    ensures SumAlike(t, c, k) == SumAlike(t[..n], c, k) + PartAlike(t[n], c, k) + SumAlike(t[n + 1..], c, k)
  {
    SplitAt(t, n);
    SumAlikeConcat(t[..n] + [t[n]], t[n + 1..], c, k);
    SumAlikeConcat(t[..n], [t[n]], c, k);
    SumAlikeOne(t[n], c, k);
  }

  lemma SumAlikeFoldEntry(t: Table, n: nat, endpoint: bool, p: Parser, c: Cell, k: Key)
    requires n < |t|
    ensures SumAlike(FoldEntry(t, n, endpoint, p), c, k) + PartAlike(t[n], c, k)
         == SumAlike(t, c, k)
            + (if SameButError(Fold(t[n].key, endpoint), k) then Clamp(Count(t[n].row, c), 0, 10_000_000) else 0)
  {
    var e := Entry(Fold(t[n].key, endpoint), Refold(t[n].row, p));
    SumAlikeSplit(t, n, c, k);
    SumAlikeConcat(t[..n] + t[n + 1..], [e], c, k);
    SumAlikeConcat(t[..n], t[n + 1..], c, k);
    SumAlikeOne(e, c, k);
    RefoldLosesExcess(t[n].row, p, c);
  }

  lemma SumAlikeAddAt(t: Table, k: Key, inc: RawIncrement, p: Parser, c: Cell, g: Key)
    ensures SumAlike(AddAt(t, k, inc, p), c, g)
         == SumAlike(t, c, g) + (if SameButError(k, g) then Count(Clamped(inc, p), c) else 0)
  {
    var n := IndexOf(t, k);
    if n < |t| {
      var e := Entry(k, MergeIncrement(t[n].row, inc, p));
      MergeAdds(t[n].row, inc, p, c);
      SumAlikeSplit(t, n, c, g);
      SumAlikeSplit(t[n := e], n, c, g);
      assert t[n := e][..n] == t[..n] && t[n := e][n + 1..] == t[n + 1..];
    } else {
      var e := Entry(k, MergeIncrement(ZERO, inc, p));
      SumAlikeConcat(t, [e], c, g);
      SumAlikeOne(e, c, g);
    }
  }

  /** Every sum that keeps the endpoint grows by the clamped increment if it is the key's own, and not at all otherwise. */
  predicate EndpointExactAt(t: Table, k: Key, inc: RawIncrement, p: Parser, c: Cell, g: Key)
  {
    SumAlike(Accumulate(t, k, inc, p), c, g)
    == SumAlike(t, c, g) + (if SameButError(k, g) then Count(Clamped(inc, p), c) else 0)
  }

  ghost predicate CellExact(t: Table, k: Key, inc: RawIncrement, p: Parser, c: Cell)
  {
    forall g: Key :: EndpointExactAt(t, k, inc, p, c, g)
  }

  ghost predicate EndpointExact(t: Table, k: Key, inc: RawIncrement, p: Parser)
  {
    forall c: Cell :: CellExact(t, k, inc, p, c)
  }

  /** Whether this increment makes room by folding a row. */
  predicate MakesRoom(t: Table, k: Key)
  {
    |t| >= 256 && !HasKey(t, TargetKey(t, k))
  }

  /** The exact effect of one accepted counter on every sum that keeps the endpoint. */
  lemma AlikeSums(t: Table, k: Key, inc: RawIncrement, p: Parser, c: Cell, g: Key, n: nat)
    requires MakesRoom(t, k) ==> FoldsFirst(t, k, n)
    ensures SumAlike(Accumulate(t, k, inc, p), c, g) + (if MakesRoom(t, k) then PartAlike(t[n], c, g) else 0)
         == SumAlike(t, c, g)
            + (if SameButError(TargetKey(t, k), g) then
                 (if MakesRoom(t, k) then Clamp(Count(t[n].row, c), 0, 10_000_000) else 0) + Count(Clamped(inc, p), c)
               else 0)
  {
    SumAlikeAddAt(Retarget(t, k, p), TargetKey(t, k), inc, p, c, g);
    if Place(t, k).FoldError? || Place(t, k).FoldEndpoint? {
      FoldedIsFirst(t, k);
      assert n == Place(t, k).at;
      SumAlikeFoldEntry(t, n, Place(t, k).FoldEndpoint?, p, c, g);
    } else {
      NothingFolded(t, k);
    }
  }

  /** Row `n`, folded to make room, holds nothing under this cell that its group would miss. */
  predicate FitsAt(t: Table, k: Key, n: nat, c: Cell)
  {
    MakesRoom(t, k) && FoldsFirst(t, k, n) ==>
      Count(t[n].row, c) <= (if SameButError(t[n].key, TargetKey(t, k)) then 10_000_000 else 0)
  }

  ghost predicate FoldedFits(t: Table, k: Key)
  {
    forall n: nat, c: Cell :: FitsAt(t, k, n, c)
  }

  /** The increment stays at its own endpoint, or adds nothing under this cell. */
  predicate StaysAt(t: Table, k: Key, inc: RawIncrement, p: Parser, c: Cell)
  {
    SameButError(TargetKey(t, k), k) || Count(Clamped(inc, p), c) == 0
  }

  /** A group's sum moves as it should when `worth` goes to `target` and, to make room, `held` moves there from `was`. */
  predicate Balanced(target: Key, k: Key, room: bool, was: Key, held: nat, worth: nat, g: Key)
  {
    (if SameButError(target, g) then (if room then Clamp(held, 0, 10_000_000) else 0) + worth else 0)
    == (if room && SameButError(was, g) then held else 0) + (if SameButError(k, g) then worth else 0)
  }

  lemma BalancedIff(target: Key, k: Key, room: bool, was: Key, held: nat, worth: nat)
    ensures (forall g: Key :: Balanced(target, k, room, was, held, worth, g))
       <==> && (SameButError(target, k) || worth == 0)
            && (room ==> held <= (if SameButError(was, target) then 10_000_000 else 0))
  {
    if forall g: Key :: Balanced(target, k, room, was, held, worth, g) {
      assert Balanced(target, k, room, was, held, worth, k) && Balanced(target, k, room, was, held, worth, was);
    }
  }

  lemma CellExactIff(t: Table, k: Key, inc: RawIncrement, p: Parser, c: Cell, n: nat)
    requires MakesRoom(t, k) ==> FoldsFirst(t, k, n)
    ensures CellExact(t, k, inc, p, c) <==> StaysAt(t, k, inc, p, c) && FitsAt(t, k, n, c)
  {
    if MakesRoom(t, k) {
      ExactIsBalanced(t, k, inc, p, c, n, TargetKey(t, k), true, t[n].key, Count(t[n].row, c));
      BalancedIff(TargetKey(t, k), k, true, t[n].key, Count(t[n].row, c), Count(Clamped(inc, p), c));
    } else {
      ExactIsBalanced(t, k, inc, p, c, n, TargetKey(t, k), false, k, 0);
      BalancedIff(TargetKey(t, k), k, false, k, 0, Count(Clamped(inc, p), c));
    }
  }

  lemma ExactIsBalanced(t: Table, k: Key, inc: RawIncrement, p: Parser, c: Cell, n: nat,
                        target: Key, room: bool, was: Key, held: nat)
    requires (MakesRoom(t, k) ==> FoldsFirst(t, k, n)) && target == TargetKey(t, k) && room == MakesRoom(t, k)
    requires room ==> was == t[n].key && held == Count(t[n].row, c)
    ensures CellExact(t, k, inc, p, c)
       <==> forall g: Key :: Balanced(target, k, room, was, held, Count(Clamped(inc, p), c), g)
  {
    forall g: Key
      ensures EndpointExactAt(t, k, inc, p, c, g)
         <==> Balanced(target, k, room, was, held, Count(Clamped(inc, p), c), g)
    {
      AlikeSums(t, k, inc, p, c, g, n);
    }
  }

  lemma RoomMade(t: Table, k: Key) returns (n: nat)
    ensures MakesRoom(t, k) ==> FoldsFirst(t, k, n)
    ensures forall m: nat, c: Cell :: FitsAt(t, k, n, c) ==> FitsAt(t, k, m, c)
  {
    n := 0;
    if MakesRoom(t, k) {
      if !Place(t, k).FoldError? && !Place(t, k).FoldEndpoint? {
        NothingFolded(t, k);
      }
      FoldedIsFirst(t, k);
      n := Place(t, k).at;
      assert forall m: nat :: FoldsFirst(t, k, m) ==> m == n;
    }
  }

  /**
    Exactly when the sums by everything but the error class survive: the increment stays at its own endpoint or adds
    nothing, and a row folded to make room is within the clamp if it stays at its endpoint, and empty if it does not.
   */
  lemma EndpointExactIff(t: Table, k: Key, inc: RawIncrement, p: Parser)
    ensures EndpointExact(t, k, inc, p)
       <==> (SameButError(TargetKey(t, k), k) || Blank(inc, p)) && FoldedFits(t, k)
  {
    var n := RoomMade(t, k);
    forall c: Cell ensures CellExact(t, k, inc, p, c) <==> StaysAt(t, k, inc, p, c) && FitsAt(t, k, n, c) {
      CellExactIff(t, k, inc, p, c, n);
    }
    assert FoldedFits(t, k) <==> forall c: Cell :: FitsAt(t, k, n, c);
    assert (SameButError(TargetKey(t, k), k) || Blank(inc, p)) <==> forall c: Cell :: StaysAt(t, k, inc, p, c) by {
      if forall c: Cell :: StaysAt(t, k, inc, p, c) {
        forall c: Cell ensures SameButError(TargetKey(t, k), k) || Count(Clamped(inc, p), c) == 0 {
          assert StaysAt(t, k, inc, p, c);
        }
      }
    }
    if EndpointExact(t, k, inc, p) {
      forall c: Cell ensures StaysAt(t, k, inc, p, c) && FitsAt(t, k, n, c) { assert CellExact(t, k, inc, p, c); }
    }
  }

  /** In a full table of rows within the clamp, a key that finds a row differing in the error class alone keeps every such sum. */
  lemma EndpointKept(t: Table, k: Key, inc: RawIncrement, p: Parser)
    requires |t| >= 256 && !HasKey(t, k) && SomeSameButError(t, k)
    requires forall n, c: Cell :: 0 <= n < |t| ==> Count(t[n].row, c) <= 10_000_000
    ensures TargetKey(t, k).endpoint == k.endpoint && EndpointExact(t, k, inc, p)
  {
    TargetIs(t, k);
    EndpointExactIff(t, k, inc, p);
  }
}
