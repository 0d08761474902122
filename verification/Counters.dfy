/** The counter table of one minute window: normalised keys, clamped increments, and key folding at the 256-key cap. */
module Counters {
  import opened Values
  import W = WireEvents

  const MAX_WINDOW_KEYS := 256
  const MAX_COUNT := 10_000_000
  const BUCKETS: set<string> :=
    {"lt100", "lt200", "lt400", "lt800", "lt1600", "lt3200", "lt6400", "lt12800", "lt25600",
     "lt51200", "lt102400", "ge102400"}
  const STATUS_CLASSES: set<string> := {"none", "2xx", "4xx", "429", "5xx"}

  type Bucket = b: string | b in BUCKETS witness "lt100"

  datatype Key = Key(
    level: string, endpoint: string, streaming: bool, host: string, outcome: string,
    errorClass: Option<string>, statusClass: string, phase: string, floorMet: bool, pinned: bool)

  datatype Row = Row(
    requests: nat, attempts: nat, failoverUsed: nat, firstAttemptSuccess: nat,
    totalMs: map<string, nat>, firstEventMs: map<string, nat>)

  datatype Entry = Entry(key: Key, row: Row)

  /** A Python dict keeps insertion order, and the fold below depends on it. */
  type Table = seq<Entry>

  datatype RawKey =
    | WrongLength
    | RawKey(level: Value, endpoint: Value, streaming: Value, host: Value, outcome: Value,
             errorClass: Value, statusClass: Value, phase: Value, floorMet: Value, pinned: Value)

  datatype RawHistogram = NotAMapping | Histogram(buckets: map<string, Value>)

  datatype RawIncrement = RawIncrement(
    requests: Value, attempts: Value, failoverUsed: Value, firstAttemptSuccess: Value,
    totalMs: RawHistogram, firstEventMs: RawHistogram)

  /** One element of the list handed to on_request; `NotAPair` covers a non-tuple key or a non-mapping increment. */
  datatype RawCounter = NotAPair | Counter(key: RawKey, increment: RawIncrement)

  /** One number of a row. */
  datatype Cell =
    | Requests | Attempts | FailoverUsed | FirstAttemptSuccess
    | TotalMs(bucket: Bucket) | FirstEventMs(bucket: Bucket)

  const ZERO := Row(0, 0, 0, 0, map[], map[])

  function At(h: map<string, nat>, b: string): nat
  {
    if b in h then h[b] else 0
  }

  function Count(r: Row, c: Cell): nat
  {
    match c
    case Requests => r.requests
    case Attempts => r.attempts
    case FailoverUsed => r.failoverUsed
    case FirstAttemptSuccess => r.firstAttemptSuccess
    case TotalMs(b) => At(r.totalMs, b)
    case FirstEventMs(b) => At(r.firstEventMs, b)
  }

  // ----- normalisation -----

  /** _normalise_counter_key */
  function NormaliseKey(k: RawKey): Option<Key>
  {
    if k.WrongLength? || !In(k.level, {"attempt", "request"}) || !In(k.outcome, W.FINAL_OUTCOMES) then None
    else Some(Key(
      k.level.s,
      if In(k.endpoint, W.ENDPOINTS) then k.endpoint.s else "inference_other",
      Truthy(k.streaming),
      if In(k.host, W.HOSTS) then k.host.s else "custom",
      k.outcome.s,
      if k.errorClass.Null? then None
      else if In(k.errorClass, W.ERROR_CLASSES) then Some(k.errorClass.s)
      else Some("unknown"),
      if In(k.statusClass, STATUS_CLASSES) then k.statusClass.s else "none",
      if In(k.phase, W.TIMEOUT_PHASES) then k.phase.s else "none",
      Truthy(k.floorMet),
      Truthy(k.pinned)))
  }

  function KnownBuckets(h: RawHistogram): set<string>
  {
    if h.NotAMapping? then {} else h.buckets.Keys * BUCKETS
  }

  function ClampCount(v: Value, p: Parser): nat
  {
    BoundedInt(v, 0, MAX_COUNT, p)
  }

  /** _merge_histogram */
  function MergeHistogram(target: map<string, nat>, source: RawHistogram, p: Parser): map<string, nat>
  {
    map b | b in target.Keys + KnownBuckets(source) ::
      At(target, b) + (if b in KnownBuckets(source) then ClampCount(source.buckets[b], p) else 0)
  }

  /** _merge_counter_increment */
  function MergeIncrement(r: Row, inc: RawIncrement, p: Parser): Row
  {
    Row(
      r.requests + ClampCount(inc.requests, p),
      r.attempts + ClampCount(inc.attempts, p),
      r.failoverUsed + ClampCount(inc.failoverUsed, p),
      r.firstAttemptSuccess + ClampCount(inc.firstAttemptSuccess, p),
      MergeHistogram(r.totalMs, inc.totalMs, p),
      MergeHistogram(r.firstEventMs, inc.firstEventMs, p))
  }

  /** What an increment is worth once clamped. */
  function Clamped(inc: RawIncrement, p: Parser): Row
  {
    MergeIncrement(ZERO, inc, p)
  }

  lemma MergeAdds(r: Row, inc: RawIncrement, p: Parser, c: Cell)
    ensures Count(MergeIncrement(r, inc, p), c) == Count(r, c) + Count(Clamped(inc, p), c)
    ensures Count(Clamped(inc, p), c) <= MAX_COUNT
  {
  }

  function HistogramValues(h: map<string, nat>): RawHistogram
  {
    Histogram(map b | b in h :: Int(h[b]))
  }

  /** A stored row read back as an increment, as folding does. */
  function AsIncrement(r: Row): RawIncrement
  {
    RawIncrement(
      Int(r.requests), Int(r.attempts), Int(r.failoverUsed), Int(r.firstAttemptSuccess),
      HistogramValues(r.totalMs), HistogramValues(r.firstEventMs))
  }

  /** The row a folded key starts with: the previous row, clamped a second time. */
  function Refold(r: Row, p: Parser): Row
  {
    Clamped(AsIncrement(r), p)
  }

  function Excess(n: nat): nat
  {
    if n > MAX_COUNT then n - MAX_COUNT else 0
  }

  lemma RefoldLosesExcess(r: Row, p: Parser, c: Cell)
    ensures Count(Refold(r, p), c) + Excess(Count(r, c)) == Count(r, c)
  {
  }

  // ----- the table -----

  predicate HasKey(t: Table, k: Key)
  {
    exists i :: 0 <= i < |t| && t[i].key == k
  }

  ghost predicate DistinctKeys(t: Table)
  {
    forall i, j :: 0 <= i < j < |t| ==> t[i].key != t[j].key
  }

  ghost predicate ValidTable(t: Table)
  {
    DistinctKeys(t) && |t| <= MAX_WINDOW_KEYS
  }

  /** _folded_counter_key */
  function Fold(k: Key, endpoint: bool): Key
  {
    var folded := k.(errorClass := Some("unknown"));
    if endpoint then folded.(endpoint := "inference_other") else folded
  }

  /** Equal in every dimension but the error class and, when `anyEndpoint`, the endpoint. */
  predicate Compatible(a: Key, b: Key, anyEndpoint: bool)
  {
    && a.level == b.level && a.streaming == b.streaming && a.host == b.host
    && a.outcome == b.outcome && a.statusClass == b.statusClass && a.phase == b.phase
    && a.floorMet == b.floorMet && a.pinned == b.pinned
    && (anyEndpoint || a.endpoint == b.endpoint)
  }

  /** The first compatible key in table order, or |t|. */
  function FirstCompatible(t: Table, k: Key, anyEndpoint: bool): (n: nat)
    ensures n <= |t|
    ensures forall i :: 0 <= i < n ==> !Compatible(t[i].key, k, anyEndpoint)
    ensures n < |t| ==> Compatible(t[n].key, k, anyEndpoint)
  {
    if t == [] || Compatible(t[0].key, k, anyEndpoint) then 0
    else 1 + FirstCompatible(t[1..], k, anyEndpoint)
  }

  /** pop(t[n].key), then store its re-clamped row under the folded key at the end. */
  function FoldEntry(t: Table, n: nat, endpoint: bool, p: Parser): Table
    requires n < |t|
  {
    t[..n] + t[n + 1..] + [Entry(Fold(t[n].key, endpoint), Refold(t[n].row, p))]
  }

  /** Where an increment under a normalised key goes. */
  datatype Placement = InPlace | ErrorFolded | FoldError(at: nat) | EndpointFolded | FoldEndpoint(at: nat) | LastResort

  function Place(t: Table, k: Key): (r: Placement)
    ensures r.FoldError? ==> r.at < |t| && Compatible(t[r.at].key, k, false)
    ensures r.FoldEndpoint? ==> r.at < |t| && Compatible(t[r.at].key, k, true)
    ensures r.LastResort? ==> |t| >= MAX_WINDOW_KEYS
  {
    if HasKey(t, k) || |t| < MAX_WINDOW_KEYS then InPlace
    else if HasKey(t, Fold(k, false)) then ErrorFolded
    else if FirstCompatible(t, k, false) < |t| then FoldError(FirstCompatible(t, k, false))
    else if HasKey(t, Fold(k, true)) then EndpointFolded
    else if FirstCompatible(t, k, true) < |t| then FoldEndpoint(FirstCompatible(t, k, true))
    else LastResort
  }

  /** The key _counter_target_locked returns. */
  function TargetKey(t: Table, k: Key): Key
  {
    match Place(t, k)
    case InPlace => k
    case ErrorFolded => Fold(k, false)
    case FoldError(n) => Fold(t[n].key, false)
    case EndpointFolded => Fold(k, true)
    case FoldEndpoint(n) => Fold(t[n].key, true)
    case LastResort => t[0].key
  }

  /** The table _counter_target_locked leaves behind. */
  function Retarget(t: Table, k: Key, p: Parser): Table
  {
    match Place(t, k)
    case FoldError(n) => FoldEntry(t, n, false, p)
    case FoldEndpoint(n) => FoldEntry(t, n, true, p)
    case _ => t
  }

  function IndexOf(t: Table, k: Key): (n: nat)
    ensures n <= |t|
    ensures n < |t| ==> t[n].key == k
    ensures n < |t| <==> HasKey(t, k)
  {
    if t == [] then 0
    else if t[0].key == k then 0
    else
      var n := IndexOf(t[1..], k);
      assert HasKey(t[1..], k) <==> HasKey(t, k) by {
        if HasKey(t, k) { var i :| 0 <= i < |t| && t[i].key == k; assert t[1..][i - 1].key == k; }
        if HasKey(t[1..], k) { var i :| 0 <= i < |t[1..]| && t[1..][i].key == k; assert t[i + 1].key == k; }
      }
      1 + n
  }

  /** setdefault(k, {}) followed by the in-place merge. */
  function AddAt(t: Table, k: Key, inc: RawIncrement, p: Parser): Table
  {
    var n := IndexOf(t, k);
    if n < |t| then t[n := Entry(k, MergeIncrement(t[n].row, inc, p))]
    else t + [Entry(k, MergeIncrement(ZERO, inc, p))]
  }

  /** One accepted counter, start to end. */
  function Accumulate(t: Table, k: Key, inc: RawIncrement, p: Parser): Table
  {
    AddAt(Retarget(t, k, p), TargetKey(t, k), inc, p)
  }

  // ----- sums -----

  /** A key without the two dimensions folding may erase. */
  function Group(k: Key): Key
  {
    k.(endpoint := "", errorClass := None)
  }

  /** Select every row, or the rows of one group. */
  predicate Selected(k: Key, sel: Option<Key>)
  {
    sel.None? || Group(k) == sel.value
  }

  function Part(e: Entry, c: Cell, sel: Option<Key>): nat
  {
    if Selected(e.key, sel) then Count(e.row, c) else 0
  }

  function Sum(t: Table, c: Cell, sel: Option<Key>): nat
  {
    if t == [] then 0 else Part(t[0], c, sel) + Sum(t[1..], c, sel)
  }

  lemma {:induction false} SumConcat(a: Table, b: Table, c: Cell, sel: Option<Key>)
    ensures Sum(a + b, c, sel) == Sum(a, c, sel) + Sum(b, c, sel)
  {
    if a == [] {
      assert a + b == b;
    } else {
      assert (a + b)[1..] == a[1..] + b;
      SumConcat(a[1..], b, c, sel);
    }
  }

  lemma SumOne(e: Entry, c: Cell, sel: Option<Key>)
    ensures Sum([e], c, sel) == Part(e, c, sel)
  {
    assert [e][1..] == [];
  }

  lemma SumSplitAt(t: Table, n: nat, c: Cell, sel: Option<Key>)
    requires n < |t|
    ensures Sum(t, c, sel) == Sum(t[..n], c, sel) + Part(t[n], c, sel) + Sum(t[n + 1..], c, sel)
  {
    assert t == t[..n] + ([t[n]] + t[n + 1..]);
    SumConcat(t[..n], [t[n]] + t[n + 1..], c, sel);
    SumConcat([t[n]], t[n + 1..], c, sel);
    SumOne(t[n], c, sel);
  }

  lemma SumUpdate(t: Table, n: nat, e: Entry, c: Cell, sel: Option<Key>)
    requires n < |t|
    ensures Sum(t[n := e], c, sel) + Part(t[n], c, sel) == Sum(t, c, sel) + Part(e, c, sel)
  {
    SumSplitAt(t, n, c, sel);
    SumSplitAt(t[n := e], n, c, sel);
    assert t[n := e][..n] == t[..n];
    assert t[n := e][n + 1..] == t[n + 1..];
  }

  /** What folding one entry changes: its excess over the cap is lost, and nothing moves between groups. */
  lemma SumFoldEntry(t: Table, n: nat, endpoint: bool, p: Parser, c: Cell, sel: Option<Key>)
    requires n < |t|
    ensures Sum(FoldEntry(t, n, endpoint, p), c, sel)
         + (if Selected(t[n].key, sel) then Excess(Count(t[n].row, c)) else 0)
         == Sum(t, c, sel)
  {
    var e := Entry(Fold(t[n].key, endpoint), Refold(t[n].row, p));
    SumSplitAt(t, n, c, sel);
    SumConcat(t[..n] + t[n + 1..], [e], c, sel);
    SumConcat(t[..n], t[n + 1..], c, sel);
    SumOne(e, c, sel);
    RefoldLosesExcess(t[n].row, p, c);
    assert Group(e.key) == Group(t[n].key);
  }

  lemma SumAddAt(t: Table, k: Key, inc: RawIncrement, p: Parser, c: Cell, sel: Option<Key>)
    ensures Sum(AddAt(t, k, inc, p), c, sel)
         == Sum(t, c, sel) + (if Selected(k, sel) then Count(Clamped(inc, p), c) else 0)
  {
    var n := IndexOf(t, k);
    if n < |t| {
      MergeAdds(t[n].row, inc, p, c);
      SumUpdate(t, n, Entry(k, MergeIncrement(t[n].row, inc, p)), c, sel);
    } else {
      var e := Entry(k, MergeIncrement(ZERO, inc, p));
      SumConcat(t, [e], c, sel);
      SumOne(e, c, sel);
    }
  }

  // ----- folding -----

  /** A folded compatible row lands on the folded form of the incoming key. */
  lemma FoldedCompatibleIsFoldedKey(a: Key, k: Key, endpoint: bool)
    ensures Compatible(a, k, endpoint) <==>
            Fold(a, endpoint).(errorClass := None) == Fold(k, endpoint).(errorClass := None)
    ensures Compatible(a, k, endpoint) <==> Fold(a, endpoint) == Fold(k, endpoint)
    ensures Compatible(a, k, true) <==> Group(a) == Group(k)
  {
  }

  /** The count a fold throws away because the previous row was already over the cap. */
  function FoldLoss(t: Table, k: Key, c: Cell, sel: Option<Key>): nat
  {
    match Place(t, k)
    case FoldError(n) => if Selected(t[n].key, sel) then Excess(Count(t[n].row, c)) else 0
    case FoldEndpoint(n) => if Selected(t[n].key, sel) then Excess(Count(t[n].row, c)) else 0
    case _ => 0
  }

  /** Unless the last-resort row is used, the row written is in the incoming key's group. */
  lemma TargetGroup(t: Table, k: Key)
    ensures !Place(t, k).LastResort? <==> Group(TargetKey(t, k)) == Group(k)
  {
    match Place(t, k) {
      case FoldError(n) => FoldedCompatibleIsFoldedKey(t[n].key, k, false);
      case FoldEndpoint(n) => FoldedCompatibleIsFoldedKey(t[n].key, k, true);
      case LastResort =>
        assert !Compatible(t[0].key, k, true);
        FoldedCompatibleIsFoldedKey(t[0].key, k, true);
      case _ =>
    }
  }

  lemma RetargetSums(t: Table, k: Key, p: Parser, c: Cell, sel: Option<Key>)
    ensures Sum(Retarget(t, k, p), c, sel) + FoldLoss(t, k, c, sel) == Sum(t, c, sel)
  {
    match Place(t, k) {
      case FoldError(n) => SumFoldEntry(t, n, false, p, c, sel);
      case FoldEndpoint(n) => SumFoldEntry(t, n, true, p, c, sel);
      case _ =>
    }
  }

  /** The exact effect of one accepted counter on every sum. */
  lemma AccumulateSums(t: Table, k: Key, inc: RawIncrement, p: Parser, c: Cell, sel: Option<Key>)
    ensures Sum(Accumulate(t, k, inc, p), c, sel) + FoldLoss(t, k, c, sel)
         == Sum(t, c, sel) + (if Selected(TargetKey(t, k), sel) then Count(Clamped(inc, p), c) else 0)
  {
    SumAddAt(Retarget(t, k, p), TargetKey(t, k), inc, p, c, sel);
    RetargetSums(t, k, p, c, sel);
  }

  /** The sum of group g grows by exactly the clamped increment if g is the incoming key's group, and not at all otherwise. */
  predicate GroupExactAt(t: Table, k: Key, inc: RawIncrement, p: Parser, c: Cell, g: Key)
  {
    Sum(Accumulate(t, k, inc, p), c, Some(g))
    == Sum(t, c, Some(g)) + (if Group(k) == g then Count(Clamped(inc, p), c) else 0)
  }

  ghost predicate GroupExact(t: Table, k: Key, inc: RawIncrement, p: Parser)
  {
    forall c: Cell, g: Key :: GroupExactAt(t, k, inc, p, c, g)
  }

  ghost predicate RowInRange(r: Row)
  {
    forall c: Cell :: Count(r, c) <= MAX_COUNT
  }

  ghost predicate FoldsInRange(t: Table, k: Key)
  {
    match Place(t, k)
    case FoldError(n) => RowInRange(t[n].row)
    case FoldEndpoint(n) => RowInRange(t[n].row)
    case _ => true
  }

  ghost predicate Blank(inc: RawIncrement, p: Parser)
  {
    forall c: Cell :: Count(Clamped(inc, p), c) == 0
  }

  /**
    Exactly when grouped sums survive the cap: the folded row is within range, and the last resort is not used
    (or adds nothing).
   */
  lemma GroupExactIff(t: Table, k: Key, inc: RawIncrement, p: Parser)
    ensures GroupExact(t, k, inc, p)
       <==> FoldsInRange(t, k) && (Place(t, k).LastResort? ==> Blank(inc, p))
  {
    TargetGroup(t, k);
    if !FoldsInRange(t, k) {
      var n := Place(t, k).at;
      var c: Cell :| Count(t[n].row, c) > MAX_COUNT;
      AccumulateSums(t, k, inc, p, c, Some(Group(k)));
      assert FoldLoss(t, k, c, Some(Group(k))) > 0;
      assert !GroupExactAt(t, k, inc, p, c, Group(k));
    } else if Place(t, k).LastResort? && !Blank(inc, p) {
      var c: Cell :| Count(Clamped(inc, p), c) != 0;
      AccumulateSums(t, k, inc, p, c, Some(Group(k)));
      assert !GroupExactAt(t, k, inc, p, c, Group(k));
    } else {
      forall c: Cell, g: Key ensures GroupExactAt(t, k, inc, p, c, g) {
        AccumulateSums(t, k, inc, p, c, Some(g));
        assert Place(t, k).LastResort? ==> Count(Clamped(inc, p), c) == 0;
      }
    }
  }

  // ----- the cap -----

  lemma FoldEntryValid(t: Table, n: nat, endpoint: bool, p: Parser)
    requires n < |t| && DistinctKeys(t) && !HasKey(t, Fold(t[n].key, endpoint))
    ensures DistinctKeys(FoldEntry(t, n, endpoint, p)) && |FoldEntry(t, n, endpoint, p)| == |t|
    ensures HasKey(FoldEntry(t, n, endpoint, p), Fold(t[n].key, endpoint))
  {
    var u := FoldEntry(t, n, endpoint, p);
    forall i | 0 <= i < |u| - 1 ensures u[i] == t[if i < n then i else i + 1] {}
    assert u[|u| - 1].key == Fold(t[n].key, endpoint);
  }

  lemma AddAtValid(t: Table, k: Key, inc: RawIncrement, p: Parser)
    requires DistinctKeys(t)
    ensures DistinctKeys(AddAt(t, k, inc, p))
    ensures |AddAt(t, k, inc, p)| == |t| + (if HasKey(t, k) then 0 else 1)
  {
  }

  /** The table keeps distinct keys and never exceeds the cap, and at the cap no new key is added. */
  lemma AccumulateKeepsCap(t: Table, k: Key, inc: RawIncrement, p: Parser)
    requires ValidTable(t)
    ensures ValidTable(Accumulate(t, k, inc, p))
    ensures |t| == MAX_WINDOW_KEYS ==> |Accumulate(t, k, inc, p)| == MAX_WINDOW_KEYS
    ensures Accumulate(t, k, inc, p) != []
  {
    var u := Retarget(t, k, p);
    match Place(t, k) {
      case FoldError(n) =>
        FoldedCompatibleIsFoldedKey(t[n].key, k, false);
        FoldEntryValid(t, n, false, p);
      case FoldEndpoint(n) =>
        FoldedCompatibleIsFoldedKey(t[n].key, k, true);
        FoldEntryValid(t, n, true, p);
      case LastResort =>
        assert t[0].key == TargetKey(t, k);
      case _ =>
    }
    AddAtValid(u, TargetKey(t, k), inc, p);
  }

  // ----- a whole list of counters -----

  predicate Accepted(rc: RawCounter)
  {
    rc.Counter? && NormaliseKey(rc.key).Some?
  }

  /** _merge_counters_locked on the table. */
  function MergeAll(t: Table, counters: seq<RawCounter>, p: Parser): Table
    decreases |counters|
  {
    if counters == [] then t
    else if Accepted(counters[0]) then
      MergeAll(Accumulate(t, NormaliseKey(counters[0].key).value, counters[0].increment, p), counters[1..], p)
    else MergeAll(t, counters[1..], p)
  }

  /** Counters rejected by the normaliser. */
  function Rejected(counters: seq<RawCounter>): nat
  {
    if counters == [] then 0
    else (if Accepted(counters[0]) then 0 else 1) + Rejected(counters[1..])
  }

  /** The clamped worth of the accepted counters. */
  function Offered(counters: seq<RawCounter>, p: Parser, c: Cell): nat
  {
    if counters == [] then 0
    else
      (if Accepted(counters[0]) then Count(Clamped(counters[0].increment, p), c) else 0)
      + Offered(counters[1..], p, c)
  }

  function LossOf(t: Table, counters: seq<RawCounter>, p: Parser, c: Cell): nat
    decreases |counters|
  {
    if counters == [] then 0
    else if Accepted(counters[0]) then
      var k := NormaliseKey(counters[0].key).value;
      FoldLoss(t, k, c, None) + LossOf(Accumulate(t, k, counters[0].increment, p), counters[1..], p, c)
    else LossOf(t, counters[1..], p, c)
  }

  /** Every accepted increment is in the table, counted once, up to what folds lost to the re-clamp. */
  lemma {:induction false} MergeAllConserves(t: Table, counters: seq<RawCounter>, p: Parser, c: Cell)
    ensures Sum(MergeAll(t, counters, p), c, None) + LossOf(t, counters, p, c)
         == Sum(t, c, None) + Offered(counters, p, c)
    decreases |counters|
  {
    if counters != [] {
      if Accepted(counters[0]) {
        var k := NormaliseKey(counters[0].key).value;
        AccumulateSums(t, k, counters[0].increment, p, c, None);
        MergeAllConserves(Accumulate(t, k, counters[0].increment, p), counters[1..], p, c);
      } else {
        MergeAllConserves(t, counters[1..], p, c);
      }
    }
  }

  /** Every fold the list causes folds a row within the clamp. */
  ghost predicate AllFoldsInRange(t: Table, counters: seq<RawCounter>, p: Parser)
    decreases |counters|
  {
    counters != [] ==>
      if Accepted(counters[0]) then
        var k := NormaliseKey(counters[0].key).value;
        FoldsInRange(t, k) && AllFoldsInRange(Accumulate(t, k, counters[0].increment, p), counters[1..], p)
      else AllFoldsInRange(t, counters[1..], p)
  }

  ghost predicate LossFree(t: Table, counters: seq<RawCounter>, p: Parser)
  {
    forall c: Cell :: LossOf(t, counters, p, c) == 0
  }

  lemma FoldLossFreeIff(t: Table, k: Key)
    ensures (forall c: Cell :: FoldLoss(t, k, c, None) == 0) <==> FoldsInRange(t, k)
  {
    if !FoldsInRange(t, k) {
      var c: Cell :| Count(t[Place(t, k).at].row, c) > MAX_COUNT;
      assert FoldLoss(t, k, c, None) > 0;
    }
  }

  lemma LossStep(t: Table, counters: seq<RawCounter>, k: Key, p: Parser, c: Cell)
    requires counters != [] && Accepted(counters[0]) && NormaliseKey(counters[0].key) == Some(k)
    ensures LossOf(t, counters, p, c)
         == FoldLoss(t, k, c, None) + LossOf(Accumulate(t, k, counters[0].increment, p), counters[1..], p, c)
  {
  }

  lemma LossFreeStep(t: Table, counters: seq<RawCounter>, k: Key, p: Parser)
    requires counters != [] && Accepted(counters[0]) && NormaliseKey(counters[0].key) == Some(k)
    ensures LossFree(t, counters, p)
       <==> FoldsInRange(t, k) && LossFree(Accumulate(t, k, counters[0].increment, p), counters[1..], p)
  {
    FoldLossFreeIff(t, k);
    forall c: Cell ensures LossOf(t, counters, p, c)
      == FoldLoss(t, k, c, None) + LossOf(Accumulate(t, k, counters[0].increment, p), counters[1..], p, c)
    {
      LossStep(t, counters, k, p, c);
    }
    if LossFree(t, counters, p) {
      forall c: Cell ensures FoldLoss(t, k, c, None) == 0 { assert LossOf(t, counters, p, c) == 0; }
    }
  }

  /** A list of counters loses nothing if and only if every row it folds is within the clamp. */
  lemma {:induction false} LossFreeIff(t: Table, counters: seq<RawCounter>, p: Parser)
    ensures LossFree(t, counters, p) <==> AllFoldsInRange(t, counters, p)
    decreases |counters|
  {
    if counters != [] {
      if Accepted(counters[0]) {
        var k := NormaliseKey(counters[0].key).value;
        LossFreeStep(t, counters, k, p);
        LossFreeIff(Accumulate(t, k, counters[0].increment, p), counters[1..], p);
      } else {
        LossFreeIff(t, counters[1..], p);
        assert forall c: Cell :: LossOf(t, counters, p, c) == LossOf(t, counters[1..], p, c);
      }
    }
  }

  lemma {:induction false} MergeAllKeepsCap(t: Table, counters: seq<RawCounter>, p: Parser)
    requires ValidTable(t)
    ensures ValidTable(MergeAll(t, counters, p))
    ensures t != [] ==> MergeAll(t, counters, p) != []
    decreases |counters|
  {
    if counters != [] {
      if Accepted(counters[0]) {
        var k := NormaliseKey(counters[0].key).value;
        AccumulateKeepsCap(t, k, counters[0].increment, p);
        MergeAllKeepsCap(Accumulate(t, k, counters[0].increment, p), counters[1..], p);
      } else {
        MergeAllKeepsCap(t, counters[1..], p);
      }
    }
  }
}
