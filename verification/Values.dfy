/** Python values as they reach the telemetry normalisers: dynamically typed, possibly absent. */
module Values {

  datatype Option<+T> = None | Some(value: T)

  datatype Result<+T, +E> = Ok(value: T) | Err(error: E)

  /** A float. NaN and the infinities are not told apart: every reader treats them alike. */
  datatype Num = Finite(r: real) | NotFinite

  /** `Missing` is an absent dictionary key, `Null` is None. `Dict` is a mapping read as an attempt. */
  datatype Value =
    | Missing
    | Null
    | Bool(b: bool)
    | Int(i: int)
    | Float(n: Num)
    | Str(s: string)
    | List(items: seq<Value>)
    | Dict(attempt: RawAttempt)

  /** The attempt mapping inside an event: one field per key the normaliser reads. */
  datatype RawAttempt = RawAttempt(
    index: Value, host: Value, outcome: Value, httpStatus: Value, errorClass: Value,
    errorSource: Value, shouldRetry: Value, retryAfterMs: Value, elapsedMs: Value,
    ttfbMs: Value, requestId: Value, moved: Value)

  /** Python's own text-to-number parsing, left uninterpreted (float() also rejects nothing but bad text). */
  datatype Parser = Parser(toInt: string -> Option<int>, toFloat: string -> Option<Num>)

  const EMPTY_ATTEMPT := RawAttempt(
    Missing, Missing, Missing, Missing, Missing, Missing,
    Missing, Missing, Missing, Missing, Missing, Missing)

  /** bool(value) */
  function Truthy(v: Value): bool
  {
    match v
    case Missing => false
    case Null => false
    case Bool(b) => b
    case Int(i) => i != 0
    case Float(n) => n != Finite(0.0)
    case Str(s) => s != ""
    case List(items) => items != []
    case Dict(a) => a != EMPTY_ATTEMPT
  }

  /** int() of a finite float truncates toward zero. */
  function Truncate(r: real): int
  {
    if r >= 0.0 then r.Floor else -((-r).Floor)
  }

  /** int(value): None when Python raises TypeError, ValueError or OverflowError. */
  function ToInt(v: Value, p: Parser): Option<int>
  {
    match v
    case Bool(b) => Some(if b then 1 else 0)
    case Int(i) => Some(i)
    case Float(Finite(r)) => Some(Truncate(r))
    case Str(s) => p.toInt(s)
    case _ => None
  }

  /** float(value): None when Python raises TypeError or ValueError. */
  function ToFloat(v: Value, p: Parser): Option<Num>
  {
    match v
    case Bool(b) => Some(Finite(if b then 1.0 else 0.0))
    case Int(i) => Some(Finite(i as real))
    case Float(n) => Some(n)
    case Str(s) => p.toFloat(s)
    case _ => None
  }

  /** _float_value: a finite number or nothing. */
  function FiniteValue(v: Value, p: Parser): Option<real>
  {
    match ToFloat(v, p)
    case Some(Finite(r)) => Some(r)
    case _ => None
  }

  function Clamp(i: int, lo: int, hi: int): (r: int)
    requires lo <= hi
    ensures lo <= r <= hi
    ensures lo <= i <= hi ==> r == i
  {
    if i < lo then lo else if i > hi then hi else i
  }

  /** _bounded_int */
  function BoundedInt(v: Value, lo: int, hi: int, p: Parser): (r: int)
    requires lo <= hi
    ensures lo <= r <= hi
    ensures ToInt(v, p) == None ==> r == lo
    ensures ToInt(v, p).Some? && lo <= ToInt(v, p).value <= hi ==> r == ToInt(v, p).value
    ensures ToInt(v, p).Some? && r != ToInt(v, p).value ==>
      r == (if ToInt(v, p).value < lo then lo else hi)
  {
    match ToInt(v, p)
    case Some(i) => Clamp(i, lo, hi)
    case None => lo
  }

  /** _bounded_optional_int: out of range is dropped, not clamped. */
  function BoundedOptionalInt(v: Value, lo: int, hi: int, p: Parser): (r: Value)
    requires lo <= hi
    ensures r == Null || (r.Int? && lo <= r.i <= hi && ToInt(v, p) == Some(r.i))
    ensures r == Null <==> ToInt(v, p).None? || !(lo <= ToInt(v, p).value <= hi)
  {
    match ToInt(v, p)
    case Some(i) => if lo <= i <= hi then Int(i) else Null
    case None => Null
  }

  function Min(a: real, b: real): real { if a <= b then a else b }
  function Max(a: real, b: real): real { if a <= b then b else a }

  predicate In(v: Value, vocabulary: set<string>)
  {
    v.Str? && v.s in vocabulary
  }

  // ----- shared lemmas about sequences and sets -----

  lemma Associate<T>(a: seq<T>, b: seq<T>, c: seq<T>)
    ensures a + (b + c) == a + b + c
  {
  }

  lemma AppendMoves<T>(a: seq<T>, x: T, b: seq<T>)
    ensures a + ([x] + b) == (a + [x]) + b
  {
  }

  lemma NothingAdded(text: string)
    ensures text + "" == text && "" + text == text
  {
  }

  lemma SplitAt<T>(a: seq<T>, n: nat)
    requires n < |a|
    ensures a == a[..n] + [a[n]] + a[n + 1..]
  {
  }

  lemma SameMap<K, V>(m: map<K, V>, n: map<K, V>)
    requires forall k: K :: (k in m <==> k in n) && (k in n ==> m[k] == n[k])
    ensures m == n
  {
  }

  lemma {:induction false} SubsetSize<T>(a: set<T>, b: set<T>)
    requires a <= b
    ensures |a| <= |b|
  {
    if a != {} {
      var x :| x in a;
      SubsetSize(a - {x}, b - {x});
    }
  }
}
