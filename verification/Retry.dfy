/** The retry kernel: which outcomes may be retried, where the next attempt goes, and how long to sleep. */
module Retry {
  import opened Values

  const MAX_RETRY_AFTER := 60.0

  /** A header that float() either rejects or reads. */
  datatype NumberHeader = NotNumeric | Numeric(n: Num)

  /** Response headers: the parsed x-should-retry verdict and the two Retry-After forms. */
  datatype Headers = Headers(verdict: Option<bool>, retryAfterMs: Option<NumberHeader>, retryAfter: Option<NumberHeader>)

  /** _retryable */
  predicate Retryable(status: int, h: Headers)
  {
    if h.verdict.Some? then h.verdict.value else status == 429 || status >= 500
  }

  /** _regional_failoverable */
  predicate Failoverable(status: int, h: Headers)
  {
    h.verdict != Some(false) && status in {502, 503, 504}
  }

  /** _bounded_retry_after */
  function BoundedRetryAfter(n: Num): (r: Option<real>)
    ensures r.Some? ==> 0.0 <= r.value <= MAX_RETRY_AFTER
    ensures r.None? <==> n.NotFinite? || n.r < 0.0
  {
    match n
    case NotFinite => None
    case Finite(x) => if x < 0.0 then None else Some(Min(x, MAX_RETRY_AFTER))
  }

  /** _retry_after_seconds: the millisecond form wins when usable; nothing unbounded gets through. */
  function RetryAfterSeconds(h: Headers): (r: Option<real>)
    ensures r.Some? ==> 0.0 <= r.value <= MAX_RETRY_AFTER
  {
    var fromMs := match h.retryAfterMs
      case Some(Numeric(Finite(ms))) => BoundedRetryAfter(Finite(ms / 1000.0))
      case _ => None;
    if fromMs.Some? then fromMs
    else
      match h.retryAfter
      case Some(Numeric(n)) => BoundedRetryAfter(n)
      case _ => None
  }

  /** The jitter ceiling of an attempt: 0.5 * 2**attempt below six, thirty seconds from there on. */
  function JitterBase(attempt: nat): real
  {
    match attempt
    case 0 => 0.5
    case 1 => 1.0
    case 2 => 2.0
    case 3 => 4.0
    case 4 => 8.0
    case 5 => 16.0
    case _ => 30.0
  }

  /** _retry_sleep: `draw` is the jitter, uniform in [0, JitterBase]. */
  function RetrySleep(attempt: nat, retryAfter: Option<real>, draw: real): (r: real)
    requires 0.0 <= draw <= JitterBase(attempt)
    ensures 0.0 <= r <= 60.0
    ensures retryAfter.Some? && retryAfter.value <= 60.0 ==> retryAfter.value <= r
  {
    var delay := if retryAfter.Some? then Max(draw, retryAfter.value) else draw;
    Min(delay, Max(30.0, MAX_RETRY_AFTER))
  }

  // ----- the kernel in numbers -----

  /** The server's verdict decides when there is one, and otherwise 429 and everything from 500 on is retried. */
  lemma RetryableIff(status: int, h: Headers)
    ensures Retryable(status, h) <==> h.verdict == Some(true) || (h.verdict.None? && (status == 429 || 500 <= status))
  {
  }

  /** A usable number is finite and not negative. */
  predicate Usable(h: Option<NumberHeader>)
  {
    h.Some? && h.value.Numeric? && h.value.n.Finite? && h.value.n.r >= 0.0
  }

  /** A usable millisecond hint gives its thousandth, else a usable hint in seconds gives itself, each at most sixty. */
  lemma RetryAfterIs(h: Headers)
    ensures var r := RetryAfterSeconds(h);
      && (r.None? <==> !Usable(h.retryAfterMs) && !Usable(h.retryAfter))
      && (Usable(h.retryAfterMs) ==>
            var ms := h.retryAfterMs.value.n.r;
            if ms <= 60_000.0 then 1000.0 * r.value == ms else r == Some(60.0))
      && (!Usable(h.retryAfterMs) && Usable(h.retryAfter) ==>
            var seconds := h.retryAfter.value.n.r;
            r == Some(if seconds <= 60.0 then seconds else 60.0))
  {
  }

  /** The jitter ceiling starts at half a second and doubles up to the sixth attempt; after that it is thirty seconds. */
  lemma JitterIs(attempt: nat)
    ensures JitterBase(0) == 0.5
    ensures attempt < 5 ==> JitterBase(attempt + 1) == 2.0 * JitterBase(attempt)
    ensures attempt >= 6 ==> JitterBase(attempt) == 30.0
  {
  }

  /** The sleep is the jitter, raised to a hint that is longer. */
  lemma RetrySleepIs(attempt: nat, h: Headers, draw: real)
    requires 0.0 <= draw <= JitterBase(attempt)
    ensures var hint := RetryAfterSeconds(h);
      RetrySleep(attempt, hint, draw) == if hint.Some? && hint.value > draw then hint.value else draw
  {
  }

  datatype Decision = GiveUp | Again(sleep: real, moved: bool)

  class RetryController {
    const maxRetries: int
    const regionalFailover: bool
    var attempt: nat
    var baseIndex: nat

    constructor (maxRetries: int, regionalFailover: bool)
      ensures this.maxRetries == maxRetries && this.regionalFailover == regionalFailover
      ensures attempt == 0 && baseIndex == 0
    {
      this.maxRetries, this.regionalFailover := maxRetries, regionalFailover;
      attempt, baseIndex := 0, 0;
    }

    /** current_base_url, on the list the provider returned at this read */
    method CurrentBaseUrl(urls: seq<string>) returns (url: string)
      requires baseIndex < |urls|
      ensures url == urls[baseIndex]
    {
      url := urls[baseIndex];
    }

    /** on_response: `candidates` is the length of the list at this read */
    method OnResponse(status: int, h: Headers, candidates: nat, draw: real) returns (d: Decision)
      requires 0.0 <= draw <= JitterBase(attempt)
      modifies this
      ensures d.GiveUp? <==> old(attempt) >= maxRetries || !Retryable(status, h)
      ensures d.GiveUp? ==> attempt == old(attempt) && baseIndex == old(baseIndex)
      ensures d.Again? ==>
        && attempt == old(attempt) + 1
        && (d.moved <==> regionalFailover && status in {502, 503, 504} && old(baseIndex) + 1 < candidates)
        && baseIndex == old(baseIndex) + (if d.moved then 1 else 0)
        && d.sleep == RetrySleep(old(attempt), RetryAfterSeconds(h), draw)
    {
      if attempt >= maxRetries || !Retryable(status, h) {
        return GiveUp;
      }
      var moved := false;
      if regionalFailover && Failoverable(status, h) && baseIndex < candidates - 1 {
        baseIndex := baseIndex + 1;
        moved := true;
      }
      var sleep := RetrySleep(attempt, RetryAfterSeconds(h), draw);
      attempt := attempt + 1;
      return Again(sleep, moved);
    }

    /** on_transport_error */
    method OnTransportError(responseOpened: bool, candidates: nat, draw: real) returns (d: Decision)
      requires 0.0 <= draw <= JitterBase(attempt)
      modifies this
      ensures d.GiveUp? <==> responseOpened || old(attempt) >= maxRetries
      ensures d.GiveUp? ==> attempt == old(attempt) && baseIndex == old(baseIndex)
      ensures d.Again? ==>
        && attempt == old(attempt) + 1
        && (d.moved <==> regionalFailover && old(baseIndex) + 1 < candidates)
        && baseIndex == old(baseIndex) + (if d.moved then 1 else 0)
        && d.sleep == RetrySleep(old(attempt), None, draw)
    {
      if responseOpened || attempt >= maxRetries {
        return GiveUp;
      }
      var moved := false;
      if regionalFailover && baseIndex < candidates - 1 {
        baseIndex := baseIndex + 1;
        moved := true;
      }
      var sleep := RetrySleep(attempt, None, draw);
      attempt := attempt + 1;
      return Again(sleep, moved);
    }
  }
}
