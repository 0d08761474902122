/** One logical call as a trace of sends: what each driver may do, whatever the network answers. */
module Traces {
  import opened Values
  import opened Retry
  import P = Routing
  import R = Recorder

  /**
    What became of one send. `Streamed` is a success whose body was handed on; `Broke` opened and then failed to read.
    `Escaped` is an exception the drivers do not handle, such as a response whose encoding cannot be decoded.
   */
  datatype Seen =
    | NotSent | NoAnswer | Interrupted | Escaped
    | Status(status: int, headers: Headers) | Streamed(status: int) | Broke(status: int)

  datatype Send = Send(base: nat, url: string, seen: Seen, moved: bool, slept: Option<real>)

  datatype Ending = Returned | Raised | Aborted | Completed

  datatype Config = Config(httpMethod: string, headers: seq<(string, string)>, maxRetries: int, failover: bool)

  // ----- replay safety -----

  function LowerChar(c: char): char
  {
    if 'A' <= c <= 'Z' then (c as int + 32) as char else c
  }

  function UpperChar(c: char): char
  {
    if 'a' <= c <= 'z' then (c as int - 32) as char else c
  }

  function Lower(s: string): string { seq(|s|, i requires 0 <= i < |s| => LowerChar(s[i])) }
  function Upper(s: string): string { seq(|s|, i requires 0 <= i < |s| => UpperChar(s[i])) }

  /** _has_idempotency_key */
  predicate HasIdempotencyKey(headers: seq<(string, string)>)
  {
    exists i :: 0 <= i < |headers| && Lower(headers[i].0) == "idempotency-key" && headers[i].1 != ""
  }

  /** _request_is_replayable */
  predicate Replayable(cfg: Config)
  {
    Upper(cfg.httpMethod) in {"GET", "HEAD", "OPTIONS", "TRACE"} || HasIdempotencyKey(cfg.headers)
  }

  /** _response_retry_is_safe */
  predicate RetryIsSafe(cfg: Config, h: Headers)
  {
    Replayable(cfg) || h.verdict == Some(true)
  }

  // ----- replay safety, read off the request -----

  /** The text is this upper-case word in whatever case. */
  predicate SpellsUpper(text: string, word: string)
  {
    |text| == |word|
    && forall i :: 0 <= i < |text| ==>
         text[i] == word[i] || ('A' <= word[i] <= 'Z' && text[i] as int == word[i] as int + 32)
  }

  /** The text is this lower-case word in whatever case. */
  predicate SpellsLower(text: string, word: string)
  {
    |text| == |word|
    && forall i :: 0 <= i < |text| ==>
         text[i] == word[i] || ('a' <= word[i] <= 'z' && text[i] as int == word[i] as int - 32)
  }

  /** The method is one of the four that may be repeated, or a header names an idempotency key. */
  predicate SafeToRepeat(cfg: Config)
  {
    || SpellsUpper(cfg.httpMethod, "GET") || SpellsUpper(cfg.httpMethod, "HEAD")
    || SpellsUpper(cfg.httpMethod, "OPTIONS") || SpellsUpper(cfg.httpMethod, "TRACE")
    || exists i :: 0 <= i < |cfg.headers| && SpellsLower(cfg.headers[i].0, "idempotency-key") && cfg.headers[i].1 != ""
  }

  lemma UpperIs(text: string, word: string)
    requires forall i :: 0 <= i < |word| ==> !('a' <= word[i] <= 'z')
    ensures Upper(text) == word <==> SpellsUpper(text, word)
  {
    if SpellsUpper(text, word) {
      forall i | 0 <= i < |text| ensures UpperChar(text[i]) == word[i] {}
      assert Upper(text) == word;
    } else if |text| == |word| {
      var i :| 0 <= i < |text| && !(text[i] == word[i] || ('A' <= word[i] <= 'Z' && text[i] as int == word[i] as int + 32));
      assert Upper(text)[i] != word[i];
    }
  }

  lemma LowerIs(text: string, word: string)
    requires forall i :: 0 <= i < |word| ==> !('A' <= word[i] <= 'Z')
    ensures Lower(text) == word <==> SpellsLower(text, word)
  {
    if SpellsLower(text, word) {
      forall i | 0 <= i < |text| ensures LowerChar(text[i]) == word[i] {}
      assert Lower(text) == word;
    } else if |text| == |word| {
      var i :| 0 <= i < |text| && !(text[i] == word[i] || ('a' <= word[i] <= 'z' && text[i] as int == word[i] as int - 32));
      assert Lower(text)[i] != word[i];
    }
  }

  /** What the drivers test of a request is that. */
  lemma ReplayableIff(cfg: Config)
    ensures Replayable(cfg) <==> SafeToRepeat(cfg)
  {
    UpperIs(cfg.httpMethod, "GET");
    UpperIs(cfg.httpMethod, "HEAD");
    UpperIs(cfg.httpMethod, "OPTIONS");
    UpperIs(cfg.httpMethod, "TRACE");
    forall i | 0 <= i < |cfg.headers|
      ensures Lower(cfg.headers[i].0) == "idempotency-key" <==> SpellsLower(cfg.headers[i].0, "idempotency-key")
    {
      LowerIs(cfg.headers[i].0, "idempotency-key");
    }
  }

  /**
    Another attempt is due: the request never left, or it may be repeated and got no answer or an answer to retry, or the
    server said to retry.
   */
  predicate Due(cfg: Config, seen: Seen)
  {
    || seen.NotSent?
    || (seen.NoAnswer? && SafeToRepeat(cfg))
    || (seen.Status? && seen.headers.verdict == Some(true))
    || (seen.Status? && seen.headers.verdict.None? && (seen.status == 429 || 500 <= seen.status) && SafeToRepeat(cfg))
  }

  // ----- what a lawful trace is -----

  /** The outcomes after which another attempt may be made at all. */
  predicate MayRetry(cfg: Config, seen: Seen)
  {
    match seen
    case NotSent => true
    case NoAnswer => Replayable(cfg)
    case Status(s, h) => Retryable(s, h) && RetryIsSafe(cfg, h)
    case _ => false
  }

  /** The outcomes after which the next attempt may go to another host. */
  predicate MayMove(seen: Seen)
  {
    match seen
    case NotSent => true
    case NoAnswer => true
    case Status(s, h) => Retryable(s, h) && s in {502, 503, 504}
    case _ => false
  }

  /** The floor a response puts under the sleep before the next attempt. */
  function SleepFloor(seen: Seen): real
  {
    if seen.Status? && RetryAfterSeconds(seen.headers).Some? then RetryAfterSeconds(seen.headers).value else 0.0
  }

  function Budget(cfg: Config, n: nat): nat
  {
    if cfg.maxRetries > n then cfg.maxRetries - n else 0
  }

  ghost predicate LawfulSend(cfg: Config, s: Send)
  {
    && (s.moved ==> cfg.failover && MayMove(s.seen) && MayRetry(cfg, s.seen))
    && (s.slept.Some? ==> MayRetry(cfg, s.seen) && SleepFloor(s.seen) <= s.slept.value <= 60.0)
  }

  ghost predicate LawfulStep(a: Send, b: Send)
  {
    a.slept.Some? && b.base == a.base + (if a.moved then 1 else 0)
  }

  /** A trace from attempt `n` at candidate `base`: within budget, each retry allowed, the index moving by at most one. */
  ghost predicate Lawful(cfg: Config, sends: seq<Send>, n: nat, base: nat)
  {
    && 1 <= |sends| <= Budget(cfg, n) + 1
    && sends[0].base == base
    && (forall i :: 0 <= i < |sends| ==> LawfulSend(cfg, sends[i]))
    && (forall i :: 0 <= i < |sends| - 1 ==> LawfulStep(sends[i], sends[i + 1]))
  }

  /** Every send goes to the candidate its index names in the list read for that attempt. */
  ghost predicate OnList(urls: nat -> seq<string>, sends: seq<Send>, n: nat)
  {
    forall i :: 0 <= i < |sends| ==> sends[i].base < |urls(n + i)| && sends[i].url == urls(n + i)[sends[i].base]
  }

  /** `exhausted` says: the budget ended the call, after more than one attempt, on an outcome that would have been retried. */
  ghost predicate ExhaustedExactly(cfg: Config, sends: seq<Send>, n: nat, ending: Ending, exhausted: bool)
    requires sends != []
  {
    var last := n + |sends| - 1;
    exhausted <==>
      && ending != Aborted && last >= cfg.maxRetries && last > 0
      && MayRetry(cfg, sends[|sends| - 1].seen)
  }

  lemma ConsLawful(cfg: Config, first: Send, rest: seq<Send>, n: nat)
    requires LawfulSend(cfg, first) && first.slept.Some? && n < cfg.maxRetries
    requires Lawful(cfg, rest, n + 1, first.base + (if first.moved then 1 else 0))
    ensures Lawful(cfg, [first] + rest, n, first.base)
  {
    var all := [first] + rest;
    forall i | 0 <= i < |all| - 1 ensures LawfulStep(all[i], all[i + 1]) {
      if i > 0 { assert LawfulStep(rest[i - 1], rest[i]); }
    }
  }

  // ----- consequences, for any lawful trace -----

  /** The outcomes the drivers retry are the ones after which another attempt is due. */
  lemma MayRetryIff(cfg: Config, seen: Seen)
    ensures MayRetry(cfg, seen) <==> Due(cfg, seen)
  {
    ReplayableIff(cfg);
    if seen.Status? {
      RetryableIff(seen.status, seen.headers);
    }
  }

  /** A request that is not safe to repeat is sent again only if it never left or was answered "retry". */
  lemma ReplaySafety(cfg: Config, sends: seq<Send>, n: nat, base: nat, i: nat)
    requires Lawful(cfg, sends, n, base) && !SafeToRepeat(cfg) && i + 1 < |sends|
    ensures sends[i].seen.NotSent? || (sends[i].seen.Status? && sends[i].seen.headers.verdict == Some(true))
  {
    assert LawfulStep(sends[i], sends[i + 1]);
    assert LawfulSend(cfg, sends[i]);
    MayRetryIff(cfg, sends[i].seen);
  }

  /** Exhaustion is reported only for a call that used its whole budget, more than one send, all retryable failures. */
  lemma ExhaustedMeansSpent(cfg: Config, sends: seq<Send>, ending: Ending, i: nat)
    requires Lawful(cfg, sends, 0, 0) && ExhaustedExactly(cfg, sends, 0, ending, true)
    ensures |sends| == cfg.maxRetries + 1 > 1
    ensures i < |sends| ==> MayRetry(cfg, sends[i].seen)
  {
    if i < |sends| - 1 {
      assert LawfulStep(sends[i], sends[i + 1]) && LawfulSend(cfg, sends[i]);
    }
  }

  /** With one candidate at attempt n + i the index is still 0 there, and nothing moved before. */
  lemma OneCandidateStays(cfg: Config, urls: nat -> seq<string>, sends: seq<Send>, n: nat, i: nat)
    requires Lawful(cfg, sends, n, 0) && OnList(urls, sends, n) && i < |sends| && |urls(n + i)| == 1
    ensures sends[i].base == 0 && MoveCount(sends[..i]) == 0
  {
    assert sends[i].base < |urls(n + i)|;
    IndexCountsMoves(cfg, sends, n, 0, i);
  }

  function MoveCount(sends: seq<Send>): nat
  {
    if sends == [] then 0 else (if sends[0].moved then 1 else 0) + MoveCount(sends[1..])
  }

  /** The candidate index is the number of moves so far; with failover off it never changes. */
  lemma {:induction false} IndexCountsMoves(cfg: Config, sends: seq<Send>, n: nat, base: nat, i: nat)
    requires Lawful(cfg, sends, n, base) && i < |sends|
    ensures sends[i].base == base + MoveCount(sends[..i])
    ensures !cfg.failover ==> sends[i].base == base
    decreases i
  {
    if i > 0 {
      IndexCountsMoves(cfg, sends, n, base, i - 1);
      assert LawfulStep(sends[i - 1], sends[i]) && LawfulSend(cfg, sends[i - 1]);
      assert sends[..i] == sends[..i - 1] + [sends[i - 1]];
      MoveCountConcat(sends[..i - 1], [sends[i - 1]]);
      assert [sends[i - 1]][1..] == [];
    } else {
      assert sends[..0] == [];
    }
  }

  lemma {:induction false} MoveCountConcat(a: seq<Send>, b: seq<Send>)
    ensures MoveCount(a + b) == MoveCount(a) + MoveCount(b)
  {
    if a == [] {
      assert a + b == b;
    } else {
      assert (a + b)[1..] == a[1..] + b;
      MoveCountConcat(a[1..], b);
    }
  }

  // ----- the network, as the drivers meet it -----

  /** Everything outside the engine, by attempt number. `decided` is the list length when the controller decides. */
  datatype Network = Network(
    urls: nat -> seq<string>, decided: nat -> nat, draws: nat -> real, sleepInterrupted: nat -> bool,
    elapsed: nat -> nat, hostOf: string -> string)

  /** The candidate list only ever grows (which the pool guarantees), and jitter stays inside its ceiling. */
  ghost predicate Steady(w: Network)
  {
    && |w.urls(0)| > 0
    && (forall n: nat {:trigger w.decided(n)} :: |w.urls(n)| <= w.decided(n) <= |w.urls(n + 1)|)
    && (forall n: nat :: 0.0 <= w.draws(n) <= JitterBase(n))
  }

  /** The reads of one call along any run of a pool: the list for attempt n, and its length when the controller decides. */
  ghost predicate ReadsPool(w: Network, pool: P.Pool, turns: seq<P.Turn>, at: nat -> nat)
    requires P.CanRun(pool, turns)
  {
    && (forall n: nat :: w.urls(n) == P.ReadAt(pool, turns, at(2 * n)))
    && (forall n: nat :: w.decided(n) == |P.ReadAt(pool, turns, at(2 * n + 1))|)
  }

  /** What the drivers assume of the candidate lists holds of every pool, however its threads interleave. */
  lemma PoolIsSteady(w: Network, primary: string, affinityPending: bool, turns: seq<P.Turn>, at: nat -> nat)
    requires P.CanRun(P.Fresh(primary, affinityPending), turns)
    requires forall m: nat, n: nat :: m <= n ==> at(m) <= at(n)
    requires ReadsPool(w, P.Fresh(primary, affinityPending), turns, at)
    requires forall n: nat :: 0.0 <= w.draws(n) <= JitterBase(n)
    ensures Steady(w)
  {
    FirstRead(w, primary, affinityPending, turns, at);
    forall n: nat ensures Widens(w, n) {
      assert at(2 * n) <= at(2 * n + 1) <= at(2 * (n + 1));
      ReadsSteady(w, primary, affinityPending, turns, at, n);
    }
    SteadyIs(w);
  }

  predicate Widens(w: Network, n: nat)
  {
    |w.urls(n)| <= w.decided(n) <= |w.urls(n + 1)|
  }

  lemma SteadyIs(w: Network)
    requires |w.urls(0)| > 0 && (forall n: nat :: Widens(w, n)) && forall n: nat :: 0.0 <= w.draws(n) <= JitterBase(n)
    ensures Steady(w)
  {
    forall n: nat ensures |w.urls(n)| <= w.decided(n) <= |w.urls(n + 1)| { assert Widens(w, n); }
  }

  lemma FirstRead(w: Network, primary: string, affinityPending: bool, turns: seq<P.Turn>, at: nat -> nat)
    requires P.CanRun(P.Fresh(primary, affinityPending), turns)
    requires ReadsPool(w, P.Fresh(primary, affinityPending), turns, at)
    ensures |w.urls(0)| > 0
  {
    P.ReadsGrow(primary, affinityPending, turns, at(2 * 0), at(2 * 0));
  }

  lemma ReadsSteady(w: Network, primary: string, affinityPending: bool, turns: seq<P.Turn>, at: nat -> nat, n: nat)
    requires P.CanRun(P.Fresh(primary, affinityPending), turns)
    requires at(2 * n) <= at(2 * n + 1) <= at(2 * (n + 1))
    requires ReadsPool(w, P.Fresh(primary, affinityPending), turns, at)
    ensures Widens(w, n)
  {
    P.ReadsGrow(primary, affinityPending, turns, at(2 * n), at(2 * n + 1));
    P.ReadsGrow(primary, affinityPending, turns, at(2 * n + 1), at(2 * (n + 1)));
  }

  function UrlAt(w: Network, n: nat, base: nat): string
  {
    if base < |w.urls(n)| then w.urls(n)[base] else ""
  }

  /** Whether a retried attempt `n` at `base` moves on: allowed by the outcome, by the flag, and by the list. */
  predicate Moves(cfg: Config, w: Network, n: nat, base: nat, seen: Seen)
  {
    cfg.failover && MayMove(seen) && base + 1 < w.decided(n)
  }

  ghost function SleepAfter(w: Network, n: nat, seen: Seen): real
    requires Steady(w)
  {
    RetrySleep(n, if seen.Status? then RetryAfterSeconds(seen.headers) else None, w.draws(n))
  }

  /** The send record of an attempt that is retried. */
  ghost function Retried(cfg: Config, w: Network, n: nat, base: nat, seen: Seen): Send
    requires Steady(w)
  {
    Send(base, UrlAt(w, n, base), seen, Moves(cfg, w, n, base, seen), Some(SleepAfter(w, n, seen)))
  }

  function Final(w: Network, n: nat, base: nat, seen: Seen): Send
  {
    Send(base, UrlAt(w, n, base), seen, false, None)
  }

  function NextBase(cfg: Config, w: Network, n: nat, base: nat, seen: Seen): nat
  {
    if Moves(cfg, w, n, base, seen) then base + 1 else base
  }

  lemma RetriedIsLawful(cfg: Config, w: Network, n: nat, base: nat, seen: Seen)
    requires Steady(w) && MayRetry(cfg, seen) && base < |w.urls(n)|
    ensures LawfulSend(cfg, Retried(cfg, w, n, base, seen))
    ensures NextBase(cfg, w, n, base, seen) < |w.urls(n + 1)|
  {
    assert |w.urls(n)| <= w.decided(n) <= |w.urls(n + 1)|;
  }

  /** A retry is granted: one is due and the budget is not spent. */
  predicate Granted(cfg: Config, seen: Seen, n: nat)
  {
    Due(cfg, seen) && n < cfg.maxRetries
  }

  /**
    The record of attempt `n` at `base`: a granted retry moves on exactly when failover is on, the request got no answer
    or a 502, 503 or 504, and the list goes on; and it sleeps for the jitter or a longer hint.
   */
  ghost predicate RecordOf(cfg: Config, w: Network, n: nat, base: nat, seen: Seen, s: Send)
  {
    && s.seen == seen && s.base == base
    && (s.moved <==>
          && Granted(cfg, seen, n) && cfg.failover && base + 1 < w.decided(n)
          && (seen.Status? ==> seen.status == 502 || seen.status == 503 || seen.status == 504))
    && (s.slept.Some? ==> Granted(cfg, seen, n))
    && (s.slept.Some? ==>
          var hint := if seen.Status? then RetryAfterSeconds(seen.headers) else None;
          s.slept.value == if hint.Some? && hint.value > w.draws(n) then hint.value else w.draws(n))
  }

  lemma RetriedIs(cfg: Config, w: Network, n: nat, base: nat, seen: Seen)
    requires Steady(w) && Granted(cfg, seen, n)
    ensures RecordOf(cfg, w, n, base, seen, Retried(cfg, w, n, base, seen))
  {
    MayRetryIff(cfg, seen);
    if seen.Status? {
      RetryableIff(seen.status, seen.headers);
      RetrySleepIs(n, seen.headers, w.draws(n));
    }
  }

  // ----- the recorder beside the trace -----

  /** One attempt per send, in order, on the same host, moved exactly when the engine moved. */
  ghost predicate Matches(attempts: seq<R.Attempt>, sends: seq<Send>, hostOf: string -> string)
  {
    && |attempts| == |sends|
    && forall i :: 0 <= i < |sends| ==>
         attempts[i].index == i && attempts[i].moved == sends[i].moved && attempts[i].host == hostOf(sends[i].url)
  }

  /** The sends that leave a record: all of them, unless the last one escaped. */
  function Recorded(sends: seq<Send>): seq<Send>
  {
    if sends != [] && sends[|sends| - 1].seen.Escaped? then sends[..|sends| - 1] else sends
  }

  /** No send ended in an exception the drivers do not catch. */
  predicate NoneEscaped(sends: seq<Send>)
  {
    forall i :: 0 <= i < |sends| ==> !sends[i].seen.Escaped?
  }

  /** In a lawful trace only the last send can escape, so there is one record per send exactly when none did. */
  lemma RecordedIff(cfg: Config, sends: seq<Send>, n: nat, base: nat)
    requires Lawful(cfg, sends, n, base)
    ensures |Recorded(sends)| == |sends| <==> NoneEscaped(sends)
    ensures |Recorded(sends)| == |sends| || |Recorded(sends)| + 1 == |sends|
    ensures MoveCount(Recorded(sends)) == MoveCount(sends)
  {
    forall i | 0 <= i < |sends| - 1 ensures !sends[i].seen.Escaped? {
      assert LawfulStep(sends[i], sends[i + 1]) && LawfulSend(cfg, sends[i]);
    }
    var last := |sends| - 1;
    if sends[last].seen.Escaped? {
      assert LawfulSend(cfg, sends[last]);
      assert sends == sends[..last] + [sends[last]];
      MoveCountConcat(sends[..last], [sends[last]]);
      assert [sends[last]][1..] == [];
    }
  }

  /** An attempt's record tells what became of its send. */
  predicate Tells(a: R.Attempt, seen: Seen)
  {
    match seen
    case Status(s, _) => a.httpStatus == Some(s) && a.outcome == (if s < 400 then "ok" else "http_error")
    case Streamed(s) => a.httpStatus == Some(s) && a.outcome == "ok"
    case Broke(s) => a.httpStatus == Some(s) && a.outcome in {"timeout", "stream_broken", "transport_error"}
    case Interrupted => a.outcome == "aborted"
    case Escaped => false
    case _ => a.httpStatus.None? && a.outcome in {"timeout", "transport_error"}
  }

  ghost predicate AllTell(attempts: seq<R.Attempt>, sends: seq<Send>)
    requires |attempts| == |sends|
  {
    forall i :: 0 <= i < |sends| ==> Tells(attempts[i], sends[i].seen)
  }

  /** Every record tells the truth, except that interrupting the last sleep overwrites the last one as aborted. */
  ghost predicate TellsAll(attempts: seq<R.Attempt>, sends: seq<Send>, ending: Ending)
    requires |attempts| == |sends|
  {
    forall i :: 0 <= i < |sends| ==>
      || Tells(attempts[i], sends[i].seen)
      || (i == |sends| - 1 && ending == Aborted && attempts[i].outcome == "aborted")
  }

  lemma {:induction false} MatchingMoves(attempts: seq<R.Attempt>, sends: seq<Send>)
    requires |attempts| == |sends| && forall i :: 0 <= i < |sends| ==> attempts[i].moved == sends[i].moved
    ensures R.Moves(attempts) == MoveCount(sends)
  {
    if sends != [] {
      forall i | 0 <= i < |sends[1..]| ensures attempts[1..][i].moved == sends[1..][i].moved {
        assert attempts[i + 1].moved == sends[i + 1].moved;
      }
      MatchingMoves(attempts[1..], sends[1..]);
    }
  }
}
