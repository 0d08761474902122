/** request_with_retry: the buffered driver, its loop proved against the specification of a whole run. */
module Drivers {
  import opened Values
  import opened Retry
  import opened Traces

  // ----- buffered -----

  /** What client.request does. `Escape` is an exception that is neither a transport error nor an interrupt. */
  datatype Outcome =
    | Failed(beforeSend: bool, failure: R.Failure)
    | Answered(reply: R.Reply, headers: Headers)
    | Interrupt
    | Escape

  function SeenOf(o: Outcome): Seen
  {
    match o
    case Failed(beforeSend, _) => if beforeSend then NotSent else NoAnswer
    case Answered(reply, h) => Status(reply.status, h)
    case Interrupt => Interrupted
    case Escape => Escaped
  }

  datatype Run = Run(sends: seq<Send>, ending: Ending, exhausted: bool)

  function Cons(s: Send, r: Run): Run
  {
    r.(sends := [s] + r.sends)
  }

  function Prepend(sends: seq<Send>, r: Run): Run
  {
    r.(sends := sends + r.sends)
  }

  /** How a call ends when attempt `n` is its last. */
  function LastEnding(seen: Seen): Ending
  {
    match seen
    case Interrupted => Aborted
    case Status(_, _) => Returned
    case _ => Raised
  }

  /** The whole run of request_with_retry from attempt `n` at candidate `base`. */
  ghost function BufferedRun(cfg: Config, w: Network, outcome: nat -> Outcome, n: nat, base: nat): Run
    requires Steady(w)
    decreases Budget(cfg, n)
  {
    var seen := SeenOf(outcome(n));
    if !MayRetry(cfg, seen) then Run([Final(w, n, base, seen)], LastEnding(seen), false)
    else if n >= cfg.maxRetries then Run([Final(w, n, base, seen)], LastEnding(seen), n > 0)
    else if w.sleepInterrupted(n) then Run([Retried(cfg, w, n, base, seen)], Aborted, false)
    else Cons(Retried(cfg, w, n, base, seen), BufferedRun(cfg, w, outcome, n + 1, NextBase(cfg, w, n, base, seen)))
  }

  /** The three laws of a finished run from attempt `n` at candidate `base`. */
  ghost predicate LawfulRun(cfg: Config, w: Network, r: Run, n: nat, base: nat)
  {
    && Lawful(cfg, r.sends, n, base)
    && OnList(w.urls, r.sends, n)
    && ExhaustedExactly(cfg, r.sends, n, r.ending, r.exhausted)
  }

  lemma OneSendIsLawful(cfg: Config, w: Network, s: Send, n: nat, ending: Ending, exhausted: bool)
    requires LawfulSend(cfg, s) && s.base < |w.urls(n)| && s.url == w.urls(n)[s.base]
    requires exhausted <==> ending != Aborted && n >= cfg.maxRetries && n > 0 && MayRetry(cfg, s.seen)
    ensures LawfulRun(cfg, w, Run([s], ending, exhausted), n, s.base)
  {
  }

  lemma ConsIsLawful(cfg: Config, w: Network, s: Send, r: Run, n: nat)
    requires LawfulSend(cfg, s) && s.slept.Some? && n < cfg.maxRetries
    requires s.base < |w.urls(n)| && s.url == w.urls(n)[s.base]
    requires LawfulRun(cfg, w, r, n + 1, s.base + (if s.moved then 1 else 0))
    ensures LawfulRun(cfg, w, Cons(s, r), n, s.base)
  {
    ConsLawful(cfg, s, r.sends, n);
    ConsOnList(w.urls, s, r.sends, n);
  }

  /** Every run of the buffered driver obeys the laws, whatever the network does. */
  lemma {:induction false} BufferedRunIsLawful(cfg: Config, w: Network, outcome: nat -> Outcome, n: nat, base: nat)
    requires Steady(w) && base < |w.urls(n)|
    ensures LawfulRun(cfg, w, BufferedRun(cfg, w, outcome, n, base), n, base)
    decreases Budget(cfg, n)
  {
    var seen := SeenOf(outcome(n));
    if !MayRetry(cfg, seen) {
      OneSendIsLawful(cfg, w, Final(w, n, base, seen), n, LastEnding(seen), false);
    } else if n >= cfg.maxRetries {
      OneSendIsLawful(cfg, w, Final(w, n, base, seen), n, LastEnding(seen), n > 0);
    } else {
      var send := Retried(cfg, w, n, base, seen);
      RetriedIsLawful(cfg, w, n, base, seen);
      if w.sleepInterrupted(n) {
        OneSendIsLawful(cfg, w, send, n, Aborted, false);
      } else {
        var next := NextBase(cfg, w, n, base, seen);
        BufferedRunIsLawful(cfg, w, outcome, n + 1, next);
        ConsIsLawful(cfg, w, send, BufferedRun(cfg, w, outcome, n + 1, next), n);
      }
    }
  }

  lemma ConsOnList(urls: nat -> seq<string>, first: Send, rest: seq<Send>, n: nat)
    requires OnList(urls, rest, n + 1) && first.base < |urls(n)| && first.url == urls(n)[first.base]
    ensures OnList(urls, [first] + rest, n)
  {
    var all := [first] + rest;
    forall i | 0 <= i < |all| ensures all[i].base < |urls(n + i)| && all[i].url == urls(n + i)[all[i].base] {
      if i > 0 {
        assert all[i] == rest[i - 1] && n + i == n + 1 + (i - 1);
      }
    }
  }

  predicate Continues(cfg: Config, seen: nat -> Seen, goesOn: nat -> bool, m: nat)
  {
    Granted(cfg, seen(m), m) && goesOn(m)
  }

  /** Attempt `m` is retried, for what became of it, with the record that gives. */
  ghost predicate RetriedAt(cfg: Config, w: Network, seen: nat -> Seen, goesOn: nat -> bool, s: Send, m: nat)
  {
    Continues(cfg, seen, goesOn, m) && RecordOf(cfg, w, m, s.base, seen(m), s) && s.slept.Some?
  }

  /** A run from attempt `n` retries as long as it may and no longer, read off the request, the network and nothing else. */
  ghost predicate RunIs(cfg: Config, w: Network, seen: nat -> Seen, goesOn: nat -> bool, r: Run, n: nat, base: nat)
  {
    && r.sends != [] && r.sends[0].base == base
    && (forall i :: 0 <= i < |r.sends| - 1 ==> RetriedAt(cfg, w, seen, goesOn, r.sends[i], n + i))
    && !Continues(cfg, seen, goesOn, n + |r.sends| - 1)
  }

  lemma ConsIs(cfg: Config, w: Network, seen: nat -> Seen, goesOn: nat -> bool, s: Send, r: Run, n: nat)
    requires RetriedAt(cfg, w, seen, goesOn, s, n)
    requires RunIs(cfg, w, seen, goesOn, r, n + 1, s.base + (if s.moved then 1 else 0))
    ensures RunIs(cfg, w, seen, goesOn, Cons(s, r), n, s.base)
  {
    var all := Cons(s, r).sends;
    forall i | 0 <= i < |all| - 1 ensures RetriedAt(cfg, w, seen, goesOn, all[i], n + i) {
      if i > 0 {
        assert RetriedAt(cfg, w, seen, goesOn, r.sends[i - 1], n + 1 + (i - 1));
      }
    }
    assert n + |all| - 1 == n + 1 + |r.sends| - 1;
  }

  lemma OneIs(cfg: Config, w: Network, seen: nat -> Seen, goesOn: nat -> bool, s: Send, ending: Ending, exhausted: bool, n: nat)
    requires !Continues(cfg, seen, goesOn, n)
    ensures RunIs(cfg, w, seen, goesOn, Run([s], ending, exhausted), n, s.base)
  {
  }

  /**
    The buffered driver sends again exactly when it should: attempt n + i is followed by another if and only if a retry is
    granted on what became of it and its sleep is not interrupted.
   */
  lemma {:induction false} SentAgainIff(cfg: Config, w: Network, outcome: nat -> Outcome, n: nat, base: nat,
                                        seen: nat -> Seen, goesOn: nat -> bool)
    requires Steady(w)
    requires forall m: nat :: seen(m) == SeenOf(outcome(m)) && goesOn(m) == !w.sleepInterrupted(m)
    ensures RunIs(cfg, w, seen, goesOn, BufferedRun(cfg, w, outcome, n, base), n, base)
    decreases Budget(cfg, n)
  {
    MayRetryIff(cfg, seen(n));
    if !Granted(cfg, seen(n), n) {
      OneIs(cfg, w, seen, goesOn, Final(w, n, base, seen(n)), LastEnding(seen(n)), MayRetry(cfg, seen(n)) && n > 0, n);
    } else if !goesOn(n) {
      OneIs(cfg, w, seen, goesOn, Retried(cfg, w, n, base, seen(n)), Aborted, false, n);
    } else {
      RetriedIs(cfg, w, n, base, seen(n));
      var next := NextBase(cfg, w, n, base, seen(n));
      SentAgainIff(cfg, w, outcome, n + 1, next, seen, goesOn);
      ConsIs(cfg, w, seen, goesOn, Retried(cfg, w, n, base, seen(n)), BufferedRun(cfg, w, outcome, n + 1, next), n);
    }
  }

  /** What the last attempt was, and how the call ends: on its answer, its failure, or an interrupt of it or of its sleep. */
  ghost predicate LastIs(cfg: Config, w: Network, seen: Seen, last: Send, ending: Ending, m: nat)
  {
    && RecordOf(cfg, w, m, last.base, seen, last)
    && (last.slept.Some? <==> Granted(cfg, seen, m))
    && ending == if last.slept.Some? || seen.Interrupted? then Aborted else if seen.Status? then Returned else Raised
  }

  lemma FinalIs(cfg: Config, w: Network, seen: Seen, n: nat, base: nat)
    requires !Granted(cfg, seen, n)
    ensures LastIs(cfg, w, seen, Final(w, n, base, seen), LastEnding(seen), n)
  {
  }

  lemma {:induction false} LastSendIs(cfg: Config, w: Network, outcome: nat -> Outcome, n: nat, base: nat)
    requires Steady(w)
    ensures var r := BufferedRun(cfg, w, outcome, n, base);
      r.sends != [] && var m := n + |r.sends| - 1;
        LastIs(cfg, w, SeenOf(outcome(m)), r.sends[|r.sends| - 1], r.ending, m)
    decreases Budget(cfg, n)
  {
    var seen := SeenOf(outcome(n));
    MayRetryIff(cfg, seen);
    if !Granted(cfg, seen, n) {
      FinalIs(cfg, w, seen, n, base);
    } else if w.sleepInterrupted(n) {
      RetriedIs(cfg, w, n, base, seen);
    } else {
      LastSendIs(cfg, w, outcome, n + 1, NextBase(cfg, w, n, base, seen));
    }
  }

  // ----- one pass through a loop -----

  /** The record of the attempt just made: appended last, on this host, moved or not. */
  ghost predicate Noted(before: seq<R.Attempt>, after: seq<R.Attempt>, host: string, moved: bool)
  {
    && |after| == |before| + 1 && after[..|before|] == before
    && after[|before|].index == |before| && after[|before|].host == host && after[|before|].moved == moved
    && R.Moves(after) == R.Moves(before) + (if moved then 1 else 0)
  }

  /** After a retry decision, the move is recorded first. */
  method NoteMove(n: nat, moved: bool, recorder: R.RequestRecorder, ghost before: seq<R.Attempt>)
    requires recorder.Coherent() && recorder.started && recorder.currentIndex == n == |before|
    requires Noted(before, recorder.attempts, recorder.currentHost, false)
    modifies recorder`attempts, recorder`failoverUsed
    ensures recorder.Coherent() && Noted(before, recorder.attempts, recorder.currentHost, moved)
    ensures recorder.attempts[n] == old(recorder.attempts)[n].(moved := moved)
  {
    if moved {
      recorder.OnMoved();
      assert recorder.attempts[..n] == before;
    }
  }

  /** The sleep, which an interrupt may cut short. */
  method Sleep(w: Network, n: nat, moved: bool, recorder: R.RequestRecorder, ghost before: seq<R.Attempt>)
    returns (interrupted: bool)
    requires recorder.Coherent() && recorder.started && recorder.currentIndex == n == |before|
    requires Noted(before, recorder.attempts, recorder.currentHost, moved)
    modifies recorder`attempts, recorder`phases
    ensures recorder.Coherent() && Noted(before, recorder.attempts, recorder.currentHost, moved)
    ensures interrupted == w.sleepInterrupted(n)
    ensures if interrupted then recorder.attempts[n].outcome == "aborted" else recorder.attempts == old(recorder.attempts)
  {
    interrupted := w.sleepInterrupted(n);
    if interrupted {
      recorder.OnAborted(w.elapsed(n));
    }
  }

  /** What one pass leaves in the records: a truthful record of the send, or nothing when the send escaped. */
  ghost predicate Kept(before: seq<R.Attempt>, after: seq<R.Attempt>, host: string, send: Send, stop: bool, ending: Ending)
  {
    if send.seen.Escaped? then stop && !send.moved && after == before
    else
      && Noted(before, after, host, send.moved)
      && (Tells(after[|before|], send.seen) || (stop && ending == Aborted && after[|before|].outcome == "aborted"))
  }

  /** The recorder's hook for what became of the request. */
  method Observe(w: Network, o: Outcome, n: nat, recorder: R.RequestRecorder)
    requires recorder.Coherent() && recorder.started && recorder.currentIndex == n == |recorder.attempts|
    modifies recorder`attempts, recorder`phases
    ensures recorder.Coherent()
    ensures if o.Escape? then recorder.attempts == old(recorder.attempts)
            else Noted(old(recorder.attempts), recorder.attempts, recorder.currentHost, false)
                 && Tells(recorder.attempts[n], SeenOf(o))
  {
    match o {
      case Escape =>
      case Interrupt => recorder.OnAborted(w.elapsed(n));
      case Failed(_, failure) => recorder.OnTransportError(failure, false, false, w.elapsed(n));
      case Answered(reply, _) => recorder.OnResponse(reply, w.elapsed(n));
    }
  }

  /** The driver's test and the controller's decision; without one the call ends here. */
  method Decide(cfg: Config, w: Network, o: Outcome, n: nat, controller: RetryController)
    returns (d: Decision, ending: Ending, exhausted: bool)
    requires Steady(w) && controller.attempt == n
    requires controller.maxRetries == cfg.maxRetries && controller.regionalFailover == cfg.failover
    modifies controller
    ensures d.Again? <==> MayRetry(cfg, SeenOf(o)) && n < cfg.maxRetries
    ensures d.Again? ==>
      && d.moved == Moves(cfg, w, n, old(controller.baseIndex), SeenOf(o))
      && d.sleep == SleepAfter(w, n, SeenOf(o))
      && controller.attempt == n + 1
      && controller.baseIndex == NextBase(cfg, w, n, old(controller.baseIndex), SeenOf(o))
      && !exhausted
    ensures d.GiveUp? ==>
      && controller.attempt == n && controller.baseIndex == old(controller.baseIndex)
      && ending == LastEnding(SeenOf(o))
      && exhausted == (MayRetry(cfg, SeenOf(o)) && n > 0)
  {
    d, exhausted := GiveUp, false;
    match o {
      case Escape =>
        ending := Raised;
      case Interrupt =>
        ending := Aborted;
      case Failed(beforeSend, _) =>
        ending := Raised;
        if !(Replayable(cfg) || beforeSend) {
          return;
        }
        d := controller.OnTransportError(false, w.decided(n), w.draws(n));
        if d.GiveUp? {
          exhausted := controller.attempt > 0;
        }
      case Answered(reply, h) =>
        ending := Returned;
        if Retryable(reply.status, h) && !RetryIsSafe(cfg, h) {
          return;
        }
        d := controller.OnResponse(reply.status, h, w.decided(n), w.draws(n));
        if d.GiveUp? {
          exhausted := controller.attempt > 0 && Retryable(reply.status, h);
        }
    }
  }

  /** One pass through the loop of request_with_retry. */
  method BufferedAttempt(cfg: Config, w: Network, outcome: nat -> Outcome, n: nat,
                         controller: RetryController, recorder: R.RequestRecorder)
    returns (send: Send, stop: bool, ending: Ending, exhausted: bool)
    requires Steady(w)
    requires controller.maxRetries == cfg.maxRetries && controller.regionalFailover == cfg.failover
    requires controller.attempt == n == |recorder.attempts| && controller.baseIndex < |w.urls(n)|
    requires recorder.Coherent()
    modifies controller, recorder`attempts, recorder`phases, recorder`failoverUsed,
      recorder`started, recorder`currentHost, recorder`currentIndex
    ensures controller.baseIndex == old(controller.baseIndex) + (if send.moved then 1 else 0)
    ensures recorder.Coherent()
    ensures Kept(old(recorder.attempts), recorder.attempts, w.hostOf(send.url), send, stop, ending)
    ensures stop ==> BufferedRun(cfg, w, outcome, n, old(controller.baseIndex)) == Run([send], ending, exhausted)
    ensures !stop ==>
      && BufferedRun(cfg, w, outcome, n, old(controller.baseIndex))
         == Cons(send, BufferedRun(cfg, w, outcome, n + 1, controller.baseIndex))
      && controller.attempt == n + 1 && n < cfg.maxRetries && controller.baseIndex < |w.urls(n + 1)|
  {
    ghost var before := recorder.attempts;
    var base := controller.baseIndex;
    var url := controller.CurrentBaseUrl(w.urls(n));
    recorder.BeginAttempt(w.hostOf(url));
    var o := outcome(n);
    var seen := SeenOf(o);
    Observe(w, o, n, recorder);
    var d;
    d, ending, exhausted := Decide(cfg, w, o, n, controller);
    if d.GiveUp? {
      return Send(base, url, seen, false, None), true, ending, exhausted;
    }
    RetriedIsLawful(cfg, w, n, base, seen);
    NoteMove(n, d.moved, recorder, before);
    var interrupted := Sleep(w, n, d.moved, recorder, before);
    return Send(base, url, seen, d.moved, Some(d.sleep)), interrupted, Aborted, false;
  }

  lemma MoveCountSnoc(sends: seq<Send>, send: Send)
    ensures MoveCount(sends + [send]) == MoveCount(sends) + (if send.moved then 1 else 0)
  {
    MoveCountConcat(sends, [send]);
    assert [send][1..] == [];
  }

  lemma MatchesSnoc(before: seq<R.Attempt>, after: seq<R.Attempt>, sends: seq<Send>, send: Send, hostOf: string -> string)
    requires Matches(before, sends, hostOf) && Noted(before, after, hostOf(send.url), send.moved)
    ensures Matches(after, sends + [send], hostOf)
  {
    var n, all := |sends|, sends + [send];
    forall i | 0 <= i < |all|
      ensures after[i].index == i && after[i].moved == all[i].moved && after[i].host == hostOf(all[i].url)
    {
      if i < n {
        assert after[i] == after[..n][i] == before[i];
      }
    }
  }

  /** The loop invariant shared by the drivers: recorder and controller agree with the sends made so far. */
  ghost predicate InStep(cfg: Config, w: Network, sends: seq<Send>, controller: RetryController, recorder: R.RequestRecorder)
    reads controller, recorder
  {
    && controller.maxRetries == cfg.maxRetries && controller.regionalFailover == cfg.failover
    && recorder.Coherent() && !recorder.finished && recorder.reports == []
    && Matches(recorder.attempts, sends, w.hostOf)
    && controller.baseIndex == MoveCount(sends)
  }

  /** The records after a pass that goes on. */
  lemma PassGoesOn(w: Network, sends: seq<Send>, send: Send, before: seq<R.Attempt>, after: seq<R.Attempt>, ending: Ending)
    requires Matches(before, sends, w.hostOf) && AllTell(before, sends)
    requires Kept(before, after, w.hostOf(send.url), send, false, ending)
    ensures Matches(after, sends + [send], w.hostOf) && AllTell(after, sends + [send])
    ensures MoveCount(sends + [send]) == MoveCount(sends) + (if send.moved then 1 else 0)
  {
    MatchesSnoc(before, after, sends, send, w.hostOf);
    MoveCountSnoc(sends, send);
    StillTells(before, after, sends, send, ending);
  }

  /** The records after the last pass. */
  lemma PassEnds(w: Network, sends: seq<Send>, send: Send, before: seq<R.Attempt>, after: seq<R.Attempt>, ending: Ending)
    requires Matches(before, sends, w.hostOf) && AllTell(before, sends)
    requires Kept(before, after, w.hostOf(send.url), send, true, ending)
    ensures Matches(after, Recorded(sends + [send]), w.hostOf) && TellsAll(after, Recorded(sends + [send]), ending)
    ensures MoveCount(Recorded(sends + [send])) == MoveCount(sends) + (if send.moved then 1 else 0)
  {
    RecordedSnoc(sends, send);
    if !send.seen.Escaped? {
      MatchesSnoc(before, after, sends, send, w.hostOf);
      MoveCountSnoc(sends, send);
      StillTells(before, after, sends, send, ending);
    }
  }

  lemma StillTells(before: seq<R.Attempt>, after: seq<R.Attempt>, sends: seq<Send>, send: Send, ending: Ending)
    requires |before| == |sends| && |after| == |before| + 1 && after[..|before|] == before && AllTell(before, sends)
    ensures Tells(after[|before|], send.seen) ==> AllTell(after, sends + [send])
    ensures Tells(after[|before|], send.seen) || (ending == Aborted && after[|before|].outcome == "aborted") ==>
      TellsAll(after, sends + [send], ending)
  {
    forall i | 0 <= i < |before| ensures Tells(after[i], (sends + [send])[i].seen) {
      assert after[i] == after[..|before|][i] && Tells(before[i], sends[i].seen);
    }
  }

  /** One pass, and what it leaves of the agreement between the records and the sends. */
  method BufferedPass(cfg: Config, w: Network, outcome: nat -> Outcome, sends: seq<Send>,
                      controller: RetryController, recorder: R.RequestRecorder)
    returns (send: Send, stop: bool, ending: Ending, exhausted: bool)
    requires Steady(w) && InStep(cfg, w, sends, controller, recorder) && AllTell(recorder.attempts, sends)
    requires controller.attempt == |sends| && controller.baseIndex < |w.urls(|sends|)|
    modifies controller, recorder`attempts, recorder`phases, recorder`failoverUsed,
      recorder`started, recorder`currentHost, recorder`currentIndex
    ensures stop ==>
      && BufferedRun(cfg, w, outcome, |sends|, old(controller.baseIndex)) == Run([send], ending, exhausted)
      && InStep(cfg, w, Recorded(sends + [send]), controller, recorder)
      && TellsAll(recorder.attempts, Recorded(sends + [send]), ending)
    ensures !stop ==>
      && BufferedRun(cfg, w, outcome, |sends|, old(controller.baseIndex))
         == Cons(send, BufferedRun(cfg, w, outcome, |sends| + 1, controller.baseIndex))
      && InStep(cfg, w, sends + [send], controller, recorder) && AllTell(recorder.attempts, sends + [send])
      && controller.attempt == |sends| + 1 && |sends| < cfg.maxRetries
      && controller.baseIndex < |w.urls(|sends| + 1)|
  {
    ghost var before := recorder.attempts;
    send, stop, ending, exhausted := BufferedAttempt(cfg, w, outcome, |sends|, controller, recorder);
    if stop {
      PassEnds(w, sends, send, before, recorder.attempts, ending);
    } else {
      PassGoesOn(w, sends, send, before, recorder.attempts, ending);
    }
  }

  /** The loop of request_with_retry. */
  method BufferedLoop(cfg: Config, w: Network, outcome: nat -> Outcome,
                      controller: RetryController, recorder: R.RequestRecorder)
    returns (sends: seq<Send>, ending: Ending, exhausted: bool)
    requires Steady(w) && InStep(cfg, w, [], controller, recorder) && controller.attempt == 0
    modifies controller, recorder`attempts, recorder`phases, recorder`failoverUsed,
      recorder`started, recorder`currentHost, recorder`currentIndex
    ensures Run(sends, ending, exhausted) == BufferedRun(cfg, w, outcome, 0, 0)
    ensures InStep(cfg, w, Recorded(sends), controller, recorder) && TellsAll(recorder.attempts, Recorded(sends), ending)
  {
    sends := [];
    ghost var whole := BufferedRun(cfg, w, outcome, 0, 0);
    ghost var rest := whole;
    PrependNothing(whole);
    while true
      invariant InStep(cfg, w, sends, controller, recorder) && AllTell(recorder.attempts, sends)
      invariant controller.attempt == |sends| && controller.baseIndex < |w.urls(|sends|)|
      invariant rest == BufferedRun(cfg, w, outcome, |sends|, controller.baseIndex)
      invariant whole == Prepend(sends, rest)
      decreases Budget(cfg, |sends|)
    {
      var send, stop;
      send, stop, ending, exhausted := BufferedPass(cfg, w, outcome, sends, controller, recorder);
      if stop {
        sends := sends + [send];
        break;
      }
      rest := BufferedRun(cfg, w, outcome, |sends| + 1, controller.baseIndex);
      PrependSnoc(sends, send, rest);
      sends := sends + [send];
    }
  }

  /** The report at the end of a call, whichever driver made it. */
  method FinishCall(cfg: Config, w: Network, sends: seq<Send>, exhausted: bool,
                    controller: RetryController, recorder: R.RequestRecorder)
    requires InStep(cfg, w, Recorded(sends), controller, recorder) && MoveCount(Recorded(sends)) == MoveCount(sends)
    modifies recorder
    ensures Accounted(w, sends, exhausted, controller, recorder) && recorder.attempts == old(recorder.attempts)
  {
    MatchingMoves(recorder.attempts, Recorded(sends));
    recorder.Finish(exhausted, w.elapsed(|sends|));
  }

  /** request_with_retry, with its controller and recorder. */
  method RequestWithRetry(cfg: Config, w: Network, outcome: nat -> Outcome,
                          controller: RetryController, recorder: R.RequestRecorder)
    returns (sends: seq<Send>, ending: Ending, exhausted: bool)
    requires Steady(w) && InStep(cfg, w, [], controller, recorder) && controller.attempt == 0
    modifies controller, recorder
    ensures Run(sends, ending, exhausted) == BufferedRun(cfg, w, outcome, 0, 0)
    ensures Accounted(w, sends, exhausted, controller, recorder) && TellsAll(recorder.attempts, Recorded(sends), ending)
    ensures |recorder.attempts| == |sends| <==> NoneEscaped(sends)
  {
    sends, ending, exhausted := BufferedLoop(cfg, w, outcome, controller, recorder);
    BufferedRunIsLawful(cfg, w, outcome, 0, 0);
    RecordedIff(cfg, sends, 0, 0);
    FinishCall(cfg, w, sends, exhausted, controller, recorder);
  }

  lemma RecordedSnoc(sends: seq<Send>, send: Send)
    ensures Recorded(sends + [send]) == if send.seen.Escaped? then sends else sends + [send]
  {
    assert (sends + [send])[..|sends|] == sends;
  }

  /**
    After a call: one attempt per send that did not escape, as many host moves as the controller counted, and one
    report if there is an attempt to report.
   */
  ghost predicate Accounted(w: Network, sends: seq<Send>, exhausted: bool,
                            controller: RetryController, recorder: R.RequestRecorder)
    reads controller, recorder
  {
    && recorder.Coherent() && Matches(recorder.attempts, Recorded(sends), w.hostOf)
    && controller.baseIndex == MoveCount(sends) == R.Moves(recorder.attempts)
    && (recorder.failoverUsed <==> controller.baseIndex > 0)
    && recorder.finished
    && recorder.reports == if !recorder.Recordable() || recorder.attempts == [] then []
         else [R.MakeReport(recorder.call, recorder.attempts, recorder.phases, recorder.failoverUsed,
                            recorder.ttftMs, w.elapsed(|sends|), exhausted)]
  }

  lemma PrependNothing(r: Run)
    ensures Prepend([], r) == r
  {
    assert [] + r.sends == r.sends;
  }

  lemma PrependSnoc(sends: seq<Send>, send: Send, rest: Run)
    ensures Prepend(sends, Cons(send, rest)) == Prepend(sends + [send], rest)
  {
    AppendMoves(sends, send, rest.sends);
  }
}
