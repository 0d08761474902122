/** stream_events: the stream-open driver, which hands on the body of one successful response. */
module Streams {
  import opened Values
  import opened Retry
  import opened Traces
  import opened Drivers

  /** How a body ends: cleanly, by a transport failure, or by an error of the codec reading it. */
  datatype BodyEnd = Clean | Cut(failure: R.Failure) | Corrupt

  /** How reading the body of a refused stream ends: read, cut by the transport, or with an exception of another kind. */
  datatype Drain = Drained | DrainCut(failure: R.Failure) | DrainEscaped

  /** `drain` matters when the stream is refused; `closeAfter` is the consumer closing after that many items. */
  datatype Opening<T> =
    | NotOpened(beforeSend: bool, failure: R.Failure)
    | OpenInterrupted
    | OpenEscaped
    | Opened(reply: R.Reply, headers: Headers, drain: Drain,
             items: seq<T>, end: BodyEnd, closeAfter: Option<nat>)

  /** response.is_success */
  predicate Succeeds<T>(o: Opening<T>)
  {
    o.Opened? && 200 <= o.reply.status <= 299
  }

  predicate ClosedEarly<T>(o: Opening<T>)
    requires o.Opened?
  {
    o.closeAfter.Some? && 1 <= o.closeAfter.value <= |o.items|
  }

  /** The items the consumer receives. */
  function Surfaced<T>(o: Opening<T>): seq<T>
    requires o.Opened?
  {
    if ClosedEarly(o) then o.items[..o.closeAfter.value] else o.items
  }

  function BodyEnding<T>(o: Opening<T>): Ending
    requires o.Opened?
  {
    if ClosedEarly(o) then Aborted else if o.end.Clean? then Completed else Raised
  }

  function BodySeen<T>(o: Opening<T>): Seen
    requires o.Opened?
  {
    if ClosedEarly(o) then Interrupted else if o.end.Cut? then Broke(o.reply.status) else Streamed(o.reply.status)
  }

  /** What the controller is asked about when the response is not a success. */
  function Asked<T>(o: Opening<T>): Seen
  {
    match o
    case NotOpened(beforeSend, _) => if beforeSend then NotSent else NoAnswer
    case OpenInterrupted => Interrupted
    case OpenEscaped => Escaped
    case Opened(reply, h, _, _, _, _) => Status(reply.status, h)
  }

  /** A retried refusal whose body cannot be drained ends the call although the retry was granted. */
  predicate EscapesDrain<T>(o: Opening<T>)
  {
    o.Opened? && o.drain.DrainEscaped?
  }

  /** What a call that gives up is left with: draining the error body may still be cut by the transport. */
  function LastSeen<T>(o: Opening<T>): Seen
  {
    if o.Opened? && o.drain.DrainCut? then Broke(o.reply.status) else Asked(o)
  }

  datatype StreamRun<T> = StreamRun(run: Run, yielded: seq<T>)

  ghost function EventsRun<T>(cfg: Config, w: Network, outcome: nat -> Opening<T>, n: nat, base: nat): StreamRun<T>
    requires Steady(w)
    decreases Budget(cfg, n)
  {
    var o := outcome(n);
    var seen := Asked(o);
    if Succeeds(o) then StreamRun(Run([Final(w, n, base, BodySeen(o))], BodyEnding(o), false), Surfaced(o))
    else if MayRetry(cfg, seen) && n < cfg.maxRetries then
      if EscapesDrain(o) then StreamRun(Run([Retried(cfg, w, n, base, seen).(slept := None)], Raised, false), [])
      else if w.sleepInterrupted(n) then StreamRun(Run([Retried(cfg, w, n, base, seen)], Aborted, false), [])
      else
        var rest := EventsRun(cfg, w, outcome, n + 1, NextBase(cfg, w, n, base, seen));
        rest.(run := Cons(Retried(cfg, w, n, base, seen), rest.run))
    else
      StreamRun(Run([Final(w, n, base, LastSeen(o))], if o.OpenInterrupted? then Aborted else Raised,
                    MayRetry(cfg, LastSeen(o)) && n > 0), [])
  }

  /** Every run of the stream driver obeys the same laws as the buffered one. */
  lemma {:induction false} EventsRunIsLawful<T>(cfg: Config, w: Network, outcome: nat -> Opening<T>, n: nat, base: nat)
    requires Steady(w) && base < |w.urls(n)|
    ensures LawfulRun(cfg, w, EventsRun(cfg, w, outcome, n, base).run, n, base)
    decreases Budget(cfg, n)
  {
    var o := outcome(n);
    var seen := Asked(o);
    if Succeeds(o) {
      OneSendIsLawful(cfg, w, Final(w, n, base, BodySeen(o)), n, BodyEnding(o), false);
    } else if MayRetry(cfg, seen) && n < cfg.maxRetries {
      var send := Retried(cfg, w, n, base, seen);
      RetriedIsLawful(cfg, w, n, base, seen);
      if EscapesDrain(o) {
        OneSendIsLawful(cfg, w, send.(slept := None), n, Raised, false);
      } else if w.sleepInterrupted(n) {
        OneSendIsLawful(cfg, w, send, n, Aborted, false);
      } else {
        var next := NextBase(cfg, w, n, base, seen);
        EventsRunIsLawful(cfg, w, outcome, n + 1, next);
        ConsIsLawful(cfg, w, send, EventsRun(cfg, w, outcome, n + 1, next).run, n);
      }
    } else {
      OneSendIsLawful(cfg, w, Final(w, n, base, LastSeen(o)), n, if o.OpenInterrupted? then Aborted else Raised,
                      MayRetry(cfg, LastSeen(o)) && n > 0);
    }
  }

  /** A 2xx answer. */
  predicate IsTwoHundred<T>(o: Opening<T>)
  {
    o.Opened? && 200 <= o.reply.status <= 299
  }

  /** How many items the consumer takes before it closes, or all. */
  function TakenOf<T>(o: Opening<T>): (k: nat)
    requires o.Opened?
    ensures k <= |o.items|
  {
    if o.closeAfter.Some? && 1 <= o.closeAfter.value <= |o.items| then o.closeAfter.value else |o.items|
  }

  /**
    A stream is never stitched: only the last send can open a success; what is surfaced are its first items, as many as the
    consumer takes, all unless it closes; and a body cut by the transport ends in an error that is not called exhaustion.
   */
  lemma {:induction false} NeverStitched<T>(cfg: Config, w: Network, outcome: nat -> Opening<T>, n: nat, base: nat)
    requires Steady(w)
    ensures var r := EventsRun(cfg, w, outcome, n, base);
      && r.run.sends != []
      && (forall m: nat :: n <= m < n + |r.run.sends| - 1 ==> !IsTwoHundred(outcome(m)))
      && var last := outcome(n + |r.run.sends| - 1);
        && (!IsTwoHundred(last) ==> r.yielded == [] && r.run.ending != Completed)
        && (IsTwoHundred(last) ==>
              && r.yielded == last.items[..TakenOf(last)]
              && (r.run.ending == Completed <==> last.end.Clean? && !ClosedEarly(last))
              && (last.end.Cut? && !ClosedEarly(last) ==> r.run.ending == Raised && !r.run.exhausted))
    decreases Budget(cfg, n)
  {
    var o := outcome(n);
    var seen := Asked(o);
    if !Succeeds(o) && MayRetry(cfg, seen) && n < cfg.maxRetries && !EscapesDrain(o) && !w.sleepInterrupted(n) {
      var next := NextBase(cfg, w, n, base, seen);
      NeverStitched(cfg, w, outcome, n + 1, next);
    } else if Succeeds(o) {
      assert o.items[..|o.items|] == o.items;
    }
  }

  /** A refusal that may be followed by another attempt: not a success, its body drained, and the sleep not cut short. */
  predicate Refused<T>(o: Opening<T>)
  {
    !IsTwoHundred(o) && !(o.Opened? && o.drain.DrainEscaped?)
  }

  /**
    The stream driver opens again exactly when it should: attempt n + i is followed by another if and only if it was no
    success, a retry is granted on what became of it, its body could be drained and its sleep is not interrupted.
   */
  lemma {:induction false} OpenedAgainIff<T>(cfg: Config, w: Network, outcome: nat -> Opening<T>, n: nat, base: nat,
                                             seen: nat -> Seen, goesOn: nat -> bool)
    requires Steady(w)
    requires forall m: nat :: seen(m) == Asked(outcome(m)) && goesOn(m) == (Refused(outcome(m)) && !w.sleepInterrupted(m))
    ensures RunIs(cfg, w, seen, goesOn, EventsRun(cfg, w, outcome, n, base).run, n, base)
    decreases Budget(cfg, n)
  {
    var o := outcome(n);
    MayRetryIff(cfg, seen(n));
    if !Continues(cfg, seen, goesOn, n) {
      var run := EventsRun(cfg, w, outcome, n, base).run;
      OneIs(cfg, w, seen, goesOn, run.sends[0], run.ending, run.exhausted, n);
    } else {
      RetriedIs(cfg, w, n, base, seen(n));
      var next := NextBase(cfg, w, n, base, seen(n));
      OpenedAgainIff(cfg, w, outcome, n + 1, next, seen, goesOn);
      ConsIs(cfg, w, seen, goesOn, Retried(cfg, w, n, base, seen(n)), EventsRun(cfg, w, outcome, n + 1, next).run, n);
    }
  }

  // ----- the driver -----

  /** Handing on the body of a success: the first item is noted, and a close or a cut is recorded on the same attempt. */
  method HandOn<T>(w: Network, o: Opening<T>, n: nat, recorder: R.RequestRecorder, ghost before: seq<R.Attempt>)
    returns (yielded: seq<T>, ending: Ending)
    requires Succeeds(o) && recorder.Coherent() && recorder.started && recorder.currentIndex == n == |before|
    requires Noted(before, recorder.attempts, recorder.currentHost, false)
    modifies recorder`attempts, recorder`phases, recorder`ttftMs
    ensures recorder.Coherent() && Noted(before, recorder.attempts, recorder.currentHost, false)
    ensures yielded == Surfaced(o) && ending == BodyEnding(o)
    ensures Tells(old(recorder.attempts)[n], Asked(o)) ==> Tells(recorder.attempts[n], BodySeen(o))
  {
    yielded := [];
    var bodyStarted := false;
    while |yielded| < |o.items|
      invariant |yielded| <= |o.items| && yielded == o.items[..|yielded|]
      invariant bodyStarted <==> yielded != []
      invariant ClosedEarly(o) ==> |yielded| < o.closeAfter.value
      invariant recorder.attempts == old(recorder.attempts) && recorder.phases == old(recorder.phases)
      decreases |o.items| - |yielded|
    {
      if !bodyStarted {
        bodyStarted := true;
        recorder.OnFirstEvent(w.elapsed(n));
      }
      yielded := yielded + [o.items[|yielded|]];
      if o.closeAfter == Some(|yielded|) {
        recorder.OnAborted(w.elapsed(n));
        return yielded, Aborted;
      }
    }
    match o.end {
      case Clean => ending := Completed;
      case Corrupt => ending := Raised;
      case Cut(failure) =>
        recorder.OnTransportError(failure, true, bodyStarted, w.elapsed(n));
        ending := Raised;
    }
  }

  /** The recorder's hook when the stream was refused, never opened, or interrupted while opening. */
  method ObserveOpening<T>(w: Network, o: Opening<T>, n: nat, recorder: R.RequestRecorder)
    requires recorder.Coherent() && recorder.started && recorder.currentIndex == n == |recorder.attempts|
    modifies recorder`attempts, recorder`phases
    ensures recorder.Coherent()
    ensures if o.OpenEscaped? then recorder.attempts == old(recorder.attempts)
            else Noted(old(recorder.attempts), recorder.attempts, recorder.currentHost, false)
                 && Tells(recorder.attempts[n], Asked(o))
  {
    match o {
      case OpenEscaped =>
      case OpenInterrupted => recorder.OnAborted(w.elapsed(n));
      case NotOpened(_, failure) => recorder.OnTransportError(failure, false, false, w.elapsed(n));
      case Opened(reply, _, _, _, _, _) => recorder.OnResponse(reply, w.elapsed(n));
    }
  }

  /** The driver's test and the controller's decision on anything but a success. */
  method DecideOpening<T>(cfg: Config, w: Network, o: Opening<T>, n: nat, controller: RetryController)
    returns (d: Decision, exhausted: bool)
    requires Steady(w) && controller.attempt == n && !Succeeds(o)
    requires controller.maxRetries == cfg.maxRetries && controller.regionalFailover == cfg.failover
    modifies controller
    ensures d.Again? <==> MayRetry(cfg, Asked(o)) && n < cfg.maxRetries
    ensures d.Again? ==>
      && d.moved == Moves(cfg, w, n, old(controller.baseIndex), Asked(o))
      && d.sleep == SleepAfter(w, n, Asked(o))
      && controller.attempt == n + 1
      && controller.baseIndex == NextBase(cfg, w, n, old(controller.baseIndex), Asked(o))
    ensures d.GiveUp? ==>
      && controller.attempt == n && controller.baseIndex == old(controller.baseIndex)
      && exhausted == (MayRetry(cfg, Asked(o)) && n > 0)
  {
    d, exhausted := GiveUp, false;
    match o {
      case OpenInterrupted =>
      case OpenEscaped =>
      case NotOpened(beforeSend, _) =>
        if !(Replayable(cfg) || beforeSend) {
          return;
        }
        d := controller.OnTransportError(false, w.decided(n), w.draws(n));
        if d.GiveUp? {
          exhausted := controller.attempt > 0;
        }
      case Opened(reply, h, _, _, _, _) =>
        if Retryable(reply.status, h) && !RetryIsSafe(cfg, h) {
          return;
        }
        d := controller.OnResponse(reply.status, h, w.decided(n), w.draws(n));
        if d.GiveUp? {
          exhausted := controller.attempt > 0 && Retryable(reply.status, h);
        }
    }
  }

  /** Giving up on a refused stream drains its body for the error message; a failure there is terminal and resets `exhausted`. */
  method DrainRefusal<T>(w: Network, o: Opening<T>, n: nat, exhausted: bool, controller: RetryController,
                         recorder: R.RequestRecorder, ghost before: seq<R.Attempt>)
    returns (still: bool)
    requires Steady(w) && controller.attempt == n && recorder.Coherent() && recorder.started
    requires recorder.currentIndex == n == |before| && Noted(before, recorder.attempts, recorder.currentHost, false)
    modifies controller, recorder`attempts, recorder`phases
    ensures recorder.Coherent() && Noted(before, recorder.attempts, recorder.currentHost, false)
    ensures controller.attempt == old(controller.attempt) && controller.baseIndex == old(controller.baseIndex)
    ensures still == (exhausted && !(o.Opened? && o.drain.DrainCut?))
    ensures Tells(old(recorder.attempts)[n], Asked(o)) ==> Tells(recorder.attempts[n], LastSeen(o))
  {
    still := exhausted;
    if o.Opened? && o.drain.DrainCut? {
      recorder.OnTransportError(o.drain.failure, true, false, w.elapsed(n));
      var d := controller.OnTransportError(true, w.decided(n), w.draws(n));
      still := false;
    }
  }

  /** After a granted retry: the move is recorded, the refusal's body drained, and then the driver sleeps. */
  method AfterGrant<T>(w: Network, o: Opening<T>, n: nat, moved: bool, recorder: R.RequestRecorder,
                       ghost before: seq<R.Attempt>)
    returns (stop: bool, ending: Ending)
    requires recorder.Coherent() && recorder.started && recorder.currentIndex == n == |before|
    requires Noted(before, recorder.attempts, recorder.currentHost, false) && Tells(recorder.attempts[n], Asked(o))
    modifies recorder`attempts, recorder`phases, recorder`failoverUsed
    ensures recorder.Coherent() && Noted(before, recorder.attempts, recorder.currentHost, moved)
    ensures stop == (EscapesDrain(o) || w.sleepInterrupted(n))
    ensures ending == if EscapesDrain(o) then Raised else Aborted
    ensures Tells(recorder.attempts[n], Asked(o)) || (stop && ending == Aborted && recorder.attempts[n].outcome == "aborted")
  {
    NoteMove(n, moved, recorder, before);
    if EscapesDrain(o) {
      return true, Raised;
    }
    stop := Sleep(w, n, moved, recorder, before);
    ending := Aborted;
  }

  /** One pass through the loop of stream_events. */
  method StreamAttempt<T>(cfg: Config, w: Network, outcome: nat -> Opening<T>, n: nat,
                          controller: RetryController, recorder: R.RequestRecorder)
    returns (send: Send, stop: bool, ending: Ending, exhausted: bool, yielded: seq<T>)
    requires Steady(w)
    requires controller.maxRetries == cfg.maxRetries && controller.regionalFailover == cfg.failover
    requires controller.attempt == n == |recorder.attempts| && controller.baseIndex < |w.urls(n)|
    requires recorder.Coherent()
    modifies controller, recorder`attempts, recorder`phases, recorder`failoverUsed, recorder`ttftMs,
      recorder`started, recorder`currentHost, recorder`currentIndex
    ensures controller.baseIndex == old(controller.baseIndex) + (if send.moved then 1 else 0)
    ensures recorder.Coherent()
    ensures Kept(old(recorder.attempts), recorder.attempts, w.hostOf(send.url), send, stop, ending)
    ensures stop ==>
      EventsRun(cfg, w, outcome, n, old(controller.baseIndex)) == StreamRun(Run([send], ending, exhausted), yielded)
    ensures !stop ==>
      && yielded == []
      && EventsRun(cfg, w, outcome, n, old(controller.baseIndex))
         == After(send, EventsRun(cfg, w, outcome, n + 1, controller.baseIndex))
      && controller.attempt == n + 1 && n < cfg.maxRetries && controller.baseIndex < |w.urls(n + 1)|
  {
    ghost var before := recorder.attempts;
    var base := controller.baseIndex;
    var url := controller.CurrentBaseUrl(w.urls(n));
    recorder.BeginAttempt(w.hostOf(url));
    var o := outcome(n);
    yielded := [];
    ObserveOpening(w, o, n, recorder);
    if Succeeds(o) {
      yielded, ending := HandOn(w, o, n, recorder, before);
      return Send(base, url, BodySeen(o), false, None), true, ending, false, yielded;
    }
    var d;
    d, exhausted := DecideOpening(cfg, w, o, n, controller);
    if d.GiveUp? {
      if !o.OpenEscaped? {
        exhausted := DrainRefusal(w, o, n, exhausted, controller, recorder, before);
      }
      return Send(base, url, LastSeen(o), false, None), true,
        if o.OpenInterrupted? then Aborted else Raised, exhausted, [];
    }
    RetriedIsLawful(cfg, w, n, base, Asked(o));
    stop, ending := AfterGrant(w, o, n, d.moved, recorder, before);
    return Send(base, url, Asked(o), d.moved, if EscapesDrain(o) then None else Some(d.sleep)), stop, ending, false, [];
  }

  function After<T>(send: Send, r: StreamRun<T>): StreamRun<T>
  {
    r.(run := Cons(send, r.run))
  }

  /** One pass, and what it leaves of the agreement between the records and the sends. */
  method StreamPass<T>(cfg: Config, w: Network, outcome: nat -> Opening<T>, sends: seq<Send>,
                       controller: RetryController, recorder: R.RequestRecorder)
    returns (send: Send, stop: bool, ending: Ending, exhausted: bool, yielded: seq<T>)
    requires Steady(w) && InStep(cfg, w, sends, controller, recorder) && AllTell(recorder.attempts, sends)
    requires controller.attempt == |sends| && controller.baseIndex < |w.urls(|sends|)|
    modifies controller, recorder`attempts, recorder`phases, recorder`failoverUsed, recorder`ttftMs,
      recorder`started, recorder`currentHost, recorder`currentIndex
    ensures stop ==>
      && EventsRun(cfg, w, outcome, |sends|, old(controller.baseIndex)) == StreamRun(Run([send], ending, exhausted), yielded)
      && InStep(cfg, w, Recorded(sends + [send]), controller, recorder)
      && TellsAll(recorder.attempts, Recorded(sends + [send]), ending)
    ensures !stop ==>
      && EventsRun(cfg, w, outcome, |sends|, old(controller.baseIndex))
         == After(send, EventsRun(cfg, w, outcome, |sends| + 1, controller.baseIndex))
      && InStep(cfg, w, sends + [send], controller, recorder) && AllTell(recorder.attempts, sends + [send])
      && controller.attempt == |sends| + 1 && |sends| < cfg.maxRetries
      && controller.baseIndex < |w.urls(|sends| + 1)|
  {
    ghost var before := recorder.attempts;
    send, stop, ending, exhausted, yielded := StreamAttempt(cfg, w, outcome, |sends|, controller, recorder);
    if stop {
      PassEnds(w, sends, send, before, recorder.attempts, ending);
    } else {
      PassGoesOn(w, sends, send, before, recorder.attempts, ending);
    }
  }

  /** The loop of stream_events. */
  method StreamLoop<T>(cfg: Config, w: Network, outcome: nat -> Opening<T>,
                       controller: RetryController, recorder: R.RequestRecorder)
    returns (sends: seq<Send>, ending: Ending, exhausted: bool, yielded: seq<T>)
    requires Steady(w) && InStep(cfg, w, [], controller, recorder) && controller.attempt == 0
    modifies controller, recorder`attempts, recorder`phases, recorder`failoverUsed, recorder`ttftMs,
      recorder`started, recorder`currentHost, recorder`currentIndex
    ensures StreamRun(Run(sends, ending, exhausted), yielded) == EventsRun(cfg, w, outcome, 0, 0)
    ensures InStep(cfg, w, Recorded(sends), controller, recorder) && TellsAll(recorder.attempts, Recorded(sends), ending)
  {
    sends := [];
    ghost var whole := EventsRun(cfg, w, outcome, 0, 0);
    ghost var rest := whole;
    PrependNothing(whole.run);
    while true
      invariant InStep(cfg, w, sends, controller, recorder) && AllTell(recorder.attempts, sends)
      invariant controller.attempt == |sends| && controller.baseIndex < |w.urls(|sends|)|
      invariant rest == EventsRun(cfg, w, outcome, |sends|, controller.baseIndex)
      invariant whole == rest.(run := Prepend(sends, rest.run))
      decreases Budget(cfg, |sends|)
    {
      var send, stop;
      send, stop, ending, exhausted, yielded := StreamPass(cfg, w, outcome, sends, controller, recorder);
      if stop {
        sends := sends + [send];
        break;
      }
      rest := EventsRun(cfg, w, outcome, |sends| + 1, controller.baseIndex);
      PrependSnoc(sends, send, rest.run);
      sends := sends + [send];
    }
  }

  /** stream_events, with its controller and recorder. */
  method StreamEvents<T>(cfg: Config, w: Network, outcome: nat -> Opening<T>,
                         controller: RetryController, recorder: R.RequestRecorder)
    returns (sends: seq<Send>, ending: Ending, exhausted: bool, yielded: seq<T>)
    requires Steady(w) && InStep(cfg, w, [], controller, recorder) && controller.attempt == 0
    modifies controller, recorder
    ensures StreamRun(Run(sends, ending, exhausted), yielded) == EventsRun(cfg, w, outcome, 0, 0)
    ensures Accounted(w, sends, exhausted, controller, recorder) && TellsAll(recorder.attempts, Recorded(sends), ending)
    ensures |recorder.attempts| == |sends| <==> NoneEscaped(sends)
  {
    sends, ending, exhausted, yielded := StreamLoop(cfg, w, outcome, controller, recorder);
    EventsRunIsLawful(cfg, w, outcome, 0, 0);
    RecordedIff(cfg, sends, 0, 0);
    FinishCall(cfg, w, sends, exhausted, controller, recorder);
  }
}
