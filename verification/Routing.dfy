/** Candidate lists and the once-only region probe. */
module Routing {
  import opened Values

  const DEFAULT_API_BASE_URL := "https://api.trustedrouter.com/v1"
  const ALIASES: seq<string> := ["https://api.allyrouter.com/v1", "https://api.uptimerouter.com/v1"]
  const REGIONS: seq<string> := [
    "https://api-us-central1.quillrouter.com/v1",
    "https://api-us-east4.quillrouter.com/v1",
    "https://api-europe-west4.quillrouter.com/v1"]

  /** rstrip("/") */
  function RStrip(s: string): string
  {
    if s != "" && s[|s| - 1] == '/' then RStrip(s[..|s| - 1]) else s
  }

  function RStripAll(urls: seq<string>): (r: seq<string>)
    ensures |r| == |urls|
    ensures forall i :: 0 <= i < |r| ==> r[i] == RStrip(urls[i])
  {
    seq(|urls|, i requires 0 <= i < |urls| => RStrip(urls[i]))
  }

  /** list(dict.fromkeys(urls)), after the urls in `seen`. */
  function Dedup(urls: seq<string>, seen: set<string>): (r: seq<string>)
    ensures forall u :: u in r <==> u in urls && u !in seen
    ensures forall i, j :: 0 <= i < j < |r| ==> r[i] != r[j]
    ensures urls != [] && urls[0] !in seen ==> r != [] && r[0] == urls[0]
  {
    if urls == [] then []
    else if urls[0] in seen then Dedup(urls[1..], seen)
    else [urls[0]] + Dedup(urls[1..], seen + {urls[0]})
  }

  /** The first position of an entry, or |urls|. */
  function FirstAt(urls: seq<string>, u: string): nat
  {
    if urls == [] || urls[0] == u then 0 else 1 + FirstAt(urls[1..], u)
  }

  /** What remains keeps the order of first occurrence. */
  lemma {:induction false} DedupInOrder(urls: seq<string>, seen: set<string>, a: nat, b: nat)
    requires a < b < |Dedup(urls, seen)|
    ensures FirstAt(urls, Dedup(urls, seen)[a]) < FirstAt(urls, Dedup(urls, seen)[b])
    decreases |urls|
  {
    var r := Dedup(urls, seen);
    assert r[a] in r && r[b] in r;
    if urls[0] in seen {
      DedupInOrder(urls[1..], seen, a, b);
    } else {
      var rest := Dedup(urls[1..], seen + {urls[0]});
      assert r == [urls[0]] + rest;
      assert rest[b - 1] in rest;
      if a > 0 {
        assert rest[a - 1] in rest;
        DedupInOrder(urls[1..], seen + {urls[0]}, a - 1, b - 1);
      }
    }
  }

  /** _inference_base_urls */
  function InferenceBaseUrls(primaryBaseUrl: string): seq<string>
  {
    var primary := RStrip(primaryBaseUrl);
    if primary != RStrip(DEFAULT_API_BASE_URL) then [primary]
    else Dedup([primary] + RStripAll(ALIASES), {})
  }

  /** _region_candidates */
  function RegionCandidates(primaryBaseUrl: string): seq<string>
  {
    Dedup(RStripAll(REGIONS + [RStrip(primaryBaseUrl)]), {})
  }

  /** _ordered_regions */
  function OrderedRegions(primaryBaseUrl: string, winner: Option<string>): seq<string>
  {
    if winner.None? then InferenceBaseUrls(primaryBaseUrl)
    else
      Dedup([winner.value, RStrip(primaryBaseUrl)] + RegionCandidates(primaryBaseUrl)
            + InferenceBaseUrls(primaryBaseUrl), {})
  }

  ghost predicate NoRepeats(urls: seq<string>)
  {
    forall i, j :: 0 <= i < j < |urls| ==> urls[i] != urls[j]
  }

  /** A custom base is never joined by a public alias; the default base is followed by every alias. */
  lemma StaticCandidates(primaryBaseUrl: string)
    ensures var urls := InferenceBaseUrls(primaryBaseUrl);
      && NoRepeats(urls) && urls != [] && urls[0] == RStrip(primaryBaseUrl)
      && (RStrip(primaryBaseUrl) != RStrip(DEFAULT_API_BASE_URL) ==> |urls| == 1)
      && (RStrip(primaryBaseUrl) == RStrip(DEFAULT_API_BASE_URL) ==>
           forall i :: 0 <= i < |ALIASES| ==> RStrip(ALIASES[i]) in urls)
  {
    assert forall i :: 0 <= i < |ALIASES| ==> ([RStrip(primaryBaseUrl)] + RStripAll(ALIASES))[i + 1] == RStrip(ALIASES[i]);
  }

  lemma {:induction false} NoRepeatsCount(urls: seq<string>)
    requires NoRepeats(urls)
    ensures |set u | u in urls| == |urls|
  {
    if urls != [] {
      NoRepeatsCount(urls[1..]);
      assert (set u | u in urls) == {urls[0]} + (set u | u in urls[1..]) by {
        assert urls == [urls[0]] + urls[1..];
      }
    }
  }

  /** The list after a probe has no repeats, starts with the winner, and keeps every static candidate, so it is no shorter. */
  lemma ProbedCandidates(primaryBaseUrl: string, winner: Option<string>)
    ensures var urls, fixed := OrderedRegions(primaryBaseUrl, winner), InferenceBaseUrls(primaryBaseUrl);
      && NoRepeats(urls)
      && (winner.Some? ==> urls != [] && urls[0] == winner.value)
      && (forall u :: u in fixed ==> u in urls)
      && |fixed| <= |urls|
  {
    var urls, fixed := OrderedRegions(primaryBaseUrl, winner), InferenceBaseUrls(primaryBaseUrl);
    StaticCandidates(primaryBaseUrl);
    NoRepeatsCount(urls);
    NoRepeatsCount(fixed);
    SubsetSize(set u | u in fixed, set u | u in urls);
  }

  // ----- the lists, in order -----

  /** Trailing slashes go, and only they. */
  lemma {:induction false} RStripIs(s: string)
    ensures RStrip(s) <= s && (RStrip(s) == "" || RStrip(s)[|RStrip(s)| - 1] != '/')
    ensures forall i :: |RStrip(s)| <= i < |s| ==> s[i] == '/'
    decreases |s|
  {
    if s != "" && s[|s| - 1] == '/' {
      RStripIs(s[..|s| - 1]);
      assert forall i :: 0 <= i < |s| - 1 ==> s[i] == s[..|s| - 1][i];
    }
  }

  lemma RStripKeeps(s: string)
    requires s != "" && s[|s| - 1] != '/'
    ensures RStrip(s) == s
  {
  }

  /** The first occurrences of a list, in their order. */
  ghost predicate FirstsOf(urls: seq<string>, all: seq<string>)
  {
    && NoRepeats(urls) && (forall u :: u in urls <==> u in all)
    && forall i, j :: 0 <= i < j < |urls| ==> FirstAt(all, urls[i]) < FirstAt(all, urls[j])
  }

  lemma DedupIs(all: seq<string>)
    ensures FirstsOf(Dedup(all, {}), all)
  {
    var urls := Dedup(all, {});
    forall i, j | 0 <= i < j < |urls| ensures FirstAt(all, urls[i]) < FirstAt(all, urls[j]) {
      DedupInOrder(all, {}, i, j);
    }
  }

  lemma NoSlashes()
    ensures RStripAll(ALIASES) == ALIASES && RStripAll(REGIONS) == REGIONS
    ensures RStrip(DEFAULT_API_BASE_URL) == DEFAULT_API_BASE_URL
  {
    forall url | url in ALIASES + REGIONS + [DEFAULT_API_BASE_URL] ensures RStrip(url) == url {
      assert url[|url| - 1] == '1';
    }
  }

  /** The lists are the first occurrences of these: the aliases only behind the default base, a winner before everything. */
  lemma CandidatesAre(primaryBaseUrl: string, winner: string)
    ensures var primary, fixed := RStrip(primaryBaseUrl), InferenceBaseUrls(primaryBaseUrl);
      && FirstsOf(fixed, if primary == DEFAULT_API_BASE_URL then [primary] + ALIASES else [primary])
      && FirstsOf(RegionCandidates(primaryBaseUrl), REGIONS + [primary])
      && OrderedRegions(primaryBaseUrl, None) == fixed
      && FirstsOf(OrderedRegions(primaryBaseUrl, Some(winner)), [winner, primary] + RegionCandidates(primaryBaseUrl) + fixed)
  {
    var primary, fixed := RStrip(primaryBaseUrl), InferenceBaseUrls(primaryBaseUrl);
    NoSlashes();
    RStripIs(primaryBaseUrl);
    assert RStripAll(REGIONS + [primary]) == REGIONS + [primary] by {
      if primary != "" { RStripKeeps(primary); }
      assert RStripAll(REGIONS + [primary]) == RStripAll(REGIONS) + [RStrip(primary)];
    }
    DedupIs([primary] + ALIASES);
    DedupIs(REGIONS + [primary]);
    DedupIs([winner, primary] + RegionCandidates(primaryBaseUrl) + fixed);
  }

  /** How a probe of the regions ends: with the fastest healthy one, if any, or with an exception. */
  datatype Probe = Found(winner: Option<string>) | Raised

  /** The pool as one thread sees it, uninterrupted. */
  class BaseUrlPool {
    const primary: string
    var urls: seq<string>
    var pending: bool

    constructor (primaryBaseUrl: string, affinityPending: bool)
      ensures primary == primaryBaseUrl && pending == affinityPending && urls == InferenceBaseUrls(primaryBaseUrl)
    {
      primary, pending, urls := primaryBaseUrl, affinityPending, InferenceBaseUrls(primaryBaseUrl);
    }

    /** current: `swapped` is the client identity test, `probe` how a probe would end. None is the probe's exception. */
    method Current(swapped: bool, probe: Probe) returns (list: Option<seq<string>>)
      modifies `urls, `pending
      ensures list.None? <==> old(pending) && !swapped && probe.Raised?
      ensures list.None? ==> pending && urls == old(urls)
      ensures list.Some? ==>
        && list.value == urls && !pending
        && urls == if old(pending) && !swapped then OrderedRegions(primary, probe.winner) else old(urls)
    {
      if swapped {
        pending := false;
      }
      if !pending {
        return Some(urls);
      }
      if probe.Raised? {
        return None;
      }
      urls := OrderedRegions(primary, probe.winner);
      pending := false;
      return Some(urls);
    }
  }

  // ----- the pool under any interleaving -----

  /** Where a thread is inside current(). `Reading` is the final read of the list. */
  datatype Pc = Entering | Checking | Waiting | Locked | Probing | Settling | Leaving | Reading

  /** The shared fields, the lock's holder, each thread's position, and what has happened so far. */
  datatype Pool = Pool(
    primary: string, urls: seq<string>, pending: bool, holder: Option<nat>, at: map<nat, Pc>,
    probes: nat, replacements: nat, raised: nat)

  /** One step of one thread: `swapped` is what the client identity test reads, `probe` how a probe ends. */
  datatype Turn = Turn(thread: nat, swapped: bool, probe: Probe)

  function Fresh(primary: string, affinityPending: bool): Pool
  {
    Pool(primary, InferenceBaseUrls(primary), affinityPending, None, map[], 0, 0, 0)
  }

  function PcOf(p: Pool, thread: nat): Pc
  {
    if thread in p.at then p.at[thread] else Entering
  }

  predicate CanTurn(p: Pool, t: Turn)
  {
    PcOf(p, t.thread).Waiting? ==> p.holder.None?
  }

  function Goto(p: Pool, thread: nat, pc: Pc): Pool
  {
    p.(at := p.at[thread := pc])
  }

  function TakeTurn(p: Pool, t: Turn): Pool
    requires CanTurn(p, t)
  {
    match PcOf(p, t.thread)
    case Entering => Goto(if t.swapped then p.(pending := false) else p, t.thread, Checking)
    case Checking => Goto(p, t.thread, if p.pending then Waiting else Reading)
    case Waiting => Goto(p.(holder := Some(t.thread)), t.thread, Locked)
    case Locked =>
      if p.pending then Goto(p.(probes := p.probes + 1), t.thread, Probing) else Goto(p, t.thread, Leaving)
    case Probing =>
      (match t.probe
       case Raised => Goto(p.(holder := None, raised := p.raised + 1), t.thread, Entering)
       case Found(winner) =>
         Goto(p.(urls := OrderedRegions(p.primary, winner), replacements := p.replacements + 1), t.thread, Settling))
    case Settling => Goto(p.(pending := false), t.thread, Leaving)
    case Leaving => Goto(p.(holder := None), t.thread, Reading)
    case Reading => Goto(p, t.thread, Entering)
  }

  predicate Inside(pc: Pc)
  {
    pc.Locked? || pc.Probing? || pc.Settling? || pc.Leaving?
  }

  /** Mutual exclusion: whoever is inside the critical section holds the lock, and the holder is inside it. */
  ghost predicate LockInv(p: Pool)
  {
    && (forall t :: t in p.at && Inside(p.at[t]) ==> p.holder == Some(t))
    && (p.holder.Some? ==> Inside(PcOf(p, p.holder.value)))
  }

  /** The lock's holder is probing. */
  predicate IsProbing(p: Pool)
  {
    p.holder.Some? && PcOf(p, p.holder.value).Probing?
  }

  /**
    Why no second probe can complete: every probe either raised, completed, or is still running; and once one has
    completed, the flag is down or its runner still holds the lock.
   */
  ghost predicate ProbeInv(p: Pool)
  {
    && p.replacements <= 1
    && p.probes == p.replacements + p.raised + (if IsProbing(p) then 1 else 0)
    && (p.replacements == 1 && p.pending ==> p.holder.Some? && PcOf(p, p.holder.value).Settling?)
    && (IsProbing(p) ==> p.replacements == 0)
  }

  /** The list is the static one until it is replaced, and a probed one afterwards. */
  ghost predicate ListInv(p: Pool)
  {
    && (p.replacements == 0 ==> p.urls == InferenceBaseUrls(p.primary))
    && (p.replacements != 0 ==> exists w :: p.urls == OrderedRegions(p.primary, w))
  }

  ghost predicate PoolInv(p: Pool)
  {
    LockInv(p) && ProbeInv(p) && ListInv(p)
  }

  lemma TurnKeepsLock(p: Pool, t: Turn)
    requires LockInv(p) && CanTurn(p, t)
    ensures LockInv(TakeTurn(p, t))
  {
    var q := TakeTurn(p, t);
    forall u | u in q.at && Inside(q.at[u]) ensures q.holder == Some(u) {
      if u != t.thread {
        assert u in p.at && q.at[u] == p.at[u];
      }
    }
  }

  lemma TurnKeepsProbe(p: Pool, t: Turn)
    requires LockInv(p) && ProbeInv(p) && CanTurn(p, t)
    ensures ProbeInv(TakeTurn(p, t))
    ensures PcOf(p, t.thread).Probing? ==> p.replacements == 0
    ensures p.replacements == 1 ==> TakeTurn(p, t).probes == p.probes
  {
    if Inside(PcOf(p, t.thread)) {
      assert p.holder == Some(t.thread);
    }
  }

  lemma TurnLists(p: Pool, t: Turn)
    requires CanTurn(p, t)
    ensures var q := TakeTurn(p, t);
      && q.primary == p.primary
      && if PcOf(p, t.thread).Probing? && t.probe.Found?
         then q.urls == OrderedRegions(p.primary, t.probe.winner) && q.replacements == p.replacements + 1
         else q.urls == p.urls && q.replacements == p.replacements
  {
  }

  lemma ProbedListInv(p: Pool, q: Pool, winner: Option<string>)
    requires ListInv(p) && p.replacements == 0 && q.replacements == 1
    requires q.primary == p.primary && q.urls == OrderedRegions(p.primary, winner)
    ensures ListInv(q) && |p.urls| <= |q.urls|
  {
    ProbedCandidates(p.primary, winner);
  }

  lemma TurnKeepsPool(p: Pool, t: Turn)
    requires PoolInv(p) && CanTurn(p, t)
    ensures PoolInv(TakeTurn(p, t)) && TakeTurn(p, t).primary == p.primary
    ensures |p.urls| <= |TakeTurn(p, t).urls|
  {
    TurnKeepsLock(p, t);
    TurnKeepsProbe(p, t);
    TurnLists(p, t);
    if PcOf(p, t.thread).Probing? && t.probe.Found? {
      ProbedListInv(p, TakeTurn(p, t), t.probe.winner);
    }
  }

  predicate CanRun(p: Pool, turns: seq<Turn>)
    decreases |turns|
  {
    turns == [] || (CanTurn(p, turns[0]) && CanRun(TakeTurn(p, turns[0]), turns[1..]))
  }

  function RunPool(p: Pool, turns: seq<Turn>): Pool
    requires CanRun(p, turns)
    decreases |turns|
  {
    if turns == [] then p else RunPool(TakeTurn(p, turns[0]), turns[1..])
  }

  lemma {:induction false} RunKeepsPool(p: Pool, turns: seq<Turn>)
    requires PoolInv(p) && CanRun(p, turns)
    ensures PoolInv(RunPool(p, turns)) && RunPool(p, turns).primary == p.primary
    ensures |p.urls| <= |RunPool(p, turns).urls|
    decreases |turns|
  {
    if turns != [] {
      TurnKeepsPool(p, turns[0]);
      RunKeepsPool(TakeTurn(p, turns[0]), turns[1..]);
    }
  }

  /**
    In every interleaving of any number of threads, client swaps and raising probes included, at most one probe
    completes and the list is replaced at most once, by one without repeats that keeps every static candidate. At most
    one probe more is started than raises.
   */
  lemma ReplacedAtMostOnce(primary: string, affinityPending: bool, turns: seq<Turn>)
    requires CanRun(Fresh(primary, affinityPending), turns)
    ensures var p := RunPool(Fresh(primary, affinityPending), turns);
      && p.replacements <= 1 && p.probes <= p.raised + 1
      && NoRepeats(p.urls) && (forall u :: u in InferenceBaseUrls(primary) ==> u in p.urls)
      && (p.replacements == 0 ==> p.urls == InferenceBaseUrls(primary))
  {
    FreshPoolInv(primary, affinityPending);
    RunKeepsPool(Fresh(primary, affinityPending), turns);
    var p := RunPool(Fresh(primary, affinityPending), turns);
    StaticCandidates(primary);
    if p.replacements == 1 {
      var w :| p.urls == OrderedRegions(p.primary, w);
      ProbedCandidates(primary, w);
    }
  }

  /** Once a probe has completed no probe starts again, whoever was already past the check. */
  lemma {:induction false} NoProbeAfterCompletion(p: Pool, turns: seq<Turn>)
    requires PoolInv(p) && CanRun(p, turns) && p.replacements == 1
    ensures var q := RunPool(p, turns); q.probes == p.probes && q.replacements == 1 && q.urls == p.urls
    decreases |turns|
  {
    if turns != [] {
      TurnKeepsPool(p, turns[0]);
      TurnKeepsProbe(p, turns[0]);
      TurnLists(p, turns[0]);
      NoProbeAfterCompletion(TakeTurn(p, turns[0]), turns[1..]);
    }
  }

  /** A probe that raises leaves the flag up and releases the lock, so the next reader probes again. */
  lemma RaisingProbesAgain(primary: string)
    ensures var raise := Turn(0, false, Raised);
      var turns := [raise, raise, raise, raise, raise, raise, raise, raise, raise];
      CanRun(Fresh(primary, true), turns) && RunPool(Fresh(primary, true), turns).probes == 2
  {
    var t := Turn(0, false, Raised);
    var p0 := Fresh(primary, true);
    var p1 := TakeTurn(p0, t);
    var p2 := TakeTurn(p1, t);
    var p3 := TakeTurn(p2, t);
    var p4 := TakeTurn(p3, t);
    var p5 := TakeTurn(p4, t);
    var p6 := TakeTurn(p5, t);
    var p7 := TakeTurn(p6, t);
    var p8 := TakeTurn(p7, t);
    var p9 := TakeTurn(p8, t);
    assert p5.probes == 1 && p5.pending && p5.holder.None? && PcOf(p5, 0).Entering?;
    assert p9.probes == 2;
    RunsNext(p8, t, []);
    RunsNext(p7, t, [t]);
    RunsNext(p6, t, [t, t]);
    RunsNext(p5, t, [t, t, t]);
    RunsNext(p4, t, [t, t, t, t]);
    RunsNext(p3, t, [t, t, t, t, t]);
    RunsNext(p2, t, [t, t, t, t, t, t]);
    RunsNext(p1, t, [t, t, t, t, t, t, t]);
    RunsNext(p0, t, [t, t, t, t, t, t, t, t]);
  }

  lemma RunsNext(p: Pool, t: Turn, rest: seq<Turn>)
    requires CanTurn(p, t) && CanRun(TakeTurn(p, t), rest)
    ensures CanRun(p, [t] + rest) && RunPool(p, [t] + rest) == RunPool(TakeTurn(p, t), rest)
  {
    assert ([t] + rest)[1..] == rest;
  }

  /** An index that was in range at one read is in range at every later read, so a controller is never stranded. */
  lemma IndexNeverStranded(p: Pool, turns: seq<Turn>, index: nat)
    requires PoolInv(p) && CanRun(p, turns) && index < |p.urls|
    ensures index < |RunPool(p, turns).urls|
  {
    RunKeepsPool(p, turns);
  }

  lemma FreshPoolInv(primary: string, affinityPending: bool)
    ensures PoolInv(Fresh(primary, affinityPending))
  {
  }

  /** A thread that is somewhere, with everything else as it was. */
  function Where(p: Pool, thread: nat, pc: Pc): Pool
  {
    p.(at := p.at[thread := pc])
  }

  lemma WhereAgain(p: Pool, thread: nat, pc: Pc, later: Pc)
    ensures Where(Where(p, thread, pc), thread, later) == Where(p, thread, later)
  {
    assert p.at[thread := pc][thread := later] == p.at[thread := later];
  }

  /** One turn of a thread that is known to be somewhere, and what it leaves. */
  lemma TurnFrom(p: Pool, t: Turn, pc: Pc)
    requires pc.Waiting? ==> p.holder.None?
    ensures var here := Where(p, t.thread, pc);
      && CanTurn(here, t)
      && (pc.Checking? ==> TakeTurn(here, t) == Where(p, t.thread, if p.pending then Waiting else Reading))
      && (pc.Waiting? ==> TakeTurn(here, t) == Where(p.(holder := Some(t.thread)), t.thread, Locked))
      && (pc.Locked? && p.pending ==> TakeTurn(here, t) == Where(p.(probes := p.probes + 1), t.thread, Probing))
      && (pc.Probing? && t.probe.Raised? ==>
            TakeTurn(here, t) == Where(p.(holder := None, raised := p.raised + 1), t.thread, Entering))
      && (pc.Probing? && t.probe.Found? ==>
            TakeTurn(here, t)
            == Where(p.(urls := OrderedRegions(p.primary, t.probe.winner), replacements := p.replacements + 1),
                     t.thread, Settling))
      && (pc.Settling? ==> TakeTurn(here, t) == Where(p.(pending := false), t.thread, Leaving))
      && (pc.Leaving? ==> TakeTurn(here, t) == Where(p.(holder := None), t.thread, Reading))
  {
    forall later: Pc ensures Where(Where(p, t.thread, pc), t.thread, later) == Where(p, t.thread, later) {
      WhereAgain(p, t.thread, pc, later);
    }
  }

  /** One thread alone does what an uninterrupted read does: with the flag down, or a swapped client, it leaves the list. */
  lemma AloneSkips(p: Pool, t: Turn)
    requires PcOf(p, t.thread).Entering? && (!p.pending || t.swapped)
    ensures CanRun(p, [t, t]) && RunPool(p, [t, t]) == Where(p.(pending := false), t.thread, Reading)
  {
    var lowered := p.(pending := false);
    assert TakeTurn(p, t) == Where(lowered, t.thread, Checking);
    TurnFrom(lowered, t, Checking);
    RunsNext(Where(lowered, t.thread, Checking), t, []);
    RunsNext(p, t, [t]);
  }

  /** With the flag up it probes, and the list is the probed one when it reads. */
  lemma AloneProbes(p: Pool, t: Turn)
    requires PcOf(p, t.thread).Entering? && p.holder.None? && p.pending && !t.swapped && t.probe.Found?
    ensures var turns := [t, t, t, t, t, t, t];
      && CanRun(p, turns)
      && RunPool(p, turns)
         == Where(p.(urls := OrderedRegions(p.primary, t.probe.winner), pending := false,
                     probes := p.probes + 1, replacements := p.replacements + 1), t.thread, Reading)
  {
    var locked := p.(holder := Some(t.thread));
    var probing := locked.(probes := p.probes + 1);
    var probed := probing.(urls := OrderedRegions(p.primary, t.probe.winner), replacements := p.replacements + 1);
    var settled := probed.(pending := false);
    TurnFrom(p, t, Checking);
    TurnFrom(p, t, Waiting);
    TurnFrom(locked, t, Locked);
    TurnFrom(probing, t, Probing);
    TurnFrom(probed, t, Settling);
    TurnFrom(settled, t, Leaving);
    RunsNext(Where(settled, t.thread, Leaving), t, []);
    RunsNext(Where(probed, t.thread, Settling), t, [t]);
    RunsNext(Where(probing, t.thread, Probing), t, [t, t]);
    RunsNext(Where(locked, t.thread, Locked), t, [t, t, t]);
    RunsNext(Where(p, t.thread, Waiting), t, [t, t, t, t]);
    RunsNext(Where(p, t.thread, Checking), t, [t, t, t, t, t]);
    RunsNext(p, t, [t, t, t, t, t, t]);
    assert settled.(holder := None) == p.(urls := OrderedRegions(p.primary, t.probe.winner), pending := false,
                                          probes := p.probes + 1, replacements := p.replacements + 1);
  }

  /** A probe that raises leaves everything but the counts, so the lock is free and the flag still up. */
  lemma AloneRaises(p: Pool, t: Turn)
    requires PcOf(p, t.thread).Entering? && p.holder.None? && p.pending && !t.swapped && t.probe.Raised?
    ensures CanRun(p, [t, t, t, t, t])
    ensures RunPool(p, [t, t, t, t, t]) == Where(p.(probes := p.probes + 1, raised := p.raised + 1), t.thread, Entering)
  {
    var locked := p.(holder := Some(t.thread));
    var probing := locked.(probes := p.probes + 1);
    TurnFrom(p, t, Checking);
    TurnFrom(p, t, Waiting);
    TurnFrom(locked, t, Locked);
    TurnFrom(probing, t, Probing);
    RunsNext(Where(probing, t.thread, Probing), t, []);
    RunsNext(Where(locked, t.thread, Locked), t, [t]);
    RunsNext(Where(p, t.thread, Waiting), t, [t, t]);
    RunsNext(Where(p, t.thread, Checking), t, [t, t, t]);
    RunsNext(p, t, [t, t, t, t]);
    assert probing.(holder := None, raised := p.raised + 1) == p.(probes := p.probes + 1, raised := p.raised + 1);
  }

  // ----- the reads of one call -----

  /** A prefix of a run, then the rest. */
  lemma {:induction false} RunSplits(p: Pool, turns: seq<Turn>, i: nat)
    requires CanRun(p, turns) && i <= |turns|
    ensures CanRun(p, turns[..i]) && CanRun(RunPool(p, turns[..i]), turns[i..])
    ensures RunPool(RunPool(p, turns[..i]), turns[i..]) == RunPool(p, turns)
    decreases i
  {
    if i > 0 {
      RunSplits(TakeTurn(p, turns[0]), turns[1..], i - 1);
      assert turns[..i][1..] == turns[1..][..i - 1];
      assert turns[1..][i - 1..] == turns[i..];
    } else {
      assert turns[..0] == [] && turns[0..] == turns;
    }
  }

  /** The list a reader gets after the first `at` turns of a run. */
  function ReadAt(p: Pool, turns: seq<Turn>, at: nat): seq<string>
    requires CanRun(p, turns)
  {
    if at <= |turns| then RunSplits(p, turns, at); RunPool(p, turns[..at]).urls else RunPool(p, turns).urls
  }

  /** Later reads of one pool never find a shorter list, and no read finds an empty one. */
  lemma ReadsGrow(primary: string, affinityPending: bool, turns: seq<Turn>, early: nat, late: nat)
    requires CanRun(Fresh(primary, affinityPending), turns) && early <= late
    ensures var p := Fresh(primary, affinityPending);
      0 < |ReadAt(p, turns, early)| <= |ReadAt(p, turns, late)|
  {
    var p := Fresh(primary, affinityPending);
    var i, j := Least(early, |turns|), Least(late, |turns|);
    FreshPoolInv(primary, affinityPending);
    StaticCandidates(primary);
    ReadAtLeast(p, turns, early);
    ReadAtLeast(p, turns, late);
    RunSplits(p, turns, j);
    RunSplits(p, turns[..j], i);
    assert turns[..j][..i] == turns[..i];
    RunKeepsPool(p, turns[..i]);
    IndexNeverStranded(RunPool(p, turns[..i]), turns[..j][i..], |RunPool(p, turns[..i]).urls| - 1);
  }

  function Least(a: nat, b: nat): nat { if a <= b then a else b }

  lemma ReadAtLeast(p: Pool, turns: seq<Turn>, at: nat)
    requires CanRun(p, turns)
    ensures var i := Least(at, |turns|);
      CanRun(p, turns[..i]) && ReadAt(p, turns, at) == RunPool(p, turns[..i]).urls
  {
    RunSplits(p, turns, Least(at, |turns|));
    assert turns[..|turns|] == turns;
  }
}
