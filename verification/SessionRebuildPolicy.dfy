// Whether an RDP session change should ask for a rebuild at all
// (centroid-hmi/windows/runner/session_rebuild_policy.cpp).

module SessionRebuildPolicy {
  import opened Prelude

  datatype Config = Config(reconnectProbationMs: nat, stormDetectorAvailable: bool)

  datatype AdapterCheck = Unknown | Same | Changed

  datatype Verdict = Ignored | Deferred | Probe | KeptRenderer | RebuildNow

  datatype Decision = Decision(verdict: Verdict, reason: string, adapter: AdapterCheck, waitedMs: nat)

  const NOTHING := Decision(Ignored, "", Unknown, 0)
  const ADAPTER_CHANGED := "session change: remote connect (render adapter changed)"
  const NO_DETECTOR := "session change: remote connect (no context-loss detector installed)"
  const NO_FRAME := "session change: remote connect (no frame within the probation)"

  datatype State = State(suspect: bool, probation: bool, probationSinceMs: nat)

  const FRESH := State(false, false, 0)

  /** Two adapters, each known or not. */
  function ClassifyAdapterCheck(engine: Option<nat>, current: Option<nat>): (check: AdapterCheck)
    ensures check == Changed <==> engine.Some? && current.Some? && engine != current
    ensures check == Same ==> engine == current
  {
    match (engine, current)
    case (Some(e), Some(c)) => if e == c then Same else Changed
    case _ => Unknown
  }

  // --- What each call does to the state -------------------------------------------

  function AfterEngineCreated(): State {
    FRESH
  }

  function AfterDisconnect(s: State): (State, Decision) {
    (State(true, false, 0),
     if s.suspect && !s.probation then NOTHING else Decision(Deferred, "", Unknown, 0))
  }

  function AfterConnect(c: Config, s: State, now: nat, adapter: AdapterCheck): (State, Decision) {
    if adapter == Changed then
      (State(false, false, s.probationSinceMs), Decision(RebuildNow, ADAPTER_CHANGED, adapter, 0))
    else if !c.stormDetectorAvailable then
      (State(false, false, s.probationSinceMs), Decision(RebuildNow, NO_DETECTOR, adapter, 0))
    else if s.probation then
      (s, Decision(Ignored, "", adapter, 0))
    else
      (State(s.suspect, true, now), Decision(Probe, "", adapter, c.reconnectProbationMs))
  }

  function AfterFrame(s: State, now: nat): (State, Decision) {
    if !s.probation then (s, NOTHING)
    else (FRESH, Decision(KeptRenderer, "", Unknown, Elapsed(s.probationSinceMs, now)))
  }

  function AfterTick(c: Config, s: State, now: nat): (State, Decision) {
    if !s.probation || Elapsed(s.probationSinceMs, now) < c.reconnectProbationMs then (s, NOTHING)
    else (FRESH, Decision(RebuildNow, NO_FRAME, Unknown, Elapsed(s.probationSinceMs, now)))
  }

  // --- The machine ------------------------------------------------------------------

  class Policy {
    const config: Config
    var suspect: bool
    var probation: bool
    var probationSinceMs: nat

    function View(): State
      reads this
    {
      State(suspect, probation, probationSinceMs)
    }

    constructor (config: Config)
      ensures this.config == config
      ensures View() == FRESH
    {
      this.config := config;
      suspect, probation, probationSinceMs := false, false, 0;
    }

    method EngineCreated()
      modifies this
      ensures View() == AfterEngineCreated()
    {
      suspect, probation, probationSinceMs := false, false, 0;
    }

    method OnRemoteDisconnect() returns (d: Decision)
      modifies this
      ensures View() == AfterDisconnect(old(View())).0
      ensures d == AfterDisconnect(old(View())).1
    {
      var wasProbing := probation;
      probation := false;
      probationSinceMs := 0;
      if suspect && !wasProbing {
        return NOTHING;
      }
      suspect := true;
      return Decision(Deferred, "", Unknown, 0);
    }

    method OnRemoteConnect(now: nat, adapter: AdapterCheck) returns (d: Decision)
      modifies this
      ensures View() == AfterConnect(config, old(View()), now, adapter).0
      ensures d == AfterConnect(config, old(View()), now, adapter).1
    {
      if adapter == Changed {
        suspect := false;
        probation := false;
        return Decision(RebuildNow, ADAPTER_CHANGED, adapter, 0);
      }
      if !config.stormDetectorAvailable {
        suspect := false;
        probation := false;
        return Decision(RebuildNow, NO_DETECTOR, adapter, 0);
      }
      if probation {
        return Decision(Ignored, "", adapter, 0);
      }
      probation := true;
      probationSinceMs := now;
      return Decision(Probe, "", adapter, config.reconnectProbationMs);
    }

    method OnFramePresented(now: nat) returns (d: Decision)
      modifies this
      ensures View() == AfterFrame(old(View()), now).0
      ensures d == AfterFrame(old(View()), now).1
    {
      if !probation {
        return NOTHING;
      }
      d := Decision(KeptRenderer, "", Unknown, Elapsed(probationSinceMs, now));
      probation := false;
      probationSinceMs := 0;
      suspect := false;
    }

    method OnTick(now: nat) returns (d: Decision)
      modifies this
      ensures View() == AfterTick(config, old(View()), now).0
      ensures d == AfterTick(config, old(View()), now).1
    {
      if !probation {
        return NOTHING;
      }
      var waited := if now > probationSinceMs then now - probationSinceMs else 0;
      if waited < config.reconnectProbationMs {
        return NOTHING;
      }
      probation := false;
      probationSinceMs := 0;
      suspect := false;
      return Decision(RebuildNow, NO_FRAME, Unknown, waited);
    }
  }

  // --- Runs -----------------------------------------------------------------------------

  datatype Event =
    | EngineUp(now: nat)
    | Disconnect(now: nat)
    | Connect(now: nat, adapter: AdapterCheck)
    | Frame(now: nat)
    | Tick(now: nat)

  ghost predicate Ordered(ev: seq<Event>) {
    forall i, j :: 0 <= i < j < |ev| ==> ev[i].now <= ev[j].now
  }

  function Step(c: Config, s: State, e: Event): (State, Decision) {
    match e
    case EngineUp(_) => (AfterEngineCreated(), NOTHING)
    case Disconnect(_) => AfterDisconnect(s)
    case Connect(now, adapter) => AfterConnect(c, s, now, adapter)
    case Frame(now) => AfterFrame(s, now)
    case Tick(now) => AfterTick(c, s, now)
  }

  function StateAt(c: Config, ev: seq<Event>, n: nat): State
    requires n <= |ev|
  {
    if n == 0 then FRESH else Step(c, StateAt(c, ev, n - 1), ev[n - 1]).0
  }

  function Answer(c: Config, ev: seq<Event>, i: nat): Decision
    requires i < |ev|
  {
    Step(c, StateAt(c, ev, i), ev[i]).1
  }

  /** Nothing that settles a probation: no frame, no disconnect, no new engine, no rebuild. */
  ghost predicate Unsettled(c: Config, ev: seq<Event>, i: nat, n: nat)
    requires i <= n <= |ev|
  {
    forall k :: i <= k < n ==>
      !ev[k].Frame? && !ev[k].Disconnect? && !ev[k].EngineUp? && Answer(c, ev, k).verdict != RebuildNow
  }

  lemma {:induction false} ProbationOrigin(c: Config, ev: seq<Event>, n: nat) returns (i: nat)
    requires n <= |ev| && StateAt(c, ev, n).probation
    ensures i < n && ev[i].Connect? && Answer(c, ev, i).verdict == Probe
    ensures StateAt(c, ev, n).probationSinceMs == ev[i].now
    ensures Unsettled(c, ev, i + 1, n)
  {
    if Answer(c, ev, n - 1).verdict == Probe {
      i := n - 1;
    } else {
      i := ProbationOrigin(c, ev, n - 1);
    }
  }

  /**
   * A deadline rebuild is never speculation: a connect opened a probation a
   * full probation earlier, and since then there was no frame, no disconnect
   * and no other engine.
   */
  lemma DeadlineRebuildIsEarned(c: Config, ev: seq<Event>, j: nat) returns (i: nat)
    requires Ordered(ev) && j < |ev| && ev[j].Tick? && Answer(c, ev, j).verdict == RebuildNow
    ensures i < j && ev[i].Connect? && Answer(c, ev, i).verdict == Probe
    ensures ev[j].now - ev[i].now >= c.reconnectProbationMs
    ensures Unsettled(c, ev, i + 1, j)
  {
    i := ProbationOrigin(c, ev, j);
  }

  lemma {:induction false} ProbationStaysOpen(c: Config, ev: seq<Event>, i: nat, n: nat)
    requires i < n <= |ev| && Answer(c, ev, i).verdict == Probe && Unsettled(c, ev, i + 1, n)
    ensures StateAt(c, ev, n).probation && StateAt(c, ev, n).probationSinceMs == ev[i].now
  {
    if n > i + 1 {
      ProbationStaysOpen(c, ev, i, n - 1);
      assert Answer(c, ev, n - 1).verdict != RebuildNow;
    }
  }

  /** And a probation that nothing settles is always ended by the first tick past its deadline. */
  lemma DeadlineIsKept(c: Config, ev: seq<Event>, i: nat, j: nat)
    requires Ordered(ev) && i < j < |ev| && ev[j].Tick?
    requires Answer(c, ev, i).verdict == Probe && Unsettled(c, ev, i + 1, j)
    ensures Answer(c, ev, j).verdict == RebuildNow <==> ev[j].now - ev[i].now >= c.reconnectProbationMs
  {
    ProbationStaysOpen(c, ev, i, j);
  }

  // --- The rule a session change is answered by -------------------------------------------

  /** Since when a probation is open: since the connect that was answered by probing. */
  function ProbationSince(c: Config, ev: seq<Event>, n: nat): Option<nat>
    requires n <= |ev|
  {
    if n == 0 || ev[n - 1].EngineUp? || ev[n - 1].Disconnect? || ev[n - 1].Frame? then None
    else match Answer(c, ev, n - 1).verdict
      case RebuildNow => None
      case Probe => Some(ev[n - 1].now)
      case _ => ProbationSince(c, ev, n - 1)
  }

  /** A disconnect has been seen that no new engine, no rebuild and no frame kept in a probation has settled. */
  predicate Suspected(c: Config, ev: seq<Event>, n: nat)
    requires n <= |ev|
  {
    n > 0 && !ev[n - 1].EngineUp?
    && Answer(c, ev, n - 1).verdict != RebuildNow && Answer(c, ev, n - 1).verdict != KeptRenderer
    && (ev[n - 1].Disconnect? || Suspected(c, ev, n - 1))
  }

  lemma {:induction false} FieldsAreTold(c: Config, ev: seq<Event>, n: nat)
    requires Ordered(ev) && n <= |ev|
    ensures var s := StateAt(c, ev, n);
      && s.suspect == Suspected(c, ev, n)
      && ProbationSince(c, ev, n) == (if s.probation then Some(s.probationSinceMs) else None)
      && (s.probation ==> n > 0 && s.probationSinceMs <= ev[n - 1].now)
  {
    if n > 0 { FieldsAreTold(c, ev, n - 1); }
  }

  /**
   * A connect rebuilds at once exactly when the adapter is known to have
   * changed or nothing else would notice a lost context, and leaves no
   * probation open then; otherwise it opens the one probation there is.
   */
  lemma ConnectsAreAnsweredByTheRule(c: Config, ev: seq<Event>, i: nat)
    requires Ordered(ev) && i < |ev| && ev[i].Connect?
    ensures var d, e := Answer(c, ev, i), ev[i];
      && (d.verdict == RebuildNow <==> e.adapter == Changed || !c.stormDetectorAvailable)
      && (d.verdict == RebuildNow ==> ProbationSince(c, ev, i + 1) == None && !StateAt(c, ev, i + 1).probation)
      && (d.verdict != RebuildNow ==>
            && d.verdict == (if ProbationSince(c, ev, i).Some? then Ignored else Probe)
            && StateAt(c, ev, i + 1).probation
            && StateAt(c, ev, i + 1).probationSinceMs
               == if ProbationSince(c, ev, i).Some? then ProbationSince(c, ev, i).value else e.now)
      && d.adapter == e.adapter && d.waitedMs == (if d.verdict == Probe then c.reconnectProbationMs else 0)
      && d.reason == if d.verdict != RebuildNow then ""
                     else if e.adapter == Changed then "session change: remote connect (render adapter changed)"
                     else "session change: remote connect (no context-loss detector installed)"
  {
    FieldsAreTold(c, ev, i);
    FieldsAreTold(c, ev, i + 1);
  }

  /**
   * And everything else: a disconnect is deferred once until it is settled, a
   * frame keeps the renderer on probation, a tick gives up on it in time.
   */
  lemma OthersAreAnsweredByTheRule(c: Config, ev: seq<Event>, i: nat)
    requires Ordered(ev) && i < |ev| && !ev[i].Connect?
    ensures var d, e, since := Answer(c, ev, i), ev[i], ProbationSince(c, ev, i);
      && (d.verdict == Deferred <==> e.Disconnect? && (!Suspected(c, ev, i) || since.Some?))
      && (d.verdict == KeptRenderer <==> e.Frame? && since.Some?)
      && (d.verdict == RebuildNow <==> e.Tick? && since.Some? && e.now - since.value >= c.reconnectProbationMs)
      && (d.verdict == Ignored ==> d == NOTHING)
      && d.verdict != Probe && d.adapter == Unknown
      && d.waitedMs == (if d.verdict == KeptRenderer || d.verdict == RebuildNow then e.now - since.value else 0)
      && d.reason == if d.verdict != RebuildNow then ""
                     else "session change: remote connect (no frame within the probation)"
  {
    FieldsAreTold(c, ev, i);
  }

  /** A clock that reads earlier than the probation's beginning neither ends it nor counts as a wait. */
  lemma EarlierClock(c: Config, s: State, now: nat)
    requires s.probation && now < s.probationSinceMs
    ensures Step(c, s, Frame(now)).1 == Decision(KeptRenderer, "", Unknown, 0)
    ensures c.reconnectProbationMs > 0 ==> Step(c, s, Tick(now)) == (s, Decision(Ignored, "", Unknown, 0))
  {
  }
}
