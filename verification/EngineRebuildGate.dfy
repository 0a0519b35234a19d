// When an engine rebuild that was asked for may run
// (centroid-hmi/windows/runner/engine_rebuild_gate.cpp).

module EngineRebuildGate {
  import opened Prelude

  datatype Config = Config(debounceMs: nat, startupTimeoutMs: nat)

  datatype Verdict = Idle | RebuildNow | Queued | Coalesced | Debounced

  datatype Decision = Decision(
    verdict: Verdict,
    coalesced: nat,
    reason: string,
    waitedMs: nat,
    startupTimedOut: bool)

  const NOTHING_TO_DO := Decision(Idle, 0, "", 0, false)

  datatype State = State(
    startupInFlight: bool,
    startupStartedMs: nat,
    lastRebuildMs: nat,
    everRebuilt: bool,
    queued: bool,
    queuedCount: nat,
    queuedSinceMs: nat,
    queuedReason: string)

  const FRESH := State(false, 0, 0, false, false, 0, 0, "")

  // --- What each call does to the state ---------------------------------

  /** A startup is in flight and still inside its timeout. */
  predicate StartupBlocking(c: Config, s: State, now: nat) {
    s.startupInFlight && Elapsed(s.startupStartedMs, now) < c.startupTimeoutMs
  }

  /** `now` falls inside the debounce of the last rebuild. */
  predicate InsideDebounce(c: Config, s: State, now: nat) {
    s.everRebuilt && s.lastRebuildMs <= now && now - s.lastRebuildMs < c.debounceMs
  }

  function AfterEngineCreated(s: State, now: nat): State {
    s.(startupInFlight := true, startupStartedMs := now)
  }

  function AfterStartupComplete(s: State): State {
    s.(startupInFlight := false)
  }

  /** One more request in the queue, its reason the one that will be logged. */
  function Enqueued(s: State, reason: string, now: nat): State {
    s.(queued := true,
       queuedCount := s.queuedCount + 1,
       queuedSinceMs := if s.queued then s.queuedSinceMs else now,
       queuedReason := reason)
  }

  function AfterRelease(s: State, now: nat): (State, Decision) {
    (s.(queued := false, queuedCount := 0, queuedSinceMs := 0, queuedReason := "",
        lastRebuildMs := now, everRebuilt := true),
     Decision(RebuildNow,
              if s.queuedCount == 0 then 1 else s.queuedCount,
              s.queuedReason,
              if s.queued then Elapsed(s.queuedSinceMs, now) else 0,
              s.queued && s.startupInFlight))
  }

  function AfterRequest(c: Config, s: State, reason: string, now: nat): (State, Decision) {
    if InsideDebounce(c, s, now) then
      (s, Decision(Debounced, 0, reason, 0, false))
    else
      var q := Enqueued(s, reason, now);
      if StartupBlocking(c, s, now) then
        (q, Decision(if s.queued then Coalesced else Queued, q.queuedCount, reason,
                     Elapsed(q.queuedSinceMs, now), false))
      else
        AfterRelease(q, now)
  }

  function AfterPoll(c: Config, s: State, now: nat): (State, Decision) {
    if !s.queued || StartupBlocking(c, s, now) then (s, NOTHING_TO_DO) else AfterRelease(s, now)
  }

  // --- The machine --------------------------------------------------------

  class Gate {
    const config: Config
    var startupInFlight: bool
    var startupStartedMs: nat
    var lastRebuildMs: nat
    var everRebuilt: bool
    var queued: bool
    var queuedCount: nat
    var queuedSinceMs: nat
    var queuedReason: string

    function View(): State
      reads this
    {
      State(startupInFlight, startupStartedMs, lastRebuildMs, everRebuilt,
                      queued, queuedCount, queuedSinceMs, queuedReason)
    }

    constructor (config: Config)
      ensures this.config == config
      ensures View() == FRESH
    {
      this.config := config;
      startupInFlight, startupStartedMs := false, 0;
      lastRebuildMs, everRebuilt := 0, false;
      queued, queuedCount, queuedSinceMs, queuedReason := false, 0, 0, "";
    }

    method EngineCreated(now: nat)
      modifies this
      ensures View() == AfterEngineCreated(old(View()), now)
    {
      startupInFlight := true;
      startupStartedMs := now;
    }

    method StartupComplete(now: nat)
      modifies this
      ensures View() == AfterStartupComplete(old(View()))
    {
      startupInFlight := false;
    }

    method Release(now: nat) returns (d: Decision)
      modifies this
      ensures (View(), d) == AfterRelease(old(View()), now)
    {
      var waited := 0;
      if queued && now > queuedSinceMs {
        waited := now - queuedSinceMs;
      }
      d := Decision(RebuildNow, if queuedCount == 0 then 1 else queuedCount, queuedReason,
                    waited, queued && startupInFlight);
      queued := false;
      queuedCount := 0;
      queuedSinceMs := 0;
      queuedReason := "";
      lastRebuildMs := now;
      everRebuilt := true;
    }

    method Request(reason: string, now: nat) returns (d: Decision)
      modifies this
      ensures (View(), d) == AfterRequest(config, old(View()), reason, now)
    {
      if everRebuilt && now >= lastRebuildMs && now - lastRebuildMs < config.debounceMs {
        return Decision(Debounced, 0, reason, 0, false);
      }
      if StartupBlocking(config, View(), now) {
        var verdict := if queued then Coalesced else Queued;
        if !queued {
          queued := true;
          queuedSinceMs := now;
        }
        queuedCount := queuedCount + 1;
        queuedReason := reason;
        return Decision(verdict, queuedCount, reason, Elapsed(queuedSinceMs, now), false);
      }
      queuedCount := queuedCount + 1;
      queuedReason := reason;
      if !queued {
        queuedSinceMs := now;
      }
      queued := true;
      d := Release(now);
    }

    method Poll(now: nat) returns (d: Decision)
      modifies this
      ensures (View(), d) == AfterPoll(config, old(View()), now)
    {
      if !queued {
        return NOTHING_TO_DO;
      }
      if StartupBlocking(config, View(), now) {
        return NOTHING_TO_DO;
      }
      d := Release(now);
    }
  }

  // --- Runs ---------------------------------------------------------------

  datatype Event =
    | EngineUp(now: nat)
    | StartupDone(now: nat)
    | Asked(now: nat, reason: string)
    | Polled(now: nat)

  ghost predicate Ordered(ev: seq<Event>) {
    forall i, j :: 0 <= i < j < |ev| ==> ev[i].now <= ev[j].now
  }

  function Step(c: Config, s: State, e: Event): (State, Decision) {
    match e
    case EngineUp(now) => (AfterEngineCreated(s, now), NOTHING_TO_DO)
    case StartupDone(_) => (AfterStartupComplete(s), NOTHING_TO_DO)
    case Asked(now, reason) => AfterRequest(c, s, reason, now)
    case Polled(now) => AfterPoll(c, s, now)
  }

  /** The gate after the first `n` events of a run. */
  function StateAt(c: Config, ev: seq<Event>, n: nat): State
    requires n <= |ev|
  {
    if n == 0 then FRESH else Step(c, StateAt(c, ev, n - 1), ev[n - 1]).0
  }

  /** What the gate answered to event `i`. */
  function Answer(c: Config, ev: seq<Event>, i: nat): Decision
    requires i < |ev|
  {
    Step(c, StateAt(c, ev, i), ev[i]).1
  }

  /**
   * What every reachable state keeps at time `now`: the queue flag, its count
   * and its start agree, and -- the fact the debounce of a polled release rests
   * on -- a queued request began a whole debounce after the last rebuild.
   */
  ghost predicate Inv(c: Config, s: State, now: nat) {
    && (s.queued <==> s.queuedCount > 0)
    && (s.everRebuilt ==> s.lastRebuildMs <= now)
    && (s.queued ==> s.queuedSinceMs <= now)
    && (s.queued && s.everRebuilt ==> s.lastRebuildMs + c.debounceMs <= s.queuedSinceMs)
  }

  lemma {:induction false} Reachable(c: Config, ev: seq<Event>, n: nat, now: nat)
    requires Ordered(ev) && n <= |ev|
    requires n > 0 ==> ev[n - 1].now <= now
    ensures Inv(c, StateAt(c, ev, n), now)
  {
    if n > 0 {
      Reachable(c, ev, n - 1, ev[n - 1].now);
    }
  }

  /** While a request is queued, no later request is ever debounced. */
  lemma QueueOutlastsDebounce(c: Config, s: State, reason: string, now: nat)
    requires Inv(c, s, now) && s.queued
    ensures AfterRequest(c, s, reason, now).1.verdict != Debounced
    ensures !StartupBlocking(c, s, now) ==>
              && AfterPoll(c, s, now).1.verdict == RebuildNow
              && AfterPoll(c, s, now).1.coalesced == s.queuedCount
              && AfterRequest(c, s, reason, now).1.verdict == RebuildNow
              && AfterRequest(c, s, reason, now).1.coalesced == s.queuedCount + 1
  {
  }

  lemma {:induction false} RebuildIsRemembered(c: Config, ev: seq<Event>, i: nat, n: nat)
    requires Ordered(ev) && i < n <= |ev|
    requires Answer(c, ev, i).verdict == RebuildNow
    ensures StateAt(c, ev, n).everRebuilt && StateAt(c, ev, n).lastRebuildMs >= ev[i].now
  {
    if n > i + 1 {
      RebuildIsRemembered(c, ev, i, n - 1);
    }
  }

  /**
   * Any two rebuilds of a run are a whole debounce apart -- also those released
   * by `Poll`, which never looks at the debounce.
   */
  lemma RebuildSpacing(c: Config, ev: seq<Event>, i: nat, j: nat)
    requires Ordered(ev) && i < j < |ev|
    requires Answer(c, ev, i).verdict == RebuildNow
    requires Answer(c, ev, j).verdict == RebuildNow
    ensures ev[j].now - ev[i].now >= c.debounceMs
  {
    RebuildIsRemembered(c, ev, i, j);
    Reachable(c, ev, j, ev[j].now);
  }

  // --- Conservation -------------------------------------------------------

  function RequestsMade(ev: seq<Event>, n: nat): nat
    requires n <= |ev|
  {
    if n == 0 then 0 else RequestsMade(ev, n - 1) + if ev[n - 1].Asked? then 1 else 0
  }

  function RequestsDebounced(c: Config, ev: seq<Event>, n: nat): nat
    requires n <= |ev|
  {
    if n == 0 then 0
    else RequestsDebounced(c, ev, n - 1) + if Answer(c, ev, n - 1).verdict == Debounced then 1 else 0
  }

  function RequestsAnswered(c: Config, ev: seq<Event>, n: nat): nat
    requires n <= |ev|
  {
    if n == 0 then 0
    else
      var d := Answer(c, ev, n - 1);
      RequestsAnswered(c, ev, n - 1) + if d.verdict == RebuildNow then d.coalesced else 0
  }

  /** A step answers, debounces or queues exactly the request it is, if it is one. */
  lemma StepConserves(c: Config, s: State, e: Event)
    requires s.queued <==> s.queuedCount > 0
    ensures var (t, d) := Step(c, s, e);
      s.queuedCount + (if e.Asked? then 1 else 0)
      == t.queuedCount + (if d.verdict == Debounced then 1 else 0)
         + (if d.verdict == RebuildNow then d.coalesced else 0)
  {
  }

  /** No request is lost or counted twice. */
  lemma {:induction false} Conservation(c: Config, ev: seq<Event>, n: nat)
    requires Ordered(ev) && n <= |ev|
    ensures RequestsMade(ev, n)
         == RequestsDebounced(c, ev, n) + RequestsAnswered(c, ev, n) + StateAt(c, ev, n).queuedCount
  {
    hide Step;
    if n > 0 {
      Conservation(c, ev, n - 1);
      Reachable(c, ev, n - 1, ev[n - 1].now);
      StepConserves(c, StateAt(c, ev, n - 1), ev[n - 1]);
    }
  }

  /** The reason of the newest request among the first `n` events that was not debounced. */
  function NewestAccepted(c: Config, ev: seq<Event>, n: nat): string
    requires n <= |ev|
  {
    if n == 0 then ""
    else if ev[n - 1].Asked? && Answer(c, ev, n - 1).verdict != Debounced then ev[n - 1].reason
    else NewestAccepted(c, ev, n - 1)
  }

  lemma {:induction false} QueueHoldsNewest(c: Config, ev: seq<Event>, n: nat)
    requires n <= |ev|
    ensures StateAt(c, ev, n).queued ==> StateAt(c, ev, n).queuedReason == NewestAccepted(c, ev, n)
  {
    if n > 0 {
      QueueHoldsNewest(c, ev, n - 1);
    }
  }

  /** A rebuild is logged under the newest request it answers. */
  lemma ReleaseCarriesNewest(c: Config, ev: seq<Event>, i: nat)
    requires i < |ev| && Answer(c, ev, i).verdict == RebuildNow
    ensures Answer(c, ev, i).reason == NewestAccepted(c, ev, i + 1)
  {
    QueueHoldsNewest(c, ev, i);
  }

  lemma StepMovesQueue(c: Config, s: State, e: Event)
    ensures var (t, d) := Step(c, s, e);
      t.queued ==>
        if d.verdict == Queued then e.Asked? && t.queuedSinceMs == e.now
        else s.queued && t.queuedSinceMs == s.queuedSinceMs && d.verdict != RebuildNow
  {
  }

  /** The request a queue began with, and what has been queued since. */
  lemma {:induction false} QueueOrigin(c: Config, ev: seq<Event>, n: nat) returns (i: nat)
    requires Ordered(ev) && n <= |ev| && StateAt(c, ev, n).queued
    ensures i < n && ev[i].Asked? && Answer(c, ev, i).verdict == Queued
    ensures StateAt(c, ev, n).queuedSinceMs == ev[i].now
    ensures forall k :: i < k < n ==> Answer(c, ev, k).verdict != RebuildNow && Answer(c, ev, k).verdict != Queued
  {
    hide Step;
    StepMovesQueue(c, StateAt(c, ev, n - 1), ev[n - 1]);
    if Answer(c, ev, n - 1).verdict == Queued {
      i := n - 1;
    } else {
      i := QueueOrigin(c, ev, n - 1);
    }
  }

  /**
   * A release out of the queue says how long the oldest request in it waited,
   * and whether it had to be released over a startup that never completed.
   */
  lemma ReleaseReportsTheWait(c: Config, ev: seq<Event>, j: nat) returns (i: nat)
    requires Ordered(ev) && j < |ev| && StateAt(c, ev, j).queued && Answer(c, ev, j).verdict == RebuildNow
    ensures i < j && Answer(c, ev, i).verdict == Queued
    ensures Answer(c, ev, j).waitedMs == ev[j].now - ev[i].now
    ensures forall k :: i < k < j ==> Answer(c, ev, k).verdict != RebuildNow && Answer(c, ev, k).verdict != Queued
    ensures Answer(c, ev, j).startupTimedOut
       <==> StateAt(c, ev, j).startupInFlight
            && ev[j].now - StateAt(c, ev, j).startupStartedMs >= c.startupTimeoutMs
  {
    i := QueueOrigin(c, ev, j);
  }

  // --- Nothing waits for ever ---------------------------------------------

  /** Since event `i` no new engine was created, and no rebuild was answered. */
  ghost predicate Waiting(c: Config, ev: seq<Event>, i: nat, n: nat)
    requires i <= n <= |ev|
  {
    forall k :: i <= k < n ==> !ev[k].EngineUp? && Answer(c, ev, k).verdict != RebuildNow
  }

  lemma StepKeepsQueue(c: Config, s: State, e: Event)
    requires s.queued && !e.EngineUp? && Step(c, s, e).1.verdict != RebuildNow
    ensures var t := Step(c, s, e).0;
      && t.queued && t.startupStartedMs == s.startupStartedMs
      && (t.startupInFlight ==> s.startupInFlight && !e.StartupDone?)
  {
  }

  lemma {:induction false} StaysQueued(c: Config, ev: seq<Event>, i: nat, n: nat)
    requires i <= n <= |ev| && Waiting(c, ev, i, n)
    requires StateAt(c, ev, i).queued
    ensures StateAt(c, ev, n).queued
    ensures StateAt(c, ev, n).startupStartedMs == StateAt(c, ev, i).startupStartedMs
    ensures StateAt(c, ev, n).startupInFlight ==> StateAt(c, ev, i).startupInFlight
    ensures (exists k :: i <= k < n && ev[k].StartupDone?) ==> !StateAt(c, ev, n).startupInFlight
  {
    hide Step;
    if n > i {
      assert Answer(c, ev, n - 1).verdict != RebuildNow;
      StaysQueued(c, ev, i, n - 1);
      StepKeepsQueue(c, StateAt(c, ev, n - 1), ev[n - 1]);
    }
  }

  /**
   * A request queued at event `i` is released by the first `Poll` or request
   * that comes once the startup it waits for has completed or run out of time,
   * as long as no other engine was created meanwhile.
   */
  lemma QueuedIsReleased(c: Config, ev: seq<Event>, i: nat, j: nat)
    requires Ordered(ev) && i <= j < |ev|
    requires StateAt(c, ev, i).queued && Waiting(c, ev, i, j)
    requires ev[j].Polled? || ev[j].Asked?
    requires || (exists k :: i <= k < j && ev[k].StartupDone?)
             || ev[j].now >= StateAt(c, ev, i).startupStartedMs + c.startupTimeoutMs
             || !StateAt(c, ev, i).startupInFlight
    ensures Answer(c, ev, j).verdict == RebuildNow
    ensures Answer(c, ev, j).coalesced
         == StateAt(c, ev, j).queuedCount + if ev[j].Asked? then 1 else 0
  {
    StaysQueued(c, ev, i, j);
    Reachable(c, ev, j, ev[j].now);
    if ev[j].Asked? {
      QueueOutlastsDebounce(c, StateAt(c, ev, j), ev[j].reason, ev[j].now);
    }
  }

  // --- The rule a request is answered by -----------------------------------------------

  /** When the last rebuild was answered. */
  function LastRebuild(c: Config, ev: seq<Event>, n: nat): Option<nat>
    requires n <= |ev|
  {
    if n == 0 then None
    else if Answer(c, ev, n - 1).verdict == RebuildNow then Some(ev[n - 1].now)
    else LastRebuild(c, ev, n - 1)
  }

  /** When the startup in flight began, if the last engine created has not reported it complete. */
  function StartupSince(ev: seq<Event>, n: nat): Option<nat>
    requires n <= |ev|
  {
    if n == 0 then None
    else match ev[n - 1]
      case EngineUp(now) => Some(now)
      case StartupDone(_) => None
      case _ => StartupSince(ev, n - 1)
  }

  /** The requests answered Queued or Coalesced since the last rebuild. */
  function QueueLength(c: Config, ev: seq<Event>, n: nat): nat
    requires n <= |ev|
  {
    if n == 0 then 0
    else match Answer(c, ev, n - 1).verdict
      case RebuildNow => 0
      case Queued => QueueLength(c, ev, n - 1) + 1
      case Coalesced => QueueLength(c, ev, n - 1) + 1
      case _ => QueueLength(c, ev, n - 1)
  }

  /** When the first of them was made. */
  function QueueSince(c: Config, ev: seq<Event>, n: nat): nat
    requires n <= |ev|
  {
    if n == 0 then 0
    else if Answer(c, ev, n - 1).verdict == Queued then ev[n - 1].now
    else QueueSince(c, ev, n - 1)
  }

  predicate Within(since: Option<nat>, limit: nat, now: nat) {
    since.Some? && now < since.value + limit
  }

  lemma StepKeepsHistory(c: Config, s: State, e: Event)
    requires s.queued <==> s.queuedCount > 0
    ensures var (t, d) := Step(c, s, e);
      && (t.queued <==> t.queuedCount > 0)
      && (if d.verdict == RebuildNow then t.everRebuilt && t.lastRebuildMs == e.now && t.queuedCount == 0
          else t.everRebuilt == s.everRebuilt && t.lastRebuildMs == s.lastRebuildMs
               && t.queuedCount == s.queuedCount + (if d.verdict == Queued || d.verdict == Coalesced then 1 else 0))
      && (d.verdict == Queued ==> !s.queued && t.queuedSinceMs == e.now)
      && (d.verdict != Queued && t.queued ==> s.queued && t.queuedSinceMs == s.queuedSinceMs)
      && t.startupInFlight == (e.EngineUp? || (s.startupInFlight && !e.StartupDone?))
      && t.startupStartedMs == if e.EngineUp? then e.now else s.startupStartedMs
  {
  }

  lemma {:induction false} StateIsHistory(c: Config, ev: seq<Event>, n: nat)
    requires n <= |ev|
    ensures var s := StateAt(c, ev, n);
      && LastRebuild(c, ev, n) == (if s.everRebuilt then Some(s.lastRebuildMs) else None)
      && StartupSince(ev, n) == (if s.startupInFlight then Some(s.startupStartedMs) else None)
      && QueueLength(c, ev, n) == s.queuedCount && (s.queued <==> s.queuedCount > 0)
      && (s.queued ==> QueueSince(c, ev, n) == s.queuedSinceMs)
  {
    hide Step;
    if n > 0 {
      StateIsHistory(c, ev, n - 1);
      StepKeepsHistory(c, StateAt(c, ev, n - 1), ev[n - 1]);
    }
  }

  /**
   * What a request is answered with: a duplicate inside the debounce, queued
   * while a startup is in flight and young, and otherwise a rebuild that
   * answers it and everything queued.
   */
  lemma RequestsAreAnsweredByTheRule(c: Config, ev: seq<Event>, i: nat)
    requires Ordered(ev) && i < |ev| && ev[i].Asked?
    ensures var now, d, length := ev[i].now, Answer(c, ev, i), QueueLength(c, ev, i);
      && d.reason == ev[i].reason
      && d.waitedMs == (if d.verdict == Debounced || length == 0 then 0 else now - QueueSince(c, ev, i))
      && (if Within(LastRebuild(c, ev, i), c.debounceMs, now) then d.verdict == Debounced && d.coalesced == 0
          else
            && d.coalesced == length + 1
            && d.verdict == if !Within(StartupSince(ev, i), c.startupTimeoutMs, now) then RebuildNow
                            else if length == 0 then Queued
                            else Coalesced)
      && d.startupTimedOut == (d.verdict == RebuildNow && StartupSince(ev, i).Some?)
  {
    StateIsHistory(c, ev, i);
    Reachable(c, ev, i, ev[i].now);
    StartupWasEarlier(ev, i);
    hide LastRebuild, StartupSince, QueueLength, QueueSince, StateAt;
  }

  lemma {:induction false} StartupWasEarlier(ev: seq<Event>, n: nat)
    requires Ordered(ev) && n < |ev|
    ensures StartupSince(ev, n).Some? ==> StartupSince(ev, n).value <= ev[n].now
  {
    if n > 0 { StartupWasEarlier(ev, n - 1); }
  }

  /** A poll answers a queue as soon as no young startup is in flight, and nothing else is answered. */
  lemma PollsAreAnsweredByTheRule(c: Config, ev: seq<Event>, i: nat)
    requires Ordered(ev) && i < |ev| && !ev[i].Asked?
    ensures var now, d, length := ev[i].now, Answer(c, ev, i), QueueLength(c, ev, i);
      if ev[i].Polled? && length > 0 && !Within(StartupSince(ev, i), c.startupTimeoutMs, now) then
        && d.verdict == RebuildNow && d.coalesced == length && d.waitedMs == now - QueueSince(c, ev, i)
        && d.startupTimedOut == StartupSince(ev, i).Some?
      else d == Decision(Idle, 0, "", 0, false)
  {
    StateIsHistory(c, ev, i);
    Reachable(c, ev, i, ev[i].now);
    StartupWasEarlier(ev, i);
    hide LastRebuild, StartupSince, QueueLength, QueueSince, StateAt;
  }

  /**
   * A clock that reads earlier than before delays nothing for ever: it is not
   * taken for a duplicate, it is taken for a wait of no time, and a startup is
   * waited for as if it had just begun.
   */
  lemma EarlierClock(c: Config, s: State, reason: string, now: nat)
    ensures var d := Step(c, s, Asked(now, reason)).1;
      && (now < s.lastRebuildMs ==> d.verdict != Debounced)
      && (s.queued && now < s.queuedSinceMs ==> d.waitedMs == 0)
      && (s.startupInFlight && now < s.startupStartedMs && c.startupTimeoutMs > 0 ==> d.verdict != RebuildNow)
      && (s.startupInFlight && now < s.startupStartedMs && c.startupTimeoutMs > 0 ==>
            Step(c, s, Polled(now)) == (s, Decision(Idle, 0, "", 0, false)))
  {
  }
}
