// What the composed host keeps over every run: any interleaving of ticks,
// losses, session changes, resumes and channel messages of any epoch, under a
// clock that never goes back.

module FlutterWindowRuns {
  import opened Prelude
  import opened FlutterWindow
  import Gate = EngineRebuildGate
  import Dog = GpuWatchdog
  import Policy = SessionRebuildPolicy
  import Live = DartLiveness

  // --- The joint invariant ------------------------------------------------------------

  /** The gate's idea of the startup in flight is the window's. */
  ghost predicate Agree(c: Config, s: State, now: nat) {
    && Gate.Inv(c.gate, s.gate, now)
    && s.gate.startupInFlight == !s.engine.startupComplete
    && s.gate.startupStartedMs == s.engine.startedMs
    && s.engine.startedMs <= now
    && (s.policy.probation ==> s.policy.probationSinceMs <= now)
    && (s.policy.probation ==> c.watchdogEnabled && c.policy.stormDetectorAvailable)
  }

  /** While a controller exists, an open probation began after the last rebuild. */
  ghost predicate ProbationIsRecent(s: State) {
    s.policy.probation && s.engine.up && s.gate.everRebuilt ==> s.gate.lastRebuildMs <= s.policy.probationSinceMs
  }

  ghost predicate Inv(c: Config, s: State, now: nat) {
    Agree(c, s, now) && ProbationIsRecent(s)
  }

  /** The engine of `s` may be torn down at `now`: it has started up, or had its time to. */
  predicate MayEnd(c: Config, e: Engine, now: nat) {
    e.startupComplete || now - e.startedMs >= c.gate.startupTimeoutMs
  }

  /**
   * What handling a message at `now` may do to the engine and the gate: either
   * the engine stays, or one that may end is replaced by its successor, a
   * whole debounce after the last rebuild.
   */
  ghost predicate Moves(c: Config, s: State, t: State, ended: Option<Ended>, now: nat) {
    && Inv(c, t, now)
    && (t.engine.up ==> s.engine.up)
    && (s.gate.everRebuilt ==> t.gate.everRebuilt && s.gate.lastRebuildMs <= t.gate.lastRebuildMs)
    && match ended
       case None =>
         && t.engine.epoch == s.engine.epoch
         && t.engine.startedMs == s.engine.startedMs
         && t.engine.startupComplete == s.engine.startupComplete
       case Some(x) =>
         && s.engine.up && MayEnd(c, s.engine, now)
         && x == Ended(s.engine.epoch, s.engine.startedMs, s.engine.startupComplete)
         && (s.gate.everRebuilt ==> s.gate.lastRebuildMs + c.gate.debounceMs <= now)
         && t.gate.everRebuilt && t.gate.lastRebuildMs == now && !t.gate.queued
         && t.engine.epoch == s.engine.epoch + 1 && t.engine.startedMs == now && !t.engine.startupComplete
  }

  // --- Piece by piece -------------------------------------------------------------------

  lemma RebuildMoves(c: Config, s: State, now: nat, starts: bool)
    requires Agree(c, s, now) && !s.gate.queued && s.gate.everRebuilt && s.gate.lastRebuildMs == now
    requires s.engine.up
    ensures var (t, ended) := AfterRebuild(s, now, starts);
      && Inv(c, t, now) && t.gate.everRebuilt && t.gate.lastRebuildMs == now && !t.gate.queued
      && t.engine.epoch == s.engine.epoch + 1 && t.engine.startedMs == now && !t.engine.startupComplete
      && ended == Some(Ended(s.engine.epoch, s.engine.startedMs, s.engine.startupComplete))
  {
  }

  lemma RequestMoves(c: Config, s: State, reason: string, now: nat, starts: bool)
    requires Inv(c, s, now)
    ensures var (t, f) := AfterRequest(c, s, reason, now, starts);
      && Moves(c, s, t, f.ended, now)
      && !f.exited && f.acted == None
      && (f.answered == Some(Gate.RebuildNow) <==> f.ended.Some?)
  {
    if c.watchdogEnabled && s.engine.up {
      var (gate, d) := Gate.AfterRequest(c.gate, s.gate, reason, now);
      if d.verdict == Gate.RebuildNow {
        RebuildMoves(c, WithGate(s, gate), now, starts);
      }
    }
  }

  lemma PollMoves(c: Config, s: State, now: nat, starts: bool)
    requires Inv(c, s, now)
    ensures var (t, ended, released) := AfterPoll(c, s, now, starts);
      && Moves(c, s, t, ended, now)
      && (released <==> s.gate.queued && !Gate.StartupBlocking(c.gate, s.gate, now))
      && (ended.Some? <==> released && s.engine.up)
      && (!released ==> t == s)
  {
    var (gate, d) := Gate.AfterPoll(c.gate, s.gate, now);
    if d.verdict == Gate.RebuildNow && s.engine.up {
      RebuildMoves(c, WithGate(s, gate), now, starts);
    }
  }

  lemma DispatchMoves(c: Config, s: State, e: DogEvent, now: nat, starts: bool)
    requires Inv(c, s, now)
    ensures var (t, f) := AfterDispatch(c, s, e, now, starts);
      && Moves(c, s, t, f.ended, now)
      && (f.exited ==> !t.engine.up)
  {
    hide AfterAction, Dog.AfterTick, Dog.AfterRendererLost, Dog.AfterStarted, Dog.AfterFrame, Dog.AfterHint;
    if c.watchdogEnabled && !s.dog.disabled {
      var (dog, a) := match e
        case Started => Dog.AfterStarted(c.dog, s.dog)
        case Tick => Dog.AfterTick(c.dog, s.dog, now)
        case Frame => Dog.AfterFrame(c.dog, s.dog)
        case Hint => Dog.AfterHint(s.dog)
        case Lost(cause) => Dog.AfterRendererLost(c.dog, s.dog, cause, now);
      var judged := WithDog(s, dog);
      ActionMoves(c, judged, a, now, starts);
    }
  }

  lemma ActionMoves(c: Config, s: State, a: Dog.Action, now: nat, starts: bool)
    requires Inv(c, s, now)
    ensures var (t, f) := AfterAction(c, s, a, now, starts);
      && Moves(c, s, t, f.ended, now)
      && (f.exited ==> !t.engine.up)
  {
    hide AfterRequest;
    RequestMoves(c, s, "gpu loss recovery", now, starts);
  }

  lemma DecisionMoves(c: Config, s: State, d: Policy.Decision, now: nat, starts: bool)
    requires Inv(c, s, now)
    ensures var (t, f) := AfterDecision(c, s, d, now, starts);
      Moves(c, s, t, f.ended, now) && !f.exited
  {
    hide AfterRequest;
    RequestMoves(c, s, d.reason, now, starts);
  }

  lemma TickMoves(c: Config, s: State, now: nat, removed: bool, starts: bool)
    requires Inv(c, s, now)
    ensures var (t, f) := OnTick(c, s, now, removed, starts);
      Moves(c, s, t, f.ended, now) && (f.exited ==> !t.engine.up)
  {
    hide AfterDispatch, AfterPoll, AfterDecision;
    var consumed := WithDog(s, Dog.AfterConsumeExpired(s.dog).0);
    PollMoves(c, consumed, now, starts);
    var (policy, d) := Policy.AfterTick(c.policy, s.policy, now);
    var asked := WithPolicy(consumed, policy);
    DecisionMoves(c, asked, d, now, starts);
    var evaluated := WithLive(asked, Live.AfterEvaluate(c.live, asked.live, now).0);
    DispatchMoves(c, evaluated, if removed then Lost(Dog.ContextLost) else Tick, now, starts);
  }

  lemma HintMoves(c: Config, s: State, now: nat)
    requires Inv(c, s, now)
    ensures Moves(c, s, OnHint(c, s, now), None, now)
    ensures OnHint(c, s, now).policy == s.policy
  {
    HintChangesNothingElse(c, s, now);
    hide OnHint;
  }

  lemma SessionMoves(c: Config, s: State, change: SessionChange, now: nat, starts: bool)
    requires Inv(c, s, now)
    ensures var (t, f) := OnSession(c, s, change, now, starts);
      Moves(c, s, t, f.ended, now) && !f.exited
  {
    hide OnHint, AfterDecision;
    if c.watchdogEnabled && s.engine.up {
      HintMoves(c, s, now);
      var hinted := OnHint(c, s, now);
      match change
      case OtherChange =>
      case RemoteConnect(engine, session) =>
        var adapter := Policy.ClassifyAdapterCheck(engine, session);
        var (policy, d) := Policy.AfterConnect(c.policy, hinted.policy, now, adapter);
        DecisionMoves(c, WithPolicy(hinted, policy), d, now, starts);
      case RemoteDisconnect =>
        var (policy, d) := Policy.AfterDisconnect(hinted.policy);
        DecisionMoves(c, WithPolicy(hinted, policy), d, now, starts);
    }
  }

  lemma FrameMoves(c: Config, s: State, now: nat)
    requires Inv(c, s, now)
    ensures var (t, f) := OnFrame(c, s, now);
      Moves(c, s, t, None, now) && f.ended == None && !f.exited
  {
  }

  /** The message that completes a startup is the only one that does. */
  lemma StepMoves(c: Config, s: State, e: Event)
    requires Inv(c, s, e.now)
    ensures var (t, f) := Step(c, s, e);
      && (!e.message.StartupDone? ==> Moves(c, s, t, f.ended, e.now))
      && (f.exited ==> !t.engine.up)
  {
    hide OnTick, OnSession, OnFrame, OnHint, AfterDispatch, AfterRequest, AfterPoll;
    match e.message
    case WatchdogTick(removed, starts) => TickMoves(c, s, e.now, removed, starts);
    case RebuildDue(starts) => PollMoves(c, s, e.now, starts);
    case RasterLoss(starts) => DispatchMoves(c, s, Lost(Dog.RasterFailed), e.now, starts);
    case EglStorm(starts) => DispatchMoves(c, s, Lost(Dog.ContextLost), e.now, starts);
    case PowerResume(starts) =>
      HintMoves(c, s, e.now);
      RequestMoves(c, OnHint(c, s, e.now), "power resume", e.now, starts);
    case DisplayChange => HintMoves(c, s, e.now);
    case Session(change, starts) => SessionMoves(c, s, change, e.now, starts);
    case FramePresented => FrameMoves(c, s, e.now);
    case MainStarting(_) =>
    case StartupDone(_) =>
    case Stamped(_) =>
    case Disarm =>
    case Close =>
  }

  lemma StartupDoneMoves(c: Config, s: State, e: Event)
    requires Inv(c, s, e.now) && e.message.StartupDone?
    ensures var (t, f) := Step(c, s, e);
      && Inv(c, t, e.now) && f == QUIET
      && t.engine.up == s.engine.up && t.engine.epoch == s.engine.epoch && t.engine.startedMs == s.engine.startedMs
      && t.gate.everRebuilt == s.gate.everRebuilt && t.gate.lastRebuildMs == s.gate.lastRebuildMs
      && (t.engine.startupComplete <==> s.engine.startupComplete || e.message.epoch == s.engine.epoch)
  {
  }

  lemma OpenedKeeps(c: Config, now: nat)
    ensures Inv(c, Opened(c, now), now)
    ensures Opened(c, now).engine == Engine(true, 1, now, false, false, true)
    ensures Opened(c, now).gate == Gate.AfterEngineCreated(Gate.FRESH, now)
  {
  }

  lemma {:induction false} Reachable(r: Run, n: nat, now: nat)
    requires Ordered(r) && n <= |r.events| && ClockAt(r, n) <= now
    ensures Inv(r.config, StateAt(r, n), now)
  {
    hide Step, Opened;
    if n == 0 {
      OpenedKeeps(r.config, r.openedMs);
    } else {
      var e := r.events[n - 1];
      Reachable(r, n - 1, e.now);
      if e.message.StartupDone? { StartupDoneMoves(r.config, StateAt(r, n - 1), e); }
      StepMoves(r.config, StateAt(r, n - 1), e);
    }
  }

  // --- Teardowns never land on an unfinished startup -----------------------------------

  /** Engine `epoch` reported its startup complete among the first `n` events, while it was the live one. */
  ghost predicate Completed(r: Run, epoch: nat, n: nat)
    requires n <= |r.events|
  {
    exists j :: 0 <= j < n && r.events[j].message == StartupDone(epoch) && StateAt(r, j).engine.epoch == epoch
  }

  lemma {:induction false} CompletionWasReported(r: Run, n: nat)
    requires Ordered(r) && n <= |r.events|
    ensures StateAt(r, n).engine.startupComplete <==> Completed(r, StateAt(r, n).engine.epoch, n)
    ensures forall j :: 0 <= j <= n ==> 1 <= StateAt(r, j).engine.epoch <= StateAt(r, n).engine.epoch
  {
    hide Step, Opened;
    if n == 0 {
      OpenedKeeps(r.config, r.openedMs);
    } else {
      var e, s, t := r.events[n - 1], StateAt(r, n - 1), StateAt(r, n);
      CompletionWasReported(r, n - 1);
      Reachable(r, n - 1, e.now);
      if e.message.StartupDone? { StartupDoneMoves(r.config, s, e); } else { StepMoves(r.config, s, e); }
      if s.engine.startupComplete && t.engine.epoch == s.engine.epoch {
        var j :| 0 <= j < n - 1 && r.events[j].message == StartupDone(s.engine.epoch)
                 && StateAt(r, j).engine.epoch == s.engine.epoch;
        assert Completed(r, s.engine.epoch, n);
      }
      if e.message.StartupDone? && e.message.epoch == s.engine.epoch {
        assert Completed(r, s.engine.epoch, n);
      }
    }
  }

  /**
   * In every run, an engine that a rebuild ends has reported its own startup
   * complete, or has lived for the whole startup timeout -- whichever path
   * asked for the rebuild.
   */
  lemma TeardownsSpareStartups(r: Run, i: nat)
    requires Ordered(r) && i < |r.events| && EffectAt(r, i).ended.Some?
    ensures var x := EffectAt(r, i).ended.value;
      && x.epoch == StateAt(r, i).engine.epoch && x.startedMs == StateAt(r, i).engine.startedMs
      && (|| Completed(r, x.epoch, i)
          || r.events[i].now - x.startedMs >= r.config.gate.startupTimeoutMs)
  {
    hide Step, Opened;
    var e := r.events[i];
    Reachable(r, i, e.now);
    CompletionWasReported(r, i);
    if e.message.StartupDone? { StartupDoneMoves(r.config, StateAt(r, i), e); }
    StepMoves(r.config, StateAt(r, i), e);
  }

  // --- Rebuilds are spaced, epochs are never reused ---------------------------------------

  lemma {:induction false} RebuildIsRemembered(r: Run, i: nat, n: nat)
    requires Ordered(r) && i < n <= |r.events| && EffectAt(r, i).ended.Some?
    ensures StateAt(r, n).gate.everRebuilt && StateAt(r, n).gate.lastRebuildMs >= r.events[i].now
    ensures StateAt(r, n).engine.epoch > EffectAt(r, i).ended.value.epoch
  {
    hide Step, Opened;
    var e := r.events[n - 1];
    Reachable(r, n - 1, e.now);
    if e.message.StartupDone? { StartupDoneMoves(r.config, StateAt(r, n - 1), e); }
    StepMoves(r.config, StateAt(r, n - 1), e);
    if n > i + 1 {
      RebuildIsRemembered(r, i, n - 1);
    }
  }

  /** Two engines that rebuilds ended are distinct epochs, ended a whole debounce apart. */
  lemma TeardownSpacing(r: Run, i: nat, j: nat)
    requires Ordered(r) && i < j < |r.events|
    requires EffectAt(r, i).ended.Some? && EffectAt(r, j).ended.Some?
    ensures EffectAt(r, i).ended.value.epoch < EffectAt(r, j).ended.value.epoch
    ensures r.events[j].now - r.events[i].now >= r.config.gate.debounceMs
  {
    hide Step, Opened;
    var e := r.events[j];
    RebuildIsRemembered(r, i, j);
    Reachable(r, j, e.now);
    if e.message.StartupDone? { StartupDoneMoves(r.config, StateAt(r, j), e); }
    StepMoves(r.config, StateAt(r, j), e);
  }

  // --- A window without a controller stays without one ---------------------------------------

  /**
   * Once the controller is gone -- the window closed, the process is exiting,
   * or a rebuild's new engine did not come up -- no engine is ever created
   * again: the failed rebuild is not retried.
   */
  lemma {:induction false} LostControllerIsFinal(r: Run, i: nat, n: nat)
    requires Ordered(r) && i <= n <= |r.events| && !StateAt(r, i).engine.up
    ensures !StateAt(r, n).engine.up
    ensures StateAt(r, n).engine.epoch == StateAt(r, i).engine.epoch
    ensures n < |r.events| ==> EffectAt(r, n).ended == None
  {
    hide Step, Opened;
    if n > i {
      LostControllerIsFinal(r, i, n - 1);
      var e := r.events[n - 1];
      Reachable(r, n - 1, e.now);
      if e.message.StartupDone? { StartupDoneMoves(r.config, StateAt(r, n - 1), e); }
      StepMoves(r.config, StateAt(r, n - 1), e);
    }
    if n < |r.events| {
      var e := r.events[n];
      Reachable(r, n, e.now);
      if e.message.StartupDone? { StartupDoneMoves(r.config, StateAt(r, n), e); }
      StepMoves(r.config, StateAt(r, n), e);
    }
  }

  /** An engine that does not come up in a rebuild leaves the window without one. */
  lemma FailedStartLosesController(c: Config, s: State, now: nat)
    requires s.engine.up
    ensures AfterRebuild(s, now, false).1.Some? && !AfterRebuild(s, now, false).0.engine.up
    ensures AfterRebuild(s, now, true).1.Some? && AfterRebuild(s, now, true).0.engine.up
  {
  }

  /** A queued rebuild is carried out by the first tick or due message that may. */
  lemma DueRebuildRuns(r: Run, i: nat)
    requires Ordered(r) && i < |r.events|
    requires r.events[i].message.WatchdogTick? || r.events[i].message.RebuildDue?
    requires StateAt(r, i).engine.up && StateAt(r, i).gate.queued
    requires MayEnd(r.config, StateAt(r, i).engine, r.events[i].now)
    ensures EffectAt(r, i).ended.Some?
  {
    hide AfterDispatch, AfterPoll, AfterDecision, Opened;
    var e, s := r.events[i], StateAt(r, i);
    Reachable(r, i, e.now);
    PollMoves(r.config, s, e.now, e.message.starts);
    var consumed := WithDog(s, Dog.AfterConsumeExpired(s.dog).0);
    PollMoves(r.config, consumed, e.now, e.message.starts);
  }

  // --- The probation deadline is never swallowed ---------------------------------------------

  /** At event `i` a reconnect probation runs out, and no queued rebuild preempts it. */
  predicate DeadlineDue(r: Run, i: nat)
    requires i < |r.events|
  {
    var e, s := r.events[i], StateAt(r, i);
    && e.message.WatchdogTick?
    && Policy.AfterTick(r.config.policy, s.policy, e.now).1.verdict == Policy.RebuildNow
    && !(s.gate.queued && !Gate.StartupBlocking(r.config.gate, s.gate, e.now))
  }

  /** What the gate makes of a deadline rebuild: it runs it, or keeps it. */
  lemma DeadlineIsAnswered(r: Run, i: nat)
    requires Ordered(r) && i < |r.events| && DeadlineDue(r, i)
    requires r.config.watchdogEnabled && StateAt(r, i).engine.up
    requires r.config.policy.reconnectProbationMs >= r.config.gate.debounceMs
    ensures || EffectAt(r, i).answered == Some(Gate.RebuildNow)
            || EffectAt(r, i).answered == Some(Gate.Queued)
            || EffectAt(r, i).answered == Some(Gate.Coalesced)
    ensures EffectAt(r, i).answered == Some(Gate.RebuildNow) <==> EffectAt(r, i).ended.Some?
  {
    hide AfterDispatch, AfterPoll, Opened, AfterRebuild;
    var e, s := r.events[i], StateAt(r, i);
    Reachable(r, i, e.now);
    var consumed := WithDog(s, Dog.AfterConsumeExpired(s.dog).0);
    PollMoves(r.config, consumed, e.now, e.message.starts);
    var (policy, d) := Policy.AfterTick(r.config.policy, s.policy, e.now);
    RequestMoves(r.config, WithPolicy(consumed, policy), d.reason, e.now, e.message.starts);
  }

  /** Rebuild, reconnect, and a deadline that comes before the debounce is over. */
  lemma ShortProbationIsSwallowed(c: Config) returns (r: Run)
    requires c.watchdogEnabled && c.policy.stormDetectorAvailable
    requires c.policy.reconnectProbationMs < c.gate.debounceMs
    ensures r.config == c && Ordered(r) && |r.events| == 4
    ensures DeadlineDue(r, 3) && StateAt(r, 3).engine.up
    ensures EffectAt(r, 3).answered == Some(Gate.Debounced)
  {
    var probation := c.policy.reconnectProbationMs;
    r := Run(c, 0, [
      Event(0, StartupDone(1)),
      Event(0, PowerResume(true)),
      Event(0, Session(RemoteConnect(Some(0), Some(0)), true)),
      Event(probation, WatchdogTick(false, true))]);
    RebuiltAtOnce(r);
    ProbationOpens(r);
    hide AfterDispatch, OnSession, OnPowerResume;
    assert StateAt(r, 3) == Step(c, StateAt(r, 2), r.events[2]).0;
  }

  /** The run's first two messages: the startup completes, and a resume rebuilds the engine. */
  lemma RebuiltAtOnce(r: Run)
    requires r.config.watchdogEnabled && r.openedMs == 0 && |r.events| >= 2
    requires r.events[0] == Event(0, StartupDone(1)) && r.events[1] == Event(0, PowerResume(true))
    ensures var s := StateAt(r, 2);
      && s.engine.up && !s.gate.queued && s.gate.everRebuilt && s.gate.lastRebuildMs == 0
      && s.policy == Policy.FRESH
  {
    hide OnTick, OnSession, OnFrame, OnLossMessage, AfterPoll;
    var s0, s1 := StateAt(r, 0), StateAt(r, 1);
    OpenedKeeps(r.config, 0);
    assert s1 == Step(r.config, s0, r.events[0]).0;
    assert StateAt(r, 2) == Step(r.config, s1, r.events[1]).0;
    HintChangesNothingElse(r.config, s1, 0);
    hide OnHint;
  }

  lemma ProbationOpens(r: Run)
    requires r.config.watchdogEnabled && r.config.policy.stormDetectorAvailable && |r.events| >= 3
    requires r.events[2] == Event(0, Session(RemoteConnect(Some(0), Some(0)), true))
    requires StateAt(r, 2).engine.up && StateAt(r, 2).policy == Policy.FRESH
    ensures var s := StateAt(r, 3);
      && s.policy == Policy.State(false, true, 0)
      && s.gate == StateAt(r, 2).gate && s.engine.up
  {
    hide OnTick, OnPowerResume, OnFrame, OnLossMessage, AfterPoll;
    assert StateAt(r, 3) == Step(r.config, StateAt(r, 2), r.events[2]).0;
    HintChangesNothingElse(r.config, StateAt(r, 2), 0);
    hide OnHint;
  }

  lemma HintChangesNothingElse(c: Config, s: State, now: nat)
    ensures var t := OnHint(c, s, now);
      && t.gate == s.gate && t.policy == s.policy && t.live == s.live
      && t.engine.up == s.engine.up && t.engine.epoch == s.engine.epoch
      && t.engine.startedMs == s.engine.startedMs && t.engine.startupComplete == s.engine.startupComplete
  {
  }

  /** A deadline rebuild of the live engine is answered as a duplicate at event `i`. */
  predicate Swallowed(r: Run, i: nat)
    requires i < |r.events|
  {
    DeadlineDue(r, i) && StateAt(r, i).engine.up && EffectAt(r, i).answered == Some(Gate.Debounced)
  }

  /**
   * No run swallows a deadline rebuild exactly when the probation is at least
   * as long as the debounce -- or no probation is ever opened, because the
   * watchdog is off or there is no storm detector to probe under.
   */
  lemma ProbationOutlastsDebounce(c: Config)
    ensures (forall r: Run, i: nat :: r.config == c && Ordered(r) && i < |r.events| ==> !Swallowed(r, i))
       <==> || c.policy.reconnectProbationMs >= c.gate.debounceMs
            || !c.watchdogEnabled || !c.policy.stormDetectorAvailable
  {
    if !c.watchdogEnabled || !c.policy.stormDetectorAvailable {
      forall r: Run, i: nat | r.config == c && Ordered(r) && i < |r.events| ensures !Swallowed(r, i) {
        Reachable(r, i, r.events[i].now);
      }
    } else if c.policy.reconnectProbationMs >= c.gate.debounceMs {
      forall r: Run, i: nat | r.config == c && Ordered(r) && i < |r.events| ensures !Swallowed(r, i) {
        if DeadlineDue(r, i) && StateAt(r, i).engine.up { DeadlineIsAnswered(r, i); }
      }
    } else {
      var r := ShortProbationIsSwallowed(c);
      assert Swallowed(r, 3);
    }
  }
}
