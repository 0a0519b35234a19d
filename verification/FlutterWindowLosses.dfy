// The watchdog's loss guarantees, carried over to the composed host: whatever
// the messages, the process exits once, and the loop guard bounds how often
// the host restarts the engine for a new loss.

module FlutterWindowLosses {
  import opened Prelude
  import opened FlutterWindow
  import Gate = EngineRebuildGate
  import Dog = GpuWatchdog
  import DogRuns = GpuWatchdogRuns
  import Policy = SessionRebuildPolicy
  import Live = DartLiveness

  /** Two states of the watchdog that differ in the hold and the probe only. */
  predicate SameLosses(s: Dog.State, t: Dog.State) {
    && t.disabled == s.disabled && t.guard == s.guard
    && t.reportedLoss == s.reportedLoss && t.recoveryAttempts == s.recoveryAttempts
    && t.missedProbes == s.missedProbes
  }

  /**
   * The action `acted` is what the watchdog, in a state like `s`, answers to
   * some event at `now` -- a presented frame exactly when `frame` says so.
   */
  ghost predicate OneCall(c: Config, s: Dog.State, t: Dog.State, acted: Option<Dog.Action>, frame: bool, now: nat) {
    match acted
    case None =>
      || (SameLosses(s, t) && (frame ==> s.disabled || !c.watchdogEnabled))
      || (t.disabled && t.guard == s.guard)
    case Some(a) =>
      exists m: Dog.State, e: DogRuns.Event ::
        && c.watchdogEnabled && !s.disabled && SameLosses(s, m) && e.now == now && e.Frame? == frame
        && DogRuns.Step(c.dog, m, e).action == a && SameLosses(DogRuns.Step(c.dog, m, e).state, t)
  }

  lemma JudgeableKeepsLosses(s: State, now: nat)
    ensures SameLosses(s.dog, JudgeableUpdated(s, now).dog)
  {
  }

  lemma RebuildKeepsLosses(s: State, now: nat, starts: bool)
    ensures var (t, ended) := AfterRebuild(s, now, starts);
      SameLosses(s.dog, t.dog) && (!s.engine.up ==> t == s && ended == None)
  {
  }

  lemma RequestKeepsLosses(c: Config, s: State, reason: string, now: nat, starts: bool)
    ensures var (t, f) := AfterRequest(c, s, reason, now, starts);
      SameLosses(s.dog, t.dog) && f.acted == None && !f.exited && (!s.engine.up ==> f == QUIET)
  {
    hide Gate.AfterRequest, JudgeableUpdated, AfterRebuild;
    var asked := WithGate(s, Gate.AfterRequest(c.gate, s.gate, reason, now).0);
    JudgeableKeepsLosses(asked, now);
    RebuildKeepsLosses(asked, now, starts);
  }

  lemma PollKeepsLosses(c: Config, s: State, now: nat, starts: bool)
    ensures var (t, ended, released) := AfterPoll(c, s, now, starts);
      && SameLosses(s.dog, t.dog)
      && (!released ==> t.dog == s.dog && t.engine == s.engine && ended == None)
      && (!s.engine.up ==> ended == None && !t.engine.up)
  {
    hide Gate.AfterPoll, AfterRebuild;
    RebuildKeepsLosses(WithGate(s, Gate.AfterPoll(c.gate, s.gate, now).0), now, starts);
  }

  function AsCall(e: DogEvent, now: nat): DogRuns.Event {
    match e
    case Started => DogRuns.Started(now)
    case Tick => DogRuns.Tick(now)
    case Frame => DogRuns.Frame(now)
    case Hint => DogRuns.Hint(now)
    case Lost(cause) => DogRuns.Lost(now, cause)
  }

  lemma DispatchIsOneCall(c: Config, s: State, e: DogEvent, now: nat, starts: bool)
    ensures var (t, f) := AfterDispatch(c, s, e, now, starts);
      && OneCall(c, s.dog, t.dog, f.acted, e.Frame?, now)
      && (f.exited ==> t.dog.disabled && !t.engine.up && f.acted.Some? && f.acted.value.exitProcess)
      && (f.acted.Some? && f.acted.value.exitProcess ==> f.exited)
      && (s.dog.disabled ==> f == QUIET && t == s)
  {
    hide AfterRequest, Dog.AfterTick, Dog.AfterRendererLost, Dog.AfterStarted, Dog.AfterFrame, Dog.AfterHint;
    if c.watchdogEnabled && !s.dog.disabled {
      var (dog, a) := match e
        case Started => Dog.AfterStarted(c.dog, s.dog)
        case Tick => Dog.AfterTick(c.dog, s.dog, now)
        case Frame => Dog.AfterFrame(c.dog, s.dog)
        case Hint => Dog.AfterHint(s.dog)
        case Lost(cause) => Dog.AfterRendererLost(c.dog, s.dog, cause, now);
      assert DogRuns.Step(c.dog, s.dog, AsCall(e, now)).state == dog;
      assert DogRuns.Step(c.dog, s.dog, AsCall(e, now)).action == a;
      ExitDisables(c.dog, s.dog, AsCall(e, now));
      RequestKeepsLosses(c, WithDog(s, dog), "gpu loss recovery", now, starts);
    }
  }

  lemma ExitDisables(c: Dog.Config, s: Dog.State, e: DogRuns.Event)
    ensures DogRuns.Step(c, s, e).action.exitProcess ==> DogRuns.Step(c, s, e).state.disabled
  {
    match e
    case Tick(_) =>
    case _ =>
  }

  lemma HintKeepsLosses(c: Config, s: State, now: nat)
    ensures SameLosses(s.dog, OnHint(c, s, now).dog)
    ensures OnHint(c, s, now).engine.up == s.engine.up
  {
  }

  /** Every message makes at most one watchdog call whose action is applied. */
  lemma StepIsOneCall(c: Config, s: State, e: Event)
    ensures var (t, f) := Step(c, s, e);
      && OneCall(c, s.dog, t.dog, f.acted, e.message.FramePresented?, e.now)
      && (f.exited ==> t.dog.disabled && !t.engine.up && f.acted.Some? && f.acted.value.exitProcess)
      && (f.acted.Some? && f.acted.value.exitProcess ==> f.exited)
      && (s.dog.disabled ==> t.dog.disabled && f.acted == None && !f.exited)
      && (!s.engine.up ==> !t.engine.up && f.ended == None && f.answered == None)
  {
    hide OnTick, OnSession, OnHint, AfterDispatch, AfterRequest, AfterPoll, OnFrame;
    match e.message
    case WatchdogTick(removed, starts) => TickIsOneCall(c, s, e.now, removed, starts);
    case RebuildDue(starts) => PollKeepsLosses(c, s, e.now, starts);
    case RasterLoss(starts) => DispatchIsOneCall(c, s, Lost(Dog.RasterFailed), e.now, starts);
    case EglStorm(starts) => DispatchIsOneCall(c, s, Lost(Dog.ContextLost), e.now, starts);
    case PowerResume(starts) =>
      HintKeepsLosses(c, s, e.now);
      RequestKeepsLosses(c, OnHint(c, s, e.now), "power resume", e.now, starts);
    case DisplayChange => HintKeepsLosses(c, s, e.now);
    case Session(change, starts) => SessionKeepsLosses(c, s, change, e.now, starts);
    case FramePresented => FrameIsOneCall(c, s, e.now);
    case MainStarting(_) =>
    case StartupDone(_) =>
    case Stamped(_) =>
    case Disarm =>
    case Close =>
  }

  lemma FrameIsOneCall(c: Config, s: State, now: nat)
    ensures var (t, f) := OnFrame(c, s, now);
      && OneCall(c, s.dog, t.dog, f.acted, true, now)
      && !f.exited && f.ended == None && f.answered == None
      && (s.dog.disabled ==> t.dog.disabled && f.acted == None)
      && t.engine.up == s.engine.up
      && (f.acted.Some? ==> !f.acted.value.exitProcess)
  {
    hide AfterRequest;
    var e := s.engine;
    var consumed := WithEngine(s, Engine(e.up, e.epoch, e.startedMs, e.mainSeen, e.startupComplete, false));
    DispatchIsOneCall(c, consumed, Frame, now, false);
  }

  lemma TickIsOneCall(c: Config, s: State, now: nat, removed: bool, starts: bool)
    ensures var (t, f) := OnTick(c, s, now, removed, starts);
      && OneCall(c, s.dog, t.dog, f.acted, false, now)
      && (f.exited ==> t.dog.disabled && !t.engine.up && f.acted.Some? && f.acted.value.exitProcess)
      && (f.acted.Some? && f.acted.value.exitProcess ==> f.exited)
      && (s.dog.disabled ==> t.dog.disabled && f.acted == None && !f.exited)
      && (!s.engine.up ==> !t.engine.up && f.ended == None && f.answered == None)
  {
    hide AfterDispatch, AfterPoll, AfterRequest;
    var consumed := WithDog(s, Dog.AfterConsumeExpired(s.dog).0);
    PollKeepsLosses(c, consumed, now, starts);
    var polled := AfterPoll(c, consumed, now, starts).0;
    var (policy, d) := Policy.AfterTick(c.policy, polled.policy, now);
    var asked := WithPolicy(polled, policy);
    RequestKeepsLosses(c, asked, d.reason, now, starts);
    if !asked.engine.up { DownRequestIsQuiet(c, asked, d.reason, now, starts); }
    var evaluated := WithLive(asked, Live.AfterEvaluate(c.live, asked.live, now).0);
    var event := if removed then Lost(Dog.ContextLost) else Tick;
    DispatchIsOneCall(c, evaluated, event, now, starts);
    DownDispatchIsQuiet(c, evaluated, event, now, starts);
  }

  lemma DownRequestIsQuiet(c: Config, s: State, reason: string, now: nat, starts: bool)
    requires !s.engine.up
    ensures AfterRequest(c, s, reason, now, starts) == (s, QUIET)
  {
  }

  lemma DownDispatchIsQuiet(c: Config, s: State, e: DogEvent, now: nat, starts: bool)
    ensures var (t, f) := AfterDispatch(c, s, e, now, starts);
      !s.engine.up ==> !t.engine.up && f.ended == None && f.answered == None
  {
  }

  lemma SessionKeepsLosses(c: Config, s: State, change: SessionChange, now: nat, starts: bool)
    ensures var (t, f) := OnSession(c, s, change, now, starts);
      && SameLosses(s.dog, t.dog) && f.acted == None && !f.exited
      && (!s.engine.up ==> t == s && f == QUIET)
  {
    hide OnHint, AfterRequest;
    HintKeepsLosses(c, s, now);
    var hinted := OnHint(c, s, now);
    match change
    case OtherChange =>
    case RemoteConnect(engine, session) =>
      var adapter := Policy.ClassifyAdapterCheck(engine, session);
      var (policy, d) := Policy.AfterConnect(c.policy, hinted.policy, now, adapter);
      RequestKeepsLosses(c, WithPolicy(hinted, policy), d.reason, now, starts);
    case RemoteDisconnect =>
  }

  // --- The process exits once ----------------------------------------------------------

  lemma {:induction false} ExitLasts(r: Run, i: nat, n: nat)
    requires i < n <= |r.events| && EffectAt(r, i).exited
    ensures StateAt(r, n).dog.disabled && !StateAt(r, n).engine.up
  {
    hide Step, Opened;
    StepIsOneCall(r.config, StateAt(r, n - 1), r.events[n - 1]);
    if n > i + 1 {
      ExitLasts(r, i, n - 1);
    }
  }

  /** Nothing is done after the process was asked to end: no second exit, no action, no rebuild. */
  lemma ExitIsFinal(r: Run, i: nat, j: nat)
    requires i < j < |r.events| && EffectAt(r, i).exited
    ensures EffectAt(r, j) == QUIET
  {
    hide Step, Opened;
    ExitLasts(r, i, j);
    StepIsOneCall(r.config, StateAt(r, j), r.events[j]);
  }

  // --- The loop guard -----------------------------------------------------------------------

  /** Event `i` reported a new loss and answered it by asking for a restart in place. */
  predicate AnsweredInPlace(r: Run, i: nat)
    requires i < |r.events|
  {
    && EffectAt(r, i).acted.Some?
    && EffectAt(r, i).acted.value.reportLoss && EffectAt(r, i).acted.value.restartEngine
  }

  function EpisodesInPlace(r: Run, i: nat, j: nat): nat
    requires i <= j <= |r.events|
    decreases j
  {
    if i == j then 0
    else EpisodesInPlace(r, i, j - 1) + if AnsweredInPlace(r, j - 1) then 1 else 0
  }

  lemma StepKeepsGuard(c: Config, s: State, e: Event)
    requires DogRuns.WindowInv(c.dog, s.dog, e.now)
    ensures DogRuns.WindowInv(c.dog, Step(c, s, e).0.dog, e.now)
  {
    hide Step, DogRuns.Step;
    StepIsOneCall(c, s, e);
    var (t, f) := Step(c, s, e);
    if f.acted.Some? {
      var m: Dog.State, x: DogRuns.Event :| SameLosses(s.dog, m) && x.now == e.now
        && DogRuns.Step(c.dog, m, x).action == f.acted.value && SameLosses(DogRuns.Step(c.dog, m, x).state, t.dog);
      DogRuns.StepKeepsWindow(c.dog, m, x);
      assert SameLosses(DogRuns.Step(c.dog, m, x).state, t.dog);
    }
  }

  lemma StepSpendsAllowance(c: Config, s: State, e: Event, t0: nat)
    requires c.dog.onLoss == Dog.RestartEngine && c.dog.maxLossesInWindow > 0 && c.dog.lossWindowMs > 0
    requires t0 <= e.now <= t0 + c.dog.lossWindowMs
    requires DogRuns.WindowInv(c.dog, s.dog, e.now)
    ensures var (t, f) := Step(c, s, e);
      && DogRuns.Allowance(c.dog, t.dog, t0) >= 0
      && DogRuns.Allowance(c.dog, t.dog, t0)
         + (if f.acted.Some? && f.acted.value.reportLoss && f.acted.value.restartEngine then 1 else 0)
         <= DogRuns.Allowance(c.dog, s.dog, t0)
  {
    hide Step, DogRuns.Step;
    StepIsOneCall(c, s, e);
    var (t, f) := Step(c, s, e);
    if f.acted.Some? {
      var m: Dog.State, x: DogRuns.Event :| SameLosses(s.dog, m) && x.now == e.now
        && DogRuns.Step(c.dog, m, x).action == f.acted.value && SameLosses(DogRuns.Step(c.dog, m, x).state, t.dog);
      DogRuns.StepSpendsAllowance(c.dog, m, x, t0);
      assert SameLosses(DogRuns.Step(c.dog, m, x).state, t.dog);
    }
  }

  lemma OpenedGuard(c: Config, now: nat)
    ensures Opened(c, now).dog.guard == Dog.Guard(false, 0, 0) && !Opened(c, now).dog.disabled
    ensures Opened(c, now).dog.recoveryAttempts == 0
  {
  }

  lemma {:induction false} GuardReachable(r: Run, n: nat, now: nat)
    requires Ordered(r) && n <= |r.events| && ClockAt(r, n) <= now
    ensures DogRuns.WindowInv(r.config.dog, StateAt(r, n).dog, now)
  {
    hide Step, Opened;
    if n == 0 {
      OpenedGuard(r.config, r.openedMs);
    } else {
      GuardReachable(r, n - 1, r.events[n - 1].now);
      StepKeepsGuard(r.config, StateAt(r, n - 1), r.events[n - 1]);
    }
  }

  lemma {:induction false} EpisodesSpendAllowance(r: Run, i: nat, j: nat)
    requires Ordered(r) && i < j <= |r.events|
    requires var c := r.config.dog; c.onLoss == Dog.RestartEngine && c.maxLossesInWindow > 0 && c.lossWindowMs > 0
    requires r.events[j - 1].now - r.events[i].now <= r.config.dog.lossWindowMs
    ensures EpisodesInPlace(r, i, j) + DogRuns.Allowance(r.config.dog, StateAt(r, j).dog, r.events[i].now)
         <= DogRuns.Allowance(r.config.dog, StateAt(r, i).dog, r.events[i].now)
    ensures DogRuns.Allowance(r.config.dog, StateAt(r, j).dog, r.events[i].now) >= 0
  {
    hide Step, Opened;
    GuardReachable(r, j - 1, r.events[j - 1].now);
    StepSpendsAllowance(r.config, StateAt(r, j - 1), r.events[j - 1], r.events[i].now);
    if i < j - 1 {
      EpisodesSpendAllowance(r, i, j - 1);
    } else {
      assert EpisodesInPlace(r, i, j - 1) == 0;
    }
  }

  /**
   * The loop guard holds for the host as a whole: messages lying within one
   * window length see at most 2 * max - 1 new losses answered in place.
   */
  lemma SlidingLossBound(r: Run, i: nat, j: nat)
    requires Ordered(r) && i < j <= |r.events|
    requires var c := r.config.dog; c.onLoss == Dog.RestartEngine && c.maxLossesInWindow > 0 && c.lossWindowMs > 0
    requires r.events[j - 1].now - r.events[i].now <= r.config.dog.lossWindowMs
    ensures EpisodesInPlace(r, i, j) <= 2 * r.config.dog.maxLossesInWindow - 1
  {
    hide Step, Opened;
    EpisodesSpendAllowance(r, i, j);
    GuardReachable(r, i, r.events[i].now);
  }

  // --- The restart bound ----------------------------------------------------------------------

  /** Event `i` applied an action that restarts the engine, whatever the gate made of it. */
  predicate Restarts(r: Run, i: nat)
    requires i < |r.events|
  {
    EffectAt(r, i).acted.Some? && EffectAt(r, i).acted.value.restartEngine
  }

  function RestartsSinceFrame(r: Run, n: nat): nat
    requires n <= |r.events|
  {
    if n == 0 || r.events[n - 1].message.FramePresented? then 0
    else RestartsSinceFrame(r, n - 1) + if Restarts(r, n - 1) then 1 else 0
  }

  lemma StepCountsAttempts(c: Config, s: State, e: Event)
    ensures var (t, f) := Step(c, s, e);
      var restarts := f.acted.Some? && f.acted.value.restartEngine;
      && (s.dog.disabled ==> t.dog.disabled && !restarts)
      && (restarts ==> c.watchdogEnabled && !Dog.Exhausted(c.dog, s.dog.recoveryAttempts) && !e.message.FramePresented?)
      && (!t.dog.disabled ==>
            t.dog.recoveryAttempts == if restarts then s.dog.recoveryAttempts + 1
                                      else if e.message.FramePresented? && c.watchdogEnabled then 0
                                      else s.dog.recoveryAttempts)
  {
    hide Step, DogRuns.Step;
    StepIsOneCall(c, s, e);
    var (t, f) := Step(c, s, e);
    if f.acted.Some? {
      var m: Dog.State, x: DogRuns.Event :| SameLosses(s.dog, m) && x.Frame? == e.message.FramePresented?
        && DogRuns.Step(c.dog, m, x).action == f.acted.value && SameLosses(DogRuns.Step(c.dog, m, x).state, t.dog);
      DogRuns.StepCountsAttempts(c.dog, m, x);
      assert SameLosses(DogRuns.Step(c.dog, m, x).state, t.dog);
    }
  }

  /**
   * At the host too, until the watchdog gives up, its attempts are the
   * restarts asked for since the last presented frame -- those the gate only
   * coalesced included -- and they never pass a positive limit.
   */
  lemma {:induction false} AttemptsCountRestarts(r: Run, n: nat)
    requires n <= |r.events|
    ensures !r.config.watchdogEnabled ==> RestartsSinceFrame(r, n) == 0
    ensures !StateAt(r, n).dog.disabled ==> StateAt(r, n).dog.recoveryAttempts == RestartsSinceFrame(r, n)
    ensures r.config.dog.maxRecoveryAttempts > 0 ==> RestartsSinceFrame(r, n) <= r.config.dog.maxRecoveryAttempts
  {
    hide Step, Opened;
    if n == 0 {
      OpenedGuard(r.config, r.openedMs);
    } else {
      AttemptsCountRestarts(r, n - 1);
      StepCountsAttempts(r.config, StateAt(r, n - 1), r.events[n - 1]);
    }
  }

  /** An action that answers a declared loss. */
  predicate AnswersLoss(a: Dog.Action) {
    a.reportLoss || a.restartEngine || a.exitProcess
  }

  lemma ExhaustedAnswerIsExit(c: Dog.Config, s: Dog.State, e: DogRuns.Event)
    requires c.onLoss == Dog.RestartEngine && Dog.Exhausted(c, s.recoveryAttempts)
    requires AnswersLoss(DogRuns.Step(c, s, e).action)
    ensures DogRuns.Step(c, s, e).action.exitProcess
  {
    match e
    case Tick(_) =>
    case _ =>
  }

  /** With the limit of restarts spent since the last frame, the next declared loss ends the process. */
  lemma ExhaustionExits(r: Run, i: nat)
    requires i < |r.events|
    requires r.config.dog.onLoss == Dog.RestartEngine && r.config.dog.maxRecoveryAttempts > 0
    requires RestartsSinceFrame(r, i) == r.config.dog.maxRecoveryAttempts
    requires EffectAt(r, i).acted.Some? && AnswersLoss(EffectAt(r, i).acted.value)
    ensures EffectAt(r, i).exited && !Restarts(r, i)
  {
    hide Step, DogRuns.Step, Opened;
    var c, s, e := r.config, StateAt(r, i), r.events[i];
    AttemptsCountRestarts(r, i);
    StepIsOneCall(c, s, e);
    StepCountsAttempts(c, s, e);
    var (t, f) := Step(c, s, e);
    var m: Dog.State, x: DogRuns.Event :| SameLosses(s.dog, m)
      && DogRuns.Step(c.dog, m, x).action == f.acted.value && SameLosses(DogRuns.Step(c.dog, m, x).state, t.dog);
    ExhaustedAnswerIsExit(c.dog, m, x);
  }

  /** And evidence of a loss is always declared: a storm or a raster loss, while there is anything to lose. */
  lemma EvidenceIsAnswered(c: Config, s: State, e: Event)
    requires e.message.RasterLoss? || e.message.EglStorm?
    requires c.watchdogEnabled && s.engine.up && !s.dog.disabled && c.dog.onLoss == Dog.RestartEngine
    ensures var f := Step(c, s, e).1; f.acted.Some? && (f.acted.value.restartEngine || f.exited)
  {
    hide AfterRequest;
  }
}
