// The startup grace: how long an engine that has neither reached Dart main()
// nor presented a frame is spared from being judged by the frames it does not
// present.

module FlutterWindowGrace {
  import opened Prelude
  import opened FlutterWindow
  import opened FlutterWindowRuns
  import Gate = EngineRebuildGate
  import Dog = GpuWatchdog
  import Policy = SessionRebuildPolicy
  import Live = DartLiveness

  /** A hold is only ever latched as expired once its cap is spent. */
  ghost predicate ExpiryIsTrue(c: Dog.Config, h: Dog.Hold, now: nat) {
    h.expired ==> h.on && c.maxJudgementHoldMs > 0 && now >= h.sinceMs + c.maxJudgementHoldMs
  }

  /** The grace that began at `since` is still on, or has been given in full. */
  ghost predicate Graced(c: Dog.Config, h: Dog.Hold, since: nat, now: nat) {
    || (h.on && h.sinceMs == since)
    || (c.maxJudgementHoldMs > 0 && now >= since + c.maxJudgementHoldMs)
  }

  /**
   * What handling a message does to the hold `before`: an engine that is still
   * starting keeps its grace, and a new engine is held -- under the clock of
   * the hold it finds, if there is one.
   */
  ghost predicate Spares(c: Config, s: State, before: Dog.Hold, t: State, ended: Option<Ended>, since: nat, now: nat) {
    && ExpiryIsTrue(c.dog, t.dog.hold, now)
    && match ended
       case None =>
         && t.engine.mainSeen == s.engine.mainSeen
         && (!s.engine.mainSeen && Graced(c.dog, before, since, now) ==> Graced(c.dog, t.dog.hold, since, now))
       case Some(_) =>
         && !t.engine.mainSeen && t.dog.hold.on
         && t.dog.hold.sinceMs == if before.on then before.sinceMs else now
  }

  lemma JudgeableSpares(s: State, now: nat)
    ensures var t := JudgeableUpdated(s, now);
      t.engine == s.engine && t.dog.hold == Dog.AfterSetJudgeable(s.dog, s.engine.mainSeen && !s.gate.queued, now).hold
  {
  }

  lemma RebuildSpares(s: State, now: nat, starts: bool)
    requires s.engine.up
    ensures var (t, ended) := AfterRebuild(s, now, starts);
      && ended.Some? && !t.engine.mainSeen
      && t.dog.hold == if s.dog.hold.on then s.dog.hold else Dog.Hold(true, now, false)
  {
  }

  lemma RequestSpares(c: Config, s: State, reason: string, now: nat, starts: bool, since: nat)
    requires ExpiryIsTrue(c.dog, s.dog.hold, now)
    ensures var (t, f) := AfterRequest(c, s, reason, now, starts);
      Spares(c, s, s.dog.hold, t, f.ended, since, now)
  {
    hide Gate.AfterRequest, JudgeableUpdated, AfterRebuild;
    if c.watchdogEnabled && s.engine.up {
      var asked := WithGate(s, Gate.AfterRequest(c.gate, s.gate, reason, now).0);
      JudgeableSpares(asked, now);
      RebuildSpares(asked, now, starts);
    }
  }

  lemma PollSpares(c: Config, s: State, now: nat, starts: bool, since: nat)
    requires ExpiryIsTrue(c.dog, s.dog.hold, now)
    ensures var (t, ended, released) := AfterPoll(c, s, now, starts);
      Spares(c, s, s.dog.hold, t, ended, since, now)
  {
    hide Gate.AfterPoll, JudgeableUpdated;
    if s.engine.up {
      hide AfterRebuild;
      RebuildSpares(WithGate(s, Gate.AfterPoll(c.gate, s.gate, now).0), now, starts);
    }
  }

  /** The watchdog's own events leave the hold where it is, frames aside. */
  lemma DogSpares(c: Dog.Config, s: Dog.State, e: DogEvent, now: nat)
    requires !e.Frame? && ExpiryIsTrue(c, s.hold, now)
    ensures var t := match e
        case Started => Dog.AfterStarted(c, s).0
        case Tick => Dog.AfterTick(c, s, now).0
        case Frame => s
        case Hint => Dog.AfterHint(s).0
        case Lost(cause) => Dog.AfterRendererLost(c, s, cause, now).0;
      && t.hold.on == s.hold.on && t.hold.sinceMs == s.hold.sinceMs && ExpiryIsTrue(c, t.hold, now)
  {
  }

  lemma DispatchSpares(c: Config, s: State, e: DogEvent, now: nat, starts: bool, since: nat)
    requires !e.Frame? && ExpiryIsTrue(c.dog, s.dog.hold, now)
    ensures var (t, f) := AfterDispatch(c, s, e, now, starts);
      Spares(c, s, s.dog.hold, t, f.ended, since, now)
  {
    hide AfterRequest, Dog.AfterTick, Dog.AfterRendererLost, Dog.AfterStarted, Dog.AfterFrame, Dog.AfterHint;
    if c.watchdogEnabled && !s.dog.disabled {
      DogSpares(c.dog, s.dog, e, now);
      var dog := match e
        case Started => Dog.AfterStarted(c.dog, s.dog).0
        case Tick => Dog.AfterTick(c.dog, s.dog, now).0
        case Frame => Dog.AfterFrame(c.dog, s.dog).0
        case Hint => Dog.AfterHint(s.dog).0
        case Lost(cause) => Dog.AfterRendererLost(c.dog, s.dog, cause, now).0;
      RequestSpares(c, WithDog(s, dog), "gpu loss recovery", now, starts, since);
    }
  }

  lemma TickSpares(c: Config, s: State, now: nat, removed: bool, starts: bool, since: nat)
    requires ExpiryIsTrue(c.dog, s.dog.hold, now)
    ensures var (t, f) := OnTick(c, s, now, removed, starts);
      Spares(c, s, Dog.AfterConsumeExpired(s.dog).0.hold, t, f.ended, since, now)
  {
    hide AfterDispatch, AfterPoll, AfterRequest;
    var consumed := WithDog(s, Dog.AfterConsumeExpired(s.dog).0);
    PollSpares(c, consumed, now, starts, since);
    var polled := AfterPoll(c, consumed, now, starts).0;
    var (policy, d) := Policy.AfterTick(c.policy, polled.policy, now);
    var asked := WithPolicy(polled, policy);
    RequestSpares(c, asked, d.reason, now, starts, since);
    var evaluated := WithLive(asked, Live.AfterEvaluate(c.live, asked.live, now).0);
    DispatchSpares(c, evaluated, if removed then Lost(Dog.ContextLost) else Tick, now, starts, since);
    PollIsQuiet(c, consumed, now, starts);
  }

  lemma PollIsQuiet(c: Config, s: State, now: nat, starts: bool)
    ensures var (t, ended, released) := AfterPoll(c, s, now, starts);
      !released ==> t == s && ended == None
  {
  }

  lemma SessionSpares(c: Config, s: State, change: SessionChange, now: nat, starts: bool, since: nat)
    requires ExpiryIsTrue(c.dog, s.dog.hold, now)
    ensures var (t, f) := OnSession(c, s, change, now, starts);
      Spares(c, s, s.dog.hold, t, f.ended, since, now)
  {
    hide AfterRequest, OnHint;
    HintSpares(c, s, now);
    var hinted := OnHint(c, s, now);
    match change
    case OtherChange =>
    case RemoteConnect(engine, session) =>
      var adapter := Policy.ClassifyAdapterCheck(engine, session);
      var (policy, d) := Policy.AfterConnect(c.policy, hinted.policy, now, adapter);
      RequestSpares(c, WithPolicy(hinted, policy), d.reason, now, starts, since);
    case RemoteDisconnect =>
  }

  lemma HintSpares(c: Config, s: State, now: nat)
    ensures OnHint(c, s, now).dog.hold == s.dog.hold && OnHint(c, s, now).engine.mainSeen == s.engine.mainSeen
  {
  }

  /** The hold a message finds; a tick first takes down one it has announced as expired. */
  function HoldFound(s: State, e: Event): Dog.Hold {
    if e.message.WatchdogTick? then Dog.AfterConsumeExpired(s.dog).0.hold else s.dog.hold
  }

  lemma StepSpares(c: Config, s: State, e: Event, since: nat)
    requires ExpiryIsTrue(c.dog, s.dog.hold, e.now)
    ensures var (t, f) := Step(c, s, e);
      && ExpiryIsTrue(c.dog, t.dog.hold, e.now)
      && (!e.message.FramePresented? && !e.message.MainStarting? ==>
            Spares(c, s, HoldFound(s, e), t, f.ended, since, e.now))
      && (e.message.FramePresented? || e.message.MainStarting? ==> f.ended == None)
  {
    hide OnTick, OnSession, OnHint, AfterDispatch, AfterRequest, AfterPoll, OnFrame, OnMainStarting;
    match e.message
    case WatchdogTick(removed, starts) => TickSpares(c, s, e.now, removed, starts, since);
    case RebuildDue(starts) => PollSpares(c, s, e.now, starts, since);
    case RasterLoss(starts) => DispatchSpares(c, s, Lost(Dog.RasterFailed), e.now, starts, since);
    case EglStorm(starts) => DispatchSpares(c, s, Lost(Dog.ContextLost), e.now, starts, since);
    case PowerResume(starts) =>
      HintSpares(c, s, e.now);
      RequestSpares(c, OnHint(c, s, e.now), "power resume", e.now, starts, since);
    case DisplayChange => HintSpares(c, s, e.now);
    case Session(change, starts) => SessionSpares(c, s, change, e.now, starts, since);
    case FramePresented => FrameSpares(c, s, e.now);
    case MainStarting(_) => MainSpares(c, s, e.now);
    case StartupDone(_) =>
    case Stamped(_) =>
    case Disarm =>
    case Close =>
  }

  lemma FrameSpares(c: Config, s: State, now: nat)
    requires ExpiryIsTrue(c.dog, s.dog.hold, now)
    ensures ExpiryIsTrue(c.dog, OnFrame(c, s, now).0.dog.hold, now) && OnFrame(c, s, now).1.ended == None
  {
  }

  lemma MainSpares(c: Config, s: State, now: nat)
    requires ExpiryIsTrue(c.dog, s.dog.hold, now)
    ensures ExpiryIsTrue(c.dog, OnMainStarting(s, now).dog.hold, now)
  {
  }

  // --- Over a run ------------------------------------------------------------------------

  /** The live engine has reported main() or presented a frame among the first `n` events. */
  function Proven(r: Run, n: nat): bool
    requires n <= |r.events|
  {
    n > 0 && EffectAt(r, n - 1).ended == None
    && (r.events[n - 1].message.FramePresented? || r.events[n - 1].message.MainStarting? || Proven(r, n - 1))
  }

  /** When the live engine's grace began. */
  function GraceSince(r: Run, n: nat): nat
    requires n <= |r.events|
  {
    if n == 0 || EffectAt(r, n - 1).ended.Some? then StateAt(r, n).dog.hold.sinceMs
    else GraceSince(r, n - 1)
  }

  lemma OpenedSpares(c: Config, now: nat)
    ensures Opened(c, now).dog.hold == Dog.Hold(true, now, false)
  {
  }

  lemma {:induction false} GraceReachable(r: Run, n: nat, now: nat)
    requires Ordered(r) && n <= |r.events| && ClockAt(r, n) <= now
    ensures ExpiryIsTrue(r.config.dog, StateAt(r, n).dog.hold, now)
    ensures !Proven(r, n) ==>
              && !StateAt(r, n).engine.mainSeen
              && Graced(r.config.dog, StateAt(r, n).dog.hold, GraceSince(r, n), now)
  {
    hide Step, Opened;
    if n == 0 {
      OpenedSpares(r.config, r.openedMs);
      OpenedKeeps(r.config, r.openedMs);
    } else {
      var e := r.events[n - 1];
      GraceReachable(r, n - 1, e.now);
      StepSpares(r.config, StateAt(r, n - 1), e, GraceSince(r, n - 1));
    }
  }

  /** The tick at event `i` inferred a loss from frames that did not come. */
  predicate InferredLoss(r: Run, i: nat)
    requires i < |r.events|
  {
    && r.events[i].message.WatchdogTick?
    && EffectAt(r, i).acted.Some?
    && var a := EffectAt(r, i).acted.value;
      a.cause == Dog.NoFramesPresented && (a.reportLoss || a.restartEngine || a.exitProcess)
  }

  /** A tick that is held infers nothing. */
  lemma HeldTickInfersNothing(c: Config, s: State, now: nat, removed: bool, starts: bool)
    requires Dog.Held(c.dog, Dog.AfterConsumeExpired(s.dog).0.hold, now)
    ensures var f := OnTick(c, s, now, removed, starts).1;
      f.acted.Some? && f.acted.value.cause == Dog.NoFramesPresented ==>
        !f.acted.value.reportLoss && !f.acted.value.restartEngine && !f.acted.value.exitProcess
  {
    hide AfterPoll, AfterRequest;
    var consumed := WithDog(s, Dog.AfterConsumeExpired(s.dog).0);
    PollIsQuiet(c, consumed, now, starts);
    RequestActsNot(c, consumed, now, starts);
  }

  lemma RequestActsNot(c: Config, s: State, now: nat, starts: bool)
    ensures forall t, reason :: AfterRequest(c, t, reason, now, starts).1.acted == None
  {
  }

  /**
   * An engine that has shown no sign of life is never judged by its missing
   * frames before its grace is over: in every run, a loss inferred from
   * silence comes a full `maxJudgementHoldMs` after the grace began, and never
   * at all when the hold has no cap.
   */
  lemma StartupIsNotJudged(r: Run, i: nat)
    requires Ordered(r) && i < |r.events| && InferredLoss(r, i) && !Proven(r, i)
    ensures r.config.dog.maxJudgementHoldMs > 0
    ensures r.events[i].now >= GraceSince(r, i) + r.config.dog.maxJudgementHoldMs
  {
    hide OnTick;
    var e, s := r.events[i], StateAt(r, i);
    GraceReachable(r, i, e.now);
    var found := HoldFound(s, e);
    if Dog.Held(r.config.dog, found, e.now) {
      HeldTickInfersNothing(r.config, s, e.now, e.message.removed, e.message.starts);
    }
  }

  /**
   * The grace of a rebuilt engine begins with it exactly when judgement was
   * not on hold any more -- otherwise the old hold's clock runs on, and the
   * new engine inherits what is left of its predecessor's grace.
   */
  lemma GraceBeginsWithEngine(r: Run, i: nat)
    requires Ordered(r) && i < |r.events| && EffectAt(r, i).ended.Some?
    ensures StateAt(r, i + 1).engine.startedMs == r.events[i].now
    ensures var found := HoldFound(StateAt(r, i), r.events[i]);
      && GraceSince(r, i + 1) == (if found.on then found.sinceMs else r.events[i].now)
      && (GraceSince(r, i + 1) == StateAt(r, i + 1).engine.startedMs
          <==> !found.on || found.sinceMs == r.events[i].now)
  {
    hide Step, Opened;
    var e, s := r.events[i], StateAt(r, i);
    GraceReachable(r, i, e.now);
    Reachable(r, i, e.now);
    StepSpares(r.config, s, e, 0);
    StepMoves(r.config, s, e);
    if e.message.StartupDone? { StartupDoneMoves(r.config, s, e); }
  }

  const RUNNER_DEFAULTS := Config(
    Gate.Config(3000, 180000), Dog.DEFAULTS, Policy.Config(15000, true), Live.Config(30000, 60000, 60000, 3), true)

  /** The live engine, without a sign of life and younger than the full grace, is declared lost by a tick. */
  predicate JudgedYoung(r: Run, i: nat)
    requires i < |r.events|
  {
    && InferredLoss(r, i) && !Proven(r, i)
    && r.events[i].now - StateAt(r, i).engine.startedMs < r.config.dog.maxJudgementHoldMs
  }

  /**
   * So the full grace is not always given. Under the runner's own limits, a
   * resume queued behind a startup that never completes is answered after
   * 180 s by a new engine, and that engine -- never started, never drawn -- is
   * declared lost at the age of 60 s, not 240 s.
   */
  lemma GraceCanBeInherited(r: Run)
    requires r.config == RUNNER_DEFAULTS && r.openedMs == 0 && |r.events| == 4
    requires r.events[0] == Event(1000, PowerResume(true))
    requires r.events[1] == Event(180000, WatchdogTick(false, true))
    requires r.events[2] == Event(240000, WatchdogTick(false, true))
    requires r.events[3] == Event(245000, WatchdogTick(false, true))
    ensures Ordered(r)
    ensures JudgedYoung(r, 3)
  {
    hide Opened, Step;
    var c := r.config;
    QueuesBehindStartup(c);
    TickReplacesEngine(c);
    TickMissesOnce(c);
    TickInfersLoss(c);
    assert StateAt(r, 1) == Step(c, StateAt(r, 0), r.events[0]).0;
    assert StateAt(r, 2) == Step(c, StateAt(r, 1), r.events[1]).0;
    assert StateAt(r, 3) == Step(c, StateAt(r, 2), r.events[2]).0;
    assert !Proven(r, 2);
  }

  /** Engine `epoch`, started at `startedMs`, which has not shown any sign of life since judgement was held at 0. */
  function Starting(c: Config, startedMs: nat, epoch: nat, missed: nat, queued: bool): State {
    State(Engine(true, epoch, startedMs, false, false, true),
          Gate.State(true, startedMs, startedMs, epoch > 1, queued,
                     if queued then 1 else 0, if queued then 1000 else 0, if queued then "power resume" else ""),
          Dog.State(false, true, false, missed, 0, Dog.Guard(false, 0, 0), Dog.Hold(true, 0, missed > 0)),
          Policy.FRESH,
          Live.AfterEpochStarted(epoch, startedMs))
  }

  lemma QueuesBehindStartup(c: Config)
    requires c == RUNNER_DEFAULTS
    ensures Opened(c, 0) == Starting(c, 0, 1, 0, false)
    ensures Step(c, Starting(c, 0, 1, 0, false), Event(1000, PowerResume(true))).0 == Starting(c, 0, 1, 0, true)
    ensures Step(c, Starting(c, 0, 1, 0, false), Event(1000, PowerResume(true))).1.ended == None
  {
  }

  lemma TickReplacesEngine(c: Config)
    requires c == RUNNER_DEFAULTS
    ensures var (t, f) := Step(c, Starting(c, 0, 1, 0, true), Event(180000, WatchdogTick(false, true)));
      t == Starting(c, 180000, 2, 0, false) && f.ended.Some?
  {
  }

  /** The state after a tick, the silence report of the UI isolate apart. */
  lemma TickMissesOnce(c: Config)
    requires c == RUNNER_DEFAULTS
    ensures var (t, f) := Step(c, Starting(c, 180000, 2, 0, false), Event(240000, WatchdogTick(false, true)));
      t == Starting(c, 180000, 2, 1, false) && f.ended == None
  {
  }

  lemma TickInfersLoss(c: Config)
    requires c == RUNNER_DEFAULTS
    ensures var f := Step(c, Starting(c, 180000, 2, 1, false), Event(245000, WatchdogTick(false, true))).1;
      f.acted.Some? && f.acted.value.cause == Dog.NoFramesPresented && f.acted.value.restartEngine
  {
  }
}
