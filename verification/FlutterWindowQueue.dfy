// While a rebuild is queued: the engine is on its way out, so the frames it
// does not present say nothing -- and how far the host keeps to that.

module FlutterWindowQueue {
  import opened Prelude
  import opened FlutterWindow
  import opened FlutterWindowRuns
  import opened FlutterWindowGrace
  import Gate = EngineRebuildGate
  import Dog = GpuWatchdog
  import Policy = SessionRebuildPolicy
  import Live = DartLiveness

  /** An engine restart asked for because no frame came. */
  predicate Infers(f: Effect) {
    f.acted.Some? && f.acted.value.cause == Dog.NoFramesPresented && f.acted.value.restartEngine
  }

  /** A hold stays and may be latched once its cap is spent; without one, a new one may begin. */
  ghost predicate HoldMoves(c: Dog.Config, before: Dog.Hold, after: Dog.Hold, now: nat) {
    if before.on then
      && after.on && after.sinceMs == before.sinceMs
      && (before.expired ==> after.expired)
      && (after.expired ==> before.expired || !Dog.Held(c, before, now))
    else
      !after.on || after == Dog.Hold(true, now, false)
  }

  /** A restart is inferred outside any hold, and leaves one: the spent one, or a new one. */
  ghost predicate Inferred(c: Dog.Config, before: Dog.Hold, after: Dog.Hold, now: nat) {
    && !Dog.Held(c, before, now)
    && (if before.on then after.expired else after == Dog.Hold(true, now, false))
  }

  /**
   * What handling a message does that neither ends the live engine nor the
   * window: a queue stays with its startup, and the hold `found` moves as
   * above; a queue that opens is held.
   */
  ghost predicate Waits(c: Config, s: State, found: Dog.Hold, t: State, f: Effect, now: nat) {
    || f.ended.Some? || !t.engine.up
    || (if s.gate.queued then
          && t.gate.queued && t.gate.startupStartedMs == s.gate.startupStartedMs
          && HoldMoves(c.dog, found, t.dog.hold, now)
          && (Infers(f) ==> Inferred(c.dog, found, t.dog.hold, now))
        else
          t.gate.queued ==> t.dog.hold.on)
  }

  // --- Piece by piece -------------------------------------------------------------------

  /** The gate never debounces over a queue; short of a rebuild it coalesces, and judgement is held. */
  lemma RequestWaits(c: Config, s: State, reason: string, now: nat, starts: bool)
    requires Gate.Inv(c.gate, s.gate, now) && s.engine.up
    ensures var (t, f) := AfterRequest(c, s, reason, now, starts);
      && f.acted == None
      && (f.ended.Some? || t.engine == s.engine)
      && (!c.watchdogEnabled ==> t == s && f == QUIET)
      && (c.watchdogEnabled && f.ended == None && (s.gate.queued || t.gate.queued) ==>
            && t.gate.queued && t.gate.startupStartedMs == s.gate.startupStartedMs
            && t.dog.hold == if s.dog.hold.on then s.dog.hold else Dog.Hold(true, now, false))
  {
    hide AfterRebuild;
    if c.watchdogEnabled {
      var (gate, d) := Gate.AfterRequest(c.gate, s.gate, reason, now);
      RebuildEnds(WithGate(s, gate), now, starts);
    }
  }

  lemma RebuildEnds(s: State, now: nat, starts: bool)
    requires s.engine.up
    ensures AfterRebuild(s, now, starts).1.Some?
  {
  }

  lemma PollWaits(c: Config, s: State, now: nat, starts: bool)
    requires s.engine.up
    ensures var (t, ended, released) := AfterPoll(c, s, now, starts);
      && (released <==> s.gate.queued && !Gate.StartupBlocking(c.gate, s.gate, now))
      && (released ==> ended.Some?)
      && (!released ==> t == s && ended == None)
  {
    hide AfterRebuild;
    RebuildEnds(WithGate(s, Gate.AfterPoll(c.gate, s.gate, now).0), now, starts);
  }

  /** A loss a tick infers is one it judges: outside the hold, whose end it latches. */
  lemma TickJudges(c: Dog.Config, s: Dog.State, now: nat)
    ensures var (t, a) := Dog.AfterTick(c, s, now);
      && t.hold == (if s.disabled || Dog.Held(c, s.hold, now) then s.hold
                    else Dog.Hold(s.hold.on, s.hold.sinceMs, s.hold.expired || s.hold.on))
      && (a.restartEngine ==> !s.disabled && !Dog.Held(c, s.hold, now))
  {
  }

  lemma OtherEventsKeepHold(c: Dog.Config, s: Dog.State, cause: Dog.LossCause, now: nat)
    ensures Dog.AfterStarted(c, s).0.hold == s.hold && !Dog.AfterStarted(c, s).1.restartEngine
    ensures Dog.AfterHint(s).0.hold == s.hold && !Dog.AfterHint(s).1.restartEngine
    ensures Dog.AfterRendererLost(c, s, cause, now).0.hold == s.hold
    ensures Dog.AfterRendererLost(c, s, cause, now).1.restartEngine ==>
              Dog.AfterRendererLost(c, s, cause, now).1.cause == cause
  {
  }

  lemma DispatchWaits(c: Config, s: State, e: DogEvent, now: nat, starts: bool)
    requires !e.Frame? && (e.Lost? ==> e.cause != Dog.NoFramesPresented)
    requires Gate.Inv(c.gate, s.gate, now) && s.engine.up && ExpiryIsTrue(c.dog, s.dog.hold, now)
    ensures var (t, f) := AfterDispatch(c, s, e, now, starts);
      Waits(c, s, s.dog.hold, t, f, now)
  {
    hide AfterRequest, Dog.AfterTick, Dog.AfterRendererLost, Dog.AfterStarted, Dog.AfterHint;
    if c.watchdogEnabled && !s.dog.disabled {
      TickJudges(c.dog, s.dog, now);
      OtherEventsKeepHold(c.dog, s.dog, if e.Lost? then e.cause else Dog.ContextLost, now);
      var dog := match e
        case Started => Dog.AfterStarted(c.dog, s.dog).0
        case Tick => Dog.AfterTick(c.dog, s.dog, now).0
        case Frame => Dog.AfterFrame(c.dog, s.dog).0
        case Hint => Dog.AfterHint(s.dog).0
        case Lost(cause) => Dog.AfterRendererLost(c.dog, s.dog, cause, now).0;
      RequestWaits(c, WithDog(s, dog), "gpu loss recovery", now, starts);
    }
  }

  lemma DecisionWaits(c: Config, s: State, d: Policy.Decision, now: nat, starts: bool)
    requires Gate.Inv(c.gate, s.gate, now) && s.engine.up
    ensures var (t, f) := AfterDecision(c, s, d, now, starts);
      Waits(c, s, s.dog.hold, t, f, now)
  {
    hide AfterRequest;
    RequestWaits(c, s, d.reason, now, starts);
  }

  lemma TickWaits(c: Config, s: State, now: nat, removed: bool, starts: bool)
    requires Gate.Inv(c.gate, s.gate, now) && s.engine.up && ExpiryIsTrue(c.dog, s.dog.hold, now)
    ensures var (t, f) := OnTick(c, s, now, removed, starts);
      && Waits(c, s, Dog.AfterConsumeExpired(s.dog).0.hold, t, f, now)
      && (f.ended == None && s.gate.queued ==> Gate.StartupBlocking(c.gate, s.gate, now))
  {
    hide AfterDispatch, AfterPoll, AfterDecision, Waits;
    var consumed := WithDog(s, Dog.AfterConsumeExpired(s.dog).0);
    PollWaits(c, consumed, now, starts);
    var (policy, d) := Policy.AfterTick(c.policy, consumed.policy, now);
    var asked := WithPolicy(consumed, policy);
    DecisionWaits(c, asked, d, now, starts);
    var evaluated := WithLive(asked, Live.AfterEvaluate(c.live, asked.live, now).0);
    DispatchWaits(c, evaluated, if removed then Lost(Dog.ContextLost) else Tick, now, starts);
    var (t, f) := OnTick(c, s, now, removed, starts);
    WaitsAlike(c, s, consumed, consumed.dog.hold, t, f, now);
    WaitsAlike(c, s, asked, consumed.dog.hold, t, f, now);
    WaitsAlike(c, s, evaluated, consumed.dog.hold, t, f, now);
    WaitsWhenEnded(c, s, consumed.dog.hold, t, f, now);
  }

  lemma WaitsAlike(c: Config, s: State, u: State, found: Dog.Hold, t: State, f: Effect, now: nat)
    requires u.gate == s.gate
    ensures Waits(c, u, found, t, f, now) <==> Waits(c, s, found, t, f, now)
  {
  }

  lemma WaitsWhenEnded(c: Config, s: State, found: Dog.Hold, t: State, f: Effect, now: nat)
    ensures f.ended.Some? ==> Waits(c, s, found, t, f, now)
  {
  }

  lemma HintWaits(c: Config, s: State, now: nat)
    ensures OnHint(c, s, now).gate == s.gate && OnHint(c, s, now).dog.hold == s.dog.hold
    ensures OnHint(c, s, now).engine.up == s.engine.up
  {
  }

  lemma SessionWaits(c: Config, s: State, change: SessionChange, now: nat, starts: bool)
    requires Gate.Inv(c.gate, s.gate, now) && s.engine.up
    ensures var (t, f) := OnSession(c, s, change, now, starts);
      Waits(c, s, s.dog.hold, t, f, now)
  {
    hide OnHint, AfterDecision;
    HintWaits(c, s, now);
    var hinted := OnHint(c, s, now);
    match change
    case OtherChange =>
    case RemoteConnect(engine, session) =>
      var adapter := Policy.ClassifyAdapterCheck(engine, session);
      var (policy, d) := Policy.AfterConnect(c.policy, hinted.policy, now, adapter);
      DecisionWaits(c, WithPolicy(hinted, policy), d, now, starts);
    case RemoteDisconnect =>
      var (policy, d) := Policy.AfterDisconnect(hinted.policy);
      DecisionWaits(c, WithPolicy(hinted, policy), d, now, starts);
  }

  lemma StepWaits(c: Config, s: State, e: Event)
    requires Gate.Inv(c.gate, s.gate, e.now) && s.engine.up && ExpiryIsTrue(c.dog, s.dog.hold, e.now)
    requires !e.message.FramePresented?
    ensures var (t, f) := Step(c, s, e);
      && Waits(c, s, HoldFound(s, e), t, f, e.now)
      && (Infers(f) ==> e.message.WatchdogTick?)
      && (e.message.WatchdogTick? && f.ended == None && s.gate.queued ==>
            Gate.StartupBlocking(c.gate, s.gate, e.now))
  {
    hide OnTick, OnSession, OnHint, AfterDispatch, AfterRequest, AfterPoll;
    match e.message
    case WatchdogTick(removed, starts) => TickWaits(c, s, e.now, removed, starts);
    case RebuildDue(starts) => PollWaits(c, s, e.now, starts);
    case RasterLoss(starts) =>
      DispatchWaits(c, s, Lost(Dog.RasterFailed), e.now, starts);
      EvidenceInfersNothing(c, s, Dog.RasterFailed, e.now, starts);
    case EglStorm(starts) =>
      DispatchWaits(c, s, Lost(Dog.ContextLost), e.now, starts);
      EvidenceInfersNothing(c, s, Dog.ContextLost, e.now, starts);
    case PowerResume(starts) =>
      HintWaits(c, s, e.now);
      RequestWaits(c, OnHint(c, s, e.now), "power resume", e.now, starts);
    case DisplayChange => HintWaits(c, s, e.now);
    case Session(change, starts) =>
      SessionWaits(c, s, change, e.now, starts);
      SessionActsNot(c, s, change, e.now, starts);
    case MainStarting(_) =>
    case StartupDone(_) =>
    case Stamped(_) =>
    case Disarm =>
    case Close =>
  }

  lemma EvidenceInfersNothing(c: Config, s: State, cause: Dog.LossCause, now: nat, starts: bool)
    requires cause != Dog.NoFramesPresented
    ensures !Infers(AfterDispatch(c, s, Lost(cause), now, starts).1)
  {
    hide AfterRequest, Dog.AfterRendererLost;
    OtherEventsKeepHold(c.dog, s.dog, cause, now);
  }

  lemma SessionActsNot(c: Config, s: State, change: SessionChange, now: nat, starts: bool)
    ensures OnSession(c, s, change, now, starts).1.acted == None
  {
    hide OnHint, AfterRequest;
    RequestActsNot(c, s, now, starts);
  }

  // --- Over a run ------------------------------------------------------------------------

  /**
   * One queue: after the first `i` events a rebuild is queued and judgement
   * held, and up to the first `n` it is not carried out, the window keeps its
   * controller, and no frame comes.
   */
  ghost predicate OneQueue(r: Run, i: nat, n: nat)
    requires i <= n <= |r.events|
  {
    && StateAt(r, i).gate.queued && StateAt(r, i).dog.hold.on
    && StateAt(r, n).engine.up
    && forall k :: i <= k < n ==> EffectAt(r, k).ended == None && !r.events[k].message.FramePresented?
  }

  lemma StillUp(r: Run, k: nat, n: nat)
    requires Ordered(r) && k <= n <= |r.events| && StateAt(r, n).engine.up
    ensures StateAt(r, k).engine.up
  {
    hide Step, Opened;
    if !StateAt(r, k).engine.up {
      LostControllerIsFinal(r, k, n);
    }
  }

  lemma FrameMovesNoGate(c: Config, s: State, now: nat)
    ensures OnFrame(c, s, now).0.gate == s.gate && OnFrame(c, s, now).1.ended == None
  {
  }

  lemma FrameQueuesNothing(c: Config, s: State, e: Event)
    requires e.message.FramePresented?
    ensures Step(c, s, e).0.gate == s.gate && Step(c, s, e).1.ended == None
  {
    hide OnFrame;
    FrameMovesNoGate(c, s, e.now);
  }

  /** A queue that opens is held from then on: judgement is off. */
  lemma QueueOpensHeld(r: Run, i: nat)
    requires Ordered(r) && i < |r.events|
    requires !StateAt(r, i).gate.queued && StateAt(r, i + 1).gate.queued && StateAt(r, i + 1).engine.up
    ensures OneQueue(r, i + 1, i + 1)
  {
    hide Step, Opened;
    var e, s := r.events[i], StateAt(r, i);
    StillUp(r, i, i + 1);
    Reachable(r, i, e.now);
    GraceReachable(r, i, e.now);
    if e.message.FramePresented? {
      FrameQueuesNothing(r.config, s, e);
    } else if e.message.StartupDone? {
      StartupDoneMoves(r.config, s, e);
      StepWaits(r.config, s, e);
    } else {
      StepMoves(r.config, s, e);
      StepWaits(r.config, s, e);
    }
  }

  /** One event of a queue. */
  lemma QueueStep(r: Run, i: nat, n: nat)
    requires Ordered(r) && i < n <= |r.events| && OneQueue(r, i, n) && StateAt(r, n - 1).gate.queued
    ensures OneQueue(r, i, n - 1)
    ensures ExpiryIsTrue(r.config.dog, StateAt(r, n - 1).dog.hold, r.events[n - 1].now)
    ensures var e, s, t := r.events[n - 1], StateAt(r, n - 1), StateAt(r, n);
      && t.gate.queued && t.gate.startupStartedMs == s.gate.startupStartedMs
      && HoldMoves(r.config.dog, HoldFound(s, e), t.dog.hold, e.now)
      && (Infers(EffectAt(r, n - 1)) ==>
            && e.message.WatchdogTick? && Inferred(r.config.dog, HoldFound(s, e), t.dog.hold, e.now)
            && Gate.StartupBlocking(r.config.gate, s.gate, e.now))
  {
    hide Step, Opened, HoldMoves, Inferred, HoldFound;
    var e, s := r.events[n - 1], StateAt(r, n - 1);
    StillUp(r, n - 1, n);
    Reachable(r, n - 1, e.now);
    GraceReachable(r, n - 1, e.now);
    StepWaits(r.config, s, e);
  }

  lemma {:induction false} StaysQueued(r: Run, i: nat, n: nat)
    requires Ordered(r) && i <= n <= |r.events| && OneQueue(r, i, n)
    ensures StateAt(r, n).gate.queued
    ensures StateAt(r, n).gate.startupStartedMs == StateAt(r, i).gate.startupStartedMs
  {
    hide Step, Opened, HoldMoves, Inferred, ExpiryIsTrue;
    if n > i {
      StillUp(r, n - 1, n);
      StaysQueued(r, i, n - 1);
      QueueStep(r, i, n);
    }
  }

  /** The hold of a queue is still on since it began, or has been given in full. */
  lemma {:induction false} QueueIsGraced(r: Run, i: nat, n: nat, now: nat)
    requires Ordered(r) && i <= n <= |r.events| && OneQueue(r, i, n) && ClockAt(r, n) <= now
    ensures Graced(r.config.dog, StateAt(r, n).dog.hold, StateAt(r, i).dog.hold.sinceMs, now)
  {
    hide Step, Opened, Inferred;
    if n > i {
      StillUp(r, n - 1, n);
      StaysQueued(r, i, n - 1);
      QueueIsGraced(r, i, n - 1, r.events[n - 1].now);
      QueueStep(r, i, n);
    }
  }

  /**
   * A rebuild that is queued is not judged by missing frames: until a frame
   * comes, a loss is only inferred a full `maxJudgementHoldMs` after the hold
   * began that the queue was opened under, and never when the hold has no cap.
   */
  lemma QueuedIsNotJudged(r: Run, i: nat, j: nat)
    requires Ordered(r) && i <= j < |r.events| && OneQueue(r, i, j) && InferredLoss(r, j)
    ensures r.config.dog.maxJudgementHoldMs > 0
    ensures r.events[j].now >= StateAt(r, i).dog.hold.sinceMs + r.config.dog.maxJudgementHoldMs
  {
    hide OnTick, OneQueue;
    var e, s := r.events[j], StateAt(r, j);
    QueueIsGraced(r, i, j, e.now);
    GraceReachable(r, j, e.now);
    var found := HoldFound(s, e);
    if Dog.Held(r.config.dog, found, e.now) {
      HeldTickInfersNothing(r.config, s, e.now, e.message.removed, e.message.starts);
    }
  }

  // --- How many restarts one queue can infer ------------------------------------------------

  /** The restarts inferred among the events `i` to `n`, `n` excluded. */
  function InferredRestarts(r: Run, i: nat, n: nat): nat
    requires i <= n <= |r.events|
    decreases n
  {
    if i == n then 0 else InferredRestarts(r, i, n - 1) + if Infers(EffectAt(r, n - 1)) then 1 else 0
  }

  /** After `rounds` holds begun since `from`, no more than two restarts a hold, the last one's second still to come. */
  ghost predicate Paced(c: Dog.Config, h: Dog.Hold, restarts: nat, rounds: nat, from: nat, now: nat) {
    && from <= now
    && (h.on ==>
          && restarts <= 2 * rounds + (if h.expired then 1 else 0)
          && (rounds > 0 ==> h.sinceMs >= from + (rounds - 1) * c.maxJudgementHoldMs))
    && (!h.on ==>
          && restarts <= 2 * rounds + 1
          && now >= from + rounds * c.maxJudgementHoldMs)
  }

  /** Looking at the hold a tick finds: one that had been announced as spent is gone, and a whole cap with it. */
  lemma PacedAsFound(c: Dog.Config, h: Dog.Hold, restarts: nat, rounds: nat, from: nat, now: nat)
    requires ExpiryIsTrue(c, h, now) && Paced(c, h, restarts, rounds, from, now) && h.expired
    ensures Paced(c, Dog.RELEASED, restarts, rounds, from, now)
  {
    NextRound(rounds, c.maxJudgementHoldMs);
  }

  lemma NextRound(rounds: nat, cap: nat)
    ensures rounds > 0 ==> rounds * cap == (rounds - 1) * cap + cap
    ensures rounds == 0 ==> rounds * cap == 0
  {
  }

  /** A message that infers nothing keeps the pace; a hold that begins is one more round. */
  lemma PacedQuietly(c: Dog.Config, found: Dog.Hold, after: Dog.Hold, restarts: nat, rounds: nat, from: nat, now: nat)
    returns (more: nat)
    requires Paced(c, found, restarts, rounds, from, now) && HoldMoves(c, found, after, now)
    ensures Paced(c, after, restarts, more, from, now)
  {
    more := if !found.on && after.on then rounds + 1 else rounds;
  }

  /** An inferred restart comes a whole cap into its round, and a second one begins the next. */
  lemma PacedRestart(c: Dog.Config, found: Dog.Hold, after: Dog.Hold, restarts: nat, rounds: nat, from: nat, now: nat)
    returns (more: nat)
    requires Paced(c, found, restarts, rounds, from, now) && !found.expired
    requires HoldMoves(c, found, after, now) && Inferred(c, found, after, now)
    ensures Paced(c, after, restarts + 1, more, from, now)
    ensures restarts + 1 <= 2 * rounds + 2 && now >= from + rounds * c.maxJudgementHoldMs
  {
    NextRound(rounds, c.maxJudgementHoldMs);
    more := if found.on then rounds else rounds + 1;
  }

  lemma {:induction false} QueueIsPaced(r: Run, i: nat, n: nat, now: nat) returns (rounds: nat)
    requires Ordered(r) && i <= n <= |r.events| && OneQueue(r, i, n) && ClockAt(r, n) <= now
    ensures Paced(r.config.dog, StateAt(r, n).dog.hold, InferredRestarts(r, i, n), rounds, ClockAt(r, i), now)
    decreases n, 1
  {
    hide Step, Opened, HoldMoves, Inferred, Infers;
    if n == i {
      rounds := 0;
    } else {
      hide Paced, ExpiryIsTrue;
      var e, s, t := r.events[n - 1], StateAt(r, n - 1), StateAt(r, n);
      rounds := QueueIsPacedAsFound(r, i, n);
      if Infers(EffectAt(r, n - 1)) {
        rounds := PacedRestart(r.config.dog, HoldFound(s, e), t.dog.hold, InferredRestarts(r, i, n - 1),
                               rounds, ClockAt(r, i), e.now);
      } else {
        rounds := PacedQuietly(r.config.dog, HoldFound(s, e), t.dog.hold, InferredRestarts(r, i, n - 1),
                               rounds, ClockAt(r, i), e.now);
      }
      PacedLater(r.config.dog, t.dog.hold, InferredRestarts(r, i, n), rounds, ClockAt(r, i), e.now, now);
    }
  }

  lemma PacedLater(c: Dog.Config, h: Dog.Hold, restarts: nat, rounds: nat, from: nat, before: nat, now: nat)
    requires Paced(c, h, restarts, rounds, from, before) && before <= now
    ensures Paced(c, h, restarts, rounds, from, now)
  {
  }

  /** The pace as the last of the events finds it. */
  lemma {:induction false} QueueIsPacedAsFound(r: Run, i: nat, n: nat) returns (rounds: nat)
    requires Ordered(r) && i < n <= |r.events| && OneQueue(r, i, n)
    ensures OneQueue(r, i, n - 1)
    ensures var e, s, t := r.events[n - 1], StateAt(r, n - 1), StateAt(r, n);
      && s.gate.queued && t.gate.queued
      && Paced(r.config.dog, HoldFound(s, e), InferredRestarts(r, i, n - 1), rounds, ClockAt(r, i), e.now)
      && HoldMoves(r.config.dog, HoldFound(s, e), t.dog.hold, e.now)
      && (Infers(EffectAt(r, n - 1)) ==>
            && !HoldFound(s, e).expired
            && Inferred(r.config.dog, HoldFound(s, e), t.dog.hold, e.now)
            && Gate.StartupBlocking(r.config.gate, s.gate, e.now))
    decreases n, 0
  {
    hide Step, Opened, HoldMoves, Inferred, Infers, Paced, ExpiryIsTrue;
    var e, s := r.events[n - 1], StateAt(r, n - 1);
    StillUp(r, n - 1, n);
    StaysQueued(r, i, n - 1);
    QueueStep(r, i, n);
    rounds := QueueIsPaced(r, i, n - 1, e.now);
    if s.dog.hold.expired {
      PacedAsFound(r.config.dog, s.dog.hold, InferredRestarts(r, i, n - 1), rounds, ClockAt(r, i), e.now);
    }
  }

  lemma FewerRounds(k: nat, rounds: nat, cap: nat)
    requires k <= rounds
    ensures k * cap <= rounds * cap
  {
  }

  /**
   * A queue is short, and a hold is long: with 2k + 1 restarts inferred while
   * one rebuild was queued and no frame came, k whole caps passed within the
   * one startup the rebuild waits for.
   */
  lemma InferredRestartsAreBounded(r: Run, i: nat, j: nat, k: nat)
    requires Ordered(r) && i <= j < |r.events| && OneQueue(r, i, j + 1)
    requires Infers(EffectAt(r, j)) && InferredRestarts(r, i, j + 1) >= 2 * k + 1
    ensures k * r.config.dog.maxJudgementHoldMs < r.config.gate.startupTimeoutMs
  {
    hide Step, Opened, HoldMoves, Inferred, Infers, Paced, ExpiryIsTrue;
    var e, s, cap := r.events[j], StateAt(r, j), r.config.dog.maxJudgementHoldMs;
    var rounds := QueueIsPacedAsFound(r, i, j + 1);
    var more := PacedRestart(r.config.dog, HoldFound(s, e), StateAt(r, j + 1).dog.hold, InferredRestarts(r, i, j),
                             rounds, ClockAt(r, i), e.now);
    FewerRounds(k, rounds, cap);
    StaysQueued(r, i, j);
    Reachable(r, i, ClockAt(r, i));
  }

  /** So when the hold outlasts the startup timeout, as it does by default, a queue sees at most two. */
  lemma {:induction false} AtMostTwoInferredRestarts(r: Run, i: nat, n: nat)
    requires Ordered(r) && i <= n <= |r.events| && OneQueue(r, i, n)
    requires r.config.dog.maxJudgementHoldMs >= r.config.gate.startupTimeoutMs
    ensures InferredRestarts(r, i, n) <= 2
  {
    hide Step, Opened, Infers;
    if n > i {
      StillUp(r, n - 1, n);
      AtMostTwoInferredRestarts(r, i, n - 1);
      if Infers(EffectAt(r, n - 1)) && InferredRestarts(r, i, n) >= 3 {
        InferredRestartsAreBounded(r, i, n - 1, 1);
      }
    }
  }

  // --- A queued rebuild that is judged -------------------------------------------------------

  /** The second engine, which has shown no sign of life, with a resume queued behind its startup. */
  function Waiting(c: Config, missed: nat): State {
    State(Engine(true, 2, 180000, false, false, true),
          Gate.State(true, 180000, 180000, true, true, 1, 200000, "power resume"),
          Dog.State(false, true, false, missed, 0, Dog.Guard(false, 0, 0), Dog.Hold(true, 0, missed > 0)),
          Policy.FRESH,
          Live.AfterEpochStarted(2, 180000))
  }

  lemma SecondResumeQueues(c: Config)
    requires c == RUNNER_DEFAULTS
    ensures var (t, f) := Step(c, Starting(c, 180000, 2, 0, false), Event(200000, PowerResume(true)));
      t == Waiting(c, 0) && f.ended == None && f.answered == Some(Gate.Queued)
  {
  }

  lemma QueuedTickMissesOnce(c: Config)
    requires c == RUNNER_DEFAULTS
    ensures var (t, f) := Step(c, Waiting(c, 0), Event(240000, WatchdogTick(false, true)));
      t == Waiting(c, 1) && f.ended == None
  {
  }

  lemma QueuedTickInfersLoss(c: Config)
    requires c == RUNNER_DEFAULTS
    ensures var (t, f) := Step(c, Waiting(c, 1), Event(245000, WatchdogTick(false, true)));
      && Infers(f) && f.ended == None && f.answered == Some(Gate.Coalesced)
      && t.gate.queued && t.engine.up
  {
  }

  /**
   * The hold a queue is opened under may be an old one. Under the runner's own
   * limits a resume queued behind the second engine's startup is still queued
   * when that engine is declared lost for want of frames, 45 s later: the
   * restart that asks for is only coalesced with it.
   */
  lemma QueuedRebuildIsJudged(r: Run)
    requires r.config == RUNNER_DEFAULTS && r.openedMs == 0 && |r.events| == 5
    requires r.events[0] == Event(1000, PowerResume(true))
    requires r.events[1] == Event(180000, WatchdogTick(false, true))
    requires r.events[2] == Event(200000, PowerResume(true))
    requires r.events[3] == Event(240000, WatchdogTick(false, true))
    requires r.events[4] == Event(245000, WatchdogTick(false, true))
    ensures Ordered(r) && OneQueue(r, 3, 5)
    ensures Infers(EffectAt(r, 4)) && EffectAt(r, 4).answered == Some(Gate.Coalesced)
    ensures StateAt(r, 5).gate.queued
  {
    hide Opened, Step, Infers;
    var c := r.config;
    QueuesBehindStartup(c);
    TickReplacesEngine(c);
    SecondResumeQueues(c);
    QueuedTickMissesOnce(c);
    QueuedTickInfersLoss(c);
    assert StateAt(r, 1) == Step(c, StateAt(r, 0), r.events[0]).0;
    assert StateAt(r, 2) == Step(c, StateAt(r, 1), r.events[1]).0;
    assert StateAt(r, 3) == Step(c, StateAt(r, 2), r.events[2]).0;
    assert StateAt(r, 4) == Step(c, StateAt(r, 3), r.events[3]).0;
    assert StateAt(r, 5) == Step(c, StateAt(r, 4), r.events[4]).0;
  }
}
