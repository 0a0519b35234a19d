// The composition: ticks, frames, hints, session changes and channel messages
// routed into the four machines, and the engine epochs they act on
// (centroid-hmi/windows/runner/flutter_window.cpp).

module FlutterWindow {
  import opened Prelude
  import Gate = EngineRebuildGate
  import Dog = GpuWatchdog
  import Policy = SessionRebuildPolicy
  import Live = DartLiveness

  datatype Config = Config(
    gate: Gate.Config,
    dog: Dog.Config,
    policy: Policy.Config,
    live: Live.Config,
    watchdogEnabled: bool)

  /** The live engine generation, and whether a controller for it exists. */
  datatype Engine = Engine(
    up: bool,
    epoch: nat,
    startedMs: nat,
    mainSeen: bool,
    startupComplete: bool,
    probeArmed: bool)

  datatype State = State(
    engine: Engine,
    gate: Gate.State,
    dog: Dog.State,
    policy: Policy.State,
    live: Live.State)

  /** An engine that a rebuild ended, as it stood at that moment. */
  datatype Ended = Ended(epoch: nat, startedMs: nat, startupComplete: bool)

  /** What one message did beyond the state. */
  datatype Effect = Effect(
    ended: Option<Ended>,            // PerformEngineRebuild tore this engine down
    answered: Option<Gate.Verdict>,  // RequestEngineRebuild was answered
    acted: Option<Dog.Action>,       // an action of the watchdog was applied
    exited: bool)                    // the process was asked to end

  const QUIET := Effect(None, None, None, false)

  // --- The pieces the messages share ------------------------------------------------

  const NEW_WINDOW := State(Engine(false, 0, 0, false, false, false),
                            Gate.FRESH, Dog.FRESH, Policy.FRESH, Live.FRESH)

  function WithEngine(s: State, engine: Engine): State {
    State(engine, s.gate, s.dog, s.policy, s.live)
  }

  function WithGate(s: State, gate: Gate.State): State {
    State(s.engine, gate, s.dog, s.policy, s.live)
  }

  function WithDog(s: State, dog: Dog.State): State {
    State(s.engine, s.gate, dog, s.policy, s.live)
  }

  function WithPolicy(s: State, policy: Policy.State): State {
    State(s.engine, s.gate, s.dog, policy, s.live)
  }

  function WithLive(s: State, live: Live.State): State {
    State(s.engine, s.gate, s.dog, s.policy, live)
  }

  function JudgeableUpdated(s: State, now: nat): State {
    WithDog(s, Dog.AfterSetJudgeable(s.dog, s.engine.mainSeen && !s.gate.queued, now))
  }

  /** A new epoch, counted and announced before its engine is known to have come up. */
  function BegunEpoch(s: State, now: nat): State {
    var epoch := s.engine.epoch + 1;
    State(Engine(s.engine.up, epoch, now, false, false, s.engine.probeArmed),
          Gate.AfterEngineCreated(s.gate, now),
          Dog.AfterSetJudgeable(s.dog, false, now),
          s.policy,
          Live.AfterEpochStarted(epoch, now))
  }

  function AfterCreate(s: State, now: nat, starts: bool): State {
    var t := BegunEpoch(s, now);
    var e := t.engine;
    State(Engine(starts, e.epoch, e.startedMs, false, false, starts || e.probeArmed),
          t.gate, t.dog, if starts then Policy.AfterEngineCreated() else t.policy, t.live)
  }

  function AfterDestroy(s: State): State {
    var e := s.engine;
    WithEngine(s, Engine(false, e.epoch, e.startedMs, e.mainSeen, e.startupComplete, false))
  }

  function AfterRebuild(s: State, now: nat, starts: bool): (State, Option<Ended>) {
    if !s.engine.up then (s, None)
    else (JudgeableUpdated(AfterCreate(AfterDestroy(s), now, starts), now),
          Some(Ended(s.engine.epoch, s.engine.startedMs, s.engine.startupComplete)))
  }

  function AfterRequest(c: Config, s: State, reason: string, now: nat, starts: bool): (State, Effect) {
    if !c.watchdogEnabled || !s.engine.up then (s, QUIET)
    else
      var (gate, d) := Gate.AfterRequest(c.gate, s.gate, reason, now);
      var asked := WithGate(s, gate);
      if d.verdict == Gate.RebuildNow then
        var (rebuilt, ended) := AfterRebuild(asked, now, starts);
        (rebuilt, Effect(ended, Some(d.verdict), None, false))
      else
        (JudgeableUpdated(asked, now), Effect(None, Some(d.verdict), None, false))
  }

  /** A queued rebuild that has become due is carried out. */
  function AfterPoll(c: Config, s: State, now: nat, starts: bool): (State, Option<Ended>, bool) {
    var (gate, d) := Gate.AfterPoll(c.gate, s.gate, now);
    if d.verdict == Gate.RebuildNow then
      var (rebuilt, ended) := AfterRebuild(WithGate(s, gate), now, starts);
      (rebuilt, ended, true)
    else (WithGate(s, gate), None, false)
  }

  function ProbeStarted(s: State): State {
    var e := s.engine;
    if e.up then WithEngine(s, Engine(e.up, e.epoch, e.startedMs, e.mainSeen, e.startupComplete, true)) else s
  }

  function AfterAction(c: Config, s: State, a: Dog.Action, now: nat, starts: bool): (State, Effect) {
    if a.exitProcess then (AfterDestroy(s), Effect(None, None, Some(a), true))
    else
      var (t, f) := if a.restartEngine then AfterRequest(c, s, "gpu loss recovery", now, starts) else (s, QUIET);
      (if a.startProbe then ProbeStarted(t) else t, Effect(f.ended, f.answered, Some(a), false))
  }

  datatype DogEvent = Started | Tick | Frame | Hint | Lost(cause: Dog.LossCause)

  function AfterDispatch(c: Config, s: State, e: DogEvent, now: nat, starts: bool): (State, Effect) {
    if !c.watchdogEnabled || s.dog.disabled then (s, QUIET)
    else
      var (dog, a) := match e
        case Started => Dog.AfterStarted(c.dog, s.dog)
        case Tick => Dog.AfterTick(c.dog, s.dog, now)
        case Frame => Dog.AfterFrame(c.dog, s.dog)
        case Hint => Dog.AfterHint(s.dog)
        case Lost(cause) => Dog.AfterRendererLost(c.dog, s.dog, cause, now);
      AfterAction(c, WithDog(s, dog), a, now, starts)
  }

  /** What a policy decision leads to: a rebuild it asks for goes through the gate. */
  function AfterDecision(c: Config, s: State, d: Policy.Decision, now: nat, starts: bool): (State, Effect) {
    if d.verdict == Policy.RebuildNow then AfterRequest(c, s, d.reason, now, starts) else (s, QUIET)
  }

  // --- The messages --------------------------------------------------------------------

  /** A remote connect finds the adapters the engine and the session render on, each known or not. */
  datatype SessionChange =
    | RemoteConnect(engineAdapter: Option<nat>, sessionAdapter: Option<nat>)
    | RemoteDisconnect
    | OtherChange

  // `starts` is whether an engine created while the message is handled comes
  // up, `removed` the sentinel device's answer.
  datatype Message =
    | WatchdogTick(removed: bool, starts: bool)
    | RebuildDue(starts: bool)
    | RasterLoss(starts: bool)
    | EglStorm(starts: bool)
    | PowerResume(starts: bool)
    | DisplayChange
    | Session(change: SessionChange, starts: bool)
    | FramePresented
    | MainStarting(epoch: int)
    | StartupDone(epoch: int)
    | Stamped(stamp: Live.Stamp)
    | Disarm
    | Close

  datatype Event = Event(now: nat, message: Message)

  function OnTick(c: Config, s: State, now: nat, removed: bool, starts: bool): (State, Effect) {
    var consumed := WithDog(s, Dog.AfterConsumeExpired(s.dog).0);
    var (polled, ended, released) := AfterPoll(c, consumed, now, starts);
    if released then (polled, Effect(ended, None, None, false))
    else
      var (policy, d) := Policy.AfterTick(c.policy, polled.policy, now);
      var asked := WithPolicy(polled, policy);
      if d.verdict == Policy.RebuildNow then AfterDecision(c, asked, d, now, starts)
      else
        var evaluated := WithLive(asked, Live.AfterEvaluate(c.live, asked.live, now).0);
        AfterDispatch(c, evaluated, if removed then Lost(Dog.ContextLost) else Tick, now, starts)
  }

  function OnLossMessage(c: Config, s: State, cause: Dog.LossCause, now: nat, starts: bool): (State, Effect) {
    if c.watchdogEnabled && s.engine.up then AfterDispatch(c, s, Lost(cause), now, starts) else (s, QUIET)
  }

  function OnHint(c: Config, s: State, now: nat): State {
    AfterDispatch(c, s, Hint, now, false).0
  }

  function OnPowerResume(c: Config, s: State, now: nat, starts: bool): (State, Effect) {
    if !c.watchdogEnabled || !s.engine.up then (s, QUIET)
    else AfterRequest(c, OnHint(c, s, now), "power resume", now, starts)
  }

  function OnSession(c: Config, s: State, change: SessionChange, now: nat, starts: bool): (State, Effect) {
    if !c.watchdogEnabled || !s.engine.up then (s, QUIET)
    else
      var hinted := OnHint(c, s, now);
      match change
      case OtherChange => (hinted, QUIET)
      case RemoteConnect(engine, session) =>
        var adapter := Policy.ClassifyAdapterCheck(engine, session);
        var (policy, d) := Policy.AfterConnect(c.policy, hinted.policy, now, adapter);
        AfterDecision(c, WithPolicy(hinted, policy), d, now, starts)
      case RemoteDisconnect =>
        var (policy, d) := Policy.AfterDisconnect(hinted.policy);
        AfterDecision(c, WithPolicy(hinted, policy), d, now, starts)
  }

  function OnFrame(c: Config, s: State, now: nat): (State, Effect) {
    var e := s.engine;
    var consumed := WithEngine(s, Engine(e.up, e.epoch, e.startedMs, e.mainSeen, e.startupComplete, false));
    var (drawn, f) := AfterDispatch(c, consumed, Frame, now, false);
    (WithPolicy(drawn, Policy.AfterFrame(drawn.policy, now).0), f)
  }

  /** `mainStarting` is believed whatever epoch it names. */
  function OnMainStarting(s: State, now: nat): State {
    var e := s.engine;
    JudgeableUpdated(WithEngine(s, Engine(e.up, e.epoch, e.startedMs, true, e.startupComplete, e.probeArmed)), now)
  }

  function OnStartupDone(s: State, epoch: int): State {
    var e := s.engine;
    if epoch != e.epoch then s
    else WithGate(WithEngine(s, Engine(e.up, e.epoch, e.startedMs, e.mainSeen, true, e.probeArmed)),
                  Gate.AfterStartupComplete(s.gate))
  }

  function Step(c: Config, s: State, e: Event): (State, Effect) {
    match e.message
    case WatchdogTick(removed, starts) => OnTick(c, s, e.now, removed, starts)
    case RebuildDue(starts) =>
      var (t, ended, _) := AfterPoll(c, s, e.now, starts);
      (t, Effect(ended, None, None, false))
    case RasterLoss(starts) => OnLossMessage(c, s, Dog.RasterFailed, e.now, starts)
    case EglStorm(starts) => OnLossMessage(c, s, Dog.ContextLost, e.now, starts)
    case PowerResume(starts) => OnPowerResume(c, s, e.now, starts)
    case DisplayChange => (if c.watchdogEnabled && s.engine.up then OnHint(c, s, e.now) else s, QUIET)
    case Session(change, starts) => OnSession(c, s, change, e.now, starts)
    case FramePresented => OnFrame(c, s, e.now)
    case MainStarting(_) => (OnMainStarting(s, e.now), QUIET)
    case StartupDone(epoch) => (OnStartupDone(s, epoch), QUIET)
    case Stamped(stamp) => (WithLive(s, Live.AfterStamp(c.live, s.live, stamp, e.now).0), QUIET)
    case Disarm => (WithDog(s, Dog.AfterDisable(s.dog)), QUIET)
    case Close => (AfterDestroy(s), QUIET)
  }

  /** OnCreate, the first engine having come up. */
  function Opened(c: Config, now: nat): State {
    AfterDispatch(c, AfterCreate(NEW_WINDOW, now, true), Started, now, false).0
  }

  // --- Runs ----------------------------------------------------------------------------

  /** Everything that happens to a window opened at `openedMs`. */
  datatype Run = Run(config: Config, openedMs: nat, events: seq<Event>)

  ghost predicate Ordered(r: Run) {
    && (forall i :: 0 <= i < |r.events| ==> r.openedMs <= r.events[i].now)
    && (forall i, j :: 0 <= i < j < |r.events| ==> r.events[i].now <= r.events[j].now)
  }

  function StateAt(r: Run, n: nat): State
    requires n <= |r.events|
  {
    if n == 0 then Opened(r.config, r.openedMs)
    else Step(r.config, StateAt(r, n - 1), r.events[n - 1]).0
  }

  function EffectAt(r: Run, i: nat): Effect
    requires i < |r.events|
  {
    Step(r.config, StateAt(r, i), r.events[i]).1
  }

  /** The clock after the first `n` events. */
  function ClockAt(r: Run, n: nat): nat
    requires n <= |r.events|
  {
    if n == 0 then r.openedMs else r.events[n - 1].now
  }

  lemma {:induction false} PrefixIsKept(r: Run, more: seq<Event>, n: nat)
    requires n <= |r.events|
    ensures StateAt(Run(r.config, r.openedMs, r.events + more), n) == StateAt(r, n)
  {
    hide Step;
    if n > 0 { PrefixIsKept(r, more, n - 1); }
  }

  lemma OrderExtends(r: Run, e: Event)
    requires Ordered(r) && ClockAt(r, |r.events|) <= e.now
    ensures Ordered(Run(r.config, r.openedMs, r.events + [e]))
  {
    var longer := r.events + [e];
    forall i, j | 0 <= i < j < |longer|
      ensures longer[i].now <= longer[j].now
    {
      assert i < |r.events| && r.events[i].now <= ClockAt(r, |r.events|);
    }
  }

  lemma RunExtends(r: Run, e: Event)
    requires Ordered(r) && ClockAt(r, |r.events|) <= e.now
    ensures var longer := Run(r.config, r.openedMs, r.events + [e]);
      && Ordered(longer)
      && StateAt(longer, |r.events| + 1) == Step(r.config, StateAt(r, |r.events|), e).0
      && EffectAt(longer, |r.events|) == Step(r.config, StateAt(r, |r.events|), e).1
      && StateAt(longer, |r.events|) == StateAt(r, |r.events|)
  {
    hide Step, Ordered, Opened;
    var longer := Run(r.config, r.openedMs, r.events + [e]);
    OrderExtends(r, e);
    PrefixIsKept(r, [e], |r.events|);
    assert longer.events[|r.events|] == e;
  }

  lemma NothingDispatched(c: Config, s: State, now: nat)
    requires !c.watchdogEnabled
    ensures AfterDispatch(c, s, Started, now, false) == (s, QUIET)
  {
  }

  // --- The window --------------------------------------------------------------------------

  class Window {
    const config: Config
    const gate: Gate.Gate
    const dog: Dog.Watchdog
    const policy: Policy.Policy
    const live: Live.Liveness

    var controllerUp: bool
    var engineEpoch: nat
    var epochStartedMs: nat
    var dartMainSeen: bool
    var dartStartupComplete: bool
    var probeArmed: bool

    // Everything handled so far.
    ghost var run: Run

    function View(): State
      reads this, gate, dog, policy, live
    {
      State(Engine(controllerUp, engineEpoch, epochStartedMs, dartMainSeen, dartStartupComplete, probeArmed),
            gate.View(), dog.View(), policy.View(), live.View())
    }

    /** The machines run under this window's configuration. */
    ghost predicate Wired() {
      && gate.config == config.gate && dog.config == config.dog
      && policy.config == config.policy && live.config == config.live
    }

    /** The window is where its run leads. */
    ghost predicate Valid()
      reads this, gate, dog, policy, live
    {
      Wired() && run.config == config && Ordered(run) && View() == StateAt(run, |run.events|)
    }

    /** The run so far, and one message more. */
    ghost function Extended(now: nat, message: Message): Run
      reads this
    {
      Run(run.config, run.openedMs, run.events + [Event(now, message)])
    }

    constructor (config: Config, now: nat)
      ensures Valid() && this.config == config && run == Run(config, now, [])
      ensures fresh(gate) && fresh(dog) && fresh(policy) && fresh(live)
    {
      this.config := config;
      gate := new Gate.Gate(config.gate);
      dog := new Dog.Watchdog(config.dog);
      policy := new Policy.Policy(config.policy);
      live := new Live.Liveness(config.live);
      controllerUp, engineEpoch, epochStartedMs := false, 0, 0;
      dartMainSeen, dartStartupComplete, probeArmed := false, false, false;
      run := Run(config, now, []);
      new;
      hide Opened;
      var created := OnCreate(now, true);
    }

    /** The first engine and, once it is up, the watchdog; a window whose engine does not start is not made. */
    method OnCreate(now: nat, starts: bool) returns (created: bool)
      requires Wired() && View() == NEW_WINDOW
      modifies this, gate, dog, policy, live
      ensures created == starts && run == old(run)
      ensures View() == if starts then Opened(config, now) else AfterCreate(NEW_WINDOW, now, false)
    {
      hide AfterCreate, AfterDispatch;
      created := CreateController(now, starts);
      if !created {
        return;
      }
      if !config.watchdogEnabled {
        NothingDispatched(config, View(), now);
        return;
      }
      ghost var effect := Dispatch(Started, now, false);
    }

    // --- The engine --------------------------------------------------------------------

    method UpdateWatchdogJudgeable(now: nat)
      requires Wired()
      modifies dog
      ensures View() == JudgeableUpdated(old(View()), now)
    {
      var judgeable := dartMainSeen && !gate.queued;
      dog.SetJudgeable(judgeable, now);
    }

    method CreateController(now: nat, starts: bool) returns (started: bool)
      requires Wired()
      modifies this, gate, dog, policy, live
      ensures View() == AfterCreate(old(View()), now, starts)
      ensures started == starts && run == old(run)
    {
      hide Dog.AfterSetJudgeable, Gate.AfterEngineCreated, Live.AfterEpochStarted, Policy.AfterEngineCreated;
      BeginEpoch(now);
      controllerUp := starts;
      if !controllerUp {
        return false;
      }
      probeArmed := true;
      policy.EngineCreated();
      return true;
    }

    /** What `CreateController` does before it knows whether the engine comes up. */
    method BeginEpoch(now: nat)
      requires Wired()
      modifies this`engineEpoch, this`epochStartedMs, this`dartStartupComplete, this`dartMainSeen, gate, dog, live
      ensures View() == BegunEpoch(old(View()), now)
    {
      hide Dog.AfterSetJudgeable, Gate.AfterEngineCreated, Live.AfterEpochStarted;
      engineEpoch := engineEpoch + 1;
      epochStartedMs := now;
      gate.EngineCreated(now);
      dartStartupComplete := false;
      dartMainSeen := false;
      UpdateWatchdogJudgeable(now);
      live.EpochStarted(engineEpoch, now);
    }

    method DestroyController()
      modifies this
      ensures View() == AfterDestroy(old(View())) && run == old(run)
    {
      probeArmed := false;
      controllerUp := false;
    }

    method PerformEngineRebuild(now: nat, starts: bool) returns (ghost ended: Option<Ended>)
      requires Wired()
      modifies this, gate, dog, policy, live
      ensures View() == AfterRebuild(old(View()), now, starts).0
      ensures ended == AfterRebuild(old(View()), now, starts).1
      ensures run == old(run)
    {
      if !controllerUp {
        return None;
      }
      ended := Some(Ended(engineEpoch, epochStartedMs, dartStartupComplete));
      DestroyController();
      var started := CreateController(now, starts);
      UpdateWatchdogJudgeable(now);
    }

    method RequestEngineRebuild(reason: string, now: nat, starts: bool) returns (ghost effect: Effect)
      requires Wired()
      modifies this, gate, dog, policy, live
      ensures View() == AfterRequest(config, old(View()), reason, now, starts).0
      ensures effect == AfterRequest(config, old(View()), reason, now, starts).1
      ensures run == old(run)
    {
      if !config.watchdogEnabled || !controllerUp {
        return QUIET;
      }
      var decision := gate.Request(reason, now);
      if decision.verdict != Gate.RebuildNow {
        UpdateWatchdogJudgeable(now);
        return Effect(None, Some(decision.verdict), None, false);
      }
      ghost var ended := PerformEngineRebuild(now, starts);
      effect := Effect(ended, Some(decision.verdict), None, false);
    }

    method PollRebuild(now: nat, starts: bool) returns (ghost ended: Option<Ended>, released: bool)
      requires Wired()
      modifies this, gate, dog, policy, live
      ensures View() == AfterPoll(config, old(View()), now, starts).0
      ensures ended == AfterPoll(config, old(View()), now, starts).1
      ensures released == AfterPoll(config, old(View()), now, starts).2
      ensures run == old(run)
    {
      var decision := gate.Poll(now);
      released := decision.verdict == Gate.RebuildNow;
      ended := None;
      if released {
        ended := PerformEngineRebuild(now, starts);
      }
    }

    method HandleSessionDecision(d: Policy.Decision, now: nat, starts: bool) returns (ghost effect: Effect)
      requires Wired()
      modifies this, gate, dog, policy, live
      ensures View() == AfterDecision(config, old(View()), d, now, starts).0
      ensures effect == AfterDecision(config, old(View()), d, now, starts).1
      ensures run == old(run)
    {
      effect := QUIET;
      if d.verdict == Policy.RebuildNow {
        effect := RequestEngineRebuild(d.reason, now, starts);
      }
    }

    // --- Driving the watchdog ----------------------------------------------------------

    method StartProbe()
      modifies this
      ensures View() == ProbeStarted(old(View())) && run == old(run)
    {
      if !controllerUp {
        return;
      }
      if !probeArmed {
        probeArmed := true;
      }
    }

    method ApplyAction(a: Dog.Action, now: nat, starts: bool) returns (ghost effect: Effect)
      requires Wired()
      modifies this, gate, dog, policy, live
      ensures View() == AfterAction(config, old(View()), a, now, starts).0
      ensures effect == AfterAction(config, old(View()), a, now, starts).1
      ensures run == old(run)
    {
      if a.exitProcess {
        DestroyController();
        return Effect(None, None, Some(a), true);
      }
      effect := QUIET;
      if a.restartEngine {
        effect := RequestEngineRebuild("gpu loss recovery", now, starts);
      }
      if a.startProbe {
        StartProbe();
      }
      effect := Effect(effect.ended, effect.answered, Some(a), false);
    }

    method Dispatch(e: DogEvent, now: nat, starts: bool) returns (ghost effect: Effect)
      requires Wired()
      modifies this, gate, dog, policy, live
      ensures View() == AfterDispatch(config, old(View()), e, now, starts).0
      ensures effect == AfterDispatch(config, old(View()), e, now, starts).1
      ensures run == old(run)
    {
      if !config.watchdogEnabled || dog.disabled {
        return QUIET;
      }
      var action;
      match e {
        case Started => action := dog.OnStarted();
        case Tick => action := dog.OnTick(now);
        case Frame => action := dog.OnFramePresented();
        case Hint => action := dog.OnDeviceLossHint();
        case Lost(cause) => action := dog.OnRendererLost(cause, now);
      }
      effect := ApplyAction(action, now, starts);
    }

    // --- The messages ------------------------------------------------------------------

    method OnWatchdogTick(now: nat, removed: bool, starts: bool) returns (ghost effect: Effect)
      requires Valid() && ClockAt(run, |run.events|) <= now
      modifies this, gate, dog, policy, live
      ensures Valid() && run == old(Extended(now, WatchdogTick(removed, starts)))
      ensures effect == Step(config, old(View()), Event(now, WatchdogTick(removed, starts))).1
    {
      hide AfterPoll, AfterDispatch, AfterRequest, OnTick, OnLossMessage, OnHint, OnPowerResume, OnSession, OnFrame;
      effect := Tick(now, removed, starts);
      RunExtends(run, Event(now, WatchdogTick(removed, starts)));
      run := Extended(now, WatchdogTick(removed, starts));
    }

    /** The tick branch of the message handler. */
    method Tick(now: nat, removed: bool, starts: bool) returns (ghost effect: Effect)
      requires Wired()
      modifies this, gate, dog, policy, live
      ensures View() == OnTick(config, old(View()), now, removed, starts).0
      ensures effect == OnTick(config, old(View()), now, removed, starts).1
      ensures run == old(run)
    {
      var expired := dog.ConsumeJudgementHoldExpired();
      ghost var ended;
      var released;
      ended, released := PollRebuild(now, starts);
      if released {
        return Effect(ended, None, None, false);
      }
      var session := policy.OnTick(now);
      if session.verdict == Policy.RebuildNow {
        effect := HandleSessionDecision(session, now, starts);
        return;
      }
      var silence := live.Evaluate(now);
      effect := Dispatch(if removed then Lost(Dog.ContextLost) else DogEvent.Tick, now, starts);
    }

    method OnEngineRebuildDue(now: nat, starts: bool) returns (ghost effect: Effect)
      requires Valid() && ClockAt(run, |run.events|) <= now
      modifies this, gate, dog, policy, live
      ensures Valid() && run == old(Extended(now, RebuildDue(starts)))
      ensures effect == Step(config, old(View()), Event(now, RebuildDue(starts))).1
    {
      hide AfterPoll, AfterDispatch, AfterRequest, OnTick, OnLossMessage, OnHint, OnPowerResume, OnSession, OnFrame;
      ghost var ended;
      var released;
      ended, released := PollRebuild(now, starts);
      effect := Effect(ended, None, None, false);
      RunExtends(run, Event(now, RebuildDue(starts)));
      run := Extended(now, RebuildDue(starts));
    }

    method OnRasterLoss(now: nat, starts: bool) returns (ghost effect: Effect)
      requires Valid() && ClockAt(run, |run.events|) <= now
      modifies this, gate, dog, policy, live
      ensures Valid() && run == old(Extended(now, RasterLoss(starts)))
      ensures effect == Step(config, old(View()), Event(now, RasterLoss(starts))).1
    {
      hide AfterPoll, AfterDispatch, AfterRequest, OnTick, OnHint, OnPowerResume, OnSession, OnFrame;
      effect := QUIET;
      if config.watchdogEnabled && controllerUp {
        effect := Dispatch(Lost(Dog.RasterFailed), now, starts);
      }
      RunExtends(run, Event(now, RasterLoss(starts)));
      run := Extended(now, RasterLoss(starts));
    }

    method OnEglStorm(now: nat, starts: bool) returns (ghost effect: Effect)
      requires Valid() && ClockAt(run, |run.events|) <= now
      modifies this, gate, dog, policy, live
      ensures Valid() && run == old(Extended(now, EglStorm(starts)))
      ensures effect == Step(config, old(View()), Event(now, EglStorm(starts))).1
    {
      hide AfterPoll, AfterDispatch, AfterRequest, OnTick, OnHint, OnPowerResume, OnSession, OnFrame;
      effect := QUIET;
      if config.watchdogEnabled && controllerUp {
        effect := Dispatch(Lost(Dog.ContextLost), now, starts);
      }
      RunExtends(run, Event(now, EglStorm(starts)));
      run := Extended(now, EglStorm(starts));
    }

    method OnPowerBroadcast(now: nat, starts: bool) returns (ghost effect: Effect)
      requires Valid() && ClockAt(run, |run.events|) <= now
      modifies this, gate, dog, policy, live
      ensures Valid() && run == old(Extended(now, PowerResume(starts)))
      ensures effect == Step(config, old(View()), Event(now, PowerResume(starts))).1
    {
      hide AfterPoll, AfterDispatch, AfterRequest, OnTick, OnLossMessage, OnSession, OnFrame;
      effect := QUIET;
      if config.watchdogEnabled && controllerUp {
        ghost var hinted := Dispatch(Hint, now, false);
        effect := RequestEngineRebuild("power resume", now, starts);
      }
      RunExtends(run, Event(now, PowerResume(starts)));
      run := Extended(now, PowerResume(starts));
    }

    method OnDisplayChange(now: nat) returns (ghost effect: Effect)
      requires Valid() && ClockAt(run, |run.events|) <= now
      modifies this, gate, dog, policy, live
      ensures Valid() && run == old(Extended(now, DisplayChange))
      ensures effect == Step(config, old(View()), Event(now, DisplayChange)).1
    {
      hide AfterPoll, AfterDispatch, AfterRequest, OnTick, OnLossMessage, OnPowerResume, OnSession, OnFrame;
      effect := QUIET;
      if config.watchdogEnabled && controllerUp {
        ghost var hinted := Dispatch(Hint, now, false);
      }
      RunExtends(run, Event(now, DisplayChange));
      run := Extended(now, DisplayChange);
    }

    method OnSessionChange(now: nat, change: SessionChange, starts: bool) returns (ghost effect: Effect)
      requires Valid() && ClockAt(run, |run.events|) <= now
      modifies this, gate, dog, policy, live
      ensures Valid() && run == old(Extended(now, Session(change, starts)))
      ensures effect == Step(config, old(View()), Event(now, Session(change, starts))).1
    {
      hide AfterPoll, AfterDispatch, AfterRequest, OnTick, OnLossMessage, OnHint, OnPowerResume, OnSession, OnFrame;
      effect := SessionBranch(change, now, starts);
      RunExtends(run, Event(now, Session(change, starts)));
      run := Extended(now, Session(change, starts));
    }

    method SessionBranch(change: SessionChange, now: nat, starts: bool) returns (ghost effect: Effect)
      requires Wired()
      modifies this, gate, dog, policy, live
      ensures View() == OnSession(config, old(View()), change, now, starts).0
      ensures effect == OnSession(config, old(View()), change, now, starts).1
      ensures run == old(run)
    {
      effect := QUIET;
      if config.watchdogEnabled && controllerUp {
        ghost var hinted := Dispatch(Hint, now, false);
        if change.RemoteConnect? {
          var adapter := Policy.ClassifyAdapterCheck(change.engineAdapter, change.sessionAdapter);
          var decision := policy.OnRemoteConnect(now, adapter);
          effect := HandleSessionDecision(decision, now, starts);
        } else if change.RemoteDisconnect? {
          var decision := policy.OnRemoteDisconnect();
          effect := HandleSessionDecision(decision, now, starts);
        }
      }
    }

    method OnFramePresented(now: nat) returns (ghost effect: Effect)
      requires Valid() && ClockAt(run, |run.events|) <= now
      modifies this, gate, dog, policy, live
      ensures Valid() && run == old(Extended(now, FramePresented))
      ensures effect == Step(config, old(View()), Event(now, FramePresented)).1
    {
      hide AfterPoll, AfterDispatch, AfterRequest, OnTick, OnLossMessage, OnHint, OnPowerResume, OnSession, OnFrame;
      effect := FrameCallback(now);
      RunExtends(run, Event(now, FramePresented));
      run := Extended(now, FramePresented);
    }

    method FrameCallback(now: nat) returns (ghost effect: Effect)
      requires Wired()
      modifies this, gate, dog, policy, live
      ensures View() == OnFrame(config, old(View()), now).0
      ensures effect == OnFrame(config, old(View()), now).1
      ensures run == old(run)
    {
      probeArmed := false;
      effect := Dispatch(DogEvent.Frame, now, false);
      var session := policy.OnFramePresented(now);
      ghost var kept := HandleSessionDecision(session, now, false);
    }

    // --- The runner channel --------------------------------------------------------------

    method OnMainStarting(now: nat, epoch: int) returns (ghost effect: Effect)
      requires Valid() && ClockAt(run, |run.events|) <= now
      modifies this, gate, dog, policy, live
      ensures Valid() && run == old(Extended(now, MainStarting(epoch)))
      ensures effect == Step(config, old(View()), Event(now, MainStarting(epoch))).1
    {
      hide AfterPoll, AfterDispatch, AfterRequest, OnTick, OnLossMessage, OnHint, OnPowerResume, OnSession, OnFrame;
      effect := QUIET;
      dartMainSeen := true;
      UpdateWatchdogJudgeable(now);
      RunExtends(run, Event(now, MainStarting(epoch)));
      run := Extended(now, MainStarting(epoch));
    }

    method OnStartupComplete(now: nat, epoch: int) returns (ghost effect: Effect)
      requires Valid() && ClockAt(run, |run.events|) <= now
      modifies this, gate, dog, policy, live
      ensures Valid() && run == old(Extended(now, StartupDone(epoch)))
      ensures effect == Step(config, old(View()), Event(now, StartupDone(epoch))).1
    {
      hide AfterPoll, AfterDispatch, AfterRequest, OnTick, OnLossMessage, OnHint, OnPowerResume, OnSession, OnFrame;
      effect := QUIET;
      if epoch == engineEpoch {
        dartStartupComplete := true;
        gate.StartupComplete(now);
      }
      RunExtends(run, Event(now, StartupDone(epoch)));
      run := Extended(now, StartupDone(epoch));
    }

    method OnLiveness(now: nat, stamp: Live.Stamp) returns (ghost effect: Effect)
      requires Valid() && ClockAt(run, |run.events|) <= now
      modifies this, gate, dog, policy, live
      ensures Valid() && run == old(Extended(now, Stamped(stamp)))
      ensures effect == Step(config, old(View()), Event(now, Stamped(stamp))).1
    {
      hide AfterPoll, AfterDispatch, AfterRequest, OnTick, OnLossMessage, OnHint, OnPowerResume, OnSession, OnFrame;
      effect := QUIET;
      var decision := live.OnStamp(stamp, now);
      RunExtends(run, Event(now, Stamped(stamp)));
      run := Extended(now, Stamped(stamp));
    }

    method DisableWatchdog(now: nat) returns (ghost effect: Effect)
      requires Valid() && ClockAt(run, |run.events|) <= now
      modifies this, gate, dog, policy, live
      ensures Valid() && run == old(Extended(now, Disarm))
      ensures effect == Step(config, old(View()), Event(now, Disarm)).1
    {
      hide AfterPoll, AfterDispatch, AfterRequest, OnTick, OnLossMessage, OnHint, OnPowerResume, OnSession, OnFrame;
      effect := QUIET;
      dog.Disable();
      RunExtends(run, Event(now, Disarm));
      run := Extended(now, Disarm);
    }

    method OnDestroy(now: nat) returns (ghost effect: Effect)
      requires Valid() && ClockAt(run, |run.events|) <= now
      modifies this, gate, dog, policy, live
      ensures Valid() && run == old(Extended(now, Close))
      ensures effect == Step(config, old(View()), Event(now, Close)).1
    {
      hide AfterPoll, AfterDispatch, AfterRequest, OnTick, OnLossMessage, OnHint, OnPowerResume, OnSession, OnFrame;
      effect := QUIET;
      DestroyController();
      RunExtends(run, Event(now, Close));
      run := Extended(now, Close);
    }
  }
}
