// Is the renderer dead, and what should the host do about it
// (centroid-hmi/windows/runner/gpu_watchdog.cpp).

module GpuWatchdog {
  import opened Prelude

  datatype LossAction = RestartEngine | ExitProcess | LogOnly
  datatype LossCause = NoFramesPresented | ContextLost | RasterFailed
  datatype Escalation = NoEscalation | RepeatedLosses | RecoveryExhausted

  // Milliseconds held in an `unsigned int`.
  const WORD := 0x1_0000_0000
  type Word = x: int | 0 <= x < WORD

  datatype Config = Config(
    probeIntervalMs: Word,
    missedProbesBeforeRecovery: int,
    maxProbeIntervalMs: Word,
    onLoss: LossAction,
    maxRecoveryAttempts: int,
    lossWindowMs: nat,
    maxLossesInWindow: int,
    maxJudgementHoldMs: nat)

  const DEFAULTS := Config(5000, 2, 60000, RestartEngine, 5, 600000, 3, 240000)

  datatype Action = Action(
    startProbe: bool,
    reportLoss: bool,
    exitProcess: bool,
    restartEngine: bool,
    setTimerMs: Word,
    cause: LossCause,
    escalation: Escalation)

  const NO_ACTION := Action(false, false, false, false, 0, NoFramesPresented, NoEscalation)
  const PROBE := Action(true, false, false, false, 0, NoFramesPresented, NoEscalation)

  /** The loop guard's counting window: whether and when it opened, and the episodes in it. */
  datatype Guard = Guard(open: bool, startMs: nat, losses: nat)

  /** The judgement hold: whether and since when it is on, and whether its end is still to be announced. */
  datatype Hold = Hold(on: bool, sinceMs: nat, expired: bool)

  const RELEASED := Hold(false, 0, false)

  datatype State = State(
    disabled: bool,
    probeOutstanding: bool,
    reportedLoss: bool,
    missedProbes: nat,
    recoveryAttempts: nat,
    guard: Guard,
    hold: Hold)

  const FRESH := State(false, false, false, 0, 0, Guard(false, 0, 0), RELEASED)

  // --- Backoff --------------------------------------------------------------

  /** The period after `doublings` doublings of `period`, capped, in 32-bit arithmetic. */
  function Doubled(c: Config, period: Word, doublings: nat): Word
    decreases doublings
  {
    if doublings == 0 || period >= c.maxProbeIntervalMs then period
    else Doubled(c, (period * 2) % WORD, doublings - 1)
  }

  function Backoff(c: Config, attempts: nat): Word {
    var period := Doubled(c, c.probeIntervalMs, if attempts == 0 then 0 else attempts - 1);
    if period > c.maxProbeIntervalMs then c.maxProbeIntervalMs else period
  }

  // --- What each call does to the state ---------------------------------------

  predicate Held(c: Config, h: Hold, now: nat) {
    h.on && (c.maxJudgementHoldMs == 0 || Elapsed(h.sinceMs, now) < c.maxJudgementHoldMs)
  }

  function Outstanding(s: State): State {
    State(s.disabled, true, s.reportedLoss, s.missedProbes, s.recoveryAttempts, s.guard, s.hold)
  }

  function WithHold(s: State, hold: Hold): State {
    State(s.disabled, s.probeOutstanding, s.reportedLoss, s.missedProbes, s.recoveryAttempts, s.guard, hold)
  }

  function AfterSetJudgeable(s: State, judgeable: bool, now: nat): State {
    if judgeable then WithHold(s, RELEASED)
    else if s.hold.on then s
    else WithHold(s, Hold(true, now, false))
  }

  function AfterConsumeExpired(s: State): (State, bool) {
    if s.hold.expired then (WithHold(s, RELEASED), true) else (s, false)
  }

  function AfterStarted(c: Config, s: State): (State, Action) {
    if s.disabled then (s, NO_ACTION)
    else (Outstanding(s), Action(true, false, false, false, c.probeIntervalMs, NoFramesPresented, NoEscalation))
  }

  /** The guard window after one more loss episode. */
  function Counted(c: Config, g: Guard, now: nat): Guard {
    if !g.open || (c.lossWindowMs != 0 && now - g.startMs > c.lossWindowMs) then Guard(true, now, 1)
    else Guard(true, g.startMs, g.losses + 1)
  }

  predicate Thrashing(c: Config, g: Guard) {
    c.maxLossesInWindow > 0 && g.losses > c.maxLossesInWindow
  }

  predicate Exhausted(c: Config, attempts: nat) {
    c.maxRecoveryAttempts > 0 && attempts >= c.maxRecoveryAttempts
  }

  /** How a declared loss is answered: in place, in the log only, or by ending the process. */
  datatype Answer = Restart | Log | Exit(why: Escalation)

  function AnswerTo(c: Config, g: Guard, attempts: nat): Answer {
    match c.onLoss
    case ExitProcess => Exit(NoEscalation)
    case LogOnly => Log
    case RestartEngine =>
      if Thrashing(c, g) then Exit(RepeatedLosses)
      else if Exhausted(c, attempts) then Exit(RecoveryExhausted)
      else Restart
  }

  function AfterLoss(c: Config, s: State, cause: LossCause, now: nat): (State, Action) {
    var guard := if s.reportedLoss then s.guard else Counted(c, s.guard, now);
    match AnswerTo(c, guard, s.recoveryAttempts)
    case Exit(why) =>
      (State(true, s.probeOutstanding, true, s.missedProbes, s.recoveryAttempts, guard, s.hold),
       Action(false, !s.reportedLoss, true, false, 0, cause, why))
    case Log =>
      (State(s.disabled, true, true, s.missedProbes, s.recoveryAttempts, guard, s.hold),
       Action(true, !s.reportedLoss, false, false, 0, cause, NoEscalation))
    case Restart =>
      (State(s.disabled, true, true, 0, s.recoveryAttempts + 1, guard, s.hold),
       Action(false, !s.reportedLoss, false, true, Backoff(c, s.recoveryAttempts + 1), cause, NoEscalation))
  }

  /** A tick outside any hold: the hold's end is latched and an unanswered probe is a miss. */
  function Judged(s: State): State {
    State(s.disabled, s.probeOutstanding, s.reportedLoss,
          if s.probeOutstanding then s.missedProbes + 1 else s.missedProbes,
          s.recoveryAttempts, s.guard, Hold(s.hold.on, s.hold.sinceMs, s.hold.expired || s.hold.on))
  }

  function AfterTick(c: Config, s: State, now: nat): (State, Action) {
    if s.disabled then (s, NO_ACTION)
    else if Held(c, s.hold, now) then (Outstanding(s), PROBE)
    else if s.probeOutstanding && s.missedProbes + 1 >= c.missedProbesBeforeRecovery then
      AfterLoss(c, Judged(s), NoFramesPresented, now)
    else
      (Outstanding(Judged(s)), PROBE)
  }

  function AfterRendererLost(c: Config, s: State, cause: LossCause, now: nat): (State, Action) {
    if s.disabled then (s, NO_ACTION) else AfterLoss(c, s, cause, now)
  }

  function AfterFrame(c: Config, s: State): (State, Action) {
    if s.disabled then (s, NO_ACTION)
    else
      (State(false, false, false, 0, 0, s.guard, RELEASED),
       Action(false, false, false, false, if s.recoveryAttempts > 0 then c.probeIntervalMs else 0,
              NoFramesPresented, NoEscalation))
  }

  function AfterHint(s: State): (State, Action) {
    if s.disabled then (s, NO_ACTION) else (Outstanding(s), PROBE)
  }

  function AfterDisable(s: State): State {
    State(true, false, s.reportedLoss, s.missedProbes, s.recoveryAttempts, s.guard, s.hold)
  }

  // --- The machine --------------------------------------------------------------

  class Watchdog {
    const config: Config
    var disabled: bool
    var probeOutstanding: bool
    var reportedLoss: bool
    var missedProbes: nat
    var recoveryAttempts: nat
    var lossWindowStartMs: nat
    var lossesInWindow: nat
    var windowOpen: bool
    var holding: bool
    var holdSinceMs: nat
    var holdExpired: bool

    function View(): State
      reads this
    {
      State(disabled, probeOutstanding, reportedLoss, missedProbes, recoveryAttempts,
            Guard(windowOpen, lossWindowStartMs, lossesInWindow),
            Hold(holding, holdSinceMs, holdExpired))
    }

    constructor (config: Config)
      ensures this.config == config
      ensures View() == FRESH
    {
      this.config := config;
      disabled, probeOutstanding, reportedLoss := false, false, false;
      missedProbes, recoveryAttempts := 0, 0;
      lossWindowStartMs, lossesInWindow, windowOpen := 0, 0, false;
      holding, holdSinceMs, holdExpired := false, 0, false;
    }

    method OnStarted() returns (action: Action)
      modifies this
      ensures View() == AfterStarted(config, old(View())).0
      ensures action == AfterStarted(config, old(View())).1
    {
      if disabled {
        return NO_ACTION;
      }
      probeOutstanding := true;
      action := PROBE.(setTimerMs := config.probeIntervalMs);
    }

    method SetJudgeable(judgeable: bool, now: nat)
      modifies this
      ensures View() == AfterSetJudgeable(old(View()), judgeable, now)
    {
      if judgeable {
        holding, holdSinceMs, holdExpired := false, 0, false;
        return;
      }
      if holding {
        return;
      }
      holding, holdSinceMs, holdExpired := true, now, false;
    }

    method ConsumeJudgementHoldExpired() returns (announced: bool)
      modifies this
      ensures View() == AfterConsumeExpired(old(View())).0
      ensures announced == AfterConsumeExpired(old(View())).1
    {
      if !holdExpired {
        return false;
      }
      holdExpired := false;
      holding := false;
      holdSinceMs := 0;
      return true;
    }

    method OnTick(now: nat) returns (action: Action)
      modifies this
      ensures View() == AfterTick(config, old(View()), now).0
      ensures action == AfterTick(config, old(View()), now).1
    {
      if disabled {
        return NO_ACTION;
      }
      if Held(config, Hold(holding, holdSinceMs, holdExpired), now) {
        probeOutstanding := true;
        return PROBE;
      }
      if holding && !holdExpired {
        holdExpired := true;
      }
      if probeOutstanding {
        missedProbes := missedProbes + 1;
        if missedProbes >= config.missedProbesBeforeRecovery {
          action := DeclareLoss(NoFramesPresented, now);
          return;
        }
      }
      probeOutstanding := true;
      action := PROBE;
    }

    method OnRendererLost(cause: LossCause, now: nat) returns (action: Action)
      modifies this
      ensures View() == AfterRendererLost(config, old(View()), cause, now).0
      ensures action == AfterRendererLost(config, old(View()), cause, now).1
    {
      if disabled {
        return NO_ACTION;
      }
      action := DeclareLoss(cause, now);
    }

    /** The loop-guard half of `DeclareLoss`. */
    method CountEpisode(now: nat)
      modifies this`windowOpen, this`lossWindowStartMs, this`lossesInWindow
      ensures View().guard == Counted(config, old(View()).guard, now)
    {
      if !windowOpen || (config.lossWindowMs != 0 && now - lossWindowStartMs > config.lossWindowMs) {
        windowOpen := true;
        lossWindowStartMs := now;
        lossesInWindow := 1;
      } else {
        lossesInWindow := lossesInWindow + 1;
      }
    }

    method DeclareLoss(cause: LossCause, now: nat) returns (action: Action)
      modifies this
      ensures View() == AfterLoss(config, old(View()), cause, now).0
      ensures action == AfterLoss(config, old(View()), cause, now).1
    {
      hide Backoff, Counted;
      var newEpisode := !reportedLoss;
      if newEpisode {
        reportedLoss := true;
        CountEpisode(now);
      }
      var thrashing := config.maxLossesInWindow > 0 && lossesInWindow > config.maxLossesInWindow;
      var exhausted := config.maxRecoveryAttempts > 0 && recoveryAttempts >= config.maxRecoveryAttempts;
      if config.onLoss == RestartEngine && (thrashing || exhausted) {
        disabled := true;
        return Action(false, newEpisode, true, false, 0, cause,
                      if thrashing then RepeatedLosses else RecoveryExhausted);
      }
      if config.onLoss == ExitProcess {
        disabled := true;
        return Action(false, newEpisode, true, false, 0, cause, NoEscalation);
      }
      if config.onLoss == LogOnly {
        probeOutstanding := true;
        return Action(true, newEpisode, false, false, 0, cause, NoEscalation);
      }
      recoveryAttempts := recoveryAttempts + 1;
      missedProbes := 0;
      probeOutstanding := true;
      var backoff := BackoffMs();
      action := Action(false, newEpisode, false, true, backoff, cause, NoEscalation);
    }

    method OnFramePresented() returns (action: Action)
      modifies this
      ensures View() == AfterFrame(config, old(View())).0
      ensures action == AfterFrame(config, old(View())).1
    {
      if disabled {
        return NO_ACTION;
      }
      action := NO_ACTION;
      probeOutstanding := false;
      missedProbes := 0;
      reportedLoss := false;
      holding, holdSinceMs, holdExpired := false, 0, false;
      if recoveryAttempts > 0 {
        recoveryAttempts := 0;
        action := action.(setTimerMs := config.probeIntervalMs);
      }
    }

    method OnDeviceLossHint() returns (action: Action)
      modifies this
      ensures View() == AfterHint(old(View())).0
      ensures action == AfterHint(old(View())).1
    {
      if disabled {
        return NO_ACTION;
      }
      probeOutstanding := true;
      action := PROBE;
    }

    method Disable()
      modifies this
      ensures View() == AfterDisable(old(View()))
    {
      disabled := true;
      probeOutstanding := false;
    }

    method BackoffMs() returns (backoff: Word)
      ensures backoff == Backoff(config, recoveryAttempts)
    {
      backoff := config.probeIntervalMs;
      var i := 1;
      while i < recoveryAttempts
        invariant 1 <= i
        invariant recoveryAttempts > 0 ==> i <= recoveryAttempts
        invariant Doubled(config, backoff, if recoveryAttempts == 0 then 0 else recoveryAttempts - i)
               == Doubled(config, config.probeIntervalMs, if recoveryAttempts == 0 then 0 else recoveryAttempts - 1)
      {
        if backoff >= config.maxProbeIntervalMs {
          break;
        }
        backoff := (backoff * 2) % WORD;
        i := i + 1;
      }
      if backoff > config.maxProbeIntervalMs {
        backoff := config.maxProbeIntervalMs;
      }
    }
  }
}
