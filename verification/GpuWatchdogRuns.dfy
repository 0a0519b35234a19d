// What the GPU watchdog keeps over every run, under a clock that never goes
// back.

module GpuWatchdogRuns {
  import opened Prelude
  import opened GpuWatchdog

  datatype Event =
    | Started(now: nat)
    | Tick(now: nat)
    | Frame(now: nat)
    | Hint(now: nat)
    | Lost(now: nat, cause: LossCause)
    | Judgeable(now: nat, judgeable: bool)
    | Consume(now: nat)
    | Disarm(now: nat)

  ghost predicate Ordered(ev: seq<Event>) {
    forall i, j :: 0 <= i < j < |ev| ==> ev[i].now <= ev[j].now
  }

  datatype Output = Output(state: State, action: Action, announced: bool)

  function Step(c: Config, s: State, e: Event): Output {
    match e
    case Started(_) => var (t, a) := AfterStarted(c, s); Output(t, a, false)
    case Tick(now) => var (t, a) := AfterTick(c, s, now); Output(t, a, false)
    case Frame(_) => var (t, a) := AfterFrame(c, s); Output(t, a, false)
    case Hint(_) => var (t, a) := AfterHint(s); Output(t, a, false)
    case Lost(now, cause) => var (t, a) := AfterRendererLost(c, s, cause, now); Output(t, a, false)
    case Judgeable(now, judgeable) => Output(AfterSetJudgeable(s, judgeable, now), NO_ACTION, false)
    case Consume(_) => var (t, b) := AfterConsumeExpired(s); Output(t, NO_ACTION, b)
    case Disarm(_) => Output(AfterDisable(s), NO_ACTION, false)
  }

  function StateAt(c: Config, ev: seq<Event>, n: nat): State
    requires n <= |ev|
  {
    if n == 0 then FRESH else Step(c, StateAt(c, ev, n - 1), ev[n - 1]).state
  }

  function Out(c: Config, ev: seq<Event>, i: nat): Output
    requires i < |ev|
  {
    Step(c, StateAt(c, ev, i), ev[i])
  }

  // --- One step ----------------------------------------------------------------

  lemma StepKeepsReported(c: Config, s: State, e: Event)
    ensures s.disabled ==> Step(c, s, e).state.disabled
    ensures s.reportedLoss && !e.Frame? ==> Step(c, s, e).state.reportedLoss
    ensures Step(c, s, e).action.reportLoss ==> !s.reportedLoss && Step(c, s, e).state.reportedLoss && !e.Frame?
  {
    match e
    case Tick(_) =>
    case _ =>
  }

  lemma StepCountsAttempts(c: Config, s: State, e: Event)
    ensures var t := Step(c, s, e);
      && (t.action.restartEngine ==> !s.disabled && !e.Frame? && !Exhausted(c, s.recoveryAttempts))
      && t.state.recoveryAttempts == if t.action.restartEngine then s.recoveryAttempts + 1
                                     else if e.Frame? && !s.disabled then 0
                                     else s.recoveryAttempts
  {
    match e
    case Tick(_) =>
    case _ =>
  }

  /** What a step does to the hold. */
  function HoldAfter(c: Config, s: State, e: Event): Hold {
    match e
    case Tick(now) =>
      if s.disabled || Held(c, s.hold, now) then s.hold
      else Hold(s.hold.on, s.hold.sinceMs, s.hold.expired || s.hold.on)
    case Frame(_) => if s.disabled then s.hold else RELEASED
    case Judgeable(now, judgeable) =>
      if judgeable then RELEASED else if s.hold.on then s.hold else Hold(true, now, false)
    case Consume(_) => if s.hold.expired then RELEASED else s.hold
    case _ => s.hold
  }

  lemma StepMovesHold(c: Config, s: State, e: Event)
    ensures Step(c, s, e).state.hold == HoldAfter(c, s, e)
  {
    match e
    case Tick(_) =>
    case _ =>
  }

  // --- Exit, reports and the restart bound ------------------------------------

  lemma {:induction false} DisabledForGood(c: Config, ev: seq<Event>, i: nat, n: nat)
    requires i <= n <= |ev| && StateAt(c, ev, i).disabled
    ensures StateAt(c, ev, n).disabled
  {
    if n > i {
      DisabledForGood(c, ev, i, n - 1);
    }
  }

  /** A run asks to exit at most once, and every action after it is empty. */
  lemma ExitIsFinal(c: Config, ev: seq<Event>, i: nat, j: nat)
    requires i < j < |ev| && Out(c, ev, i).action.exitProcess
    ensures Out(c, ev, j).action == NO_ACTION
  {
    DisabledForGood(c, ev, i + 1, j);
  }

  lemma {:induction false} StillReported(c: Config, ev: seq<Event>, i: nat, n: nat)
    requires i < n <= |ev| && Out(c, ev, i).action.reportLoss
    requires forall k :: i < k < n ==> !ev[k].Frame?
    ensures StateAt(c, ev, n).reportedLoss
  {
    hide Step;
    StepKeepsReported(c, StateAt(c, ev, n - 1), ev[n - 1]);
    if n > i + 1 {
      StillReported(c, ev, i, n - 1);
    }
  }

  /** Between any two loss reports a frame was presented. */
  lemma ReportsAreSeparatedByFrames(c: Config, ev: seq<Event>, i: nat, j: nat)
    requires i < j < |ev|
    requires Out(c, ev, i).action.reportLoss && Out(c, ev, j).action.reportLoss
    ensures exists k :: i < k < j && ev[k].Frame?
  {
    hide Step;
    StepKeepsReported(c, StateAt(c, ev, j), ev[j]);
    if forall k :: i < k < j ==> !ev[k].Frame? {
      StillReported(c, ev, i, j);
    }
  }

  /** Engine restarts asked for since the last presented frame. */
  function RestartsSinceFrame(c: Config, ev: seq<Event>, n: nat): nat
    requires n <= |ev|
  {
    if n == 0 || ev[n - 1].Frame? then 0
    else RestartsSinceFrame(c, ev, n - 1) + if Out(c, ev, n - 1).action.restartEngine then 1 else 0
  }

  /**
   * Until it gives up, the watchdog's attempt count is the number of restarts
   * since the last frame; it never passes a positive limit.
   */
  lemma {:induction false} AttemptsCountRestarts(c: Config, ev: seq<Event>, n: nat)
    requires n <= |ev|
    ensures !StateAt(c, ev, n).disabled ==> StateAt(c, ev, n).recoveryAttempts == RestartsSinceFrame(c, ev, n)
    ensures c.maxRecoveryAttempts > 0 ==>
              && StateAt(c, ev, n).recoveryAttempts <= c.maxRecoveryAttempts
              && RestartsSinceFrame(c, ev, n) <= c.maxRecoveryAttempts
  {
    hide Step;
    if n > 0 {
      AttemptsCountRestarts(c, ev, n - 1);
      StepCountsAttempts(c, StateAt(c, ev, n - 1), ev[n - 1]);
      StepKeepsReported(c, StateAt(c, ev, n - 1), ev[n - 1]);
    }
  }

  /** Event `e` makes the watchdog in state `s` declare a loss. */
  predicate Declares(c: Config, s: State, e: Event) {
    && !s.disabled
    && (e.Lost? || (&& e.Tick? && !Held(c, s.hold, e.now) && s.probeOutstanding
                    && s.missedProbes + 1 >= c.missedProbesBeforeRecovery))
  }

  /** The loss declared after the last allowed restart ends the process. */
  lemma ExhaustionExits(c: Config, ev: seq<Event>, i: nat)
    requires i < |ev| && c.onLoss == RestartEngine && c.maxRecoveryAttempts > 0
    requires Declares(c, StateAt(c, ev, i), ev[i])
    requires RestartsSinceFrame(c, ev, i) == c.maxRecoveryAttempts
    ensures Out(c, ev, i).action.exitProcess && !Out(c, ev, i).action.restartEngine
  {
    AttemptsCountRestarts(c, ev, i);
  }

  // --- The loop guard ----------------------------------------------------------

  /** A new loss episode that event `i` answers by restarting the engine in place. */
  predicate AnsweredInPlace(c: Config, ev: seq<Event>, i: nat)
    requires i < |ev|
  {
    Out(c, ev, i).action.reportLoss && Out(c, ev, i).action.restartEngine
  }

  /** Episodes answered in place among the events `i` to `j`, `j` excluded. */
  function EpisodesInPlace(c: Config, ev: seq<Event>, i: nat, j: nat): nat
    requires i <= j <= |ev|
    decreases j
  {
    if i == j then 0
    else EpisodesInPlace(c, ev, i, j - 1) + if AnsweredInPlace(c, ev, j - 1) then 1 else 0
  }

  ghost predicate WindowInv(c: Config, s: State, now: nat) {
    && s.guard.startMs <= now
    && (s.guard.open <==> s.guard.losses > 0)
    && (!s.disabled && c.onLoss == RestartEngine && c.maxLossesInWindow > 0 ==>
          s.guard.losses <= c.maxLossesInWindow)
  }

  lemma StepKeepsWindow(c: Config, s: State, e: Event)
    requires WindowInv(c, s, e.now)
    ensures WindowInv(c, Step(c, s, e).state, e.now)
  {
    match e
    case Tick(_) =>
    case _ =>
  }

  lemma {:induction false} WindowReachable(c: Config, ev: seq<Event>, n: nat, now: nat)
    requires Ordered(ev) && n <= |ev|
    requires n > 0 ==> ev[n - 1].now <= now
    ensures WindowInv(c, StateAt(c, ev, n), now)
  {
    if n > 0 {
      hide Step;
      WindowReachable(c, ev, n - 1, ev[n - 1].now);
      StepKeepsWindow(c, StateAt(c, ev, n - 1), ev[n - 1]);
    }
  }

  /**
   * How many episodes can still be answered in place inside the span of one
   * window length that begins at `t0`: what is left of a window opened in the
   * span, or what is left of an older one plus one whole further window.
   */
  function Allowance(c: Config, s: State, t0: nat): int {
    var max := c.maxLossesInWindow;
    if s.disabled then 0
    else if !s.guard.open then max
    else if s.guard.startMs >= t0 then max - s.guard.losses
    else 2 * max - s.guard.losses
  }

  /** A step spends its episodes out of the allowance. */
  lemma StepSpendsAllowance(c: Config, s: State, e: Event, t0: nat)
    requires c.onLoss == RestartEngine && c.maxLossesInWindow > 0 && c.lossWindowMs > 0
    requires t0 <= e.now <= t0 + c.lossWindowMs
    requires WindowInv(c, s, e.now)
    ensures var t := Step(c, s, e);
      && Allowance(c, t.state, t0) >= 0
      && Allowance(c, t.state, t0) + (if t.action.reportLoss && t.action.restartEngine then 1 else 0)
         <= Allowance(c, s, t0)
  {
    match e
    case Tick(_) =>
    case _ =>
  }

  lemma {:induction false} EpisodesSpendAllowance(c: Config, ev: seq<Event>, i: nat, j: nat)
    requires Ordered(ev) && i < j <= |ev|
    requires c.onLoss == RestartEngine && c.maxLossesInWindow > 0 && c.lossWindowMs > 0
    requires ev[j - 1].now - ev[i].now <= c.lossWindowMs
    ensures EpisodesInPlace(c, ev, i, j) + Allowance(c, StateAt(c, ev, j), ev[i].now)
         <= Allowance(c, StateAt(c, ev, i), ev[i].now)
    ensures Allowance(c, StateAt(c, ev, j), ev[i].now) >= 0
  {
    WindowReachable(c, ev, j - 1, ev[j - 1].now);
    StepSpendsAllowance(c, StateAt(c, ev, j - 1), ev[j - 1], ev[i].now);
    if i < j - 1 {
      EpisodesSpendAllowance(c, ev, i, j - 1);
    } else {
      assert EpisodesInPlace(c, ev, i, j - 1) == 0;
    }
  }

  /**
   * The loop guard is a tumbling counter, and still bounds every sliding span:
   * events lying within one window length hold at most 2 * max - 1 episodes
   * answered in place -- one fewer than two full windows, because a window
   * always opens on an episode.
   */
  lemma SlidingLossBound(c: Config, ev: seq<Event>, i: nat, j: nat)
    requires Ordered(ev) && i < j <= |ev|
    requires c.onLoss == RestartEngine && c.maxLossesInWindow > 0 && c.lossWindowMs > 0
    requires ev[j - 1].now - ev[i].now <= c.lossWindowMs
    ensures EpisodesInPlace(c, ev, i, j) <= 2 * c.maxLossesInWindow - 1
  {
    EpisodesSpendAllowance(c, ev, i, j);
    WindowReachable(c, ev, i, ev[i].now);
  }

  lemma StepCountsEpisode(c: Config, s: State, e: Event)
    requires c.onLoss == RestartEngine && c.maxLossesInWindow > 0 && c.lossWindowMs == 0
    requires s.guard.open <==> s.guard.losses > 0
    ensures var t := Step(c, s, e);
      && (t.state.guard.open <==> t.state.guard.losses > 0)
      && t.state.guard.losses == s.guard.losses + (if t.action.reportLoss then 1 else 0)
      && (t.action.restartEngine ==> t.state.guard.losses <= c.maxLossesInWindow)
  {
    match e
    case Tick(_) =>
    case _ =>
  }

  /** With a window that never closes, the bound is on the whole run. */
  lemma {:induction false} UnwindowedLossBound(c: Config, ev: seq<Event>, n: nat)
    requires n <= |ev|
    requires c.onLoss == RestartEngine && c.maxLossesInWindow > 0 && c.lossWindowMs == 0
    ensures EpisodesInPlace(c, ev, 0, n) <= StateAt(c, ev, n).guard.losses
    ensures EpisodesInPlace(c, ev, 0, n) <= c.maxLossesInWindow
    ensures StateAt(c, ev, n).guard.open <==> StateAt(c, ev, n).guard.losses > 0
  {
    if n > 0 {
      UnwindowedLossBound(c, ev, n - 1);
      StepCountsEpisode(c, StateAt(c, ev, n - 1), ev[n - 1]);
    }
  }

  /** The episode that finds its window full ends the process, and says why. */
  lemma FullWindowExits(c: Config, s: State, e: Event)
    requires Declares(c, s, e) && !s.reportedLoss
    requires c.onLoss == RestartEngine && c.maxLossesInWindow > 0
    requires s.guard.open && s.guard.losses >= c.maxLossesInWindow
    requires c.lossWindowMs == 0 || e.now - s.guard.startMs <= c.lossWindowMs
    ensures Step(c, s, e).action.exitProcess && !Step(c, s, e).action.restartEngine
    ensures Step(c, s, e).action.escalation == RepeatedLosses
  {
  }

  /** The renderer is up: nothing reported, nothing attempted since the last frame. */
  predicate Healthy(s: State) {
    !s.disabled && !s.reportedLoss && s.recoveryAttempts == 0
  }

  /** A healthy renderer that is lost and draws again inside the limits: one more episode answered in place. */
  lemma LossThenFrame(c: Config, ev: seq<Event>, i: nat)
    requires i + 1 < |ev| && ev[i].Lost? && ev[i + 1].Frame?
    requires c.onLoss == RestartEngine && Healthy(StateAt(c, ev, i))
    requires Counted(c, StateAt(c, ev, i).guard, ev[i].now).losses <= c.maxLossesInWindow
    ensures AnsweredInPlace(c, ev, i) && !AnsweredInPlace(c, ev, i + 1)
    ensures Healthy(StateAt(c, ev, i + 2))
    ensures StateAt(c, ev, i + 2).guard == Counted(c, StateAt(c, ev, i).guard, ev[i].now)
  {
    assert StateAt(c, ev, i + 2) == Step(c, StateAt(c, ev, i + 1), ev[i + 1]).state;
  }

  /** From `i` on, `k` losses at one moment, each followed by a frame. */
  ghost predicate Flickers(ev: seq<Event>, i: nat, k: nat, now: nat) {
    && i + 2 * k <= |ev|
    && forall j :: i <= j < i + 2 * k ==> ev[j] == if (j - i) % 2 == 0 then Lost(now, ContextLost) else Frame(now)
  }

  lemma {:induction false} FlickersAreAnswered(c: Config, ev: seq<Event>, i: nat, k: nat, now: nat)
    requires k > 0 && Flickers(ev, i, k, now)
    requires c.onLoss == RestartEngine && Healthy(StateAt(c, ev, i))
    requires var g := Counted(c, StateAt(c, ev, i).guard, now);
      g.startMs <= now && now - g.startMs <= c.lossWindowMs && g.losses + k - 1 <= c.maxLossesInWindow
    ensures Healthy(StateAt(c, ev, i + 2 * k))
    ensures var g := Counted(c, StateAt(c, ev, i).guard, now);
      StateAt(c, ev, i + 2 * k).guard == Guard(true, g.startMs, g.losses + k - 1)
    ensures EpisodesInPlace(c, ev, i, i + 2 * k) == k
  {
    hide Step;
    var last := i + 2 * (k - 1);
    if k > 1 {
      FlickersAreAnswered(c, ev, i, k - 1, now);
    } else {
      assert EpisodesInPlace(c, ev, i, i) == 0;
    }
    assert (last - i) % 2 == 0 && (last + 1 - i) % 2 == 1;
    assert ev[last] == Lost(now, ContextLost) && ev[last + 1] == Frame(now);
    LossThenFrame(c, ev, last);
  }

  lemma {:induction false} EpisodesAdd(c: Config, ev: seq<Event>, i: nat, j: nat, k: nat)
    requires i <= j <= k <= |ev|
    ensures EpisodesInPlace(c, ev, i, k) == EpisodesInPlace(c, ev, i, j) + EpisodesInPlace(c, ev, j, k)
    decreases k
  {
    hide AnsweredInPlace;
    if j < k { EpisodesAdd(c, ev, i, j, k - 1); }
  }

  /** One loss opens a window, `max - 1` fill it as it closes, and `max` more fill the next. */
  function WorstRun(c: Config): seq<Event>
    requires c.maxLossesInWindow > 0
  {
    seq(4 * c.maxLossesInWindow, n requires n >= 0 =>
      var now := if n < 2 then 0 else if n < 2 * c.maxLossesInWindow then c.lossWindowMs else c.lossWindowMs + 1;
      if n % 2 == 0 then Lost(now, ContextLost) else Frame(now))
  }

  lemma WorstRunFlickers(c: Config)
    requires c.maxLossesInWindow > 0
    ensures var ev, m, w := WorstRun(c), c.maxLossesInWindow, c.lossWindowMs;
      && |ev| == 4 * m && Ordered(ev)
      && Flickers(ev, 0, 1, 0) && Flickers(ev, 2, m - 1, w) && Flickers(ev, 2 * m, m, w + 1)
  {
  }

  lemma WorstRunSpan(c: Config)
    requires c.maxLossesInWindow > 0 && c.lossWindowMs > 0
    ensures var ev := WorstRun(c); |ev| >= 4 && ev[|ev| - 1].now - ev[2].now <= c.lossWindowMs
  {
  }

  lemma FirstWindowFills(c: Config, ev: seq<Event>)
    requires c.onLoss == RestartEngine && c.maxLossesInWindow > 0
    requires var m, w := c.maxLossesInWindow, c.lossWindowMs;
      |ev| >= 2 * m && Flickers(ev, 0, 1, 0) && Flickers(ev, 2, m - 1, w)
    ensures var m := c.maxLossesInWindow;
      && Healthy(StateAt(c, ev, 2 * m)) && StateAt(c, ev, 2 * m).guard == Guard(true, 0, m)
      && EpisodesInPlace(c, ev, 2, 2 * m) == m - 1
  {
    hide Step, Flickers;
    FlickersAreAnswered(c, ev, 0, 1, 0);
    if c.maxLossesInWindow > 1 {
      FlickersAreAnswered(c, ev, 2, c.maxLossesInWindow - 1, c.lossWindowMs);
    } else {
      assert EpisodesInPlace(c, ev, 2, 2) == 0;
    }
  }

  lemma FillToTheBrim(c: Config) returns (ev: seq<Event>)
    requires c.onLoss == RestartEngine && c.maxLossesInWindow > 0 && c.lossWindowMs > 0
    ensures |ev| == 4 * c.maxLossesInWindow && Ordered(ev)
    ensures ev[|ev| - 1].now - ev[2].now <= c.lossWindowMs
    ensures EpisodesInPlace(c, ev, 2, |ev|) == 2 * c.maxLossesInWindow - 1
  {
    hide Step, Flickers, WorstRun, Ordered, StateAt, EpisodesInPlace;
    var m, w := c.maxLossesInWindow, c.lossWindowMs;
    ev := WorstRun(c);
    WorstRunFlickers(c);
    WorstRunSpan(c);
    FirstWindowFills(c, ev);
    FlickersAreAnswered(c, ev, 2 * m, m, w + 1);
    EpisodesAdd(c, ev, 2, 2 * m, 4 * m);
  }

  /** Under every configuration the bound is reached, so it cannot be lowered. */
  lemma SlidingLossBoundIsTight(c: Config)
    requires c.onLoss == RestartEngine && c.maxLossesInWindow > 0 && c.lossWindowMs > 0
    ensures exists ev: seq<Event>, i: nat, j: nat ::
              && Ordered(ev) && i < j <= |ev|
              && ev[j - 1].now - ev[i].now <= c.lossWindowMs
              && EpisodesInPlace(c, ev, i, j) == 2 * c.maxLossesInWindow - 1
  {
    var ev := FillToTheBrim(c);
  }

  ghost predicate SpansWithinLimit(c: Config) {
    forall ev: seq<Event>, i: nat, j: nat ::
      Ordered(ev) && i < j <= |ev| && ev[j - 1].now - ev[i].now <= c.lossWindowMs ==>
        EpisodesInPlace(c, ev, i, j) <= c.maxLossesInWindow
  }

  /** So no span ever holds more episodes than the limit if and only if the limit is one. */
  lemma LimitHoldsForOneOnly(c: Config)
    requires c.onLoss == RestartEngine && c.maxLossesInWindow > 0 && c.lossWindowMs > 0
    ensures SpansWithinLimit(c) <==> c.maxLossesInWindow == 1
  {
    if c.maxLossesInWindow == 1 {
      forall ev: seq<Event>, i: nat, j: nat
        | Ordered(ev) && i < j <= |ev| && ev[j - 1].now - ev[i].now <= c.lossWindowMs
        ensures EpisodesInPlace(c, ev, i, j) <= c.maxLossesInWindow
      {
        SlidingLossBound(c, ev, i, j);
      }
    } else {
      SlidingLossBoundIsTight(c);
    }
  }

  // --- The judgement hold --------------------------------------------------------

  /** The events that cannot release a hold: ticks, hints and further holds. */
  predicate KeepsHold(e: Event) {
    e.Tick? || e.Hint? || e.Started? || (e.Judgeable? && !e.judgeable)
  }

  lemma HeldStepIsSilent(c: Config, s: State, e: Event)
    requires s.hold.on && !s.hold.expired && KeepsHold(e)
    requires c.maxJudgementHoldMs > 0 ==> e.now < s.hold.sinceMs + c.maxJudgementHoldMs
    ensures var t := Step(c, s, e);
      && t.state.hold == s.hold && t.state.missedProbes == s.missedProbes
      && !t.action.reportLoss && !t.action.restartEngine && !t.action.exitProcess
  {
  }

  /**
   * A hold opened at `h` ends at `h + cap` and not later, however often it is
   * asked for again, and until then no tick counts a miss or declares a loss.
   */
  lemma {:induction false} HoldSilencesTicks(c: Config, ev: seq<Event>, i: nat, n: nat)
    requires Ordered(ev) && i <= n <= |ev|
    requires StateAt(c, ev, i).hold.on && !StateAt(c, ev, i).hold.expired
    requires forall k :: i <= k < n ==> KeepsHold(ev[k])
    requires c.maxJudgementHoldMs > 0 && n > i ==>
               ev[n - 1].now < StateAt(c, ev, i).hold.sinceMs + c.maxJudgementHoldMs
    ensures StateAt(c, ev, n).hold.on && !StateAt(c, ev, n).hold.expired
    ensures StateAt(c, ev, n).hold.sinceMs == StateAt(c, ev, i).hold.sinceMs
    ensures StateAt(c, ev, n).missedProbes == StateAt(c, ev, i).missedProbes
    ensures forall k :: i <= k < n ==>
              !Out(c, ev, k).action.reportLoss && !Out(c, ev, k).action.restartEngine
              && !Out(c, ev, k).action.exitProcess
  {
    hide Step;
    if n > i {
      HoldSilencesTicks(c, ev, i, n - 1);
      HeldStepIsSilent(c, StateAt(c, ev, n - 1), ev[n - 1]);
    }
  }

  /** The holding flag of an unreleased hold stays, and with it the moment it ends. */
  lemma {:induction false} HoldEndIsFixed(c: Config, ev: seq<Event>, i: nat, n: nat)
    requires i <= n <= |ev| && StateAt(c, ev, i).hold.on
    requires forall k :: i <= k < n ==> KeepsHold(ev[k])
    ensures StateAt(c, ev, n).hold.on
    ensures StateAt(c, ev, n).hold.sinceMs == StateAt(c, ev, i).hold.sinceMs
  {
    if n > i {
      HoldEndIsFixed(c, ev, i, n - 1);
      StepMovesHold(c, StateAt(c, ev, n - 1), ev[n - 1]);
    }
  }

  /** The ticks among the events `i` to `n`, `n` excluded. */
  function Ticks(ev: seq<Event>, i: nat, n: nat): nat
    requires i <= n <= |ev|
    decreases n
  {
    if i == n then 0 else Ticks(ev, i, n - 1) + if ev[n - 1].Tick? then 1 else 0
  }

  /** Nothing holds the watchdog at `now` or later. */
  ghost predicate CapSpent(c: Config, s: State, now: nat) {
    s.hold.on ==> c.maxJudgementHoldMs > 0 && now >= s.hold.sinceMs + c.maxJudgementHoldMs
  }

  lemma StepCountsMiss(c: Config, s: State, e: Event)
    requires e.Tick? || e.Hint? || e.Consume?
    requires !s.disabled && s.probeOutstanding && CapSpent(c, s, e.now)
    requires e.Tick? ==> s.missedProbes + 1 < c.missedProbesBeforeRecovery
    ensures var t := Step(c, s, e).state;
      && !t.disabled && t.probeOutstanding
      && t.missedProbes == s.missedProbes + (if e.Tick? then 1 else 0)
      && (t.hold.on ==> s.hold.on && t.hold.sinceMs == s.hold.sinceMs)
    ensures !Declares(c, s, e)
  {
  }

  lemma {:induction false} MissesCountTicks(c: Config, ev: seq<Event>, i: nat, n: nat)
    requires Ordered(ev) && i <= n <= |ev|
    requires !StateAt(c, ev, i).disabled && StateAt(c, ev, i).probeOutstanding
    requires forall k :: i <= k < n ==> ev[k].Tick? || ev[k].Hint? || ev[k].Consume?
    requires forall k :: i <= k < n ==> CapSpent(c, StateAt(c, ev, i), ev[k].now)
    requires StateAt(c, ev, i).missedProbes + Ticks(ev, i, n) < c.missedProbesBeforeRecovery
    ensures !StateAt(c, ev, n).disabled && StateAt(c, ev, n).probeOutstanding
    ensures StateAt(c, ev, n).missedProbes == StateAt(c, ev, i).missedProbes + Ticks(ev, i, n)
    ensures StateAt(c, ev, n).hold.on ==>
              StateAt(c, ev, i).hold.on && StateAt(c, ev, n).hold.sinceMs == StateAt(c, ev, i).hold.sinceMs
    ensures forall k :: i <= k < n ==> !Declares(c, StateAt(c, ev, k), ev[k])
  {
    hide Step;
    if n > i {
      MissesCountTicks(c, ev, i, n - 1);
      StepCountsMiss(c, StateAt(c, ev, n - 1), ev[n - 1]);
    }
  }

  lemma DeclaredLossShows(c: Config, s: State, e: Event)
    requires Declares(c, s, e)
    ensures var a := Step(c, s, e).action;
      && a.cause == (if e.Lost? then e.cause else NoFramesPresented)
      && a.reportLoss == !s.reportedLoss
      && (a.restartEngine || a.exitProcess || c.onLoss == LogOnly)
  {
  }

  /**
   * Once the cap is spent a silent renderer is found out: with a probe
   * outstanding and only ticks, hints and announcements arriving, the tick
   * that brings the misses to the threshold declares the loss, and no earlier
   * one does -- so it is the `missedProbesBeforeRecovery`-th at the latest, and
   * no flood of hints puts it off.
   */
  lemma LossIsDeclaredOnTime(c: Config, ev: seq<Event>, i: nat, j: nat)
    requires Ordered(ev) && i <= j < |ev|
    requires !StateAt(c, ev, i).disabled && StateAt(c, ev, i).probeOutstanding
    requires forall k :: i <= k <= j ==> ev[k].Tick? || ev[k].Hint? || ev[k].Consume?
    requires forall k :: i <= k <= j ==> CapSpent(c, StateAt(c, ev, i), ev[k].now)
    requires ev[j].Tick?
    requires StateAt(c, ev, i).missedProbes + Ticks(ev, i, j) + 1
          == Max(StateAt(c, ev, i).missedProbes + 1, c.missedProbesBeforeRecovery)
    ensures Declares(c, StateAt(c, ev, j), ev[j])
    ensures Out(c, ev, j).action.cause == NoFramesPresented
    ensures || Out(c, ev, j).action.restartEngine
            || Out(c, ev, j).action.exitProcess
            || c.onLoss == LogOnly
    ensures Out(c, ev, j).action.reportLoss == !StateAt(c, ev, j).reportedLoss
    ensures forall k :: i <= k < j ==> !Declares(c, StateAt(c, ev, k), ev[k])
  {
    hide Step;
    if StateAt(c, ev, i).missedProbes + Ticks(ev, i, j) < c.missedProbesBeforeRecovery {
      MissesCountTicks(c, ev, i, j);
    } else {
      // The very first tick: only hints and announcements came before it.
      NothingCounts(c, ev, i, j);
    }
    DeclaredLossShows(c, StateAt(c, ev, j), ev[j]);
  }

  lemma {:induction false} NothingCounts(c: Config, ev: seq<Event>, i: nat, n: nat)
    requires i <= n <= |ev| && Ticks(ev, i, n) == 0
    requires forall k :: i <= k < n ==> ev[k].Tick? || ev[k].Hint? || ev[k].Consume?
    requires StateAt(c, ev, i).probeOutstanding
    ensures forall k :: i <= k < n ==> !ev[k].Tick?
    ensures StateAt(c, ev, n).disabled == StateAt(c, ev, i).disabled
    ensures StateAt(c, ev, n).probeOutstanding
    ensures StateAt(c, ev, n).missedProbes == StateAt(c, ev, i).missedProbes
    ensures StateAt(c, ev, n).hold.on ==>
              StateAt(c, ev, i).hold.on && StateAt(c, ev, n).hold.sinceMs == StateAt(c, ev, i).hold.sinceMs
  {
    if n > i {
      NothingCounts(c, ev, i, n - 1);
    }
  }

  lemma {:induction false} NoHoldNoExpiry(c: Config, ev: seq<Event>, i: nat, n: nat)
    requires i <= n <= |ev| && !StateAt(c, ev, i).hold.on && !StateAt(c, ev, i).hold.expired
    requires forall k :: i <= k < n ==> !(ev[k].Judgeable? && !ev[k].judgeable)
    ensures !StateAt(c, ev, n).hold.on && !StateAt(c, ev, n).hold.expired
  {
    if n > i {
      NoHoldNoExpiry(c, ev, i, n - 1);
      StepMovesHold(c, StateAt(c, ev, n - 1), ev[n - 1]);
    }
  }

  /** An expiry is announced once per hold: a second one needs a new hold. */
  lemma ExpiryAnnouncedOncePerHold(c: Config, ev: seq<Event>, i: nat, j: nat)
    requires i < j < |ev| && Out(c, ev, i).announced && Out(c, ev, j).announced
    ensures exists k :: i < k < j && ev[k].Judgeable? && !ev[k].judgeable
  {
    if forall k :: i < k < j ==> !(ev[k].Judgeable? && !ev[k].judgeable) {
      NoHoldNoExpiry(c, ev, i + 1, j);
    }
  }

  // --- Backoff ---------------------------------------------------------------------

  function Pow2(n: nat): (p: nat)
    ensures p >= 1
  {
    if n == 0 then 1 else 2 * Pow2(n - 1)
  }

  /** The doubled period the backoff stands for, in unbounded arithmetic. */
  function Intended(c: Config, attempts: nat): nat {
    Min(c.maxProbeIntervalMs, c.probeIntervalMs * Pow2(if attempts == 0 then 0 else attempts - 1))
  }

  /** The last doubling of a period that an `unsigned int` still holds; zero for zero. */
  function LastDoubling(period: Word): (last: Word)
    ensures last >= period
    ensures period > 0 ==> last >= WORD / 2
    decreases WORD - period
  {
    if period == 0 || period >= WORD / 2 then period else LastDoubling(2 * period)
  }

  lemma DoublingStep(period: nat, n: nat)
    requires n > 0
    ensures period * Pow2(n) == (2 * period) * Pow2(n - 1)
    ensures period * Pow2(n) >= period
  {
  }

  lemma {:induction false} DoublesExactly(c: Config, period: Word, n: nat)
    requires c.maxProbeIntervalMs <= LastDoubling(period)
    ensures Min(c.maxProbeIntervalMs, Doubled(c, period, n)) == Min(c.maxProbeIntervalMs, period * Pow2(n))
    decreases n
  {
    if n > 0 {
      DoublingStep(period, n);
      if period < c.maxProbeIntervalMs {
        var twice: Word := 2 * period;
        assert (period * 2) % WORD == twice;
        assert Doubled(c, period, n) == Doubled(c, twice, n - 1);
        DoublesExactly(c, twice, n - 1);
      }
    }
  }

  lemma WrapsOnce(c: Config, period: Word)
    requires WORD / 2 <= period < c.maxProbeIntervalMs
    ensures Doubled(c, period, 1) < c.maxProbeIntervalMs < period * Pow2(1)
  {
    var wrapped: Word := period * 2 - WORD;
    assert (period * 2) % WORD == wrapped;
    assert Doubled(c, period, 1) == Doubled(c, wrapped, 0) == wrapped;
    assert Pow2(1) == 2 * Pow2(0) == 2;
  }

  lemma OneDoubling(c: Config, period: Word, n: nat)
    requires n > 0 && period < c.maxProbeIntervalMs && 2 * period < WORD
    ensures Doubled(c, period, n) == Doubled(c, 2 * period, n - 1)
  {
    assert (period * 2) % WORD == 2 * period;
  }

  lemma {:induction false} Overflows(c: Config, period: Word) returns (n: nat)
    requires period > 0 && c.maxProbeIntervalMs > LastDoubling(period)
    ensures Doubled(c, period, n) < c.maxProbeIntervalMs
    ensures c.maxProbeIntervalMs < period * Pow2(n)
    decreases WORD - period
  {
    if period >= WORD / 2 {
      n := 1;
      WrapsOnce(c, period);
    } else {
      var twice: Word := 2 * period;
      var m := Overflows(c, twice);
      n := m + 1;
      hide Doubled, Pow2;
      OneDoubling(c, period, n);
      DoublingStep(period, n);
    }
  }

  /**
   * The backoff is the capped doubling for every number of attempts exactly
   * when the cap does not lie above the period's last 32-bit doubling -- so
   * always for a cap of at most 2^31 ms. Past that the product wraps, and the
   * watchdog backs off less than it means to.
   */
  lemma BackoffIsCappedDoubling(c: Config)
    ensures (forall attempts: nat :: Backoff(c, attempts) == Intended(c, attempts))
       <==> c.probeIntervalMs == 0 || c.maxProbeIntervalMs <= LastDoubling(c.probeIntervalMs)
    ensures c.maxProbeIntervalMs <= 0x8000_0000 ==>
              forall attempts: nat :: Backoff(c, attempts) == Intended(c, attempts)
  {
    if c.probeIntervalMs == 0 {
      forall attempts: nat ensures Backoff(c, attempts) == Intended(c, attempts) {
        ZeroStaysZero(c, if attempts == 0 then 0 else attempts - 1);
      }
    } else if c.maxProbeIntervalMs <= LastDoubling(c.probeIntervalMs) {
      forall attempts: nat ensures Backoff(c, attempts) == Intended(c, attempts) {
        DoublesExactly(c, c.probeIntervalMs, if attempts == 0 then 0 else attempts - 1);
      }
    } else {
      var n := Overflows(c, c.probeIntervalMs);
      assert Backoff(c, n + 1) != Intended(c, n + 1);
    }
  }

  /** From 0x90000000 ms under a cap of 0xFFFFFFFF ms the first doubling leaves 0x20000000 ms. */
  lemma DoublingWraps(c: Config)
    requires c.probeIntervalMs == 0x9000_0000 && c.maxProbeIntervalMs == 0xFFFF_FFFF
    ensures Backoff(c, 1) == 0x9000_0000 && Backoff(c, 2) == 0x2000_0000
  {
    var wrapped: Word := 0x2000_0000;
    assert (c.probeIntervalMs * 2) % WORD == wrapped;
    assert Doubled(c, c.probeIntervalMs, 1) == Doubled(c, wrapped, 0) == wrapped;
  }

  lemma {:induction false} ZeroStaysZero(c: Config, n: nat)
    ensures Doubled(c, 0, n) == 0
  {
    if n > 0 { ZeroStaysZero(c, n - 1); }
  }

  // --- The timer ---------------------------------------------------------------------

  /** The tick period the host was last asked for; zero leaves it alone. */
  function Period(c: Config, ev: seq<Event>, n: nat): Word
    requires n <= |ev|
  {
    if n == 0 then 0
    else
      var asked := Out(c, ev, n - 1).action.setTimerMs;
      if asked != 0 then asked else Period(c, ev, n - 1)
  }

  lemma BackoffIsPositive(c: Config, attempts: nat)
    requires 0 < c.probeIntervalMs && 0 < c.maxProbeIntervalMs <= WORD / 2
    ensures Backoff(c, attempts) > 0
  {
    BackoffIsCappedDoubling(c);
    DoublingIsPositive(c.probeIntervalMs, if attempts == 0 then 0 else attempts - 1);
  }

  lemma DoublingIsPositive(period: nat, n: nat)
    requires period > 0
    ensures period * Pow2(n) > 0
  {
  }

  lemma StepSetsTimer(c: Config, s: State, e: Event)
    requires 0 < c.probeIntervalMs && !e.Started?
    ensures var t := Step(c, s, e);
      t.action.setTimerMs == if t.action.restartEngine then Backoff(c, s.recoveryAttempts + 1)
                             else if e.Frame? && !s.disabled && s.recoveryAttempts > 0 then c.probeIntervalMs
                             else 0
  {
    match e
    case Tick(_) =>
    case _ =>
  }

  /**
   * While the watchdog is in charge the host ticks at the probe interval, or
   * at the backoff of the restarts since the last frame: every failed recovery
   * slows it down, and the first frame afterwards brings it back.
   */
  lemma {:induction false} TimerFollowsAttempts(c: Config, ev: seq<Event>, n: nat)
    requires 0 < n <= |ev| && ev[0].Started? && forall k :: 0 < k < n ==> !ev[k].Started?
    requires 0 < c.probeIntervalMs && 0 < c.maxProbeIntervalMs <= WORD / 2
    ensures !StateAt(c, ev, n).disabled ==>
              Period(c, ev, n) == if RestartsSinceFrame(c, ev, n) == 0 then c.probeIntervalMs
                                  else Backoff(c, RestartsSinceFrame(c, ev, n))
  {
    AttemptsCountRestarts(c, ev, n);
    if n == 1 {
      assert StateAt(c, ev, 0) == FRESH && StateAt(c, ev, 1) == Step(c, FRESH, ev[0]).state;
    } else {
      var s := StateAt(c, ev, n - 1);
      TimerFollowsAttempts(c, ev, n - 1);
      AttemptsCountRestarts(c, ev, n - 1);
      StepSetsTimer(c, s, ev[n - 1]);
      StepCountsAttempts(c, s, ev[n - 1]);
      StepKeepsReported(c, s, ev[n - 1]);
      BackoffIsPositive(c, s.recoveryAttempts + 1);
    }
  }
}
