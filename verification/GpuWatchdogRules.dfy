// The rule the watchdog answers by, told from the events alone: what it has
// been told and what it has answered so far, and none of the fields it keeps.

module GpuWatchdogRules {
  import opened Prelude
  import opened GpuWatchdog
  import opened GpuWatchdogRuns

  // --- What the fields stand for ----------------------------------------------------

  /** It has been disarmed, or has asked the process to end. */
  predicate Retired(c: Config, ev: seq<Event>, n: nat)
    requires n <= |ev|
  {
    n > 0 && (ev[n - 1].Disarm? || Out(c, ev, n - 1).action.exitProcess || Retired(c, ev, n - 1))
  }

  /** Something was asked of the renderer since its last frame. */
  predicate Probed(ev: seq<Event>, n: nat)
    requires n <= |ev|
  {
    n > 0 && match ev[n - 1]
             case Frame(_) => false
             case Started(_) => true
             case Tick(_) => true
             case Hint(_) => true
             case Lost(_, _) => true
             case _ => Probed(ev, n - 1)
  }

  /** Since when judgement is on hold. */
  function HeldSince(c: Config, ev: seq<Event>, n: nat): Option<nat>
    requires n <= |ev|
  {
    if n == 0 then None
    else
      var before := HeldSince(c, ev, n - 1);
      match ev[n - 1]
      case Judgeable(now, judgeable) => if judgeable then None else if before.Some? then before else Some(now)
      case Frame(_) => if Retired(c, ev, n - 1) then before else None
      case Consume(_) => if Out(c, ev, n - 1).announced then None else before
      case _ => before
  }

  /** The hold covers `now`: it has no cap, or the cap is not over. */
  predicate Silenced(c: Config, ev: seq<Event>, n: nat, now: nat)
    requires n <= |ev|
  {
    var since := HeldSince(c, ev, n);
    since.Some? && (c.maxJudgementHoldMs == 0 || now < since.value + c.maxJudgementHoldMs)
  }

  /** A tick has found the cap of the hold over, and no one has asked yet. */
  predicate Unannounced(c: Config, ev: seq<Event>, n: nat)
    requires n <= |ev|
  {
    n > 0 && match ev[n - 1]
             case Judgeable(_, judgeable) => !judgeable && Unannounced(c, ev, n - 1)
             case Frame(_) => Retired(c, ev, n - 1) && Unannounced(c, ev, n - 1)
             case Consume(_) => false
             case Tick(now) =>
               || Unannounced(c, ev, n - 1)
               || (&& !Retired(c, ev, n - 1) && HeldSince(c, ev, n - 1).Some?
                   && !Silenced(c, ev, n - 1, now))
             case _ => Unannounced(c, ev, n - 1)
  }

  /**
   * The ticks outside any hold that found a probe unanswered, since the last
   * frame or restart; once the watchdog is retired, as they stood then.
   */
  function Misses(c: Config, ev: seq<Event>, n: nat): nat
    requires n <= |ev|
  {
    if n == 0 then 0
    else if Retired(c, ev, n - 1) then Misses(c, ev, n - 1)
    else if ev[n - 1].Frame? || Out(c, ev, n - 1).action.restartEngine then 0
    else
      var missed := ev[n - 1].Tick? && Probed(ev, n - 1) && !Silenced(c, ev, n - 1, ev[n - 1].now);
      Misses(c, ev, n - 1) + if missed then 1 else 0
  }

  /** A loss has been reported since the last frame. */
  predicate Reported(c: Config, ev: seq<Event>, n: nat)
    requires n <= |ev|
  {
    n > 0 && !ev[n - 1].Frame? && (Out(c, ev, n - 1).action.reportLoss || Reported(c, ev, n - 1))
  }

  /** The episode that opened the loop guard's window: the first one reported past the end of the window before. */
  function WindowOpenedBy(c: Config, ev: seq<Event>, n: nat): Option<nat>
    requires n <= |ev|
  {
    if n == 0 then None
    else
      var before := WindowOpenedBy(c, ev, n - 1);
      if Out(c, ev, n - 1).action.reportLoss && (before == None || Outside(c, ev, before.value, ev[n - 1].now))
      then Some(n - 1)
      else before
  }

  predicate Outside(c: Config, ev: seq<Event>, opener: nat, now: nat) {
    opener < |ev| && c.lossWindowMs > 0 && now > ev[opener].now + c.lossWindowMs
  }

  /** The episodes reported by the events `i` to `n`, `n` excluded. */
  function Reports(c: Config, ev: seq<Event>, i: nat, n: nat): nat
    requires n <= |ev|
    decreases n
  {
    if n <= i then 0 else Reports(c, ev, i, n - 1) + if Out(c, ev, n - 1).action.reportLoss then 1 else 0
  }

  // --- The rule -----------------------------------------------------------------------

  /** Event `i` is a loss: it says so, or it is the tick that brings the misses to the threshold. */
  predicate LossIsDue(c: Config, ev: seq<Event>, i: nat)
    requires i < |ev|
  {
    && !Retired(c, ev, i)
    && (|| ev[i].Lost?
        || (&& ev[i].Tick? && Probed(ev, i) && !Silenced(c, ev, i, ev[i].now)
            && Misses(c, ev, i) + 1 >= c.missedProbesBeforeRecovery))
  }

  /** The guard's window still open at event `i`, and the episodes in it once this loss counts. */
  function EpisodesWith(c: Config, ev: seq<Event>, i: nat): nat
    requires i < |ev|
  {
    var opener := WindowOpenedBy(c, ev, i);
    if Reported(c, ev, i) then if opener == None then 0 else Reports(c, ev, opener.value, i)
    else if opener == None || Outside(c, ev, opener.value, ev[i].now) then 1
    else Reports(c, ev, opener.value, i) + 1
  }

  /** Why a loss that should be answered by a restart ends the process, if it does. */
  function Escalated(c: Config, ev: seq<Event>, i: nat): Escalation
    requires i < |ev|
  {
    if 0 < c.maxLossesInWindow < EpisodesWith(c, ev, i) then RepeatedLosses
    else if 0 < c.maxRecoveryAttempts <= RestartsSinceFrame(c, ev, i) then RecoveryExhausted
    else NoEscalation
  }

  /** What event `i` is to be answered with. */
  function Ruled(c: Config, ev: seq<Event>, i: nat): Action
    requires i < |ev|
  {
    var restarts := RestartsSinceFrame(c, ev, i);
    if LossIsDue(c, ev, i) then
      var first := !Reported(c, ev, i);
      var cause := if ev[i].Lost? then ev[i].cause else NoFramesPresented;
      var why := if c.onLoss == RestartEngine then Escalated(c, ev, i) else NoEscalation;
      if c.onLoss == LogOnly then Action(true, first, false, false, 0, cause, why)
      else if c.onLoss == ExitProcess || why != NoEscalation then Action(false, first, true, false, 0, cause, why)
      else Action(false, first, false, true, Backoff(c, restarts + 1), cause, why)
    else if Retired(c, ev, i) then Action(false, false, false, false, 0, NoFramesPresented, NoEscalation)
    else
      var probe := ev[i].Started? || ev[i].Tick? || ev[i].Hint?;
      var restore := ev[i].Started? || (ev[i].Frame? && restarts > 0);
      Action(probe, false, false, false, if restore then c.probeIntervalMs else 0, NoFramesPresented, NoEscalation)
  }

  // --- The fields are what they stand for ---------------------------------------------

  /** One event, as each field it moves sees it. */
  lemma StepMovesFields(c: Config, s: State, e: Event)
    ensures var t, a, told := Step(c, s, e).state, Step(c, s, e).action, Step(c, s, e).announced;
      && t.disabled == (s.disabled || e.Disarm? || a.exitProcess)
      && told == (e.Consume? && s.hold.expired)
      && (!t.disabled ==>
            && t.probeOutstanding == (!e.Frame? && (e.Started? || e.Tick? || e.Hint? || e.Lost? || s.probeOutstanding))
            && t.reportedLoss == (!e.Frame? && (a.reportLoss || s.reportedLoss)))
      && (s.disabled ==> t.missedProbes == s.missedProbes && (t.probeOutstanding ==> s.probeOutstanding))
      && (e.Disarm? ==> !t.probeOutstanding)
      && (!s.disabled ==>
            var missed := e.Tick? && s.probeOutstanding && !Held(c, s.hold, e.now);
            t.missedProbes == if e.Frame? || a.restartEngine then 0 else s.missedProbes + if missed then 1 else 0)
  {
    match e
    case Tick(_) =>
    case _ =>
  }

  lemma {:induction false} HoldIsTold(c: Config, ev: seq<Event>, n: nat)
    requires Ordered(ev) && n <= |ev|
    ensures var s := StateAt(c, ev, n);
      && s.disabled == Retired(c, ev, n)
      && HeldSince(c, ev, n) == (if s.hold.on then Some(s.hold.sinceMs) else None)
      && s.hold.expired == Unannounced(c, ev, n)
      && (s.hold.expired ==> s.hold.on)
      && (s.hold.on ==> n > 0 && s.hold.sinceMs <= ev[n - 1].now)
  {
    hide Step;
    if n > 0 {
      HoldIsTold(c, ev, n - 1);
      StepMovesFields(c, StateAt(c, ev, n - 1), ev[n - 1]);
      StepMovesHold(c, StateAt(c, ev, n - 1), ev[n - 1]);
    }
  }

  /** What the fields hold is what the events have told, as long as anything is done about it. */
  lemma {:induction false} FieldsAreTold(c: Config, ev: seq<Event>, n: nat)
    requires Ordered(ev) && n <= |ev|
    ensures var s := StateAt(c, ev, n);
      && s.disabled == Retired(c, ev, n)
      && s.missedProbes == Misses(c, ev, n)
      && (!s.disabled ==> s.probeOutstanding == Probed(ev, n) && s.reportedLoss == Reported(c, ev, n))
  {
    hide Step, HeldSince, Unannounced;
    if n > 0 {
      FieldsAreTold(c, ev, n - 1);
      HoldIsTold(c, ev, n - 1);
      HoldIsTold(c, ev, n);
      StepMovesFields(c, StateAt(c, ev, n - 1), ev[n - 1]);
    }
  }

  lemma StepMovesGuard(c: Config, s: State, e: Event)
    ensures var t, a := Step(c, s, e).state, Step(c, s, e).action;
      t.guard == if !a.reportLoss then s.guard
                 else if s.guard.open && (c.lossWindowMs == 0 || e.now - s.guard.startMs <= c.lossWindowMs)
                 then Guard(true, s.guard.startMs, s.guard.losses + 1)
                 else Guard(true, e.now, 1)
  {
    match e
    case Tick(_) =>
    case _ =>
  }

  /** The loop guard's window is the one its first episode opened, and holds the episodes reported since. */
  lemma {:induction false} GuardIsTold(c: Config, ev: seq<Event>, n: nat)
    requires Ordered(ev) && n <= |ev|
    ensures var g, opener := StateAt(c, ev, n).guard, WindowOpenedBy(c, ev, n);
      && (g.open <==> opener.Some?)
      && (if !g.open then g.losses == 0
          else
            && opener.value < n && g.startMs == ev[opener.value].now
            && g.losses == Reports(c, ev, opener.value, n))
  {
    hide Step;
    if n > 0 {
      GuardIsTold(c, ev, n - 1);
      StepMovesGuard(c, StateAt(c, ev, n - 1), ev[n - 1]);
    }
  }

  /** A loss, and everything else, as the fields answer them. */
  lemma LossAsAnswered(c: Config, s: State, e: Event)
    requires Declares(c, s, e)
    ensures var a, g := Step(c, s, e).action, if s.reportedLoss then s.guard else Counted(c, s.guard, e.now);
      var why := if c.onLoss != RestartEngine then NoEscalation
                 else if 0 < c.maxLossesInWindow < g.losses then RepeatedLosses
                 else if 0 < c.maxRecoveryAttempts <= s.recoveryAttempts then RecoveryExhausted
                 else NoEscalation;
      var exits := c.onLoss == ExitProcess || why != NoEscalation;
      var restarts := c.onLoss == RestartEngine && !exits;
      a == Action(c.onLoss == LogOnly, !s.reportedLoss, exits, restarts,
                  if restarts then Backoff(c, s.recoveryAttempts + 1) else 0,
                  if e.Lost? then e.cause else NoFramesPresented, why)
  {
    hide Backoff, Counted;
  }

  lemma OthersAsAnswered(c: Config, s: State, e: Event)
    requires !Declares(c, s, e)
    ensures var a, heard := Step(c, s, e).action, !s.disabled;
      a == Action(heard && (e.Started? || e.Tick? || e.Hint?), false, false, false,
                  if heard && (e.Started? || (e.Frame? && s.recoveryAttempts > 0)) then c.probeIntervalMs else 0,
                  NoFramesPresented, NoEscalation)
  {
    hide AfterLoss;
  }

  lemma LossIsDeclared(c: Config, ev: seq<Event>, i: nat)
    requires Ordered(ev) && i < |ev|
    ensures Declares(c, StateAt(c, ev, i), ev[i]) == LossIsDue(c, ev, i)
    ensures Retired(c, ev, i) == StateAt(c, ev, i).disabled
  {
    HoldIsTold(c, ev, i);
    FieldsAreTold(c, ev, i);
    hide Retired, HeldSince, Probed, Misses, Reported, StateAt, Unannounced;
  }

  lemma EpisodesAreCounted(c: Config, ev: seq<Event>, i: nat)
    requires Ordered(ev) && i < |ev| && !StateAt(c, ev, i).disabled
    ensures var s := StateAt(c, ev, i);
      && s.reportedLoss == Reported(c, ev, i) && s.recoveryAttempts == RestartsSinceFrame(c, ev, i)
      && EpisodesWith(c, ev, i) == (if s.reportedLoss then s.guard else Counted(c, s.guard, ev[i].now)).losses
  {
    FieldsAreTold(c, ev, i);
    GuardIsTold(c, ev, i);
    AttemptsCountRestarts(c, ev, i);
    hide Retired, Probed, Misses, Reported, WindowOpenedBy, Reports, RestartsSinceFrame, StateAt, Step;
  }

  /**
   * In every run, every event is answered as ruled: when a loss is declared,
   * what for, how it is answered and why it is escalated, when the renderer is
   * probed, and how the timer is set.
   */
  lemma ActionsAreRuled(c: Config, ev: seq<Event>, i: nat)
    requires Ordered(ev) && i < |ev|
    ensures Out(c, ev, i).action == Ruled(c, ev, i)
    ensures Out(c, ev, i).announced == (ev[i].Consume? && Unannounced(c, ev, i))
  {
    hide Step, StateAt, Retired, Reported, RestartsSinceFrame, LossIsDue, Declares, EpisodesWith, Unannounced, Backoff;
    var s, e := StateAt(c, ev, i), ev[i];
    HoldIsTold(c, ev, i);
    StepMovesFields(c, s, e);
    LossIsDeclared(c, ev, i);
    if !s.disabled { EpisodesAreCounted(c, ev, i); }
    if Declares(c, s, e) {
      LossAsAnswered(c, s, e);
      OnlyTheLive(c, s, e);
    } else {
      OthersAsAnswered(c, s, e);
    }
  }

  lemma OnlyTheLive(c: Config, s: State, e: Event)
    requires Declares(c, s, e)
    ensures !s.disabled
  {
  }

  // --- What a frame and a restart undo ----------------------------------------------------

  /** The answer to event `i` declares nothing. */
  predicate DeclaresNothing(c: Config, ev: seq<Event>, i: nat)
    requires i < |ev|
  {
    var a := Out(c, ev, i).action;
    !a.reportLoss && !a.restartEngine && !a.exitProcess
  }

  lemma {:induction false} MissesAreTicks(c: Config, ev: seq<Event>, i: nat, n: nat)
    requires i < n <= |ev| && (ev[i].Frame? || Out(c, ev, i).action.restartEngine)
    ensures !Retired(c, ev, n) ==> Misses(c, ev, n) <= Ticks(ev, i + 1, n)
  {
    hide Step, Silenced, Probed;
    if n > i + 1 { MissesAreTicks(c, ev, i, n - 1); }
  }

  /**
   * A frame answers the probe and clears the misses, and a restart clears them
   * too: after either, no tick declares a loss before as many ticks have come
   * as it takes misses.
   */
  lemma MissesStartOver(c: Config, ev: seq<Event>, i: nat, j: nat)
    requires Ordered(ev) && i < j < |ev| && ev[j].Tick?
    requires ev[i].Frame? || Out(c, ev, i).action.restartEngine
    requires Ticks(ev, i + 1, j + 1) < c.missedProbesBeforeRecovery
    ensures DeclaresNothing(c, ev, j)
  {
    hide Step;
    MissesAreTicks(c, ev, i, j);
    ActionsAreRuled(c, ev, j);
  }

  /** Nothing is asked of the renderer: no probe, and no engine is restarted. */
  predicate AsksNothing(e: Event) {
    !e.Started? && !e.Hint? && !e.Tick? && !e.Lost?
  }

  lemma {:induction false} StaysUnprobed(ev: seq<Event>, i: nat, n: nat)
    requires i < n <= |ev| && ev[i].Frame? && forall k :: i < k < n ==> AsksNothing(ev[k])
    ensures !Probed(ev, n)
  {
    if n > i + 1 { StaysUnprobed(ev, i, n - 1); }
  }

  /** A frame leaves nothing unanswered: the first tick after it declares nothing, whatever the threshold. */
  lemma FrameAnswersProbe(c: Config, ev: seq<Event>, i: nat, j: nat)
    requires Ordered(ev) && i < j < |ev| && ev[i].Frame? && ev[j].Tick?
    requires forall k :: i < k < j ==> AsksNothing(ev[k])
    ensures DeclaresNothing(c, ev, j)
  {
    hide Step;
    StaysUnprobed(ev, i, j);
    ActionsAreRuled(c, ev, j);
  }

  /** Disarmed is for good: nothing is outstanding and nothing is answered any more. */
  lemma DisarmIsFinal(c: Config, ev: seq<Event>, i: nat, j: nat)
    requires Ordered(ev) && i < j < |ev| && ev[i].Disarm?
    ensures !StateAt(c, ev, j).probeOutstanding
    ensures Out(c, ev, j).action == Action(false, false, false, false, 0, NoFramesPresented, NoEscalation)
  {
    hide Step;
    StaysRetired(c, ev, i, j);
    ActionsAreRuled(c, ev, j);
  }

  lemma {:induction false} StaysRetired(c: Config, ev: seq<Event>, i: nat, n: nat)
    requires Ordered(ev) && i < n <= |ev| && ev[i].Disarm?
    ensures Retired(c, ev, n) && !StateAt(c, ev, n).probeOutstanding
  {
    hide Step;
    StepMovesFields(c, StateAt(c, ev, n - 1), ev[n - 1]);
    if n > i + 1 {
      StaysRetired(c, ev, i, n - 1);
      FieldsAreTold(c, ev, n - 1);
    }
  }
}
