// What the rules of the single messages come to over a run: each machine runs
// through the calls the host makes to it, so what it promises of its own runs
// holds inside the host; and every wish for another engine is answered.

module FlutterWindowMachines {
  import opened Prelude
  import opened FlutterWindow
  import opened FlutterWindowRuns
  import opened FlutterWindowRules
  import Grace = FlutterWindowGrace
  import Losses = FlutterWindowLosses
  import Gate = EngineRebuildGate
  import Dog = GpuWatchdog
  import DogRuns = GpuWatchdogRuns
  import DogRules = GpuWatchdogRules
  import Policy = SessionRebuildPolicy
  import Live = DartLiveness

  /** In every run every message follows the rule. */
  lemma RunIsRuled(r: Run, i: nat)
    requires Ordered(r) && i < |r.events|
    ensures StateAt(r, i + 1) == After(r.config, StateAt(r, i), r.events[i])
    ensures EffectAt(r, i) == Ruled(r.config, StateAt(r, i), r.events[i])
  {
    hide Step, Opened, After, Ruled;
    Reachable(r, i, r.events[i].now);
    StepIsRuled(r.config, StateAt(r, i), r.events[i]);
  }

  // --- Every wish for another engine is answered -----------------------------------------

  /** The live engine may be replaced: it has started up or run out of time, and no rebuild was just done. */
  predicate MayReplace(r: Run, i: nat)
    requires i < |r.events|
  {
    var s, now := StateAt(r, i), r.events[i].now;
    && (s.engine.startupComplete || now - s.engine.startedMs >= r.config.gate.startupTimeoutMs)
    && (s.gate.everRebuilt ==> s.gate.lastRebuildMs + r.config.gate.debounceMs <= now)
  }

  /** Event `i` wants another engine. */
  predicate WantsEngine(r: Run, i: nat)
    requires i < |r.events|
  {
    var m := r.events[i].message;
    || (EffectAt(r, i).acted.Some? && EffectAt(r, i).acted.value.restartEngine)
    || (r.config.watchdogEnabled &&
        (|| m.PowerResume?
         || (m.Session? && m.change.RemoteConnect?
             && (!r.config.policy.stormDetectorAvailable
                 || (m.change.engineAdapter.Some? && m.change.sessionAdapter.Some?
                     && m.change.engineAdapter.value != m.change.sessionAdapter.value)))))
  }

  /**
   * A restart the watchdog asks for, a resume, a connect that finds another
   * adapter or no detector: while there is an engine, each is answered -- at
   * once, by replacing the engine, exactly when that may be.
   */
  lemma WishesAreAnswered(r: Run, i: nat)
    requires Ordered(r) && i < |r.events| && StateAt(r, i).engine.up && WantsEngine(r, i)
    ensures EffectAt(r, i).answered.Some?
    ensures EffectAt(r, i).answered == Some(Gate.RebuildNow) <==> MayReplace(r, i)
    ensures EffectAt(r, i).ended.Some? <==> MayReplace(r, i)
  {
    RunIsRuled(r, i);
    hide StateAt, EffectAt, DogRuns.Step, Releases, GivesUp;
    NoReleaseNoAction(r.config, StateAt(r, i), r.events[i]);
  }

  lemma NoReleaseNoAction(c: Config, s: State, e: Event)
    ensures Releases(c, s, e) || GivesUp(c, s, e) ==> Wanted(c, s, e) == None
  {
  }

  /** So evidence of a loss ends the engine that was lost, if it may go, or the process. */
  lemma EvidenceReachesTheGate(r: Run, i: nat)
    requires Ordered(r) && i < |r.events| && (r.events[i].message.RasterLoss? || r.events[i].message.EglStorm?)
    requires r.config.watchdogEnabled && r.config.dog.onLoss == Dog.RestartEngine
    requires StateAt(r, i).engine.up && !StateAt(r, i).dog.disabled
    ensures var f := EffectAt(r, i);
      f.exited || (f.answered.Some? && (f.ended.Some? <==> MayReplace(r, i)))
  {
    hide Step, StateAt, MayReplace;
    Losses.EvidenceIsAnswered(r.config, StateAt(r, i), r.events[i]);
    if !EffectAt(r, i).exited { WishesAreAnswered(r, i); }
  }

  // --- Each machine runs through its calls -------------------------------------------------

  function Listed<T>(calls: Calls<T>): seq<T> {
    (if calls.first.Some? then [calls.first.value] else [])
    + (if calls.second.Some? then [calls.second.value] else [])
    + (if calls.third.Some? then [calls.third.value] else [])
  }

  /** The calls made to the watchdog up to the first `n` events. */
  function DogRun(r: Run, n: nat): seq<DogRuns.Event>
    requires n <= |r.events|
  {
    if n == 0 then
      [DogRuns.Judgeable(r.openedMs, false)] + if r.config.watchdogEnabled then [DogRuns.Started(r.openedMs)] else []
    else DogRun(r, n - 1) + Listed(DogCalls(r.config, StateAt(r, n - 1), r.events[n - 1]))
  }

  lemma OneMoreCall(c: Dog.Config, ev: seq<DogRuns.Event>, call: DogRuns.Event)
    ensures DogRuns.StateAt(c, ev + [call], |ev| + 1) == DogRuns.Step(c, DogRuns.StateAt(c, ev, |ev|), call).state
  {
    hide DogRuns.Step;
    DogRunIsKept(c, ev, [call], |ev|);
  }

  lemma {:induction false} DogRunIsKept(c: Dog.Config, ev: seq<DogRuns.Event>, more: seq<DogRuns.Event>, n: nat)
    requires n <= |ev|
    ensures DogRuns.StateAt(c, ev + more, n) == DogRuns.StateAt(c, ev, n)
  {
    hide DogRuns.Step;
    if n > 0 { DogRunIsKept(c, ev, more, n - 1); }
  }

  lemma CallsAreRun(c: Dog.Config, ev: seq<DogRuns.Event>, calls: Calls<DogRuns.Event>)
    ensures var longer := ev + Listed(calls);
      DogRuns.StateAt(c, longer, |longer|)
      == Watched(c, Watched(c, Watched(c, DogRuns.StateAt(c, ev, |ev|), calls.first), calls.second), calls.third)
  {
    hide DogRuns.Step, DogRuns.StateAt;
    var one := if calls.first.Some? then [calls.first.value] else [];
    var two := if calls.second.Some? then [calls.second.value] else [];
    var three := if calls.third.Some? then [calls.third.value] else [];
    OptionalCall(c, ev, calls.first);
    OptionalCall(c, ev + one, calls.second);
    OptionalCall(c, ev + one + two, calls.third);
    Associative(ev, one, two);
    Associative(ev, one + two, three);
  }

  lemma OptionalCall(c: Dog.Config, ev: seq<DogRuns.Event>, call: Option<DogRuns.Event>)
    ensures var longer := ev + if call.Some? then [call.value] else [];
      DogRuns.StateAt(c, longer, |longer|) == Watched(c, DogRuns.StateAt(c, ev, |ev|), call)
  {
    hide DogRuns.Step, DogRuns.StateAt;
    EmptyIsNeutral(ev);
    if call.Some? { OneMoreCall(c, ev, call.value); }
  }

  lemma QueueAfterAsking(c: Config, s: State, reason: string, now: nat)
    requires Agree(c, s, now) && Answer(c, s, now) != Gate.RebuildNow
    ensures Gate.Step(c.gate, s.gate, Gate.Asked(now, reason)).0.queued
         == (s.gate.queued || Answer(c, s, now) == Gate.Queued)
  {
  }

  lemma PollsInVain(c: Config, s: State, e: Event)
    requires Agree(c, s, e.now) && !Releases(c, s, e) && (e.message.WatchdogTick? || e.message.RebuildDue?)
    ensures Gate.Step(c.gate, s.gate, Gate.Polled(e.now)).0 == s.gate
  {
  }

  lemma AfterTellsDog(c: Config, s: State, e: Event)
    requires Agree(c, s, e.now)
    ensures var calls := DogCalls(c, s, e);
      After(c, s, e).dog
      == Watched(c.dog, Watched(c.dog, Watched(c.dog, s.dog, calls.first), calls.second), calls.third)
  {
    hide DogRuns.Step, Gate.Step, Policy.Step, Live.Step, Releases, MayEnd, Agree;
    if Reason(c, s, e).Some? && !Replaces(c, s, e) {
      QueueAfterAsking(c, s, Reason(c, s, e).value, e.now);
      if e.message.WatchdogTick? { PollsInVain(c, s, e); }
    }
  }

  lemma OpenedDog(c: Config, now: nat)
    ensures Opened(c, now).dog == Watched(c.dog, DogRuns.Step(c.dog, Dog.FRESH, DogRuns.Judgeable(now, false)).state,
                                          if c.watchdogEnabled then Some(DogRuns.Started(now)) else None)
  {
  }

  lemma OpenedIsDriven(r: Run)
    ensures DogRuns.StateAt(r.config.dog, DogRun(r, 0), |DogRun(r, 0)|) == Opened(r.config, r.openedMs).dog
  {
    var c, held := r.config, DogRuns.Judgeable(r.openedMs, false);
    OpenedDog(c, r.openedMs);
    assert DogRuns.StateAt(c.dog, [], 0) == Dog.FRESH;
    hide DogRuns.Step, DogRuns.StateAt, Opened;
    OneMoreCall(c.dog, [], held);
    EmptyIsNeutral([held]);
    OptionalCall(c.dog, [held], if c.watchdogEnabled then Some(DogRuns.Started(r.openedMs)) else None);
  }

  /** Inside the host the watchdog is in the state its own run of the calls leads to. */
  lemma {:induction false} DogIsDriven(r: Run, n: nat)
    requires Ordered(r) && n <= |r.events|
    ensures DogRuns.StateAt(r.config.dog, DogRun(r, n), |DogRun(r, n)|) == StateAt(r, n).dog
  {
    var c := r.config;
    hide Step, Opened, DogRuns.Step, DogRuns.StateAt, DogCalls, After, Listed;
    if n == 0 {
      OpenedIsDriven(r);
    } else {
      DogIsDriven(r, n - 1);
      RunIsRuled(r, n - 1);
      Reachable(r, n - 1, r.events[n - 1].now);
      AfterTellsDog(c, StateAt(r, n - 1), r.events[n - 1]);
      CallsAreRun(c.dog, DogRun(r, n - 1), DogCalls(c, StateAt(r, n - 1), r.events[n - 1]));
    }
  }

  /** The calls made so far came in order, and none later than `now`. */
  ghost predicate DogOrdered(ev: seq<DogRuns.Event>, now: nat) {
    DogRuns.Ordered(ev) && forall k :: 0 <= k < |ev| ==> ev[k].now <= now
  }

  lemma DogOrderExtends(ev: seq<DogRuns.Event>, more: seq<DogRuns.Event>, before: nat, now: nat)
    requires DogOrdered(ev, before) && before <= now && forall k :: 0 <= k < |more| ==> more[k].now == now
    ensures DogOrdered(ev + more, now)
  {
  }

  predicate AllNow(calls: Calls<DogRuns.Event>, now: nat) {
    && (calls.first.Some? ==> calls.first.value.now == now)
    && (calls.second.Some? ==> calls.second.value.now == now)
    && (calls.third.Some? ==> calls.third.value.now == now)
  }

  lemma CallsAreNow(c: Config, s: State, e: Event)
    ensures AllNow(DogCalls(c, s, e), e.now)
  {
    hide Answer, Releases, GivesUp, Replaces, Reason;
  }

  lemma ListedAreNow(calls: Calls<DogRuns.Event>, now: nat)
    requires AllNow(calls, now)
    ensures forall k :: 0 <= k < |Listed(calls)| ==> Listed(calls)[k].now == now
  {
  }

  lemma {:induction false} DogCallsAreOrdered(r: Run, n: nat)
    requires Ordered(r) && n <= |r.events|
    ensures DogOrdered(DogRun(r, n), ClockAt(r, n))
  {
    hide Step, Opened, Listed, DogCalls, DogOrdered;
    if n == 0 {
      DogStartsOrdered(r);
    } else {
      DogCallsAreOrdered(r, n - 1);
      CallsAreNow(r.config, StateAt(r, n - 1), r.events[n - 1]);
      ListedAreNow(DogCalls(r.config, StateAt(r, n - 1), r.events[n - 1]), r.events[n - 1].now);
      DogOrderExtends(DogRun(r, n - 1), Listed(DogCalls(r.config, StateAt(r, n - 1), r.events[n - 1])),
                      ClockAt(r, n - 1), r.events[n - 1].now);
    }
  }

  lemma DogStartsOrdered(r: Run)
    ensures DogOrdered(DogRun(r, 0), r.openedMs)
  {
  }

  /** The calls up to the one event `i` is answered by, that one included. */
  function CallsTo(r: Run, i: nat): seq<DogRuns.Event>
    requires i < |r.events|
  {
    var calls := DogCalls(r.config, StateAt(r, i), r.events[i]);
    DogRun(r, i) + Listed(Calls(calls.first, calls.second, None))
  }

  /** Two calls behind a run, the second one last. */
  lemma LastCall(c: Dog.Config, run: seq<DogRuns.Event>, first: Option<DogRuns.Event>, call: DogRuns.Event,
                 before: nat, now: nat)
    requires DogOrdered(run, before) && before <= now && AllNow(Calls(first, Some(call), None), now)
    ensures var ev := run + Listed(Calls(first, Some(call), None));
      && ev != [] && ev[|ev| - 1] == call && DogRuns.Ordered(ev)
      && DogRuns.StateAt(c, ev, |ev| - 1) == Watched(c, DogRuns.StateAt(c, run, |run|), first)
  {
    hide DogRuns.Step, DogRuns.StateAt, Listed, DogRuns.Ordered;
    var one := if first.Some? then [first.value] else [];
    OptionalCall(c, run, first);
    DogRunIsKept(c, run + one, [call], |run + one|);
    ListedAreNow(Calls(first, Some(call), None), now);
    FirstTwo(first, call);
    Associative(run, one, [call]);
    DogOrderExtends(run, Listed(Calls(first, Some(call), None)), before, now);
  }

  lemma CallsToTheLast(r: Run, i: nat)
    requires Ordered(r) && i < |r.events| && DogCall(r.config, StateAt(r, i), r.events[i]).Some?
    ensures var ev, call := CallsTo(r, i), DogCall(r.config, StateAt(r, i), r.events[i]).value;
      && ev != [] && ev[|ev| - 1] == call && DogRuns.Ordered(ev)
      && DogRuns.StateAt(r.config.dog, ev, |ev| - 1) == Found(r.config, StateAt(r, i), r.events[i])
  {
    hide StateAt, DogRuns.Step, DogRuns.StateAt, DogCall, DogCalls, Found, DogRun, Listed, DogRuns.Ordered, DogOrdered;
    var c, s, e := r.config, StateAt(r, i), r.events[i];
    var calls := DogCalls(c, s, e);
    FoundIsTold(c, s, e);
    DogIsDriven(r, i);
    DogCallsAreOrdered(r, i);
    CallsAreNow(c, s, e);
    LastCall(c.dog, DogRun(r, i), calls.first, calls.second.value, ClockAt(r, i), e.now);
  }

  lemma FoundIsTold(c: Config, s: State, e: Event)
    requires DogCall(c, s, e).Some?
    ensures Found(c, s, e) == Watched(c.dog, s.dog, DogCalls(c, s, e).first)
    ensures DogCalls(c, s, e).second == DogCall(c, s, e)
  {
    hide DogRuns.Step, Releases, GivesUp, Replaces, Reason, Answer;
  }

  lemma FirstTwo<T>(first: Option<T>, call: T)
    ensures Listed(Calls(first, Some(call), None)) == (if first.Some? then [first.value] else []) + [call]
  {
  }

  /**
   * So the watchdog's own rule holds in the host: whatever it has done about a
   * message is what the rule says after the calls made so far.
   */
  lemma ActedAsRuled(r: Run, i: nat)
    requires Ordered(r) && i < |r.events| && EffectAt(r, i).acted.Some?
    ensures var ev := CallsTo(r, i);
      && ev != [] && DogRuns.Ordered(ev)
      && EffectAt(r, i).acted.value == DogRules.Ruled(r.config.dog, ev, |ev| - 1)
  {
    hide StateAt, EffectAt, CallsTo, DogRuns.Step, DogRuns.StateAt, Found, DogCall, DogRules.Ruled;
    ActedIsWanted(r, i);
    CallsToTheLast(r, i);
    DogRules.ActionsAreRuled(r.config.dog, CallsTo(r, i), |CallsTo(r, i)| - 1);
  }

  // The gate ...

  function GateRun(r: Run, n: nat): seq<Gate.Event>
    requires n <= |r.events|
  {
    if n == 0 then [Gate.EngineUp(r.openedMs)]
    else GateRun(r, n - 1) + Listed(GateCalls(r.config, StateAt(r, n - 1), r.events[n - 1]))
  }

  lemma {:induction false} GateRunIsKept(c: Gate.Config, ev: seq<Gate.Event>, more: seq<Gate.Event>, n: nat)
    requires n <= |ev|
    ensures Gate.StateAt(c, ev + more, n) == Gate.StateAt(c, ev, n)
  {
    hide Gate.Step;
    if n > 0 { GateRunIsKept(c, ev, more, n - 1); }
  }

  lemma OptionalRequest(c: Gate.Config, ev: seq<Gate.Event>, call: Option<Gate.Event>)
    ensures var longer := ev + if call.Some? then [call.value] else [];
      Gate.StateAt(c, longer, |longer|) == Gated(c, Gate.StateAt(c, ev, |ev|), call)
  {
    hide Gate.Step;
    EmptyIsNeutral(ev);
    if call.Some? { GateRunIsKept(c, ev, [call.value], |ev|); }
  }

  lemma RequestsAreRun(c: Gate.Config, ev: seq<Gate.Event>, calls: Calls<Gate.Event>)
    ensures var longer := ev + Listed(calls);
      Gate.StateAt(c, longer, |longer|)
      == Gated(c, Gated(c, Gated(c, Gate.StateAt(c, ev, |ev|), calls.first), calls.second), calls.third)
  {
    hide Gate.Step, Gate.StateAt;
    var one := if calls.first.Some? then [calls.first.value] else [];
    var two := if calls.second.Some? then [calls.second.value] else [];
    var three := if calls.third.Some? then [calls.third.value] else [];
    OptionalRequest(c, ev, calls.first);
    OptionalRequest(c, ev + one, calls.second);
    OptionalRequest(c, ev + one + two, calls.third);
    Associative(ev, one, two);
    Associative(ev, one + two, three);
  }

  lemma AfterTellsGate(c: Config, s: State, e: Event)
    ensures var calls := GateCalls(c, s, e);
      After(c, s, e).gate
      == Gated(c.gate, Gated(c.gate, Gated(c.gate, s.gate, calls.first), calls.second), calls.third)
  {
    hide DogRuns.Step, Gate.Step, Policy.Step, Live.Step, Releases, GivesUp, MayEnd, Wanted, Answer;
  }

  lemma OpenedGate(r: Run)
    ensures Gate.StateAt(r.config.gate, GateRun(r, 0), |GateRun(r, 0)|) == Opened(r.config, r.openedMs).gate
  {
    assert Gate.StateAt(r.config.gate, GateRun(r, 0), 0) == Gate.FRESH;
    assert GateRun(r, 0)[0] == Gate.EngineUp(r.openedMs);
  }

  /** Inside the host the gate is in the state its own run of the calls leads to. */
  lemma {:induction false} GateIsDriven(r: Run, n: nat)
    requires Ordered(r) && n <= |r.events|
    ensures Gate.StateAt(r.config.gate, GateRun(r, n), |GateRun(r, n)|) == StateAt(r, n).gate
  {
    hide Step, Opened, Gate.Step, Gate.StateAt, GateCalls, After, Listed;
    if n == 0 {
      OpenedGate(r);
    } else {
      var c, s, e := r.config, StateAt(r, n - 1), r.events[n - 1];
      GateIsDriven(r, n - 1);
      RunIsRuled(r, n - 1);
      AfterTellsGate(c, s, e);
      RequestsAreRun(c.gate, GateRun(r, n - 1), GateCalls(c, s, e));
    }
  }

  // ... the session policy ...

  function PolicyRun(r: Run, n: nat): seq<Policy.Event>
    requires n <= |r.events|
  {
    if n == 0 then [Policy.EngineUp(r.openedMs)]
    else PolicyRun(r, n - 1) + Listed(PolicyCalls(r.config, StateAt(r, n - 1), r.events[n - 1]))
  }

  lemma {:induction false} PolicyRunIsKept(c: Policy.Config, ev: seq<Policy.Event>, more: seq<Policy.Event>, n: nat)
    requires n <= |ev|
    ensures Policy.StateAt(c, ev + more, n) == Policy.StateAt(c, ev, n)
  {
    hide Policy.Step;
    if n > 0 { PolicyRunIsKept(c, ev, more, n - 1); }
  }

  lemma OptionalChange(c: Policy.Config, ev: seq<Policy.Event>, call: Option<Policy.Event>)
    ensures var longer := ev + if call.Some? then [call.value] else [];
      Policy.StateAt(c, longer, |longer|) == Decided(c, Policy.StateAt(c, ev, |ev|), call)
  {
    hide Policy.Step;
    EmptyIsNeutral(ev);
    if call.Some? { PolicyRunIsKept(c, ev, [call.value], |ev|); }
  }

  lemma ChangesAreRun(c: Policy.Config, ev: seq<Policy.Event>, calls: Calls<Policy.Event>)
    requires calls.second == None
    ensures var longer := ev + Listed(calls);
      Policy.StateAt(c, longer, |longer|)
      == Decided(c, Decided(c, Policy.StateAt(c, ev, |ev|), calls.first), calls.third)
  {
    hide Policy.Step, Policy.StateAt;
    var one := if calls.first.Some? then [calls.first.value] else [];
    var three := if calls.third.Some? then [calls.third.value] else [];
    OptionalChange(c, ev, calls.first);
    OptionalChange(c, ev + one, calls.third);
    EmptyIsNeutral(one);
    Associative(ev, one, three);
  }

  lemma AfterTellsPolicy(c: Config, s: State, e: Event)
    ensures var calls := PolicyCalls(c, s, e);
      && calls.second == None
      && After(c, s, e).policy == Decided(c.policy, Decided(c.policy, s.policy, calls.first), calls.third)
  {
    hide DogRuns.Step, Gate.Step, Policy.Step, Live.Step, Releases, GivesUp, MayEnd, Wanted, Answer, Reason;
  }

  lemma OpenedPolicy(r: Run)
    ensures Policy.StateAt(r.config.policy, PolicyRun(r, 0), |PolicyRun(r, 0)|) == Opened(r.config, r.openedMs).policy
  {
    assert PolicyRun(r, 0)[0] == Policy.EngineUp(r.openedMs);
  }

  /** ... of which the same holds ... */
  lemma {:induction false} PolicyIsDriven(r: Run, n: nat)
    requires Ordered(r) && n <= |r.events|
    ensures Policy.StateAt(r.config.policy, PolicyRun(r, n), |PolicyRun(r, n)|) == StateAt(r, n).policy
  {
    hide Step, Opened, Policy.Step, Policy.StateAt, PolicyCalls, After, Listed;
    if n == 0 {
      OpenedPolicy(r);
    } else {
      var c, s, e := r.config, StateAt(r, n - 1), r.events[n - 1];
      PolicyIsDriven(r, n - 1);
      RunIsRuled(r, n - 1);
      AfterTellsPolicy(c, s, e);
      ChangesAreRun(c.policy, PolicyRun(r, n - 1), PolicyCalls(c, s, e));
    }
  }

  // ... and the liveness machine, one epoch at a time.

  function LiveRun(r: Run, n: nat): Live.Epoch
    requires n <= |r.events|
  {
    if n == 0 then Live.Epoch(1, r.openedMs, [])
    else
      var c, s, e := r.config, StateAt(r, n - 1), r.events[n - 1];
      var before, call := LiveRun(r, n - 1), LiveCall(c, s, e);
      if Replaces(c, s, e) then Live.Epoch(s.engine.epoch + 1, e.now, [])
      else Live.Epoch(before.number, before.startMs, before.events + if call.Some? then [call.value] else [])
  }

  lemma {:induction false} EpochIsKept(c: Live.Config, e: Live.Epoch, more: seq<Live.Event>, n: nat)
    requires n <= |e.events|
    ensures Live.StateAt(c, Live.Epoch(e.number, e.startMs, e.events + more), n) == Live.StateAt(c, e, n)
  {
    hide Live.Step;
    if n > 0 { EpochIsKept(c, e, more, n - 1); }
  }

  lemma OptionalStamp(c: Live.Config, e: Live.Epoch, call: Option<Live.Event>)
    ensures var longer := Live.Epoch(e.number, e.startMs, e.events + if call.Some? then [call.value] else []);
      Live.StateAt(c, longer, |longer.events|) == Heard(c, Live.StateAt(c, e, |e.events|), call)
  {
    hide Live.Step;
    EmptyIsNeutral(e.events);
    if call.Some? { EpochIsKept(c, e, [call.value], |e.events|); }
  }

  lemma AfterTellsLive(c: Config, s: State, e: Event)
    ensures var t := After(c, s, e);
      && t.live == (if Replaces(c, s, e) then Live.StateAt(c.live, Live.Epoch(s.engine.epoch + 1, e.now, []), 0)
                    else Heard(c.live, s.live, LiveCall(c, s, e)))
      && t.engine.epoch == (if Replaces(c, s, e) then s.engine.epoch + 1 else s.engine.epoch)
      && t.engine.startedMs == (if Replaces(c, s, e) then e.now else s.engine.startedMs)
  {
    hide DogRuns.Step, Gate.Step, Policy.Step, Live.Step, Live.StateAt, Releases, GivesUp, MayEnd, Wanted, Answer,
         Reason;
  }

  lemma OpenedLive(r: Run)
    ensures Opened(r.config, r.openedMs).live == Live.StateAt(r.config.live, Live.Epoch(1, r.openedMs, []), 0)
  {
  }

  /** ... whose epoch is that of the live engine. */
  lemma {:induction false} LiveIsDriven(r: Run, n: nat)
    requires Ordered(r) && n <= |r.events|
    ensures var e := LiveRun(r, n);
      && Live.StateAt(r.config.live, e, |e.events|) == StateAt(r, n).live
      && e.number == StateAt(r, n).engine.epoch && e.startMs == StateAt(r, n).engine.startedMs
  {
    hide Step, Opened, Live.Step, Live.StateAt, LiveCall, After, Replaces;
    if n == 0 {
      OpenedLive(r);
      OpenedKeeps(r.config, r.openedMs);
    } else {
      var c, s, e := r.config, StateAt(r, n - 1), r.events[n - 1];
      LiveIsDriven(r, n - 1);
      RunIsRuled(r, n - 1);
      AfterTellsLive(c, s, e);
      OptionalStamp(c.live, LiveRun(r, n - 1), LiveCall(c, s, e));
    }
  }

  // --- What a frame undoes, at the host ----------------------------------------------------

  /** The watchdog's ticks among the events `i` to `n`, `n` excluded. */
  function Ticks(r: Run, i: nat, n: nat): nat
    requires i <= n <= |r.events|
    decreases n
  {
    if i == n then 0 else Ticks(r, i, n - 1) + if r.events[n - 1].message.WatchdogTick? then 1 else 0
  }

  /** How a call moves what the watchdog counts. */
  lemma CallMoves(c: Dog.Config, s: Dog.State, call: Option<DogRuns.Event>)
    ensures var t := Watched(c, s, call);
      && (s.disabled ==> t.disabled)
      && (call == None ==> t == s)
      && (call.Some? && !t.disabled ==>
            && (call.value.Frame? || DogRuns.Step(c, s, call.value).action.restartEngine ==> t.missedProbes == 0)
            && t.missedProbes <= s.missedProbes + (if call.value.Tick? then 1 else 0)
            && (call.value.Frame? ==> !t.probeOutstanding)
            && (DogRules.AsksNothing(call.value) && !s.probeOutstanding ==> !t.probeOutstanding))
  {
    hide DogRuns.Step;
    if call.Some? { DogRules.StepMovesFields(c, s, call.value); }
  }

  /** What may be outstanding after a message. */
  predicate Probes(m: Message) {
    m.WatchdogTick? || m.RasterLoss? || m.EglStorm? || m.PowerResume? || m.DisplayChange? || m.Session?
  }

  lemma MessageMoves(c: Config, s: State, e: Event)
    requires Agree(c, s, e.now)
    ensures var t, w := After(c, s, e).dog, Wanted(c, s, e);
      && (s.dog.disabled ==> t.disabled)
      && (!t.disabled && c.watchdogEnabled && e.message.FramePresented? ==> t.missedProbes == 0 && !t.probeOutstanding)
      && (!t.disabled && w.Some? && w.value.restartEngine ==> t.missedProbes == 0)
      && (!t.disabled ==> t.missedProbes <= s.dog.missedProbes + (if e.message.WatchdogTick? then 1 else 0))
      && (!t.disabled && !Probes(e.message) && !s.dog.probeOutstanding ==> !t.probeOutstanding)
  {
    hide DogRuns.Step, After, Agree, MayEnd, Answer, Releases, GivesUp;
    var calls := DogCalls(c, s, e);
    AfterTellsDog(c, s, e);
    var one := Watched(c.dog, s.dog, calls.first);
    var two := Watched(c.dog, one, calls.second);
    CallMoves(c.dog, s.dog, calls.first);
    CallMoves(c.dog, one, calls.second);
    CallMoves(c.dog, two, calls.third);
    JudgeableAsksNothing(c, s, e);
  }

  lemma JudgeableAsksNothing(c: Config, s: State, e: Event)
    ensures var calls := DogCalls(c, s, e);
      && (calls.first.Some? ==> DogRules.AsksNothing(calls.first.value) && !calls.first.value.Frame?)
      && (calls.third.Some? ==> DogRules.AsksNothing(calls.third.value) && !calls.third.value.Frame?)
  {
  }

  /** Event `i` clears the misses: a frame, or a restart the watchdog asks for. */
  predicate StartsOver(r: Run, i: nat)
    requires i < |r.events|
  {
    || r.events[i].message.FramePresented?
    || (EffectAt(r, i).acted.Some? && EffectAt(r, i).acted.value.restartEngine)
  }

  lemma ActedIsWanted(r: Run, i: nat)
    requires Ordered(r) && i < |r.events|
    ensures EffectAt(r, i).acted.Some? ==>
              && Wanted(r.config, StateAt(r, i), r.events[i]) == EffectAt(r, i).acted
              && r.config.watchdogEnabled && !StateAt(r, i).dog.disabled
  {
    hide StateAt, EffectAt, DogRuns.Step, Replaces, Reason, Answer, After;
    RunIsRuled(r, i);
  }

  lemma {:induction false} MissesAreTicks(r: Run, i: nat, n: nat)
    requires Ordered(r) && i < n <= |r.events| && StartsOver(r, i) && r.config.watchdogEnabled
    ensures !StateAt(r, n).dog.disabled ==> StateAt(r, n).dog.missedProbes <= Ticks(r, i + 1, n)
  {
    hide Step, Opened, After, Wanted;
    var c, s, e := r.config, StateAt(r, n - 1), r.events[n - 1];
    Reachable(r, n - 1, e.now);
    RunIsRuled(r, n - 1);
    MessageMoves(c, s, e);
    if n > i + 1 {
      MissesAreTicks(r, i, n - 1);
    } else {
      ActedIsWanted(r, i);
    }
  }

  /** A tick that infers a loss found a probe unanswered, and misses enough. */
  lemma InferenceIsDeclared(r: Run, j: nat)
    requires Ordered(r) && j < |r.events| && Grace.InferredLoss(r, j)
    ensures var d := StateAt(r, j).dog;
      && r.config.watchdogEnabled && !d.disabled && !r.events[j].message.removed
      && d.probeOutstanding && d.missedProbes + 1 >= r.config.dog.missedProbesBeforeRecovery
  {
    hide StateAt, EffectAt, DogRuns.Step, Replaces, Reason, Answer, After, Releases, GivesUp;
    ActedIsWanted(r, j);
    var c, s, e := r.config, StateAt(r, j), r.events[j];
    var found, call := Found(c, s, e), DogCall(c, s, e).value;
    TickFinds(c, s, e);
    if DogRuns.Declares(c.dog, found, call) {
      DogRules.LossAsAnswered(c.dog, found, call);
    } else {
      DogRules.OthersAsAnswered(c.dog, found, call);
    }
  }

  lemma TickFinds(c: Config, s: State, e: Event)
    requires e.message.WatchdogTick?
    ensures var d := Found(c, s, e);
      && d.disabled == s.dog.disabled && d.probeOutstanding == s.dog.probeOutstanding
      && d.missedProbes == s.dog.missedProbes
  {
  }

  /**
   * In the host, too, a presented frame and a restart clear the misses: no
   * tick infers a loss before as many ticks have come as it takes misses.
   */
  lemma MissesStartOver(r: Run, i: nat, j: nat)
    requires Ordered(r) && i < j < |r.events| && StartsOver(r, i) && r.events[j].message.WatchdogTick?
    requires Ticks(r, i + 1, j + 1) < r.config.dog.missedProbesBeforeRecovery
    ensures !Grace.InferredLoss(r, j)
  {
    hide StateAt, EffectAt, StartsOver;
    if Grace.InferredLoss(r, j) {
      InferenceIsDeclared(r, j);
      MissesAreTicks(r, i, j);
    }
  }

  lemma {:induction false} StaysUnprobed(r: Run, i: nat, n: nat)
    requires Ordered(r) && i < n <= |r.events| && r.config.watchdogEnabled && r.events[i].message.FramePresented?
    requires forall k :: i < k < n ==> !Probes(r.events[k].message)
    ensures !StateAt(r, n).dog.disabled ==> !StateAt(r, n).dog.probeOutstanding
  {
    hide Step, Opened, After, Wanted;
    var c, s, e := r.config, StateAt(r, n - 1), r.events[n - 1];
    Reachable(r, n - 1, e.now);
    RunIsRuled(r, n - 1);
    MessageMoves(c, s, e);
    if n > i + 1 { StaysUnprobed(r, i, n - 1); }
  }

  /** The first tick after a frame infers nothing, whatever the threshold, unless a message asked for a frame. */
  lemma FrameAnswersProbe(r: Run, i: nat, j: nat)
    requires Ordered(r) && i < j < |r.events|
    requires r.events[i].message.FramePresented? && r.events[j].message.WatchdogTick?
    requires forall k :: i < k < j ==> !Probes(r.events[k].message)
    ensures !Grace.InferredLoss(r, j)
  {
    hide StateAt, EffectAt;
    if Grace.InferredLoss(r, j) {
      InferenceIsDeclared(r, j);
      StaysUnprobed(r, i, j);
    }
  }
}
