// What the host does with every message, told message by message: which calls
// the four machines get, which requests reach the gate, what becomes of the
// engine -- and that each machine, seen alone, just runs through those calls.

module FlutterWindowRules {
  import opened Prelude
  import opened FlutterWindow
  import opened FlutterWindowRuns
  import opened FlutterWindowLosses
  import Gate = EngineRebuildGate
  import Dog = GpuWatchdog
  import DogRuns = GpuWatchdogRuns
  import Policy = SessionRebuildPolicy
  import Live = DartLiveness

  // --- The rule --------------------------------------------------------------------------

  /** The watchdog is on and there is an engine for it to look after. */
  predicate InCharge(c: Config, s: State) {
    c.watchdogEnabled && s.engine.up
  }

  /** A tick or a due message finds a queued rebuild that may be carried out, and does nothing else. */
  predicate Releases(c: Config, s: State, e: Event) {
    (e.message.WatchdogTick? || e.message.RebuildDue?) && s.gate.queued && MayEnd(c, s.engine, e.now)
  }

  /** A tick finds the reconnect probation over, and looks no further. */
  predicate GivesUp(c: Config, s: State, e: Event) {
    && e.message.WatchdogTick? && !Releases(c, s, e)
    && s.policy.probation && e.now >= s.policy.probationSinceMs + c.policy.reconnectProbationMs
  }

  /** What the watchdog is told of a message. */
  function DogCall(c: Config, s: State, e: Event): Option<DogRuns.Event> {
    if !c.watchdogEnabled then None
    else match e.message
      case WatchdogTick(removed, _) =>
        if Releases(c, s, e) || GivesUp(c, s, e) then None
        else Some(if removed then DogRuns.Lost(e.now, Dog.ContextLost) else DogRuns.Tick(e.now))
      case RasterLoss(_) => if s.engine.up then Some(DogRuns.Lost(e.now, Dog.RasterFailed)) else None
      case EglStorm(_) => if s.engine.up then Some(DogRuns.Lost(e.now, Dog.ContextLost)) else None
      case PowerResume(_) => if s.engine.up then Some(DogRuns.Hint(e.now)) else None
      case DisplayChange => if s.engine.up then Some(DogRuns.Hint(e.now)) else None
      case Session(_, _) => if s.engine.up then Some(DogRuns.Hint(e.now)) else None
      case FramePresented => Some(DogRuns.Frame(e.now))
      case _ => None
  }

  /** A tick first takes down a hold that has been found to be over. */
  function Found(c: Config, s: State, e: Event): Dog.State {
    if e.message.WatchdogTick? then DogRuns.Step(c.dog, s.dog, DogRuns.Consume(e.now)).state else s.dog
  }

  /** What the watchdog wants done about a message; what a hint asks for is done on the spot. */
  function Wanted(c: Config, s: State, e: Event): Option<Dog.Action> {
    match DogCall(c, s, e)
    case None => None
    case Some(call) => if s.dog.disabled then None else Some(DogRuns.Step(c.dog, Found(c, s, e), call).action)
  }

  /** The reason a message gives for asking for another engine, if it asks for one. */
  function Reason(c: Config, s: State, e: Event): Option<string> {
    if !InCharge(c, s) then None
    else if GivesUp(c, s, e) then Some(Policy.NO_FRAME)
    else match e.message
      case PowerResume(_) => Some("power resume")
      case Session(RemoteConnect(engine, session), _) =>
        if engine.Some? && session.Some? && engine != session then Some(Policy.ADAPTER_CHANGED)
        else if !c.policy.stormDetectorAvailable then Some(Policy.NO_DETECTOR)
        else None
      case _ =>
        var wanted := Wanted(c, s, e);
        if wanted.Some? && wanted.value.restartEngine then Some("gpu loss recovery") else None
  }

  /** What is made of the wish for another engine. */
  function Answer(c: Config, s: State, now: nat): Gate.Verdict {
    if s.gate.everRebuilt && now < s.gate.lastRebuildMs + c.gate.debounceMs then Gate.Debounced
    else if MayEnd(c, s.engine, now) then Gate.RebuildNow
    else if s.gate.queued then Gate.Coalesced
    else Gate.Queued
  }

  /** The message ends the live engine and creates the next. */
  predicate Replaces(c: Config, s: State, e: Event) {
    s.engine.up && (Releases(c, s, e) || (Reason(c, s, e).Some? && Answer(c, s, e.now) == Gate.RebuildNow))
  }

  /** Everything a message does beyond the state. */
  function Ruled(c: Config, s: State, e: Event): Effect {
    var wanted := Wanted(c, s, e);
    Effect(EndedIf(s, Replaces(c, s, e)),
           if Reason(c, s, e).Some? then Some(Answer(c, s, e.now)) else None,
           if DogCall(c, s, e).Some? && DogCall(c, s, e).value.Hint? then None else wanted,
           wanted.Some? && wanted.value.exitProcess)
  }

  function Gated(c: Gate.Config, s: Gate.State, call: Option<Gate.Event>): Gate.State {
    match call case None => s case Some(e) => Gate.Step(c, s, e).0
  }

  function Watched(c: Dog.Config, s: Dog.State, call: Option<DogRuns.Event>): Dog.State {
    match call case None => s case Some(e) => DogRuns.Step(c, s, e).state
  }

  function Decided(c: Policy.Config, s: Policy.State, call: Option<Policy.Event>): Policy.State {
    match call case None => s case Some(e) => Policy.Step(c, s, e).0
  }

  function Heard(c: Live.Config, s: Live.State, call: Option<Live.Event>): Live.State {
    match call case None => s case Some(e) => Live.Step(c, s, e).0
  }

  // --- Piece by piece --------------------------------------------------------------------

  /** What a message asks of the host once its own business is done. */
  datatype Wish = Wish(
    call: Option<DogRuns.Event>,  // made to the watchdog
    reason: Option<string>,       // another engine is asked for
    replaced: bool,               // and it is created
    exits: bool,
    probes: bool)

  /** The wish is carried out in state `s`. */
  function Onward(c: Config, s: State, w: Wish, now: nat, starts: bool): State {
    var x := s.engine;
    var asked := Gated(c.gate, s.gate, if w.reason.Some? then Some(Gate.Asked(now, w.reason.value)) else None);
    State(if w.replaced then Engine(starts, x.epoch + 1, now, false, false, starts)
          else Engine(x.up && !w.exits, x.epoch, x.startedMs, x.mainSeen, x.startupComplete,
                      !w.exits && (x.probeArmed || (w.probes && x.up))),
          Gated(c.gate, asked, if w.replaced then Some(Gate.EngineUp(now)) else None),
          Watched(c.dog, Watched(c.dog, s.dog, w.call),
                  if w.replaced then Some(DogRuns.Judgeable(now, false))
                  else if w.reason.Some? then Some(DogRuns.Judgeable(now, x.mainSeen && !asked.queued))
                  else None),
          Decided(c.policy, s.policy, if w.replaced && starts then Some(Policy.EngineUp(now)) else None),
          if w.replaced then Live.StateAt(c.live, Live.Epoch(x.epoch + 1, now, []), 0) else s.live)
  }

  function EndedIf(s: State, replaced: bool): Option<Ended> {
    if replaced then Some(Ended(s.engine.epoch, s.engine.startedMs, s.engine.startupComplete)) else None
  }

  lemma RebuildReplaces(c: Config, s: State, now: nat, starts: bool)
    requires s.engine.up && !s.gate.queued
    ensures var (t, ended) := AfterRebuild(s, now, starts);
      && t.engine == Engine(starts, s.engine.epoch + 1, now, false, false, starts)
      && t.gate == Gate.Step(c.gate, s.gate, Gate.EngineUp(now)).0
      && t.dog == DogRuns.Step(c.dog, s.dog, DogRuns.Judgeable(now, false)).state
      && t.policy == (if starts then Policy.Step(c.policy, s.policy, Policy.EngineUp(now)).0 else s.policy)
      && t.live == Live.StateAt(c.live, Live.Epoch(s.engine.epoch + 1, now, []), 0)
      && ended == Some(Ended(s.engine.epoch, s.engine.startedMs, s.engine.startupComplete))
  {
  }

  lemma RequestIsRuled(c: Config, s: State, reason: string, now: nat, starts: bool)
    requires Agree(c, s, now)
    ensures var (t, f) := AfterRequest(c, s, reason, now, starts);
      if InCharge(c, s) then
        && t == Onward(c, s, Wish(None, Some(reason), Answer(c, s, now) == Gate.RebuildNow, false, false), now, starts)
        && f == Effect(EndedIf(s, Answer(c, s, now) == Gate.RebuildNow), Some(Answer(c, s, now)), None, false)
      else t == s && f == QUIET
  {
    hide AfterRebuild;
    if InCharge(c, s) {
      var (gate, d) := Gate.AfterRequest(c.gate, s.gate, reason, now);
      if d.verdict == Gate.RebuildNow { RebuildReplaces(c, WithGate(s, gate), now, starts); }
    }
  }

  lemma PollIsRuled(c: Config, s: State, now: nat, starts: bool)
    requires Agree(c, s, now)
    ensures var (t, ended, released) := AfterPoll(c, s, now, starts);
      var polled := WithGate(s, Gate.Step(c.gate, s.gate, Gate.Polled(now)).0);
      && released == (s.gate.queued && MayEnd(c, s.engine, now))
      && t == Onward(c, polled, Wish(None, None, released && s.engine.up, false, false), now, starts)
      && ended == EndedIf(s, released && s.engine.up)
      && (!released ==> t == s)
  {
    hide AfterRebuild;
    var (gate, d) := Gate.AfterPoll(c.gate, s.gate, now);
    if d.verdict == Gate.RebuildNow && s.engine.up { RebuildReplaces(c, WithGate(s, gate), now, starts); }
    if d.verdict == Gate.RebuildNow && !s.engine.up { DownStays(WithGate(s, gate), now, starts); }
  }

  lemma DownStays(s: State, now: nat, starts: bool)
    requires !s.engine.up
    ensures AfterRebuild(s, now, starts) == (s, None)
  {
  }

  /** What handing `call` to the watchdog makes it want done. */
  function WishOf(c: Config, s: State, call: DogRuns.Event, a: Dog.Action): Wish {
    var asks := a.restartEngine && s.engine.up;
    Wish(Some(call), if asks then Some("gpu loss recovery") else None,
         asks && Answer(c, s, call.now) == Gate.RebuildNow, a.exitProcess, a.startProbe)
  }

  /** Its action is carried out, once. */
  ghost predicate Dispatched(c: Config, s: State, call: DogRuns.Event, t: State, f: Effect, starts: bool) {
    if !c.watchdogEnabled || s.dog.disabled then t == s && f == QUIET
    else
      var a := DogRuns.Step(c.dog, s.dog, call).action;
      var w := WishOf(c, s, call, a);
      && t == Onward(c, s, w, call.now, starts)
      && f == Effect(EndedIf(s, w.replaced), if w.reason.Some? then Some(Answer(c, s, call.now)) else None,
                     Some(a), w.exits)
  }

  /** A restart asks for nothing else. */
  lemma RestartsAlone(c: Dog.Config, s: Dog.State, e: DogRuns.Event)
    ensures var a := DogRuns.Step(c, s, e).action; a.restartEngine ==> !a.exitProcess && !a.startProbe
  {
    match e
    case Tick(_) =>
    case _ =>
  }

  lemma ActionIsRuled(c: Config, s: State, call: DogRuns.Event, a: Dog.Action, starts: bool)
    requires Agree(c, s, call.now) && c.watchdogEnabled && (a.restartEngine ==> !a.exitProcess && !a.startProbe)
    ensures var (t, f) := AfterAction(c, s, a, call.now, starts);
      var w := WishOf(c, s, call, a);
      && t == Onward(c, s, w.(call := None), call.now, starts)
      && f == Effect(EndedIf(s, w.replaced), if w.reason.Some? then Some(Answer(c, s, call.now)) else None,
                     Some(a), w.exits)
  {
    hide AfterRequest, Answer;
    RequestIsRuled(c, s, "gpu loss recovery", call.now, starts);
  }

  lemma CallComesFirst(c: Config, s: State, call: DogRuns.Event, w: Wish, starts: bool)
    requires w.call == None
    ensures Onward(c, WithDog(s, DogRuns.Step(c.dog, s.dog, call).state), w, call.now, starts)
         == Onward(c, s, w.(call := Some(call)), call.now, starts)
  {
    hide DogRuns.Step, Gate.Step, Policy.Step;
  }

  lemma DispatchIsRuled(c: Config, s: State, e: DogEvent, now: nat, starts: bool)
    requires Agree(c, s, now)
    ensures var (t, f) := AfterDispatch(c, s, e, now, starts);
      Dispatched(c, s, AsCall(e, now), t, f, starts)
  {
    hide AfterAction, Onward, Dog.AfterTick, Dog.AfterRendererLost, Dog.AfterStarted, Dog.AfterFrame, Dog.AfterHint;
    if c.watchdogEnabled && !s.dog.disabled {
      var call := AsCall(e, now);
      var out := DogRuns.Step(c.dog, s.dog, call);
      RestartsAlone(c.dog, s.dog, call);
      ActionIsRuled(c, WithDog(s, out.state), call, out.action, starts);
      CallComesFirst(c, s, call, WishOf(c, s, call, out.action).(call := None), starts);
    }
  }

  // --- What each machine is told ---------------------------------------------------------

  /** Whether an engine created while the message is handled comes up. */
  function Starts(m: Message): bool {
    match m
    case WatchdogTick(_, starts) => starts
    case RebuildDue(starts) => starts
    case RasterLoss(starts) => starts
    case EglStorm(starts) => starts
    case PowerResume(starts) => starts
    case Session(_, starts) => starts
    case _ => false
  }

  /** At most three calls to a machine, in this order. */
  datatype Calls<T> = Calls(first: Option<T>, second: Option<T>, third: Option<T>)

  /** The gate is polled or hears of a finished startup; it is asked; it hears of a new engine. */
  function GateCalls(c: Config, s: State, e: Event): Calls<Gate.Event> {
    var reason := Reason(c, s, e);
    Calls(if e.message.WatchdogTick? || e.message.RebuildDue? then Some(Gate.Polled(e.now))
          else if e.message == StartupDone(s.engine.epoch) then Some(Gate.StartupDone(e.now))
          else None,
          if reason.Some? then Some(Gate.Asked(e.now, reason.value)) else None,
          if Replaces(c, s, e) then Some(Gate.EngineUp(e.now)) else None)
  }

  /** A tick asks what there is to announce, other messages what the host knows; the call; judgement looked at again. */
  function DogCalls(c: Config, s: State, e: Event): Calls<DogRuns.Event> {
    var queued := s.gate.queued || Answer(c, s, e.now) == Gate.Queued;
    Calls(if e.message.WatchdogTick? then Some(DogRuns.Consume(e.now))
          else if e.message.MainStarting? then Some(DogRuns.Judgeable(e.now, !s.gate.queued))
          else if e.message.Disarm? then Some(DogRuns.Disarm(e.now))
          else None,
          DogCall(c, s, e),
          if Replaces(c, s, e) then Some(DogRuns.Judgeable(e.now, false))
          else if Reason(c, s, e).Some? then Some(DogRuns.Judgeable(e.now, s.engine.mainSeen && !queued))
          else None)
  }

  function PolicyCalls(c: Config, s: State, e: Event): Calls<Policy.Event> {
    Calls(match e.message
          case WatchdogTick(_, _) => if Releases(c, s, e) then None else Some(Policy.Tick(e.now))
          case FramePresented => Some(Policy.Frame(e.now))
          case Session(RemoteDisconnect, _) => if InCharge(c, s) then Some(Policy.Disconnect(e.now)) else None
          case Session(RemoteConnect(engine, session), _) =>
            if !InCharge(c, s) then None
            else if engine == None || session == None then Some(Policy.Connect(e.now, Policy.Unknown))
            else Some(Policy.Connect(e.now, if engine == session then Policy.Same else Policy.Changed))
          case _ => None,
          None,
          if Replaces(c, s, e) && Starts(e.message) then Some(Policy.EngineUp(e.now)) else None)
  }

  function LiveCall(c: Config, s: State, e: Event): Option<Live.Event> {
    match e.message
    case Stamped(stamp) => Some(Live.Stamped(e.now, stamp))
    case WatchdogTick(_, _) => if Releases(c, s, e) || GivesUp(c, s, e) then None else Some(Live.Evaluated(e.now))
    case _ => None
  }

  // --- Every message follows the rule ------------------------------------------------------

  /** The engine after the message's own business. */
  function EngineTold(s: State, m: Message): Engine {
    var x := s.engine;
    Engine(x.up && !m.Close?, x.epoch, x.startedMs, x.mainSeen || m.MainStarting?,
           x.startupComplete || m == StartupDone(x.epoch), x.probeArmed && !m.FramePresented? && !m.Close?)
  }

  /** The state after the message's own business. */
  function Told(c: Config, s: State, e: Event): State {
    State(EngineTold(s, e.message),
          Gated(c.gate, s.gate, GateCalls(c, s, e).first),
          Watched(c.dog, s.dog, DogCalls(c, s, e).first),
          Decided(c.policy, s.policy, PolicyCalls(c, s, e).first),
          Heard(c.live, s.live, LiveCall(c, s, e)))
  }

  function WishFor(c: Config, s: State, e: Event): Wish {
    var wanted := Wanted(c, s, e);
    Wish(DogCall(c, s, e), Reason(c, s, e), Replaces(c, s, e),
         wanted.Some? && wanted.value.exitProcess, wanted.Some? && wanted.value.startProbe)
  }

  /** Where a message leads. */
  function After(c: Config, s: State, e: Event): State {
    Onward(c, Told(c, s, e), WishFor(c, s, e), e.now, Starts(e.message))
  }

  lemma DueFollows(c: Config, s: State, e: Event)
    requires Agree(c, s, e.now) && e.message.RebuildDue?
    ensures Step(c, s, e) == (After(c, s, e), Ruled(c, s, e))
  {
    hide AfterPoll, Onward, Gate.Step;
    PollIsRuled(c, s, e.now, e.message.starts);
  }

  /** Nothing is wished for. */
  lemma WishForNothing(c: Config, s: State, w: Wish, now: nat, starts: bool)
    requires w.reason == None && !w.replaced && !w.exits && !w.probes && Watched(c.dog, s.dog, w.call) == s.dog
    ensures Onward(c, s, w, now, starts) == s
  {
    hide DogRuns.Step;
  }

  lemma ToldFollows(c: Config, s: State, e: Event)
    requires e.message.MainStarting? || e.message.StartupDone?
    ensures Step(c, s, e) == (Told(c, s, e), QUIET)
  {
  }

  lemma LastWordFollows(c: Config, s: State, e: Event)
    requires e.message.Stamped? || e.message.Disarm? || e.message.Close?
    ensures Step(c, s, e) == (Told(c, s, e), QUIET)
  {
  }

  /** What comes over the runner channel, and the end of the window. */
  lemma QuietFollows(c: Config, s: State, e: Event)
    requires var m := e.message; m.MainStarting? || m.StartupDone? || m.Stamped? || m.Disarm? || m.Close?
    ensures Step(c, s, e) == (After(c, s, e), Ruled(c, s, e))
  {
    hide Step, Told, Onward;
    if e.message.MainStarting? || e.message.StartupDone? { ToldFollows(c, s, e); } else { LastWordFollows(c, s, e); }
    WishForNothing(c, Told(c, s, e), WishFor(c, s, e), e.now, Starts(e.message));
  }

  /** A watchdog that is off hears nothing. */
  lemma DeafOnceOff(c: Dog.Config, s: Dog.State, call: DogRuns.Event)
    requires call.Lost? || call.Tick? || call.Hint? || call.Frame?
    ensures s.disabled ==> DogRuns.Step(c, s, call).state == s
  {
  }

  /** Messages that have no business of their own. */
  lemma NothingTold(c: Config, s: State, e: Event)
    requires e.message.RasterLoss? || e.message.EglStorm? || e.message.PowerResume? || e.message.DisplayChange?
    ensures Told(c, s, e) == s && Found(c, s, e) == s.dog
  {
  }

  lemma LossFollows(c: Config, s: State, e: Event)
    requires Agree(c, s, e.now) && (e.message.RasterLoss? || e.message.EglStorm?)
    ensures Step(c, s, e) == (After(c, s, e), Ruled(c, s, e))
  {
    hide AfterDispatch, Told, Onward, Found, Answer, MayEnd, DogRuns.Step;
    var cause := if e.message.RasterLoss? then Dog.RasterFailed else Dog.ContextLost;
    NothingTold(c, s, e);
    DispatchIsRuled(c, s, Lost(cause), e.now, e.message.starts);
    DeafOnceOff(c.dog, s.dog, DogRuns.Lost(e.now, cause));
    if s.dog.disabled { WishForNothing(c, s, WishFor(c, s, e), e.now, e.message.starts); }
    if !InCharge(c, s) { WishForNothing(c, s, WishFor(c, s, e), e.now, e.message.starts); }
  }

  /** Hints and frames never restart the engine and never end the process; a frame asks for no probe either. */
  lemma MildCalls(c: Dog.Config, s: Dog.State, call: DogRuns.Event)
    requires call.Hint? || call.Frame?
    ensures var a := DogRuns.Step(c, s, call).action;
      !a.restartEngine && !a.exitProcess && (call.Frame? || s.disabled ==> !a.startProbe)
  {
  }

  function HintWish(s: State, now: nat, reason: Option<string>, replaced: bool): Wish {
    Wish(Some(DogRuns.Hint(now)), reason, replaced, false, !s.dog.disabled)
  }

  lemma HintIsRuled(c: Config, s: State, now: nat)
    requires Agree(c, s, now) && InCharge(c, s)
    ensures var hinted := OnHint(c, s, now);
      && hinted == Onward(c, s, HintWish(s, now, None, false), now, false)
      && Agree(c, hinted, now) && InCharge(c, hinted) && Answer(c, hinted, now) == Answer(c, s, now)
  {
    HintChangesNothingElse(c, s, now);
    hide AfterDispatch, Onward, DogRuns.Step;
    DispatchIsRuled(c, s, Hint, now, false);
    MildCalls(c.dog, s.dog, DogRuns.Hint(now));
    DeafOnceOff(c.dog, s.dog, DogRuns.Hint(now));
    HintAsks(c.dog, s.dog, now);
    if s.dog.disabled { WishForNothing(c, s, HintWish(s, now, None, false), now, false); }
  }

  lemma HintAsks(c: Dog.Config, s: Dog.State, now: nat)
    ensures DogRuns.Step(c, s, DogRuns.Hint(now)).action.startProbe == !s.disabled
  {
  }

  /** A hint, and then a request: carried out together. */
  lemma HintComesFirst(c: Config, s: State, now: nat, reason: Option<string>, replaced: bool, starts: bool)
    ensures Onward(c, Onward(c, s, HintWish(s, now, None, false), now, false),
                   Wish(None, reason, replaced, false, false), now, starts)
         == Onward(c, s, HintWish(s, now, reason, replaced), now, starts)
  {
    hide DogRuns.Step, Gate.Step, Policy.Step, Live.StateAt;
  }

  lemma DisplayFollows(c: Config, s: State, e: Event)
    requires Agree(c, s, e.now) && e.message.DisplayChange?
    ensures Step(c, s, e) == (After(c, s, e), Ruled(c, s, e))
  {
    hide Told, Onward, Found, OnHint, DogRuns.Step;
    NothingTold(c, s, e);
    MildCalls(c.dog, s.dog, DogRuns.Hint(e.now));
    HintAsks(c.dog, s.dog, e.now);
    if InCharge(c, s) {
      HintIsRuled(c, s, e.now);
    } else {
      WishForNothing(c, s, WishFor(c, s, e), e.now, false);
    }
  }

  lemma ResumeFollows(c: Config, s: State, e: Event)
    requires Agree(c, s, e.now) && e.message.PowerResume?
    ensures Step(c, s, e) == (After(c, s, e), Ruled(c, s, e))
  {
    hide Told, Onward, Found, OnHint, DogRuns.Step, AfterRequest, Answer;
    NothingTold(c, s, e);
    MildCalls(c.dog, s.dog, DogRuns.Hint(e.now));
    HintAsks(c.dog, s.dog, e.now);
    if InCharge(c, s) {
      HintIsRuled(c, s, e.now);
      RequestIsRuled(c, OnHint(c, s, e.now), "power resume", e.now, e.message.starts);
      HintComesFirst(c, s, e.now, Some("power resume"), Replaces(c, s, e), e.message.starts);
      HintChangesNothingElse(c, s, e.now);
    } else {
      WishForNothing(c, s, WishFor(c, s, e), e.now, e.message.starts);
    }
  }

  /** The policy is not concerned as long as the engine stays. */
  lemma PolicyStandsApart(c: Config, s: State, policy: Policy.State, w: Wish, now: nat, starts: bool)
    requires !w.replaced
    ensures WithPolicy(Onward(c, s, w, now, starts), policy) == Onward(c, WithPolicy(s, policy), w, now, starts)
  {
    hide DogRuns.Step, Gate.Step;
  }

  lemma FrameIsTold(c: Config, s: State, e: Event)
    requires e.message.FramePresented?
    ensures var told, x := Told(c, s, e), s.engine;
      told == State(Engine(x.up, x.epoch, x.startedMs, x.mainSeen, x.startupComplete, false), s.gate, s.dog,
                    Policy.Step(c.policy, s.policy, Policy.Frame(e.now)).0, s.live)
    ensures Found(c, s, e) == s.dog
  {
    hide Policy.Step;
  }

  lemma FrameBranches(c: Config, s: State, now: nat)
    ensures var x := s.engine;
      var consumed := WithEngine(s, Engine(x.up, x.epoch, x.startedMs, x.mainSeen, x.startupComplete, false));
      var (drawn, f) := AfterDispatch(c, consumed, Frame, now, false);
      && OnFrame(c, s, now) == (WithPolicy(drawn, Policy.Step(c.policy, drawn.policy, Policy.Frame(now)).0), f)
      && drawn.policy == s.policy
  {
    hide AfterRequest;
  }

  /** A frame frees the probe; the policy hears of it last. */
  lemma FrameFollows(c: Config, s: State, e: Event)
    requires Agree(c, s, e.now) && e.message.FramePresented?
    ensures Step(c, s, e) == (After(c, s, e), Ruled(c, s, e))
  {
    hide Told, Onward, Found, OnFrame, AfterDispatch, DogRuns.Step, Policy.Step, Answer, MayEnd;
    var x := s.engine;
    var consumed := WithEngine(s, Engine(x.up, x.epoch, x.startedMs, x.mainSeen, x.startupComplete, false));
    FrameIsTold(c, s, e);
    FrameBranches(c, s, e.now);
    DispatchIsRuled(c, consumed, Frame, e.now, false);
    MildCalls(c.dog, s.dog, DogRuns.Frame(e.now));
    DeafOnceOff(c.dog, s.dog, DogRuns.Frame(e.now));
    var w := WishFor(c, s, e);
    PolicyStandsApart(c, consumed, Policy.Step(c.policy, s.policy, Policy.Frame(e.now)).0, w, e.now, false);
    if !c.watchdogEnabled || s.dog.disabled { WishForNothing(c, consumed, w, e.now, false); }
  }

  /** What the policy makes of a session change, and whether it asks for a rebuild. */
  lemma SessionIsDecided(c: Config, s: State, e: Event)
    requires e.message.Session? && InCharge(c, s)
    ensures var call := PolicyCalls(c, s, e).first;
      && (call == None ==> Reason(c, s, e) == None)
      && (call.Some? ==>
            var d := Policy.Step(c.policy, s.policy, call.value).1;
            Reason(c, s, e) == if d.verdict == Policy.RebuildNow then Some(d.reason) else None)
  {
    hide DogRuns.Step;
    MildCalls(c.dog, s.dog, DogRuns.Hint(e.now));
  }

  lemma SessionIsTold(c: Config, s: State, e: Event)
    requires e.message.Session?
    ensures Told(c, s, e) == WithPolicy(s, Decided(c.policy, s.policy, PolicyCalls(c, s, e).first))
    ensures Found(c, s, e) == s.dog
  {
    hide Policy.Step;
  }

  /** The branch of the session change, as calls to the policy. */
  lemma SessionBranches(c: Config, s: State, e: Event)
    requires e.message.Session? && InCharge(c, s)
    ensures var hinted, call := OnHint(c, s, e.now), PolicyCalls(c, s, e).first;
      OnSession(c, s, e.message.change, e.now, e.message.starts)
      == if call == None then (hinted, QUIET)
         else
           var (policy, d) := Policy.Step(c.policy, hinted.policy, call.value);
           AfterDecision(c, WithPolicy(hinted, policy), d, e.now, e.message.starts)
  {
    hide OnHint, AfterDecision;
  }

  /** A decision on a state the hint has been through, carried out together with it. */
  lemma DecisionFollowsHint(c: Config, s: State, policy: Policy.State, d: Policy.Decision, now: nat, starts: bool)
    requires Agree(c, s, now) && InCharge(c, s) && (d.verdict == Policy.RebuildNow ==> !policy.probation)
    ensures var (t, f) := AfterDecision(c, WithPolicy(OnHint(c, s, now), policy), d, now, starts);
      var asks := d.verdict == Policy.RebuildNow;
      var replaced := asks && Answer(c, s, now) == Gate.RebuildNow;
      && t == Onward(c, WithPolicy(s, policy), HintWish(s, now, if asks then Some(d.reason) else None, replaced),
                     now, starts)
      && f == Effect(EndedIf(s, replaced), if asks then Some(Answer(c, s, now)) else None, None, false)
  {
    hide OnHint, Onward, AfterRequest, MayEnd;
    HintIsRuled(c, s, now);
    HintChangesNothingElse(c, s, now);
    PolicyStandsApart(c, s, policy, HintWish(s, now, None, false), now, false);
    var asked := WithPolicy(OnHint(c, s, now), policy);
    if d.verdict == Policy.RebuildNow {
      RequestIsRuled(c, asked, d.reason, now, starts);
      HintComesFirst(c, WithPolicy(s, policy), now, Some(d.reason), Answer(c, s, now) == Gate.RebuildNow, starts);
    } else {
      WishForNothing(c, asked, Wish(None, None, false, false, false), now, starts);
      HintComesFirst(c, WithPolicy(s, policy), now, None, false, starts);
    }
  }

  lemma SessionFollows(c: Config, s: State, e: Event)
    requires Agree(c, s, e.now) && e.message.Session?
    ensures Step(c, s, e) == (After(c, s, e), Ruled(c, s, e))
  {
    hide Told, Onward, Found, OnSession, OnHint, DogRuns.Step, AfterDecision, Policy.Step, PolicyCalls, Reason, Answer;
    SessionIsTold(c, s, e);
    MildCalls(c.dog, s.dog, DogRuns.Hint(e.now));
    HintAsks(c.dog, s.dog, e.now);
    if InCharge(c, s) {
      SessionIsDecided(c, s, e);
      SessionBranches(c, s, e);
      var call := PolicyCalls(c, s, e).first;
      HintChangesNothingElse(c, s, e.now);
      if call == None {
        DecisionFollowsHint(c, s, s.policy, Policy.NOTHING, e.now, e.message.starts);
        NoDecision(c, WithPolicy(OnHint(c, s, e.now), s.policy), e.now, e.message.starts);
      } else {
        var (policy, d) := Policy.Step(c.policy, s.policy, call.value);
        RebuildsSettle(c.policy, s.policy, call.value);
        DecisionFollowsHint(c, s, policy, d, e.now, e.message.starts);
      }
    } else {
      OutOfCharge(c, s, e);
      WishForNothing(c, s, WishFor(c, s, e), e.now, e.message.starts);
    }
  }

  lemma NoDecision(c: Config, s: State, now: nat, starts: bool)
    ensures AfterDecision(c, s, Policy.NOTHING, now, starts) == (s, QUIET)
  {
  }

  /** A rebuild the policy asks for leaves no probation. */
  lemma RebuildsSettle(c: Policy.Config, s: Policy.State, e: Policy.Event)
    ensures Policy.Step(c, s, e).1.verdict == Policy.RebuildNow ==> !Policy.Step(c, s, e).0.probation
  {
  }

  lemma OutOfCharge(c: Config, s: State, e: Event)
    requires e.message.Session? && !InCharge(c, s)
    ensures PolicyCalls(c, s, e).first == None && Reason(c, s, e) == None
    ensures Step(c, s, e) == (s, QUIET)
  {
  }

  // --- The tick ----------------------------------------------------------------------------

  function Consumed(c: Config, s: State, now: nat): State {
    WithDog(s, DogRuns.Step(c.dog, s.dog, DogRuns.Consume(now)).state)
  }

  /** The deadline of a probation, as the policy sees it. */
  lemma DeadlineIsDecided(c: Config, s: State, now: nat)
    requires Agree(c, s, now)
    ensures var d := Policy.Step(c.policy, s.policy, Policy.Tick(now)).1;
      && (d.verdict == Policy.RebuildNow
          <==> s.policy.probation && now >= s.policy.probationSinceMs + c.policy.reconnectProbationMs)
      && (d.verdict == Policy.RebuildNow ==> d.reason == Policy.NO_FRAME)
  {
  }

  /** The branches of a tick, as calls to the machines. */
  lemma TickBranches(c: Config, s: State, e: Event)
    requires Agree(c, s, e.now) && e.message.WatchdogTick?
    ensures var removed, starts, consumed := e.message.removed, e.message.starts, Consumed(c, s, e.now);
      var (policy, d) := Policy.Step(c.policy, s.policy, Policy.Tick(e.now));
      var asked := WithPolicy(consumed, policy);
      OnTick(c, s, e.now, removed, starts)
      == if Releases(c, s, e) then
           var (t, ended, _) := AfterPoll(c, consumed, e.now, starts);
           (t, Effect(ended, None, None, false))
         else if GivesUp(c, s, e) then AfterRequest(c, asked, d.reason, e.now, starts)
         else
           AfterDispatch(c, WithLive(asked, Live.Step(c.live, s.live, Live.Evaluated(e.now)).0),
                         if removed then Lost(Dog.ContextLost) else Tick, e.now, starts)
  {
    hide AfterRequest, AfterDispatch, AfterPoll;
    PollIsRuled(c, Consumed(c, s, e.now), e.now, e.message.starts);
    DeadlineIsDecided(c, s, e.now);
  }

  lemma TickIsTold(c: Config, s: State, e: Event)
    requires Agree(c, s, e.now) && e.message.WatchdogTick?
    ensures var told, polled := Told(c, s, e), Gate.Step(c.gate, s.gate, Gate.Polled(e.now)).0;
      && told == State(s.engine, polled, Consumed(c, s, e.now).dog,
                       if Releases(c, s, e) then s.policy else Policy.Step(c.policy, s.policy, Policy.Tick(e.now)).0,
                       if Releases(c, s, e) || GivesUp(c, s, e) then s.live
                       else Live.Step(c.live, s.live, Live.Evaluated(e.now)).0)
      && (!Releases(c, s, e) ==> polled == s.gate)
      && Found(c, s, e) == told.dog && told.dog.disabled == s.dog.disabled
  {
    hide Live.Step, Policy.Step;
  }

  lemma ReleaseFollows(c: Config, s: State, e: Event)
    requires Agree(c, s, e.now) && e.message.WatchdogTick? && Releases(c, s, e)
    ensures Step(c, s, e) == (After(c, s, e), Ruled(c, s, e))
  {
    hide Told, Onward, Found, OnTick, AfterPoll, DogRuns.Step, Gate.Step, Policy.Step, Live.Step, Answer, MayEnd;
    TickIsTold(c, s, e);
    TickBranches(c, s, e);
    PollIsRuled(c, Consumed(c, s, e.now), e.now, e.message.starts);
  }

  lemma DeadlineFollows(c: Config, s: State, e: Event)
    requires Agree(c, s, e.now) && e.message.WatchdogTick? && GivesUp(c, s, e)
    ensures Step(c, s, e) == (After(c, s, e), Ruled(c, s, e))
  {
    hide Told, Onward, Found, OnTick, AfterRequest, DogRuns.Step, Policy.Step, Live.Step, MayEnd;
    TickIsTold(c, s, e);
    TickBranches(c, s, e);
    DeadlineIsDecided(c, s, e.now);
    var asked := WithPolicy(Consumed(c, s, e.now), Policy.Step(c.policy, s.policy, Policy.Tick(e.now)).0);
    RebuildsSettle(c.policy, s.policy, Policy.Tick(e.now));
    RequestIsRuled(c, asked, Policy.NO_FRAME, e.now, e.message.starts);
    if !InCharge(c, s) { WishForNothing(c, asked, WishFor(c, s, e), e.now, e.message.starts); }
  }

  lemma JudgementFollows(c: Config, s: State, e: Event)
    requires Agree(c, s, e.now) && e.message.WatchdogTick? && !Releases(c, s, e) && !GivesUp(c, s, e)
    ensures Step(c, s, e) == (After(c, s, e), Ruled(c, s, e))
  {
    hide Told, Onward, Found, OnTick, AfterDispatch, DogRuns.Step, Policy.Step, Live.Step, Releases, GivesUp, MayEnd;
    var told, starts := Told(c, s, e), e.message.starts;
    TickIsTold(c, s, e);
    TickBranches(c, s, e);
    var call := if e.message.removed then Lost(Dog.ContextLost) else Tick;
    AgreesOnceTold(c, s, e);
    DispatchIsRuled(c, told, call, e.now, starts);
    DeafOnceOff(c.dog, told.dog, AsCall(call, e.now));
    if !c.watchdogEnabled || s.dog.disabled { WishForNothing(c, told, WishFor(c, s, e), e.now, starts); }
  }

  lemma AgreesOnceTold(c: Config, s: State, e: Event)
    requires Agree(c, s, e.now) && e.message.WatchdogTick? && !Releases(c, s, e)
    ensures Agree(c, Told(c, s, e), e.now)
  {
    hide DogRuns.Step, Live.Step;
  }

  /** Every message leads where the rule says, and does what the rule says. */
  lemma StepIsRuled(c: Config, s: State, e: Event)
    requires Agree(c, s, e.now)
    ensures Step(c, s, e) == (After(c, s, e), Ruled(c, s, e))
  {
    hide Step, After, Ruled, Agree, Releases, GivesUp;
    match e.message
    case WatchdogTick(_, _) =>
      if Releases(c, s, e) { ReleaseFollows(c, s, e); }
      else if GivesUp(c, s, e) { DeadlineFollows(c, s, e); }
      else { JudgementFollows(c, s, e); }
    case RebuildDue(_) => DueFollows(c, s, e);
    case RasterLoss(_) => LossFollows(c, s, e);
    case EglStorm(_) => LossFollows(c, s, e);
    case PowerResume(_) => ResumeFollows(c, s, e);
    case DisplayChange => DisplayFollows(c, s, e);
    case Session(_, _) => SessionFollows(c, s, e);
    case FramePresented => FrameFollows(c, s, e);
    case _ => QuietFollows(c, s, e);
  }
}
