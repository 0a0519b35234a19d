// Is the UI isolate alive, and can it rasterise, from the stamps it sends
// (centroid-hmi/windows/runner/dart_liveness.cpp).

module DartLiveness {
  import opened Prelude

  datatype Config = Config(
    silentAfterMs: nat,
    repeatMs: nat,
    startupGraceMs: nat,
    rasterFailuresBeforeLoss: int)

  datatype Stamp = Stamp(
    epoch: int,
    uptimeMs: nat,
    ticks: nat,
    frames: nat,
    lagMs: nat,
    startupComplete: bool,
    rasterProbed: bool,
    rasterOk: bool)

  const NO_STAMP := Stamp(-1, 0, 0, 0, 0, false, false, false)

  datatype Verdict = NothingToSay | FirstStamp | Silent | StillSilent | Recovered | NeverArrived

  datatype Decision = Decision(
    verdict: Verdict,
    silenceMs: nat,
    last: Stamp,
    everStamped: bool,
    rasterLost: bool,
    rasterRecovered: bool,
    rasterFailures: nat)

  const NOTHING := Decision(NothingToSay, 0, NO_STAMP, false, false, false, 0)

  /** The silence machinery's half of the state. */
  datatype Watch = Watch(
    watching: bool,
    epoch: int,
    epochStartedMs: nat,
    lastStampMs: nat,
    lastReportMs: nat,
    everStamped: bool,
    silent: bool,
    last: Stamp)

  /** The raster verdict's half. */
  datatype Raster = Raster(failures: nat, lost: bool)

  datatype State = State(watch: Watch, raster: Raster)

  const FRESH := State(Watch(false, -1, 0, 0, 0, false, false, NO_STAMP), Raster(0, false))

  // --- What each call does to the state -----------------------------------------

  function AfterEpochStarted(epoch: int, now: nat): State {
    State(Watch(true, epoch, now, 0, 0, false, false, NO_STAMP), Raster(0, false))
  }

  function Silence(w: Watch, now: nat): nat {
    Elapsed(if w.everStamped then w.lastStampMs else w.epochStartedMs, now)
  }

  function Snapshot(s: State, verdict: Verdict, now: nat): Decision {
    Decision(verdict, Silence(s.watch, now), s.watch.last, s.watch.everStamped, false, false, s.raster.failures)
  }

  /** A stamp of a generation that is known not to be the watched one. */
  predicate Foreign(w: Watch, stamp: Stamp) {
    stamp.epoch >= 0 && w.epoch >= 0 && stamp.epoch != w.epoch
  }

  function RasterAfter(c: Config, r: Raster, stamp: Stamp): Raster {
    if !stamp.rasterProbed then r
    else if stamp.rasterOk then Raster(0, false)
    else
      var failures := r.failures + 1;
      Raster(failures, r.lost || (c.rasterFailuresBeforeLoss > 0 && failures >= c.rasterFailuresBeforeLoss))
  }

  function AfterStamp(c: Config, s: State, stamp: Stamp, now: nat): (State, Decision) {
    if Foreign(s.watch, stamp) then
      (s, Decision(NothingToSay, Silence(s.watch, now), stamp, s.watch.everStamped, false, false, s.raster.failures))
    else
      var w := s.watch;
      var raster := RasterAfter(c, s.raster, stamp);
      (State(Watch(w.watching, w.epoch, w.epochStartedMs, now, 0, true, false, stamp), raster),
       Decision(if !w.everStamped then FirstStamp else if w.silent then Recovered else NothingToSay,
                Silence(w, now), stamp, true,
                raster.lost && !s.raster.lost,
                s.raster.lost && !raster.lost,
                raster.failures))
  }

  function WatchReported(w: Watch, now: nat): Watch {
    Watch(w.watching, w.epoch, w.epochStartedMs, w.lastStampMs, now, w.everStamped, true, w.last)
  }

  function AfterEvaluate(c: Config, s: State, now: nat): (State, Decision) {
    var w := s.watch;
    if !w.watching then (s, NOTHING)
    else if Silence(w, now) <= (if w.everStamped then c.silentAfterMs else c.startupGraceMs) then
      (s, Snapshot(s, NothingToSay, now))
    else if !w.silent then
      (State(WatchReported(w, now), s.raster), Snapshot(s, if w.everStamped then Silent else NeverArrived, now))
    else if now - w.lastReportMs >= c.repeatMs then
      (State(WatchReported(w, now), s.raster), Snapshot(s, StillSilent, now))
    else
      (s, Snapshot(s, NothingToSay, now))
  }

  // --- The machine ----------------------------------------------------------------

  class Liveness {
    const config: Config
    var watching: bool
    var epoch: int
    var epochStartedMs: nat
    var lastStampMs: nat
    var lastReportMs: nat
    var everStamped: bool
    var silent: bool
    var last: Stamp
    var rasterFailures: nat
    var rasterLost: bool

    function View(): State
      reads this
    {
      State(Watch(watching, epoch, epochStartedMs, lastStampMs, lastReportMs, everStamped, silent, last),
            Raster(rasterFailures, rasterLost))
    }

    constructor (config: Config)
      ensures this.config == config
      ensures View() == FRESH
    {
      this.config := config;
      watching, epoch, epochStartedMs := false, -1, 0;
      lastStampMs, lastReportMs, everStamped, silent, last := 0, 0, false, false, NO_STAMP;
      rasterFailures, rasterLost := 0, false;
    }

    method EpochStarted(epoch: int, now: nat)
      modifies this
      ensures View() == AfterEpochStarted(epoch, now)
    {
      this.epoch := epoch;
      watching := true;
      epochStartedMs := now;
      lastStampMs := 0;
      lastReportMs := 0;
      everStamped := false;
      silent := false;
      last := NO_STAMP;
      rasterFailures := 0;
      rasterLost := false;
    }

    method OnStamp(stamp: Stamp, now: nat) returns (d: Decision)
      modifies this
      ensures View() == AfterStamp(config, old(View()), stamp, now).0
      ensures d == AfterStamp(config, old(View()), stamp, now).1
    {
      hide RasterAfter;
      if stamp.epoch >= 0 && epoch >= 0 && stamp.epoch != epoch {
        return Snapshot(View(), NothingToSay, now).(last := stamp);
      }
      var verdict := if !everStamped then FirstStamp else if silent then Recovered else NothingToSay;
      var closedGap := Snapshot(View(), NothingToSay, now).silenceMs;

      last := stamp;
      lastStampMs := now;
      everStamped := true;
      silent := false;
      lastReportMs := 0;

      var lost, recovered := OnProbe(stamp);
      d := Decision(verdict, closedGap, stamp, true, lost, recovered, rasterFailures);
    }

    /** The raster half of `OnStamp`. */
    method OnProbe(stamp: Stamp) returns (lost: bool, recovered: bool)
      modifies this`rasterFailures, this`rasterLost
      ensures View().raster == RasterAfter(config, old(View()).raster, stamp)
      ensures lost == (rasterLost && !old(rasterLost))
      ensures recovered == (old(rasterLost) && !rasterLost)
    {
      lost, recovered := false, false;
      if stamp.rasterProbed {
        if stamp.rasterOk {
          recovered := rasterLost;
          rasterFailures := 0;
          rasterLost := false;
        } else {
          rasterFailures := rasterFailures + 1;
          if !rasterLost && config.rasterFailuresBeforeLoss > 0
             && rasterFailures >= config.rasterFailuresBeforeLoss {
            rasterLost := true;
            lost := true;
          }
        }
      }
    }

    method Evaluate(now: nat) returns (d: Decision)
      modifies this
      ensures View() == AfterEvaluate(config, old(View()), now).0
      ensures d == AfterEvaluate(config, old(View()), now).1
    {
      if !watching {
        return NOTHING;
      }
      var reference := if everStamped then lastStampMs else epochStartedMs;
      var threshold := if everStamped then config.silentAfterMs else config.startupGraceMs;
      var silence := if now > reference then now - reference else 0;
      if silence <= threshold {
        return Snapshot(View(), NothingToSay, now);
      }
      if !silent {
        silent := true;
        lastReportMs := now;
        return Snapshot(View(), if everStamped then Silent else NeverArrived, now);
      }
      if now - lastReportMs >= config.repeatMs {
        lastReportMs := now;
        return Snapshot(View(), StillSilent, now);
      }
      return Snapshot(View(), NothingToSay, now);
    }
  }

  // --- One epoch --------------------------------------------------------------------

  datatype Event = Stamped(now: nat, stamp: Stamp) | Evaluated(now: nat)

  /** The run of one engine generation: it starts at `startMs`, then its events follow. */
  datatype Epoch = Epoch(number: int, startMs: nat, events: seq<Event>)

  ghost predicate Ordered(e: Epoch) {
    && (forall i :: 0 <= i < |e.events| ==> e.startMs <= e.events[i].now)
    && (forall i, j :: 0 <= i < j < |e.events| ==> e.events[i].now <= e.events[j].now)
  }

  function Step(c: Config, s: State, e: Event): (State, Decision) {
    match e
    case Stamped(now, stamp) => AfterStamp(c, s, stamp, now)
    case Evaluated(now) => AfterEvaluate(c, s, now)
  }

  function StateAt(c: Config, e: Epoch, n: nat): State
    requires n <= |e.events|
  {
    if n == 0 then AfterEpochStarted(e.number, e.startMs)
    else Step(c, StateAt(c, e, n - 1), e.events[n - 1]).0
  }

  function DecisionAt(c: Config, e: Epoch, i: nat): Decision
    requires i < |e.events|
  {
    Step(c, StateAt(c, e, i), e.events[i]).1
  }

  // --- The grammar of an epoch's verdicts -----------------------------------------------

  /** The verdicts that say something, in order. */
  function Said(c: Config, e: Epoch, n: nat): seq<Verdict>
    requires n <= |e.events|
  {
    if n == 0 then []
    else
      var v := DecisionAt(c, e, n - 1).verdict;
      Said(c, e, n - 1) + if v == NothingToSay then [] else [v]
  }

  ghost predicate AllStill(vs: seq<Verdict>) {
    forall i :: 0 <= i < |vs| ==> vs[i] == StillSilent
  }

  /** (NeverArrived StillSilent*)? */
  ghost predicate Unborn(vs: seq<Verdict>) {
    vs == [] || exists still :: AllStill(still) && vs == [NeverArrived] + still
  }

  /** Silent StillSilent* Recovered */
  ghost predicate OneSilence(vs: seq<Verdict>) {
    exists still :: AllStill(still) && vs == [Silent] + still + [Recovered]
  }

  /** Silences one after the other. */
  ghost predicate Silences(vs: seq<Verdict>)
    decreases |vs|
  {
    vs == [] || exists xs, ys :: |xs| < |vs| && Silences(xs) && OneSilence(ys) && vs == xs + ys
  }

  /** Unborn FirstStamp Silences */
  ghost predicate Alive(vs: seq<Verdict>) {
    exists head, xs :: Unborn(head) && Silences(xs) && vs == head + [FirstStamp] + xs
  }

  /** Alive Silent StillSilent*: a silence that has not ended. */
  ghost predicate Mute(vs: seq<Verdict>) {
    exists us, still :: Alive(us) && AllStill(still) && vs == us + [Silent] + still
  }

  lemma StaysUnborn(vs: seq<Verdict>)
    requires vs != [] && Unborn(vs)
    ensures Unborn(vs + [StillSilent])
  {
    var still :| AllStill(still) && vs == [NeverArrived] + still;
    assert AllStill(still + [StillSilent]);
    assert vs + [StillSilent] == [NeverArrived] + (still + [StillSilent]);
  }

  lemma AliveOnceStamped(vs: seq<Verdict>)
    requires Unborn(vs)
    ensures Alive(vs + [FirstStamp])
  {
    assert Silences([]);
    assert vs + [FirstStamp] == vs + [FirstStamp] + [];
  }

  lemma MuteOnceSilent(vs: seq<Verdict>)
    requires Alive(vs)
    ensures Mute(vs + [Silent])
  {
    assert AllStill([]);
    assert vs + [Silent] == vs + [Silent] + [];
  }

  lemma StaysMute(vs: seq<Verdict>)
    requires Mute(vs)
    ensures Mute(vs + [StillSilent])
  {
    var us, still :| Alive(us) && AllStill(still) && vs == us + [Silent] + still;
    assert AllStill(still + [StillSilent]);
    assert vs + [StillSilent] == us + [Silent] + (still + [StillSilent]);
  }

  lemma OneMoreSilence(xs: seq<Verdict>, still: seq<Verdict>)
    requires Silences(xs) && AllStill(still)
    ensures Silences(xs + ([Silent] + still + [Recovered]))
  {
    hide AllStill;
    assert OneSilence([Silent] + still + [Recovered]);
  }

  lemma AnotherSilence(us: seq<Verdict>, still: seq<Verdict>)
    requires Alive(us) && AllStill(still)
    ensures Alive(us + ([Silent] + still + [Recovered]))
  {
    var head, xs :| Unborn(head) && Silences(xs) && us == head + [FirstStamp] + xs;
    OneMoreSilence(xs, still);
    hide Silences, Unborn, AllStill;
    Associative(head + [FirstStamp], xs, [Silent] + still + [Recovered]);
  }

  lemma AliveOnceRecovered(vs: seq<Verdict>)
    requires Mute(vs)
    ensures Alive(vs + [Recovered])
  {
    var us, still :| Alive(us) && AllStill(still) && vs == us + [Silent] + still;
    AnotherSilence(us, still);
    assert vs + [Recovered] == us + ([Silent] + still + [Recovered]);
  }

  /** Which flags a verdict takes an epoch from, and to. */
  lemma StepVerdict(c: Config, s: State, e: Event)
    requires s.watch.watching
    ensures var (t, d) := Step(c, s, e); var w, u := s.watch, t.watch;
      && u.watching
      && match d.verdict
         case NothingToSay => u.everStamped == w.everStamped && u.silent == w.silent
         case FirstStamp => !w.everStamped && u.everStamped && !u.silent
         case Silent => w.everStamped && !w.silent && u.everStamped && u.silent
         case Recovered => w.everStamped && w.silent && u.everStamped && !u.silent
         case NeverArrived => !w.everStamped && !w.silent && !u.everStamped && u.silent
         case StillSilent => w.silent && u.silent && u.everStamped == w.everStamped
  {
    match e
    case Stamped(_, _) =>
    case Evaluated(_) =>
  }

  /** What the flags say about the verdicts so far. */
  ghost predicate Stands(w: Watch, vs: seq<Verdict>) {
    match (w.everStamped, w.silent)
    case (false, false) => vs == []
    case (false, true) => vs != [] && Unborn(vs)
    case (true, false) => Alive(vs)
    case (true, true) => Mute(vs)
  }

  lemma StandsAfter(w: Watch, u: Watch, vs: seq<Verdict>, v: Verdict)
    requires Stands(w, vs)
    requires match v
      case NothingToSay => u.everStamped == w.everStamped && u.silent == w.silent
      case FirstStamp => !w.everStamped && u.everStamped && !u.silent
      case Silent => w.everStamped && !w.silent && u.everStamped && u.silent
      case Recovered => w.everStamped && w.silent && u.everStamped && !u.silent
      case NeverArrived => !w.everStamped && !w.silent && !u.everStamped && u.silent
      case StillSilent => w.silent && u.silent && u.everStamped == w.everStamped
    ensures Stands(u, vs + if v == NothingToSay then [] else [v])
  {
    match v
    case NothingToSay => assert vs + [] == vs;
    case FirstStamp => AliveOnceStamped(vs);
    case Silent => MuteOnceSilent(vs);
    case Recovered => AliveOnceRecovered(vs);
    case NeverArrived =>
      assert AllStill([]);
      assert vs + [v] == [NeverArrived] + [];
    case StillSilent =>
      if w.everStamped { StaysMute(vs); } else { StaysUnborn(vs); }
  }

  /**
   * The verdicts of one epoch always form a prefix of
   * (NeverArrived StillSilent*)? FirstStamp (Silent StillSilent* Recovered)*,
   * and the two flags say where in it the epoch stands.
   */
  lemma {:induction false} VerdictGrammar(c: Config, e: Epoch, n: nat)
    requires n <= |e.events|
    ensures StateAt(c, e, n).watch.watching
    ensures Stands(StateAt(c, e, n).watch, Said(c, e, n))
  {
    if n > 0 {
      VerdictGrammar(c, e, n - 1);
      var s := StateAt(c, e, n - 1);
      StepVerdict(c, s, e.events[n - 1]);
      StandsAfter(s.watch, StateAt(c, e, n).watch, Said(c, e, n - 1), DecisionAt(c, e, n - 1).verdict);
    }
  }

  // --- What the silence is measured from ------------------------------------------------

  /** When the watched generation was last heard, or started. */
  function LastHeard(e: Epoch, n: nat): nat
    requires n <= |e.events|
  {
    if n == 0 then e.startMs
    else if e.events[n - 1].Stamped? && !FromElsewhere(e.events[n - 1], e.number) then e.events[n - 1].now
    else LastHeard(e, n - 1)
  }

  ghost predicate EverHeard(e: Epoch, n: nat)
    requires n <= |e.events|
  {
    exists i :: 0 <= i < n && e.events[i].Stamped? && !FromElsewhere(e.events[i], e.number)
  }

  /** The generation's own stamps, and nothing else, move what the silence is measured from. */
  lemma StepHears(c: Config, s: State, e: Event)
    ensures var w, u := s.watch, Step(c, s, e).0.watch;
      && u.epochStartedMs == w.epochStartedMs
      && (if e.Stamped? && !FromElsewhere(e, w.epoch) then u.everStamped && u.lastStampMs == e.now
          else u.everStamped == w.everStamped && u.lastStampMs == w.lastStampMs)
  {
  }

  lemma HeardOnceMore(e: Epoch, n: nat)
    requires 0 < n <= |e.events|
    ensures EverHeard(e, n)
       <==> EverHeard(e, n - 1) || (e.events[n - 1].Stamped? && !FromElsewhere(e.events[n - 1], e.number))
  {
    hide FromElsewhere;
    if EverHeard(e, n - 1) {
      var i :| 0 <= i < n - 1 && e.events[i].Stamped? && !FromElsewhere(e.events[i], e.number);
      assert EverHeard(e, n);
    }
  }

  lemma {:induction false} ReferenceIsLastHeard(c: Config, e: Epoch, n: nat)
    requires Ordered(e) && n <= |e.events|
    ensures var w := StateAt(c, e, n).watch;
      && LastHeard(e, n) == (if w.everStamped then w.lastStampMs else w.epochStartedMs)
      && (w.everStamped <==> EverHeard(e, n))
    ensures LastHeard(e, n) == e.startMs || (n > 0 && LastHeard(e, n) <= e.events[n - 1].now)
  {
    hide Step, FromElsewhere;
    if n > 0 {
      hide EverHeard;
      ReferenceIsLastHeard(c, e, n - 1);
      EpochIsKept(c, e, n - 1);
      StepHears(c, StateAt(c, e, n - 1), e.events[n - 1]);
      HeardOnceMore(e, n);
    }
  }

  /**
   * Every decision carries the time since the generation was last heard or, if
   * it never was, since it started -- the gap a stamp closes included. An
   * evaluation opens a silence exactly when that time has passed the threshold
   * and no silence is open.
   */
  lemma SilenceIsMeasured(c: Config, e: Epoch, i: nat)
    requires Ordered(e) && i < |e.events|
    ensures DecisionAt(c, e, i).silenceMs == e.events[i].now - LastHeard(e, i)
    ensures var v := DecisionAt(c, e, i).verdict;
      var threshold := if EverHeard(e, i) then c.silentAfterMs else c.startupGraceMs;
      && (v == Silent || v == NeverArrived
          <==> e.events[i].Evaluated? && !StateAt(c, e, i).watch.silent && DecisionAt(c, e, i).silenceMs > threshold)
      && (Reports(v) ==> DecisionAt(c, e, i).silenceMs > threshold)
      && (v == NeverArrived ==> !EverHeard(e, i)) && (v == Silent ==> EverHeard(e, i))
  {
    ReferenceIsLastHeard(c, e, i);
    EpochIsKept(c, e, i);
    hide EverHeard, LastHeard;
  }

  // --- Reports are spaced ------------------------------------------------------------

  predicate Reports(v: Verdict) {
    v == Silent || v == NeverArrived || v == StillSilent
  }

  predicate EndsSilence(v: Verdict) {
    v == Recovered || v == FirstStamp
  }

  lemma StepRemembersReport(c: Config, s: State, e: Event)
    ensures var (t, d) := Step(c, s, e);
      && (Reports(d.verdict) ==> t.watch.silent && t.watch.lastReportMs == e.now)
      && (!Reports(d.verdict) && !EndsSilence(d.verdict) && s.watch.silent && s.watch.everStamped ==>
            t.watch.silent && t.watch.lastReportMs == s.watch.lastReportMs)
      && (!Reports(d.verdict) && !EndsSilence(d.verdict) && !s.watch.everStamped ==>
            t.watch.silent == s.watch.silent && t.watch.lastReportMs == s.watch.lastReportMs)
  {
  }

  lemma {:induction false} ReportIsRemembered(c: Config, e: Epoch, i: nat, n: nat)
    requires Ordered(e) && i < n <= |e.events|
    requires Reports(DecisionAt(c, e, i).verdict)
    requires forall k :: i < k < n ==> !EndsSilence(DecisionAt(c, e, k).verdict)
    ensures StateAt(c, e, n).watch.silent
    ensures StateAt(c, e, n).watch.lastReportMs >= e.events[i].now
  {
    hide Step, Reports, EndsSilence;
    StepRemembersReport(c, StateAt(c, e, n - 1), e.events[n - 1]);
    if n > i + 1 {
      ReportIsRemembered(c, e, i, n - 1);
      assert !EndsSilence(DecisionAt(c, e, n - 1).verdict);
    }
  }

  /** Two reports of one silence are at least `repeatMs` apart. */
  lemma ReportSpacing(c: Config, e: Epoch, i: nat, j: nat)
    requires Ordered(e) && i < j < |e.events|
    requires Reports(DecisionAt(c, e, i).verdict) && Reports(DecisionAt(c, e, j).verdict)
    requires forall k :: i < k < j ==> !EndsSilence(DecisionAt(c, e, k).verdict)
    ensures e.events[j].now - e.events[i].now >= c.repeatMs
  {
    ReportIsRemembered(c, e, i, j);
  }

  // --- Stamps of other generations ------------------------------------------------------

  predicate FromElsewhere(e: Event, number: int) {
    e.Stamped? && e.stamp.epoch >= 0 && number >= 0 && e.stamp.epoch != number
  }

  function Erased(events: seq<Event>, number: int): seq<Event> {
    if events == [] then []
    else
      var last := events[|events| - 1];
      Erased(events[..|events| - 1], number) + if FromElsewhere(last, number) then [] else [last]
  }

  /** An epoch without the stamps other generations sent into it. */
  function Purged(e: Epoch): Epoch {
    Epoch(e.number, e.startMs, Erased(e.events, e.number))
  }

  function Cut(e: Epoch, n: nat): Epoch
    requires n <= |e.events|
  {
    Epoch(e.number, e.startMs, e.events[..n])
  }

  lemma {:induction false} CutChangesNothing(c: Config, e: Epoch, n: nat, k: nat)
    requires k <= n <= |e.events|
    ensures StateAt(c, Cut(e, n), k) == StateAt(c, e, k)
  {
    if k > 0 { CutChangesNothing(c, e, n, k - 1); }
  }

  lemma {:induction false} EpochIsKept(c: Config, e: Epoch, n: nat)
    requires n <= |e.events|
    ensures StateAt(c, e, n).watch.epoch == e.number && StateAt(c, e, n).watch.watching
  {
    if n > 0 { EpochIsKept(c, e, n - 1); }
  }

  /** The decisions an epoch's own events get, in order. */
  function OwnDecisions(c: Config, e: Epoch, n: nat): seq<Decision>
    requires n <= |e.events|
  {
    if n == 0 then []
    else OwnDecisions(c, e, n - 1)
         + if FromElsewhere(e.events[n - 1], e.number) then [] else [DecisionAt(c, e, n - 1)]
  }

  lemma {:induction false} CutDecisions(c: Config, e: Epoch, n: nat, k: nat)
    requires k <= n <= |e.events|
    ensures OwnDecisions(c, Cut(e, n), k) == OwnDecisions(c, e, k)
  {
    hide Step, FromElsewhere;
    if k > 0 {
      CutDecisions(c, e, n, k - 1);
      CutChangesNothing(c, e, n, k - 1);
    }
  }

  /** One more event of the generation's own, on both sides. */
  lemma OwnEventCounts(c: Config, e: Epoch, p: Epoch, n: nat, m: nat)
    requires n < |e.events| && m < |p.events| && e.number == p.number
    requires e.events[n] == p.events[m] && !FromElsewhere(e.events[n], e.number)
    requires StateAt(c, p, m) == StateAt(c, e, n)
    requires OwnDecisions(c, p, m) == OwnDecisions(c, e, n)
    ensures StateAt(c, p, m + 1) == StateAt(c, e, n + 1)
    ensures OwnDecisions(c, p, m + 1) == OwnDecisions(c, e, n + 1)
  {
  }

  lemma ForeignStampIsSkipped(c: Config, e: Epoch, n: nat)
    requires n < |e.events| && FromElsewhere(e.events[n], e.number)
    ensures StateAt(c, e, n + 1) == StateAt(c, e, n)
    ensures OwnDecisions(c, e, n + 1) == OwnDecisions(c, e, n)
  {
    EpochIsKept(c, e, n);
  }

  /**
   * Erasing every stamp of a foreign generation changes no other decision and
   * not the state: a torn-down engine cannot make the live one look alive.
   */
  lemma {:induction false} ForeignStampsAreInvisible(c: Config, e: Epoch)
    ensures StateAt(c, Purged(e), |Purged(e).events|) == StateAt(c, e, |e.events|)
    ensures OwnDecisions(c, Purged(e), |Purged(e).events|) == OwnDecisions(c, e, |e.events|)
    decreases |e.events|
  {
    hide Step, FromElsewhere;
    if e.events != [] {
      var n := |e.events| - 1;
      var shorter, p := Cut(e, n), Purged(e);
      ForeignStampsAreInvisible(c, shorter);
      CutChangesNothing(c, e, n, n);
      CutDecisions(c, e, n, n);
      if FromElsewhere(e.events[n], e.number) {
        assert p == Purged(shorter);
        ForeignStampIsSkipped(c, e, n);
      } else {
        var m := |Purged(shorter).events|;
        assert Cut(p, m) == Purged(shorter);
        CutChangesNothing(c, p, m, m);
        CutDecisions(c, p, m, m);
        OwnEventCounts(c, e, p, n, m);
      }
    }
  }

  // --- The raster verdict -------------------------------------------------------------

  /** The failed probes that end the first `n` events, stamps without a probe left out. */
  function FailureRun(e: Epoch, n: nat): nat
    requires n <= |e.events|
  {
    if n == 0 then 0
    else
      var last := e.events[n - 1];
      if !last.Stamped? || FromElsewhere(last, e.number) || !last.stamp.rasterProbed then FailureRun(e, n - 1)
      else if last.stamp.rasterOk then 0
      else FailureRun(e, n - 1) + 1
  }

  lemma {:induction false} RasterCountsFailures(c: Config, e: Epoch, n: nat)
    requires n <= |e.events|
    ensures StateAt(c, e, n).raster.failures == FailureRun(e, n)
    ensures StateAt(c, e, n).raster.lost
       <==> c.rasterFailuresBeforeLoss > 0 && FailureRun(e, n) >= c.rasterFailuresBeforeLoss
  {
    if n > 0 {
      RasterCountsFailures(c, e, n - 1);
      EpochIsKept(c, e, n - 1);
    }
  }

  /** The raster loss is raised by exactly the stamp that first brings the run to the threshold. */
  lemma RasterLostAtThreshold(c: Config, e: Epoch, i: nat)
    requires i < |e.events|
    ensures DecisionAt(c, e, i).rasterLost
       <==> c.rasterFailuresBeforeLoss > 0
            && FailureRun(e, i) < c.rasterFailuresBeforeLoss == FailureRun(e, i + 1)
    ensures DecisionAt(c, e, i).rasterRecovered
       <==> c.rasterFailuresBeforeLoss > 0
            && FailureRun(e, i) >= c.rasterFailuresBeforeLoss && FailureRun(e, i + 1) == 0
  {
    RasterCountsFailures(c, e, i);
    RasterCountsFailures(c, e, i + 1);
    EpochIsKept(c, e, i);
  }

  // --- The rule a decision is made by ----------------------------------------------------

  /** When the open silence was last reported; a stamp of the generation closes it. */
  function LastReport(c: Config, e: Epoch, n: nat): Option<nat>
    requires n <= |e.events|
  {
    if n == 0 then None
    else
      var event := e.events[n - 1];
      if event.Stamped? then if FromElsewhere(event, e.number) then LastReport(c, e, n - 1) else None
      else if Reports(DecisionAt(c, e, n - 1).verdict) then Some(event.now)
      else LastReport(c, e, n - 1)
  }

  /** The generation's last stamp. */
  function LastStamp(e: Epoch, n: nat): Stamp
    requires n <= |e.events|
  {
    if n == 0 then Stamp(-1, 0, 0, 0, 0, false, false, false)
    else if e.events[n - 1].Stamped? && !FromElsewhere(e.events[n - 1], e.number) then e.events[n - 1].stamp
    else LastStamp(e, n - 1)
  }

  lemma StepReports(c: Config, s: State, e: Event)
    requires s.watch.watching
    ensures var (t, d) := Step(c, s, e);
      var w, u, own := s.watch, t.watch, e.Stamped? && !FromElsewhere(e, s.watch.epoch);
      && u.last == (if own then e.stamp else w.last)
      && u.silent == (!own && (w.silent || (e.Evaluated? && Reports(d.verdict))))
      && (u.silent ==> u.lastReportMs == if e.Evaluated? && Reports(d.verdict) then e.now else w.lastReportMs)
  {
  }

  lemma {:induction false} FieldsAreTold(c: Config, e: Epoch, n: nat)
    requires Ordered(e) && n <= |e.events|
    ensures var w := StateAt(c, e, n).watch;
      && w.last == LastStamp(e, n)
      && LastReport(c, e, n) == (if w.silent then Some(w.lastReportMs) else None)
      && (w.silent ==> n > 0 && w.lastReportMs <= e.events[n - 1].now)
  {
    hide Step, FromElsewhere, Reports;
    if n > 0 {
      FieldsAreTold(c, e, n - 1);
      EpochIsKept(c, e, n - 1);
      StepReports(c, StateAt(c, e, n - 1), e.events[n - 1]);
    }
  }

  /**
   * An evaluation reports a silence past its threshold when it has not been
   * reported yet, and again whenever `repeatMs` have gone by since -- so a
   * lasting silence is repeated as long as it is evaluated -- and says nothing
   * otherwise.
   */
  lemma EvaluationsFollowTheRule(c: Config, e: Epoch, i: nat)
    requires Ordered(e) && i < |e.events| && e.events[i].Evaluated?
    ensures var now, d, reported := e.events[i].now, DecisionAt(c, e, i), LastReport(c, e, i);
      var silent := now - LastHeard(e, i) > if EverHeard(e, i) then c.silentAfterMs else c.startupGraceMs;
      && (d.verdict == Silent <==> silent && reported == None && EverHeard(e, i))
      && (d.verdict == NeverArrived <==> silent && reported == None && !EverHeard(e, i))
      && (d.verdict == StillSilent <==> silent && reported.Some? && now - reported.value >= c.repeatMs)
      && d.verdict != FirstStamp && d.verdict != Recovered
      && d.last == LastStamp(e, i) && d.everStamped == EverHeard(e, i)
      && d.rasterFailures == FailureRun(e, i)
  {
    FieldsAreTold(c, e, i);
    ReferenceIsLastHeard(c, e, i);
    RasterCountsFailures(c, e, i);
    EpochIsKept(c, e, i);
    hide EverHeard, LastHeard, FailureRun, LastReport, LastStamp, StateAt;
  }

  /** A stamp is news if it is the first one, or if a silence was reported; a foreign one says nothing. */
  lemma StampsFollowTheRule(c: Config, e: Epoch, i: nat)
    requires Ordered(e) && i < |e.events| && e.events[i].Stamped?
    ensures var d, own := DecisionAt(c, e, i), !FromElsewhere(e.events[i], e.number);
      && (d.verdict == FirstStamp <==> own && !EverHeard(e, i))
      && (d.verdict == Recovered <==> own && EverHeard(e, i) && LastReport(c, e, i).Some?)
      && !Reports(d.verdict)
      && d.last == e.events[i].stamp && d.everStamped == (own || EverHeard(e, i))
      && d.rasterFailures == FailureRun(e, i + 1)
  {
    FieldsAreTold(c, e, i);
    ReferenceIsLastHeard(c, e, i);
    RasterCountsFailures(c, e, i);
    RasterCountsFailures(c, e, i + 1);
    EpochIsKept(c, e, i);
    hide EverHeard, LastHeard, LastReport, LastStamp;
  }

  /** What happens before the first epoch. */
  function StateBefore(c: Config, events: seq<Event>, n: nat): State
    requires n <= |events|
  {
    if n == 0 then FRESH else Step(c, StateBefore(c, events, n - 1), events[n - 1]).0
  }

  /** Before the first engine no silence is ever reported, and every stamp is taken for the generation's own. */
  lemma {:induction false} NothingBeforeFirstEpoch(c: Config, events: seq<Event>, n: nat)
    requires n <= |events|
    ensures var w := StateBefore(c, events, n).watch; !w.watching && !w.silent && w.epoch == -1 && w.epochStartedMs == 0
    ensures n < |events| ==>
              var e, d := events[n], Step(c, StateBefore(c, events, n), events[n]).1;
              if e.Evaluated? then
                d == Decision(NothingToSay, 0, Stamp(-1, 0, 0, 0, 0, false, false, false), false, false, false, 0)
              else
                && d.verdict == (if StateBefore(c, events, n).watch.everStamped then NothingToSay else FirstStamp)
                && d.last == e.stamp && d.everStamped
                && (n == 0 ==> d.silenceMs == e.now && d.verdict == FirstStamp)
  {
    if n > 0 { NothingBeforeFirstEpoch(c, events, n - 1); }
  }
}
