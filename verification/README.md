# A verified model of the runner's supervision, and three codecs beside it

The Windows runner keeps a plant screen alive: it decides when its renderer is
dead, when an engine may be torn down and rebuilt, and when to give up and let
a supervisor restart the process. These decisions live in small state machines
that read no clock of their own. This project models them, their composition
in the runner's window, and the parts of the repository around them that carry
real invariants: the drop target's reference counts, the crash record's type
names, log rotation, the profiler's WebSocket and call tree, and the sweep of
what an embedded browser leaves behind.

`dafny verify dfyconfig.toml` checks everything.

## How it is built

Each machine is a class with the source's fields. Its methods follow the
source's branches and are proved equal to pure functions on the state
(`AfterTick`, `AfterRequest`, ...); a run is a sequence of events under a clock
that never goes back, and the theorems about runs are lemmas over those
functions. For four of them the rule they answer by stands beside it, told from
the events alone and from none of their fields (`ActionsAreRuled`,
`RequestsAreAnsweredByTheRule`, `EvaluationsFollowTheRule`, ...).

`FlutterWindow.Window` owns the four machines the host routes messages to, and a
ghost run of everything it handled: its `Valid()` says that the window is exactly
where that run leads, so each theorem about runs is one about the class. What
the host does with each message is told a second time, as the calls the machines
get and the wishes that come of them (`StepIsRuled`); each machine inside the
host is then in a run of its own (`DogIsDriven`, `GateIsDriven`, ...).

| file | models |
|---|---|
| EngineRebuildGate, GpuWatchdog, EglStormDetector, DartLiveness, SessionRebuildPolicy | the five machines |
| GpuWatchdogRuns, GpuWatchdogRules, EglStormRuns | what two of them keep over runs, and the rule the watchdog answers by |
| FlutterWindow, FlutterWindowRuns, FlutterWindowGrace, FlutterWindowQueue, FlutterWindowLosses | the composed host: teardowns and epochs, the startup grace, queued rebuilds, the loop guard and the restart bound |
| FlutterWindowRules, FlutterWindowMachines | what the host does with every message, and that each of its machines runs through the calls it makes |
| DragDropLifetime, CrashRecord, LogRotation | reference counts, the in-place name parser, the rename plan and its effect on files |
| WebSocket, CallTree, SingletonSweep | frames and messages over a stream, the sample fold, the sweep plan |
| Prelude, Octets | shared helpers |

## Where the code says something else than its documentation

The model follows the code. Each of these is a lemma.

- The loop guard is described as exiting on more than `max_losses_in_window`
  episodes inside the window (gpu_watchdog.h, lines 112-116). It counts in
  tumbling windows: one window length may see 2 * max - 1 episodes answered in
  place, and no more (`SlidingLossBound`, `SlidingLossBoundIsTight`), so that
  the description is true of a limit of one only (`LimitHoldsForOneOnly`).
- A storm is certain to be seen from 2 * min - 2 matching lines within a window
  length on, not from `min_matches` on (`StormIsSeen`, `CertainIsTight`).
- "The tick will keep trying" after a failed rebuild (flutter_window.cpp, line
  1025): no path ever creates another controller (`LostControllerIsFinal`).
- Every fresh engine is said to be granted the startup grace (line 1389), and
  an expired hold is logged as the full grace. A rebuild made while judgement
  is held inherits the running clock (`GraceBeginsWithEngine`,
  `GraceCanBeInherited`).
- A queued rebuild is said not to be judged by missing frames (lines 979-983).
  That is so for what is left of the hold it is queued under; then the watchdog
  judges again, until its request opens a new one (`QueuedIsNotJudged`,
  `QueuedRebuildIsJudged`, `InferredRestartsAreBounded`).
- The gate and the liveness epoch start before the engine is known to have come
  up, the policy only afterwards (`Window.CreateController`).
- The drag-and-drop model cannot show the crash it was written for: its
  use-after-free flag is unreachable even without the fix
  (`NeverUsedAfterFree`); leaks grow every second cycle, not with every rebuild
  (`NoFixDrifts`).
- `CleanTypeName` says that an empty scope is refused; an empty first one is not
  (`StrayAtIsAccepted`, `OnlyMangledIsCleaned`).
- A temp directory of "/" makes the sweep look for "//org.chromium.Chromium.",
  which no directory listing yields (`ChildrenAreRecognised`).
- `dominant_path` breaks ties by the order of the samples
  (`DominantPathIsOrderFree`, `TiesFollowTheOrder`).
- `recv_text` takes a continuation, text or binary frame in any position of a
  message, where section 5.4 of RFC 6455 fixes the first one's opcode; the
  reassembly theorem covers every such sequence.

## Model

| member | source | states |
|---|---|---|
| FlutterWindowRuns.TeardownsSpareStartups | centroid-hmi/windows/runner/flutter_window.cpp:1014-1037 | In every interleaving of messages, an engine that a rebuild ends had reported its own epoch's startup complete while it was live, or had lived for the whole startup timeout |
| FlutterWindowRuns.CompletionWasReported | centroid-hmi/windows/runner/flutter_window.cpp:1068-1082 | The startup flag is set exactly when a `startupComplete` with the live epoch's number arrived during that epoch; epochs only grow |
| FlutterWindowRuns.Reachable | centroid-hmi/windows/runner/flutter_window.cpp:231-241 | Joint invariant of every run: the gate and the window agree on the startup in flight, a queue began a debounce after the last rebuild, an open probation began after it |
| FlutterWindowRuns.StepMoves | centroid-hmi/windows/runner/flutter_window.cpp:1209-1301 | One message keeps that invariant, never revives a window without a controller, and ends at most the engine that may end |
| FlutterWindowRuns.TeardownSpacing | centroid-hmi/windows/runner/flutter_window.cpp:1014-1037 | Two engines ended by rebuilds have different epochs and end a whole debounce apart, whichever path asked |
| FlutterWindowRuns.ProbationOutlastsDebounce | centroid-hmi/windows/runner/session_rebuild_policy.cpp:120-139 | No run swallows a deadline rebuild as a duplicate if and only if the probation is at least the debounce (or no probation can be opened) |
| FlutterWindowRuns.DeadlineIsAnswered | centroid-hmi/windows/runner/flutter_window.cpp:1281-1285 | With such limits a deadline rebuild of a live engine is answered rebuild, queued or coalesced, and rebuild exactly when the engine is replaced |
| FlutterWindowRuns.ShortProbationIsSwallowed | centroid-hmi/windows/runner/flutter_window.cpp:1281-1285 | For every configuration with a shorter probation, a run in which the deadline rebuild is debounced |
| FlutterWindowRuns.LostControllerIsFinal | centroid-hmi/windows/runner/flutter_window.cpp:1014-1026 | A window without a controller never gets one again and ends nothing; the log line's promise that the tick keeps trying is not what the code does |
| FlutterWindowRuns.FailedStartLosesController | centroid-hmi/windows/runner/flutter_window.cpp:266-278 | A rebuild leaves the window without a controller exactly when the new engine does not start |
| FlutterWindowRuns.DueRebuildRuns | centroid-hmi/windows/runner/flutter_window.cpp:1266-1311 | A queued rebuild is carried out by the first tick or due message after its startup completes or times out |
| FlutterWindowGrace.StartupIsNotJudged | centroid-hmi/windows/runner/flutter_window.cpp:973-988 | An engine that showed neither main() nor a frame is never declared lost from missing frames before its grace is over, in any run |
| FlutterWindowGrace.GraceReachable | centroid-hmi/windows/runner/flutter_window.cpp:973-988 | The hold behind that grace, over every run: still on since it began, or given in full; an expiry is only latched once the cap is spent |
| FlutterWindowGrace.GraceBeginsWithEngine | centroid-hmi/windows/runner/flutter_window.cpp:242-244 | A rebuilt engine's grace begins with it exactly when no older hold was still on |
| FlutterWindowGrace.GraceCanBeInherited | centroid-hmi/windows/runner/flutter_window.cpp:1388-1390 | Under the runner's own limits a run in which a 60 s old engine that never started is declared lost, against the promise that every fresh engine is granted the grace |
| FlutterWindowQueue.QueuedIsNotJudged | centroid-hmi/windows/runner/flutter_window.cpp:979-983 | In every run, while a rebuild is queued and no frame comes, a loss is inferred from missing frames only a full cap after the hold began that the queue was opened under, and never without a cap |
| FlutterWindowQueue.QueueOpensHeld | centroid-hmi/windows/runner/flutter_window.cpp:1002-1010 | A queue that opens is held from then on |
| FlutterWindowQueue.InferredRestartsAreBounded | centroid-hmi/windows/runner/flutter_window.cpp:1002-1007 | 2k + 1 restarts inferred during one frameless queue mean that k whole caps fitted into the startup it waits for |
| FlutterWindowQueue.AtMostTwoInferredRestarts | centroid-hmi/windows/runner/flutter_window.cpp:1002-1007 | With a hold that outlasts the startup timeout, as by default, one queue sees at most two of them |
| FlutterWindowQueue.QueuedRebuildIsJudged | centroid-hmi/windows/runner/flutter_window.cpp:979-983 | Under the runner's own limits a run in which an engine with a rebuild queued is declared lost for want of frames; the restart is only coalesced |
| FlutterWindowQueue.StepWaits | centroid-hmi/windows/runner/flutter_window.cpp:990-1012 | What each message does to a queue and to the hold it finds, short of ending the engine |
| FlutterWindowLosses.SlidingLossBound | centroid-hmi/windows/runner/flutter_window.cpp:772-876 | For the whole host: messages within one loss window see at most 2 * max - 1 new losses answered in place |
| FlutterWindowLosses.ExitIsFinal | centroid-hmi/windows/runner/flutter_window.cpp:912-934 | After the exit nothing is done: no action, no rebuild, no second exit |
| FlutterWindowLosses.AttemptsCountRestarts | centroid-hmi/windows/runner/flutter_window.cpp:843-861 | At the host the attempts are the restarts applied since the last presented frame, those only coalesced included, and never pass a positive limit |
| FlutterWindowLosses.ExhaustionExits | centroid-hmi/windows/runner/flutter_window.cpp:833-841 | With that limit spent, the next message that declares a loss ends the process |
| FlutterWindowLosses.EvidenceIsAnswered | centroid-hmi/windows/runner/flutter_window.cpp:1313-1337 | A storm or raster loss is always declared while an engine is up and the watchdog in charge |
| FlutterWindowLosses.StepIsOneCall | centroid-hmi/windows/runner/flutter_window.cpp:772-807 | Each message applies the action of at most one watchdog call -- a presented frame exactly for a frame -- made in the state it found up to the hold and the outstanding probe |
| FlutterWindowRules.StepIsRuled | centroid-hmi/windows/runner/flutter_window.cpp:772-1456 | Message by message, in every reachable state: which calls the four machines get and in which order, which requests reach the gate and with which reason, how they are answered, and what becomes of engine, flags and probe |
| FlutterWindowMachines.WishesAreAnswered | centroid-hmi/windows/runner/flutter_window.cpp:843-856 | In every run, a restart the watchdog asks for, a resume, and a connect that finds another adapter or no detector are answered while an engine is up -- by replacing it if and only if its startup is over or timed out and any last rebuild lies a debounce back |
| FlutterWindowMachines.EvidenceReachesTheGate | centroid-hmi/windows/runner/flutter_window.cpp:1313-1337 | So a storm or raster loss ends the process, or is answered and replaces the engine exactly then |
| FlutterWindowMachines.MissesStartOver | centroid-hmi/windows/runner/flutter_window.cpp:1163-1206 | In every run of the host, after a presented frame or a restart no tick infers a loss before as many ticks came as it takes misses |
| FlutterWindowMachines.FrameAnswersProbe | centroid-hmi/windows/runner/flutter_window.cpp:1163-1206 | And the first tick after a frame infers none whatever the threshold, unless a message in between asked for a frame |
| FlutterWindowMachines.DogIsDriven | centroid-hmi/windows/runner/flutter_window.cpp:772-807 | Inside the host the watchdog is where its own run of the host's calls leads, so everything proved of its runs holds there |
| FlutterWindowMachines.ActedAsRuled | centroid-hmi/windows/runner/flutter_window.cpp:826-876 | And every action the host applies is the one the watchdog's rule names after the calls made so far |
| FlutterWindowMachines.GateIsDriven | centroid-hmi/windows/runner/flutter_window.cpp:990-1012 | The same for the gate |
| FlutterWindowMachines.PolicyIsDriven | centroid-hmi/windows/runner/flutter_window.cpp:365-376 | The same for the session policy |
| FlutterWindowMachines.LiveIsDriven | centroid-hmi/windows/runner/flutter_window.cpp:242-246 | And for the liveness machine, whose epoch is always that of the live engine |
| FlutterWindow.Window.constructor | centroid-hmi/windows/runner/flutter_window.cpp:206-223 | A window starts with four fresh machines and its run empty |
| FlutterWindow.Window.OnCreate | centroid-hmi/windows/runner/flutter_window.cpp:451-548 | Epoch 1 and, once its engine is up, the watchdog's start; without an engine no window |
| FlutterWindow.Window.CreateController | centroid-hmi/windows/runner/flutter_window.cpp:231-320 | The epoch, the gate's startup, the hold and the liveness epoch begin before the engine is known to have started; the policy hears of it only on success |
| FlutterWindow.Window.BeginEpoch | centroid-hmi/windows/runner/flutter_window.cpp:231-246 | The part of it that happens on failure too |
| FlutterWindow.Window.DestroyController | centroid-hmi/windows/runner/flutter_window.cpp:378-449 | The controller and the armed probe go, the epoch's flags stay |
| FlutterWindow.Window.PerformEngineRebuild | centroid-hmi/windows/runner/flutter_window.cpp:1014-1037 | Destroys, creates and re-reads whether to judge; does nothing without a controller |
| FlutterWindow.Window.RequestEngineRebuild | centroid-hmi/windows/runner/flutter_window.cpp:990-1012 | Every request passes the gate; one that is not granted leaves the engine alone and holds judgement |
| FlutterWindow.Window.UpdateWatchdogJudgeable | centroid-hmi/windows/runner/flutter_window.cpp:973-988 | Judgement is on exactly when main() was seen and nothing is queued |
| FlutterWindow.Window.HandleSessionDecision | centroid-hmi/windows/runner/flutter_window.cpp:365-376 | Only a rebuild verdict asks the gate |
| FlutterWindow.Window.StartProbe | centroid-hmi/windows/runner/flutter_window.cpp:943-971 | The frame callback is armed at most once at a time, and only with a controller |
| FlutterWindow.Window.ApplyAction | centroid-hmi/windows/runner/flutter_window.cpp:826-876 | An exit takes the engine down and nothing else; a restart is asked of the gate before the probe starts |
| FlutterWindow.Window.Dispatch | centroid-hmi/windows/runner/flutter_window.cpp:772-807 | Nothing reaches a disabled watchdog; otherwise the event's action is applied |
| FlutterWindow.Window.OnWatchdogTick | centroid-hmi/windows/runner/flutter_window.cpp:1231-1301 | The tick extends the run by one message |
| FlutterWindow.Window.Tick | centroid-hmi/windows/runner/flutter_window.cpp:1231-1301 | Expiry, queued rebuild, probation deadline, liveness, then sentinel or judgement, in that order with those early returns |
| FlutterWindow.Window.PollRebuild | centroid-hmi/windows/runner/flutter_window.cpp:1270-1275 | A queued rebuild that became due is carried out |
| FlutterWindow.Window.OnEngineRebuildDue | centroid-hmi/windows/runner/flutter_window.cpp:1303-1311 | The posted message polls the gate again |
| FlutterWindow.Window.OnRasterLoss | centroid-hmi/windows/runner/flutter_window.cpp:1313-1324 | A raster loss is a renderer loss while a controller exists |
| FlutterWindow.Window.OnEglStorm | centroid-hmi/windows/runner/flutter_window.cpp:1326-1337 | A storm is a context loss while a controller exists |
| FlutterWindow.Window.OnPowerBroadcast | centroid-hmi/windows/runner/flutter_window.cpp:1364-1395 | A resume is a hint and then a rebuild request |
| FlutterWindow.Window.OnDisplayChange | centroid-hmi/windows/runner/flutter_window.cpp:1397-1408 | A display change is a hint only |
| FlutterWindow.Window.OnSessionChange | centroid-hmi/windows/runner/flutter_window.cpp:1410-1456 | A session change is a hint, and for remote connects and disconnects a question to the policy |
| FlutterWindow.Window.SessionBranch | centroid-hmi/windows/runner/flutter_window.cpp:1419-1451 | That branch on its own |
| FlutterWindow.Window.OnFramePresented | centroid-hmi/windows/runner/flutter_window.cpp:1163-1206 | The frame callback extends the run by one message |
| FlutterWindow.Window.FrameCallback | centroid-hmi/windows/runner/flutter_window.cpp:1163-1206 | A frame frees the probe, feeds the watchdog and settles a probation |
| FlutterWindow.Window.OnMainStarting | centroid-hmi/windows/runner/flutter_window.cpp:1046-1066 | `mainStarting` is believed whatever epoch it names |
| FlutterWindow.Window.OnStartupComplete | centroid-hmi/windows/runner/flutter_window.cpp:1068-1082 | `startupComplete` counts only for the live epoch |
| FlutterWindow.Window.OnLiveness | centroid-hmi/windows/runner/flutter_window.cpp:1091-1105 | A stamp goes to the liveness machine |
| FlutterWindow.Window.DisableWatchdog | centroid-hmi/windows/runner/flutter_window.cpp:809-824 | Disarms the watchdog for good |
| FlutterWindow.Window.OnDestroy | centroid-hmi/windows/runner/flutter_window.cpp:550-564 | Closing the window takes the controller down |
| EngineRebuildGate.RebuildSpacing | centroid-hmi/windows/runner/engine_rebuild_gate.cpp:35-111 | Any two rebuild verdicts of a run are a debounce apart, those of `Poll`, which never reads the debounce, included |
| EngineRebuildGate.Reachable | centroid-hmi/windows/runner/engine_rebuild_gate.cpp:57-100 | The invariant behind it: a queued request began at least a debounce after the last rebuild |
| EngineRebuildGate.Conservation | centroid-hmi/windows/runner/engine_rebuild_gate.cpp:35-111 | Requests made = debounced + folded into releases + still queued, after every run |
| EngineRebuildGate.ReleaseCarriesNewest | centroid-hmi/windows/runner/engine_rebuild_gate.cpp:79-85 | A release carries the reason of the newest request that was not debounced |
| EngineRebuildGate.QueueHoldsNewest | centroid-hmi/windows/runner/engine_rebuild_gate.cpp:79-85 | So does the queue at every moment |
| EngineRebuildGate.ReleaseReportsTheWait | centroid-hmi/windows/runner/engine_rebuild_gate.cpp:35-55 | A release out of the queue reports the time since the request that opened it, and a timeout exactly when the startup never completed |
| EngineRebuildGate.QueuedIsReleased | centroid-hmi/windows/runner/engine_rebuild_gate.cpp:90-111 | A queued request is released by the first poll or request after its startup completed or timed out, with everything coalesced |
| EngineRebuildGate.StaysQueued | centroid-hmi/windows/runner/engine_rebuild_gate.cpp:57-111 | Until then nothing but a rebuild takes a request out of the queue |
| EngineRebuildGate.QueueOutlastsDebounce | centroid-hmi/windows/runner/engine_rebuild_gate.cpp:57-100 | While something is queued no request is ever debounced |
| EngineRebuildGate.RequestsAreAnsweredByTheRule | centroid-hmi/windows/runner/engine_rebuild_gate.cpp:57-100 | Told from the events alone: a request is a duplicate inside the debounce of the last rebuild, queued or coalesced while a startup is in flight and young, and otherwise a rebuild that answers it and everything queued, with the wait of the oldest |
| EngineRebuildGate.PollsAreAnsweredByTheRule | centroid-hmi/windows/runner/engine_rebuild_gate.cpp:102-111 | And a poll answers a queue as soon as no young startup is in flight; nothing else is answered |
| EngineRebuildGate.StateIsHistory | centroid-hmi/windows/runner/engine_rebuild_gate.cpp:16-111 | The fields behind it are what the events have told |
| EngineRebuildGate.EarlierClock | centroid-hmi/windows/runner/engine_rebuild_gate.cpp:26-65 | A clock that reads earlier is never a duplicate, waits no time and sees a young startup |
| EngineRebuildGate.Gate.constructor | centroid-hmi/windows/runner/engine_rebuild_gate.h:79-80 | No startup, no rebuild, no queue |
| EngineRebuildGate.Gate.EngineCreated | centroid-hmi/windows/runner/engine_rebuild_gate.cpp:16-19 | A startup begins |
| EngineRebuildGate.Gate.StartupComplete | centroid-hmi/windows/runner/engine_rebuild_gate.cpp:21-24 | A startup ends |
| EngineRebuildGate.Gate.Release | centroid-hmi/windows/runner/engine_rebuild_gate.cpp:35-55 | The decision and the emptied queue of a release |
| EngineRebuildGate.Gate.Request | centroid-hmi/windows/runner/engine_rebuild_gate.cpp:57-100 | Debounce first, then the queue, then a release |
| EngineRebuildGate.Gate.Poll | centroid-hmi/windows/runner/engine_rebuild_gate.cpp:102-111 | A release, unless nothing is queued or a startup blocks |
| GpuWatchdogRuns.SlidingLossBound | centroid-hmi/windows/runner/gpu_watchdog.cpp:136-184 | Although the guard is a tumbling counter, events within one window length hold at most 2 * max - 1 loss episodes answered in place |
| GpuWatchdogRuns.SlidingLossBoundIsTight | centroid-hmi/windows/runner/gpu_watchdog.h:109-118 | For every positive limit and window a run reaches that bound -- five episodes in ten minutes by default -- so more than `max_losses_in_window` of them do not always exit |
| GpuWatchdogRuns.LimitHoldsForOneOnly | centroid-hmi/windows/runner/gpu_watchdog.h:109-118 | No span of a window length ever holds more than `max_losses_in_window` episodes if and only if that limit is one |
| GpuWatchdogRuns.TimerFollowsAttempts | centroid-hmi/windows/runner/gpu_watchdog.cpp:203-233 | The tick period is the probe interval, or the backoff of the restarts since the last frame, after every run |
| GpuWatchdogRuns.FullWindowExits | centroid-hmi/windows/runner/gpu_watchdog.cpp:149-184 | The episode that finds its window full exits, with the reason repeated losses |
| GpuWatchdogRuns.UnwindowedLossBound | centroid-hmi/windows/runner/gpu_watchdog.cpp:149-184 | With a zero window the bound is max over the whole run |
| GpuWatchdogRuns.ExitIsFinal | centroid-hmi/windows/runner/gpu_watchdog.cpp:175-192 | At most one exit in a run, and every later action is empty |
| GpuWatchdogRuns.ReportsAreSeparatedByFrames | centroid-hmi/windows/runner/gpu_watchdog.cpp:141-147 | Between any two loss reports a frame was presented |
| GpuWatchdogRuns.AttemptsCountRestarts | centroid-hmi/windows/runner/gpu_watchdog.cpp:203-233 | The attempt count is the number of restarts since the last frame and never passes a positive limit |
| GpuWatchdogRuns.ExhaustionExits | centroid-hmi/windows/runner/gpu_watchdog.cpp:171-184 | The loss declared after the last allowed restart exits |
| GpuWatchdogRuns.HoldSilencesTicks | centroid-hmi/windows/runner/gpu_watchdog.cpp:41-96 | Inside a hold no tick counts a miss or declares anything, and repeating the hold does not move its end |
| GpuWatchdogRuns.HoldEndIsFixed | centroid-hmi/windows/runner/gpu_watchdog.cpp:48-55 | The start a hold's cap is measured from stays the first one |
| GpuWatchdogRuns.LossIsDeclaredOnTime | centroid-hmi/windows/runner/gpu_watchdog.cpp:97-116 | Past the cap, with a probe outstanding and only ticks, hints and announcements, the threshold tick declares the loss and no earlier one does |
| GpuWatchdogRuns.MissesCountTicks | centroid-hmi/windows/runner/gpu_watchdog.cpp:104-115 | Until then every tick is one miss |
| GpuWatchdogRuns.ExpiryAnnouncedOncePerHold | centroid-hmi/windows/runner/gpu_watchdog.cpp:70-80 | A second announcement needs a new hold |
| GpuWatchdogRuns.BackoffIsCappedDoubling | centroid-hmi/windows/runner/gpu_watchdog.cpp:267-277 | The backoff is the capped doubling for every attempt count if and only if the cap does not exceed the period's last 32-bit doubling |
| GpuWatchdogRuns.DoublingWraps | centroid-hmi/windows/runner/gpu_watchdog.cpp:267-277 | The wrap itself: 0x90000000 ms doubles to 0x20000000 ms under the largest cap |
| GpuWatchdogRules.ActionsAreRuled | centroid-hmi/windows/runner/gpu_watchdog.cpp:29-265 | In every run every action is the one ruled from the events so far: which event is a loss, whether it is reported, restarted, logged or escalated and why, when to probe, and how the timer is set; expiries are announced exactly once found |
| GpuWatchdogRules.FieldsAreTold | centroid-hmi/windows/runner/gpu_watchdog.cpp:82-265 | The outstanding probe, the misses and the report flag are what the ticks, frames, restarts and reports so far make them |
| GpuWatchdogRules.HoldIsTold | centroid-hmi/windows/runner/gpu_watchdog.cpp:41-96 | So are the hold, its start and its latched end |
| GpuWatchdogRules.GuardIsTold | centroid-hmi/windows/runner/gpu_watchdog.cpp:149-160 | The guard's window is the one its first episode opened, and counts the reports since |
| GpuWatchdogRules.MissesStartOver | centroid-hmi/windows/runner/gpu_watchdog.cpp:214-233 | After a frame or a restart no tick declares a loss before as many ticks came as it takes misses |
| GpuWatchdogRules.FrameAnswersProbe | centroid-hmi/windows/runner/gpu_watchdog.cpp:220-221 | The first tick after a frame declares nothing whatever the threshold, if nothing was asked of the renderer in between |
| GpuWatchdogRules.DisarmIsFinal | centroid-hmi/windows/runner/gpu_watchdog.cpp:262-265 | After a disarming no probe is outstanding and every action is empty |
| GpuWatchdog.Watchdog.constructor | centroid-hmi/windows/runner/gpu_watchdog.h:70-129 | Nothing outstanding, held or counted |
| GpuWatchdog.Watchdog.OnStarted | centroid-hmi/windows/runner/gpu_watchdog.cpp:29-39 | The first probe and the timer |
| GpuWatchdog.Watchdog.SetJudgeable | centroid-hmi/windows/runner/gpu_watchdog.cpp:41-56 | Releases a hold, or opens one unless one is on |
| GpuWatchdog.Watchdog.ConsumeJudgementHoldExpired | centroid-hmi/windows/runner/gpu_watchdog.cpp:70-80 | Announces an expiry once and takes the hold down |
| GpuWatchdog.Watchdog.OnTick | centroid-hmi/windows/runner/gpu_watchdog.cpp:82-116 | Held, a probe; else a miss, and at the threshold a loss |
| GpuWatchdog.Watchdog.OnRendererLost | centroid-hmi/windows/runner/gpu_watchdog.cpp:118-134 | Evidence declares the loss without counting misses |
| GpuWatchdog.Watchdog.CountEpisode | centroid-hmi/windows/runner/gpu_watchdog.cpp:149-160 | The tumbling window after one more episode |
| GpuWatchdog.Watchdog.DeclareLoss | centroid-hmi/windows/runner/gpu_watchdog.cpp:136-212 | One report per episode, then the guards, then the configured action |
| GpuWatchdog.Watchdog.OnFramePresented | centroid-hmi/windows/runner/gpu_watchdog.cpp:214-240 | A frame ends episode, misses, attempts and hold |
| GpuWatchdog.Watchdog.OnDeviceLossHint | centroid-hmi/windows/runner/gpu_watchdog.cpp:242-260 | A probe, and no change to the misses |
| GpuWatchdog.Watchdog.Disable | centroid-hmi/windows/runner/gpu_watchdog.cpp:262-265 | Disabled for good |
| GpuWatchdog.Watchdog.BackoffMs | centroid-hmi/windows/runner/gpu_watchdog.cpp:267-277 | The doubling loop, in 32-bit arithmetic |
| EglStormRuns.StormIsSeen | centroid-hmi/windows/runner/egl_storm_detector.cpp:52-72 | Unless it is quiet, the detector fires on lines within one window length of which 2 * min - 2 match (one, for a threshold of at most one) |
| EglStormRuns.CertainIsTight | centroid-hmi/windows/runner/egl_storm_detector.cpp:60-64 | One matching line fewer can pass unseen, for every threshold above one and every window above zero |
| EglStormRuns.FireIsBacked | centroid-hmi/windows/runner/egl_storm_detector.cpp:60-70 | Every fire has `min_matches` matching lines within one window length, all after the previous fire |
| EglStormRuns.FireSpacing | centroid-hmi/windows/runner/egl_storm_detector.cpp:54-69 | Fires are a cooldown apart |
| EglStormRuns.ChunkIndependence | centroid-hmi/windows/runner/egl_storm_detector.cpp:74-99 | Where one stretch of bytes is cut in two shows in the lines fed if and only if bytes follow an unfinished line longer than the carry cap |
| EglStormRuns.TwoCallsAreOne | centroid-hmi/windows/runner/egl_storm_detector.cpp:74-99 | Short of that, counters, carry and fired-or of two calls are those of one |
| EglStormRuns.EveryChunkingIsTheSame | centroid-hmi/windows/runner/egl_storm_detector.cpp:74-99 | A stream of short lines is cut at its newlines however many calls it comes in |
| EglStormRuns.LostContextLinesMatch | centroid-hmi/windows/runner/egl_storm_detector.cpp:10-13 | A line counts if and only if it is something, one of the engine's two messages of a lost context, and something |
| EglStormRuns.OccursBetween | centroid-hmi/windows/runner/egl_storm_detector.cpp:16-34 | Occurring is lying between two pieces of the line |
| EglStormRuns.LongLinesAreFed | centroid-hmi/windows/runner/egl_storm_detector.cpp:91-97 | A line that goes on is carried whole up to 4096 bytes and fed as it is past them |
| EglStormDetector.Contains | centroid-hmi/windows/runner/egl_storm_detector.cpp:16-34 | True exactly when the needle is not empty and occurs in the line |
| EglStormDetector.LineMatches | centroid-hmi/windows/runner/egl_storm_detector.cpp:43-50 | True exactly when one of the two needles occurs |
| EglStormDetector.Detector.constructor | centroid-hmi/windows/runner/egl_storm_detector.h:51-52 | No matches, not quiet, nothing carried |
| EglStormDetector.Detector.OnLine | centroid-hmi/windows/runner/egl_storm_detector.cpp:52-72 | Quiet, matching, the window, the threshold |
| EglStormDetector.Detector.OnBytes | centroid-hmi/windows/runner/egl_storm_detector.cpp:74-99 | Feeds the complete lines of carry and data in order, carries the rest on, and cuts it past the cap |
| EglStormDetector.Detector.OnCompleteLines | centroid-hmi/windows/runner/egl_storm_detector.cpp:76-90 | The loop over the bytes |
| EglStormDetector.Detector.EndLine | centroid-hmi/windows/runner/egl_storm_detector.cpp:82-88 | One newline: the carried bytes and the segment are one line |
| EglStormDetector.Detector.KeepRest | centroid-hmi/windows/runner/egl_storm_detector.cpp:91-97 | What follows the last newline |
| EglStormDetector.SplitContinues | centroid-hmi/windows/runner/egl_storm_detector.cpp:74-99 | Splitting at newlines is independent of where the text was cut before |
| DartLiveness.VerdictGrammar | centroid-hmi/windows/runner/dart_liveness.cpp:42-132 | The verdicts of one epoch always form a prefix of (NeverArrived StillSilent*)? FirstStamp (Silent StillSilent* Recovered)* |
| DartLiveness.SilenceIsMeasured | centroid-hmi/windows/runner/dart_liveness.cpp:99-124 | Every decision carries the time since the generation was last heard or started; an evaluation opens a silence exactly when that passed the threshold and none was open |
| DartLiveness.ReportSpacing | centroid-hmi/windows/runner/dart_liveness.cpp:119-129 | Reports of one silence are at least `repeat_ms` apart |
| DartLiveness.ForeignStampsAreInvisible | centroid-hmi/windows/runner/dart_liveness.cpp:44-53 | Erasing every stamp of another generation changes neither the state nor any other decision |
| DartLiveness.RasterCountsFailures | centroid-hmi/windows/runner/dart_liveness.cpp:75-95 | The failure count is the trailing run of failed probed stamps, and the loss flag says it reached the threshold |
| DartLiveness.RasterLostAtThreshold | centroid-hmi/windows/runner/dart_liveness.cpp:87-92 | The loss is raised by exactly the stamp that first brings the run to the threshold, and taken back by exactly the first good probe |
| DartLiveness.EvaluationsFollowTheRule | centroid-hmi/windows/runner/dart_liveness.cpp:99-132 | An evaluation reports a silence past its threshold if and only if it was not reported yet or `repeat_ms` went by since, so a lasting silence is repeated; with the generation's last stamp |
| DartLiveness.StampsFollowTheRule | centroid-hmi/windows/runner/dart_liveness.cpp:42-97 | A stamp is the first one or a recovery exactly when the generation was not heard yet or its silence was reported; a foreign one says nothing |
| DartLiveness.NothingBeforeFirstEpoch | centroid-hmi/windows/runner/dart_liveness.cpp:99-107 | Before the first epoch nothing is silent |
| DartLiveness.Liveness.constructor | centroid-hmi/windows/runner/dart_liveness.h:60-189 | Not watching |
| DartLiveness.Liveness.EpochStarted | centroid-hmi/windows/runner/dart_liveness.cpp:16-27 | A new epoch forgets everything |
| DartLiveness.Liveness.OnStamp | centroid-hmi/windows/runner/dart_liveness.cpp:42-97 | The verdict, the gap the stamp closes, and the raster half |
| DartLiveness.Liveness.OnProbe | centroid-hmi/windows/runner/dart_liveness.cpp:75-95 | The raster half |
| DartLiveness.Liveness.Evaluate | centroid-hmi/windows/runner/dart_liveness.cpp:99-132 | Silence past the threshold, reported once and then repeated |
| SessionRebuildPolicy.DeadlineRebuildIsEarned | centroid-hmi/windows/runner/session_rebuild_policy.cpp:120-139 | A deadline rebuild always follows a probation opened by a connect a full probation earlier, with no frame, disconnect or new engine since |
| SessionRebuildPolicy.DeadlineIsKept | centroid-hmi/windows/runner/session_rebuild_policy.cpp:120-139 | And a probation that nothing settles rebuilds at the first tick past its deadline, not before |
| SessionRebuildPolicy.ConnectsAreAnsweredByTheRule | centroid-hmi/windows/runner/session_rebuild_policy.cpp:67-103 | A connect answers rebuild if and only if its adapter is known to have changed or there is no detector, and then leaves no probation open; otherwise it opens one, or repeats the open one without effect |
| SessionRebuildPolicy.OthersAreAnsweredByTheRule | centroid-hmi/windows/runner/session_rebuild_policy.cpp:49-139 | A disconnect is deferred unless one is unsettled and none on probation, a frame keeps the renderer exactly in a probation, a tick rebuilds exactly past its deadline; with their reasons and waits |
| SessionRebuildPolicy.FieldsAreTold | centroid-hmi/windows/runner/session_rebuild_policy.cpp:42-139 | The suspicion and the probation are what the events so far make them |
| SessionRebuildPolicy.EarlierClock | centroid-hmi/windows/runner/session_rebuild_policy.cpp:105-139 | A clock that reads earlier than the probation's start counts as no wait |
| SessionRebuildPolicy.ClassifyAdapterCheck | centroid-hmi/windows/runner/session_rebuild_policy.cpp:16-25 | A change is reported exactly for two known and different adapters |
| SessionRebuildPolicy.Policy.constructor | centroid-hmi/windows/runner/session_rebuild_policy.h:146-147 | No suspicion |
| SessionRebuildPolicy.Policy.EngineCreated | centroid-hmi/windows/runner/session_rebuild_policy.cpp:42-47 | A new engine answers any suspicion |
| SessionRebuildPolicy.Policy.OnRemoteDisconnect | centroid-hmi/windows/runner/session_rebuild_policy.cpp:49-65 | Defers once and ends a probation |
| SessionRebuildPolicy.Policy.OnRemoteConnect | centroid-hmi/windows/runner/session_rebuild_policy.cpp:67-103 | Changed adapter, missing detector, duplicate, probation, in that order |
| SessionRebuildPolicy.Policy.OnFramePresented | centroid-hmi/windows/runner/session_rebuild_policy.cpp:105-118 | A frame inside a probation keeps the renderer |
| SessionRebuildPolicy.Policy.OnTick | centroid-hmi/windows/runner/session_rebuild_policy.cpp:120-139 | The deadline |
| DragDropLifetime.NeverUsedAfterFree | centroid-hmi/windows/runner/drag_drop_lifetime.cpp:37-61 | No sequence of calls, with the fix or without, ever sets the use-after-free flag |
| DragDropLifetime.ReleaseIsSafe | centroid-hmi/windows/runner/drag_drop_lifetime.cpp:37-61 | Releasing a held reference never meets a freed target, never frees the slot's own, and leaves every other count covering its references |
| DragDropLifetime.StateAt | centroid-hmi/windows/runner/drag_drop_lifetime.cpp:72-113 | After any calls every live target's count covers the references to it and no freed one is referenced |
| DragDropLifetime.FixNeverLeaks | centroid-hmi/windows/runner/drag_drop_lifetime.cpp:92-113 | With the fix nothing leaks in any sequence, and registrations collide exactly when a controller is created on a live one |
| DragDropLifetime.FixBalances | centroid-hmi/windows/runner/drag_drop_lifetime.cpp:72-113 | With the fix any number of cycles: no collision, no leak, one live target while up and none while down |
| DragDropLifetime.NoFixDrifts | centroid-hmi/windows/runner/drag_drop_lifetime.cpp:72-113 | Without it n cycles leave ceil(n/2) leaks and n mod 2 live targets; collisions start with the second cycle |
| DragDropLifetime.CycleOnStaleSlot | centroid-hmi/windows/runner/drag_drop_lifetime.cpp:53-59 | The cycle after a leak frees the stale target through the recursive release |
| DragDropLifetime.ReleaseCountsOne | centroid-hmi/windows/runner/drag_drop_lifetime.cpp:37-61 | A release takes one count off, frees at none left, and on a freed target raises the flag and nothing else |
| DragDropLifetime.Model.constructor | centroid-hmi/windows/runner/drag_drop_lifetime.h:70-71 | No targets, no registration |
| DragDropLifetime.Model.NewTarget | centroid-hmi/windows/runner/drag_drop_lifetime.cpp:25-28 | One more target with no reference |
| DragDropLifetime.Model.AddRef | centroid-hmi/windows/runner/drag_drop_lifetime.cpp:30-35 | One more reference |
| DragDropLifetime.Model.Release | centroid-hmi/windows/runner/drag_drop_lifetime.cpp:37-61 | The recursive release, which terminates |
| DragDropLifetime.Model.Revoke | centroid-hmi/windows/runner/drag_drop_lifetime.cpp:63-70 | Empties the slot and releases its occupant |
| DragDropLifetime.Model.CreateController | centroid-hmi/windows/runner/drag_drop_lifetime.cpp:72-90 | Registers unless the slot is taken, and keeps the invariant |
| DragDropLifetime.Model.DestroyController | centroid-hmi/windows/runner/drag_drop_lifetime.cpp:92-113 | Revokes with the fix, releases, counts a leak, and keeps the invariant |
| DragDropLifetime.Model.LiveTargets | centroid-hmi/windows/runner/drag_drop_lifetime.cpp:115-123 | The number of targets not freed |
| CrashRecord.CleanedInvertsMangling | centroid-hmi/windows/runner/crash_record.cpp:26-83 | For any scopes the cleaned name is the scopes reversed and joined by "::" if it fits with its terminator, and nothing otherwise |
| CrashRecord.OnlyMangledIsCleaned | centroid-hmi/windows/runner/crash_record.cpp:26-83 | And only a mangled name is cleaned, or one with a single stray '@' in front of its scopes |
| CrashRecord.TwoScopesAreSwapped | centroid-hmi/windows/runner/crash_record.cpp:26-83 | With the signs written out: ".?AVa@b@@" is "b::a" when it fits, ".?AUa@@" is "a" |
| CrashRecord.StrayAtIsAccepted | centroid-hmi/windows/runner/crash_record.cpp:66-70 | ".?AV@std@@" is cleaned to "std", although an empty scope is said to be refused |
| CrashRecord.WalkReadsScopes | centroid-hmi/windows/runner/crash_record.cpp:57-81 | Walking backwards over joined scopes yields them outermost first |
| CrashRecord.WalkNeedsScopes | centroid-hmi/windows/runner/crash_record.cpp:57-81 | A walk that succeeds read joined scopes |
| CrashRecord.CleanTypeName | centroid-hmi/windows/runner/crash_record.cpp:26-83 | Returns the buffer exactly when there is a clean name that fits, then holding it and its NUL; nothing at or past `out_len` is ever written |
| CrashRecord.JoinBackwards | centroid-hmi/windows/runner/crash_record.cpp:57-82 | The backward loop, against the walk |
| CrashRecord.ScopeStart | centroid-hmi/windows/runner/crash_record.cpp:60-64 | The inner scan ends at the last scope's beginning |
| CrashRecord.Append | centroid-hmi/windows/runner/crash_record.cpp:71-80 | Separator, scope and terminator behind what was written |
| CrashRecord.Separate | centroid-hmi/windows/runner/crash_record.cpp:74-77 | The separator, none in front of the first scope |
| CrashRecord.HasQuestionMark | centroid-hmi/windows/runner/crash_record.cpp:50-55 | True exactly when a '?' occurs |
| LogRotation.RotationShifts | centroid-hmi/windows/runner/log_rotation.cpp:35-53 | Carrying the plan out on any files: archive k holds what k-1 held, the live file is gone, every other file is untouched |
| LogRotation.LastRunsAreKept | centroid-hmi/windows/runner/log_rotation.cpp:35-53 | After any number of runs the log and its archives hold the last max + 1 runs, newest first |
| LogRotation.GenerationsAreDistinct | centroid-hmi/windows/runner/log_rotation.cpp:23-33 | Two generations never share a path, the live file included |
| LogRotation.ArchiveKeepsDirectoryAndExtension | centroid-hmi/windows/runner/log_rotation.cpp:6-19 | An archive lies in its log's directory and keeps its extension |
| LogRotation.KeepingNothingDeletesTheLog | centroid-hmi/windows/runner/log_rotation.cpp:38-41 | Keeping no archive deletes the live file only |
| LogRotation.UpwardRenamesCollapse | centroid-hmi/windows/runner/log_rotation.h:10-13 | The same renames carried out upwards collapse every generation into one file |
| LogRotation.DecimalIsRead | centroid-hmi/windows/runner/log_rotation.cpp:27-27 | A generation number is recovered from its digits |
| LogRotation.NumeralIsWritten | centroid-hmi/windows/runner/log_rotation.cpp:27-27 | And every numeral without a leading zero is how its number is written |
| LogRotation.NumberBeforeExtension | centroid-hmi/windows/runner/log_rotation.cpp:23-33 | The number stands between stem and extension: hmi.log, hmi.1.log |
| LogRotation.NumberAtTheEnd | centroid-hmi/windows/runner/log_rotation.cpp:23-33 | Or at the end of a name without one, whatever dots its directory has |
| LogRotation.ExtensionDot | centroid-hmi/windows/runner/log_rotation.cpp:9-19 | The last dot, if no separator follows it; otherwise none |
| LogRotation.PlanRotation | centroid-hmi/windows/runner/log_rotation.cpp:35-53 | The delete of the oldest, then the renames from the oldest down |
| LogRotation.FileSystem.RotateLogs | centroid-hmi/windows/runner/utils.cpp:371-386 | Deletes, then renames, in plan order; nothing for an empty path |
| LogRotation.FileSystem.MoveFile | centroid-hmi/windows/runner/utils.cpp:379-385 | A missing source is no error and a destination is replaced |
| LogRotation.FileSystem.DeleteFile | centroid-hmi/windows/runner/utils.cpp:376-378 | The path is gone, nothing else |
| WebSocket.FramesRoundTrip | tools/hmi_profiler.py:219-257 | Any frame with an opcode below 16 and a payload below 2^64, masked or not, is read back as written and leaves the stream on the next frame |
| WebSocket.WrittenIsRead | tools/hmi_profiler.py:219-257 | The same for an opcode of any eight bits: its low four are read back, and its top bit as the final flag |
| WebSocket.MessageIsReassembled | tools/hmi_profiler.py:262-283 | However a message is fragmented and interleaved with pings and pongs, the fragments come back joined, the pings are answered in order and the stream is left behind the last frame; a close and an unknown opcode end it with their error |
| WebSocket.FramesGoOn | tools/hmi_profiler.py:262-283 | The same for the frames before the last, whatever follows |
| WebSocket.LaterBytesDoNotMatter | tools/hmi_profiler.py:219-239 | Where a frame ends does not depend on the bytes behind it |
| WebSocket.ServerFrames | tools/hmi_profiler.py:262-283 | On literal bytes, with any payload under 126 bytes and anything behind it: 81 and 82 are a message, 80 ends one, 01 and 00 go on with one, 88 closes, 89 is answered and 8A passed over |
| WebSocket.LongTexts | tools/hmi_profiler.py:227-230 | 300 bytes are announced as 7E 01 2C, 65536 as 7F and eight bytes |
| WebSocket.MaskedHello | tools/hmi_profiler.py:232-238 | The masked "Hello" of section 5.7 of RFC 6455 is read |
| WebSocket.FrameOnTheWire | tools/hmi_profiler.py:219-239 | Any unmasked frame, by its bytes: first byte, length in each of the three forms, payload |
| WebSocket.MaskedFrameOnTheWire | tools/hmi_profiler.py:232-238 | And any masked one: each payload byte is the one sent, exclusive-or the mask byte in turn |
| WebSocket.FrameIsActedOn | tools/hmi_profiler.py:269-283 | What each of the sixteen opcodes does to a message, by its four bits |
| WebSocket.MaskedTwice | tools/hmi_profiler.py:236-238 | Masking undoes itself |
| WebSocket.NumberIsRead | tools/hmi_profiler.py:227-230 | A big-endian length is read back |
| WebSocket.LengthIsRead | tools/hmi_profiler.py:242-251 | All three length forms are read back |
| WebSocket.FrameIsSmall | tools/hmi_profiler.py:272-274 | A ping that was read can be sent back |
| WebSocket.SentIsRead | tools/hmi_profiler.py:241-257 | What is sent is one final frame with that first byte, masked, its length in the shortest form |
| WebSocket.WebSocket.RecvExactly | tools/hmi_profiler.py:203-217 | Exactly the next bytes of the stream however they arrive, or a closed connection when there are fewer |
| WebSocket.WebSocket.ReadFrame | tools/hmi_profiler.py:219-239 | The frame the stream begins with, or a closed connection when it is not all there |
| WebSocket.WebSocket.ReadBody | tools/hmi_profiler.py:225-239 | What follows the first two bytes |
| WebSocket.WebSocket.ReadPayload | tools/hmi_profiler.py:233-239 | Mask and payload |
| WebSocket.WebSocket.SendFrame | tools/hmi_profiler.py:241-257 | One send whose bytes are one final frame: that first byte, masked, its length in the shortest form, the opcode's low four bits |
| WebSocket.WebSocket.Header | tools/hmi_profiler.py:242-251 | The first two bytes and the shortest length form |
| WebSocket.WebSocket.RecvText | tools/hmi_profiler.py:262-283 | The text, its pongs and the stream behind it are those of the stream specification |
| CallTree.BuildCallTree | tools/hmi_profiler.py:1085-1110 | Every node's total counts the kept samples through its path, its self those that end there, its children are the names that follow in first-seen order; no other node exists |
| CallTree.NodesCountSamples | tools/hmi_profiler.py:1093-1109 | Counted on the samples themselves: a node's total is the number of samples of the thread whose stack is entered by its calls, its self those taken right there; an unknown function is "???" |
| CallTree.NodesAreNamed | tools/hmi_profiler.py:1081-1106 | The root is there and is called "<all>", every other node by its last call |
| CallTree.TotalIsSelfPlusChildren | tools/hmi_profiler.py:1099-1109 | A node's total is its self and its children's totals |
| CallTree.TreesAgree | tools/hmi_profiler.py:1093-1110 | Trees of the same samples in another order differ in the order of children at most |
| CallTree.OrderDoesNotMatter | tools/hmi_profiler.py:1099-1109 | The counts of every path and the names after it do not depend on the order |
| CallTree.PathsFollowSamples | tools/hmi_profiler.py:1093-1100 | Reordered samples are reordered paths |
| CallTree.NamesAreChildren | tools/hmi_profiler.py:1103-1106 | A child exists exactly when a sample passes through it |
| CallTree.Tree.AddSample | tools/hmi_profiler.py:1099-1109 | One more sample |
| CallTree.Tree.Enter | tools/hmi_profiler.py:1101-1108 | One frame down: the child is made when new, and counted |
| CallTree.Tree.constructor | tools/hmi_profiler.py:1081-1082 | The root alone |
| CallTree.DominantPath | tools/hmi_profiler.py:1113-1123 | The first heaviest child at every step, as far as it reaches the threshold and no further |
| CallTree.HeaviestChild | tools/hmi_profiler.py:1119-1119 | The first of the heaviest children |
| CallTree.DominantPathIsUnique | tools/hmi_profiler.py:1113-1123 | That determines the path |
| CallTree.OneSampleIsDominant | tools/hmi_profiler.py:1113-1123 | A single sample is its own dominant path, whatever the threshold up to 100 % |
| CallTree.DominantPathIsOrderFree | tools/hmi_profiler.py:1113-1123 | For every threshold the path is the same in whatever order the samples come if and only if each child on it is strictly heavier than its siblings |
| CallTree.TiedPathMoves | tools/hmi_profiler.py:1119-1121 | Otherwise an order of the same samples with another dominant path |
| CallTree.DominantFrom | tools/hmi_profiler.py:1117-1122 | There always is a dominant path |
| CallTree.MajorityPathIsOrderFree | tools/hmi_profiler.py:1113-1123 | Above a threshold of 50 % it never depends on the order |
| CallTree.TiesFollowTheOrder | tools/hmi_profiler.py:1119-1121 | At 50 % or below it does: of two equal callers the one sampled first is the path |
| SingletonSweep.PlanSingletonSweep | packages/webview_cef/common/cef_cache_paths.cc:231-291 | A dead owner's files, the directory its link named, then the abandoned directories in the order found |
| SingletonSweep.PlannedIsPlan | packages/webview_cef/common/cef_cache_paths.cc:231-291 | That is exactly: no file but a dead owner's, and each directory its link named or that is abandoned, once |
| SingletonSweep.CollectedOnce | packages/webview_cef/common/cef_cache_paths.cc:270-288 | Every abandoned directory found is collected, once, and nothing else |
| SingletonSweep.StaleFilesAreSwept | packages/webview_cef/common/cef_cache_paths.cc:236-260 | From the state's own fields: a present lock, cookie or socket link is planned if and only if there is a root, the socket is absent or does not answer, and the files are at least ten seconds old; in that order, and nothing else |
| SingletonSweep.StaleDirectoryIsSwept | packages/webview_cef/common/cef_cache_paths.cc:261-267 | With them goes the Chromium directory the link names, first of all |
| SingletonSweep.AbandonedDirectoriesAreSwept | packages/webview_cef/common/cef_cache_paths.cc:270-288 | A directory found that does not answer, is 300 seconds old and is a direct Chromium child of the temp directory is always planned |
| SingletonSweep.OnlyTheseDirectoriesAreSwept | packages/webview_cef/common/cef_cache_paths.cc:259-288 | No other directory is: it is the one a stale link names, or one found that does not answer and is 300 seconds old, directly in the temp directory |
| SingletonSweep.CollectedInOrder | packages/webview_cef/common/cef_cache_paths.cc:283-287 | Directories found later are planned behind those found earlier |
| SingletonSweep.DirectoriesAreSafe | packages/webview_cef/common/cef_cache_paths.cc:259-288 | Every planned directory is a direct child of the temp directory with the prefix; one that answers or is young is planned only as the dead owner's, or under a path also found abandoned |
| SingletonSweep.FilesAreSafe | packages/webview_cef/common/cef_cache_paths.cc:245-258 | Files are planned only when nobody answers and they are old enough, each directly under the root, once |
| SingletonSweep.LiveOwnerIsSpared | packages/webview_cef/common/cef_cache_paths.cc:237-246 | A live owner keeps its files and its directory |
| SingletonSweep.SweepConverges | packages/webview_cef/common/cef_cache_paths.cc:231-291 | Sweeping what is left again plans no file ever, and no directory if and only if no absent link names one |
| SingletonSweep.SocketDirIsDirectChild | packages/webview_cef/common/cef_cache_paths.cc:212-229 | What passes the gate is a direct child of the temp directory with the prefix |
| SingletonSweep.DirectChildIsSocketDir | packages/webview_cef/common/cef_cache_paths.cc:212-229 | And every such child passes |
| SingletonSweep.ChildrenAreRecognised | packages/webview_cef/common/cef_cache_paths.h:192-197 | A child written as a listing writes it is recognised if and only if the temp directory is not the root |
| SingletonSweep.ParentOfChild | packages/webview_cef/common/cef_cache_paths.cc:33-40 | The parent of a joined path is what it was joined to |
| SingletonSweep.AddAbandoned | packages/webview_cef/common/cef_cache_paths.cc:270-288 | The loop over the directories found, in their order |
| SingletonSweep.PlanOrphan | packages/webview_cef/common/cef_cache_paths.cc:261-267 | The dead link's directory, behind the same gate |
| SingletonSweep.PlanFiles | packages/webview_cef/common/cef_cache_paths.cc:248-260 | The files that are there |
| SingletonSweep.JoinPath | packages/webview_cef/common/cef_cache_paths.cc:89-106 | One separator between the two, none doubled |
| SingletonSweep.StripTrailingSeparators | packages/webview_cef/common/cef_cache_paths.cc:24-30 | No separator at the end but a lone one |
| SingletonSweep.SeparatorsAreTheseTwo | packages/webview_cef/common/cef_cache_paths.cc:24-40 | A separator is a slash or a backslash |

## Left out

- Time is unbounded and never goes back; unsigned wrap-around is modelled in `BackoffMs` only.
- The host reads the clock once a message here; the source reads it again for each call, never backwards.
- Posted messages (a due rebuild, a raster loss, a storm) may arrive at any time, not only after they were posted; the theorems hold for all of these runs.
- FlutterWindow.Window.OnCreate: a run begins with a window that was made; one whose first engine does not start has no run.
- FlutterWindow.Window.ApplyAction: the timer is not modelled; one that cannot be armed disarms the watchdog in an event of its own.
- FlutterWindow.Window.Dispatch: an action that throws is not modelled; the disarming it leads to is an event of its own.
- The timer queue, `SendMessageTimeout` and the wedged-thread exit of `OnWatchdogTimerThread`, which races on purpose and ends the process.
- The answers of the sentinel device, the adapter comparison and the engine's start: arbitrary inputs.
- Log lines, loss reports and the throttles that sample them, and the wording of reasons that quote a duration.
- `set_storm_detector_available`: whether a detector is installed is fixed for a run.
- Files of a rotation that cannot be deleted or moved, and file systems that fold case.
- A function table's label text: `function_label` is a table of labels with "???" outside of it.
- The call tree's nested dictionaries: nodes are found by their path in one map that is updated in place, so aliasing of nodes is not modelled.
- The WebSocket's handshake, TLS and timeouts; a send always succeeds.
- WebSocket.WebSocket.SendFrame: opcodes of more than a byte and payloads of 2^64 bytes and more, which Python refuses, are not modelled.
- WebSocket.WebSocket.RecvText: the deadline is not modelled, and the bytes are returned as they are, not decoded as UTF-8.
- CallTree.DominantPath: the share is compared over the reals; the source divides and compares doubles, which may round the other way at the threshold.
- Choosing the browser's root cache directory, drive roots, and the deletion of what the sweep plans.
- The D3D and DXGI probes, minidumps, the GTK, Swift and Kotlin runners, and the plugin glue: plumbing around libraries whose code is not here.
