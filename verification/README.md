# Verified models of Mahiron

Mahiron is a tuner server for Japanese digital television.  This project models its protocols,
schedulers and codecs in Dafny and proves what they are for.  Code that updates state in place is
modelled as classes and methods with loops, each proved against functions on values; the theorems
are about those functions and about runs.

| files | component |
|---|---|
| `AgentProtocol`, `AgentSteps`, `AgentSafety`, `AgentClean`, `AgentRace`, `AgentExact`, `AgentRecover`, `AgentService`, `AgentHub` | receivers on remote agents, quarantine, reconnects and reboots |
| `SectionBits`, `Schedule`, `ScheduleHeaders`, `ScheduleTracker` | coverage of an event schedule (ARIB TR-B15) |
| `PeerForest`, `PeerFill` | groups of shared events, a union-find forest |
| `JobModel`, `JobTables`, `JobSched`, `JobRuns`, `JobOutcomes`, `JobStall`, `JobShutdown`, `JobStrand`, `JobManager` | the job scheduler |
| `CarouselModel`, `CarouselLogo`, `CarouselRoom`, `Carousel`, `CarouselAnnounce`, `CarouselRepeat`, `CarouselRun`, `CarouselCache` | the DSM-CC data carousel (ISO/IEC 13818-6) |
| `MmtPacket`, `MmtMessages`, `MmtAssembler` | MMTP packets and signaling messages (ARIB STD-B60) |
| `Crc`, `TsSection`, `TsPacked`, `TsGap`, `TsAssembler`, `TsPat` | MPEG-2 sections in transport-stream packets (ISO/IEC 13818-1) |
| `ProgramModel`, `ProgramWrite`, `ProgramUpsert`, `ProgramOverlap`, `ProgramAuthority`, `ProgramNewer`, `ProgramFields`, `ProgramManager` | merging broadcast programs into the store |
| `TunerModel`, `TunerRecord`, `TunerManager` | reserving tuners |

`dafny verify dfyconfig.toml` checks all files.

## Where a promise fails

Some properties one would expect do not hold of the code.  Each has a lemma with an input that shows
it and a lemma with the condition under which the property does hold.

- An agent answers a stop for a worker that has left its table as clean, which can overtake that worker's report of a failed cleanup: `OvertakingBreaksSafety` for every tuner, and `OvertakingIsExactlyUnsafe` for exactly which stops.
- Shutdown ranges over the job history while trimming shifts the same slice: `ShutdownStrandsJob`, and the exact condition in `ShutdownMisses`.
- Queued jobs that each write what the other reads never start: `CrossedKeysStall` reaches such a stall, `CrossedStayQueued` shows it lasts, and `StallsExactlyWhenCrossed` says which idle states are stalled.
- A schedule header that names a last table before its own can make readiness and diagnosis disagree: `MisleadingHeader`, and `CompleteExactlyWhenReady` says exactly when, after any headers.
- An update can leave programs overlapping: a row that keeps its time or is blocked undoes its own removal, and a row on air is passed over. `StayingRowOverlaps`, `BlockedRowOverlaps`, `OnAirRowOverlaps`, and the exact condition in `UpdateOverlapsExactlyWhenStuck`.
- Repeating an announcement can start downloads over for ever: `RepetitionLosesBlock`, and the exact conditions in `RepetitionLosesNothingExactly` and `LosesNothingExactly`; `AffordableIsFair` when everything announced fits.
- A program with only an extended revision escapes the authority of actual tables: `ExtendedOnlyDeletes`, `ExtendedOnlyOverwrites`, and the exact condition in `KeepsActualExactlyWhenSparing`.
- A loss of a multiple of sixteen packets is invisible: `UnseenGapSplices` for every multiple, and `GapsSeparateExactlyUnlessMultiple`.
- User calls of a device that was replaced reach its successor's reservation: `LateRemovalTouchesNewReservation`, `LateUserCountsForNext`, and the exact conditions in `LateUserCallsExactly`, while `LateCallbacksTouchNothing` holds for reports and releases.
- A section that starts in the last two bytes of a payload is lost: `ShortHeadIsLost`, and the exact condition in `PackedRoundTrip`.
- The current three-hour slot is wrong before 1970 in Japan: the exact condition in `SegmentIsSlotExactly`.
- A quarantine outlasts the agent process that caused it when the host does not reboot: `CrashOutlasts`, and the exact conditions in `HelloFreesExactly` and `NewProcessFreesExactly`.
- A user who leaves before joining is counted as staying: `LeaveFirst`, and the exact condition in `CountsBalanceExactly`.
- A program received later than the stored one is refused once its table has been received again since: the exact condition in `NewerReplacesOlder`.
- Lengths are cut to sixteen bits when MMTP extensions and aggregates are printed: both directions in `PacketRoundTrip` and `AggregateRoundTrip`.

## Model

| member | source | states |
|---|---|---|
| `AgentSafety.OneReceiverAlways` | internal/agent/hub.go:101-202 | in every run of hub, agent and network steps (drops, reconnects, crashes that leave orphans, host reboots, failing cleanups) in which no stop overtakes an unreported failed cleanup, one tuner never has two receivers alive |
| `AgentClean.CleanCleanupsAreSafe` | internal/agent/client.go:163-190 | if no receiver cleanup ever fails, every run is safe without further conditions |
| `AgentExact.OvertakingIsExactlyUnsafe` | internal/agent/client.go:182-190 | in every state reached without overtaking, a step is an overtaking stop exactly if, after it and without another, some run puts two receivers on a tuner |
| `AgentExact.OvertakingLeadsToTwo` | internal/agent/client.go:163-190 | from any such stop: the hub reads the clean answer, frees the tuner, loses the agent, and the restarted agent starts a second receiver beside the first |
| `AgentExact.ReadAll` | internal/agent/hub.go:159-175 | reports the hub reads before the answer keep the session listed and its tuner quarantined by its own connection at most |
| `AgentExact.PathInv` | internal/agent/hub.go:101-202 | from any state with the invariant, steps without an overtaking stop keep it, and every device no longer listed has been cleaned up |
| `AgentSteps.StopIsHarmless` | internal/agent/client.go:182-190 | a stop that would be answered ahead of the failure's report but does not overtake comes when the hub is shut down, or another session that can no longer be sent occupies the tuner |
| `AgentRace.OvertakingBreaksSafety` | internal/agent/client.go:182-190 | for every tuner key a reachable state with two receivers alive on that very tuner: a stop for a worker that has left the table is answered clean before its cleanup failure is reported |
| `AgentSafety.RunKeepsInv` | internal/agent/client.go:69-204 | every run of steps without an overtaking stop keeps the protocol invariant |
| `AgentRecover.HelloFreesExactly` | internal/agent/hub.go:115-138 | connecting and saying hello frees a quarantined tuner exactly if the process is the one that imposed it and has wound that generation up, or both boots are readable and differ; the identities are compared field by field |
| `AgentRecover.WindingUpFrees` | internal/agent/client.go:109-119 | from any reachable state in which an agent has lost its connection and none of its cleanups failed: ending its workers, finishing, connecting again and saying hello is possible and makes the tuner available again |
| `AgentRecover.NewProcessFreesExactly` | internal/agent/hub.go:127-136 | after a crash that the hub has noticed, the hello of a new process frees the tuner exactly if both boots are readable and differ |
| `AgentRecover.RebootFrees` | internal/agent/client.go:63-67 | so after a reboot it does, if the old boot id could be read |
| `AgentRecover.CrashOutlasts` | internal/agent/hub.go:127-136 | and after a crash without a reboot the quarantine outlasts it |
| `AgentRecover.RunNumbered` | internal/agent/client.go:63-67 | in every run each boot id known anywhere has been given out, so that a reboot's is new |
| `AgentService.ServiceStarts` | internal/agent/hub.go:364-401 | from any state with the invariant: a tuner that may be handed out by an attached agent with no worker on it gets a receiver, by registering, starting and the agent taking the command, whatever else the agent runs |
| `AgentService.ServiceEnds` | internal/agent/hub.go:423-447 | and one that is served is free to be handed out again after the stop, a clean exit, its report and the release |
| `AgentService.OneWorkerPerTuner` | internal/agent/client.go:142-162 | in every run whatever, overtaking stops included, no agent has two workers on one tuner |
| `AgentSafety.StepKeepsInv` | internal/agent/hub.go:101-202 | each of the 23 kinds of step keeps the invariant, unless it is an overtaking stop |
| `AgentSteps.ConnectKeepsInv` | internal/agent/hub.go:101-110 | accepting a connection: one per agent, and its hello says truthfully which generation the process has wound up |
| `AgentSteps.LiftedIsDead` | internal/agent/hub.go:127-136 | whatever a hello lifts from quarantine (same instance and recovered generation, or another boot) has no receiver alive |
| `AgentSteps.HelloKeepsInv` | internal/agent/hub.go:115-138 | welcome and registration, with the clearing of quarantine, keep the invariant |
| `AgentSteps.DisconnectKeepsInv` | internal/agent/hub.go:183-202 | a lost connection puts every session on it into quarantine, so a receiver that may be alive stays covered |
| `AgentSteps.RegisterKeepsInv` | internal/agent/hub.go:364-390 | a session is registered only for a tuner that is neither quarantined nor held |
| `AgentSteps.NothingElseLive` | internal/agent/hub.go:49-56 | while a session may still start its receiver, no other receiver of the tuner is alive or about to be |
| `AgentSteps.StartKeepsInv` | internal/agent/hub.go:397-401 | sending a start, delivered or lost with the connection closed, keeps the invariant |
| `AgentSteps.StopKeepsInv` | internal/agent/hub.go:423-441 | a stop is sent once per device and keeps the invariant |
| `AgentSteps.TimeOutKeepsInv` | internal/agent/hub.go:448-455 | a stop that times out quarantines the tuner before the device is given back |
| `AgentSteps.CompleteKeepsInv` | internal/agent/hub.go:341-363 | a clean report lifts only the session's own quarantine, a failed one imposes it |
| `AgentSteps.ReportKeepsInv` | internal/agent/hub.go:159-175 | a stopped report is heard only for a session of this connection and agent |
| `AgentSteps.ReceiveKeepsInv` | internal/agent/client.go:135-194 | an agent handling welcome, start or stop keeps the invariant unless the stop overtakes |
| `AgentSteps.ExitKeepsInv` | internal/agent/client.go:163-172 | a worker that ends leaves the table, and its receiver is alive only if the cleanup failed |
| `AgentSteps.SayStoppedKeepsInv` | internal/agent/client.go:173-181 | the worker's own report comes after everything said about its session before |
| `AgentSteps.FinishKeepsInv` | internal/agent/client.go:109-119 | the recovered generation is set only after all workers are gone and none failed its cleanup |
| `AgentSteps.BootKeepsInv` | internal/agent/client.go:32-33 | a new process has a new instance, no recovered generation and the current boot id if it can read one |
| `AgentSteps.RebootKeepsInv` | internal/agent/client.go:63-67 | a reboot kills the host's receivers and changes the boot id |
| `AgentHub.Hub.Accept` | internal/agent/hub.go:101-111 | a dialling process is let in exactly if the protocol's connect step is enabled, and the hub is then as that step leaves it |
| `AgentHub.Hub.Register` | internal/agent/hub.go:122-138 | the loop over quarantined tuners lifts exactly those the hello covers, the set that HelloFreesExactly describes, and the hub is as the protocol's hello step leaves it |
| `AgentHub.Hub.Disconnect` | internal/agent/hub.go:183-202 | only the agent's own connection is forgotten, its sessions are ended |
| `AgentHub.Hub.QuarantineSessions` | internal/agent/hub.go:188-195 | the loop over sessions quarantines the tuner of each session on the connection and keeps the others |
| `AgentHub.Hub.Start` | internal/agent/hub.go:364-390 | a session starts exactly if the tuner is available |
| `AgentHub.Hub.Complete` | internal/agent/hub.go:341-356 | the session ends; quarantine is imposed on failure, lifted if it is this connection's own otherwise |
| `AgentHub.Hub.StopTimeout` | internal/agent/hub.go:448-454 | a session that is still registered quarantines its tuner |
| `AgentHub.WorkerTable.HandleStart` | internal/agent/client.go:142-162 | a worker is spawned exactly if neither its session nor its tuner is in the table |
| `AgentHub.WorkerTable.WorkerDone` | internal/agent/client.go:163-172 | the table and its failure mark are those of the agent's link after the protocol's exit step |
| `Schedule.ReceivedMeansArrived` | internal/isdb/schedule.go:144-226 | in every reachable state a section is marked exactly if it arrived since its row's last reset, and then with the row's current version |
| `Schedule.MarkedExactly` | internal/isdb/schedule.go:144-226 | told from the headers alone: a section is marked exactly if it came and since then every header of its row had its version and the last table moved only among tables not before it |
| `Schedule.RowVersion` | internal/isdb/schedule.go:144-226 | a row's version and the group's last table are those of the latest headers since the last reset |
| `Schedule.ReadyExactlyWhenReceived` | internal/isdb/schedule.go:109-226 | for a fixed announced layout, after any order and repetition of sections within one three-hour slot, a group is ready exactly if every table up to the last was seen and every announced section arrived, elapsed segments of the first table excepted |
| `Schedule.FixedLayoutRow` | internal/isdb/schedule.go:144-226 | which sections of a row are marked or waived under a fixed layout, section by section |
| `Schedule.WaivedMeansExcused` | internal/isdb/schedule.go:180-224 | in every reachable state a section is waived exactly if its row is spare or a header excused it since the row was last emptied |
| `Schedule.SpareIs` | internal/isdb/schedule.go:168-192 | the spare rows are those past the last table that no new version has emptied since the last table moved past them |
| `Schedule.RowReadyMeans` | internal/isdb/schedule.go:144-226 | after any headers a row is ready exactly if it is spare or each of its 256 sections arrived or was excused since it was last emptied |
| `Schedule.UnseenRow` | internal/isdb/schedule.go:168-178 | after any headers an unseen row up to the last table owes everything |
| `Schedule.ReadyByTables` | internal/isdb/schedule.go:284-296 | after any headers a group is ready exactly if every table up to the last was seen and is full and no row past it is stranded: emptied by a new version since the last move and not covered again |
| `Schedule.NeverStranded` | internal/isdb/schedule.go:168-178 | no row is ever stranded when every header's last table is not before its own |
| `Schedule.MisleadingHeader` | internal/isdb/schedule.go:346-369 | a stranded row is reachable: two versions of a table past the announced last one leave the group unready although nothing is owed |
| `ScheduleHeaders.ReadyExactlyWhenCame` | internal/isdb/schedule.go:109-226 | told from the section headers as bytes: when they agree with one announced plan within one slot, a group is ready exactly if every table up to the last and every section they announce has come, those of elapsed slots of the first table excepted |
| `ScheduleHeaders.SegmentIsSlotExactly` | internal/isdb/schedule.go:248-252 | the segment that counts as current is the three-hour slot of the day in Japan exactly from 1970 in Japan on, and before it on slot boundaries only |
| `ScheduleHeaders.PlaceIs` | internal/isdb/schedule.go:25-50 | the group and index of a table id in either system: groups of eight from the listed first ids, basic and extended apart |
| `ScheduleTracker.MarkRow` | internal/isdb/schedule.go:180-224 | the bitmap updates of one header do to the row what the set model does, and report a change exactly if a bit moved |
| `ScheduleTracker.Waive` | internal/isdb/schedule.go:193-218 | the three waiving loops add exactly the sections the header excuses, and report a change exactly if a bit moved |
| `ScheduleTracker.MoveLast` | internal/isdb/schedule.go:168-178 | when the last table moves, the rows past the old or the new one start over, required up to the new one, and the others stay |
| `ScheduleTracker.ObserveReady` | internal/isdb/schedule.go:144-226 | the bitmaps after a header are what the whole history makes of them; changed exactly if a bit moved, and the resets are the coverage this header discards |
| `ScheduleTracker.GroupReady` | internal/isdb/schedule.go:284-296 | the loop over rows and segments computes readiness of the set model |
| `ScheduleTracker.RowFull` | internal/isdb/schedule.go:284-296 | every byte of marks and waivers is full exactly if every section is covered |
| `ScheduleTracker.MissingSections` | internal/isdb/schedule.go:371-386 | the owed sections, all and only, in increasing order; none exactly if the row is ready |
| `ScheduleTracker.NothingListed` | internal/isdb/schedule.go:346-386 | after any headers nothing of a group is listed exactly if every table up to the last is seen and covered |
| `ScheduleTracker.CompleteExactlyWhenReady` | internal/isdb/schedule.go:346-369 | after any headers every group is ready exactly if the diagnosis is empty and no row is stranded, and none is under sensible headers |
| `ScheduleTracker.ReadyExactlyWhenAllCame` | internal/isdb/schedule.go:256-282 | for a tracker fed any headers that agree with one plan per group within one slot: its basic groups are complete exactly if every announced section of each has come, and so are its extended ones |
| `ScheduleTracker.KeptIsFirstOfVersion` | internal/isdb/schedule.go:114-130 | after any sections, the payload kept of a section is the first that came with the version it has now, and nothing is kept of one that never came |
| `ScheduleTracker.Tracker.constructor` | internal/isdb/schedule.go:92-98 | a tracker starts with nothing observed |
| `ScheduleTracker.Tracker.ObserveLazy` | internal/isdb/schedule.go:109-142 | the tracker stays tied to the history of observed sections and to the received headers, which ReadyExactlyWhenAllCame is about; version and payload of this section only are stored, progress is reported exactly if the payload is new or coverage moved, and discarded coverage is counted |
| `ScheduleTracker.Tracker.Store` | internal/isdb/schedule.go:114-130 | a payload is kept exactly if its section or version is new; the version is noted, other sections and tables stay |
| `ScheduleTracker.Tracker.Take` | internal/isdb/schedule.go:114-142 | storing and advancing one section keeps payloads and groups tied to everything that came |
| `ScheduleTracker.Tracker.Advance` | internal/isdb/schedule.go:136-142 | the group of the section's table takes the observation |
| `ScheduleTracker.Tracker.BasicComplete` | internal/isdb/schedule.go:256-268 | some basic group exists and all basic groups are ready |
| `ScheduleTracker.Tracker.ExtendedComplete` | internal/isdb/schedule.go:272-282 | all extended groups are ready |
| `ScheduleTracker.Tracker.Diagnosis` | internal/isdb/schedule.go:346-369 | lists exactly what is owed; all groups are ready exactly if it lists nothing and no row is stranded |
| `PeerForest.RootsAreGroups` | internal/epggather/program_merge.go:26-48 | two keys have one root exactly if shared-event references connect them (reflexive, symmetric, transitive closure) |
| `PeerForest.Forest.Find` | internal/epggather/program_merge.go:26-39 | find terminates on the acyclic parent map, returns the root, and path compression changes no root |
| `PeerForest.Forest.Union` | internal/epggather/program_merge.go:41-48 | the groups become those of the references with one more |
| `PeerForest.Forest.Join` | internal/epggather/program_merge.go:41-48 | hanging one root under the other joins exactly their two groups |
| `PeerForest.Forest.Compress` | internal/epggather/program_merge.go:36-38 | pointing a key at its root keeps the forest acyclic and every root |
| `PeerFill.BuildForest` | internal/epggather/program_merge.go:50-70 | after the loop the forest's references are those of the events |
| `PeerFill.CollectPeers` | internal/epggather/program_merge.go:72-79 | each root lists its events in input order |
| `PeerFill.IndicesArePeers` | internal/epggather/program_merge.go:72-79 | the events under a root are the connected ones, in input order |
| `PeerFill.EdgeMeansReference` | internal/epggather/program_merge.go:55-68 | an edge is a reference of group type 1 with a service and an event, in the named network or the event's own |
| `PeerFill.FillEventFromPeers` | internal/epggather/program_merge.go:96-123 | an event takes each field it lacks from the first peer that has it, and loses none |
| `PeerFill.FilledStable` | internal/epggather/program_merge.go:81-123 | filling from peers that are already filled gives the same as from the originals |
| `PeerFill.FillGroup` | internal/epggather/program_merge.go:81-85 | in-place filling in order equals filling from the originals |
| `PeerFill.FillEventsFromSharedPeers` | internal/epggather/program_merge.go:23-86 | every event ends as filled from its whole connected group of original events |
| `PeerFill.NameAfterFilling` | internal/epggather/program_merge.go:101-103 | an empty name becomes the first non-empty name of the group in input order, others stay |
| `PeerFill.NameWithoutPeers` | internal/epggather/program_merge.go:101-103 | without a named peer the name stays as it was |
| `JobSched.StallsExactlyWhenCrossed` | internal/job/manager.go:303-393 | an idle scheduler with a queue can start nothing exactly if every dependency-ready queued job reads a key that another dependency-ready queued job writes |
| `JobSched.StallIsCrossing` | internal/job/manager.go:343-367 | with acyclic dependencies and no retry pending a stall always has a ready reader of a key that another ready job writes |
| `JobSched.DispatchMakesProgress` | internal/job/manager.go:188-197 | so if no queued definition has both kinds of key, after dispatching some job runs or the queue is empty |
| `JobStall.CrossedKeysStall` | internal/job/manager.go:343-367 | a run of the manager, starting whatever may start before anything else, that ends stalled with two jobs that each write what the other reads |
| `JobStall.CrossedNeverLaunched` | internal/job/manager.go:303-367 | along every run, while two such jobs are queued and dependency-ready, no step starts either |
| `JobStall.CrossedStayQueued` | internal/job/manager.go:303-367 | without dependencies they stay queued in every run until one of them is aborted |
| `JobRuns.RunsNeverConflict` | internal/job/manager.go:303-429 | in every state of every run: no two running jobs meet on a key that one holds exclusively, the key tables and counters equal the running set, and neither the shared limit nor a group's is exceeded |
| `JobRuns.RunsKeepJobs` | internal/job/manager.go:163-292 | in every state of every run: the active keys are exactly those of the unfinished jobs, one each, in the history; at most one start more than retries, at most one finish |
| `JobOutcomes.JobLaw` | internal/job/manager.go:199-292 | in every run of the manager's operations, a job nobody aborts before shutdown: its handler is started once more than the number of leading retryable failures among its outcomes, capped at its retry delays plus one; then it is finished, failed exactly if the last outcome was a failure, never on success or cancellation; until then it waits exactly between a return and its timer |
| `JobOutcomes.AbortLaw` | internal/job/manager.go:523-577 | an abort while the handler runs makes the current start the last, whatever it returns: the job ends aborted and not failed and stays so; any other unfinished job does at once |
| `JobOutcomes.LastReturn` | internal/job/manager.go:199-227 | a handler that returns after an abort or shutdown was started for the last time; the job failed exactly if the outcome is a failure and it was not aborted |
| `JobOutcomes.OperatedSound` | internal/job/manager.go:122-577 | every run of the manager's operations, with the starts and aborts that end them, keeps all tables right |
| `JobRuns.RunSound` | internal/job/manager.go:163-577 | every run of enqueues, starts, retries, ends and aborts keeps all tables right |
| `JobRuns.ReadersWaitForWriters` | internal/job/manager.go:343-367 | in every run no step starts a reader of a key while a dependency-ready writer of it is queued |
| `JobRuns.StartsExactlyWhen` | internal/job/manager.go:303-393 | in every state of every run a queued job may be started exactly if no unfinished job has a key it depends on, no running job writes a key it uses or reads one it writes, no other queued job with finished dependencies writes a key it reads, and its group and, unless independent, the manager have room; told by jobs, not tables |
| `JobRuns.BestIsUnique` | internal/job/manager.go:330-338 | there is never a choice which runnable job is started first |
| `JobSched.JobGuarantees` | internal/job/manager.go:163-292 | in every sound state: at most one unfinished job per key, found in the history, handler started at most once more than its retries, finished at most once |
| `JobSched.AddedSound` | internal/job/manager.go:163-186 | enqueuing keeps every table right |
| `JobSched.LaunchedSound` | internal/job/manager.go:395-414 | starting a runnable job keeps exclusive and shared keys apart, the counters equal to the running set, and all limits |
| `JobSched.StoodBySound` | internal/job/manager.go:229-258 | waiting for a retry frees keys and places but keeps the job's key |
| `JobSched.FinishSound` | internal/job/manager.go:260-292 | finishing frees the key and trims the history of finished jobs only |
| `JobSched.RequeuedSound` | internal/job/manager.go:431-437 | a retry returns to the queue once |
| `JobSched.MarkedAbortedSound` | internal/job/manager.go:539-553 | an abort request leaves a running job where it is |
| `JobSched.TrimKeeps` | internal/job/manager.go:727-741 | trimming never drops an unfinished job and stops within the limit or with unfinished jobs only |
| `JobTables.AcquireKeys` | internal/job/manager.go:402-407 | taking keys that are free keeps each exclusive key with one holder and no reader of another job |
| `JobTables.AcquireRoom` | internal/job/manager.go:408-409 | one more running job keeps group and shared counts equal to the running set and within limits |
| `JobTables.ReleaseKeys` | internal/job/manager.go:418-426 | giving keys up restores the tables of the remaining jobs |
| `JobTables.ReleaseRoom` | internal/job/manager.go:427-428 | giving the place up restores the counts of the remaining jobs |
| `JobManager.Manager.BlockedByWriter` | internal/job/manager.go:343-367 | true exactly if a dependency-ready queued writer wants a key the job reads |
| `JobManager.Manager.DependenciesSatisfied` | internal/job/manager.go:376-393 | true exactly if no dependency is active and the job's keys are free |
| `JobManager.Manager.SharedRunning` | internal/job/manager.go:307-312 | the running jobs outside independent groups |
| `JobManager.Manager.CheckRunnable` | internal/job/manager.go:305-328 | true exactly if limits, writers, dependencies and keys allow the job |
| `JobManager.Manager.SelectRunnable` | internal/job/manager.go:303-339 | the first runnable job of the highest priority, or none if none may run |
| `JobManager.Manager.Launch` | internal/job/manager.go:395-414 | a selected job leaves the queue and holds its keys and places |
| `JobManager.Manager.CompleteActive` | internal/job/manager.go:416-429 | keys and counters are given back |
| `JobManager.Manager.TrimHistory` | internal/job/manager.go:727-741 | the nested loops drop the oldest finished jobs until the limit holds |
| `JobManager.Manager.FinishLocked` | internal/job/manager.go:260-292 | the job is finished, and failed only if not aborted or cancelled |
| `JobManager.Manager.Dispatch` | internal/job/manager.go:188-197 | a run of starts, each of the first runnable job of the highest priority, until none may run |
| `JobManager.Manager.Enqueue` | internal/job/manager.go:163-186 | refused exactly on shutdown, an invalid definition or an active key, with nothing changed; otherwise the job is added and jobs are started until nothing runnable is queued |
| `JobManager.AcceptableExactly` | internal/job/manager.go:163-172 | a definition with a key and a handler is accepted exactly if an idle manager has room for it |
| `JobManager.Manager.HandlerReturns` | internal/job/manager.go:199-227 | the return operation of JobOutcomes, about which JobLaw, AbortLaw and LastReturn are: the job waits for a retry or is finished by its outcome, then jobs are started until nothing runnable is queued |
| `JobManager.Manager.RetryFires` | internal/job/manager.go:237-257 | a waiting job rejoins the queue and jobs are started; a timer that comes too late changes nothing |
| `JobManager.Manager.Abort` | internal/job/manager.go:523-577 | succeeds exactly for an unfinished job, which is only marked if it runs and else leaves the queue and finishes as aborted |
| `JobManager.Manager.Shutdown` | internal/job/manager.go:122-142 | a run of aborts that empties the queue; afterwards something is unfinished that does not run exactly if, the queued jobs aborted, the history is over its limit with the neighbours that ShutdownMisses describes |
| `JobManager.Manager.AbortStandby` | internal/job/manager.go:445-449 | walking the shifting history aborts waiting jobs, and one is left over exactly in the case ShutdownMisses describes |
| `JobShutdown.ShutdownMisses` | internal/job/manager.go:445-449 | ranging over the history while trimming shifts it misses a waiting job exactly if the history is over its limit and two neighbours wait, neither of them last, with fewer waiting jobs before them than there are jobs too many |
| `JobShutdown.SweptOver` | internal/job/manager.go:445-449 | which waiting jobs are aborted and which are stepped over, job by job |
| `JobStrand.ShutdownStrandsJob` | internal/job/manager.go:445-449 | a run of the manager that ends with three waiting jobs in a history of two, of which shutdown never aborts one |
| `CarouselRun.DownloadEndsExactlyOnce` | ts/dsmcc_carousel.go:101-342 | in every run of blocks, announcements, restores, releases and invalidations in which each announcement names the module and fits, the event that brings the last missing block, and no earlier one, is answered with the payload; a module over the completed budget is dropped there |
| `CarouselRun.DownloadUnderWay` | ts/dsmcc_carousel.go:101-342 | until then the carousel holds the module with exactly the blocks that have come |
| `CarouselRun.OtherBlocksSpare` | ts/dsmcc_carousel.go:256-261 | a block of another module, whatever its completion evicts, leaves an incomplete module alone |
| `CarouselRun.AffordableIsFair` | ts/dsmcc_carousel.go:101-165 | from an empty carousel on, repeating one announcement whose modules fit into the in-flight budget together is fair to every download, whatever else happens short of completing it from a cache |
| `CarouselRun.RunStaysInBudget` | ts/dsmcc_carousel.go:101-342 | in every run completed bytes stay in budget, and in every run without invalidations so do bytes in flight |
| `CarouselCache.BecomesReadableExactly` | ts/dsmcc_carousel.go:223-342 | in any sound state an event makes a module readable exactly if it brings its last missing block or a cached copy of the announced identity and size, within the completed budget |
| `CarouselCache.CompletedStaysExactly` | ts/dsmcc_carousel.go:223-342 | a released module keeps all but its data, an invalidated one starts over with no block, and no other event but an announcement changes a completed module; it only goes for one that completes |
| `CarouselCache.AnnouncedAgainStays` | ts/dsmcc_carousel.go:108-132 | a completed module, released or not, that is announced again as it is stays as it is |
| `CarouselRepeat.RepetitionLosesNothingExactly` | ts/dsmcc_carousel.go:125-152 | announced twice from an empty carousel, distinct modules keep every download exactly if all of them fit into the in-flight budget together |
| `CarouselRepeat.RepetitionLosesBlock` | ts/dsmcc_carousel.go:125-152 | two modules that do not fit together: the same announcement again starts the second over and drops the block it had |
| `CarouselAnnounce.LosesNothingExactly` | ts/dsmcc_carousel.go:101-165 | in any state, an announcement that comes again keeps every download under way exactly if none of its modules is missing, or each download fits with the incomplete ones not older and all missing ones |
| `CarouselAnnounce.AllocationSparesExactly` | ts/dsmcc_carousel.go:133-152 | one allocation keeps an incomplete module exactly if it fits into the budget with the incomplete ones not older and the new one |
| `CarouselAnnounce.FitsSpares` | ts/dsmcc_carousel.go:101-165 | any announcement whose changed and missing modules fit beside what is in flight leaves alone every module it names as it is |
| `CarouselAnnounce.InfosKeep` | ts/dsmcc_carousel.go:108-153 | after any announced modules a module is as it was or was started over under a new generation |
| `CarouselRoom.KeptReached` | ts/dsmcc_carousel.go:135-140 | evicting the oldest until the rest fits keeps exactly the modules that fit with everything not older |
| `CarouselRoom.KeptEvictsOldest` | ts/dsmcc_carousel.go:378-414 | and those are what evicting oldest first leaves: whatever goes is older than any candidate that stays |
| `CarouselRoom.KeptFits` | ts/dsmcc_carousel.go:135-140 | what is kept fits |
| `CarouselModel.DownloadCompletes` | ts/dsmcc_carousel.go:223-263 | fed its blocks in any order with any repetition, a module completes exactly if every block has come, and then equals the payload |
| `CarouselModel.AbsorbOk` | ts/dsmcc_carousel.go:236-253 | the count equals the received flags, and the module completes with the last missing one |
| `CarouselModel.BlocksCover` | ts/dsmcc_carousel.go:141 | without 32-bit wrap-around the block count is exact |
| `CarouselLogo.LogoAgrees` | ts/logo_common.go:362-382 | the map-based logo assembler gives the payload exactly when the carousel's module completes with it, and nothing before |
| `CarouselLogo.LogoModule.Assemble` | ts/logo_common.go:362-382 | the loop joins the blocks, or gives nothing if one is missing |
| `CarouselLogo.LogoModule.ObserveBlock` | ts/logo_common.go:328-360 | a block is kept exactly if it belongs to the module and nothing was emitted yet |
| `Carousel.Carousel.constructor` | ts/dsmcc_carousel.go:93-99 | an empty carousel's counters are right |
| `Carousel.Carousel.Remove` | ts/dsmcc_carousel.go:365-376 | removing a module takes exactly its load off its counter |
| `Carousel.Carousel.EvictOldestInFlight` | ts/dsmcc_carousel.go:378-395 | the incomplete module of least generation goes, if there is one |
| `Carousel.Carousel.EvictOldestCompletedExcept` | ts/dsmcc_carousel.go:397-414 | the completed module of least generation that still has data goes, other than the exception |
| `Carousel.Carousel.MakeRoom` | ts/dsmcc_carousel.go:135-140 | the eviction loop always makes room for a module within the budget, so the second rejection is unreachable, and keeps an incomplete module exactly if it fits with those not older and the new size |
| `Carousel.Carousel.ObserveModule` | ts/dsmcc_carousel.go:108-153 | refused, unchanged, over budget or newly allocated with exactly the modules kept that fit, and a rejected one listed with its reason; in-flight bytes are in budget after an allocation |
| `Carousel.Carousel.ObserveDII` | ts/dsmcc_carousel.go:101-165 | the announced modules are handled in turn, the accepted ones are returned in order and only announced ones stay; in-flight bytes stay in budget |
| `Carousel.Carousel.ObserveDDB` | ts/dsmcc_carousel.go:223-264 | ignored, taken or completing; completed modules go only for lack of room, completed bytes never exceed the budget, and completion fails exactly for a module larger than it |
| `Carousel.Carousel.KeepCompletedBudget` | ts/dsmcc_carousel.go:256-261 | a completed module stays exactly if it fits with the new one and the others not older, the new one exactly if it fits alone |
| `Carousel.Carousel.ModuleOf` | ts/dsmcc_carousel.go:266-272 | a module is readable exactly if it is complete and not released |
| `Carousel.Carousel.ReleaseCompletedPayload` | ts/dsmcc_carousel.go:302-310 | only the data goes, and its bytes leave the count |
| `Carousel.Carousel.Invalidate` | ts/dsmcc_carousel.go:282-297 | a completed module of the same identity starts over as a fresh download |
| `Carousel.Carousel.Restore` | ts/dsmcc_carousel.go:324-342 | succeeds exactly for the announced incomplete module of equal identity and size within the budget |
| `MmtPacket.PacketRoundTrip` | mmt/mmtp.go:41-79 | a printed packet parses back to itself exactly if its extension is shorter than 2^16 bytes |
| `MmtPacket.PrintedParses` | mmt/mmttest/mmttest.go:62-84 | what a printed packet parses to in any case: the extension cut at its length modulo 2^16, the rest in the payload |
| `MmtMessages.SignalingReads` | mmt/mmtp.go:93-104 | a printed signaling payload parses to its indicator, counter and data |
| `MmtMessages.Messages` | mmt/mmtp.go:108-136 | the loop splits an aggregate completely or reports it malformed |
| `MmtMessages.AggregateRoundTrip` | mmt/mmttest/mmttest.go:94-101 | an aggregate gives its messages back exactly if each is shorter than 2^16 bytes |
| `MmtMessages.SignalingPackets` | mmt/mmttest/mmttest.go:105-132 | the two loops print the packets that divide the message |
| `MmtMessages.SentIsPieces` | mmt/mmttest/mmttest.go:109-131 | fragment by fragment: indicator, counter and number modulo 2^32 |
| `MmtAssembler.MessageAssembler.Feed` | mmt/mmtp.go:157-203 | a packet is answered from its own stream and changes no other |
| `MmtAssembler.StreamsAreIndependent` | mmt/mmtp.go:157-203 | however inputs are interleaved, each stream fares as it would alone |
| `MmtAssembler.MessageDelivered` | mmt/mmtp.go:165-202 | whatever was pending, a sent message comes out once, with its last packet, exactly if it is undivided or at most 2^20 bytes |
| `MmtAssembler.InterleavedDelivery` | mmt/mmtp.go:157-203 | in any interleaving a stream of sent messages yields exactly the deliverable ones, in order |
| `MmtAssembler.MessageParses` | mmt/mmttest/mmttest.go:105-132 | every packet the sender prints parses back to itself |
| `MmtAssembler.JoinedInEveryRun` | mmt/mmtp.go:157-203 | in every interleaving of streams, what a last fragment completes is joined from a first and middle ones of its own stream with consecutive numbers, in order, within 2^20 bytes |
| `MmtAssembler.JoinedIsChain` | mmt/mmtp.go:188-202 | over arbitrary input every joined payload is a first, middle and a last fragment of one stream with consecutive numbers, in order, within 2^20 bytes |
| `Crc.FormsAgree` | ts/section.go:145-169 | the table-driven CRC equals the bit-serial one on every byte string |
| `Crc.ShiftXor` | ts/section.go:159-165 | one shift step is linear over exclusive or |
| `Crc.StepsAgree` | ts/section.go:148 | one table lookup does what eight shifts do |
| `Crc.AppendedValidates` | ts/section.go:21-26 | data with its CRC appended leaves a zero remainder |
| `Crc.MakeTable` | ts/section.go:155-169 | the nested loops fill the table |
| `Crc.Crc32` | ts/section.go:145-151 | the loop over bytes computes the table-driven CRC |
| `Crc.AppendCrc` | mmt/mmttest/mmttest.go:233-246 | the bit-serial loop appends a CRC that the receiver accepts |
| `TsSection.ListRoundTrip` | ts/section.go:60-143 | any list of valid sections, packetized with one running counter, comes out of any assembler as exactly that list |
| `TsSection.SectionEmits` | ts/section.go:60-143 | from any state a section's packets bring out exactly that section |
| `TsPacked.PackedRoundTrip` | ts/section.go:60-143 | from any state, any list of valid sections laid end to end in payloads of any sizes, each payload in which one starts saying how many bytes come first, comes out exactly if none starts in the last two bytes of a payload; in any case those come out, in order, whose first three bytes are in one payload |
| `TsPacked.ShortHeadIsLost` | ts/section.go:101-120 | two sections, of the second of which the first payload holds two bytes: only the first comes out |
| `TsPacked.PackedData` | ts/section.go:60-99 | those payloads without their pointers carry the sections end to end and then stuffing |
| `TsPacked.CompleteFound` | ts/section.go:122-143 | a buffer of sections laid end to end brings out all whole ones in order and keeps the broken rest |
| `TsGap.GapSeparates` | ts/section.go:68-73 | when lost packets are no multiple of sixteen, everything after them is assembled as by a fresh assembler: no section mixes both sides |
| `TsGap.GapsSeparateExactlyUnlessMultiple` | ts/section.go:68-73 | a loss of so many packets can never mix two sides exactly if it is no multiple of sixteen |
| `TsGap.UnseenGapSplices` | ts/section.go:68-73 | for every multiple of sixteen some stream loses so many packets and yields a section made of both sides, with a valid CRC |
| `TsGap.StepSettles` | ts/section.go:60-143 | the buffer is empty exactly when nothing is expected |
| `TsAssembler.BuildPacket` | ts/demux.go:408-428 | the in-place writes give header, pointer, section bytes and stuffing |
| `TsAssembler.PacketizeSection` | ts/demux.go:403-432 | the packets are read as the section's views and the counter moves on by their number |
| `TsAssembler.FirstReads` | ts/packet.go:21-80 | the header accessors read back what the packetizer wrote in a first packet |
| `TsAssembler.RestReads` | ts/packet.go:21-80 | and in a later one |
| `TsAssembler.AdaptationReads` | ts/packet.go:21-80 | behind an adaptation field of any length the payload is what follows it, and none if the packet says it has none |
| `TsAssembler.SectionAssembler.FeedAll` | ts/section.go:60-99 | a packet takes exactly the specified step, whose runs ListRoundTrip, PackedRoundTrip and GapSeparates are about |
| `TsAssembler.SectionAssembler.ConsumePayload` | ts/section.go:101-120 | the loop cuts whole sections off a payload and keeps a part |
| `TsAssembler.SectionAssembler.CompleteSections` | ts/section.go:122-143 | the loop cuts whole sections off the buffer |
| `TsAssembler.SectionAssembler.Feed` | ts/section.go:43-57 | waiting sections come first, and the packet fed meanwhile is not looked at |
| `TsPat.ParsePat` | ts/pat.go:14-38 | the loop reads every whole entry before the CRC |
| `TsPat.ProgramsAreEntries` | ts/pat.go:28-36 | the parsed programs are those with an entry, each with the PID of its last one |
| `TsPat.TableRoundTrip` | ts/pat.go:14-38 | a PAT of any number of entries parses back to stream, version modulo 32, every program with the PID of its last entry and the last entry of number zero as network PID |
| `TsPat.PatRoundTrip` | ts/pat.go:40-64 | a built PAT parses back to stream, version modulo 32 and its one program; number zero is read as the network PID |
| `TsPat.BuiltIsValid` | ts/pat.go:58-63 | what is built has the declared length and a valid CRC |
| `TsPat.PatThroughStream` | ts/demux.go:356-372 | a built PAT survives packetizing and assembling |
| `ProgramAuthority.YieldingNeverOverrides` | internal/program/manager.go:122-281 | an update in which every program has a basic revision of another table, or none and stays clear of other actual rows and off the time and name of its own, deletes no row of an actual table and leaves its start, duration, revision and any name |
| `ProgramAuthority.OtherNeverOverridesActual` | internal/program/manager.go:122-281 | in particular an update whose programs all have revisions of other tables |
| `ProgramAuthority.AuthorityInEveryRun` | internal/program/eit.go:27-122 | the same in every run of such updates since a restart |
| `ProgramAuthority.KeepsActualExactlyWhenSparing` | internal/program/manager.go:122-281 | a program without a basic revision leaves an actual row standing with its time, revision and name exactly if it is not written, keeps that row's time and name, or is blocked or no rival of it |
| `ProgramAuthority.ExtendedOnlyDeletes` | internal/program/eit.go:27-30 | whatever is remembered, a program known only from an extended other table can delete an actual row |
| `ProgramAuthority.ExtendedOnlyOverwrites` | internal/program/eit.go:27-30 | and under that row's id move and rename it |
| `ProgramAuthority.OtherRejected` | internal/model/eit.go:17-25 | an other revision is never preferred to an actual row |
| `ProgramAuthority.RejectedIsFaithful` | internal/program/manager.go:135-144 | a rejected program fills gaps of the stored row and moves or renames nothing |
| `ProgramAuthority.ModestRun` | internal/program/manager.go:184-254 | along the writes of such an update no actual row is removed or blocked |
| `ProgramUpsert.UpsertKeepsProvenance` | internal/program/eit.go:69-99 | every update keeps the invariant that what is remembered of an actual row is not an other revision |
| `ProgramNewer.NewerReplacesOlder` | internal/program/eit.go:27-47 | one actual program over a row that is not on air: the row takes its time and name exactly if no later reception is remembered of its id or its table and no row is in its way; otherwise it keeps its time and any name; receptions are compared as numbers |
| `ProgramNewer.UpdateTakesFresh` | internal/program/manager.go:70-293 | in any batch, for an id whose program is actual: the row shows it exactly if nothing later is known of its id or table or comes in the batch and it is neither displaced nor blocked; otherwise what there is of a row keeps time and name |
| `ProgramNewer.BatchTakesLatest` | internal/program/eit.go:124-142 | of several programs of one id in a batch the actual one received last is taken, the last of equals |
| `ProgramNewer.RunKeepsLatest` | internal/program/eit.go:27-122 | in every run since a restart in which the id is not on air: an actual row has the time and name of the last update that brought a fresh actual program neither displaced nor blocked, or its time of before the run |
| `ProgramNewer.LastAppliedIsLatest` | internal/program/eit.go:69-99 | and of all those updates it is the one received last |
| `ProgramNewer.BlockedExactlyIfObstructed` | internal/program/manager.go:200-241 | an actual program alone is blocked exactly by an overlapping row without a revision of which a later actual one is remembered |
| `ProgramFields.AcceptedExactly` | internal/program/eit.go:27-47 | for actual and other programs: accepted exactly if nothing later is known of the table and the revision outdates what is remembered of the id, or else stored, an other one only within its own source |
| `ProgramFields.UpdateTakesExtended` | internal/program/manager.go:122-173 | in any batch: the extended part is replaced exactly if its own revision is fresh in the same sense and the row is not blocked, whatever becomes of the basic part |
| `ProgramFields.BatchTakesLatestExtended` | internal/program/eit.go:124-142 | of several extended parts of one id in a batch the one received last from an actual table is taken |
| `ProgramFields.OnAirRowStays` | internal/program/manager.go:122-173 | a row on air keeps its time, flags and any name and description whatever schedule comes |
| `ProgramFields.DecidedOffAir` | internal/program/manager.go:122-173 | over a row off air an accepted program puts its flags, stream and description, a rejected one only fills gaps |
| `ProgramFields.AnnouncedUpTo` | internal/program/eit.go:101-122 | what is known of a table after an announcement is the latest of what was known and all announced of it |
| `ProgramFields.RecordedUpTo` | internal/program/eit.go:69-99 | recording a row notes its revisions for their tables as well, and keeps the latest |
| `ProgramUpsert.RowAfter` | internal/program/manager.go:256-281 | the stored row of an id after an update: written, deleted or untouched |
| `ProgramUpsert.RecordAllBasic` | internal/program/eit.go:69-99 | what is remembered of an id after an update |
| `ProgramUpsert.ChangesOk` | internal/program/manager.go:122-173 | the rows to write are the merged ones that differ from the store, one per id |
| `ProgramWrite.WriteResult` | internal/program/manager.go:181-270 | whatever is on air, for any revisions: what a change left under its id stays unless a later change displaces it, and of the other rows those that none displaces |
| `ProgramOverlap.UpdateOverlapsExactlyWhenStuck` | internal/program/manager.go:70-293 | for every batch, memory and store without overlaps: the update leaves none exactly if no later written row that keeps its time or is blocked overlaps an earlier one, and none that is not present takes a place over a row on air, all undisplaced |
| `ProgramWrite.OverlapMeans` | internal/program/manager.go:214-226 | two programs overlap exactly if they are of one service and some moment is in both, ends excluded |
| `ProgramWrite.OverlapsExactlyWhenStuck` | internal/program/manager.go:181-270 | the same of any changes with ids of their own |
| `ProgramOverlap.UnblockedMovesNeverOverlap` | internal/program/manager.go:181-270 | so with nothing on air none is left when every written row is new or moves and none is blocked |
| `ProgramOverlap.MovedRowsNeverOverlap` | internal/program/manager.go:70-293 | as with programs without revisions that are new or move, over stored rows of theirs without revisions |
| `ProgramOverlap.StayingRowOverlaps` | internal/program/manager.go:191-196 | a row that keeps its time takes back its own removal: an overlap remains |
| `ProgramOverlap.BlockedRowOverlaps` | internal/program/manager.go:225-241 | so does a moving row that is blocked by a more authoritative one: an overlap remains though no row keeps its time |
| `ProgramOverlap.OnAirRowOverlaps` | internal/program/manager.go:223-225 | and a new program over one on air: an overlap remains though no row keeps its time or is blocked |
| `ProgramManager.Manager.UpsertSchedule` | internal/program/eit.go:101-122 | announced tables are noted, then the programs are merged as specified |
| `ProgramManager.Manager.UpsertPrograms` | internal/program/manager.go:70-293 | store and memory end as specified; what that means for the row of an id is in UpdateTakesFresh, UpdateTakesExtended and OnAirRowStays |
| `ProgramManager.Manager.Collect` | internal/program/manager.go:81-91 | one program per id in order of appearance |
| `ProgramManager.Manager.FindTables` | internal/program/manager.go:105-121 | the newest revision of every table involved |
| `ProgramManager.Manager.Decide` | internal/program/manager.go:122-173 | the rows to write and the rows to remember |
| `ProgramManager.Manager.WriteChange` | internal/program/manager.go:184-254 | one row is written, blocked or displaces its rivals |
| `ProgramManager.Manager.FindRivals` | internal/program/manager.go:200-241 | the search over stored and written rows finds every rival, or that one blocks |
| `ProgramManager.Manager.Record` | internal/program/eit.go:69-99 | accepted revisions are remembered unless superseded |
| `ProgramManager.Manager.Put` | internal/program/sqlite_store.go:104-134 | removed rows are deleted before the kept ones are written |
| `TunerModel.OneDevicePerTuner` | internal/tuner/manager.go:302-358 | in every run of acquisitions, releases, reports and user calls, also late ones, a tuner has at most one device that has not released it, and the three records of its use agree |
| `TunerModel.RunConsistent` | internal/tuner/manager.go:302-488 | every state of every run is consistent |
| `TunerModel.LateCallbacksTouchNothing` | internal/tuner/manager.go:445-488 | reports and a second release of a device that has released its tuner change nothing |
| `TunerModel.LateUserCallsExactly` | internal/tuner/status.go:242-314 | of a device that has released its tuner, RemoveUser changes nothing exactly if the user is not on the tuner's record, AddUser exactly if it names no user |
| `TunerRecord.UsersCounted` | internal/tuner/status.go:242-314 | in every state of every run a user is on a tuner's record exactly if since some moment after it was last given back they joined more often than they left; references are the most by which joins exceed leaves since any moment, and the priority is that of the latest join |
| `TunerRecord.CountsBalanceExactly` | internal/tuner/status.go:301-309 | references are joins less leaves exactly if no leave found the user gone |
| `TunerRecord.LeaveFirst` | internal/tuner/status.go:293-300 | one who leaves, then joins, is on record though they left as often as they joined |
| `TunerRecord.MarksFollowReports` | internal/tuner/manager.go:445-488 | in every state of every run a tuner is running, stopped or at fault as its holder has reported since it acquired it, and one that nobody holds is idle |
| `TunerManager.LateUserCountsForNext` | internal/tuner/status.go:126-265 | a user a departed device adds to a free tuner survives the next reservation and raises its effective priority exactly if the user's is higher, so that only requests above it can take the tuner |
| `TunerManager.LateUserIsReachable` | internal/tuner/manager.go:302-323 | that reservation is reachable from every reachable state in which the departed device's tuner is free |
| `TunerModel.ReplacedIsReachable` | internal/tuner/manager.go:435-437 | a device that was replaced by another with a user is reachable |
| `TunerModel.LateRemovalTouchesNewReservation` | internal/tuner/status.go:293-314 | there its late RemoveUser removes the newer reservation's user |
| `TunerManager.EffectivePriority` | internal/tuner/status.go:126-134 | the highest of the reservation's priority and its users' |
| `TunerManager.Manager.CheckAvailable` | internal/tuner/manager.go:91-120 | possible exactly if a tuner is free or outranked; not found, unsupported and unavailable told apart |
| `TunerManager.Manager.TryAcquire` | internal/tuner/manager.go:238-282 | agrees with CheckAvailable; reserves the first free tuner in turn, one that is enabled, not at fault, reachable and carries the channel, and offers a victim that the request outranks, reservation and users alike, only if none is free |
| `TunerManager.NobodyIsPassedOver` | internal/tuner/manager.go:238-282 | over successive reservations for a channel, whatever happens in between, a tuner that is free each time is reserved after no more of them than there are turns to it: within one round of all tuners |
| `TunerManager.Manager.Search` | internal/tuner/manager.go:238-282 | the round of all tuners finds the first free one, or has looked at every tuner |
| `TunerManager.Manager.BetterVictim` | internal/tuner/manager.go:284-300 | the victim's effective priority is minimal among the eligible busy tuners and below the request's |
| `TunerManager.Manager.ReserveNext` | internal/tuner/manager.go:302-323 | the reservation is recorded in all three places with a new device |
| `TunerManager.Manager.Stop` | internal/tuner/manager.go:408-417 | the tuner is given back the first time only |
| `TunerManager.Manager.FailStart` | internal/tuner/manager.go:385-392 | a failed start ends as a release: the fault mark is cleared with it |
| `TunerManager.Manager.Report` | internal/tuner/manager.go:445-488 | only the device that holds the tuner is heard |
| `TunerManager.Manager.AddUserOf` | internal/tuner/status.go:242-265 | a user joins the tuner or gains a reference |
| `TunerManager.Manager.RemoveUserOf` | internal/tuner/status.go:293-314 | a user loses a reference and leaves with the last |
| `TunerManager.Manager.KillProcess` | internal/tuner/manager.go:325-339 | the tuner ends free, the others are untouched; an unknown index is an error |

## Left out

- The agent's transport, token check, heartbeats, upload streams and the `failed` message, which only signals readiness; a receiver is alive or not, one process runs per agent, and instance, generation and boot ids are never reused. The hub's welcome and the registration after it are one step.
- `Hub.Close` beyond refusing new work, and the hub's restart.
- Timers, clocks, random ids, logging, metrics, events and stored errors; time enters as parameters or as steps that may happen.
- `AgentHub.Hub.Complete`: stated for a registered session, as its one caller looks the session up first.
- `Schedule` bitmaps are sequences of bytes and a fixed layout keeps one version per table; `Sections`, `StableFor` and the three-hour clock itself are not modelled beyond the current segment.
- `PeerFill.FillEventsFromSharedPeers`: the caller's several slices are one array, so it does not capture aliasing between slices; an event among its own peers gives it nothing, so the code's skipping of it is not visible.
- Cron schedules, `Rerun`, `Wait`, results and listings of the job manager; the queue is emptied one job at a time at shutdown, which its lock makes unobservable.
- `JobManager.Manager.Abort`: it does not say that the queue moves on, because the code does not dispatch after an abort.
- DSM-CC message parsing, module info bytes and listings; ids and sizes are numbers, the block count alone wraps at 32 bits, and cached data is taken to be shorter than 4 GiB.
- `CarouselRun.DownloadEndsExactlyOnce`: its block count does not wrap at 32 bits, and the module is not completed from a cache in the run.
- TLV, IP headers and all table and descriptor parsers; that returned messages do not share memory with packets.
- `tableSectionSet` and the demultiplexer's PID routing.
- Present/following snapshots, expiry and replacement of a service's programs, and store errors; the program store is a map with the query's exact bounds, and the further fill-if-empty fields behave like the description.
- Iteration over Go maps is in order of appearance where the code's result depends on nothing else, as in recording equal receptions of one table.
- Waiting in `AcquireDevice`, decoder commands and channel data of tuners; starting and stopping the process behind a device is a step that succeeds or fails.
- `TunerManager.Manager.TryAcquire`: making a device fails only for tuners that are not usable or available, so the code's branch for it is not reachable and not modelled.
