# Verification of the camera streaming core

The API keeps a fleet of cameras streaming: one FFmpeg process per camera, one queued job per
camera that starts it, a status machine with a debounced notification, a crash-loop breaker, a
60-second health tick, and recordings cut into segments under a storage quota. These files model
that core and the algorithms beside it, and prove what holds in every run.

Each file is one module. Where the code changes fields and maps in place there is a class with the
same fields, and each method is proved equal to a step function on a view of the state. The
theorems are about those step functions, over arbitrary sequences of events, so that every
interleaving is covered. What a step does is also stated outright, in fields, constants and effects,
beside the theorems that use it. Where calls on one object can overlap, the asynchronous functions are cut
at their awaits: each stretch between two awaits is one step, and other events may come between any
two. "Left out" names the stretches that are still one step.

Where the code does not keep what it promises, the file has a run that shows it, and a theorem that
says exactly when it does.

| file | part of the system |
|---|---|
| `StreamSupervision`, `StreamProcessor` | the worker's run against everything else that happens to its camera, and its code |
| `StepOutcomes`, `HealthRuns` | each step of `StreamSupervision` in fields; the health record over its runs |
| `ProfileRefresh`, `LostStop`, `StopRace`, `TickRuns` | over the runs of `StreamSupervision`: profile changes, the worker left alone, a user's stop against the worker, the health tick |
| `StreamHealth`, `StatusNotify`, `NotifyDebounce`, `FfmpegSupervisor`, `StreamQueue`, `CameraHealth`, `Recovery` | health records, status changes, their debounced notification, process table, job queue, health tick, detector and boot |
| `RecordingLedger`, `RecordingFlag`, `RecordingDurations`, `Recordings` | recordings, segments, retention and quota; the recording flag; the durations; their code |
| `StorageForecast`, `WorkerPool`, `StartCodeScanner`, `Playlist`, `StreamPath`, `Schedule` | forecast, bulk worker pool, H.264 scanner, HLS printers, stream paths, recording schedule |
| `StreamProfiles`, `DefaultProfiles`, `Tags`, `TagCache`, `UsageCounters`, `ViewerAdmission` | fingerprints, default profiles, tag index, tag cache, usage counters, viewer limit |
| `Common`, `Text` | shared types and text functions |

## Where the code differs from what is said about it

The model follows the code. Each point below is proved.

- A restart signal on a streaming camera ends its job: the stop is intentional, the promise
  resolves and nothing is retried. The next process is the health tick's
  (`ProfileRefresh.SignalledRestartIsNoRetry`; the comment at streams.service.ts:313 expects a
  rejection and a retry).
- A profile restart can be lost without a signal: it finds the waiting job idle, the worker picks
  the job up, the removal fails and the add finds the id taken (`RestartLostToWorker`). A retry goes
  back to the job's settings (`RetryForgetsSignal`). An edit of the organisation's default restarts no
  camera without a profile of its own (`DefaultEditMissesCamera`), a reassignment restarts nothing if it
  read the camera offline (`ReassignmentMissesRun`), and neither does deleting a profile
  (`DeletionLeavesBehind`). `FallsBehindIff` names every step that leaves a camera on other settings
  than a start by hand would give it, with nothing under way to change that.
- The detector, boot recovery and the tick enqueue the hardcoded settings for a camera without a
  profile, where a start by hand uses the organisation's default (`StreamQueue.PathsAgreeIff`).
- The fingerprint check before a spawn, the stop in the restart branch and the "already running"
  test never act, because a process only exists while its own run waits for it
  (`StreamSupervision.PrecautionsNeverAct`).
- A user's stop does not end the streaming of every run: `StopRace.StopCanFailIff` says which ones it
  can fail to end, `WorkerDecidesIff` which steps of the worker between its operations decide it, and
  `LostStop.StopIsLostIff` what a stop leaves that nothing comes in between.
- Nothing asks for a change to `connecting` except the worker behind the breaker check, so the way
  out of the breaker named at stream.processor.ts:141 does not exist. A camera that is offline while
  its breaker is up is trapped, unless something reports it online or a change that had read the row
  before is still written (`StreamSupervision.TrapKeptIff`, `OfflineBreakerTraps`); a lost stop leads
  there (`TickRuns.TrapIsReachable`).
- A restart job of an offline or degraded camera fails all its attempts and then blocks the tick, the
  detector and boot recovery (`RestartUsesUpItsAttempts`, `StreamQueue.FailedRestartBlocks`).
- The tick can remove a restart that was added after it looked at the job
  (`StreamQueue.TickCanLoseRestart`; `RestartStaysIff` says what else takes one away).
- A graceful restart polls the camera and not the process, and can kill a successor
  (`FfmpegSupervisor.RestartOutcome`, `RestartCanKillSuccessor`).
- The list of cameras reconnecting for more than five minutes is always empty
  (`StreamHealth.StuckIffThresholdBelowWindow`).
- Changes that overlap each other or a dispatch lose notifications (`NotifyDebounce.LastStatusToldIff`,
  `OverlappingChangeIsLost`, `ChangeDuringDispatchIsLost`), and a burst of changes can deliver more
  than once, first for a status it does not end in (`DeliveryIsLastIff`, `BurstDeliversTwice`).
- The miss counter is the camera's and not the process's, so a new process can be stopped by the
  first tick that sees it (`TickRuns.FirstTickCanStop`).
- Overlapping starts leave two active recordings, a stop between the two writes of a start or the
  deletion of an active recording, by hand or by retention, leaves the camera's flag up for good
  (`RecordingFlag.FlagKeptIff`, `StuckForever`).
- Retention's recount can double an increment (`RecordingLedger.RecountCountsTwice`), its deletion
  of an empty recording can take a fresh row along, and that is the only way in which it removes
  what has not expired (`RetentionRemovesOnlyExpiredIff`); it does not correct durations
  (`RecordingDurations.DurationExactIff`).
- Overlapping creates or updates leave an organisation with two default profiles
  (`DefaultProfiles.OneDefaultKeptIff`, `OverlappingCreatesDouble`).
- The restart detector keeps the old id when the handling of a restart fails, and reports it again
  (`Recovery.FiresExactlyOnChange`).
- The download never skips leading segments (`Playlist.DownloadSkipsNothing`).
- The tag comparison is the multiset equality it is described as only against lists without
  repetitions (`Tags.ComparisonExact`).
- An invalidated tag list can come back (`TagCache.InvalidateForcesComputeIff`,
  `InvalidateCanBeUndone`).
- The seven waits of a job with eight attempts add up to 127 seconds, 64 at most, not 255 and 128
  (`StreamProcessor.WaitsOfOneJob`; the comment is at stream.processor.ts:18-27).

## Model

| member | source | states |
|---|---|---|
| StreamSupervision.BreakerGuardsEverySpawn | apps/api/src/streams/processors/stream.processor.ts:143-154 | in every run, between the marking of a camera and a later spawn, whoever enqueued the job, there is a recorded change to a status other than degraded |
| StreamSupervision.BreakerStopsTheTick | apps/api/src/resilience/camera-health.service.ts:165-175 | in every run, while the breaker is up no process runs and a tick leaves the camera as it is |
| StreamSupervision.TickIsRun | apps/api/src/resilience/camera-health.service.ts:165-315 | a turn of the tick on a camera is a run of the outside's events, so what holds in every run holds across ticks |
| StreamSupervision.StepInv | apps/api/src/streams/processors/stream.processor.ts:92-341 | one run per active job, a process exactly while its run streams, the flag exactly as the history says and never past the breaker check |
| StreamSupervision.PrecautionsNeverAct | apps/api/src/streams/processors/stream.processor.ts:205-256 | in every run the spawn finds no process, the restart branch nothing to stop, and the fingerprint check changes nothing |
| StreamSupervision.TrapKeptIff | apps/api/src/streams/processors/stream.processor.ts:136-154 | a step leaves an offline camera with its breaker up as it is if and only if it writes no status change from outside; one that read the row offline can only be to online or connecting |
| StreamSupervision.OfflineBreakerTraps | apps/api/src/streams/processors/stream.processor.ts:136-154 | without such a write the camera is never spawned for again, over any run |
| StreamSupervision.StopDuringPreparationIsLost | apps/api/src/streams/streams.service.ts:364-395 | a user's stop between preparation and spawn stops nothing and leaves an offline camera streaming |
| StreamSupervision.CrashAfterLostStopTraps | apps/api/src/streams/processors/stream.processor.ts:307-312 | such a process that crashes into the crash loop leaves the camera offline with its breaker up |
| StreamSupervision.StartSpawns | apps/api/src/streams/processors/stream.processor.ts:234-289 | an undisturbed start with the breaker down spawns with the job's settings |
| StreamSupervision.PrepareRefusedIff | apps/api/src/streams/processors/stream.processor.ts:244-255 | the preparation is refused exactly for a camera that has gone, and for a restart of one that is offline or degraded |
| StreamSupervision.RestartSpawnsIff | apps/api/src/streams/processors/stream.processor.ts:244-289 | an undisturbed attempt of a restart spawns if and only if the camera is neither offline nor degraded |
| StreamSupervision.RestartUsesUpItsAttempts | apps/api/src/streams/processors/stream.processor.ts:244-249 | a restart job of an offline or degraded camera uses up its attempts, spawns nothing and stays failed |
| StepOutcomes.GuardOutcome | apps/api/src/streams/processors/stream.processor.ts:92-154 | empty data and forwarded push cameras end the job, a breaker that the history says is up refuses the run, and otherwise it goes on with the job's settings |
| StepOutcomes.ForwardedIsUnfit | apps/api/src/streams/processors/stream.processor.ts:118-134 | whoever enqueues it, no job of a push camera with a key and without transcoding gets past the guards |
| StepOutcomes.PrepareOutcome | apps/api/src/streams/processors/stream.processor.ts:244-255 | the attempt fails for a camera that is not there and for a barred way to reconnecting; otherwise the row is read for the write, if there is anything to write |
| StepOutcomes.WriteOutcome | apps/api/src/streams/processors/stream.processor.ts:244-255 | the write of reconnecting, connecting or degraded, the record of it, and where the run goes on |
| StepOutcomes.ExitOutcome | apps/api/src/streams/ffmpeg/ffmpeg.service.ts:57-93 | a process that ends is rejected, and counts as a crash, exactly if it failed without having been told to stop |
| StepOutcomes.VerdictOutcome | apps/api/src/streams/processors/stream.processor.ts:307-312 | more than five fast exits in the window raise the breaker, and otherwise the attempt is given up |
| StepOutcomes.DegradedOutcome | apps/api/src/streams/processors/stream.processor.ts:150-153 | degraded is written exactly for a camera that is there and neither offline nor degraded |
| StepOutcomes.RethrowOutcome | apps/api/src/streams/processors/stream.processor.ts:18-28 | a job that is given up waits again until its eighth attempt |
| StepOutcomes.EditOutcome | apps/api/src/streams/streams.service.ts:191-201 | an edit of a profile restarts its cameras exactly if it changes a setting |
| StepOutcomes.ReassignOutcome | apps/api/src/cameras/cameras.service.ts:593-655 | a reassignment restarts the camera exactly if it was found on another profile, with other settings, neither offline nor in maintenance |
| StepOutcomes.ChooseOutcome | apps/api/src/streams/streams.service.ts:202-224 | the camera is restarted exactly if it is there, running, outside maintenance and on the profile |
| StepOutcomes.LoadOutcome | apps/api/src/streams/streams.service.ts:258-274 | the profile's settings as they are by now, and the hardcoded ones if there is none |
| StepOutcomes.LookOutcome | apps/api/src/streams/streams.service.ts:298-339 | no job, add; active, signal; idle, remove |
| StepOutcomes.AddOutcome | apps/api/src/streams/streams.service.ts:341-358 | a restart job with the settings loaded, unless there is a job by now |
| StepOutcomes.SignalOutcome | apps/api/src/streams/processors/stream.processor.ts:168-203 | a worker that listens and is not restarting takes the settings over and stops its process; any other ignores the signal |
| StepOutcomes.PresentIsStartByHand | apps/api/src/streams/streams.service.ts:44-162 | the present settings are those that a start by hand would spawn with |
| StepOutcomes.TransitionOutcome | apps/api/src/status/status.service.ts:52-127 | a change from outside writes what its read allowed over what the row is by then |
| HealthRuns.HealthIsLog | apps/api/src/streams/stream-health-metrics.service.ts:62-191 | from boot, the record in every run of worker and outside is the one that what the service has been told leaves |
| HealthRuns.CrashLoopInEveryRun | apps/api/src/streams/processors/stream.processor.ts:290-312 | in every run from boot, judged right after a crash the breaker is raised if and only if more than five processes died unasked within ten seconds of their start in the last ten minutes; judged later it misses no such crash loop |
| HealthRuns.ToleranceInEveryRun | apps/api/src/resilience/camera-health.service.ts:189-196 | in every run from boot the tick's tolerance is two in a long spell online, else two and one for each raise since, up to four |
| HealthRuns.BreakerInEveryRun | apps/api/src/streams/stream-health-metrics.service.ts:104-156 | in every run from boot the flag is up exactly while a mark has no change to another status after it |
| ProfileRefresh.FallsBehindIff | apps/api/src/streams/streams.service.ts:191-358 | a step leaves a camera on other settings than its present ones, with no restart under way that carries those, if and only if it is one of the named ways: a job added with others, a change that restarts nothing, a retry, and the ways in which a restart fails |
| ProfileRefresh.UpToDate | apps/api/src/streams/streams.service.ts:191-358 | in every run without those steps a camera on other settings has such a restart under way, and with none under way the running and the next process have the settings of its profile, else of the default, else the hardcoded ones |
| ProfileRefresh.RestartClosesGapIff | apps/api/src/streams/streams.service.ts:318-341 | a restart closes the gap with its signal exactly if the worker listens and is not restarting, with its removal exactly if no run has begun |
| ProfileRefresh.RestartLostToWorker | apps/api/src/streams/streams.service.ts:318-356 | a run in which the worker begins between the look and the removal: nothing is signalled and the worker spawns with the old profile |
| ProfileRefresh.DefaultEditMissesCamera | apps/api/src/streams/streams.service.ts:205-213 | an edit of the default leaves a streaming camera without a profile on the old settings |
| ProfileRefresh.ReassignmentMissesRun | apps/api/src/cameras/cameras.service.ts:593-655 | a reassignment that read the camera offline restarts nothing, although the worker has it connecting by the time of the write |
| ProfileRefresh.DeletionLeavesBehind | apps/api/src/streams/stream-profile.service.ts:191-194 | deleting a profile leaves its streaming camera on it |
| ProfileRefresh.RetryForgetsSignal | apps/api/src/streams/processors/stream.processor.ts:356-396 | a retry goes back to the job's settings in spite of the fingerprint check |
| ProfileRefresh.SignalledRestartIsNoRetry | apps/api/src/streams/ffmpeg/ffmpeg.service.ts:66-76 | a signalled streaming camera ends with no process and no job, and the next tick enqueues a start |
| LostStop.WillStreamIff | apps/api/src/streams/processors/stream.processor.ts:92-341 | in every reachable state the worker alone gets the camera to stream if and only if it streams or its run is one of those |
| LostStop.StopIsLostIff | apps/api/src/streams/streams.service.ts:364-395 | a stop that nothing comes in between leaves the camera streaming, or to be spawned for by the worker alone, if and only if the run has yet to spawn and will pass, or is past the read of its preparation, or has crashed with another attempt left and the breaker down |
| StopRace.StopCanFailIff | apps/api/src/streams/streams.service.ts:364-395 | with the worker between the stop's operations: some interleaving leaves the camera streaming, or to be spawned for, if and only if the run that the stop finds is one of those listed |
| StopRace.CanBeLostIff | apps/api/src/streams/streams.service.ts:364-395 | the same at every point of a stop |
| StopRace.EndedIsLostIff | apps/api/src/streams/streams.service.ts:389-392 | what the end of a stop leaves, exactly: a process that its signal missed, or a run that will spawn |
| StopRace.FinishedIsLostIff | apps/api/src/streams/streams.service.ts:364-395 | at every point of a stop, what becomes of it if nothing comes in between any more |
| StopRace.WorkerDecidesIff | apps/api/src/streams/streams.service.ts:364-395 | a step of the worker during a stop turns its success into a failure, or the reverse, if and only if it is one of those listed |
| StopRace.UninterruptedStop | apps/api/src/streams/streams.service.ts:364-395 | without such steps it is the stop of `LostStop.StopIsLostIff` |
| StopRace.PickUpDuringStop | apps/api/src/streams/streams.service.ts:374-388 | a stop that would succeed is lost when the waiting job is picked up before its removal |
| StopRace.RethrowDuringStop | apps/api/src/streams/streams.service.ts:374-388 | a stop that would be lost succeeds when the failed attempt puts its job back before the removal |
| TickRuns.KillBoundsInEveryRun | apps/api/src/resilience/camera-health.service.ts:165-253 | at every visit of the tick in every run of a camera, a running FFmpeg is told to stop exactly when the absence streak has reached the tolerance: never before two, always by four |
| TickRuns.FirstTickCanStop | apps/api/src/resilience/camera-health.service.ts:197-208 | a run from boot in which a new process is stopped by the first tick that sees it |
| TickRuns.TrapIsReachable | apps/api/src/streams/processors/stream.processor.ts:307-312 | a run from boot, through five crashes and a lost stop, to an offline camera with its breaker up |
| StreamProcessor.StreamProcessor.CheckJob | apps/api/src/streams/processors/stream.processor.ts:92-154 | the guards and the breaker check are the Guard step, other cameras untouched |
| StreamProcessor.StreamProcessor.RefuseDegraded | apps/api/src/streams/processors/stream.processor.ts:150-153 | a refused run reads the status and completes its job if there is nothing to write |
| StreamProcessor.StreamProcessor.FinishRefusal | apps/api/src/streams/processors/stream.processor.ts:150-153 | otherwise it writes degraded and then completes its job |
| StreamProcessor.StreamProcessor.OnRestartSignal | apps/api/src/streams/processors/stream.processor.ts:168-203 | a signal replaces the run's profile and marks its process, unless a restart is waiting already |
| StreamProcessor.StreamProcessor.EndRestart | apps/api/src/streams/processors/stream.processor.ts:168-203 | once the graceful restart has waited, the next signal is heard |
| StreamProcessor.StreamProcessor.RunFingerprintSafetyNet | apps/api/src/streams/processors/stream.processor.ts:356-396 | the check marks a running process exactly when the camera is there, the fingerprints differ and no restart is waiting |
| StreamProcessor.StreamProcessor.PrepareStatus | apps/api/src/streams/processors/stream.processor.ts:244-255 | a restart stops and asks for reconnecting, a start asks for connecting, a refused change fails the attempt |
| StreamProcessor.StreamProcessor.FinishPreparation | apps/api/src/streams/processors/stream.processor.ts:244-255 | the write of that change, over whatever the row is by then |
| StreamProcessor.StreamProcessor.SpawnFfmpeg | apps/api/src/streams/processors/stream.processor.ts:288-289 | the spawn is the Spawn step with the run's own profile |
| StreamProcessor.StreamProcessor.JudgeCrash | apps/api/src/streams/processors/stream.processor.ts:307-308 | a rejected start marks the camera exactly in a crash loop |
| StreamProcessor.StreamProcessor.ShowDegraded | apps/api/src/streams/processors/stream.processor.ts:309-311 | after the mark the status is read, and the run goes on if there is nothing to write |
| StreamProcessor.StreamProcessor.FinishShow | apps/api/src/streams/processors/stream.processor.ts:309-311 | the write of degraded |
| StreamProcessor.StreamProcessor.Complete | apps/api/src/streams/streams.service.ts:144-156 | a job whose run returned goes |
| StreamProcessor.StreamProcessor.Fail | apps/api/src/streams/processors/stream.processor.ts:18-28 | a job whose run threw waits again, or stays failed after eight attempts |
| StreamProcessor.BackoffDoublesThenCaps | apps/api/src/streams/processors/stream.processor.ts:41-44 | waits double up to the ninth and are five minutes exactly from the tenth on |
| StreamProcessor.WaitsOfOneJob | apps/api/src/streams/processors/stream.processor.ts:18-28 | the waits of one job have a closed form, at most 64 s each and 127 s together |
| StreamHealth.StreamHealthMetricsService.RecordExit | apps/api/src/streams/stream-health-metrics.service.ts:72-99 | an exit consumes the start time and, unless intentional, extends and trims the lists |
| StreamHealth.StreamHealthMetricsService.RecordTransition | apps/api/src/streams/stream-health-metrics.service.ts:104-127 | a change is logged and trimmed, moves the stable time, and clears the breaker unless to degraded |
| StreamHealth.StreamHealthMetricsService.GetMissTolerance | apps/api/src/streams/stream-health-metrics.service.ts:164-181 | the adapted tolerance, dropped after five stable minutes |
| StreamHealth.StreamHealthMetricsService.BumpMissTolerance | apps/api/src/streams/stream-health-metrics.service.ts:183-191 | one more, up to four |
| StreamHealth.StreamHealthMetricsService.Snapshot | apps/api/src/streams/stream-health-metrics.service.ts:210-271 | trims every record; the crash-loop and degraded sets are exact and the stuck set is empty |
| StreamHealth.OpenStartRefines | apps/api/src/streams/stream-health-metrics.service.ts:62-80 | the start time held is that of the one start with no start or exit after it |
| StreamHealth.ListIsWindowOfHistory | apps/api/src/streams/stream-health-metrics.service.ts:72-99 | the trimmed list is the window of the full history that ended at the last trim |
| StreamHealth.VerdictRefinesHistory | apps/api/src/streams/stream-health-metrics.service.ts:133-137 | right after a non-intentional exit the verdict is more than five fast exits in ten minutes of the full log; at other times it misses no crash loop |
| StreamHealth.StuckIffThresholdBelowWindow | apps/api/src/streams/stream-health-metrics.service.ts:224-258 | some trimmed list is reported stuck if and only if the threshold is below the window kept |
| StreamHealth.ToleranceBounds | apps/api/src/streams/stream-health-metrics.service.ts:164-191 | in every run the tolerance is between two and four |
| StreamHealth.BreakerIsHistory | apps/api/src/streams/stream-health-metrics.service.ts:104-156 | the flag is up exactly when some mark has no later change to another status |
| StreamHealth.DwellIsHistory | apps/api/src/streams/stream-health-metrics.service.ts:114-119 | the start of the dwell is the change that began the present spell online, and there is none otherwise |
| StreamHealth.StableIsHistory | apps/api/src/streams/stream-health-metrics.service.ts:164-174 | the dwell is over exactly when the camera has been online for five minutes |
| StreamHealth.ToleranceIsHistory | apps/api/src/streams/stream-health-metrics.service.ts:164-191 | the tolerance is two in a long spell online, else two and one for each raise since the last read in one, up to four |
| StreamHealth.BackoffIsHistory | apps/api/src/streams/stream-health-metrics.service.ts:198-204 | the backoff base is one, five or thirty seconds by the number of fast exits in a row since the breaker was last cleared |
| StreamHealth.StreamHealthMetricsService.GetBackoffBaseMs | apps/api/src/streams/stream-health-metrics.service.ts:198-204 | the method reads that base |
| StreamHealth.ExitsAreWindow | apps/api/src/streams/stream-health-metrics.service.ts:93-98 | the list of exits is the window of the full history that ended at the last exit |
| StreamHealth.ChangesAreWindow | apps/api/src/streams/stream-health-metrics.service.ts:104-112 | the list of changes is the window of the full history that ended at the last change or snapshot |
| FfmpegSupervisor.EveryRun | apps/api/src/streams/ffmpeg/ffmpeg.service.ts:25-140 | at most one live process per camera, one domain for the maps, marks belong to signals to the present process, rejection exactly for an unsignalled error, the buffer is the last 30 lines |
| FfmpegSupervisor.StepInv | apps/api/src/streams/ffmpeg/ffmpeg.service.ts:25-140 | every event keeps the tables, the marks and the promises in agreement |
| FfmpegSupervisor.SettledOnce | apps/api/src/streams/ffmpeg/ffmpeg.service.ts:57-93 | a settled promise and an ended process never change again |
| FfmpegSupervisor.EventOutcome | apps/api/src/streams/ffmpeg/ffmpeg.service.ts:25-140 | the tables behave like the operating system: a start makes a process exactly if the camera has no live one, a signal goes to its live one and no other, and an exit is rejected exactly if it is an error without a signal |
| FfmpegSupervisor.RestartOutcome | apps/api/src/streams/ffmpeg/ffmpeg.service.ts:158-175 | after a graceful restart the old process is dead or killed; another process is hit if and only if the grace expires while it runs for the camera |
| FfmpegSupervisor.RestartCanKillSuccessor | apps/api/src/streams/ffmpeg/ffmpeg.service.ts:158-175 | a run in which a successor is killed in its place |
| FfmpegSupervisor.FfmpegService.StartStream | apps/api/src/streams/ffmpeg/ffmpeg.service.ts:25-48 | a running camera is left alone, another one gets fresh entries |
| FfmpegSupervisor.FfmpegService.OnStderr | apps/api/src/streams/ffmpeg/ffmpeg.service.ts:50-55 | the ring buffer takes the line and drops its oldest |
| FfmpegSupervisor.FfmpegService.OnError | apps/api/src/streams/ffmpeg/ffmpeg.service.ts:57-83 | the tables are cleared, the promise settles by the mark, the exit is reported by the mark |
| FfmpegSupervisor.FfmpegService.OnEnd | apps/api/src/streams/ffmpeg/ffmpeg.service.ts:85-93 | the same for a normal end, always resolved and intentional |
| FfmpegSupervisor.FfmpegService.StopStream | apps/api/src/streams/ffmpeg/ffmpeg.service.ts:99-109 | marks and terminates what runs |
| FfmpegSupervisor.FfmpegService.ForceKill | apps/api/src/streams/ffmpeg/ffmpeg.service.ts:132-140 | marks and kills what runs |
| FfmpegSupervisor.FfmpegService.GracefulRestart | apps/api/src/streams/ffmpeg/ffmpeg.service.ts:158-175 | the polling loop computes its specification |
| StatusNotify.StatusService.CheckTransition | apps/api/src/status/status.service.ts:52-70 | refused exactly for a camera that is not there and for the three barred ways, on the row as it is read |
| StatusNotify.StatusService.WriteTransition | apps/api/src/status/status.service.ts:72-122 | the row, the record, and the job due in half a minute unless it is maintenance, connecting or being delivered, from the row read before |
| StatusNotify.StatusService.Transition | apps/api/src/status/status.service.ts:52-127 | the same refusals; otherwise the row is left with the status asked for, and no other camera is touched |
| StatusNotify.TransitionOutcome | apps/api/src/status/status.service.ts:26-127 | refused exactly for a missing camera and the barred ways; every other change is written, recorded and notified as stated, from every status |
| StatusNotify.DispatchOutcome | apps/api/src/status/processors/notify-dispatch.processor.ts:30-80 | a due job delivers exactly if the camera is there, outside maintenance and where the job says |
| StatusNotify.NotifyDispatchProcessor.Process | apps/api/src/status/processors/notify-dispatch.processor.ts:30-80 | delivers exactly when the camera is there, not in maintenance and still in the job's status |
| NotifyDebounce.DeliveriesAreCurrent | apps/api/src/status/processors/notify-dispatch.processor.ts:30-80 | in every run, whatever overlaps, a delivery names the present status, outside maintenance, not before its time, and once per job |
| NotifyDebounce.UndisturbedTransition | apps/api/src/status/status.service.ts:52-127 | a call that nothing overlaps does what `StatusNotify.StatusService.Transition` does |
| NotifyDebounce.UndisturbedDispatch | apps/api/src/status/processors/notify-dispatch.processor.ts:30-80 | a dispatch that nothing overlaps does what `StatusNotify.NotifyDispatchProcessor.Process` does |
| NotifyDebounce.CoveredKeptIff | apps/api/src/status/status.service.ts:95-122 | a step that sets no status leaves the present status told, or with a job or call for it, if and only if it did so before and the step is not one of the named losses |
| NotifyDebounce.LastStatusToldIff | apps/api/src/status/status.service.ts:52-127 | a settled camera's last change is what was told last if and only if none of those losses occurred at it or after it |
| NotifyDebounce.DeliveryIsLastIff | apps/api/src/status/status.service.ts:95-122 | a burst can deliver again after a delivery if and only if its last change is less than thirty seconds old or a call has still to add a job for the status delivered |
| NotifyDebounce.BurstDeliversOnce | apps/api/src/status/status.service.ts:95-122 | without such an early delivery a burst delivers at most one event, for the status it ends in |
| NotifyDebounce.BurstWithoutOverlap | apps/api/src/status/status.service.ts:95-122 | without overlap it settles with exactly one if that status is notified and none if it is not |
| NotifyDebounce.BurstDeliversTwice | apps/api/src/status/status.service.ts:102-122 | a burst with two deliveries, the first for a status it does not end in |
| NotifyDebounce.ChangeDuringDispatchIsLost | apps/api/src/status/status.service.ts:102-122 | a burst that settles offline without a delivery, its last change having landed in a dispatch |
| NotifyDebounce.OverlappingChangeIsLost | apps/api/src/status/status.service.ts:101-122 | the same with two overlapping changes and no dispatch near them |
| StreamQueue.RestartStaysIff | apps/api/src/resilience/camera-health.service.ts:258-315 | in every run a waiting restart stays unchanged through any events if and only if none is its pick-up, a user's or a newer restart's removal, or the one race of the tick |
| StreamQueue.RacedTake | apps/api/src/resilience/camera-health.service.ts:284-297 | the tick takes a waiting restart only if it was added after the tick's look |
| StreamQueue.TickCanLoseRestart | apps/api/src/resilience/camera-health.service.ts:284-297 | the race is reachable |
| StreamQueue.FailedRestartBlocks | apps/api/src/resilience/camera-health.service.ts:268-275 | unattended, a restart that has failed for good keeps every later job out |
| StreamQueue.FailedStartIsReplaced | apps/api/src/resilience/camera-health.service.ts:276-297 | a start in that position is replaced by the next tick |
| StreamQueue.EnqueueOutcome | apps/api/src/resilience/camera-health.service.ts:258-315 | what each of the four ways to enqueue leaves, for whatever stands under the id |
| StreamQueue.UndisturbedCommands | apps/api/src/resilience/camera-health.service.ts:258-315 | the single commands of each service, with nothing in between, do what its method does |
| StreamQueue.WorkerOutcome | apps/api/src/streams/processors/stream.processor.ts:18-28 | a job waits again after each of seven failed attempts, and stays failed after the eighth |
| StreamQueue.JobDataOutcome | apps/api/src/resilience/job-data.helper.ts:17-43 | a push camera with a key is read from that key's own loopback address, every other from its own; the settings are its own, else the default's at a start by hand, else the hardcoded ones |
| StreamQueue.StreamsService.StartStream | apps/api/src/streams/streams.service.ts:44-162 | a fresh start job in place of any idle one, with the camera's own settings, the organisation's default or the fallback; nothing for a forwarded push camera |
| StreamQueue.StreamsService.EnqueueProfileRestart | apps/api/src/streams/streams.service.ts:191-358 | an active job is signalled, any other replaced by a restart with the new settings, unless the worker begins it in between |
| StreamQueue.RestartEnqueuedUnlessBegun | apps/api/src/streams/streams.service.ts:318-356 | the new settings reach the worker or the queue if and only if the worker does not pick a waiting job up in between |
| StreamQueue.PathsAgreeIff | apps/api/src/resilience/job-data.helper.ts:17-43 | a start by hand and the unattended paths enqueue the same job if and only if the camera has a profile, or there is no default, or the default has the hardcoded settings |
| StreamQueue.StreamsService.StopStream | apps/api/src/streams/streams.service.ts:364-395 | the process is told to stop, an idle job goes, the row is offline; for this camera only, and nothing for one that is not there |
| CameraHealth.CameraHealthService.RunTick | apps/api/src/resilience/camera-health.service.ts:84-256 | the restart detector and the tick's query, either of which ends the tick when it throws; a fresh answer or one less than five minutes old; and every camera of the query judged and recovered as specified, others untouched |
| CameraHealth.CameraHealthService.TickOne | apps/api/src/resilience/camera-health.service.ts:165-253 | one camera's turn of the loop, by its effect |
| CameraHealth.TickOutcome | apps/api/src/resilience/camera-health.service.ts:165-256 | nothing with the breaker up; with it down exactly the dead connecting and online cameras of the organisation go to reconnecting, exactly the processes whose stream is long gone are stopped, and exactly the dead cameras that run FFmpeg get a start, unless a restart or a fresh one is there |
| CameraHealth.TickTolerance | apps/api/src/resilience/camera-health.service.ts:226-231 | the tolerance of a dead camera that was found online is raised by one, up to four |
| CameraHealth.CameraHealthService.EnqueueStart | apps/api/src/resilience/camera-health.service.ts:258-315 | keeps a restart, an active job and one with fewer than three failed attempts, and leaves a fresh start job otherwise |
| CameraHealth.KillBounds | apps/api/src/resilience/camera-health.service.ts:165-253 | over any run of ticks a running FFmpeg is told to stop exactly when the absence streak has reached the tolerance: never before two, always by four |
| CameraHealth.MissesAreStreak | apps/api/src/resilience/camera-health.service.ts:197-208 | the counter is the number of consecutive evaluated ticks without the stream |
| Recovery.FiresExactlyOnChange | apps/api/src/resilience/srs-restart-detector.ts:39-75 | a restart is reported exactly when an id differs from the latest one that was the first or was handled, so again and again until the handling succeeds |
| Recovery.ServerIdOutcome | apps/api/src/resilience/srs-restart-detector.ts:39-52 | the instance id, else the process id in decimal, which tells process ids apart |
| Recovery.FirstIsPrefix | apps/api/src/resilience/srs-restart-detector.ts:77-113 | the cameras reached are a prefix of the list |
| Recovery.SrsRestartDetector.DetectAndHandle | apps/api/src/resilience/srs-restart-detector.ts:39-113 | on a restart every camera is stopped and enqueued without replacing a job, up to the first job the queue refuses; when that or the query fails the old id stays; otherwise nothing happens |
| Recovery.BootRecoveryService.OnApplicationBootstrap | apps/api/src/resilience/boot-recovery.service.ts:80-118 | every camera is enqueued without replacing a job |
| RecordingLedger.TotalsInEveryRun | apps/api/src/recordings/recordings.service.ts:246-269 | in every run total plus owed increments is the sum of the rows plus the drift |
| RecordingLedger.RecountError | apps/api/src/recordings/retention.processor.ts:85-101 | a recount leaves a total off by what was owed at its count less what landed before its write |
| RecordingLedger.RecountCountsTwice | apps/api/src/recordings/retention.processor.ts:85-101 | a row stored before the count and incremented after the write is counted twice |
| RecordingLedger.ExactWhenUndisturbed | apps/api/src/recordings/retention.processor.ts:47-102 | in every run where the two do not overlap the totals are exact |
| RecordingLedger.UsageIsSumOverRecordings | apps/api/src/recordings/recordings.service.ts:304-316 | in every run the organisation's usage is the sum over its recordings |
| RecordingLedger.PurgeRemovesExactlyExpired | apps/api/src/recordings/retention.processor.ts:57-82 | a purge removes all rows older than the cutoff and no others |
| RecordingLedger.WriteRemovesIff | apps/api/src/recordings/retention.processor.ts:85-101 | retention's last write removes a row if and only if its recording was counted empty and has got one since |
| RecordingLedger.RetentionRemovesOnlyExpiredIff | apps/api/src/recordings/retention.processor.ts:47-102 | in every run retention removes only expired rows if and only if that never happens |
| RecordingLedger.EmptyCountDropsFreshRow | apps/api/src/recordings/retention.processor.ts:93-95 | the deletion of an empty recording can take a fresh row along |
| RecordingDurations.RetentionKeepsDurationIff | apps/api/src/recordings/retention.processor.ts:57-102 | a pass that keeps the recording leaves an exact duration exact if and only if none of the rows that it removes has a duration, and too large otherwise |
| RecordingDurations.DurationsInEveryRun | apps/api/src/recordings/retention.processor.ts:57-102 | in every run a duration, with what is owed, is that of its rows plus that of the rows retention has taken for their age |
| RecordingDurations.DurationExactIff | apps/api/src/recordings/retention.processor.ts:57-102 | in every run a settled duration is exact if and only if retention never took a row with a duration |
| RecordingFlag.FlagKeptIff | apps/api/src/recordings/recordings.service.ts:96-177 | a step keeps at most one active recording and, once the flag writes are done, the flag up exactly with one, if and only if it is none of five ways: overlapping starts, a start overtaken by a stop, a stop overtaken by a start, and two removals of an active recording |
| RecordingFlag.FlagsInEveryRun | apps/api/src/recordings/recordings.service.ts:96-177 | the same over whole runs |
| RecordingFlag.OverlappingStartsDouble | apps/api/src/recordings/recordings.service.ts:111-138 | two starts that both pass their checks leave two active recordings |
| RecordingFlag.StopBetweenWritesSticks | apps/api/src/recordings/recordings.service.ts:125-177 | a stop between the two writes of a start leaves the flag up and nothing active |
| RecordingFlag.DeletingActiveSticks | apps/api/src/recordings/recordings.service.ts:552-578 | so does deleting the active recording |
| RecordingFlag.StuckForever | apps/api/src/recordings/recordings.service.ts:96-177 | from there every later start is refused and every stop finds nothing |
| RecordingLedger.QuotaAllowsIff | apps/api/src/recordings/recordings.service.ts:281-327 | the percentage test allows exactly usage below the limit, or no limit |
| RecordingLedger.StartRefusedFor | apps/api/src/recordings/recordings.service.ts:96-123 | which of the four errors a start is refused with, and that nothing else refuses it |
| RecordingLedger.CallbackOutcome | apps/api/src/srs/srs-callback.controller.ts:377-410 | a callback is admitted exactly for an active recording of the camera below the limit, and stores what it was called with |
| RecordingLedger.OvershootBound | apps/api/src/srs/srs-callback.controller.ts:378-410 | in every interleaving usage stays within limit - 1 + k * m |
| RecordingLedger.OvershootAttained | apps/api/src/srs/srs-callback.controller.ts:378-410 | the bound is reached |
| Recordings.RecordingsService.StartRecording | apps/api/src/recordings/recordings.service.ts:96-123 | which error each check gives, and what passes them all |
| Recordings.RecordingsService.CreateRecordingRow | apps/api/src/recordings/recordings.service.ts:125-132 | the new active recording, the flag untouched |
| Recordings.RecordingsService.RaiseRecordingFlag | apps/api/src/recordings/recordings.service.ts:134-138 | the flag, if the camera is there |
| Recordings.RecordingsService.StopRecording | apps/api/src/recordings/recordings.service.ts:149-158 | the lookup of the active recording, or not found |
| Recordings.RecordingsService.CompleteRecording | apps/api/src/recordings/recordings.service.ts:160-166 | the recording found is no longer active, or the stop fails because it has gone |
| Recordings.RecordingsService.LowerRecordingFlag | apps/api/src/recordings/recordings.service.ts:168-171 | the flag, if the camera is there |
| Recordings.RecordingsService.OnHls | apps/api/src/srs/srs-callback.controller.ts:377-410 | admits exactly with an active recording, quota, and paths that lie under the mount point and climb nowhere |
| Recordings.RecordingsService.StoreSegment | apps/api/src/recordings/recordings.service.ts:246-259 | the row, if its recording is still there |
| Recordings.RecordingsService.UpdateTotals | apps/api/src/recordings/recordings.service.ts:261-269 | both totals, if the recording is still there |
| Recordings.RecordingsService.DeleteRecording | apps/api/src/recordings/recordings.service.ts:552-578 | the recording with its rows, or not found |
| Recordings.RecordingsService.CheckStorageQuota | apps/api/src/recordings/recordings.service.ts:281-327 | the quota test |
| Recordings.RetentionProcessor.CleanupOrg | apps/api/src/recordings/retention.processor.ts:33-108 | an undisturbed pass takes exactly the rows of the organisation that are older than their camera's own days, else the organisation's, else thirty, and whose objects went; it drops emptied recordings, and makes the other sizes concerned exact |
| Recordings.PassTakesExpired | apps/api/src/recordings/retention.processor.ts:33-82 | which rows a pass takes, in days and milliseconds |
| Recordings.MappedRest | apps/api/src/srs/srs-callback.controller.ts:391-395 | the media server's root becomes the mount point, and other paths stay |
| Recordings.CleanedUpMore | apps/api/src/recordings/retention.processor.ts:47-107 | passes over different cameras add up |
| Recordings.KeptRows | apps/api/src/recordings/retention.processor.ts:57-82 | what a pass keeps, row for row |
| StorageForecast.DenominatorClosed | apps/api/src/admin/admin-dashboard.service.ts:400-403 | twelve times the denominator is n²(n² - 1), so its zero branch is dead |
| StorageForecast.NumeratorIsSpread | apps/api/src/admin/admin-dashboard.service.ts:394-403 | the covariance is a sum with positive weights |
| StorageForecast.SlopeSign | apps/api/src/admin/admin-dashboard.service.ts:400-407 | the slope is never negative and zero exactly when the total is flat |
| StorageForecast.SlopeIsLeastSquares | apps/api/src/admin/admin-dashboard.service.ts:396-406 | the quotient is the slope of the one line with the least sum of squared errors |
| StorageForecast.TotalsAreSums | apps/api/src/admin/admin-dashboard.service.ts:388-394 | the running total after a day is the sum of all days up to it |
| StorageForecast.CeilIsLeast | apps/api/src/admin/admin-dashboard.service.ts:408-413 | the rounded-up quotient is the least day on which the line reaches the quota |
| StorageForecast.EstimateDaysUntilFull | apps/api/src/admin/admin-dashboard.service.ts:384-413 | absent, zero or that least day, exactly when each applies, on the sum of all days |
| WorkerPool.EveryInterleaving | apps/web/src/lib/bulk-actions.ts:113-138 | under every schedule each index is claimed once, at most w = min(max(c, 1), n) items are in flight, 2n + w steps finish, and the result is the sequential map |
| WorkerPool.FinishedResults | apps/web/src/lib/bulk-actions.ts:113-138 | a finished pool holds every outcome at its index |
| WorkerPool.StepInv | apps/web/src/lib/bulk-actions.ts:118-134 | a turn of any runner keeps the invariant and takes one step |
| WorkerPool.SharedPool.Resume | apps/web/src/lib/bulk-actions.ts:118-134 | one turn of one runner on the shared cursor and results |
| WorkerPool.ChunkedAllSettled | apps/web/src/lib/bulk-actions.ts:113-138 | the whole call returns the outcomes in order |
| WorkerPool.BulkAction | apps/web/src/lib/bulk-actions.ts:78-105 | the ids are split by outcome into two lists in input order |
| WorkerPool.PositionsCover | apps/web/src/lib/bulk-actions.ts:89-104 | each position is in one of them, once |
| StartCodeScanner.ContainsH264NalType | apps/api/src/recordings/h264-utils.ts:52-95 | the skipping loop finds exactly the occurrences, for every buffer and type |
| StartCodeScanner.ContainsH264Keyframe | apps/api/src/recordings/h264-utils.ts:102-104 | the same for keyframes |
| StartCodeScanner.LowFiveBitsAreLow | apps/api/src/recordings/h264-utils.ts:52-95 | the type is the last five binary digits of the byte |
| StartCodeScanner.OccursInConcatenation | apps/api/src/recordings/h264-utils.ts:52-95 | surrounding bytes hide nothing |
| StartCodeScanner.OccursAcrossCut | apps/api/src/recordings/h264-utils.ts:52-95 | a cut loses only what straddles it |
| Playlist.SkipLeading | apps/api/src/recordings/download-playlist.util.ts:52-58 | the longest suffix that starts playable |
| Playlist.DownloadSkipsNothing | apps/api/src/recordings/recordings.service.ts:535-550 | the download skips nothing, and agrees with playback exactly if the first segment is playable |
| Playlist.TargetDurationIsLeast | apps/api/src/recordings/download-playlist.util.ts:64-69 | section 4.3.3.1 of RFC 8216, and least |
| Playlist.BuildDownloadPlaylist | apps/api/src/recordings/download-playlist.util.ts:75-88 | the loop prints the specified text |
| Playlist.BuildManifest | apps/api/src/recordings/manifest.service.ts:78-100 | the loop prints the specified text, over no segments with the target -Infinity |
| Playlist.DurationRoundTrip | apps/api/src/recordings/download-playlist.util.ts:80-84 | a printed duration reads back to the microsecond |
| Playlist.ReadPrinted | apps/api/src/recordings/download-playlist.util.ts:75-88 | what either printer prints reads back with its URLs and durations in order |
| Playlist.ReadTags | apps/api/src/recordings/download-playlist.util.ts:64-88 | either text begins and ends with the format's tags, and a reader finds the computed target duration |
| Playlist.TagsOfAny | apps/api/src/recordings/manifest.service.ts:78-100 | the tags of either text are these six in this order |
| Playlist.PrintersAgree | apps/api/src/recordings/manifest.service.ts:78-100 | the two printers agree exactly when some segment has a length |
| StreamPath.ParseEncoding | apps/api/src/srs/srs-callback.controller.ts:493-523 | all encodings of a path parse to the organisation and the stripped name |
| StreamPath.ParseCases | apps/api/src/srs/srs-callback.controller.ts:493-523 | push keys as they are, and a camera exactly for two non-empty components after a leading "live/" |
| StreamPath.ExtensionIff | apps/api/src/srs/srs-callback.controller.ts:493-523 | exactly the five media extensions are stripped |
| StreamPath.BareRoundTrip | apps/api/src/streams/processors/stream.processor.ts:156-158 | the publish path parses back exactly when the id has no media extension |
| StreamPath.SegmentRoundTrip | apps/api/src/srs/srs-callback.controller.ts:493-523 | a segment path always parses back |
| StreamPath.PlaylistRoundTrip | apps/api/src/playback/playback.service.ts:102-107 | a playlist path parses back exactly when the id does not end in a hyphen and digits |
| Schedule.TextOrder | apps/api/src/recordings/schedule.processor.ts:38-48 | comparing texts compares hours, then minutes |
| Schedule.WindowIsModular | apps/api/src/recordings/schedule.processor.ts:38-48 | the two-branch test is modular distance on the clock |
| Schedule.WindowToMidnight | apps/api/src/recordings/schedule.processor.ts:38-48 | an end of 24:00 means midnight |
| Schedule.DecisionFollowsWindow | apps/api/src/recordings/schedule.processor.ts:30-63 | a turn leaves the camera recording exactly as the window says, with its two exceptions |
| StreamProfiles.CanonicalInjective | apps/api/src/streams/profile-fingerprint.util.ts:35-41 | plain settings with one canonical text are the same |
| DefaultProfiles.OneDefaultKeptIff | apps/api/src/streams/stream-profile.service.ts:28-135 | a step keeps at most one default per organisation if and only if it is not a default's write after another default was written since its own clear |
| DefaultProfiles.SomeDefaultKeptIff | apps/api/src/streams/stream-profile.service.ts:28-194 | a step keeps a default, or one under way, in every organisation with profiles if and only if it is none of four ways to lose the last one |
| DefaultProfiles.RunDefaults | apps/api/src/streams/stream-profile.service.ts:28-194 | both over every interleaving of creates, updates and deletes |
| DefaultProfiles.OverlappingCreatesDouble | apps/api/src/streams/stream-profile.service.ts:37-58 | two overlapping creates leave two defaults |
| DefaultProfiles.UndisturbedCreate | apps/api/src/streams/stream-profile.service.ts:28-72 | what a create that nothing interrupts does to the rows |
| DefaultProfiles.UndisturbedUpdate | apps/api/src/streams/stream-profile.service.ts:86-135 | the same for an update |
| DefaultProfiles.UndisturbedDelete | apps/api/src/streams/stream-profile.service.ts:137-194 | the same for a deletion |
| DefaultProfiles.RestartIffChanged | apps/api/src/streams/stream-profile.service.ts:86-135 | an update restarts cameras exactly when the row it leaves differs from the one it read; with no other update in between, when a field it carries alters a setting |
| DefaultProfiles.PatchedOutcome | apps/api/src/streams/stream-profile.service.ts:109-112 | each field that an update carries is replaced, and each other stays |
| DefaultProfiles.ClearOutcome | apps/api/src/streams/stream-profile.service.ts:51-57 | a clear takes the mark from the organisation's profiles and changes nothing else |
| DefaultProfiles.StreamProfileService.Create | apps/api/src/streams/stream-profile.service.ts:28-49 | the count of a create, and what it decides |
| DefaultProfiles.StreamProfileService.Update | apps/api/src/streams/stream-profile.service.ts:86-100 | the read of an update, and its error |
| DefaultProfiles.StreamProfileService.UnsetDefaults | apps/api/src/streams/stream-profile.service.ts:51-57 | the clear of the organisation's defaults |
| DefaultProfiles.StreamProfileService.FinishUpdate | apps/api/src/streams/stream-profile.service.ts:108-135 | the write of an update, whether it restarts, and its error |
| DefaultProfiles.StreamProfileService.FinishDelete | apps/api/src/streams/stream-profile.service.ts:191-194 | the removal |
| Tags.NormalizeForDb | apps/api/src/cameras/tag-normalize.ts:70-81 | the loop computes the column |
| Tags.NormalDbKeys | apps/api/src/cameras/tag-normalize.ts:70-81 | the column holds each non-empty key once and nothing else |
| Tags.NormalizeForDisplay | apps/api/src/cameras/tag-normalize.ts:39-68 | the loop computes the display list or its error |
| Tags.DisplayMatchesDb | apps/api/src/cameras/tag-normalize.ts:39-81 | display list and column agree key by key |
| Tags.DisplayFailsIff | apps/api/src/cameras/tag-normalize.ts:39-68 | the display form fails exactly for a tag of more than 50 characters or more than 20 tags |
| Tags.DisplayKeepsFirst | apps/api/src/cameras/tag-normalize.ts:39-68 | each tag shown is the first with its key, trimmed and as it was written |
| Tags.LowerIdentifies | apps/api/src/cameras/tag-normalize.ts:70-81 | lower case identifies the two cases of a letter and nothing else |
| Tags.TrimTakesBlanks | apps/api/src/cameras/tag-normalize.ts:39-81 | trimming takes the blanks at both ends and nothing else |
| Tags.CameraTable.Create | apps/api/src/cameras/camera-tag.extension.ts:33-53 | a create keeps the column in step |
| Tags.CameraTable.Update | apps/api/src/cameras/camera-tag.extension.ts:33-53 | an update keeps the column in step |
| Tags.CameraTable.Upsert | apps/api/src/cameras/camera-tag.extension.ts:33-53 | an upsert keeps the column in step |
| Tags.CameraTable.FindAllCameras | apps/api/src/cameras/cameras.service.ts:338-345 | the indexed filter returns exactly the cameras with a tag equal to a query tag up to case and trimming |
| Tags.BulkTagAction | apps/api/src/cameras/cameras.service.ts:483-527 | every camera up to the first error has its new tags, the others their old ones; a remove takes exactly the target's tags from each and never fails, and the count is that of the cameras that changed |
| Tags.RemovalIsFilter | apps/api/src/cameras/cameras.service.ts:517-518 | a removal works tag by tag, in order |
| Tags.TurnOutcome | apps/api/src/cameras/cameras.service.ts:501-520 | what either verb leaves a camera with, and when it skips it |
| Tags.VerbIdempotent | apps/api/src/cameras/cameras.service.ts:501-520 | both verbs are idempotent |
| Tags.RemoveUndoesAdd | apps/api/src/cameras/cameras.service.ts:501-520 | remove takes back what add put in; exactly when add is refused |
| Tags.ComparisonOnDistinct | apps/api/src/cameras/cameras.service.ts:50-57 | without repetitions the comparison is set equality |
| Tags.ComparisonExact | apps/api/src/cameras/cameras.service.ts:50-57 | it is so against all lists if and only if the second has no repetition |
| Tags.ComparisonNotSymmetric | apps/api/src/cameras/cameras.service.ts:50-57 | with a repetition the order matters |
| TagCache.TagCacheService.GetOrCompute | apps/api/src/cameras/tag-cache.service.ts:52-99 | Redis, then memory, then the database, with both stores |
| TagCache.TagCacheService.Invalidate | apps/api/src/cameras/tag-cache.service.ts:107-119 | an undisturbed invalidation empties both caches for the organisation, or memory alone if Redis fails |
| TagCache.LookupOutcome | apps/api/src/cameras/tag-cache.service.ts:52-80 | Redis first, then memory, and neither with a list of a minute ago or older |
| TagCache.UndisturbedCall | apps/api/src/cameras/tag-cache.service.ts:52-99 | the six steps of a call that nothing overlaps do what the method does |
| TagCache.AnswersAreRecent | apps/api/src/cameras/tag-cache.service.ts:52-99 | whatever fails and overlaps, an answer was computed for the organisation and stored less than a minute ago |
| TagCache.InvalidationEmptiesIff | apps/api/src/cameras/tag-cache.service.ts:107-119 | an invalidation that reaches Redis leaves both caches empty if and only if no call stores in Redis between its two deletions |
| TagCache.InvalidateForcesComputeIff | apps/api/src/cameras/tag-cache.service.ts:107-119 | from two empty caches, until the next invalidation, every lookup recomputes if and only if no call past its own lookup has stored since |
| TagCache.InvalidateCanBeUndone | apps/api/src/cameras/tag-cache.service.ts:52-119 | an older call can bring the list back |
| UsageCounters.ApiKeysService.RecordUsage | apps/api/src/api-keys/api-keys.service.ts:156-169 | one request and its bytes, nothing else |
| UsageCounters.ApiKeysService.AggregateDaily | apps/api/src/api-keys/api-keys.service.ts:171-211 | the loop moves every counter and loses nothing when undisturbed |
| UsageCounters.Conservation | apps/api/src/api-keys/api-keys.service.ts:156-211 | in every run recorded is persisted plus in Redis plus lost in gaps less persisted twice |
| UsageCounters.GapLoss | apps/api/src/api-keys/api-keys.service.ts:171-211 | an aggregation loses exactly what lands in its two gaps |
| UsageCounters.RunProjects | apps/api/src/api-keys/api-keys.service.ts:156-211 | counters do not influence each other |
| ViewerAdmission.LimitHoldsUpToStrays | apps/api/src/srs/srs-callback.controller.ts:303-328 | in every run the viewers exceed the limit by at most the number of stray stops, and not at all without any |
| ViewerAdmission.IntrudersGetIn | apps/api/src/srs/srs-callback.controller.ts:303-328 | that many do get in |
| ViewerAdmission.AdmittedIff | apps/api/src/srs/srs-callback.controller.ts:303-328 | a play gets in exactly without a limit or below it |
| ViewerAdmission.StatusService.OnPlay | apps/api/src/srs/srs-callback.controller.ts:303-314 | admits and counts exactly without a limit or below it |
| ViewerAdmission.StatusService.OnStop | apps/api/src/status/status.service.ts:135-139 | counts down by one, to zero at the least |

## Left out

- The queue's delays, priorities, jitter and backoff timing: a waiting job may be picked up at any time.
- Restarts of the API with an active job, and stalled job locks: a job id has one active run.
- StreamSupervision: the write of a status change and its notify-job commands are one step there, and `NotifyDebounce` cuts them; the changes that `CameraHealth` and `StreamQueue` make are undisturbed calls of `StatusNotify.StatusService.Transition`.
- StreamSupervision: the pre-flight and post-exit kicks of stale publishers are calls to the media server without effect on the state modelled.
- CameraHealth.CameraHealthService.RunTick: runs without interruption there, while `StreamQueue` and `StreamSupervision` interleave its effects (`StreamSupervision.TickIsRun`).
- StreamSupervision: the deletion of the camera's row, and a second stop, start or tick during the stop of `StopRace`, where only the worker acts.
- NotifyDebounce: a dispatch whose database read throws, a process that dies between two awaits, and the deletion of the camera are left out.
- Recovery, Schedule, Tags: a pass over many cameras runs without interruption; what else may come between its operations on one camera is in `StreamQueue` and `StreamSupervision`.
- Recovery.BootRecoveryService.OnApplicationBootstrap: the search for orphaned processes of an earlier instance is left out.
- FFmpeg, ffprobe, the media server and the object store: each call is an outcome given as a parameter or an event.
- Prisma, Postgres row-level security, authentication, webhooks, audit rows, sockets and logging.
- Recordings.RetentionProcessor.CleanupOrg: a retention day is 24 hours, without daylight-saving shifts; the interleaved version is `RecordingLedger`.
- RecordingLedger: the checks of a start are one step, and so are a callback's lookup and quota check.
- RecordingLedger: database failures between a row and its increment are left out.
- Floating point: durations are whole microseconds or units, and the forecast is exact arithmetic.
- DefaultProfiles.RestartIffChanged: SHA-256 is an injective function of the canonical text.
- Tags: lower-casing and trimming are ASCII; list-operation writes of the tag column are left out.
- UsageCounters: key expiry in Redis is left out.
- StreamHealth.StreamHealthMetricsService.Snapshot: the flapping ranking and the rate of transitions are left out.
- Bulk import, the hour and day buckets of the recordings calendar, the warnings of profile validation and the storage alerts would only add easy members.
