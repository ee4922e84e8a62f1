/**
 The worker's function, written as the source has it but cut at its awaits: every method is one
 stretch of `process` for the camera of the job, and `runs` holds where each camera's call is
 suspended. Each method is proved to be the corresponding step of StreamSupervision and to leave
 every other camera alone, so the theorems there are about this code.
 */
module StreamProcessor {
  import opened Common
  import opened StreamProfiles
  import opened StreamSupervision
  import FfmpegSupervisor
  import StatusNotify
  import StreamHealth
  import StreamQueue

  const BASE_BACKOFF_MS: nat := 1_000
  const MAX_BACKOFF_MS: nat := 300_000

  class StreamProcessor {
    const ffmpeg: FfmpegSupervisor.FfmpegService
    const status: StatusNotify.StatusService
    const queue: StreamQueue.Queue
    var runs: map<CameraId, Run>
    /** What each suspended status change has read and is about to write. */
    var read: map<CameraId, StatusNotify.Row>
    /** The database's side: the profile each camera is on, and the profiles. */
    var attached: map<CameraId, ProfileId>
    var profiles: map<ProfileId, Settings>
    /** What each process was started with. */
    var spawnedWith: map<CameraId, Settings>
    /** The cameras for which a graceful restart that a signal began is waiting. */
    var restartingCameras: set<CameraId>
    /** The default profile of each camera's organisation, which the worker never reads. */
    ghost var defaults: map<CameraId, ProfileId>
    ghost var logs: map<CameraId, seq<Entry>>
    ghost var restarts: map<CameraId, map<RestartId, Restart>>

    ghost predicate Valid()
      reads ffmpeg
    {
      FfmpegSupervisor.Inv(ffmpeg.View()) && ffmpeg.health == status.health
    }

    ghost function ViewOf(c: CameraId): State
      reads this, ffmpeg, status, status.health, queue
    {
      State(
        status.CameraOf(c),
        if ffmpeg.IsRunning(c)
        then Some(Process(
               if c in spawnedWith then spawnedWith[c] else StreamQueue.FALLBACK, c in ffmpeg.intentionalStops))
        else None,
        queue.SlotOf(c),
        if c in runs then runs[c] else NoRun,
        if c in read then Some(read[c]) else None,
        c in restartingCameras,
        Profiles(if c in attached then Some(attached[c]) else None, if c in defaults then Some(defaults[c])
            else None, profiles),
        if c in restarts then restarts[c] else map[],
        if c in logs then logs[c] else [])
    }

    constructor (ffmpeg: FfmpegSupervisor.FfmpegService, status: StatusNotify.StatusService, queue: StreamQueue.Queue,
                 attached: map<CameraId, ProfileId>, profiles: map<ProfileId, Settings>)
      requires ffmpeg.health == status.health && ffmpeg.View() == FfmpegSupervisor.EMPTY
      requires forall c :: status.health.SlotOf(c) == StreamHealth.NEW_SLOT && !StreamQueue.IsActive(queue.SlotOf(c))
      ensures Valid() && forall c :: Initial(ViewOf(c))
      ensures this.ffmpeg == ffmpeg && this.status == status && this.queue == queue
      ensures this.attached == attached && this.profiles == profiles
    {
      this.ffmpeg, this.status, this.queue := ffmpeg, status, queue;
      this.attached, this.profiles, defaults := attached, profiles, map[];
      runs, read, spawnedWith, restartingCameras, logs, restarts := map[], map[], map[], {}, map[], map[];
    }

    predicate At(c: CameraId, r: Run)
      reads this
    {
      c in runs && runs[c] == r
    }

    /** The suspended call of a camera moves on. */
    method SetRun(c: CameraId, r: Run)
      modifies this`runs
      ensures ViewOf(c) == old(ViewOf(c)).(run := r)
      ensures forall d | d != c :: ViewOf(d) == old(ViewOf(d))
    {
      hide StatusNotify.StatusService.CameraOf, StreamQueue.Queue.SlotOf;
      runs := runs[c := r];
    }

    method Record(c: CameraId, entry: Entry)
      modifies this`logs
      ensures ViewOf(c) == old(ViewOf(c)).(log := old(ViewOf(c)).log + [entry])
      ensures forall d | d != c :: ViewOf(d) == old(ViewOf(d))
    {
      hide StatusNotify.StatusService.CameraOf, StreamQueue.Queue.SlotOf;
      logs := logs[c := (if c in logs then logs[c] else []) + [entry]];
    }

    method NoteRestarting(c: CameraId)
      modifies this`restartingCameras
      ensures ViewOf(c) == old(ViewOf(c)).(restarting := true)
      ensures forall d | d != c :: ViewOf(d) == old(ViewOf(d))
    {
      hide StatusNotify.StatusService.CameraOf, StreamQueue.Queue.SlotOf;
      restartingCameras := restartingCameras + {c};
    }

    /** The read of a status change on behalf of a run; `changes` says that there is something to write. */
    method Ask(c: CameraId, org: OrgId, to: Status) returns (ok: bool, changes: bool)
      requires Valid()
      modifies this`read
      ensures Valid()
      ensures ok == StatusNotify.TransitionResult(status.CameraOf(c), org, to).Ok?
      ensures changes == StatusNotify.Changes(status.CameraOf(c), org, to) && (changes ==> ok)
      ensures ViewOf(c) == if changes then old(ViewOf(c)).(seen := status.CameraOf(c).row) else old(ViewOf(c))
      ensures forall d | d != c :: ViewOf(d) == old(ViewOf(d))
    {
      hide FfmpegSupervisor.Inv, StreamQueue.Queue.SlotOf;
      var r := status.CheckTransition(c, org, to);
      ok, changes := r.Ok?, r.Ok? && r.value.Some?;
      if changes {
        read := read[c := r.value.value];
      }
    }

    method WriteRow(c: CameraId, camera: StatusNotify.Row, to: Status, now: Time)
      requires Valid() && c in status.rows
      modifies status, status.health
      ensures Valid()
      ensures ViewOf(c) == old(ViewOf(c)).(camera := StatusNotify.Written(old(status.CameraOf(c)), camera, to, now))
      ensures forall d | d != c :: ViewOf(d) == old(ViewOf(d))
    {
      hide StatusNotify.Written, FfmpegSupervisor.Inv, StreamQueue.Queue.SlotOf;
      status.WriteTransition(c, camera, to, now);
    }

    method Forget(c: CameraId)
      modifies this`read
      ensures ViewOf(c) == old(ViewOf(c)).(seen := None)
      ensures forall d | d != c :: ViewOf(d) == old(ViewOf(d))
    {
      hide StatusNotify.StatusService.CameraOf, StreamQueue.Queue.SlotOf;
      read := read - {c};
    }

    /** Its write. */
    method WriteChange(c: CameraId, to: Status, now: Time)
      requires Valid() && c in read && c in status.rows
      modifies this`read, this`logs, status, status.health
      ensures Valid()
      ensures ViewOf(c) == Write(old(ViewOf(c)), old(read)[c], to, now).(seen := None)
      ensures forall d | d != c :: ViewOf(d) == old(ViewOf(d))
    {
      assert ViewOf(c).camera == status.CameraOf(c) && status.CameraOf(c).row.Some?;
      hide StatusNotify.Written, StatusNotify.StatusService.CameraOf, ViewOf, Valid;
      WriteRow(c, read[c], to, now);
      Record(c, Moved(to));
      Forget(c);
    }

    /** The first stretch of a graceful restart, and all of it when nothing runs. */
    method Signal(c: CameraId)
      requires Valid()
      modifies ffmpeg
      ensures Valid()
      ensures ViewOf(c) == Signalled(old(ViewOf(c)))
      ensures forall d | d != c :: ViewOf(d) == old(ViewOf(d))
    {
      hide FfmpegSupervisor.Inv, FfmpegSupervisor.Step, StatusNotify.StatusService.CameraOf, StreamQueue.Queue.SlotOf;
      ffmpeg.StopIfRunning(c);
    }

    method PickUp(c: CameraId, now: Time)
      requires Valid()
      modifies this`runs, queue
      ensures Valid()
      ensures ViewOf(c) == Step(old(ViewOf(c)), Timed(now, Begin))
      ensures forall d | d != c :: ViewOf(d) == old(ViewOf(d))
    {
      BeginStep(ViewOf(c), now);
      hide Step, StatusNotify.StatusService.CameraOf, FfmpegSupervisor.Inv;
      if c in queue.jobs && queue.jobs[c].state == StreamQueue.Waiting && (c !in runs || runs[c] == NoRun) {
        queue.jobs := queue.jobs[c := queue.jobs[c].(state := StreamQueue.Active)];
        runs := runs[c := Picked];
      }
    }

    /** The job is done and goes. */
    method Complete(c: CameraId)
      requires Valid() && StreamQueue.IsActive(queue.SlotOf(c))
      modifies this`runs, queue
      ensures Valid()
      ensures ViewOf(c) == JobDone(old(ViewOf(c)))
      ensures forall d | d != c :: ViewOf(d) == old(ViewOf(d))
    {
      hide StatusNotify.StatusService.CameraOf, FfmpegSupervisor.Inv;
      queue.jobs := queue.jobs - {c};
      runs := runs - {c};
    }

    /** The attempt has failed: the job waits for its next one, or stays as failed after the last. */
    method Fail(c: CameraId)
      requires Valid() && StreamQueue.IsActive(queue.SlotOf(c))
      modifies this`runs, queue
      ensures Valid()
      ensures ViewOf(c) == JobThrew(old(ViewOf(c)))
      ensures forall d | d != c :: ViewOf(d) == old(ViewOf(d))
    {
      hide StatusNotify.StatusService.CameraOf, FfmpegSupervisor.Inv;
      var job := queue.jobs[c];
      var made := job.attemptsMade + 1;
      queue.jobs := queue.jobs[c := job.(
        attemptsMade := made,
        state := if made < StreamQueue.MAX_STREAM_ATTEMPTS then StreamQueue.Waiting else StreamQueue.Failed)];
      runs := runs - {c};
    }

    /** The guards and the breaker check. */
    method CheckJob(c: CameraId, now: Time)
      requires Valid() && StreamQueue.IsActive(queue.SlotOf(c)) && At(c, Picked)
      modifies this`runs, queue
      ensures Valid()
      ensures ViewOf(c) == Step(old(ViewOf(c)), Timed(now, Guard))
      ensures forall d | d != c :: ViewOf(d) == old(ViewOf(d))
    {
      GuardIsGuarded(ViewOf(c), now);
      hide Step;
      var isDegraded := StreamHealth.IsDegraded(status.health.SlotOf(c));
      assert isDegraded == StreamSupervision.Degraded(ViewOf(c));
      var data := queue.jobs[c].data;
      assert ViewOf(c).run == Picked && ViewOf(c).job.Some? && ViewOf(c).job.value.data == data;
      hide Step, ViewOf, Valid, StreamSupervision.Degraded, StreamHealth.IsDegraded, JobDone;
      if data.camera == "" || data.inputUrl == "" {
        Complete(c);
        return;
      }
      var isPushPassthrough := !data.needsTranscode && StreamQueue.LOOPBACK <= data.inputUrl;
      if isPushPassthrough {
        Complete(c);
        return;
      }
      if isDegraded {
        SetRun(c, Refusing);
        return;
      }
      SetRun(c, Admitted(data.settings));
    }

    /** The rest of a refused run: the status follows the verdict as far as it may. */
    method RefuseDegraded(c: CameraId, now: Time)
      requires Valid() && StreamQueue.IsActive(queue.SlotOf(c)) && At(c, Refusing) && c !in read
      modifies this`runs, this`read, queue
      ensures Valid()
      ensures ViewOf(c) == Step(old(ViewOf(c)), Timed(now, Refuse))
      ensures forall d | d != c :: ViewOf(d) == old(ViewOf(d))
    {
      StepOfWorker(ViewOf(c), Timed(now, Refuse));
      var org := queue.jobs[c].data.org;
      assert ViewOf(c).run == Refusing && ViewOf(c).job.Some? && ViewOf(c).job.value.data.org == org;
      assert ViewOf(c).seen.None? && ViewOf(c).camera == status.CameraOf(c);
      hide Step, ViewOf, Valid, JobDone, StatusNotify.StatusService.CameraOf;
      var _, changes := Ask(c, org, Status.Degraded);
      if !changes {
        Complete(c);
      }
    }

    /** The rest of a refused run whose status changes. */
    method FinishRefusal(c: CameraId, now: Time)
      requires Valid() && StreamQueue.IsActive(queue.SlotOf(c)) && At(c, Refusing) && c in read && c in status.rows
      modifies this`runs, this`read, this`logs, status, status.health, queue
      ensures Valid()
      ensures ViewOf(c) == Step(old(ViewOf(c)), Timed(now, WriteStatus))
      ensures forall d | d != c :: ViewOf(d) == old(ViewOf(d))
    {
      WriteStep(ViewOf(c), now);
      assert ViewOf(c).run == Refusing && ViewOf(c).seen == Some(read[c]);
      assert StreamQueue.IsActive(ViewOf(c).job);
      hide Step, ViewOf, Valid, Write, JobDone;
      WriteChange(c, Status.Degraded, now);
      Complete(c);
    }

    method SubscribeRestarts(c: CameraId, ok: bool, now: Time)
      requires Valid() && c in runs && runs[c].Admitted?
      modifies this`runs
      ensures Valid()
      ensures ViewOf(c) == Step(old(ViewOf(c)), Timed(now, Subscribe(ok)))
      ensures forall d | d != c :: ViewOf(d) == old(ViewOf(d))
    {
      hide RestartStep, OutsideStep, Valid;
      var profile := runs[c].settings;
      assert ViewOf(c).run == Admitted(profile);
      hide ViewOf;
      SetRun(c, if ok then Subscribed(profile) else Ready(profile, false));
    }

    method RunFingerprintSafetyNet(c: CameraId, now: Time)
      requires Valid() && c in runs && runs[c].Subscribed?
      modifies this`runs, ffmpeg
      ensures Valid()
      ensures ViewOf(c) == Step(old(ViewOf(c)), Timed(now, CheckFingerprint))
      ensures forall d | d != c :: ViewOf(d) == old(ViewOf(d))
    {
      CheckIsChecked(ViewOf(c), now);
      hide Step, Valid, Signalled, Canonical;
      var profile := runs[c].settings;
      assert ViewOf(c).run == Subscribed(profile) && ViewOf(c).restarting == (c in restartingCameras);
      assert ViewOf(c).camera.row.Some? == (c in status.rows);
      var own := if c in attached && attached[c] in profiles then Some(profiles[attached[c]]) else None;
      assert RowOf(ViewOf(c).profiles, ViewOf(c).profiles.own) == own;
      hide ViewOf;
      if c in status.rows {
        var differs := if own.Some? then Canonical(own.value) != Canonical(profile) else true;
        if differs && c !in restartingCameras {
          Signal(c);
        }
      }
      SetRun(c, Ready(profile, true));
    }

    /** The restart and start branches; a refused status change fails the attempt. */
    method PrepareStatus(c: CameraId, now: Time)
      requires Valid() && StreamQueue.IsActive(queue.SlotOf(c)) && c in runs && runs[c].Ready? && c !in read
      modifies this`runs, this`read, ffmpeg, queue
      ensures Valid()
      ensures ViewOf(c) == Step(old(ViewOf(c)), Timed(now, Prepare))
      ensures forall d | d != c :: ViewOf(d) == old(ViewOf(d))
    {
      PrepareIsPrepared(ViewOf(c), now);
      hide Step, Signalled, JobThrew, FfmpegSupervisor.Inv, StatusNotify.TransitionResult, StatusNotify.Changes;
      var job := queue.jobs[c];
      var run := runs[c];
      assert ViewOf(c).run == run && ViewOf(c).job == Some(job) && ViewOf(c).seen.None?;
      assert ViewOf(c).camera == status.CameraOf(c);
      SignalledKeepsCamera(ViewOf(c));
      hide ViewOf, Valid, StatusNotify.StatusService.CameraOf;
      var ok, changes: bool;
      if job.name == StreamQueue.RestartJob {
        Signal(c);
        ok, changes := Ask(c, job.data.org, Reconnecting);
      } else {
        ok, changes := Ask(c, job.data.org, Connecting);
      }
      if !ok {
        Fail(c);
        return;
      }
      if !changes {
        SetRun(c, Prepared(run.settings, run.listening));
      }
    }

    /** The preparation whose status changes. */
    method FinishPreparation(c: CameraId, now: Time)
      requires Valid() && StreamQueue.IsActive(queue.SlotOf(c)) && c in runs && runs[c].Ready?
      requires c in read && c in status.rows
      modifies this`runs, this`read, this`logs, status, status.health
      ensures Valid()
      ensures ViewOf(c) == Step(old(ViewOf(c)), Timed(now, WriteStatus))
      ensures forall d | d != c :: ViewOf(d) == old(ViewOf(d))
    {
      WriteStep(ViewOf(c), now);
      hide Step, Write, FfmpegSupervisor.Inv, StatusNotify.StatusService.CameraOf;
      var run := runs[c];
      var to := if queue.jobs[c].name == StreamQueue.RestartJob then Reconnecting else Connecting;
      assert ViewOf(c).run == run && ViewOf(c).seen == Some(read[c]) && Target(ViewOf(c)) == to;
      hide ViewOf, Valid, Target;
      WriteChange(c, to, now);
      SetRun(c, Prepared(run.settings, run.listening));
    }

    method Launch(c: CameraId, p: FfmpegSupervisor.ProcessId, settings: Settings) returns (alreadyRunning: bool)
      requires Valid() && p !in ffmpeg.processes
      modifies this`spawnedWith, ffmpeg
      ensures Valid()
      ensures alreadyRunning == old(ffmpeg.IsRunning(c))
      ensures ViewOf(c) == if alreadyRunning then old(ViewOf(c))
                           else old(ViewOf(c)).(process := Some(Process(settings, false)))
      ensures forall d | d != c :: ViewOf(d) == old(ViewOf(d))
    {
      hide FfmpegSupervisor.Inv, StatusNotify.StatusService.CameraOf, StreamQueue.Queue.SlotOf;
      FfmpegSupervisor.RunningIsAlive(ffmpeg.View(), c);
      FfmpegSupervisor.StepInv(ffmpeg.View(), FfmpegSupervisor.StartCall(c, p));
      alreadyRunning := ffmpeg.StartStream(c, p);
      if !alreadyRunning {
        spawnedWith := spawnedWith[c := settings];
      }
    }

    /** `p` is the process that is spawned, unless one runs already. */
    method SpawnFfmpeg(c: CameraId, p: FfmpegSupervisor.ProcessId, now: Time)
      requires Valid() && p !in ffmpeg.processes && c in runs && runs[c].Prepared?
      modifies this`runs, this`logs, this`spawnedWith, ffmpeg
      ensures Valid()
      ensures ViewOf(c) == Step(old(ViewOf(c)), Timed(now, Spawn))
      ensures forall d | d != c :: ViewOf(d) == old(ViewOf(d))
    {
      SpawnIsSpawned(ViewOf(c), now);
      hide Step, Valid, FfmpegSupervisor.Inv, StatusNotify.StatusService.CameraOf, StreamQueue.Queue.SlotOf;
      var run := runs[c];
      assert ViewOf(c).run == run && ViewOf(c).process.Some? == ffmpeg.IsRunning(c);
      var alreadyRunning := Launch(c, p, run.settings);
      hide ViewOf;
      if alreadyRunning {
        SetRun(c, Resolved);
      } else {
        SetRun(c, Streaming(run.listening));
        Record(c, Spawned(run.settings));
      }
    }

    /** The process has gone with an error, and its exit is reported. */
    method ReportError(c: CameraId, now: Time)
      requires Valid() && ffmpeg.IsRunning(c)
      modifies ffmpeg, status.health
      ensures Valid()
      ensures var s := old(ViewOf(c));
        ViewOf(c) == Exited(s, now, c in old(ffmpeg.intentionalStops), s.run)
      ensures forall d | d != c :: ViewOf(d) == old(ViewOf(d))
    {
      hide StreamHealth.Exited, StreamHealth.StreamHealthMetricsService.SlotOf, StreamQueue.Queue.SlotOf;
      hide FfmpegSupervisor.Inv;
      var p := ffmpeg.runningProcesses[c];
      FfmpegSupervisor.RunningIsAlive(ffmpeg.View(), c);
      FfmpegSupervisor.StepInv(ffmpeg.View(), FfmpegSupervisor.ErrorExit(p));
      ffmpeg.OnError(p, now);
    }

    method OnFfmpegError(c: CameraId, now: Time)
      requires Valid() && ffmpeg.IsRunning(c)
      modifies this`runs, ffmpeg, status.health
      ensures Valid()
      ensures ViewOf(c) == Step(old(ViewOf(c)), Timed(now, FfError))
      ensures forall d | d != c :: ViewOf(d) == old(ViewOf(d))
    {
      ErrorStep(ViewOf(c), now);
      hide Step, FfmpegSupervisor.Inv, StatusNotify.StatusService.CameraOf, StreamQueue.Queue.SlotOf;
      hide StreamHealth.Exited;
      var wasIntentional := c in ffmpeg.intentionalStops;
      assert ViewOf(c).process.Some? && ViewOf(c).process.value.marked == wasIntentional;
      hide ViewOf, Valid;
      ReportError(c, now);
      SetRun(c, if wasIntentional then Resolved else Rejected);
    }

    /** The process has gone, and its exit is reported as intended. */
    method ReportEnd(c: CameraId, now: Time)
      requires Valid() && ffmpeg.IsRunning(c)
      modifies ffmpeg, status.health
      ensures Valid()
      ensures var s := old(ViewOf(c)); ViewOf(c) == Exited(s, now, true, s.run)
      ensures forall d | d != c :: ViewOf(d) == old(ViewOf(d))
    {
      hide StreamHealth.Exited, StreamHealth.StreamHealthMetricsService.SlotOf, StreamQueue.Queue.SlotOf;
      hide FfmpegSupervisor.Inv;
      var p := ffmpeg.runningProcesses[c];
      FfmpegSupervisor.RunningIsAlive(ffmpeg.View(), c);
      FfmpegSupervisor.StepInv(ffmpeg.View(), FfmpegSupervisor.EndExit(p));
      ffmpeg.OnEnd(p, now);
    }

    method OnFfmpegEnd(c: CameraId, now: Time)
      requires Valid() && ffmpeg.IsRunning(c)
      modifies this`runs, ffmpeg, status.health
      ensures Valid()
      ensures ViewOf(c) == Step(old(ViewOf(c)), Timed(now, FfEnd))
      ensures forall d | d != c :: ViewOf(d) == old(ViewOf(d))
    {
      EndStep(ViewOf(c), now);
      hide Step, FfmpegSupervisor.Inv, StatusNotify.StatusService.CameraOf, StreamQueue.Queue.SlotOf;
      hide StreamHealth.Exited;
      assert ViewOf(c).process.Some?;
      hide ViewOf, Valid;
      ReportEnd(c, now);
      SetRun(c, Resolved);
    }

    /** The start promise resolved. */
    method FinishJob(c: CameraId, now: Time)
      requires Valid() && StreamQueue.IsActive(queue.SlotOf(c)) && At(c, Resolved)
      modifies this`runs, queue
      ensures Valid()
      ensures ViewOf(c) == Step(old(ViewOf(c)), Timed(now, Finish))
      ensures forall d | d != c :: ViewOf(d) == old(ViewOf(d))
    {
      hide FfmpegSupervisor.Inv, StatusNotify.StatusService.CameraOf;
      Complete(c);
    }

    method Raise(c: CameraId, now: Time)
      requires Valid()
      modifies this`logs, status.health
      ensures Valid()
      ensures ViewOf(c) == old(ViewOf(c)).(
        camera := old(ViewOf(c)).camera.(health := StreamHealth.Marked(old(ViewOf(c)).camera.health, now)),
        log := old(ViewOf(c)).log + [Raised])
      ensures forall d | d != c :: ViewOf(d) == old(ViewOf(d))
    {
      hide FfmpegSupervisor.Inv, StreamHealth.Marked, StreamHealth.StreamHealthMetricsService.SlotOf;
      hide StreamQueue.Queue.SlotOf, Valid;
      status.health.MarkDegraded(c, now);
      logs := logs[c := (if c in logs then logs[c] else []) + [Raised]];
    }

    /** The start promise rejected: the crash-loop verdict, and the mark. */
    method JudgeCrash(c: CameraId, now: Time)
      requires Valid() && At(c, Rejected)
      modifies this`runs, this`logs, status.health
      ensures Valid()
      ensures ViewOf(c) == Step(old(ViewOf(c)), Timed(now, Verdict))
      ensures forall d | d != c :: ViewOf(d) == old(ViewOf(d))
    {
      WorkerSteps(ViewOf(c), now);
      var inCrashLoop := StreamHealth.InCrashLoop(status.health.SlotOf(c));
      assert inCrashLoop == StreamHealth.InCrashLoop(ViewOf(c).camera.health) && ViewOf(c).run == Rejected;
      hide Step, ViewOf, Valid, StreamHealth.InCrashLoop, StreamHealth.Marked;
      if inCrashLoop {
        Raise(c, now);
        SetRun(c, Degrading);
      } else {
        SetRun(c, GivingUp);
      }
    }

    method ShowDegraded(c: CameraId, now: Time)
      requires Valid() && StreamQueue.IsActive(queue.SlotOf(c)) && At(c, Degrading) && c !in read
      modifies this`runs, this`read
      ensures Valid()
      ensures ViewOf(c) == Step(old(ViewOf(c)), Timed(now, Degrade))
      ensures forall d | d != c :: ViewOf(d) == old(ViewOf(d))
    {
      StepOfWorker(ViewOf(c), Timed(now, Degrade));
      var org := queue.jobs[c].data.org;
      assert ViewOf(c).run == Degrading && ViewOf(c).job.Some? && ViewOf(c).job.value.data.org == org;
      assert ViewOf(c).seen.None? && ViewOf(c).camera == status.CameraOf(c);
      hide Step, ViewOf, Valid, StatusNotify.StatusService.CameraOf;
      var _, changes := Ask(c, org, Status.Degraded);
      if !changes {
        SetRun(c, GivingUp);
      }
    }

    method FinishShow(c: CameraId, now: Time)
      requires Valid() && At(c, Degrading) && c in read && c in status.rows
      modifies this`runs, this`read, this`logs, status, status.health
      ensures Valid()
      ensures ViewOf(c) == Step(old(ViewOf(c)), Timed(now, WriteStatus))
      ensures forall d | d != c :: ViewOf(d) == old(ViewOf(d))
    {
      WriteStep(ViewOf(c), now);
      hide Step, Write, FfmpegSupervisor.Inv, StatusNotify.StatusService.CameraOf, StreamQueue.Queue.SlotOf;
      assert ViewOf(c).run == Degrading && ViewOf(c).seen == Some(read[c]) && Target(ViewOf(c)) == Status.Degraded;
      hide ViewOf, Valid, Target;
      WriteChange(c, Status.Degraded, now);
      SetRun(c, GivingUp);
    }

    method RethrowError(c: CameraId, now: Time)
      requires Valid() && StreamQueue.IsActive(queue.SlotOf(c)) && At(c, GivingUp)
      modifies this`runs, queue
      ensures Valid()
      ensures ViewOf(c) == Step(old(ViewOf(c)), Timed(now, Rethrow))
      ensures forall d | d != c :: ViewOf(d) == old(ViewOf(d))
    {
      hide FfmpegSupervisor.Inv, StatusNotify.StatusService.CameraOf;
      Fail(c);
    }

    /** The handler of a restart signal: the suspended call's own profile is replaced, unless a restart is waiting. */
    method OnRestartSignal(c: CameraId, settings: Settings)
      requires Valid() && c in runs && Listening(runs[c])
      modifies this`runs, this`restartingCameras, ffmpeg
      ensures Valid()
      ensures ViewOf(c) == Heard(old(ViewOf(c)), settings)
      ensures forall d | d != c :: ViewOf(d) == old(ViewOf(d))
    {
      var run := runs[c];
      assert ViewOf(c).run == run && ViewOf(c).restarting == (c in restartingCameras);
      assert ViewOf(c).process.Some? == ffmpeg.IsRunning(c);
      hide ViewOf, Valid;
      if c in restartingCameras {
        return;
      }
      match run {
        case Subscribed(_) => SetRun(c, Subscribed(settings));
        case Ready(_, _) => SetRun(c, Ready(settings, true));
        case Prepared(_, _) => SetRun(c, Prepared(settings, true));
        case _ =>
      }
      // With nothing running the graceful restart returns at once.
      if ffmpeg.IsRunning(c) {
        NoteRestarting(c);
      }
      Signal(c);
    }

    /** The graceful restart that a signal began has returned. */
    method EndRestart(c: CameraId, now: Time)
      requires Valid()
      modifies this`restartingCameras
      ensures Valid()
      ensures ViewOf(c) == Step(old(ViewOf(c)), Timed(now, EndPolling))
      ensures forall d | d != c :: ViewOf(d) == old(ViewOf(d))
    {
      hide FfmpegSupervisor.Inv, StatusNotify.StatusService.CameraOf, StreamQueue.Queue.SlotOf, RestartStep, WorkerStep;
      restartingCameras := restartingCameras - {c};
    }
  }

  // ---- Backoff ----

  function Pow2(n: nat): (p: nat)
    ensures p >= 1
  {
    if n == 0 then 1 else 2 * Pow2(n - 1)
  }

  function CalculateBackoff(attempt: nat): nat
    requires attempt >= 1
  {
    var backoff := BASE_BACKOFF_MS * Pow2(attempt - 1);
    if backoff < MAX_BACKOFF_MS then backoff else MAX_BACKOFF_MS
  }

  /** The waits before attempts 2 to `n` + 1. */
  function TotalBackoff(n: nat): nat {
    if n == 0 then 0 else TotalBackoff(n - 1) + CalculateBackoff(n)
  }

  lemma {:induction false} Pow2Grows(n: nat, m: nat)
    requires n <= m
    ensures Pow2(n) <= Pow2(m)
    decreases m
  {
    if n < m {
      Pow2Grows(n, m - 1);
    }
  }

  /** The wait doubles up to the ninth attempt and is capped from the tenth on. */
  lemma BackoffDoublesThenCaps(attempt: nat)
    requires attempt >= 1
    ensures CalculateBackoff(attempt) == MAX_BACKOFF_MS <==> attempt >= 10
    ensures attempt < 9 ==> CalculateBackoff(attempt + 1) == 2 * CalculateBackoff(attempt)
  {
    assert Pow2(8) == 256 && Pow2(9) == 512 by {
      assert Pow2(4) == 16;
      assert Pow2(6) == 64;
    }
    if attempt >= 10 {
      Pow2Grows(9, attempt - 1);
    } else {
      Pow2Grows(attempt - 1, 8);
    }
  }

  /**
   With eight attempts there are seven waits: at most 64 seconds each and 127 seconds together,
   well below the cap.
   */
  lemma {:induction false} WaitsOfOneJob(n: nat)
    requires n < StreamQueue.MAX_STREAM_ATTEMPTS
    ensures TotalBackoff(n) == BASE_BACKOFF_MS * (Pow2(n) - 1)
    ensures TotalBackoff(n) <= 127_000 && (n >= 1 ==> CalculateBackoff(n) <= 64_000)
  {
    assert Pow2(6) == 64 && Pow2(7) == 128 by {
      assert Pow2(4) == 16;
    }
    Pow2Grows(n, 7);
    if n > 0 {
      Pow2Grows(n - 1, 6);
      WaitsOfOneJob(n - 1);
    }
  }
}
