/**
 What each step of a camera's life does, in the fields of the state.

 `StreamSupervision` builds its steps from functions of its own, of the queue and of the status
 machine. Here every step is stated for itself, for every state that a run can reach, with what the
 source writes down at that place.
 */
module StepOutcomes {
  import opened Common
  import opened StreamProfiles
  import opened StreamSupervision
  import StatusNotify
  import StreamHealth
  import StreamQueue

  // ---- The worker's attempt ----

  /** The job after an attempt that threw: eight attempts in all, and then it stays as failed. */
  function Thrown(job: StreamQueue.Job): StreamQueue.Job {
    var made := job.attemptsMade + 1;
    job.(attemptsMade := made, state := if made < 8 then StreamQueue.Waiting else StreamQueue.Failed)
  }

  lemma BeginOutcome(s: State, now: Time)
    requires Inv(s)
    ensures Do(s, Begin, now) ==
      if s.job.Some? && s.job.value.state == StreamQueue.Waiting
      then s.(job := Some(s.job.value.(state := StreamQueue.Active)), run := Picked) else s
  {
    StepOfWorker(s, Timed(now, Begin));
    hide Step, Up, StreamHealth.IsDegraded, StreamHealth.Bounded;
  }

  /**
   The guards: a job without a camera or a URL, or of a push camera that the media server forwards,
   is done at once. By the history the breaker is up, and the run is refused; or it is down, and the
   run goes on with the job's settings.
   */
  lemma GuardOutcome(s: State, now: Time)
    requires Inv(s) && s.run == Picked
    ensures s.job.Some?
    ensures var data := s.job.value.data;
      var forwarded := !data.needsTranscode && "rtmp://127.0.0.1:1935/push/" <= data.inputUrl;
      Do(s, Guard, now) ==
        if |data.camera| == 0 || |data.inputUrl| == 0 || forwarded then s.(job := None, run := NoRun)
        else if Up(s.log) then s.(run := Refusing)
        else s.(run := Admitted(data.settings))
  {
    GuardIsGuarded(s, now);
    hide Step, Up, StreamHealth.IsDegraded, StreamHealth.Bounded;
  }

  /** No process is ever spawned for a push camera that has a key and is not transcoded, whoever enqueues it. */
  lemma ForwardedIsUnfit(source: StreamQueue.Source, orgDefault: Option<Settings>)
    requires source.push && !source.needsTranscode && source.streamKey.Some? && source.streamKey.value != ""
    ensures Unfit(StreamQueue.BuildStreamJobData(source)) && Unfit(StreamQueue.StartJobData(source, orgDefault))
  {
    StreamQueue.JobDataOutcome(source, source, orgDefault);
    hide StreamQueue.BuildStreamJobData, StreamQueue.StartJobData;
  }

  lemma SubscribeOutcome(s: State, ok: bool, now: Time)
    requires Inv(s) && s.run.Admitted?
    ensures Do(s, Subscribe(ok), now)
      == s.(run := if ok then Subscribed(s.run.settings) else Ready(s.run.settings, false))
    ensures Do(s.(run := Subscribed(s.run.settings)), CheckFingerprint, now) == s.(run := Ready(s.run.settings, true))
  {
    StepOfWorker(s, Timed(now, Subscribe(ok)));
    var s' := s.(run := Subscribed(s.run.settings));
    CheckIsChecked(s', now);
    hide Step, Up, StreamHealth.IsDegraded, StreamHealth.Bounded, FingerprintDiffers;
  }

  /** A restart asks for reconnecting, a start for connecting. */
  function Wanted(job: StreamQueue.Job): Status {
    match job.name
    case RestartJob => Reconnecting
    case StartJob => Connecting
  }

  /** The preparation: refused, and the attempt fails; or nothing to write; or the row is read for the write. */
  lemma PrepareOutcome(s: State, now: Time)
    requires Inv(s) && s.run.Ready? && s.seen.None?
    ensures s.job.Some?
    ensures var job, row, s' := s.job.value, s.camera.row, Do(s, Prepare, now);
      if row.None? || row.value.org != job.data.org || StatusNotify.Barred(row.value.status, Wanted(job))
      then s' == s.(job := Some(Thrown(job)), run := NoRun)
      else if row.value.status == Wanted(job) then s' == s.(run := Prepared(s.run.settings, s.run.listening))
      else s' == s.(seen := row)
  {
    StatusNotify.TransitionOutcome(s.camera, s.job.value.data.org, Target(s), now);
    PrepareIsPrepared(s, now);
    hide Step, Up, StreamHealth.IsDegraded, StreamHealth.Bounded, StatusNotify.Transitioned;
  }

  /** The write of the worker's change, and where the run goes on; a deleted row is not written. */
  lemma WriteOutcome(s: State, now: Time)
    requires Inv(s) && s.seen.Some?
    ensures s.job.Some? && s.camera.row.Some?
    ensures var s' := Do(s, WriteStatus, now);
      var to := if s.run.Ready? then Wanted(s.job.value) else Status.Degraded;
      && s'.camera.row == Some(s.camera.row.value.(status := to))
      && s'.camera.health == StreamHealth.Changed(s.camera.health, now, s.seen.value.status, to)
      && s'.log == s.log + [Moved(to)]
      && s'.seen == None
      && (s.run.Ready? ==> s'.run == Prepared(s.run.settings, s.run.listening) && s'.job == s.job)
      && (s.run == Refusing ==> s'.run == NoRun && s'.job == None)
      && (s.run == Degrading ==> s'.run == GivingUp && s'.job == s.job)
      && s' == s.(camera := s'.camera, log := s'.log, seen := None, run := s'.run, job := s'.job)
  {
    WriteStep(s, now);
    WrittenFields(s.camera, s.seen.value, if s.run.Ready? then Wanted(s.job.value) else Status.Degraded, now);
    hide Do, Up, StreamHealth.IsDegraded, StreamHealth.Bounded, StatusNotify.Written;
  }

  lemma WrittenFields(c: StatusNotify.Camera, seen: StatusNotify.Row, to: Status, now: Time)
    requires c.row.Some?
    ensures StatusNotify.Written(c, seen, to, now).row == Some(c.row.value.(status := to))
    ensures StatusNotify.Written(c, seen, to, now).health == StreamHealth.Changed(c.health, now, seen.status, to)
  {
    hide StreamHealth.Changed;
  }

  lemma SpawnOutcome(s: State, now: Time)
    requires Inv(s) && s.run.Prepared?
    ensures Do(s, Spawn, now) == s.(
      process := Some(Process(s.run.settings, false)), run := Streaming(s.run.listening),
      log := s.log + [Spawned(s.run.settings)])
  {
    SpawnIsSpawned(s, now);
    hide Step, Up, StreamHealth.IsDegraded, StreamHealth.Bounded;
  }

  /** A process that ends: its promise is rejected exactly if it failed without having been told to stop. */
  lemma ExitOutcome(s: State, now: Time, failed: bool)
    requires Inv(s) && s.process.Some?
    ensures var crashed := failed && !s.process.value.marked;
      Do(s, if failed then FfError else FfEnd, now) == s.(
        process := None, run := if crashed then Rejected else Resolved,
        camera := s.camera.(health := StreamHealth.Exited(s.camera.health, now, !crashed)))
  {
    ErrorStep(s, now);
    EndStep(s, now);
    hide Step, Do, Inv, StreamHealth.Exited;
  }

  /** After a crash: more than five fast exits in the window raise the breaker, and the attempt is given up. */
  lemma VerdictOutcome(s: State, now: Time)
    requires Inv(s) && s.run == Rejected
    ensures var s' := Do(s, Verdict, now);
      if |StreamHealth.FastExits(s.camera.health)| > 5
      then
        && s'.camera == s.camera.(health := s'.camera.health) && StreamHealth.IsDegraded(s'.camera.health)
        && s' == s.(camera := s'.camera, run := Degrading, log := s.log + [Raised])
      else s' == s.(run := GivingUp)
  {
    VerdictIsJudged(s, now);
    hide Step, Inv, Up;
  }

  /** The row is read for a write of degraded if it can be written, and otherwise the run goes on at once. */
  lemma DegradedOutcome(s: State, now: Time)
    requires Inv(s) && (s.run == Refusing || s.run == Degrading) && s.seen.None?
    ensures s.job.Some?
    ensures var row := s.camera.row;
      var writes := row.Some? && row.value.org == s.job.value.data.org && row.value.status != Status.Degraded
                    && row.value.status != Offline;
      && (s.run == Refusing ==>
            Do(s, Refuse, now) == if writes then s.(seen := row) else s.(job := None, run := NoRun))
      && (s.run == Degrading ==> Do(s, Degrade, now) == if writes then s.(seen := row) else s.(run := GivingUp))
  {
    StepOfWorker(s, Timed(now, Refuse));
    StepOfWorker(s, Timed(now, Degrade));
    hide Step, Up, StreamHealth.IsDegraded, StreamHealth.Bounded;
  }

  /** The job of a run that ends well goes. */
  lemma FinishOutcome(s: State, now: Time)
    requires Inv(s) && s.run == Resolved
    ensures Do(s, Finish, now) == s.(job := None, run := NoRun)
  {
    StepOfWorker(s, Timed(now, Finish));
    hide Step, Up, StreamHealth.IsDegraded, StreamHealth.Bounded;
  }

  /** The job of a run that is given up has made one more attempt. */
  lemma RethrowOutcome(s: State, now: Time)
    requires Inv(s) && s.run == GivingUp
    ensures s.job.Some? && Do(s, Rethrow, now) == s.(job := Some(Thrown(s.job.value)), run := NoRun)
  {
    StepOfWorker(s, Timed(now, Rethrow));
    hide Step, Up, StreamHealth.IsDegraded, StreamHealth.Bounded;
  }

  // ---- The outside ----

  /** A job is only added where there is none, and an active one cannot be removed. */
  lemma QueueOutcome(s: State, name: StreamQueue.JobName, data: StreamQueue.JobData, now: Time)
    ensures Do(s, AddJob(name, data), now)
      == if s.job.Some? then s else s.(job := Some(StreamQueue.Job(name, data, 0, StreamQueue.Waiting)))
    ensures Do(s, RemoveJob, now)
      == if s.job.Some? && s.job.value.state == StreamQueue.Active then s else s.(job := None)
  {
    StepOfOutside(s, Timed(now, AddJob(name, data)));
    StepOfOutside(s, Timed(now, RemoveJob));
    hide Step;
  }

  lemma TerminateOutcome(s: State, now: Time)
    ensures Do(s, Terminate, now)
      == if s.process.Some? then s.(process := Some(s.process.value.(marked := true))) else s
    ensures Do(s, EndPolling, now) == s.(restarting := false)
  {
    StepOfOutside(s, Timed(now, Terminate));
    StepOfOutside(s, Timed(now, EndPolling));
    hide Step;
  }

  /** Maintenance, and the write of offline that no record is made of. */
  lemma RowOutcome(s: State, on: bool, now: Time)
    requires s.camera.row.Some?
    ensures var row := s.camera.row.value;
      && Do(s, SetMaintenance(on), now) == s.(camera := s.camera.(row := Some(row.(maintenance := on))))
      && Do(s, ForceOffline, now) == s.(camera := s.camera.(row := Some(row.(status := Offline))))
  {
    StepOfOutside(s, Timed(now, SetMaintenance(on)));
    StepOfOutside(s, Timed(now, ForceOffline));
    hide Step;
  }

  /** A change from outside writes whatever its read allowed, over whatever the row is by now. */
  lemma TransitionOutcome(s: State, read: StatusNotify.Row, to: Status, now: Time)
    ensures var s' := Do(s, Transition(read, to), now);
      if s.camera.row.Some? && read.status != to && !StatusNotify.Barred(read.status, to)
      then
        && s'.camera.row == Some(s.camera.row.value.(status := to))
        && s'.camera.health == StreamHealth.Changed(s.camera.health, now, read.status, to)
        && s' == s.(camera := s'.camera, log := s.log + [Moved(to)])
      else s' == s
  {
    StepOfOutside(s, Timed(now, Transition(read, to)));
    hide Step, StreamHealth.Changed;
  }

  // ---- Profiles ----

  predicate PlainOption(settings: Option<Settings>) {
    settings.Some? ==> PlainSettings(settings.value)
  }

  lemma FingerprintIsExact(a: Option<Settings>, b: Option<Settings>)
    requires PlainOption(a) && PlainOption(b)
    ensures FingerprintProfile(a) == FingerprintProfile(b) <==> a == b
  {
    hide Canonical, PlainSettings;
    if a.Some? && b.Some? {
      CanonicalInjective(a.value, b.value);
    }
  }

  /** An edit of a profile restarts its cameras exactly if it changes a setting. */
  lemma EditOutcome(s: State, r: RestartId, id: ProfileId, before: Settings, settings: Settings, now: Time)
    requires r !in s.restarts && id in s.profiles.rows && PlainSettings(before) && PlainSettings(settings)
    ensures Do(s, EditProfile(r, id, before, settings), now) == s.(
      profiles := s.profiles.(rows := s.profiles.rows[id := settings]),
      restarts := if before == settings then s.restarts else s.restarts[r := Saved(OnProfile(id))])
  {
    FingerprintIsExact(Some(before), Some(settings));
    StepOfProfile(s, Timed(now, EditProfile(r, id, before, settings)));
    hide FingerprintProfile, PlainSettings, Step;
  }

  /**
   A reassignment restarts the camera exactly if the update found it on another profile, with
   other settings than the new profile has, neither offline nor in maintenance.
   */
  lemma ReassignOutcome(s: State, r: RestartId, own: Option<ProfileId>, found: CameraRead, now: Time)
    requires r !in s.restarts && s.camera.row.Some? && PlainOption(found.settings)
    requires own.Some? ==> own.value in s.profiles.rows && PlainSettings(s.profiles.rows[own.value])
    ensures var given := if own.Some? then Some(s.profiles.rows[own.value]) else None;
      var restarts := found.profile != own && found.settings != given && found.row.status != Offline
                      && !found.row.maintenance;
      Do(s, Reassign(r, own, found), now) == s.(
        profiles := s.profiles.(own := own),
        restarts := if restarts then s.restarts[r := Saved(OnCamera(own))] else s.restarts)
  {
    FingerprintIsExact(found.settings, RowOf(s.profiles, own));
    StepOfProfile(s, Timed(now, Reassign(r, own, found)));
    hide FingerprintProfile, PlainSettings, Step;
  }

  /** A deletion restarts nothing, and the profile is nobody's any more. */
  lemma DeletionOutcome(s: State, id: ProfileId, now: Time)
    ensures var p := s.profiles;
      Do(s, DeleteProfile(id), now) == s.(profiles := Profiles(
        if p.own == Some(id) then None else p.own, if p.default == Some(id) then None else p.default,
        p.rows - {id}))
  {
    StepOfProfile(s, Timed(now, DeleteProfile(id)));
    hide Step;
  }

  /** Adding a profile and choosing the default restart nothing. */
  lemma ProfilesOutcome(s: State, id: ProfileId, settings: Settings, default: Option<ProfileId>, now: Time)
    ensures var p := s.profiles;
      && Do(s, ChangeDefault(default), now) == s.(profiles := p.(default := default))
      && Do(s, AddProfile(id, settings), now) ==
           (if id in p.rows || p.own == Some(id) || p.default == Some(id) then s
            else s.(profiles := p.(rows := p.rows[id := settings])))
  {
    StepOfProfile(s, Timed(now, ChangeDefault(default)));
    StepOfProfile(s, Timed(now, AddProfile(id, settings)));
    hide Step;
  }

  /** The present settings are those with which a start by hand would spawn. */
  lemma PresentIsStartByHand(p: Profiles, source: StreamQueue.Source)
    requires source.settings == if p.own.Some? && p.own.value in p.rows then Some(p.rows[p.own.value]) else None
    ensures var orgDefault :=
        if p.default.Some? && p.default.value in p.rows then Some(p.rows[p.default.value]) else None;
      Present(p) == StreamQueue.StartJobData(source, orgDefault).settings
  {
    StreamQueue.JobDataOutcome(source, source, RowOf(p, p.default));
    hide StreamQueue.StartJobData, StreamQueue.BuildStreamJobData;
  }

  // ---- Profile restarts ----

  /** A saved change restarts the camera exactly if it is there, running, outside maintenance and on the profile. */
  lemma ChooseOutcome(s: State, r: RestartId, source: StreamQueue.Source, now: Time)
    requires r in s.restarts && s.restarts[r].Saved?
    ensures var scope, row := s.restarts[r].scope, s.camera.row;
      var chosen := row.Some? && row.value.status != Offline && !row.value.maintenance
                    && (scope.OnProfile? ==> s.profiles.own == Some(scope.id));
      Do(s, ChooseCamera(r, source), now) == s.(
        restarts := if chosen then s.restarts[r := Chosen(scope, source)] else s.restarts - {r})
  {
    hide ProfileStep, OutsideStep, WorkerStep;
  }

  /** What is loaded: the settings of the profile by now, and the hardcoded ones if it is gone or there is none. */
  lemma LoadOutcome(s: State, r: RestartId, now: Time)
    requires r in s.restarts && s.restarts[r].Chosen?
    ensures var scope := s.restarts[r].scope;
      var profile := match scope { case OnProfile(id) => Some(id) case OnCamera(p) => p };
      var settings :=
        if profile.Some? && profile.value in s.profiles.rows then s.profiles.rows[profile.value]
        else Settings(Some("auto"), None, None, None, None, Some("aac"), None);
      Do(s, LoadProfile(r), now) == s.(restarts := s.restarts[r := Loaded(s.restarts[r].source, settings)])
  {
    hide ProfileStep, OutsideStep, WorkerStep;
  }

  /** The look at the job decides: none, add; active, signal; idle, remove and then add. */
  lemma LookOutcome(s: State, r: RestartId, now: Time)
    requires r in s.restarts && (s.restarts[r].Loaded? || s.restarts[r].Found? || s.restarts[r].Removing?)
    ensures var phase := s.restarts[r];
      var source, settings := phase.source, phase.settings;
      && (phase.Loaded? ==> Do(s, FindJob(r), now) == s.(
            restarts := s.restarts[r := if s.job.None? then Adding(source, settings) else Found(source, settings)]))
      && (phase.Found? ==> Do(s, CheckActive(r), now) == s.(
            restarts := s.restarts[r := if s.job.Some? && s.job.value.state == StreamQueue.Active
                                        then Signalling(source, settings) else Removing(source, settings)]))
      && (phase.Removing? ==> Do(s, RemoveOld(r), now) == s.(
            restarts := s.restarts[r := Adding(source, settings)],
            job := if s.job.Some? && s.job.value.state == StreamQueue.Active then s.job else None))
  {
    hide ProfileStep, OutsideStep, WorkerStep;
  }

  /** The add: a restart job with the settings loaded, unless there is a job by now. */
  lemma AddOutcome(s: State, r: RestartId, now: Time)
    requires r in s.restarts && s.restarts[r].Adding?
    ensures var source, settings := s.restarts[r].source, s.restarts[r].settings;
      var data := StreamQueue.BuildStreamJobData(source);
      Do(s, AddRestart(r), now) == s.(
        restarts := s.restarts - {r},
        job := if s.job.Some? then s.job
               else Some(StreamQueue.Job(StreamQueue.RestartJob, data.(settings := settings), 0, StreamQueue.Waiting)))
  {
    hide ProfileStep, OutsideStep, WorkerStep;
  }

  /**
   The signal: a worker that listens and is not restarting takes the settings over for the spawn
   still to come, and its process is told to stop; any other one does nothing.
   */
  lemma SignalOutcome(s: State, r: RestartId, now: Time)
    requires Inv(s) && r in s.restarts && s.restarts[r].Signalling?
    ensures var settings, run, s' := s.restarts[r].settings, s.run, Do(s, SignalRun(r), now);
      var listens := run.Subscribed? || (run.Ready? && run.listening) || (run.Prepared? && run.listening)
                     || (run.Streaming? && run.listening);
      if !listens || s.restarting then s' == s.(restarts := s.restarts - {r})
      else
        && s' == s.(restarts := s.restarts - {r}, run := s'.run, process := s'.process, restarting := run.Streaming?)
        && s'.run == (match run
                      case Subscribed(_) => Subscribed(settings)
                      case Ready(_, _) => Ready(settings, true)
                      case Prepared(_, _) => Prepared(settings, true)
                      case _ => run)
        && (s.process.None? ==> s'.process.None?)
        && (s.process.Some? ==> s'.process == Some(Process(s.process.value.settings, true)))
  {
    hide ProfileStep, OutsideStep, WorkerStep, Up, StreamHealth.IsDegraded, StreamHealth.Bounded;
  }
}
