/**
 The life of one camera's stream job: the worker's run from the breaker check to the rethrow,
 against everything that can happen to the camera meanwhile.

 The worker's function is asynchronous. Each step below is one stretch between two of its awaits,
 so that any event from outside can land between any two of them. What the outside does is broken
 into its elementary effects (add a job, remove a job, signal the process, change the status), so
 that every service that enqueues is covered by the same few events. A status change from outside
 is its write, with whatever row its read may have found before.
 */
module StreamSupervision {
  import opened Common
  import opened StreamProfiles
  import CameraHealth
  import StatusNotify
  import StreamHealth
  import StreamQueue

  // ---- State ----

  /** The camera's FFmpeg process: the profile it was spawned with, and its intentional-stop mark. */
  datatype Process = Process(settings: Settings, marked: bool)

  /** Where the worker is. `listening` says whether it receives restart signals. */
  datatype Run =
    | NoRun
    | Picked
    | Refusing
    | Admitted(settings: Settings)
    | Subscribed(settings: Settings)
    | Ready(settings: Settings, listening: bool)
    | Prepared(settings: Settings, listening: bool)
    | Streaming(listening: bool)
    | Resolved
    | Rejected
    | Degrading
    | GivingUp

  /** The history: breaker raised, status change recorded, process spawned. */
  datatype Entry = Raised | Moved(to: Status) | Spawned(settings: Settings)

  /** The profile the camera is attached to, its organisation's default, and the organisation's profiles. */
  datatype Profiles = Profiles(own: Option<ProfileId>, default: Option<ProfileId>, rows: map<ProfileId, Settings>)

  type RestartId = nat

  /** What a restart is for: the cameras on a profile that was edited, or one camera that was given another profile. */
  datatype Scope = OnProfile(id: ProfileId) | OnCamera(profile: Option<ProfileId>)

  /**
   A profile restart between two of its operations: the change is saved, the camera chosen, the
   profile loaded, the job found, and then the job found active or not, or removed. `source` is the
   camera's row as the restart read it.
   */
  datatype Restart =
    | Saved(scope: Scope)
    | Chosen(scope: Scope, source: StreamQueue.Source)
    | Loaded(source: StreamQueue.Source, settings: Settings)
    | Found(source: StreamQueue.Source, settings: Settings)
    | Signalling(source: StreamQueue.Source, settings: Settings)
    | Removing(source: StreamQueue.Source, settings: Settings)
    | Adding(source: StreamQueue.Source, settings: Settings)

  /**
   `seen` is the row that the worker's status change has read and is about to write, `restarts` the
   profile restarts under way; `restarting` is up while a graceful restart that a signal began is
   waiting.
   */
  datatype State = State(
    camera: StatusNotify.Camera, process: Option<Process>, job: StreamQueue.Slot,
    run: Run, seen: Option<StatusNotify.Row>, restarting: bool,
    profiles: Profiles, restarts: map<RestartId, Restart>, log: seq<Entry>)

  /** A camera as an update of it read it before its write. */
  datatype CameraRead = CameraRead(profile: Option<ProfileId>, settings: Option<Settings>, row: StatusNotify.Row)

  datatype Event =
    // The worker and its process.
    | Begin | Guard | Refuse | Subscribe(ok: bool) | CheckFingerprint | Prepare | Spawn
    | FfStart | FfError | FfEnd
    | Finish | Verdict | Degrade | Rethrow
    | WriteStatus
    // The outside.
    | Transition(read: StatusNotify.Row, to: Status)
    | SetMaintenance(on: bool)
    | ForceOffline
    | AddJob(name: StreamQueue.JobName, data: StreamQueue.JobData)
    | RemoveJob
    | Terminate
    | EditProfile(restart: RestartId, id: ProfileId, before: Settings, settings: Settings)
    | Reassign(restart: RestartId, own: Option<ProfileId>, found: CameraRead)
    | AddProfile(id: ProfileId, settings: Settings)
    | DeleteProfile(id: ProfileId)
    | ChangeDefault(default: Option<ProfileId>)
    | ChooseCamera(restart: RestartId, source: StreamQueue.Source)
    | LoadProfile(restart: RestartId)
    | FindJob(restart: RestartId)
    | CheckActive(restart: RestartId)
    | SignalRun(restart: RestartId)
    | RemoveOld(restart: RestartId)
    | AddRestart(restart: RestartId)
    | EndPolling
    | ReadTolerance
    | BumpTolerance
    | Snapshot

  datatype Timed = Timed(at: Time, event: Event)

  predicate Degraded(s: State) {
    StreamHealth.IsDegraded(s.camera.health)
  }

  function RowOf(p: Profiles, id: Option<ProfileId>): Option<Settings> {
    if id.Some? && id.value in p.rows then Some(p.rows[id.value]) else None
  }

  /** The settings that a start by hand gives the camera: its profile's, else the default's, else the hardcoded ones. */
  function Present(p: Profiles): Settings {
    RowOf(p, p.own).GetOr(RowOf(p, p.default).GetOr(StreamQueue.FALLBACK))
  }

  // ---- Steps ----

  /** The write of a status change that has read `seen`, perhaps some time ago. */
  function Write(s: State, seen: StatusNotify.Row, to: Status, now: Time): State {
    if s.camera.row.None? then s
    else s.(camera := StatusNotify.Written(s.camera, seen, to, now), log := s.log + [Moved(to)])
  }

  /** A whole status change; one that is not allowed has no effect. */
  function Move(s: State, org: OrgId, to: Status, now: Time): State {
    if StatusNotify.Changes(s.camera, org, to) then Write(s, s.camera.row.value, to, now) else s
  }

  /** What the worker asks for where it is. */
  function Target(s: State): Status {
    if !s.run.Ready? then Status.Degraded
    else if s.job.Some? && s.job.value.name == StreamQueue.RestartJob then Reconnecting
    else Connecting
  }

  /** The read of the worker's change: what there is to write, or the step after the change. */
  function Asked(s: State, org: OrgId, after: State): State {
    if StatusNotify.Changes(s.camera, org, Target(s)) then s.(seen := s.camera.row) else after
  }

  function Signalled(s: State): State {
    if s.process.Some? then s.(process := Some(s.process.value.(marked := true))) else s
  }

  function JobDone(s: State): State {
    s.(job := StreamQueue.Completed(s.job), run := NoRun)
  }

  function JobThrew(s: State): State {
    s.(job := StreamQueue.AttemptFailed(s.job), run := NoRun)
  }

  /** Empty data, or a push camera that SRS forwards by itself. */
  predicate Unfit(data: StreamQueue.JobData) {
    data.camera == "" || data.inputUrl == "" || (!data.needsTranscode && StreamQueue.LOOPBACK <= data.inputUrl)
  }

  function Guarded(s: State): State {
    if s.run != Picked || s.job.None? then s
    else if Unfit(s.job.value.data) then JobDone(s)
    else if Degraded(s) then s.(run := Refusing)
    else s.(run := Admitted(s.job.value.data.settings))
  }

  /** The fingerprint of a camera without a profile differs from every other. */
  predicate FingerprintDiffers(profile: Option<Settings>, settings: Settings) {
    profile.None? || Canonical(profile.value) != Canonical(settings)
  }

  function Checked(s: State): State {
    if !s.run.Subscribed? then s
    else
      var s' := if s.camera.row.Some? && FingerprintDiffers(RowOf(s.profiles, s.profiles.own), s.run.settings)
        && !s.restarting
                then Signalled(s) else s;
      s'.(run := Ready(s.run.settings, true))
  }

  /** A restart stops what runs and asks for reconnecting; a start asks for connecting. */
  function PreparedFor(s: State): State {
    if !s.run.Ready? || s.job.None? || s.seen.Some? then s
    else
      var org := s.job.value.data.org;
      var s' := if s.job.value.name == StreamQueue.RestartJob then Signalled(s) else s;
      if StatusNotify.TransitionResult(s.camera, org, Target(s)).Err? then JobThrew(s')
      else Asked(s', org, s'.(run := Prepared(s.run.settings, s.run.listening)))
  }

  /** The worker's change is written, and the run goes on. */
  function StatusWritten(s: State, now: Time): State {
    if s.seen.None? then s
    else
      var s' := Write(s, s.seen.value, Target(s), now).(seen := None);
      match s.run
      case Ready(settings, listening) => s'.(run := Prepared(settings, listening))
      case Refusing => JobDone(s')
      case Degrading => s'.(run := GivingUp)
      case _ => s'
  }

  /** A second process is never started: with one running the promise resolves at once. */
  function SpawnedFor(s: State): State {
    if !s.run.Prepared? then s
    else if s.process.Some? then s.(run := Resolved)
    else s.(process := Some(Process(s.run.settings, false)), run := Streaming(s.run.listening),
            log := s.log + [Spawned(s.run.settings)])
  }

  function Exited(s: State, now: Time, intentional: bool, next: Run): State {
    s.(process := None, camera := s.camera.(health := StreamHealth.Exited(s.camera.health, now, intentional)),
        run := next)
  }

  function Judged(s: State, now: Time): State {
    if s.run != Rejected then s
    else if StreamHealth.InCrashLoop(s.camera.health)
    then s.(camera := s.camera.(health := StreamHealth.Marked(s.camera.health, now)), run := Degrading,
        log := s.log + [Raised])
    else s.(run := GivingUp)
  }

  /** The cameras a profile change acts on. */
  predicate Selected(s: State) {
    s.camera.row.Some? && s.camera.row.value.status != Offline && !s.camera.row.value.maintenance
  }

  predicate Listening(r: Run) {
    r.Subscribed? || ((r.Ready? || r.Prepared? || r.Streaming?) && r.listening)
  }

  /**
   The handler of a restart signal: the worker takes over the new profile and stops its process,
   unless an earlier restart is still waiting.
   */
  function Heard(s: State, settings: Settings): State {
    if !Listening(s.run) || s.restarting then s
    else
      var s' := if s.run.Subscribed? then s.(run := Subscribed(settings))
                else if s.run.Ready? then s.(run := Ready(settings, true))
                else if s.run.Prepared? then s.(run := Prepared(settings, true)) else s;
      Signalled(s').(restarting := s.process.Some?)
  }

  // ---- Profile restarts ----

  function Without(s: State, r: RestartId): State {
    s.(restarts := s.restarts - {r})
  }

  function Next(s: State, r: RestartId, phase: Restart): State {
    s.(restarts := s.restarts[r := phase])
  }

  /** An edit restarts if the fingerprint differs from that of the row as the edit read it before. */
  function Edited(s: State, r: RestartId, id: ProfileId, before: Settings, settings: Settings): State {
    var s' := s.(profiles := s.profiles.(rows := s.profiles.rows[id := settings]));
    if FingerprintProfile(Some(before)) == FingerprintProfile(Some(settings)) then s'
      else Next(s', r, Saved(OnProfile(id)))
  }

  /** The camera gets another profile, with other settings, and was running when the update read it. */
  predicate RestartsOn(p: Profiles, own: Option<ProfileId>, found: CameraRead) {
    found.profile != own && FingerprintProfile(found.settings) != FingerprintProfile(RowOf(p, own))
    && found.row.status != Offline && !found.row.maintenance
  }

  function Reassigned(s: State, r: RestartId, own: Option<ProfileId>, found: CameraRead): State {
    var s' := s.(profiles := s.profiles.(own := own));
    if RestartsOn(s.profiles, own, found) then Next(s', r, Saved(OnCamera(own))) else s'
  }

  /** Deleting a profile detaches its cameras. */
  function WithoutProfile(p: Profiles, id: ProfileId): Profiles {
    Profiles(if p.own == Some(id) then None else p.own, if p.default == Some(id) then None
        else p.default, p.rows - {id})
  }

  /** The changes of profiles; one that names a profile which is not there fails. */
  function ProfileStep(s: State, e: Event): State {
    match e
    case EditProfile(r, id, before, settings) =>
      if r in s.restarts || id !in s.profiles.rows then s else Edited(s, r, id, before, settings)
    case Reassign(r, own, found) =>
      if r in s.restarts || s.camera.row.None? || (own.Some? && own.value !in s.profiles.rows) then s
      else Reassigned(s, r, own, found)
    case AddProfile(id, settings) =>
      if id in s.profiles.rows || s.profiles.own == Some(id) || s.profiles.default == Some(id) then s
      else s.(profiles := s.profiles.(rows := s.profiles.rows[id := settings]))
    case DeleteProfile(id) => s.(profiles := WithoutProfile(s.profiles, id))
    case ChangeDefault(default) => s.(profiles := s.profiles.(default := default))
    case _ => s
  }

  predicate ProfileEvent(e: Event) {
    e.EditProfile? || e.Reassign? || e.AddProfile? || e.DeleteProfile? || e.ChangeDefault?
  }

  /** What the restart would load now; a profile that has gone and no profile both give the hardcoded settings. */
  function Loads(p: Profiles, scope: Scope): Settings {
    RowOf(p, if scope.OnProfile? then Some(scope.id) else scope.profile).GetOr(StreamQueue.FALLBACK)
  }

  /** The query of a restart finds the camera: running, outside maintenance, and on the profile if it is for one. */
  predicate Concerns(s: State, scope: Scope) {
    Selected(s) && (scope.OnProfile? ==> s.profiles.own == Some(scope.id))
  }

  /** One operation of restart `r`; it looks at the job once, and acts on what it saw. */
  function RestartStep(s: State, e: Event): State
    requires RestartEvent(e) && e.restart in s.restarts
  {
    var r := e.restart;
    var phase := s.restarts[r];
    match e
    case ChooseCamera(_, source) =>
      if !phase.Saved? then s
      else if Concerns(s, phase.scope) then Next(s, r, Chosen(phase.scope, source)) else Without(s, r)
    case LoadProfile(_) =>
      if phase.Chosen? then Next(s, r, Loaded(phase.source, Loads(s.profiles, phase.scope))) else s
    case FindJob(_) =>
      if !phase.Loaded? then s
      else if s.job.Some? then Next(s, r, Found(phase.source, phase.settings))
      else Next(s, r, Adding(phase.source, phase.settings))
    case CheckActive(_) =>
      if !phase.Found? then s
      else if StreamQueue.IsActive(s.job) then Next(s, r, Signalling(phase.source, phase.settings))
      else Next(s, r, Removing(phase.source, phase.settings))
    case SignalRun(_) =>
      if phase.Signalling? then Heard(Without(s, r), phase.settings) else s
    case RemoveOld(_) =>
      if phase.Removing? then Next(s, r, Adding(phase.source, phase.settings)).(job := StreamQueue.Remove(s.job)) else s
    case AddRestart(_) =>
      if phase.Adding?
      then Without(s, r).(job := StreamQueue.Add(s.job, StreamQueue.RestartJob,
          RestartData(phase.source, phase.settings)))
      else s
    case _ => s
  }

  function RestartData(source: StreamQueue.Source, settings: Settings): StreamQueue.JobData {
    StreamQueue.BuildStreamJobData(source.(settings := Some(settings)))
  }

  predicate RestartEvent(e: Event) {
    e.ChooseCamera? || e.LoadProfile? || e.FindJob? || e.CheckActive? || e.SignalRun? || e.RemoveOld? || e.AddRestart?
  }

  function WorkerStep(s: State, e: Event, now: Time): State {
    match e
    case Begin =>
      if s.job.Some? && s.job.value.state == StreamQueue.Waiting && s.run == NoRun
      then s.(job := StreamQueue.Begun(s.job), run := Picked) else s
    case Guard => Guarded(s)
    case Refuse =>
      if s.run == Refusing && s.job.Some? && s.seen.None? then Asked(s, s.job.value.data.org, JobDone(s)) else s
    case Subscribe(ok) =>
      if s.run.Admitted? then s.(run := if ok then Subscribed(s.run.settings) else Ready(s.run.settings, false)) else s
    case CheckFingerprint => Checked(s)
    case Prepare => PreparedFor(s)
    case Spawn => SpawnedFor(s)
    case FfStart =>
      if s.process.Some? then s.(camera := s.camera.(health := StreamHealth.Started(s.camera.health, now))) else s
    case FfError =>
      if s.process.None? then s
      else Exited(s, now, s.process.value.marked, if s.process.value.marked then Resolved else Rejected)
    case FfEnd =>
      if s.process.None? then s else Exited(s, now, true, Resolved)
    case Finish => if s.run == Resolved then JobDone(s) else s
    case Verdict => Judged(s, now)
    case Degrade =>
      if s.run == Degrading && s.job.Some? && s.seen.None?
      then Asked(s, s.job.value.data.org, s.(run := GivingUp)) else s
    case Rethrow => if s.run == GivingUp then JobThrew(s) else s
    case WriteStatus => StatusWritten(s, now)
    case _ => s
  }

  function OutsideStep(s: State, e: Event, now: Time): State {
    match e
    case Transition(read, to) =>
      if read.status != to && StatusNotify.Allowed(read.status, to) then Write(s, read, to, now) else s
    case SetMaintenance(on) =>
      if s.camera.row.Some? then s.(camera := s.camera.(row := Some(s.camera.row.value.(maintenance := on)))) else s
    case ForceOffline =>
      if s.camera.row.Some? then s.(camera := s.camera.(row := Some(s.camera.row.value.(status := Offline)))) else s
    case AddJob(name, data) => s.(job := StreamQueue.Add(s.job, name, data))
    case RemoveJob => s.(job := StreamQueue.Remove(s.job))
    case Terminate => Signalled(s)
    case EndPolling => s.(restarting := false)
    case ReadTolerance => s.(camera := s.camera.(health := StreamHealth.ToleranceRead(s.camera.health, now)))
    case BumpTolerance => s.(camera := s.camera.(health := StreamHealth.Bumped(s.camera.health)))
    case Snapshot => s.(camera := s.camera.(health := StreamHealth.Trimmed(s.camera.health, now)))
    case _ => s
  }

  predicate Outside(e: Event) {
    e.Transition? || e.SetMaintenance? || e.ForceOffline? || e.AddJob? || e.RemoveJob? || e.Terminate?
    || ProfileEvent(e) || RestartEvent(e) || e.EndPolling? || e.ReadTolerance? || e.BumpTolerance? || e.Snapshot?
  }

  function Step(s: State, t: Timed): State {
    if RestartEvent(t.event) then (if t.event.restart in s.restarts then RestartStep(s, t.event) else s)
    else if ProfileEvent(t.event) then ProfileStep(s, t.event)
    else if Outside(t.event) then OutsideStep(s, t.event, t.at)
    else WorkerStep(s, t.event, t.at)
  }

  lemma StepOfWorker(s: State, t: Timed)
    requires !Outside(t.event)
    ensures Step(s, t) == WorkerStep(s, t.event, t.at)
  {
    hide WorkerStep, OutsideStep, RestartStep, ProfileStep;
  }

  lemma StepOfOutside(s: State, t: Timed)
    requires Outside(t.event) && !RestartEvent(t.event) && !ProfileEvent(t.event)
    ensures Step(s, t) == OutsideStep(s, t.event, t.at)
  {
    hide WorkerStep, OutsideStep, RestartStep, ProfileStep;
  }

  lemma StepOfProfile(s: State, t: Timed)
    requires ProfileEvent(t.event)
    ensures Step(s, t) == ProfileStep(s, t.event)
  {
    hide WorkerStep, OutsideStep, RestartStep, ProfileStep;
  }

  lemma WorkerSteps(s: State, now: Time)
    ensures Step(s, Timed(now, Guard)) == Guarded(s)
    ensures Step(s, Timed(now, CheckFingerprint)) == Checked(s)
    ensures Step(s, Timed(now, Prepare)) == PreparedFor(s)
    ensures Step(s, Timed(now, Spawn)) == SpawnedFor(s)
    ensures Step(s, Timed(now, Verdict)) == Judged(s, now)
  {
    hide Step, Guarded, Checked, PreparedFor, SpawnedFor, Judged;
    GuardIsGuarded(s, now);
    CheckIsChecked(s, now);
    PrepareIsPrepared(s, now);
    SpawnIsSpawned(s, now);
    VerdictIsJudged(s, now);
  }

  lemma GuardIsGuarded(s: State, now: Time)
    ensures Step(s, Timed(now, Guard)) == Guarded(s)
  {
    StepOfWorker(s, Timed(now, Guard));
    hide Step, Guarded;
  }

  lemma CheckIsChecked(s: State, now: Time)
    ensures Step(s, Timed(now, CheckFingerprint)) == Checked(s)
  {
    StepOfWorker(s, Timed(now, CheckFingerprint));
    hide Step, Checked;
  }

  lemma PrepareIsPrepared(s: State, now: Time)
    ensures Step(s, Timed(now, Prepare)) == PreparedFor(s)
  {
    StepOfWorker(s, Timed(now, Prepare));
    hide Step, PreparedFor;
  }

  lemma SpawnIsSpawned(s: State, now: Time)
    ensures Step(s, Timed(now, Spawn)) == SpawnedFor(s)
  {
    StepOfWorker(s, Timed(now, Spawn));
    hide Step, SpawnedFor;
  }

  lemma VerdictIsJudged(s: State, now: Time)
    ensures Step(s, Timed(now, Verdict)) == Judged(s, now)
  {
    StepOfWorker(s, Timed(now, Verdict));
    hide Step, Judged;
  }

  function After(s: State, events: seq<Timed>): State
    decreases |events|
  {
    if events == [] then s else After(Step(s, events[0]), events[1..])
  }

  /** A booted service: nothing runs, and the queue may hold a job from before. */
  ghost predicate Initial(s: State) {
    s.camera.health == StreamHealth.NEW_SLOT && s.process.None? && s.run == NoRun && s.seen.None? && !s.restarting
    && s.restarts == map[] && s.log == [] && !StreamQueue.IsActive(s.job)
  }

  // ---- The invariant ----

  /** The breaker according to the history: raised, and no later change to another status. */
  predicate Up(log: seq<Entry>) {
    if log == [] then false
    else
      var last := log[|log| - 1];
      last.Raised? || (Up(log[..|log| - 1]) && !(last.Moved? && last.to != Status.Degraded))
  }

  lemma UpAppend(log: seq<Entry>, e: Entry)
    ensures Up(log + [e]) == (e.Raised? || (Up(log) && !(e.Moved? && e.to != Status.Degraded)))
  {
    assert (log + [e])[..|log|] == log;
  }

  ghost predicate Inv(s: State) {
    // One run per active job, and a process exactly while the run waits for it.
    && (s.run == NoRun <==> !StreamQueue.IsActive(s.job))
    && (s.process.Some? <==> s.run.Streaming?)
    // A status change of the worker belongs to the three places where it asks for one.
    && (s.seen.Some? ==>
          (s.run.Ready? || s.run == Refusing || s.run == Degrading) && s.camera.row.Some?
          && s.seen.value.status != Target(s) && StatusNotify.Allowed(s.seen.value.status, Target(s)))
    // The breaker is up exactly when the history says so, and never beyond the breaker check.
    && (Degraded(s) <==> Up(s.log))
    && (Degraded(s) ==>
          s.run == NoRun || s.run == Picked || s.run == Refusing || s.run == Degrading || s.run == GivingUp)
    // The miss tolerance is between two and four.
    && StreamHealth.Bounded(s.camera.health)
  }

  lemma WriteInv(s: State, seen: StatusNotify.Row, to: Status, now: Time)
    requires Inv(s)
    ensures var s' := Write(s, seen, to, now);
      Inv(s') && (Degraded(s') ==> Degraded(s)) && s'.run == s.run && s'.job == s.job && s'.process == s.process
  {
    hide StreamHealth.RecentTransitions;
    UpAppend(s.log, Moved(to));
  }

  /** Only a mark raises the breaker flag, and of the rest only a status change clears it. */
  lemma BreakerFlag(h: StreamHealth.Slot, now: Time, intentional: bool)
    ensures StreamHealth.IsDegraded(StreamHealth.Exited(h, now, intentional)) == StreamHealth.IsDegraded(h)
    ensures StreamHealth.IsDegraded(StreamHealth.Started(h, now)) == StreamHealth.IsDegraded(h)
    ensures StreamHealth.IsDegraded(StreamHealth.ToleranceRead(h, now)) == StreamHealth.IsDegraded(h)
    ensures StreamHealth.IsDegraded(StreamHealth.Bumped(h)) == StreamHealth.IsDegraded(h)
    ensures StreamHealth.IsDegraded(StreamHealth.Trimmed(h, now)) == StreamHealth.IsDegraded(h)
    ensures StreamHealth.IsDegraded(StreamHealth.Marked(h, now))
  {
    hide StreamHealth.Within, StreamHealth.RecentTransitions;
  }

  lemma ToleranceBounded(h: StreamHealth.Slot, now: Time, intentional: bool)
    requires StreamHealth.Bounded(h)
    ensures StreamHealth.Bounded(StreamHealth.Exited(h, now, intentional))
      && StreamHealth.Bounded(StreamHealth.Started(h, now))
    ensures StreamHealth.Bounded(StreamHealth.ToleranceRead(h, now)) && StreamHealth.Bounded(StreamHealth.Bumped(h))
    ensures StreamHealth.Bounded(StreamHealth.Trimmed(h, now)) && StreamHealth.Bounded(StreamHealth.Marked(h, now))
  {
    hide StreamHealth.Within, StreamHealth.RecentTransitions;
  }

  lemma HealthInv(s: State, h: StreamHealth.Slot)
    requires Inv(s) && StreamHealth.IsDegraded(h) == Degraded(s) && StreamHealth.Bounded(h)
    ensures Inv(s.(camera := s.camera.(health := h)))
  {
    hide StreamHealth.Bounded, StreamHealth.IsDegraded, Up;
  }

  lemma StartInv(s: State, t: Timed)
    requires Inv(s) && t.event.FfStart?
    ensures Inv(Step(s, t))
  {
    BreakerFlag(s.camera.health, t.at, false);
    ToleranceBounded(s.camera.health, t.at, false);
    StepOfWorker(s, t);
    HealthInv(s, StreamHealth.Started(s.camera.health, t.at));
    hide Step, Inv, StreamHealth.Started;
  }

  lemma HealthReadsInv(s: State, t: Timed)
    requires Inv(s) && (t.event.ReadTolerance? || t.event.BumpTolerance? || t.event.Snapshot?)
    ensures Inv(Step(s, t))
  {
    BreakerFlag(s.camera.health, t.at, false);
    ToleranceBounded(s.camera.health, t.at, false);
    StepOfOutside(s, t);
    HealthInv(s, StreamHealth.ToleranceRead(s.camera.health, t.at));
    HealthInv(s, StreamHealth.Bumped(s.camera.health));
    HealthInv(s, StreamHealth.Trimmed(s.camera.health, t.at));
    hide Step, Inv, StreamHealth.ToleranceRead, StreamHealth.Bumped, StreamHealth.Trimmed;
  }

  lemma ExitInv(s: State, t: Timed)
    requires Inv(s) && (t.event.FfError? || t.event.FfEnd?)
    ensures Inv(Step(s, t))
  {
    BreakerFlag(s.camera.health, t.at, true);
    BreakerFlag(s.camera.health, t.at, false);
    ToleranceBounded(s.camera.health, t.at, true);
    ToleranceBounded(s.camera.health, t.at, false);
    hide StreamHealth.IsDegraded, StreamHealth.Exited, StreamHealth.Bounded, Up;
  }

  lemma VerdictInv(s: State, t: Timed)
    requires Inv(s) && t.event.Verdict?
    ensures Inv(Step(s, t))
  {
    UpAppend(s.log, Raised);
    BreakerFlag(s.camera.health, t.at, true);
    ToleranceBounded(s.camera.health, t.at, true);
    hide StreamHealth.IsDegraded, StreamHealth.Marked, StreamHealth.InCrashLoop, StreamHealth.Bounded, Up;
  }

  lemma RunStepInv(s: State, t: Timed)
    requires Inv(s)
    requires t.event.Refuse? || t.event.Prepare? || t.event.Spawn? || t.event.Degrade? || t.event.WriteStatus?
    ensures Inv(Step(s, t))
  {
    hide StreamHealth.IsDegraded, Up, Write, StreamHealth.Bounded;
    StepOfWorker(s, t);
    if s.seen.Some? {
      WriteInv(s, s.seen.value, Target(s), t.at);
    }
    if s.run.Prepared? {
      UpAppend(s.log, Spawned(s.run.settings));
    }
    hide Step;
  }

  lemma PickUpInv(s: State, t: Timed)
    requires Inv(s)
    requires t.event.Begin? || t.event.Guard? || t.event.Subscribe? || t.event.CheckFingerprint?
      || t.event.Finish? || t.event.Rethrow?
    ensures Inv(Step(s, t))
  {
    StepOfWorker(s, t);
    hide Step, Up, StreamHealth.IsDegraded, StreamHealth.Bounded, FingerprintDiffers, Unfit;
  }

  lemma QueueInv(s: State, t: Timed)
    requires Inv(s)
    requires t.event.SetMaintenance? || t.event.ForceOffline? || t.event.AddJob? || t.event.RemoveJob?
      || t.event.Terminate? || t.event.EndPolling?
    ensures Inv(Step(s, t))
  {
    StepOfOutside(s, t);
    hide Step, Up, StreamHealth.IsDegraded, StreamHealth.Bounded;
  }

  lemma ProfileInv(s: State, t: Timed)
    requires Inv(s) && ProfileEvent(t.event)
    ensures Inv(Step(s, t))
  {
    ProfileFrame(s, t.event);
    hide ProfileStep, RestartStep, OutsideStep, WorkerStep, Up, StreamHealth.IsDegraded, StreamHealth.Bounded;
  }

  lemma StepInv(s: State, t: Timed)
    requires Inv(s)
    ensures Inv(Step(s, t))
  {
    hide Step, Inv;
    match t.event
    case Transition(read, to) => TransitionInv(s, t);
    case ReadTolerance => HealthReadsInv(s, t);
    case BumpTolerance => HealthReadsInv(s, t);
    case Snapshot => HealthReadsInv(s, t);
    case FfStart => StartInv(s, t);
    case FfError => ExitInv(s, t);
    case FfEnd => ExitInv(s, t);
    case Verdict => VerdictInv(s, t);
    case Refuse => RunStepInv(s, t);
    case Prepare => RunStepInv(s, t);
    case Spawn => RunStepInv(s, t);
    case Degrade => RunStepInv(s, t);
    case WriteStatus => RunStepInv(s, t);
    case _ =>
      if RestartEvent(t.event) {
        RestartInv(s, t);
      } else if ProfileEvent(t.event) {
        ProfileInv(s, t);
      } else if Outside(t.event) {
        QueueInv(s, t);
      } else {
        PickUpInv(s, t);
      }
  }

  lemma TransitionInv(s: State, t: Timed)
    requires Inv(s) && t.event.Transition?
    ensures Inv(Step(s, t))
  {
    WriteInv(s, t.event.read, t.event.to, t.at);
    StepOfOutside(s, t);
    hide Step, Inv, Write;
  }

  lemma RestartInv(s: State, t: Timed)
    requires Inv(s) && RestartEvent(t.event)
    ensures Inv(Step(s, t))
  {
    if t.event.restart in s.restarts {
      RestartFrame(s, t.event);
      RestartRun(s, t.event);
    }
    hide OutsideStep, WorkerStep, ProfileStep, RestartStep, Up, StreamHealth.IsDegraded, StreamHealth.Bounded;
  }

  /** A restart does not move the run on. */
  lemma RestartRun(s: State, e: Event)
    requires RestartEvent(e) && e.restart in s.restarts
    ensures var s' := RestartStep(s, e);
      && s'.seen == s.seen && StreamQueue.IsActive(s'.job) == StreamQueue.IsActive(s.job)
      && (StreamQueue.IsActive(s.job) ==> s'.job == s.job)
      && (s'.run == s.run || (!Early(s.run) && !Early(s'.run) && s'.run.Ready? == s.run.Ready?))
  {
    hide StreamQueue.BuildStreamJobData, Loads, Concerns;
  }

  /** Where the breaker may be up, or a process runs. */
  predicate Early(r: Run) {
    r == NoRun || r == Picked || r == Refusing || r == Degrading || r == GivingUp || r.Streaming?
  }

  lemma {:induction false} AfterInv(s: State, events: seq<Timed>)
    requires Inv(s)
    ensures Inv(After(s, events))
    decreases |events|
  {
    if events != [] {
      StepInv(s, events[0]);
      AfterInv(Step(s, events[0]), events[1..]);
    }
  }

  lemma InitialInv(s: State)
    requires Initial(s)
    ensures Inv(s)
  {}

  // ---- The breaker ----

  predicate Clears(e: Entry) {
    e.Moved? && e.to != Status.Degraded
  }

  /** Every spawn in the history came while the breaker was down. */
  ghost predicate SpawnsGuarded(log: seq<Entry>) {
    forall j | 0 <= j < |log| :: log[j].Spawned? ==> !Up(log[..j])
  }

  /** Restarts touch the run's settings, its process's mark and the job, and nothing else. */
  lemma RestartFrame(s: State, e: Event)
    requires RestartEvent(e) && e.restart in s.restarts
    ensures var s' := RestartStep(s, e);
      s'.camera == s.camera && s'.log == s.log && s'.profiles == s.profiles && s'.process.Some? == s.process.Some?
  {
    hide StreamQueue.BuildStreamJobData, Selected;
  }

  /** Changes of profiles touch the profiles and what is under way for them. */
  lemma ProfileFrame(s: State, e: Event)
    ensures var s' := ProfileStep(s, e); s' == s.(profiles := s'.profiles, restarts := s'.restarts)
  {
    hide FingerprintProfile, RestartsOn;
  }

  lemma StepLog(s: State, t: Timed)
    requires Inv(s)
    ensures var log := Step(s, t).log;
      log == s.log || (|log| == |s.log| + 1 && log[..|s.log|] == s.log && (log[|s.log|].Spawned? ==> !Up(s.log)))
  {
    if ProfileEvent(t.event) {
      ProfileFrame(s, t.event);
      hide ProfileStep, OutsideStep, WorkerStep;
    } else if RestartEvent(t.event) {
      if t.event.restart in s.restarts {
        RestartFrame(s, t.event);
      }
      hide RestartStep, OutsideStep, WorkerStep;
    } else if Outside(t.event) {
      StepOfOutside(s, t);
      hide Step, StatusNotify.Written;
    } else {
      WorkerLog(s, t);
      hide Step;
    }
    hide Up, Inv;
  }

  lemma WorkerLog(s: State, t: Timed)
    requires Inv(s) && !Outside(t.event)
    ensures var log := Step(s, t).log;
      log == s.log || (|log| == |s.log| + 1 && log[..|s.log|] == s.log && (log[|s.log|].Spawned? ==> !Up(s.log)))
  {
    StepOfWorker(s, t);
    assert s.run.Prepared? ==> !Up(s.log);
    hide Step, StatusNotify.Written, StatusNotify.Changes, StatusNotify.TransitionResult, Up, Inv, Degraded;
    hide FingerprintDiffers, StreamHealth.InCrashLoop, Unfit;
  }

  lemma {:induction false} LogGuarded(s: State, events: seq<Timed>)
    requires Inv(s) && SpawnsGuarded(s.log)
    ensures SpawnsGuarded(After(s, events).log)
    decreases |events|
  {
    if events != [] {
      var t := events[0];
      StepInv(s, t);
      StepLog(s, t);
      var log := Step(s, t).log;
      forall j | 0 <= j < |log| ensures log[j].Spawned? ==> !Up(log[..j]) {
        if j < |s.log| {
          assert log[j] == s.log[j] && log[..j] == s.log[..j];
        }
      }
      LogGuarded(Step(s, t), events[1..]);
    }
  }

  lemma {:induction false} DownAfterRaise(log: seq<Entry>, i: nat, j: nat)
    requires i < j <= |log| && log[i].Raised? && !Up(log[..j])
    ensures exists k :: i < k < j && Clears(log[k])
  {
    assert log[..j][..j - 1] == log[..j - 1] && log[..j][j - 1] == log[j - 1];
    if i < j - 1 && !Clears(log[j - 1]) {
      DownAfterRaise(log, i, j - 1);
    }
  }

  /**
   The breaker, in every run of the worker, its process and the outside: between the moment a
   camera is marked degraded and a later spawn of its FFmpeg, whichever service enqueued the job,
   there is always a recorded change to a status other than degraded.
   */
  lemma BreakerGuardsEverySpawn(s: State, events: seq<Timed>, i: nat, j: nat)
    requires Initial(s)
    requires i < j < |After(s, events).log|
    requires After(s, events).log[i].Raised? && After(s, events).log[j].Spawned?
    ensures exists k :: i < k < j && Clears(After(s, events).log[k])
  {
    InitialInv(s);
    LogGuarded(s, events);
    DownAfterRaise(After(s, events).log, i, j);
  }

  /** The camera as the health tick sees it; the miss counter is the tick's own. */
  function Seen(s: State, misses: nat): CameraHealth.CameraSlot {
    CameraHealth.CameraSlot(s.camera, s.process.Some?, s.process.Some? && s.process.value.marked, s.job, misses)
  }

  /** In every run: while the breaker is up no process runs, and the tick leaves the camera as it is. */
  lemma BreakerStopsTheTick(s: State, events: seq<Timed>, candidate: CameraHealth.Candidate,
                            srsAlive: bool, misses: nat, now: Time)
    requires Initial(s) && Up(After(s, events).log)
    ensures var s' := After(s, events);
      s'.process.None? && CameraHealth.TickCamera(Seen(s', misses), candidate, srsAlive, now) == Seen(s', misses)
  {
    InitialInv(s);
    AfterInv(s, events);
    CameraHealth.DegradedIsUntouched(Seen(After(s, events), misses), candidate, srsAlive, now);
  }

  // ---- The tick as a run of outside events ----

  function All(events: seq<Event>, now: Time): seq<Timed> {
    seq(|events|, i requires 0 <= i < |events| => Timed(now, events[i]))
  }

  function If(b: bool, e: Event): seq<Event> {
    if b then [e] else []
  }

  /** An undisturbed status change. */
  function Change(camera: StatusNotify.Camera, org: OrgId, to: Status): seq<Event> {
    if StatusNotify.Changes(camera, org, to) then [Transition(camera.row.value, to)] else []
  }

  /** The effects of recovering a dead camera, in order; `camera` and `job` are what the tick sees. */
  function RecoveryEvents(camera: StatusNotify.Camera, job: StreamQueue.Slot, candidate: CameraHealth.Candidate)
    : seq<Event>
  {
    var source := candidate.source;
    var pull := !CameraHealth.PushPassthrough(source);
    var enqueues := pull && !StreamQueue.IsRestart(job);
    If(candidate.status == Online, BumpTolerance)
    + (If(pull, Terminate)
       + (Change(camera, source.org, Reconnecting)
          + (If(enqueues && StreamQueue.WornOut(job), RemoveJob)
             + If(enqueues, AddJob(StreamQueue.StartJob, StreamQueue.BuildStreamJobData(source))))))
  }

  /** The effects of one turn of the tick, in order. */
  function TickEvents(s: State, misses: nat, candidate: CameraHealth.Candidate, srsAlive: bool, now: Time): seq<Event> {
    match CameraHealth.Judge(Seen(s, misses), candidate.source, srsAlive, now)
    case Skipped => []
    case Tolerated => [ReadTolerance]
    case Healthy => [ReadTolerance]
    case _ => [ReadTolerance] + RecoveryEvents(s.camera, s.job, candidate)
  }

  lemma AfterSplit(s: State, xs: seq<Event>, ys: seq<Event>, now: Time)
    ensures After(s, All(xs + ys, now)) == After(After(s, All(xs, now)), All(ys, now))
    decreases |xs|
  {
    if xs == [] {
      assert All(xs + ys, now) == All(ys, now);
    } else {
      assert All(xs + ys, now)[0] == All(xs, now)[0] == Timed(now, xs[0]);
      assert All(xs + ys, now)[1..] == All(xs[1..] + ys, now);
      assert All(xs, now)[1..] == All(xs[1..], now);
      AfterSplit(Step(s, Timed(now, xs[0])), xs[1..], ys, now);
    }
  }

  lemma AfterOne(s: State, e: Event, now: Time)
    ensures After(s, All([e], now)) == Step(s, Timed(now, e)) && After(s, All([], now)) == s
  {
    assert All([e], now)[1..] == [];
  }

  lemma AfterIf(s: State, b: bool, e: Event, rest: seq<Event>, now: Time)
    ensures After(s, All(If(b, e) + rest, now)) == After(if b then Step(s, Timed(now, e)) else s, All(rest, now))
  {
    AfterSplit(s, If(b, e), rest, now);
    AfterOne(s, e, now);
  }

  lemma AfterChange(s: State, camera: StatusNotify.Camera, org: OrgId, to: Status, rest: seq<Event>, now: Time)
    requires s.camera.row == camera.row
    ensures After(s, All(Change(camera, org, to) + rest, now)) == After(Move(s, org, to, now), All(rest, now))
  {
    AfterSplit(s, Change(camera, org, to), rest, now);
    hide StatusNotify.Written;
    if StatusNotify.Changes(camera, org, to) {
      var e := Transition(camera.row.value, to);
      AfterOne(s, e, now);
      StepOfOutside(s, Timed(now, e));
      hide Step;
    } else {
      AfterOne(s, ReadTolerance, now);
    }
  }

  /** The recovery step by step. */
  function RecoveryRun(s: State, candidate: CameraHealth.Candidate, now: Time): State {
    var source := candidate.source;
    var pull := !CameraHealth.PushPassthrough(source);
    var enqueues := pull && !StreamQueue.IsRestart(s.job);
    var s1 := if candidate.status == Online then Step(s, Timed(now, BumpTolerance)) else s;
    var s2 := if pull then Step(s1, Timed(now, Terminate)) else s1;
    var s3 := Move(s2, source.org, Reconnecting, now);
    var s4 := if enqueues && StreamQueue.WornOut(s.job) then Step(s3, Timed(now, RemoveJob)) else s3;
    if enqueues then Step(s4, Timed(now, AddJob(StreamQueue.StartJob, StreamQueue.BuildStreamJobData(source)))) else s4
  }

  lemma RecoveryEventsRun(s: State, candidate: CameraHealth.Candidate, now: Time)
    ensures After(s, All(RecoveryEvents(s.camera, s.job, candidate), now)) == RecoveryRun(s, candidate, now)
  {
    hide After, Step, Move, Signalled, Change, StreamQueue.IsRestart, StreamQueue.WornOut, CameraHealth.PushPassthrough;
    hide StreamQueue.BuildStreamJobData;
    var source := candidate.source;
    var pull := !CameraHealth.PushPassthrough(source);
    var enqueues := pull && !StreamQueue.IsRestart(s.job);
    var add := AddJob(StreamQueue.StartJob, StreamQueue.BuildStreamJobData(source));
    var e5 := If(enqueues, add);
    var e4 := If(enqueues && StreamQueue.WornOut(s.job), RemoveJob) + e5;
    var e3 := Change(s.camera, source.org, Reconnecting) + e4;
    var e2 := If(pull, Terminate) + e3;
    var s1 := if candidate.status == Online then Step(s, Timed(now, BumpTolerance)) else s;
    var s2 := if pull then Step(s1, Timed(now, Terminate)) else s1;
    var s3 := Move(s2, source.org, Reconnecting, now);
    var s4 := if enqueues && StreamQueue.WornOut(s.job) then Step(s3, Timed(now, RemoveJob)) else s3;
    RecoveryMoves(s, now);
    RecoveryMoves(s1, now);
    SignalledKeepsCamera(s1);
    AfterIf(s, candidate.status == Online, BumpTolerance, e2, now);
    AfterIf(s1, pull, Terminate, e3, now);
    AfterChange(s2, s.camera, source.org, Reconnecting, e4, now);
    AfterIf(s3, enqueues && StreamQueue.WornOut(s.job), RemoveJob, e5, now);
    AfterOne(s4, add, now);
  }

  /** The steps of a recovery, unfolded. */
  lemma RecoveryMoves(s: State, now: Time)
    ensures Step(s, Timed(now, BumpTolerance))
      == s.(camera := s.camera.(health := StreamHealth.Bumped(s.camera.health)))
    ensures Step(s, Timed(now, Terminate)) == Signalled(s)
  {
    StepOfOutside(s, Timed(now, BumpTolerance));
    StepOfOutside(s, Timed(now, Terminate));
    hide Step, Signalled, StreamHealth.Bumped;
  }

  lemma MoveCamera(s: State, org: OrgId, to: Status, now: Time)
    ensures var s' := Move(s, org, to, now);
      s' == s.(camera := StatusNotify.Transitioned(s.camera, org, to, now), log := s'.log)
  {
    hide StatusNotify.Written;
  }

  lemma SignalledKeepsCamera(s: State)
    ensures Signalled(s) == s.(process := Signalled(s).process)
  {}

  lemma RecoveryJobs(s: State, data: StreamQueue.JobData, now: Time)
    ensures Step(s, Timed(now, RemoveJob)) == s.(job := StreamQueue.Remove(s.job))
    ensures Step(s, Timed(now, AddJob(StreamQueue.StartJob, data)))
      == s.(job := StreamQueue.Add(s.job, StreamQueue.StartJob, data))
  {
    StepOfOutside(s, Timed(now, RemoveJob));
    StepOfOutside(s, Timed(now, AddJob(StreamQueue.StartJob, data)));
    hide Step, StreamQueue.Add, StreamQueue.Remove;
  }

  lemma RecoveryIsRun(s: State, misses: nat, candidate: CameraHealth.Candidate, now: Time)
    ensures Seen(RecoveryRun(s, candidate, now), misses) == CameraHealth.Recovered(Seen(s, misses), candidate, now)
  {
    var source := candidate.source;
    var data := StreamQueue.BuildStreamJobData(source);
    var pull := !CameraHealth.PushPassthrough(source);
    var s1 := if candidate.status == Online then Step(s, Timed(now, BumpTolerance)) else s;
    var s2 := if pull then Step(s1, Timed(now, Terminate)) else s1;
    var s3 := Move(s2, source.org, Reconnecting, now);
    var s4 := Step(s3, Timed(now, RemoveJob));
    RecoveryMoves(s, now);
    RecoveryMoves(s1, now);
    MoveCamera(s2, source.org, Reconnecting, now);
    RecoveryJobs(s3, data, now);
    RecoveryJobs(s4, data, now);
    hide Move, StatusNotify.Transitioned;
    hide Step, StreamHealth.Bumped, StatusNotify.Written, StatusNotify.Allowed, StreamQueue.BuildStreamJobData;
  }

  lemma RecoveredKeepsMisses(slot: CameraHealth.CameraSlot, candidate: CameraHealth.Candidate, now: Time)
    ensures CameraHealth.Recovered(slot, candidate, now).misses == slot.misses
  {
    hide StreamHealth.Bumped, StatusNotify.Transitioned, StreamQueue.TickEnqueued, StreamQueue.BuildStreamJobData;
  }

  /** The tick after its reads: what is left is nothing or the recovery. */
  lemma TickAfterReads(s: State, misses: nat, candidate: CameraHealth.Candidate, srsAlive: bool, now: Time)
    ensures var s0 := Step(s, Timed(now, ReadTolerance));
      var read := Seen(s0, CameraHealth.Misses(misses, srsAlive));
      CameraHealth.TickCamera(Seen(s, misses), candidate, srsAlive, now)
      == match CameraHealth.Judge(Seen(s, misses), candidate.source, srsAlive, now)
         case Skipped => Seen(s, misses)
         case Tolerated => read
         case Healthy => read
         case _ => CameraHealth.Recovered(read, candidate, now)
  {
    hide CameraHealth.Judge, CameraHealth.Recovered, StreamHealth.ToleranceRead;
  }

  /** The operations that a tick performs on a camera. */
  predicate TickEvent(e: Event) {
    e.ReadTolerance? || e.BumpTolerance? || e.Terminate? || e.Transition? || e.RemoveJob? || e.AddJob?
  }

  lemma TickEventsOutside(s: State, misses: nat, candidate: CameraHealth.Candidate, srsAlive: bool, now: Time)
    ensures forall e | e in TickEvents(s, misses, candidate, srsAlive, now) :: TickEvent(e)
  {
    hide CameraHealth.Judge, CameraHealth.PushPassthrough, StreamQueue.IsRestart, StreamQueue.WornOut;
  }

  /**
   A turn of the tick on a camera is a run of outside events, so that everything proved about
   runs covers the tick, whether its effects come in one piece or with others in between.
   */
  lemma TickIsRun(s: State, misses: nat, candidate: CameraHealth.Candidate, srsAlive: bool, now: Time)
    ensures var events := TickEvents(s, misses, candidate, srsAlive, now);
      var slot := CameraHealth.TickCamera(Seen(s, misses), candidate, srsAlive, now);
      && (forall e | e in events :: Outside(e))
      && Seen(After(s, All(events, now)), slot.misses) == slot
  {
    TickEventsOutside(s, misses, candidate, srsAlive, now);
    var s0 := Step(s, Timed(now, ReadTolerance));
    assert s0.job == s.job;
    assert s0.camera.row == s.camera.row;
    var recovery := RecoveryEvents(s.camera, s.job, candidate);
    assert recovery == RecoveryEvents(s0.camera, s0.job, candidate);
    var missed := CameraHealth.Misses(misses, srsAlive);
    TickAfterReads(s, misses, candidate, srsAlive, now);
    AfterOne(s, ReadTolerance, now);
    AfterSplit(s, [ReadTolerance], recovery, now);
    RecoveryEventsRun(s0, candidate, now);
    RecoveryIsRun(s0, missed, candidate, now);
    RecoveredKeepsMisses(Seen(s0, missed), candidate, now);
    hide After, Step, All, RecoveryEvents, RecoveryRun, Outside;
    hide CameraHealth.TickCamera, CameraHealth.Judge, CameraHealth.Recovered;
  }

  // ---- Branches that never act ----

  /**
   Because a job id has one active job and only its run starts a process, three precautions never
   act: the spawn never finds a process running, the restart branch finds nothing to stop, and the
   fingerprint check finds nothing to stop either, so that the run goes on with the profile of the
   job even when the check has seen that the database has another one.
   */
  lemma PrecautionsNeverAct(s: State, events: seq<Timed>, now: Time)
    requires Initial(s)
    ensures var s' := After(s, events);
      && (s'.run.Prepared? ==> Step(s', Timed(now, Spawn)).process == Some(Process(s'.run.settings, false)))
      && (s'.run.Ready? ==> Signalled(s') == s')
      && (s'.run.Subscribed? ==> Step(s', Timed(now, CheckFingerprint)) == s'.(run := Ready(s'.run.settings, true)))
  {
    InitialInv(s);
    AfterInv(s, events);
    SpawnIsSpawned(After(s, events), now);
    CheckIsChecked(After(s, events), now);
    hide After, Step, Canonical, Initial, Up, StreamHealth.IsDegraded, StreamHealth.Bounded;
  }

  // ---- An offline camera with the breaker up ----

  /**
   A change from outside that is written. One that has read the row off line can only be to online
   or to connecting, which nothing outside asks for; one that had read it before can be any.
   */
  predicate Revives(e: Event) {
    e.Transition? && e.read.status != e.to && StatusNotify.Allowed(e.read.status, e.to)
  }

  /** Offline with the breaker up, and no change of the worker about to be written. */
  ghost predicate Trapped(s: State) {
    Inv(s) && Degraded(s) && s.camera.row.Some? && s.camera.row.value.status == Offline && s.seen.None?
  }

  /** What the worker does for a trapped camera: it gives up what it had, and may raise the breaker again. */
  lemma TrappedRun(s: State, t: Timed)
    requires Trapped(s) && !Outside(t.event)
    requires !t.event.FfStart? && !t.event.FfError? && !t.event.FfEnd? && !t.event.Verdict?
    ensures var s' := Step(s, t);
      s'.camera == s.camera && s'.process.None? && s'.log == s.log && s'.seen.None?
  {
    StepOfWorker(s, t);
    hide Step, Up, StreamHealth.IsDegraded, StreamHealth.Bounded, FingerprintDiffers, RestartStep, OutsideStep, Unfit;
  }

  lemma TrappedWorker(s: State, t: Timed)
    requires Trapped(s) && !Outside(t.event)
    ensures var s' := Step(s, t);
      && s'.camera.row == s.camera.row && s'.process.None? && (s'.log == s.log || s'.log == s.log + [Raised])
      && Degraded(s') && s'.seen.None?
  {
    BreakerFlag(s.camera.health, t.at, false);
    var e := t.event;
    if !e.FfStart? && !e.FfError? && !e.FfEnd? && !e.Verdict? {
      TrappedRun(s, t);
      hide WorkerStep, Inv;
    } else {
      StepOfWorker(s, t);
    }
    hide StreamHealth.IsDegraded, StreamHealth.Exited, StreamHealth.Marked, StreamHealth.Started, StreamHealth.Bounded;
    hide Step, Write, Up, RestartStep, OutsideStep;
  }

  lemma TrappedRestart(s: State, t: Timed)
    requires Trapped(s) && RestartEvent(t.event)
    ensures var s' := Step(s, t);
      s'.camera == s.camera && s'.process.None? && s'.log == s.log && s'.seen.None?
  {
    if t.event.restart in s.restarts {
      RestartFrame(s, t.event);
      RestartRun(s, t.event);
    }
    hide RestartStep, OutsideStep, WorkerStep, StreamHealth.IsDegraded, StreamHealth.Bounded, Up;
  }

  lemma TrappedOutside(s: State, t: Timed)
    requires Trapped(s) && Outside(t.event) && !RestartEvent(t.event) && !ProfileEvent(t.event) && !Revives(t.event)
    ensures var s' := Step(s, t);
      && s'.camera.row.Some? && s'.camera.row.value.status == Offline && s'.process.None? && s'.log == s.log
      && Degraded(s') && s'.seen.None?
  {
    hide StreamHealth.IsDegraded, StreamHealth.ToleranceRead, StreamHealth.Bumped, StreamHealth.Trimmed;
    hide Step, Write, StreamHealth.Bounded, Up, StreamQueue.Add, StreamQueue.Remove;
    assert s.process.None?;
    hide Inv;
    StepOfOutside(s, t);
    BreakerFlag(s.camera.health, t.at, false);
  }

  /** A write to offline clears the breaker, and any other one changes the status. */
  lemma WriteFrees(s: State, read: StatusNotify.Row, to: Status, now: Time)
    requires s.camera.row.Some?
    ensures var s' := Write(s, read, to, now);
      s'.camera.row.value.status == to && (to == Offline ==> !Degraded(s'))
  {
    hide StreamHealth.RecentTransitions;
  }

  /** A trapped camera stays so through a step if and only if it is not such a change. */
  lemma TrapKeptIff(s: State, t: Timed)
    requires Trapped(s)
    ensures Trapped(Step(s, t)) <==> !Revives(t.event)
    ensures t.event.Transition? && t.event.read.status == Offline ==>
      (Revives(t.event) <==> t.event.to == Online || t.event.to == Connecting)
    ensures Step(s, t).process.None?
    ensures !Revives(t.event) ==> Step(s, t).log == s.log || Step(s, t).log == s.log + [Raised]
  {
    StepInv(s, t);
    if Revives(t.event) {
      StepOfOutside(s, t);
      WriteFrees(s, t.event.read, t.event.to, t.at);
      assert s.process.None?;
      hide Step, Write, Inv, StreamHealth.IsDegraded;
    } else {
      if ProfileEvent(t.event) {
        ProfileFrame(s, t.event);
        hide ProfileStep;
      } else if RestartEvent(t.event) {
        TrappedRestart(s, t);
      } else if Outside(t.event) {
        TrappedOutside(s, t);
      } else {
        TrappedWorker(s, t);
      }
      hide Step, Inv, StreamHealth.IsDegraded;
    }
  }

  /**
   A camera that is offline while its breaker is up cannot be brought back by starts, stops,
   profile changes, ticks, maintenance or restarts of the media server: no process is ever spawned
   again unless something reports the camera online, or a change that had read the row before is
   written after.
   */
  lemma {:induction false} OfflineBreakerTraps(s: State, events: seq<Timed>)
    requires Trapped(s) && forall i | 0 <= i < |events| :: !Revives(events[i].event)
    ensures Trapped(After(s, events))
    ensures s.log <= After(s, events).log
    ensures forall j | |s.log| <= j < |After(s, events).log| :: After(s, events).log[j] == Raised
    decreases |events|
  {
    if events != [] {
      TrapKeptIff(s, events[0]);
      hide Trapped, Step;
      OfflineBreakerTraps(Step(s, events[0]), events[1..]);
    }
  }

  /** One event at time `now`. */
  function Do(s: State, e: Event, now: Time): State {
    Step(s, Timed(now, e))
  }

  /** A user's stop: signal, job, status. */
  function UserStop(s: State, now: Time): State
    requires s.camera.row.Some?
  {
    Do(Do(Do(s, Terminate, now), RemoveJob, now), Transition(s.camera.row.value, Offline), now)
  }

  /**
   How a camera gets there. A user's stop that lands between the preparation and the spawn stops
   nothing: the job is active and there is no process yet, so FFmpeg comes up on an offline camera.
   */
  lemma StopDuringPreparationIsLost(s: State, now: Time)
    requires Inv(s) && s.run.Prepared? && s.camera.row.Some?
    ensures var s' := Do(UserStop(s, now), Spawn, now);
      && s'.process == Some(Process(s.run.settings, false)) && s'.job == s.job && s'.run.Streaming?
      && s'.camera.row.Some? && s'.camera.row.value.status == Offline
  {
    StopState(s, now);
    SpawnIsSpawned(UserStop(s, now), now);
    hide UserStop, Step, StreamHealth.Changed, Up, StreamHealth.IsDegraded, StreamHealth.Bounded;
  }

  lemma StopState(s: State, now: Time)
    requires s.camera.row.Some?
    ensures var stopped := Signalled(s).(job := StreamQueue.Remove(s.job));
      UserStop(s, now) ==
        if s.camera.row.value.status == Offline then stopped else Write(stopped, s.camera.row.value, Offline, now)
  {
    var s1 := Do(s, Terminate, now);
    var s2 := Do(s1, RemoveJob, now);
    StepOfOutside(s, Timed(now, Terminate));
    StepOfOutside(s1, Timed(now, RemoveJob));
    StepOfOutside(s2, Timed(now, Transition(s.camera.row.value, Offline)));
    SignalledKeepsCamera(s);
    hide Step, Write, Signalled, StreamQueue.Remove;
  }

  /** If that process crashes as one too many, the offline camera has its breaker up. */
  lemma CrashAfterLostStopTraps(s: State, now: Time)
    requires Inv(s) && s.process.Some? && !s.process.value.marked
    requires s.camera.row.Some? && s.camera.row.value.status == Offline
    requires StreamHealth.InCrashLoop(StreamHealth.Exited(s.camera.health, now, false))
    ensures Trapped(Do(Do(Do(s, FfError, now), Verdict, now), Degrade, now))
  {
    var s1 := Do(s, FfError, now);
    ErrorStep(s, now);
    VerdictIsJudged(s1, now);
    var s2 := Do(s1, Verdict, now);
    BreakerFlag(s1.camera.health, now, false);
    StepInv(s, Timed(now, FfError));
    StepInv(s1, Timed(now, Verdict));
    StepInv(s2, Timed(now, Degrade));
    hide Step, StreamHealth.Exited, StreamHealth.InCrashLoop, StreamHealth.IsDegraded, StreamHealth.Marked;
    assert s.job.Some? && s.seen.None?;
    hide Inv;
    assert s2.run == Degrading && s2.job == s.job && s2.camera.row == s.camera.row && Degraded(s2);
    DegradeStep(s2, now);
    assert !StatusNotify.Changes(s2.camera, s.job.value.data.org, Status.Degraded);
  }

  lemma ErrorStep(s: State, now: Time)
    requires s.process.Some?
    ensures var marked := s.process.value.marked;
      Do(s, FfError, now) == Exited(s, now, marked, if marked then Resolved else Rejected)
  {
    StepOfWorker(s, Timed(now, FfError));
    hide Step, Exited;
  }

  lemma EndStep(s: State, now: Time)
    requires s.process.Some?
    ensures Do(s, FfEnd, now) == Exited(s, now, true, Resolved)
  {
    StepOfWorker(s, Timed(now, FfEnd));
    hide Step, Exited;
  }

  lemma DegradeStep(s: State, now: Time)
    requires s.run == Degrading && s.job.Some? && s.seen.None?
    ensures Do(s, Degrade, now) == Asked(s, s.job.value.data.org, s.(run := GivingUp))
  {
    StepOfWorker(s, Timed(now, Degrade));
    hide Step, Asked;
  }

  lemma RethrowStep(s: State, now: Time)
    requires s.run == GivingUp
    ensures Do(s, Rethrow, now) == JobThrew(s)
  {
    StepOfWorker(s, Timed(now, Rethrow));
    hide Step, JobThrew;
  }

  // ---- Undisturbed attempts ----

  /** The read and the write of the preparation. */
  function Preparation(s: State, now: Time): State {
    Do(Do(s, Prepare, now), WriteStatus, now)
  }

  /** One attempt, from the pick-up to the preparation. */
  function Attempt(s: State, now: Time): State {
    Preparation(Do(Do(Do(Do(s, Begin, now), Guard, now), Subscribe(true), now), CheckFingerprint, now), now)
  }

  /** A waiting job that is fit is admitted while the breaker is down. */
  lemma PicksUp(s: State, now: Time)
    requires Inv(s) && s.run == NoRun && !Degraded(s)
    requires s.job.Some? && s.job.value.state == StreamQueue.Waiting && !Unfit(s.job.value.data)
    ensures s.process.None?
    ensures Do(Do(s, Begin, now), Guard, now)
      == s.(job := Some(s.job.value.(state := StreamQueue.Active)), run := Admitted(s.job.value.data.settings))
  {
    hide StreamHealth.IsDegraded, StreamHealth.Bounded, Up, Unfit, OutsideStep, RestartStep;
  }

  lemma BeginStep(s: State, now: Time)
    ensures Do(s, Begin, now) ==
      if s.job.Some? && s.job.value.state == StreamQueue.Waiting && s.run == NoRun
      then s.(job := StreamQueue.Begun(s.job), run := Picked) else s
  {
    StepOfWorker(s, Timed(now, Begin));
    hide Step;
  }

  lemma BeginWaiting(s: State, now: Time)
    requires s.run == NoRun && s.job.Some? && s.job.value.state == StreamQueue.Waiting
    ensures Do(s, Begin, now) == s.(job := Some(s.job.value.(state := StreamQueue.Active)), run := Picked)
  {
    BeginStep(s, now);
    hide Do;
  }

  lemma SubscribeStep(s: State, now: Time)
    requires s.run.Admitted?
    ensures Do(s, Subscribe(true), now) == s.(run := Subscribed(s.run.settings))
  {
    hide OutsideStep, RestartStep;
  }

  lemma CheckStep(s: State, now: Time)
    requires s.run.Subscribed? && s.process.None?
    ensures Do(s, CheckFingerprint, now) == s.(run := Ready(s.run.settings, true))
  {
    hide OutsideStep, RestartStep, FingerprintDiffers;
  }

  predicate NoWayToReconnecting(status: Status) {
    status == Offline || status == Status.Degraded
  }

  lemma WriteStep(s: State, now: Time)
    ensures Do(s, WriteStatus, now) == StatusWritten(s, now)
  {
    StepOfWorker(s, Timed(now, WriteStatus));
    hide Step, StatusWritten;
  }

  /** A start is always allowed to go to connecting; a restart may not come from offline or degraded. */
  lemma PrepareStep(s: State, now: Time)
    requires s.run.Ready? && s.seen.None? && s.process.None? && s.job.Some?
    requires s.camera.row.Some? && s.camera.row.value.org == s.job.value.data.org
    ensures s.job.value.name == StreamQueue.StartJob ==>
      var s' := Preparation(s, now);
      && s' == Move(s, s.job.value.data.org, Connecting, now).(run := Prepared(s.run.settings, s.run.listening))
      && s'.camera.row.Some? && s'.camera.row.value.org == s.camera.row.value.org
    ensures s.job.value.name == StreamQueue.RestartJob && NoWayToReconnecting(s.camera.row.value.status) ==>
      Preparation(s, now) == JobThrew(s)
  {
    PrepareIsPrepared(s, now);
    WriteStep(Do(s, Prepare, now), now);
    assert JobThrew(s).seen == s.seen;
    hide Step, JobThrew, StreamHealth.Changed, StatusNotify.Scheduled;
    assert s.job.value.name == StreamQueue.RestartJob && NoWayToReconnecting(s.camera.row.value.status) ==>
      Do(s, Prepare, now) == JobThrew(s);
  }

  /**
   The read of a preparation refuses exactly a camera that has gone, and a restart of one that is
   offline or degraded; a start goes ahead from every status.
   */
  lemma PrepareRefusedIff(s: State, now: Time)
    requires Inv(s) && s.run.Ready? && s.seen.None? && s.job.Some?
    ensures Do(s, Prepare, now) == JobThrew(s)
      <==> s.camera.row.None? || s.camera.row.value.org != s.job.value.data.org
           || (s.job.value.name == StreamQueue.RestartJob && NoWayToReconnecting(s.camera.row.value.status))
    ensures Do(s, Prepare, now) == JobThrew(s) || Do(s, Prepare, now).run.Prepared? || Do(s, Prepare, now).seen.Some?
  {
    PrepareIsPrepared(s, now);
    assert s.process.None?;
    hide Step, Inv;
  }

  lemma SpawnStep(s: State, now: Time)
    requires s.run.Prepared? && s.process.None?
    ensures Do(s, Spawn, now) == s.(process := Some(Process(s.run.settings, false)), run := Streaming(s.run.listening),
                                    log := s.log + [Spawned(s.run.settings)])
  {
    hide OutsideStep, RestartStep;
  }

  /** An undisturbed start of a camera with its breaker down spawns with the settings of the job. */
  lemma StartSpawns(s: State, now: Time)
    requires Inv(s) && s.run == NoRun && !Degraded(s)
    requires s.job.Some? && s.job.value.state == StreamQueue.Waiting
    requires s.job.value.name == StreamQueue.StartJob && !Unfit(s.job.value.data)
    requires s.camera.row.Some? && s.camera.row.value.org == s.job.value.data.org
    ensures var settings := s.job.value.data.settings;
      var moved := Move(s, s.job.value.data.org, Connecting, now);
      Do(Attempt(s, now), Spawn, now)
      == moved.(job := Some(s.job.value.(state := StreamQueue.Active)), run := Streaming(true),
                process := Some(Process(settings, false)), log := moved.log + [Spawned(settings)])
  {
    PicksUp(s, now);
    var admitted := Do(Do(s, Begin, now), Guard, now);
    hide Do, Inv, Degraded, Unfit, StatusNotify.Transitioned, StatusNotify.Changes;
    SubscribeStep(admitted, now);
    var subscribed := Do(admitted, Subscribe(true), now);
    CheckStep(subscribed, now);
    var ready := Do(subscribed, CheckFingerprint, now);
    PrepareStep(ready, now);
    SpawnStep(Preparation(ready, now), now);
  }

  // ---- A restart job on a camera that may not go to reconnecting ----

  function Attempts(s: State, n: nat, now: Time): State
    decreases n
  {
    if n == 0 then s else Attempts(Attempt(s, now), n - 1, now)
  }

  ghost predicate DoomedRestart(s: State) {
    && Inv(s) && s.run == NoRun && !Degraded(s)
    && s.job.Some? && s.job.value.name == StreamQueue.RestartJob && !Unfit(s.job.value.data)
    && s.camera.row.Some? && s.camera.row.value.org == s.job.value.data.org
    && NoWayToReconnecting(s.camera.row.value.status)
  }

  lemma DoomedAttempt(s: State, now: Time)
    requires DoomedRestart(s) && s.job.value.state == StreamQueue.Waiting
    ensures var s' := Attempt(s, now);
      s' == s.(job := s'.job) && s'.job.Some? && DoomedRestart(s') &&
      var made := s.job.value.attemptsMade + 1;
      s'.job.value == s.job.value.(attemptsMade := made,
        state := if made < StreamQueue.MAX_STREAM_ATTEMPTS then StreamQueue.Waiting else StreamQueue.Failed)
  {
    PicksUp(s, now);
    var admitted := Do(Do(s, Begin, now), Guard, now);
    SubscribeStep(admitted, now);
    var subscribed := Do(admitted, Subscribe(true), now);
    CheckStep(subscribed, now);
    PrepareStep(Do(subscribed, CheckFingerprint, now), now);
    hide Do, Unfit, Degraded, Up;
  }

  /** One undisturbed attempt of a restart job spawns if and only if the camera is neither offline nor degraded. */
  lemma RestartSpawnsIff(s: State, now: Time)
    requires Inv(s) && s.run == NoRun && !Degraded(s)
    requires s.job.Some? && s.job.value.name == StreamQueue.RestartJob && !Unfit(s.job.value.data)
    requires s.job.value.state == StreamQueue.Waiting
    requires s.camera.row.Some? && s.camera.row.value.org == s.job.value.data.org
    ensures Do(Attempt(s, now), Spawn, now).process.Some? <==> !NoWayToReconnecting(s.camera.row.value.status)
  {
    PicksUp(s, now);
    var admitted := Do(Do(s, Begin, now), Guard, now);
    SubscribeStep(admitted, now);
    var subscribed := Do(admitted, Subscribe(true), now);
    CheckStep(subscribed, now);
    var ready := Do(subscribed, CheckFingerprint, now);
    assert ready.process.None? && ready.run.Ready? && ready.seen.None? by {
      hide Unfit, Do, Degraded, Up, StreamHealth.Bounded;
    }
    RestartPrepares(ready, now);
    SpawnIsSpawned(Preparation(ready, now), now);
    hide Step, Unfit, Degraded, Up, Inv, Preparation, Write;
  }

  lemma RestartPrepares(s: State, now: Time)
    requires s.run.Ready? && s.seen.None? && s.process.None? && s.job.Some?
    requires s.job.value.name == StreamQueue.RestartJob
    requires s.camera.row.Some? && s.camera.row.value.org == s.job.value.data.org
    ensures var s' := Preparation(s, now);
      s'.process.None? && (s'.run.Prepared? <==> !NoWayToReconnecting(s.camera.row.value.status))
  {
    PrepareIsPrepared(s, now);
    WriteStep(Do(s, Prepare, now), now);
    hide Step, StatusNotify.Written;
  }

  /**
   A restart job of an offline or degraded camera uses up all its attempts without spawning
   anything and is left as failed under the camera's id, where it blocks unattended recovery.
   */
  lemma {:induction false} RestartUsesUpItsAttempts(s: State, now: Time)
    requires DoomedRestart(s) && s.job.value.state == StreamQueue.Waiting
    requires s.job.value.attemptsMade < StreamQueue.MAX_STREAM_ATTEMPTS
    ensures var s' := Attempts(s, StreamQueue.MAX_STREAM_ATTEMPTS - s.job.value.attemptsMade, now);
      && s' == s.(job := s'.job)
      && s'.job == Some(s.job.value.(attemptsMade := StreamQueue.MAX_STREAM_ATTEMPTS, state := StreamQueue.Failed))
    decreases StreamQueue.MAX_STREAM_ATTEMPTS - s.job.value.attemptsMade
  {
    DoomedAttempt(s, now);
    hide Attempt, DoomedRestart;
    var s' := Attempt(s, now);
    if s'.job.value.state == StreamQueue.Waiting {
      RestartUsesUpItsAttempts(s', now);
    }
  }
}
