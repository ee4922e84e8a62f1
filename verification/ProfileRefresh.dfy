/**
 Which profile a camera streams with, while profiles are edited, deleted and made the default,
 cameras are given other ones, restarts are under way, and jobs are started, fail and are retried.

 The camera's present settings are those of its own profile, else those of its organisation's
 default, else the hardcoded ones. Saving a change and restarting the cameras it concerns are many
 operations. Between the save and the end of its restart a camera may be behind for a while. It stays
 behind once no restart is left that carries the present settings.
 */
module ProfileRefresh {
  import opened Common
  import opened StreamProfiles
  import opened StreamSupervision
  import CameraHealth
  import StatusNotify
  import StreamHealth
  import StreamQueue

  /** The settings that the running process has, or that the next spawn will have as things stand. */
  function Bound(s: State): Option<Settings> {
    match s.run
    case NoRun => if s.job.Some? && s.job.value.state == StreamQueue.Waiting then Some(s.job.value.data.settings)
      else None
    case Picked => if s.job.Some? then Some(s.job.value.data.settings) else None
    case Admitted(settings) => Some(settings)
    case Subscribed(settings) => Some(settings)
    case Ready(settings, _) => Some(settings)
    case Prepared(settings, _) => Some(settings)
    case Streaming(_) =>
      if s.process.Some? && !s.process.value.marked then Some(s.process.value.settings) else None
    case _ => None
  }

  /** Settings other than the camera's present ones run, or are about to. */
  predicate Behind(s: State) {
    Bound(s).Some? && Bound(s).value != Present(s.profiles)
  }

  /** The restart has yet to load the profile, or has loaded the one that is asked about. */
  predicate Carries(phase: Restart, settings: Settings) {
    phase.Saved? || phase.Chosen? || phase.settings == settings
  }

  /** A restart other than `except` is under way that carries the settings. */
  ghost predicate Coming(s: State, settings: Settings, except: Option<RestartId>) {
    exists r :: r in s.restarts && except != Some(r) && Carries(s.restarts[r], settings)
  }

  /** The camera is behind, and no restart is under way that could bring it up to date. */
  ghost predicate Stale(s: State) {
    Behind(s) && !Coming(s, Present(s.profiles), None)
  }

  /** The attempt fails and there is another one. */
  predicate Retries(s: State, e: Event) {
    && s.job.Some? && s.job.value.attemptsMade + 1 < StreamQueue.MAX_STREAM_ATTEMPTS
    && ((e.Rethrow? && s.run.GivingUp?)
        || (e.Prepare? && s.run.Ready? && s.seen.None?
            && StatusNotify.TransitionResult(s.camera, s.job.value.data.org, Target(s)).Err?))
  }

  /** The restart signal reaches a worker that can act on it. */
  predicate Reaches(s: State) {
    Listening(s.run) && !s.restarting
  }

  /** The last operation of restart `r`, after which only the others can bring the camera up to date. */
  ghost predicate LastHope(s: State, r: RestartId) {
    !Coming(s, Present(s.profiles), Some(r))
  }

  /** The ways in which a camera that was not stale becomes stale. */
  ghost predicate LosesProfile(s: State, e: Event) {
    var present := Present(s.profiles);
    // A job is added with settings that are not, or no longer, the camera's.
    || (e.AddJob? && s.job.None? && e.data.settings != present && !Coming(s, present, None))
    // The present settings change, and nothing is restarted for it.
    || (ChangesSilently(s, e)
        && Bound(s).Some? && Bound(s).value != Present(ProfilesAfter(s.profiles, e))
        && !Coming(s, Present(ProfilesAfter(s.profiles, e)), None))
    // A retry goes back to the settings of the job, which a restart signal does not change.
    || (Retries(s, e) && s.job.value.data.settings != present && !Coming(s, present, None))
    || (RestartEvent(e) && e.restart in s.restarts && RestartLoses(s, e))
  }

  function ProfilesAfter(p: Profiles, e: Event): Profiles {
    match e
    case EditProfile(_, id, _, settings) => p.(rows := p.rows[id := settings])
    case Reassign(_, own, _) => p.(own := own)
    case DeleteProfile(id) => WithoutProfile(p, id)
    case ChangeDefault(default) => p.(default := default)
    case _ => p
  }

  /** The changes of profiles that restart nothing. */
  predicate ChangesSilently(s: State, e: Event) {
    // An edit that had read settings with the same fingerprint.
    || (e.EditProfile? && e.restart !in s.restarts && e.id in s.profiles.rows
        && FingerprintProfile(Some(e.before)) == FingerprintProfile(Some(e.settings)))
    // A camera that had been read on the same profile, or with the same fingerprint, or offline, or in maintenance.
    || (e.Reassign? && e.restart !in s.restarts && s.camera.row.Some?
        && (e.own.Some? ==> e.own.value in s.profiles.rows) && !RestartsOn(s.profiles, e.own, e.found))
    || e.DeleteProfile? || e.ChangeDefault?
  }

  /** The ways in which a restart fails. */
  ghost predicate RestartLoses(s: State, e: Event)
    requires RestartEvent(e) && e.restart in s.restarts
  {
    var present := Present(s.profiles);
    var phase := s.restarts[e.restart];
    LastHope(s, e.restart) &&
    (// The camera is offline or in maintenance when its restart is due, or not on the profile that was
     // edited, although that one, as the default, has its present settings.
     || (e.ChooseCamera? && phase.Saved? && Behind(s) && !Concerns(s, phase.scope))
     // What is loaded is not the present settings: the camera has been reassigned since, the profile has
     // gone, or the camera has none, and the hardcoded settings are loaded although there is a default.
     || (e.LoadProfile? && phase.Chosen? && Behind(s) && Loads(s.profiles, phase.scope) != present)
     // The job was found active, but the worker is not listening, is restarting, or has finished.
     || (e.SignalRun? && phase.Signalling? && Behind(s) && !Reaches(s))
     // The worker takes an outdated profile from a signal that another restart has overtaken.
     || (e.SignalRun? && phase.Signalling? && Reaches(s) && !s.run.Streaming? && phase.settings != present)
     // The job was found absent or idle, but at the add there is one: a new one, or the old one, active by now.
     || (e.AddRestart? && phase.Adding? && Behind(s) && s.job.Some?)
     // An outdated restart job is added after another restart has overtaken it.
     || (e.AddRestart? && phase.Adding? && s.job.None? && phase.settings != present))
  }

  // ---- Exactly when a camera becomes stale ----

  lemma SameHope(s: State, s': State)
    requires s'.restarts == s.restarts && s'.profiles == s.profiles
    ensures forall settings, except :: Coming(s', settings, except) == Coming(s, settings, except)
  {}

  /** The step leaves the settings bound, or binds none any more, and touches no restart. */
  predicate KeepsBound(s: State, s': State) {
    s'.profiles == s.profiles && s'.restarts == s.restarts && (Bound(s') == Bound(s) || Bound(s').None?)
  }

  lemma BoundKept(s: State, t: Timed)
    requires Inv(s) && !Stale(s) && (t.event.Verdict? || t.event.Degrade? || t.event.Finish? || t.event.Refuse?)
    ensures !Stale(Step(s, t))
  {
    hide Stale, KeepsBound, Inv, Step;
    EndKeepsBound(s, t);
    KeptIsNotStale(s, Step(s, t));
  }

  lemma EndKeepsBound(s: State, t: Timed)
    requires Inv(s) && (t.event.Verdict? || t.event.Degrade? || t.event.Finish? || t.event.Refuse?)
    ensures KeepsBound(s, Step(s, t))
  {
    StepOfWorker(s, t);
    hide Step, StatusNotify.Changes, Up, StreamHealth.IsDegraded, StreamHealth.Bounded;
    hide StreamHealth.InCrashLoop, StreamHealth.Marked;
  }

  lemma BoundOnExit(s: State, t: Timed)
    requires Inv(s) && !Stale(s) && (t.event.FfStart? || t.event.FfError? || t.event.FfEnd?)
    ensures !Stale(Step(s, t))
  {
    hide Stale, KeepsBound, Inv, Step;
    ExitKeepsBound(s, t);
    KeptIsNotStale(s, Step(s, t));
  }

  lemma ExitKeepsBound(s: State, t: Timed)
    requires Inv(s) && (t.event.FfStart? || t.event.FfError? || t.event.FfEnd?)
    ensures KeepsBound(s, Step(s, t))
  {
    hide Inv, KeepsBound, Exited;
    if s.process.None? {
      assert Step(s, t) == s by {
        StepOfWorker(s, t);
        hide Step;
      }
    } else if t.event.FfStart? {
      assert Step(s, t) == s.(camera := s.camera.(health := StreamHealth.Started(s.camera.health, t.at))) by {
        StepOfWorker(s, t);
        hide Step, StreamHealth.Started;
      }
    } else if t.event.FfError? {
      assert t == Timed(t.at, FfError);
      ErrorStep(s, t.at);
      ExitedBound(s, t.at, s.process.value.marked, if s.process.value.marked then Resolved else Rejected);
    } else {
      assert t == Timed(t.at, FfEnd);
      EndStep(s, t.at);
      ExitedBound(s, t.at, true, Resolved);
    }
    hide Step;
    SameBound(s, Step(s, t));
  }

  lemma ExitedBound(s: State, now: Time, intentional: bool, next: Run)
    requires next == Resolved || next == Rejected
    ensures KeepsBound(s, Exited(s, now, intentional, next))
  {
    hide StreamHealth.Exited;
  }

  lemma SameBound(s: State, s': State)
    ensures s' == s.(camera := s'.camera) ==> KeepsBound(s, s')
  {}

  lemma KeptIsNotStale(s: State, s': State)
    requires !Stale(s) && KeepsBound(s, s')
    ensures !Stale(s')
  {
    SameHope(s, s');
    hide Bound, Coming, Present;
  }

  lemma BoundKeptOutside(s: State, t: Timed)
    requires Inv(s) && !Stale(s)
    requires t.event.Transition? || t.event.SetMaintenance? || t.event.ForceOffline? || t.event.Terminate?
      || t.event.ReadTolerance? || t.event.BumpTolerance? || t.event.Snapshot? || t.event.RemoveJob?
      || t.event.EndPolling?
    ensures !Stale(Step(s, t))
  {
    hide StreamHealth.Trimmed, StreamHealth.ToleranceRead, StreamHealth.Bumped, StatusNotify.Written;
    hide Up, StreamHealth.IsDegraded, StreamHealth.Bounded;
    StepOfOutside(s, t);
    hide Step;
    SameHope(s, Step(s, t));
    hide Coming;
  }

  lemma BoundPassedOn(s: State, t: Timed)
    requires Inv(s) && !Stale(s)
    requires t.event.Begin? || t.event.Guard? || t.event.Subscribe?
    ensures !Stale(Step(s, t))
  {
    StepOfWorker(s, t);
    hide Step, Up, StreamHealth.IsDegraded, StreamHealth.Bounded, Unfit;
    SameHope(s, Step(s, t));
    hide Coming;
  }

  lemma BoundHandedOver(s: State, t: Timed)
    requires Inv(s) && !Stale(s)
    requires t.event.CheckFingerprint? || t.event.Spawn? || t.event.WriteStatus?
    ensures !Stale(Step(s, t))
  {
    StepOfWorker(s, t);
    if t.event.CheckFingerprint? {
      CheckedBound(s);
    } else if t.event.Spawn? {
      SpawnedBound(s);
    } else {
      WrittenBound(s, t.at);
    }
    hide Step, Inv, Bound, Checked, SpawnedFor, StatusWritten;
    SameHope(s, Step(s, t));
    hide Coming;
  }

  lemma CheckedBound(s: State)
    requires Inv(s)
    ensures KeepsBound(s, Checked(s))
  {
    hide FingerprintDiffers, Up, StreamHealth.IsDegraded, StreamHealth.Bounded;
  }

  lemma SpawnedBound(s: State)
    requires Inv(s)
    ensures KeepsBound(s, SpawnedFor(s))
  {
    hide Up, StreamHealth.IsDegraded, StreamHealth.Bounded;
  }

  lemma WrittenBound(s: State, now: Time)
    requires Inv(s)
    ensures KeepsBound(s, StatusWritten(s, now))
  {
    hide StatusNotify.Written, Up, StreamHealth.IsDegraded, StreamHealth.Bounded;
  }

  lemma BoundOnRetry(s: State, t: Timed)
    requires Inv(s) && !Stale(s) && (t.event.Rethrow? || t.event.Prepare?)
    ensures Stale(Step(s, t)) <==> LosesProfile(s, t.event)
  {
    hide StatusNotify.Transitioned, StatusNotify.TransitionResult, StatusNotify.Changes, Up, StreamHealth.IsDegraded;
    hide StreamHealth.Bounded, RestartStep, OutsideStep;
    SameHope(s, Step(s, t));
    hide Coming;
  }

  lemma BoundOnAdd(s: State, t: Timed)
    requires Inv(s) && !Stale(s) && t.event.AddJob?
    ensures Stale(Step(s, t)) <==> LosesProfile(s, t.event)
  {
    hide Up, StreamHealth.IsDegraded, StreamHealth.Bounded, RestartStep, WorkerStep;
    SameHope(s, Step(s, t));
    hide Coming;
  }

  /** The step changes what the present settings are. */
  lemma BoundOnChange(s: State, t: Timed)
    requires !Stale(s) && ProfileEvent(t.event)
    ensures Stale(Step(s, t)) <==> LosesProfile(s, t.event)
  {
    var e, s' := t.event, Step(s, t);
    ProfileOutcome(s, e);
    assert s' == ProfileStep(s, e) by {
      hide RestartStep, OutsideStep, WorkerStep, ProfileStep;
    }
    hide ProfileStep, Step, FingerprintProfile, RestartsOn, Present, ProfilesAfter, Bound;
    if s'.restarts == s.restarts {
      SameComing(s, s', Present(s'.profiles));
    } else {
      var r :| r in s'.restarts && s'.restarts[r].Saved?;
      assert Carries(s'.restarts[r], Present(s'.profiles));
    }
  }

  lemma SameComing(s: State, s': State, settings: Settings)
    requires s'.restarts == s.restarts
    ensures Coming(s', settings, None) == Coming(s, settings, None)
  {}

  lemma ProfileOutcome(s: State, e: Event)
    requires ProfileEvent(e)
    ensures var s' := ProfileStep(s, e);
      && Bound(s') == Bound(s)
      && (ChangesSilently(s, e) ==> s'.restarts == s.restarts && s'.profiles == ProfilesAfter(s.profiles, e))
      && (!ChangesSilently(s, e) ==>
            (s'.restarts == s.restarts && Present(s'.profiles) == Present(s.profiles))
            || exists r :: r in s'.restarts && s'.restarts[r].Saved?)
  {
    hide FingerprintProfile, RestartsOn;
    if e.EditProfile? || e.Reassign? {
      var s' := ProfileStep(s, e);
      assert s'.restarts != s.restarts ==> e.restart in s'.restarts && s'.restarts[e.restart].Saved?;
    }
  }

  /** The hope that is left when restart `r` has moved on, or has gone. */
  lemma HopeAfter(s: State, s': State, r: RestartId)
    requires r in s.restarts && s'.profiles == s.profiles
    requires s'.restarts == s.restarts - {r} || (r in s'.restarts && s'.restarts == s.restarts[r := s'.restarts[r]])
    ensures var present := Present(s.profiles);
      && (Coming(s, present, None) <==> !LastHope(s, r) || Carries(s.restarts[r], present))
      && (Coming(s', present, None) <==> !LastHope(s, r) || (r in s'.restarts && Carries(s'.restarts[r], present)))
  {
    var present := Present(s.profiles);
    if q :| q in s.restarts && q != r && Carries(s.restarts[q], present) {
      assert q in s'.restarts && s'.restarts[q] == s.restarts[q];
    }
    if q :| q in s'.restarts && q != r && Carries(s'.restarts[q], present) {
      assert q in s.restarts && s'.restarts[q] == s.restarts[q];
    }
  }

  /** What a restart's operation does, phase by phase. */
  lemma RestartPhases(s: State, e: Event)
    requires RestartEvent(e) && e.restart in s.restarts
    ensures var r := e.restart;
      var s' := RestartStep(s, e);
      && s'.profiles == s.profiles
      && (s'.restarts == s.restarts - {r} || (r in s'.restarts && s'.restarts == s.restarts[r := s'.restarts[r]]))
      && (!e.SignalRun? && !e.RemoveOld? && !e.AddRestart? ==> Bound(s') == Bound(s))
      && (r in s'.restarts && !e.LoadProfile? ==> forall x :: Carries(s'.restarts[r], x) == Carries(s.restarts[r], x))
  {
    hide StreamQueue.BuildStreamJobData, Selected, Heard, StreamQueue.Add, StreamQueue.Remove;
    var phase := s.restarts[e.restart];
    if e.SignalRun? && phase.Signalling? {
      HeardKeeps(s.(restarts := s.restarts - {e.restart}), phase.settings);
      hide Bound, Carries;
    }
  }

  lemma HeardKeeps(s: State, settings: Settings)
    ensures var s' := Heard(s, settings); s'.profiles == s.profiles && s'.restarts == s.restarts
  {}

  lemma BoundOnEarlyPhase(s: State, t: Timed)
    requires !Stale(s) && RestartEvent(t.event) && t.event.restart in s.restarts
    requires !t.event.SignalRun? && !t.event.RemoveOld? && !t.event.AddRestart?
    ensures Stale(Step(s, t)) <==> RestartLoses(s, t.event)
  {
    var r, s' := t.event.restart, Step(s, t);
    RestartPhases(s, t.event);
    HopeAfter(s, s', r);
    hide Coming, LastHope, Bound, Concerns;
  }

  lemma BoundOnSignal(s: State, t: Timed)
    requires Inv(s) && !Stale(s) && t.event.SignalRun? && t.event.restart in s.restarts
    ensures Stale(Step(s, t)) <==> RestartLoses(s, t.event)
  {
    var r, s' := t.event.restart, Step(s, t);
    RestartPhases(s, t.event);
    HopeAfter(s, s', r);
    hide Coming, LastHope, StreamHealth.IsDegraded, StreamHealth.Bounded, Up;
  }

  lemma BoundOnReplace(s: State, t: Timed)
    requires Inv(s) && !Stale(s) && (t.event.RemoveOld? || t.event.AddRestart?) && t.event.restart in s.restarts
    ensures Stale(Step(s, t)) <==> RestartLoses(s, t.event)
  {
    var r, s' := t.event.restart, Step(s, t);
    RestartPhases(s, t.event);
    HopeAfter(s, s', r);
    hide Coming, LastHope, StreamHealth.IsDegraded, StreamHealth.Bounded, Up, StreamQueue.InputUrl;
  }

  /** Exactly when a step leaves a camera behind its profile with nothing under way to help it. */
  lemma FallsBehindIff(s: State, t: Timed)
    requires Inv(s) && !Stale(s)
    ensures Stale(Step(s, t)) <==> LosesProfile(s, t.event)
  {
    hide Stale, Behind, Inv, Step, Bound, Selected, Listening, Coming, RestartLoses;
    match t.event
    case AddJob(_, _) => BoundOnAdd(s, t);
    case Rethrow => BoundOnRetry(s, t);
    case Prepare => BoundOnRetry(s, t);
    case Begin => BoundPassedOn(s, t);
    case Guard => BoundPassedOn(s, t);
    case Subscribe(_) => BoundPassedOn(s, t);
    case CheckFingerprint => BoundHandedOver(s, t);
    case Spawn => BoundHandedOver(s, t);
    case WriteStatus => BoundHandedOver(s, t);
    case _ =>
      if RestartEvent(t.event) {
        RestartFallsBehind(s, t);
      } else if ProfileEvent(t.event) {
        BoundOnChange(s, t);
      } else if Outside(t.event) {
        BoundKeptOutside(s, t);
      } else if t.event.FfStart? || t.event.FfError? || t.event.FfEnd? {
        BoundOnExit(s, t);
      } else {
        BoundKept(s, t);
      }
  }

  lemma RestartFallsBehind(s: State, t: Timed)
    requires Inv(s) && !Stale(s) && RestartEvent(t.event)
    ensures Stale(Step(s, t)) <==> LosesProfile(s, t.event)
  {
    if t.event.restart in s.restarts {
      if t.event.SignalRun? {
        BoundOnSignal(s, t);
      } else if t.event.RemoveOld? || t.event.AddRestart? {
        BoundOnReplace(s, t);
      } else {
        BoundOnEarlyPhase(s, t);
      }
    }
    hide Stale, Inv, RestartLoses, RestartStep;
  }

  /**
   In every run without such a step, a camera that is behind its profile has a restart under way
   that carries it; once no restart is under way, the process that runs unmarked, and the one the
   next spawn will start, has the profile that the database holds for the camera.
   */
  lemma {:induction false} UpToDate(s: State, events: seq<Timed>)
    requires Inv(s) && !Stale(s)
    requires forall n | 0 <= n < |events| :: !LosesProfile(After(s, events[..n]), events[n].event)
    ensures !Stale(After(s, events))
    ensures After(s, events).restarts == map[] ==> !Behind(After(s, events))
    decreases |events|
  {
    if events != [] {
      var s', rest := Step(s, events[0]), events[1..];
      assert events[..0] == [];
      FallsBehindIff(s, events[0]);
      StepInv(s, events[0]);
      forall n | 0 <= n < |rest| ensures !LosesProfile(After(s', rest[..n]), rest[n].event) {
        assert events[..n + 1][0] == events[0] && events[..n + 1][1..] == rest[..n];
        assert events[n + 1] == rest[n];
      }
      hide Stale, Behind, Inv, Step, LosesProfile;
      UpToDate(s', rest);
    }
  }

  /** A gap that a restart can close, it closes with its signal or its removal exactly if that takes effect. */
  lemma RestartClosesGapIff(s: State, r: RestartId, now: Time)
    requires Inv(s) && Behind(s) && r in s.restarts && Carries(s.restarts[r], Present(s.profiles))
    ensures s.restarts[r].Signalling? ==> (!Behind(Do(s, SignalRun(r), now)) <==> Reaches(s))
    ensures s.restarts[r].Removing? ==> (!Behind(Do(s, RemoveOld(r), now)) <==> s.run == NoRun)
  {
    hide Inv, Behind, Do, Present, Reaches;
    if s.restarts[r].Signalling? {
      SignalClosesGapIff(s, r, now);
    }
    if s.restarts[r].Removing? {
      RemovalClosesGapIff(s, r, now);
    }
  }

  lemma SignalClosesGapIff(s: State, r: RestartId, now: Time)
    requires Inv(s) && Behind(s) && r in s.restarts && s.restarts[r].Signalling?
    requires Carries(s.restarts[r], Present(s.profiles))
    ensures !Behind(Do(s, SignalRun(r), now)) <==> Reaches(s)
  {
    RestartDo(s, SignalRun(r), now);
    hide Do, Present, StreamHealth.IsDegraded, StreamHealth.Bounded, Up;
  }

  lemma RemovalClosesGapIff(s: State, r: RestartId, now: Time)
    requires Inv(s) && Behind(s) && r in s.restarts && s.restarts[r].Removing?
    ensures !Behind(Do(s, RemoveOld(r), now)) <==> s.run == NoRun
  {
    RestartDo(s, RemoveOld(r), now);
    hide Do, Present, StreamHealth.IsDegraded, StreamHealth.Bounded, Up;
  }

  // ---- Some of the ways, reached ----

  /** A restart for an edit, from its save to its look at the job, undisturbed. */
  function Looked(s: State, r: RestartId, id: ProfileId, settings: Settings, source: StreamQueue.Source,
    now: Time): State
    requires id in s.profiles.rows
  {
    var saved := Do(s, EditProfile(r, id, s.profiles.rows[id], settings), now);
    Do(Do(Do(Do(saved, ChooseCamera(r, source), now), LoadProfile(r), now), FindJob(r), now), CheckActive(r), now)
  }

  lemma RestartDo(s: State, e: Event, now: Time)
    requires RestartEvent(e) && e.restart in s.restarts
    ensures Do(s, e, now) == RestartStep(s, e)
  {
    hide RestartStep, OutsideStep, WorkerStep, ProfileStep;
  }

  lemma ProfileDo(s: State, e: Event, now: Time)
    requires ProfileEvent(e)
    ensures Do(s, e, now) == ProfileStep(s, e)
  {
    hide RestartStep, OutsideStep, WorkerStep, ProfileStep;
  }

  /** The profiles after an edit. */
  function WithRow(s: State, id: ProfileId, settings: Settings): State {
    s.(profiles := s.profiles.(rows := s.profiles.rows[id := settings]))
  }

  /** A state with one restart under way. */
  function With(s: State, r: RestartId, phase: Restart): State {
    s.(restarts := map[r := phase])
  }

  lemma MapAlone(r: RestartId, x: Restart)
    ensures forall y: Restart :: map[r := x][r := y] == map[r := y]
    ensures map[r := x] - {r} == map[]
  {}

  lemma ChooseAlone(s: State, r: RestartId, scope: Scope, source: StreamQueue.Source, now: Time)
    requires Concerns(s, scope)
    ensures Do(With(s, r, Saved(scope)), ChooseCamera(r, source), now) == With(s, r, Chosen(scope, source))
  {
    RestartDo(With(s, r, Saved(scope)), ChooseCamera(r, source), now);
    hide Do, Selected, Heard, StreamQueue.BuildStreamJobData;
    MapAlone(r, Saved(scope));
  }

  lemma LoadAlone(s: State, r: RestartId, scope: Scope, source: StreamQueue.Source, now: Time)
    ensures Do(With(s, r, Chosen(scope, source)), LoadProfile(r), now)
      == With(s, r, Loaded(source, Loads(s.profiles, scope)))
  {
    RestartDo(With(s, r, Chosen(scope, source)), LoadProfile(r), now);
    hide Do, Selected, Heard, StreamQueue.BuildStreamJobData, Loads;
    MapAlone(r, Chosen(scope, source));
  }

  lemma FindAlone(s: State, r: RestartId, source: StreamQueue.Source, settings: Settings, now: Time)
    requires s.job.Some?
    ensures Do(With(s, r, Loaded(source, settings)), FindJob(r), now) == With(s, r, Found(source, settings))
  {
    RestartDo(With(s, r, Loaded(source, settings)), FindJob(r), now);
    hide Do, Selected, Heard, StreamQueue.BuildStreamJobData;
    MapAlone(r, Loaded(source, settings));
  }

  lemma CheckAlone(s: State, r: RestartId, source: StreamQueue.Source, settings: Settings, now: Time)
    requires !StreamQueue.IsActive(s.job)
    ensures Do(With(s, r, Found(source, settings)), CheckActive(r), now) == With(s, r, Removing(source, settings))
  {
    RestartDo(With(s, r, Found(source, settings)), CheckActive(r), now);
    hide Do, Selected, Heard, StreamQueue.BuildStreamJobData;
    MapAlone(r, Found(source, settings));
  }

  lemma RemoveAlone(s: State, r: RestartId, source: StreamQueue.Source, settings: Settings, now: Time)
    requires StreamQueue.IsActive(s.job)
    ensures Do(With(s, r, Removing(source, settings)), RemoveOld(r), now) == With(s, r, Adding(source, settings))
  {
    RestartDo(With(s, r, Removing(source, settings)), RemoveOld(r), now);
    hide Do, Selected, Heard, StreamQueue.BuildStreamJobData;
    MapAlone(r, Removing(source, settings));
  }

  lemma AddAlone(s: State, r: RestartId, source: StreamQueue.Source, settings: Settings, now: Time)
    requires s.job.Some?
    ensures Do(With(s, r, Adding(source, settings)), AddRestart(r), now) == s.(restarts := map[])
  {
    RestartDo(With(s, r, Adding(source, settings)), AddRestart(r), now);
    hide Do, Selected, Heard, StreamQueue.BuildStreamJobData;
    MapAlone(r, Adding(source, settings));
  }

  /** The camera is on the profile `id`, and an edit of it to these settings makes a restart. */
  predicate EditRestarts(s: State, id: ProfileId, settings: Settings) {
    id in s.profiles.rows && s.profiles.own == Some(id) && Selected(s) && s.restarts == map[]
    && FingerprintProfile(Some(s.profiles.rows[id])) != FingerprintProfile(Some(settings))
  }

  lemma LooksAtIdleJob(s: State, r: RestartId, id: ProfileId, settings: Settings, source: StreamQueue.Source, now: Time)
    requires EditRestarts(s, id, settings) && s.job.Some? && !StreamQueue.IsActive(s.job)
    ensures Looked(s, r, id, settings, source, now) == With(WithRow(s, id, settings), r, Removing(source, settings))
  {
    var saved, scope := WithRow(s, id, settings), OnProfile(id);
    ProfileDo(s, EditProfile(r, id, s.profiles.rows[id], settings), now);
    assert Do(s, EditProfile(r, id, s.profiles.rows[id], settings), now) == With(saved, r, Saved(scope));
    assert Concerns(saved, scope) && Loads(saved.profiles, scope) == settings;
    ChooseAlone(saved, r, scope, source, now);
    LoadAlone(saved, r, scope, source, now);
    FindAlone(saved, r, source, settings, now);
    CheckAlone(saved, r, source, settings, now);
    hide Do, With, WithRow, FingerprintProfile, Loads, Concerns;
  }

  /** The removal fails and the add is dropped: it is as if there had been no restart. */
  lemma RestartIsLost(s: State, r: RestartId, id: ProfileId, settings: Settings, source: StreamQueue.Source, now: Time)
    requires EditRestarts(s, id, settings)
    requires s.run == NoRun && s.job.Some? && s.job.value.state == StreamQueue.Waiting
    ensures Do(Do(Do(Looked(s, r, id, settings, source, now), Begin, now), RemoveOld(r), now), AddRestart(r), now)
      == Do(WithRow(s, id, settings), Begin, now)
  {
    hide Looked, FingerprintProfile, OutsideStep, RestartStep, WithRow, Selected;
    LooksAtIdleJob(s, r, id, settings, source, now);
    var waiting := WithRow(s, id, settings);
    assert waiting == s.(profiles := waiting.profiles) by { SameButProfiles(s, id, settings); }
    BeginWaiting(With(waiting, r, Removing(source, settings)), now);
    BeginWaiting(waiting, now);
    var begun := Do(waiting, Begin, now);
    assert Do(With(waiting, r, Removing(source, settings)), Begin, now) == With(begun, r, Removing(source, settings));
    RemoveAlone(begun, r, source, settings, now);
    AddAlone(begun, r, source, settings, now);
    hide Do, Looked, With;
  }

  lemma SameButProfiles(s: State, id: ProfileId, settings: Settings)
    ensures WithRow(s, id, settings) == s.(profiles := WithRow(s, id, settings).profiles)
    ensures s.profiles.own == Some(id) ==> Present(WithRow(s, id, settings).profiles) == settings
  {}

  lemma StaleWithoutRestarts(s: State, settings: Settings)
    requires s.restarts == map[] && settings != Present(s.profiles)
    ensures s.run == Picked && s.job.Some? && s.job.value.data.settings == settings ==> Stale(s)
    ensures s.run.Streaming? && s.process == Some(Process(settings, false)) ==> Stale(s)
  {}

  /**
   The restart lost to the worker: it finds the waiting job idle, the worker picks the job up, the
   removal fails, and the add finds the id taken. Nothing is signalled; the worker spawns with the
   old profile.
   */
  lemma RestartLostToWorker(s: State, r: RestartId, id: ProfileId, settings: Settings, source: StreamQueue.Source,
                            now: Time)
    requires Inv(s) && EditRestarts(s, id, settings) && !StreamSupervision.Degraded(s)
    requires s.run == NoRun && s.job.Some? && s.job.value.state == StreamQueue.Waiting
    requires s.job.value.name == StreamQueue.StartJob && !Unfit(s.job.value.data)
    requires s.camera.row.value.org == s.job.value.data.org && s.job.value.data.settings != settings
    ensures var begun := Do(Looked(s, r, id, settings, source, now), Begin, now);
      var lost := Do(Do(begun, RemoveOld(r), now), AddRestart(r), now);
      var subscribed := Do(Do(lost, Guard, now), Subscribe(true), now);
      var s' := Do(Preparation(Do(subscribed, CheckFingerprint, now), now), Spawn, now);
      && Stale(lost) && lost.restarts == map[]
      && s'.process == Some(Process(s.job.value.data.settings, false)) && Stale(s')
  {
    RestartIsLost(s, r, id, settings, source, now);
    SameButProfiles(s, id, settings);
    var waiting := WithRow(s, id, settings);
    assert Inv(waiting) by {
      hide StreamHealth.IsDegraded, StreamHealth.Bounded, Up;
    }
    StartSpawns(waiting, now);
    BeginWaiting(waiting, now);
    var moved := Move(waiting, s.job.value.data.org, Connecting, now);
    assert moved.profiles == waiting.profiles && moved.restarts == map[];
    hide Looked, FingerprintProfile, Inv, Unfit, Selected, StreamSupervision.Degraded, Present, Stale, Move, WithRow;
    var begun := Do(waiting, Begin, now);
    var spawned := Do(Attempt(waiting, now), Spawn, now);
    StaleWithoutRestarts(begun, s.job.value.data.settings);
    StaleWithoutRestarts(spawned, s.job.value.data.settings);
    hide Do;
  }

  /**
   The default's edit: a camera without a profile streams with its organisation's default, the edit
   restarts the cameras on that profile, and this one is not on it.
   */
  lemma DefaultEditMissesCamera(s: State, r: RestartId, id: ProfileId, settings: Settings, source: StreamQueue.Source,
                                now: Time)
    requires s.profiles.own.None? && s.profiles.default == Some(id) && id in s.profiles.rows && s.restarts == map[]
    requires s.run.Streaming? && s.process == Some(Process(Present(s.profiles), false))
    requires FingerprintProfile(Some(s.profiles.rows[id])) != FingerprintProfile(Some(settings))
    ensures var s' := Do(Do(s, EditProfile(r, id, s.profiles.rows[id], settings), now), ChooseCamera(r, source), now);
      !Behind(s) && s'.restarts == map[] && Stale(s')
  {
    ProfileDo(s, EditProfile(r, id, s.profiles.rows[id], settings), now);
    var saved := Do(s, EditProfile(r, id, s.profiles.rows[id], settings), now);
    assert saved == With(WithRow(s, id, settings), r, Saved(OnProfile(id)));
    RestartDo(saved, ChooseCamera(r, source), now);
    MapAlone(r, Saved(OnProfile(id)));
    hide Do, FingerprintProfile;
    var missed := WithRow(s, id, settings);
    assert Present(missed.profiles) == settings && Present(s.profiles) == s.profiles.rows[id];
    StaleWithoutRestarts(missed, Present(s.profiles));
  }

  /**
   A reassignment that read the camera offline: by the time it writes, the worker has written
   connecting, and nothing is restarted.
   */
  lemma ReassignmentMissesRun(s: State, r: RestartId, own: ProfileId, now: Time)
    requires Inv(s) && s.run.Ready? && s.seen.Some? && s.restarts == map[]
    requires s.camera.row.Some? && s.camera.row.value.status == Offline
    requires own in s.profiles.rows && s.run.settings != s.profiles.rows[own]
    ensures var found := CameraRead(s.profiles.own, RowOf(s.profiles, s.profiles.own), s.camera.row.value);
      var s' := Do(Do(s, WriteStatus, now), Reassign(r, Some(own), found), now);
      s'.run.Prepared? && s'.restarts == map[] && Stale(s') && Selected(s') == !s.camera.row.value.maintenance
  {
    var found := CameraRead(s.profiles.own, RowOf(s.profiles, s.profiles.own), s.camera.row.value);
    WriteStep(s, now);
    var written := Do(s, WriteStatus, now);
    ProfileDo(written, Reassign(r, Some(own), found), now);
    hide Do, Inv, StatusNotify.Scheduled, StreamHealth.Changed, FingerprintProfile;
  }

  /** Deleting a profile detaches the camera, and nothing is restarted for what it has then. */
  lemma DeletionLeavesBehind(s: State, id: ProfileId, now: Time)
    requires s.profiles.own == Some(id) && s.restarts == map[]
    requires s.run.Streaming? && s.process.Some? && !s.process.value.marked
    requires s.process.value.settings != Present(WithoutProfile(s.profiles, id))
    ensures Stale(Do(s, DeleteProfile(id), now))
  {
    ProfileDo(s, DeleteProfile(id), now);
    hide Do, Present;
    StaleWithoutRestarts(s.(profiles := WithoutProfile(s.profiles, id)), s.process.value.settings);
  }

  /** A spawn whose process crashes, outside a crash loop, and the rethrow. */
  function SpawnAndFail(s: State, now: Time): State {
    Do(Do(Do(Do(s, Spawn, now), FfError, now), Verdict, now), Rethrow, now)
  }

  lemma SpawnFails(s: State, now: Time)
    requires Inv(s) && s.run.Prepared?
    requires !StreamHealth.InCrashLoop(StreamHealth.Exited(s.camera.health, now, false))
    ensures s.job.Some?
    ensures var failed := SpawnAndFail(s, now);
      && Inv(failed) && failed.run == NoRun && failed.job == StreamQueue.AttemptFailed(s.job)
      && failed.camera.row == s.camera.row && !StreamSupervision.Degraded(failed) && failed.profiles == s.profiles
  {
    var streaming := Do(s, Spawn, now);
    SpawnStep(s, now);
    ErrorStep(streaming, now);
    var crashed := Do(streaming, FfError, now);
    VerdictIsJudged(crashed, now);
    var judged := Do(crashed, Verdict, now);
    RethrowStep(judged, now);
    StepInv(s, Timed(now, Spawn));
    StepInv(streaming, Timed(now, FfError));
    StepInv(crashed, Timed(now, Verdict));
    StepInv(judged, Timed(now, Rethrow));
    BreakerFlag(s.camera.health, now, false);
    assert s.process.None? && !StreamSupervision.Degraded(s) && s.job.Some? by {
      hide Step, StreamHealth.Exited, StreamHealth.InCrashLoop, Up;
    }
    hide Step, StreamHealth.Exited, StreamHealth.InCrashLoop, StreamHealth.IsDegraded, Inv;
  }

  /**
   A run that took over a new profile fails, and its retry streams with the old one, although the
   fingerprint check has just compared the two.
   */
  lemma RetryForgetsSignal(s: State, now: Time)
    requires Inv(s) && s.run.Prepared? && s.run.settings == Present(s.profiles)
    requires s.job.value.name == StreamQueue.StartJob && !Unfit(s.job.value.data)
    requires s.job.value.data.settings != Present(s.profiles)
    requires s.job.value.attemptsMade + 1 < StreamQueue.MAX_STREAM_ATTEMPTS
    requires s.camera.row.Some? && s.camera.row.value.org == s.job.value.data.org
    requires !StreamHealth.InCrashLoop(StreamHealth.Exited(s.camera.health, now, false))
    ensures var failed := SpawnAndFail(s, now);
      var s' := Do(Attempt(failed, now), Spawn, now);
      s'.process.Some? && !s'.process.value.marked && s'.process.value.settings != Present(s'.profiles)
  {
    hide SpawnAndFail, Attempt, Do, Inv, Unfit, StreamHealth.Exited, StreamHealth.InCrashLoop, Move;
    hide StreamSupervision.Degraded;
    SpawnFails(s, now);
    RunIsActive(s);
    var failed := SpawnAndFail(s, now);
    StartSpawns(failed, now);
    MoveKeepsProfiles(failed, s.job.value.data.org, Connecting, now);
  }

  lemma RunIsActive(s: State)
    requires Inv(s) && s.run != NoRun
    ensures StreamQueue.IsActive(s.job)
  {
    hide Up, StreamHealth.IsDegraded, StreamHealth.Bounded;
  }

  lemma MoveKeepsProfiles(s: State, org: OrgId, to: Status, now: Time)
    ensures Move(s, org, to, now).profiles == s.profiles
  {}

  /**
   A restart signal that reaches a streaming camera ends its process and its job for good: the stop
   is intentional, so the promise resolves and nothing is retried. The next process of the camera
   is the health tick's doing, with the profile that it finds then.
   */
  lemma SignalledRestartIsNoRetry(s: State, r: RestartId, source: StreamQueue.Source, now: Time)
    requires Inv(s) && s.run == Streaming(true) && !s.restarting
    requires r in s.restarts && s.restarts[r].Signalling?
    ensures var s' := Do(Do(Do(s, SignalRun(r), now), FfError, now), Finish, now);
      && s'.process.None? && s'.run == NoRun && s'.job.None?
      && StreamQueue.TickEnqueued(s'.job, StreamQueue.BuildStreamJobData(source))
           == Some(StreamQueue.Job(
                StreamQueue.StartJob, StreamQueue.BuildStreamJobData(source), 0, StreamQueue.Waiting))
      && s'.camera.health == StreamHealth.Exited(s.camera.health, now, true)
  {
    SignalMarks(s, r, now);
    var signalled := Do(s, SignalRun(r), now);
    ErrorStep(signalled, now);
    var gone := Do(signalled, FfError, now);
    StepOfWorker(gone, Timed(now, Finish));
    hide Inv, StreamHealth.Exited, StreamQueue.BuildStreamJobData;
    assert gone.run == Resolved && gone.job == s.job && gone.process.None?;
    hide Exited;
    assert Do(gone, Finish, now) == JobDone(gone);
    hide Do, Step;
  }

  lemma SignalMarks(s: State, r: RestartId, now: Time)
    requires Inv(s) && s.run == Streaming(true) && !s.restarting
    requires r in s.restarts && s.restarts[r].Signalling?
    ensures var s' := Do(s, SignalRun(r), now);
      && s'.process.Some? && s'.process.value.marked && s'.job == s.job && s'.camera == s.camera
      && StreamQueue.IsActive(s.job)
  {
    RestartDo(s, SignalRun(r), now);
    hide Do, StreamHealth.IsDegraded, StreamHealth.Bounded, Up;
  }
}
