/**
 What the worker does when nothing else acts, and a user's stop that nothing comes in between:
 exactly when the camera streams on. `StopRace` lets the worker into the stop.
 */
module LostStop {
  import opened Common
  import opened StreamSupervision
  import StatusNotify
  import StreamHealth
  import StreamQueue

  /** Only the worker and its process act. */
  predicate Undisturbed(events: seq<Timed>) {
    forall t | t in events :: !Outside(t.event)
  }

  /** A process runs that nothing has told to stop. */
  predicate StreamsOn(s: State) {
    s.process.Some? && !s.process.value.marked
  }

  /** The worker alone gets to such a process. */
  ghost predicate WillStream(s: State) {
    exists events :: Undisturbed(events) && StreamsOn(After(s, events))
  }

  predicate IsStart(s: State) {
    s.job.Some? && s.job.value.name == StreamQueue.StartJob
  }

  /** The preparation of the run's job will succeed, as the camera's row stands. */
  predicate Prepares(s: State) {
    s.job.Some? && s.camera.row.Some? && s.camera.row.value.org == s.job.value.data.org
    && (IsStart(s) || !NoWayToReconnecting(s.camera.row.value.status))
  }

  predicate Passes(s: State) {
    Prepares(s) && !Unfit(s.job.value.data)
  }

  predicate HasAnotherAttempt(s: State) {
    Passes(s) && s.job.value.attemptsMade + 1 < StreamQueue.MAX_STREAM_ATTEMPTS
  }

  /** The breaker stays up: a stop that changes the status takes it down. */
  predicate BreakerStays(s: State) {
    StreamSupervision.Degraded(s) && s.camera.row.Some? && s.camera.row.value.status == Offline
  }

  /** What an uninterrupted stop does not stop. */
  predicate StopIsLost(s: State) {
    match s.run
    // Before its spawn the run has no process to signal, and its job is active.
    case Picked => IsStart(s) && Passes(s) && !BreakerStays(s)
    case Admitted(_) => IsStart(s) && Prepares(s)
    case Subscribed(_) => IsStart(s) && Prepares(s)
    case Ready(_, _) => s.seen.Some? || (IsStart(s) && Prepares(s))
    case Prepared(_, _) => true
    // After a crash the process has gone, and the job is about to be retried.
    case Rejected =>
      IsStart(s) && HasAnotherAttempt(s) && !BreakerStays(s) && !StreamHealth.InCrashLoop(s.camera.health)
    case Degrading => IsStart(s) && HasAnotherAttempt(s) && !BreakerStays(s)
    case GivingUp => IsStart(s) && HasAnotherAttempt(s) && !BreakerStays(s)
    case _ => false
  }

  // ---- What the worker alone will do ----

  /** The worker will spawn if nothing disturbs it. */
  predicate Fertile(s: State) {
    var down := !StreamSupervision.Degraded(s);
    match s.run
    case NoRun => s.job.Some? && s.job.value.state == StreamQueue.Waiting && Passes(s) && down
    case Picked => Passes(s) && down
    case Admitted(_) => Prepares(s)
    case Subscribed(_) => Prepares(s)
    case Ready(_, _) => s.seen.Some? || Prepares(s)
    case Prepared(_, _) => true
    case Rejected => HasAnotherAttempt(s) && down && !StreamHealth.InCrashLoop(s.camera.health)
    // It is about to be degraded, and a restart may not come from there.
    case Degrading => IsStart(s) && HasAnotherAttempt(s) && down
    case GivingUp => HasAnotherAttempt(s) && down
    case _ => false
  }

  ghost predicate Barren(s: State) {
    Inv(s) && s.camera.row.Some? && !Fertile(s) && !StreamsOn(s)
  }

  lemma BarrenPrepare(s: State, now: Time)
    requires Barren(s) && s.run.Ready?
    ensures Do(s, Prepare, now) == JobThrew(s)
  {
    PrepareIsPrepared(s, now);
    hide Step, JobThrew, Up, StreamHealth.IsDegraded, StreamHealth.Bounded;
  }

  lemma BarrenProcess(s: State, t: Timed)
    requires Barren(s) && (t.event.FfStart? || t.event.FfError? || t.event.FfEnd?)
    ensures Barren(Step(s, t))
  {
    StepInv(s, t);
    BreakerFlag(s.camera.health, t.at, true);
    StepOfWorker(s, t);
    hide Step, FingerprintDiffers, Up, Unfit, StreamHealth.IsDegraded, StreamHealth.Bounded;
    hide StreamHealth.Exited, StreamHealth.Started, StreamHealth.InCrashLoop;
  }

  lemma BarrenStart(s: State, t: Timed)
    requires Barren(s) && (t.event.Begin? || t.event.Guard? || t.event.Refuse?)
    ensures Barren(Step(s, t))
  {
    StepInv(s, t);
    StepOfWorker(s, t);
    hide Step, Up, Unfit, StreamHealth.IsDegraded, StreamHealth.Bounded, StreamHealth.InCrashLoop;
  }

  lemma BarrenPreparation(s: State, t: Timed)
    requires Barren(s) && t.event.Prepare?
    ensures Barren(Step(s, t))
  {
    StepInv(s, t);
    PrepareIsPrepared(s, t.at);
    assert t == Timed(t.at, Prepare);
    if s.run.Ready? {
      BarrenPrepare(s, t.at);
      BarrenThrew(s);
    } else {
      PrepareElsewhere(s);
    }
    hide Step, Inv, Fertile, JobThrew, PreparedFor;
  }

  lemma BarrenThrew(s: State)
    requires Barren(s) && s.run.Ready?
    ensures !Fertile(JobThrew(s)) && !StreamsOn(JobThrew(s)) && JobThrew(s).camera == s.camera
  {
    hide Unfit, Up, StreamHealth.IsDegraded, StreamHealth.Bounded;
  }

  lemma BarrenAdmission(s: State, t: Timed)
    requires Barren(s) && (t.event.Subscribe? || t.event.CheckFingerprint? || t.event.Spawn?)
    ensures Barren(Step(s, t))
  {
    StepInv(s, t);
    StepOfWorker(s, t);
    hide Step, FingerprintDiffers, Up, Unfit, StreamHealth.IsDegraded, StreamHealth.Bounded;
  }

  lemma PrepareElsewhere(s: State)
    requires !s.run.Ready?
    ensures PreparedFor(s) == s
  {}

  /** A change to degraded is all that the worker can be about to write. */
  lemma BarrenWrite(s: State, t: Timed)
    requires Barren(s) && t.event.WriteStatus?
    ensures Barren(Step(s, t))
  {
    StepInv(s, t);
    StepOfWorker(s, t);
    assert Step(s, t) == StatusWritten(s, t.at) by {
      hide Step, StatusWritten, Barren;
    }
    assert !Fertile(s) && !StreamsOn(s);
    hide Step, WorkerStep, Inv, Fertile;
    if s.seen.Some? {
      AboutToWrite(s);
      if s.run == Degrading {
        DegradedWritten(s, t.at);
      } else {
        RefusalWritten(s, t.at);
      }
    }
    hide StatusWritten;
  }

  lemma AboutToWrite(s: State)
    requires Barren(s) && s.seen.Some?
    ensures s.run == Refusing || s.run == Degrading
    ensures s.process.None? && StreamQueue.IsActive(s.job)
  {
    hide Unfit, StreamHealth.IsDegraded, StreamHealth.Bounded, Up;
  }

  lemma DegradedWritten(s: State, now: Time)
    requires s.camera.row.Some? && s.seen.Some? && s.run == Degrading
    ensures var s' := StatusWritten(s, now);
      && s' == s.(camera := s'.camera, log := s.log + [Moved(Status.Degraded)], seen := None, run := GivingUp)
      && s'.camera.row == Some(s.camera.row.value.(status := Status.Degraded))
      && (Fertile(s') <==> Fertile(s))
  {
    WriteKeeps(s, s.seen.value, now);
    hide Write, Unfit, StreamHealth.IsDegraded;
  }

  lemma RefusalWritten(s: State, now: Time)
    requires s.camera.row.Some? && s.seen.Some? && s.run == Refusing && StreamQueue.IsActive(s.job)
    ensures var s' := StatusWritten(s, now);
      && s' == s.(camera := s'.camera, log := s.log + [Moved(Status.Degraded)], seen := None, run := NoRun, job := None)
      && s'.camera.row == Some(s.camera.row.value.(status := Status.Degraded))
      && !Fertile(s')
  {
    WriteKeeps(s, s.seen.value, now);
    hide Write, Unfit, StreamHealth.IsDegraded;
  }

  lemma WriteKeeps(s: State, seen: StatusNotify.Row, now: Time)
    requires s.camera.row.Some?
    ensures var s' := Write(s, seen, Status.Degraded, now);
      && StreamSupervision.Degraded(s') == StreamSupervision.Degraded(s)
      && s' == s.(camera := s'.camera, log := s.log + [Moved(Status.Degraded)])
      && s'.camera.row == Some(s.camera.row.value.(status := Status.Degraded))
  {
    hide StreamHealth.RecentTransitions;
  }

  lemma BarrenVerdict(s: State, t: Timed)
    requires Barren(s) && t.event.Verdict?
    ensures Barren(Step(s, t))
  {
    StepInv(s, t);
    BreakerFlag(s.camera.health, t.at, true);
    StepOfWorker(s, t);
    hide Step, Move, OutsideStep, RestartStep, Inv, Unfit, StreamHealth.IsDegraded;
    hide StreamHealth.Marked, StreamHealth.InCrashLoop;
  }

  lemma BarrenEnd(s: State, t: Timed)
    requires Barren(s) && (t.event.Finish? || t.event.Degrade? || t.event.Rethrow?)
    ensures Barren(Step(s, t))
  {
    StepInv(s, t);
    StepOfWorker(s, t);
    hide Step, OutsideStep, RestartStep, Up, Unfit, StreamHealth.IsDegraded, StreamHealth.Bounded;
    hide StreamHealth.InCrashLoop;
  }

  lemma BarrenStep(s: State, t: Timed)
    requires Barren(s) && !Outside(t.event)
    ensures Barren(Step(s, t))
  {
    hide Barren, Step;
    var e := t.event;
    if e.FfStart? || e.FfError? || e.FfEnd? {
      BarrenProcess(s, t);
    } else if e.WriteStatus? {
      BarrenWrite(s, t);
    } else if e.Verdict? {
      BarrenVerdict(s, t);
    } else if e.Finish? || e.Degrade? || e.Rethrow? {
      BarrenEnd(s, t);
    } else if e.Begin? || e.Guard? || e.Refuse? {
      BarrenStart(s, t);
    } else if e.Prepare? {
      BarrenPreparation(s, t);
    } else {
      BarrenAdmission(s, t);
    }
  }

  lemma {:induction false} BarrenRun(s: State, events: seq<Timed>)
    requires Barren(s) && Undisturbed(events)
    ensures Barren(After(s, events))
    decreases |events|
  {
    hide Barren, Step, Outside;
    if events != [] {
      assert events[0] in events;
      BarrenStep(s, events[0]);
      var s', rest := Step(s, events[0]), events[1..];
      assert forall t | t in rest :: t in events;
      BarrenRun(s', rest);
    }
  }

  // ---- How it gets to the spawn ----

  function StepsToSpawn(s: State): nat {
    match s.run
    case Rejected => 11
    case Degrading => if s.seen.None? then 10 else 9
    case GivingUp => 8
    case NoRun => 7
    case Picked => 6
    case Admitted(_) => 5
    case Subscribed(_) => 4
    case Ready(_, _) => if s.seen.None? then 3 else 2
    case Prepared(_, _) => 1
    case _ => 0
  }

  function WorkerMove(s: State): Event {
    if s.seen.Some? then WriteStatus
    else
      match s.run
      case Rejected => Verdict
      case Degrading => Degrade
      case GivingUp => Rethrow
      case NoRun => Begin
      case Picked => Guard
      case Admitted(_) => Subscribe(true)
      case Subscribed(_) => CheckFingerprint
      case Ready(_, _) => Prepare
      case _ => Spawn
  }

  /** The worker's next step leads on. */
  ghost predicate LeadsOn(s: State, s': State) {
    Fertile(s') && StepsToSpawn(s') < StepsToSpawn(s)
  }

  lemma FertileEarly(s: State, now: Time)
    requires Inv(s) && Fertile(s) && (s.run == NoRun || s.run == Picked || s.run.Admitted? || s.run.Subscribed?)
    ensures LeadsOn(s, Do(s, WorkerMove(s), now))
  {
    StepOfWorker(s, Timed(now, WorkerMove(s)));
    hide Step, FingerprintDiffers, Up, Unfit, StreamHealth.IsDegraded, StreamHealth.Bounded;
  }

  lemma FertileReady(s: State, now: Time)
    requires Inv(s) && Fertile(s) && s.run.Ready? && s.seen.None?
    ensures LeadsOn(s, Do(s, WorkerMove(s), now))
  {
    PrepareIsPrepared(s, now);
    hide Step, Up, Unfit, StreamHealth.IsDegraded, StreamHealth.Bounded;
  }

  lemma FertileWrite(s: State, now: Time)
    requires Inv(s) && Fertile(s) && s.seen.Some?
    ensures LeadsOn(s, Do(s, WorkerMove(s), now))
  {
    hide Do, Inv, Unfit, StreamHealth.IsDegraded, StreamHealth.InCrashLoop;
    WhereWritten(s);
    WriteStep(s, now);
    if s.run == Degrading {
      DegradedWritten(s, now);
      hide Fertile, StatusWritten;
    } else {
      PreparationWritten(s, now);
      hide StatusWritten;
    }
  }

  lemma WhereWritten(s: State)
    requires Inv(s) && Fertile(s) && s.seen.Some?
    ensures s.camera.row.Some? && (s.run == Degrading || s.run.Ready?)
  {
    hide Unfit, StreamHealth.IsDegraded, StreamHealth.Bounded, Up;
  }

  lemma PreparationWritten(s: State, now: Time)
    requires s.camera.row.Some? && s.seen.Some? && s.run.Ready?
    ensures var s' := StatusWritten(s, now); s'.run.Prepared? && s'.seen.None?
  {
    hide StatusNotify.Written, Target;
  }

  lemma FertileLate(s: State, now: Time)
    requires Inv(s) && Fertile(s) && s.seen.None? && (s.run == Rejected || s.run == Degrading || s.run == GivingUp)
    ensures LeadsOn(s, Do(s, WorkerMove(s), now))
  {
    LateMoves(s, now);
    hide Do, JobThrew, Inv, Unfit, StreamHealth.IsDegraded, StreamHealth.InCrashLoop;
    if s.run == GivingUp {
      assert Passes(JobThrew(s)) == Passes(s);
    } else {
      AnotherAttempt(s);
      hide HasAnotherAttempt;
    }
  }

  lemma AnotherAttempt(s: State)
    ensures HasAnotherAttempt(s.(run := GivingUp)) == HasAnotherAttempt(s)
    ensures forall seen :: HasAnotherAttempt(s.(seen := seen)) == HasAnotherAttempt(s)
  {
    hide Unfit;
  }

  lemma LateMoves(s: State, now: Time)
    requires Inv(s) && Fertile(s) && s.seen.None?
    ensures s.run == Rejected ==> Do(s, Verdict, now) == s.(run := GivingUp)
    ensures s.run == Degrading ==>
      Do(s, Degrade, now) == s.(run := GivingUp)
      || (s.camera.row.Some? && Do(s, Degrade, now) == s.(seen := s.camera.row))
    ensures s.run == GivingUp ==> Do(s, Rethrow, now) == JobThrew(s)
    ensures s.run == GivingUp ==>
      JobThrew(s) == s.(run := NoRun,
        job := Some(s.job.value.(attemptsMade := s.job.value.attemptsMade + 1, state := StreamQueue.Waiting)))
  {
    if s.run == Degrading {
      DegradeStep(s, now);
    } else {
      StepOfWorker(s, Timed(now, WorkerMove(s)));
    }
    hide Step, Up, Unfit, StreamHealth.IsDegraded, StreamHealth.Bounded, StreamHealth.Marked, StreamHealth.InCrashLoop;
  }

  /** The events that lead to the spawn. */
  lemma {:induction false} FertileSpawns(s: State, now: Time) returns (events: seq<Timed>)
    requires Inv(s) && Fertile(s)
    ensures Undisturbed(events) && StreamsOn(After(s, events)) && Inv(After(s, events))
    decreases StepsToSpawn(s)
  {
    hide OutsideStep, RestartStep, WorkerStep, Up, Unfit, StreamHealth.IsDegraded;
    var e := WorkerMove(s);
    var s' := Do(s, e, now);
    if s.run.Prepared? {
      SpawnStep(s, now);
      events := [Timed(now, e)];
      assert events[1..] == [];
      StepInv(s, Timed(now, e));
      assert After(s, events) == s';
    } else {
      StepInv(s, Timed(now, e));
      if s.seen.Some? {
        FertileWrite(s, now);
      } else if s.run.Ready? {
        FertileReady(s, now);
      } else if s.run == NoRun || s.run == Picked || s.run.Admitted? || s.run.Subscribed? {
        FertileEarly(s, now);
      } else {
        FertileLate(s, now);
      }
      hide Inv, Step, Fertile;
      var rest := FertileSpawns(s', now);
      events := [Timed(now, e)] + rest;
      assert events[1..] == rest;
    }
  }

  /**
   In every reachable state: the worker alone gets the camera to stream if and only if it streams
   already, or the run has yet to spawn and will pass its guard and preparation, or is past the
   read of its preparation, or has crashed with another attempt left and the breaker down.
   */
  lemma WillStreamIff(s: State, now: Time)
    requires Inv(s) && s.camera.row.Some?
    ensures WillStream(s) <==> StreamsOn(s) || Fertile(s)
  {
    if StreamsOn(s) {
      assert Undisturbed([]) && StreamsOn(After(s, []));
    } else if Fertile(s) {
      var events := FertileSpawns(s, now);
    } else {
      forall events | Undisturbed(events) ensures !StreamsOn(After(s, events)) {
        BarrenRun(s, events);
      }
    }
  }

  // ---- A stop that nothing comes in between ----

  lemma WriteOffline(s: State, now: Time)
    requires s.camera.row.Some?
    ensures var s' := if s.camera.row.value.status == Offline then s else Write(s, s.camera.row.value, Offline, now);
      && s' == s.(camera := s'.camera, log := s'.log)
      && s'.camera.row == Some(s.camera.row.value.(status := Offline))
      && StreamSupervision.Degraded(s') == BreakerStays(s)
      && StreamHealth.InCrashLoop(s'.camera.health) == StreamHealth.InCrashLoop(s.camera.health)
  {
    hide StreamHealth.RecentTransitions;
  }

  lemma StoppedState(s: State, now: Time)
    requires Inv(s) && s.camera.row.Some?
    ensures var s' := UserStop(s, now);
      && Inv(s') && s'.run == s.run && s'.seen == s.seen && s'.job == StreamQueue.Remove(s.job)
      && s'.camera.row.Some? && s'.camera.row.value.status == Offline
      && s'.camera.row.value.org == s.camera.row.value.org
      && (s'.process.Some? ==> s'.process.value.marked)
      && StreamSupervision.Degraded(s') == BreakerStays(s)
      && StreamHealth.InCrashLoop(s'.camera.health) == StreamHealth.InCrashLoop(s.camera.health)
  {
    var s1 := Do(s, Terminate, now);
    var s2 := Do(s1, RemoveJob, now);
    StepInv(s, Timed(now, Terminate));
    StepInv(s1, Timed(now, RemoveJob));
    StepInv(s2, Timed(now, Transition(s.camera.row.value, Offline)));
    StopState(s, now);
    WriteOffline(Signalled(s).(job := StreamQueue.Remove(s.job)), now);
    hide Step, Write, Inv, StreamHealth.InCrashLoop, StreamHealth.IsDegraded;
  }

  /**
   In every reachable state, a user's stop that nothing comes in between, and after which only the
   worker acts, leaves the camera streaming if and only if the run has yet to spawn and will pass
   its guard and preparation, or is past the read of its preparation, or has crashed with another
   attempt left and the breaker down.
   */
  lemma StopIsLostIff(s: State, now: Time)
    requires Inv(s) && s.camera.row.Some?
    ensures WillStream(UserStop(s, now)) <==> StopIsLost(s)
  {
    StoppedState(s, now);
    FertileAfterStop(s, now);
    WillStreamIff(UserStop(s, now), now);
  }

  lemma FertileAfterStop(s: State, now: Time)
    requires Inv(s) && s.camera.row.Some?
    ensures Fertile(UserStop(s, now)) <==> StopIsLost(s)
  {
    StoppedState(s, now);
    hide UserStop, Unfit, StreamHealth.InCrashLoop, StreamSupervision.Degraded;
    assert s.run != NoRun ==> StreamQueue.Remove(s.job) == s.job;
    hide Inv;
    var s' := UserStop(s, now);
    if s.run != NoRun {
      assert Prepares(s') <==> IsStart(s) && Prepares(s);
      assert Passes(s') <==> IsStart(s) && Passes(s);
      assert HasAnotherAttempt(s') <==> IsStart(s) && HasAnotherAttempt(s);
      hide Prepares, Passes, HasAnotherAttempt;
    }
  }
}
