/** The health tick over whole runs of a camera, and a run into the breaker's trap. */
module TickRuns {
  import opened Common
  import opened StreamSupervision
  import CameraHealth
  import StatusNotify
  import StreamHealth
  import StreamQueue

  // ---- Kill bounds ----

  /** Each visit sees the camera as it is at its point of the run. */
  ghost predicate VisitsOf(s: State, events: seq<Timed>, points: seq<nat>, visits: seq<CameraHealth.Visit>) {
    && |points| == |visits|
    && (forall i, j | 0 <= i < j < |points| :: points[i] <= points[j])
    && (forall i | 0 <= i < |points| ::
          points[i] <= |events| && visits[i].slot == Seen(After(s, events[..points[i]]), visits[i].slot.misses))
  }

  /**
   In every run of a camera, at every visit of the tick: FFmpeg is stopped exactly when SRS has
   lacked the stream in as many consecutive evaluated ticks as the tolerance is then, and that is
   never before the second such tick and always by the fourth.
   */
  lemma KillBoundsInEveryRun(s: State, events: seq<Timed>, points: seq<nat>, visits: seq<CameraHealth.Visit>, i: nat)
    requires Initial(s) && VisitsOf(s, events, points, visits) && CameraHealth.Chained(visits) && i < |visits|
    ensures var v := visits[i];
      var streak := CameraHealth.AbsentStreak(visits[..i + 1]);
      var stops, stoppable := CameraHealth.Stops(v), CameraHealth.Stoppable(v);
      && (stops <==> stoppable && streak >= StreamHealth.Tolerance(v.slot.camera.health, v.now))
      && (stops ==> streak >= 2)
      && (stoppable && streak >= 4 ==> stops)
  {
    InitialInv(s);
    AfterInv(s, events[..points[i]]);
    CameraHealth.ChainedPrefix(visits, i + 1);
    assert visits[..i + 1][i] == visits[i];
    CameraHealth.KillBounds(visits[..i + 1]);
  }

  // ---- A process stopped by the first tick that sees it ----

  lemma {:induction false} QuietKeepsRun(s: State, events: seq<Event>, now: Time)
    requires forall e | e in events :: Outside(e) && !RestartEvent(e) && !ProfileEvent(e)
    ensures var s' := After(s, All(events, now));
      s'.run == s.run && s'.restarts == s.restarts
    decreases |events|
  {
    if events != [] {
      var timed := All(events, now);
      assert timed[0] == Timed(now, events[0]) && timed[1..] == All(events[1..], now);
      assert events[0] in events;
      QuietStep(s, events[0], now);
      assert forall e | e in events[1..] :: e in events;
      hide Step, Outside;
      QuietKeepsRun(Step(s, Timed(now, events[0])), events[1..], now);
    }
  }

  lemma QuietStep(s: State, e: Event, now: Time)
    requires Outside(e) && !RestartEvent(e) && !ProfileEvent(e)
    ensures Step(s, Timed(now, e)).run == s.run && Step(s, Timed(now, e)).restarts == s.restarts
  {
    hide RestartStep, WorkerStep, StreamHealth.ToleranceRead, StreamHealth.Bumped, StreamHealth.Trimmed;
  }

  lemma TickKeepsRun(s: State, misses: nat, candidate: CameraHealth.Candidate, srsAlive: bool, now: Time)
    ensures var s' := After(s, All(TickEvents(s, misses, candidate, srsAlive, now), now));
      s'.run == s.run && s'.restarts == s.restarts
  {
    var events := TickEvents(s, misses, candidate, srsAlive, now);
    TickEventsOutside(s, misses, candidate, srsAlive, now);
    hide TickEvents;
    assert forall e | e in events :: Outside(e) && !RestartEvent(e) && !ProfileEvent(e);
    QuietKeepsRun(s, events, now);
  }

  predicate Untuned(h: StreamHealth.Slot) {
    h.record.Some? ==> h.record.value.customMissTolerance.None?
  }

  lemma MoveUntuned(c: StatusNotify.Camera, org: OrgId, to: Status, now: Time)
    requires Untuned(c.health)
    ensures Untuned(StatusNotify.Transitioned(c, org, to, now).health)
    ensures StatusNotify.Transitioned(c, org, to, now).row.Some? == c.row.Some?
    ensures c.row.Some? ==> StatusNotify.Transitioned(c, org, to, now).row.value.org == c.row.value.org
  {
    hide StreamHealth.RecentTransitions;
  }

  /** The first tick on a booted camera without a process: one miss, and a start job. */
  lemma FirstTick(s: State, candidate: CameraHealth.Candidate, now: Time)
    requires Initial(s) && s.camera.row.Some? && s.job.None?
    requires !CameraHealth.PushPassthrough(candidate.source) && candidate.status != Online
    ensures var slot := CameraHealth.TickCamera(Seen(s, 0), candidate, false, now);
      && slot.misses == 1 && Untuned(slot.camera.health)
      && slot.job == Some(StreamQueue.Job(
           StreamQueue.StartJob, StreamQueue.BuildStreamJobData(candidate.source), 0, StreamQueue.Waiting))
      && slot.camera.row.Some? && slot.camera.row.value.org == s.camera.row.value.org
  {
    MoveUntuned(s.camera, candidate.source.org, Reconnecting, now);
    hide StatusNotify.Transitioned, StreamQueue.BuildStreamJobData;
  }

  /**
   The streak belongs to the camera and not to the process. From boot: a tick misses the stream and
   enqueues, the worker spawns, and the next tick stops that process, the first time it sees it.
   */
  lemma FirstTickCanStop(s: State, candidate: CameraHealth.Candidate, now: Time)
    requires Initial(s) && s.camera.row.Some? && s.camera.row.value.org == candidate.source.org && s.job.None?
    requires !CameraHealth.PushPassthrough(candidate.source) && candidate.status != Online
    requires !Unfit(StreamQueue.BuildStreamJobData(candidate.source))
    ensures var first := CameraHealth.Visit(Seen(s, 0), candidate, false, now);
      var ticked := After(s, All(TickEvents(s, 0, candidate, false, now), now));
      var spawned := Do(Attempt(ticked, now), Spawn, now);
      var second := CameraHealth.Visit(Seen(spawned, 1), candidate, false, now);
      && CameraHealth.Chained([first, second])
      && s.process.None? && spawned.process.Some? && spawned.run == Streaming(true)
      && CameraHealth.Stops(second)
  {
    hide After, Attempt, Do, CameraHealth.TickCamera, TickEvents, StatusNotify.Transitioned, Unfit, Inv, Initial, Move;
    hide StreamQueue.BuildStreamJobData, StreamHealth.IsDegraded, CameraHealth.Chained, CameraHealth.Stops, Untuned;
    FirstTick(s, candidate, now);
    TickIsRun(s, 0, candidate, false, now);
    TickKeepsRun(s, 0, candidate, false, now);
    var events := All(TickEvents(s, 0, candidate, false, now), now);
    var ticked := After(s, events);
    InitialInv(s);
    AfterInv(s, events);
    TickLeavesBreaker(s, candidate, now);
    BootIsIdle(s);
    StreamQueue.JobDataOutcome(candidate.source, candidate.source, None);
    StartSpawns(ticked, now);
    MoveBreaker(ticked, candidate.source.org, now);
    var spawned := Do(Attempt(ticked, now), Spawn, now);
    var first := CameraHealth.Visit(Seen(s, 0), candidate, false, now);
    var second := CameraHealth.Visit(Seen(spawned, 1), candidate, false, now);
    ChainedTwo(first, second);
    SecondStops(second);
  }

  lemma BootIsIdle(s: State)
    requires Initial(s)
    ensures s.run == NoRun && s.process.None?
  {}

  lemma ChainedTwo(first: CameraHealth.Visit, second: CameraHealth.Visit)
    requires first.slot.misses == 0 && second.slot.misses == CameraHealth.After(first).misses
    ensures CameraHealth.Chained([first, second])
  {
    hide CameraHealth.After;
  }

  lemma SecondStops(v: CameraHealth.Visit)
    requires v.slot.running && !v.slot.marked && v.slot.misses == 1 && !v.srsAlive
    requires !CameraHealth.PushPassthrough(v.candidate.source)
    requires !StreamHealth.IsDegraded(v.slot.camera.health) && Untuned(v.slot.camera.health)
    ensures CameraHealth.Stops(v)
  {
    CameraHealth.TickStatus(v.slot, v.candidate, v.srsAlive, v.now);
    hide CameraHealth.TickCamera;
  }

  lemma TickLeavesBreaker(s: State, candidate: CameraHealth.Candidate, now: Time)
    requires Initial(s)
    ensures !StreamHealth.IsDegraded(CameraHealth.TickCamera(Seen(s, 0), candidate, false, now).camera.health)
  {
    hide StreamHealth.RecentTransitions, StreamQueue.BuildStreamJobData, StreamQueue.TickEnqueued;
  }

  lemma MoveBreaker(s: State, org: OrgId, now: Time)
    requires !StreamSupervision.Degraded(s)
    ensures !StreamSupervision.Degraded(Move(s, org, Connecting, now))
    ensures Untuned(s.camera.health) ==> Untuned(Move(s, org, Connecting, now).camera.health)
  {
    hide StreamHealth.RecentTransitions;
  }

  // ---- From boot into the trap ----

  function FastExits(s: State): seq<Time> {
    StreamHealth.FastExits(s.camera.health)
  }

  predicate AllAt(times: seq<Time>, now: Time) {
    forall i | 0 <= i < |times| :: times[i] == now
  }

  /** A camera that has crashed `n` times at time `now`, with its job waiting for the next attempt. */
  ghost predicate Crashed(s: State, n: nat, now: Time) {
    && Inv(s) && s.run == NoRun && !StreamSupervision.Degraded(s)
    && s.job.Some? && s.job.value.state == StreamQueue.Waiting && s.job.value.attemptsMade == n
    && s.job.value.name == StreamQueue.StartJob && !Unfit(s.job.value.data)
    && s.camera.row.Some? && s.camera.row.value.org == s.job.value.data.org
    && |FastExits(s)| == n && AllAt(FastExits(s), now)
  }

  lemma {:induction false} AllWithin(times: seq<Time>, now: Time)
    requires AllAt(times, now)
    ensures StreamHealth.Within(times, now, StreamHealth.CRASH_WINDOW_MS) == times
  {
    if times != [] {
      AllWithin(times[..|times| - 1], now);
    }
  }

  lemma MoveKeepsExits(s: State, org: OrgId, to: Status, now: Time)
    ensures FastExits(Move(s, org, to, now)) == FastExits(s)
    ensures Move(s, org, to, now).camera.row.Some? == s.camera.row.Some?
    ensures s.camera.row.Some? ==> Move(s, org, to, now).camera.row.value.org == s.camera.row.value.org
  {
    hide StreamHealth.RecentTransitions;
  }

  lemma SlotDies(h: StreamHealth.Slot, now: Time)
    requires now > 0 && AllAt(StreamHealth.FastExits(h), now)
    ensures var h' := StreamHealth.Exited(StreamHealth.Started(h, now), now, false);
      StreamHealth.FastExits(h') == StreamHealth.FastExits(h) + [now]
        && StreamHealth.IsDegraded(h') == StreamHealth.IsDegraded(h)
  {
    AllWithin(StreamHealth.FastExits(h) + [now], now);
    hide StreamHealth.Within;
  }

  lemma StartStep(s: State, now: Time)
    requires s.process.Some?
    ensures Do(s, FfStart, now) == s.(camera := s.camera.(health := StreamHealth.Started(s.camera.health, now)))
  {
    hide OutsideStep, RestartStep, StreamHealth.Started;
  }

  /** A process that starts and dies at once is one more fast exit. */
  lemma DiesAtOnce(s: State, now: Time)
    requires s.process.Some? && !s.process.value.marked && now > 0
    requires AllAt(FastExits(s), now)
    ensures var s' := Do(Do(s, FfStart, now), FfError, now);
      && FastExits(s') == FastExits(s) + [now]
      && s' == s.(camera := s.camera.(health := s'.camera.health), process := None, run := Rejected)
      && StreamSupervision.Degraded(s') == StreamSupervision.Degraded(s)
  {
    SlotDies(s.camera.health, now);
    StartStep(s, now);
    ErrorStep(Do(s, FfStart, now), now);
    hide Do, StreamHealth.Exited, StreamHealth.Started, StreamHealth.IsDegraded, StreamHealth.RecordOf;
  }

  /** The run up to the death of the process. */
  function DiedAtOnce(s: State, now: Time): State {
    Do(Do(Do(Attempt(s, now), Spawn, now), FfStart, now), FfError, now)
  }

  function CrashCycle(s: State, now: Time): State {
    Do(Do(DiedAtOnce(s, now), Verdict, now), Rethrow, now)
  }

  lemma CycleUpToDeath(s: State, n: nat, now: Time)
    requires Crashed(s, n, now) && now > 0
    ensures var s' := DiedAtOnce(s, now);
      && s'.run == Rejected && s'.process.None? && s'.job == Some(s.job.value.(state := StreamQueue.Active))
      && s'.camera.row.Some? && s'.camera.row.value.org == s.camera.row.value.org
      && FastExits(s') == FastExits(s) + [now] && !StreamSupervision.Degraded(s')
  {
    StartSpawns(s, now);
    var org := s.job.value.data.org;
    MoveKeepsExits(s, org, Connecting, now);
    MoveBreaker(s, org, now);
    var spawned := Do(Attempt(s, now), Spawn, now);
    assert spawned.camera == Move(s, org, Connecting, now).camera;
    hide Do, Attempt, Move, Inv, StreamHealth.IsDegraded, Unfit;
    DiesAtOnce(spawned, now);
  }

  lemma CycleInv(s: State, now: Time)
    requires Inv(s)
    ensures Inv(CrashCycle(s, now))
  {
    hide Inv, Step, Attempt;
    AttemptInv(s, now);
    var prepared := Attempt(s, now);
    StepInv(prepared, Timed(now, Spawn));
    var spawned := Do(prepared, Spawn, now);
    StepInv(spawned, Timed(now, FfStart));
    StepInv(Do(spawned, FfStart, now), Timed(now, FfError));
    var died := DiedAtOnce(s, now);
    StepInv(died, Timed(now, Verdict));
    StepInv(Do(died, Verdict, now), Timed(now, Rethrow));
  }

  lemma CycleCrashes(s: State, n: nat, now: Time)
    requires Crashed(s, n, now) && now > 0 && n < 5
    ensures Crashed(CrashCycle(s, now), n + 1, now)
  {
    CycleUpToDeath(s, n, now);
    CycleInv(s, now);
    var died, s' := DiedAtOnce(s, now), CrashCycle(s, now);
    JudgedInnocent(died, now);
    hide DiedAtOnce, Do, Inv, Attempt;
    assert s' == died.(run := NoRun, job := s'.job);
    assert FastExits(s') == FastExits(s) + [now];
    hide CrashCycle, FastExits, StreamHealth.IsDegraded;
    assert !Unfit(s'.job.value.data);
    hide Unfit;
  }

  lemma JudgedInnocent(s: State, now: Time)
    requires s.run == Rejected && |FastExits(s)| <= StreamHealth.CRASH_LOOP_THRESHOLD
    requires s.job.Some? && s.job.value.state == StreamQueue.Active && s.job.value.attemptsMade < 5
    ensures Do(Do(s, Verdict, now), Rethrow, now)
      == s.(run := NoRun,
            job := Some(s.job.value.(attemptsMade := s.job.value.attemptsMade + 1, state := StreamQueue.Waiting)))
  {
    assert Do(s, Verdict, now) == s.(run := GivingUp) by {
      hide OutsideStep, RestartStep;
    }
    hide OutsideStep, RestartStep, Judged;
  }

  function Crashes(s: State, n: nat, now: Time): State
    decreases n
  {
    if n == 0 then s else Crashes(CrashCycle(s, now), n - 1, now)
  }

  lemma {:induction false} CrashesCount(s: State, k: nat, n: nat, now: Time)
    requires Crashed(s, k, now) && now > 0 && k + n <= 5
    ensures Crashed(Crashes(s, n, now), k + n, now)
    decreases n
  {
    hide Crashed, CrashCycle;
    if n > 0 {
      CycleCrashes(s, k, now);
      CrashesCount(CrashCycle(s, now), k + 1, n - 1, now);
    }
  }

  /**
   From boot into the trap: five crashes, a stop that lands between the preparation of the sixth
   attempt and its spawn, and the sixth crash. The camera is offline with its breaker up.
   */
  lemma TrapIsReachable(s: State, now: Time)
    requires Initial(s) && now > 0
    requires s.job.Some? && s.job.value.state == StreamQueue.Waiting && s.job.value.attemptsMade == 0
    requires s.job.value.name == StreamQueue.StartJob && !Unfit(s.job.value.data)
    requires s.camera.row.Some? && s.camera.row.value.org == s.job.value.data.org
    ensures var prepared := Attempt(Crashes(s, 5, now), now);
      prepared.camera.row.Some? &&
      var died := Do(Do(Do(UserStop(prepared, now), Spawn, now), FfStart, now), FfError, now);
      Trapped(Do(Do(died, Verdict, now), Degrade, now))
  {
    hide Crashes, Do, Attempt, UserStop, Trapped;
    assert Crashed(s, 0, now) by {
      InitialInv(s);
    }
    hide Initial;
    CrashesCount(s, 0, 5, now);
    var crashed := Crashes(s, 5, now);
    PreparedForSixth(crashed, now);
    var prepared := Attempt(crashed, now);
    hide Attempt, Crashed;
    SixthCrashTraps(prepared, now);
  }

  lemma PreparedForSixth(s: State, now: Time)
    requires Crashed(s, 5, now)
    ensures var p := Attempt(s, now);
      && Inv(p) && p.run.Prepared? && p.camera.row.Some?
      && |FastExits(p)| == 5 && AllAt(FastExits(p), now)
  {
    AttemptInv(s, now);
    PicksUp(s, now);
    var admitted := Do(Do(s, Begin, now), Guard, now);
    MoveKeepsExits(admitted.(run := Ready(s.job.value.data.settings, true)), s.job.value.data.org, Connecting, now);
    hide Do, Inv, StreamHealth.IsDegraded, Unfit, Move;
    SubscribeStep(admitted, now);
    var subscribed := Do(admitted, Subscribe(true), now);
    CheckStep(subscribed, now);
    PrepareStep(Do(subscribed, CheckFingerprint, now), now);
  }

  lemma AttemptInv(s: State, now: Time)
    requires Inv(s)
    ensures Inv(Attempt(s, now))
  {
    hide Inv, Step;
    StepInv(s, Timed(now, Begin));
    var begun := Do(s, Begin, now);
    StepInv(begun, Timed(now, Guard));
    var admitted := Do(begun, Guard, now);
    StepInv(admitted, Timed(now, Subscribe(true)));
    var subscribed := Do(admitted, Subscribe(true), now);
    StepInv(subscribed, Timed(now, CheckFingerprint));
    var ready := Do(subscribed, CheckFingerprint, now);
    StepInv(ready, Timed(now, Prepare));
    StepInv(Do(ready, Prepare, now), Timed(now, WriteStatus));
  }

  lemma StopKeepsExits(s: State, now: Time)
    requires s.camera.row.Some? && s.process.None?
    ensures FastExits(UserStop(s, now)) == FastExits(s)
  {
    var s2 := s.(job := StreamQueue.Remove(s.job));
    var org := s.camera.row.value.org;
    StepOfOutside(s, Timed(now, Terminate));
    StepOfOutside(s, Timed(now, RemoveJob));
    StepOfOutside(s2, Timed(now, Transition(s.camera.row.value, Offline)));
    MoveKeepsExits(s2, org, Offline, now);
    hide Step, Move, StreamQueue.Remove, FastExits;
    assert UserStop(s, now) == Move(s2, org, Offline, now);
  }

  lemma SixthCrashTraps(s: State, now: Time)
    requires Inv(s) && s.run.Prepared? && s.camera.row.Some? && now > 0
    requires |FastExits(s)| == 5 && AllAt(FastExits(s), now)
    ensures var died := Do(Do(Do(UserStop(s, now), Spawn, now), FfStart, now), FfError, now);
      Trapped(Do(Do(died, Verdict, now), Degrade, now))
  {
    StopDuringPreparationIsLost(s, now);
    StopKeepsExits(s, now);
    StopInv(s, now);
    var stopped := UserStop(s, now);
    StepInv(stopped, Timed(now, Spawn));
    var spawned := Do(stopped, Spawn, now);
    assert FastExits(spawned) == FastExits(s) by {
      SpawnKeepsCamera(stopped, now);
    }
    StepInv(spawned, Timed(now, FfStart));
    hide Inv;
    DiesAtOnce(spawned, now);
    var started := Do(spawned, FfStart, now);
    StartStep(spawned, now);
    ErrorHealth(started, now);
    hide Do, UserStop, FastExits;
    CrashAfterLostStopTraps(started, now);
  }

  lemma StopInv(s: State, now: Time)
    requires Inv(s) && s.camera.row.Some?
    ensures Inv(UserStop(s, now))
  {
    hide Inv, Step;
    StepInv(s, Timed(now, Terminate));
    StepInv(Do(s, Terminate, now), Timed(now, RemoveJob));
    StepInv(Do(Do(s, Terminate, now), RemoveJob, now), Timed(now, Transition(s.camera.row.value, Offline)));
  }

  lemma SpawnKeepsCamera(s: State, now: Time)
    ensures Do(s, Spawn, now).camera == s.camera
  {
    hide OutsideStep, RestartStep;
  }

  /** The sixth fast exit makes a crash loop. */
  lemma ErrorHealth(s: State, now: Time)
    requires s.process.Some? && !s.process.value.marked
    ensures |FastExits(Do(s, FfError, now))| > StreamHealth.CRASH_LOOP_THRESHOLD
      ==> StreamHealth.InCrashLoop(StreamHealth.Exited(s.camera.health, now, false))
  {
    hide OutsideStep, RestartStep, StreamHealth.Within;
  }
}
