/**
 The health record of a camera over whole runs of its life.

 `StreamHealth` says what the service reports in terms of what it has been told. Here is what it is
 told in a run, so that its statements hold of every run of the worker and the outside.
 */
module HealthRuns {
  import opened Common
  import opened StreamSupervision
  import StatusNotify
  import StreamHealth
  import StreamQueue

  /** What a step tells the health service about the camera, if anything. */
  function Told(s: State, e: Event): Option<StreamHealth.Event> {
    match e
    case FfStart => if s.process.Some? then Some(StreamHealth.StartEvent) else None
    case FfError => if s.process.Some? then Some(StreamHealth.ExitEvent(s.process.value.marked)) else None
    case FfEnd => if s.process.Some? then Some(StreamHealth.ExitEvent(true)) else None
    case Verdict =>
      if s.run == Rejected && |StreamHealth.FastExits(s.camera.health)| > 5 then Some(StreamHealth.MarkEvent) else None
    case WriteStatus =>
      if s.seen.None? || s.camera.row.None? then None
      else Some(StreamHealth.ChangeEvent(s.seen.value.status, Target(s)))
    case Transition(read, to) =>
      if s.camera.row.None? || read.status == to || StatusNotify.Barred(read.status, to) then None
      else Some(StreamHealth.ChangeEvent(read.status, to))
    case ReadTolerance => Some(StreamHealth.ToleranceEvent)
    case BumpTolerance => Some(StreamHealth.BumpEvent)
    case Snapshot => Some(StreamHealth.SnapshotEvent)
    case _ => None
  }

  function Notices(s: State, t: Timed): seq<StreamHealth.Timed> {
    var told := Told(s, t.event);
    if told.Some? then [StreamHealth.Timed(t.at, told.value)] else []
  }

  /** The health record after some more notices. */
  function Noted(h: StreamHealth.Slot, notices: seq<StreamHealth.Timed>): StreamHealth.Slot
    decreases |notices|
  {
    if notices == [] then h else Noted(StreamHealth.Step(h, notices[0]), notices[1..])
  }

  lemma StepTells(s: State, t: Timed)
    ensures Step(s, t).camera.health == Noted(s.camera.health, Notices(s, t))
  {
    hide StreamHealth.Step;
    var told := Told(s, t.event);
    if told.Some? {
      var notices := [StreamHealth.Timed(t.at, told.value)];
      assert notices[1..] == [];
      assert Noted(s.camera.health, notices) == StreamHealth.Step(s.camera.health, notices[0]);
    }
    TellsOnce(s, t);
    hide Step, Told, Noted;
  }

  lemma TellsOnce(s: State, t: Timed)
    ensures Step(s, t).camera.health ==
      var told := Told(s, t.event);
      if told.Some? then StreamHealth.Step(s.camera.health, StreamHealth.Timed(t.at, told.value)) else s.camera.health
  {
    hide Step;
    if RestartEvent(t.event) {
      StepOfRestart(s, t);
    } else if ProfileEvent(t.event) {
      ProfileFrame(s, t.event);
      StepOfProfile(s, t);
      hide ProfileStep;
    } else if Outside(t.event) {
      StepOfOutside(s, t);
      OutsideTells(s, t);
    } else {
      StepOfWorker(s, t);
      WorkerTells(s, t);
    }
  }

  lemma StepOfRestart(s: State, t: Timed)
    requires RestartEvent(t.event)
    ensures Step(s, t).camera == s.camera
  {
    if t.event.restart in s.restarts {
      RestartFrame(s, t.event);
    }
    hide RestartStep, ProfileStep, OutsideStep, WorkerStep;
  }

  lemma OutsideTells(s: State, t: Timed)
    requires Outside(t.event) && !RestartEvent(t.event) && !ProfileEvent(t.event)
    ensures OutsideStep(s, t.event, t.at).camera.health ==
      var told := Told(s, t.event);
      if told.Some? then StreamHealth.Step(s.camera.health, StreamHealth.Timed(t.at, told.value)) else s.camera.health
  {
    hide StreamHealth.Changed, StreamHealth.Bumped, StreamHealth.ToleranceRead, StreamHealth.Trimmed;
  }

  lemma WorkerTells(s: State, t: Timed)
    requires !Outside(t.event)
    ensures WorkerStep(s, t.event, t.at).camera.health ==
      var told := Told(s, t.event);
      if told.Some? then StreamHealth.Step(s.camera.health, StreamHealth.Timed(t.at, told.value)) else s.camera.health
  {
    hide StreamHealth.Changed, StreamHealth.Exited, StreamHealth.Marked, StreamHealth.Started, StreamHealth.IsDegraded;
    hide StatusNotify.TransitionResult, StatusNotify.Changes, Unfit, FingerprintDiffers;
  }

  // ---- Runs ----

  /** All that the health service is told in a run. */
  function Log(s: State, events: seq<Timed>): seq<StreamHealth.Timed>
    decreases |events|
  {
    if events == [] then [] else Notices(s, events[0]) + Log(Step(s, events[0]), events[1..])
  }

  lemma {:induction false} NotedTwice(h: StreamHealth.Slot, a: seq<StreamHealth.Timed>, b: seq<StreamHealth.Timed>)
    ensures Noted(h, a + b) == Noted(Noted(h, a), b)
    decreases |a|
  {
    if a == [] {
      assert a + b == b;
    } else {
      assert (a + b)[1..] == a[1..] + b;
      NotedTwice(StreamHealth.Step(h, a[0]), a[1..], b);
    }
  }

  lemma {:induction false} AfterIsNoted(s: State, events: seq<Timed>)
    ensures After(s, events).camera.health == Noted(s.camera.health, Log(s, events))
    decreases |events|
  {
    if events != [] {
      hide Noted, Notices, Step;
      StepTells(s, events[0]);
      AfterIsNoted(Step(s, events[0]), events[1..]);
      NotedTwice(s.camera.health, Notices(s, events[0]), Log(Step(s, events[0]), events[1..]));
    } else {
      assert Noted(s.camera.health, []) == s.camera.health;
    }
  }

  /** Told one by one or as one list: the record is the same. */
  lemma {:induction false} NotedIsRun(notices: seq<StreamHealth.Timed>)
    ensures Noted(StreamHealth.NEW_SLOT, notices) == StreamHealth.Run(notices)
    decreases |notices|
  {
    if notices != [] {
      var n := |notices| - 1;
      var last := notices[n];
      assert notices == notices[..n] + [last];
      NotedTwice(StreamHealth.NEW_SLOT, notices[..n], [last]);
      NotedIsRun(notices[..n]);
      var h := StreamHealth.Run(notices[..n]);
      hide StreamHealth.Step;
      assert Noted(h, [last]) == StreamHealth.Step(h, last) by {
        assert [last][1..] == [];
      }
    }
  }

  /** From boot, the record in every run is the one that its log leaves. */
  lemma HealthIsLog(s: State, events: seq<Timed>)
    requires Initial(s)
    ensures After(s, events).camera.health == StreamHealth.Run(Log(s, events))
  {
    AfterIsNoted(s, events);
    NotedIsRun(Log(s, events));
  }

  // ---- What follows ----

  ghost predicate Ordered(events: seq<Timed>) {
    forall i, j | 0 <= i < j < |events| :: events[i].at <= events[j].at
  }

  /** The notices of a run come at times of its events, in their order. */
  lemma {:induction false} LogIsOrdered(s: State, events: seq<Timed>, from: Time, now: Time)
    requires Ordered(events) && forall i | 0 <= i < |events| :: from <= events[i].at <= now
    ensures StreamHealth.Ordered(Log(s, events))
    ensures forall i | 0 <= i < |Log(s, events)| :: from <= Log(s, events)[i].at <= now
    decreases |events|
  {
    if events != [] {
      hide Step, Told;
      LogIsOrdered(Step(s, events[0]), events[1..], events[0].at, now);
    }
  }

  /** By the log, how many processes died unasked within ten seconds of their start, in the ten minutes up to `now`. */
  ghost function FastCrashes(log: seq<StreamHealth.Timed>, now: Time): nat {
    |StreamHealth.Within(StreamHealth.FastExitLog(log, |log|), now, 600_000)|
  }

  /**
   In every run from boot, when the worker judges a crash: the breaker is raised whenever more than
   five processes of the camera have died within ten seconds of their start, without having been told
   to, in the last ten minutes; and judged at the time of the crash it is raised only then.
   */
  lemma CrashLoopInEveryRun(s: State, events: seq<Timed>, now: Time)
    requires Initial(s) && Ordered(events) && forall i | 0 <= i < |events| :: events[i].at <= now
    requires After(s, events).run == Rejected
    ensures var log := Log(s, events);
      var raised := Do(After(s, events), Verdict, now).run == Degrading;
      && (FastCrashes(log, now) > 5 ==> raised)
      && (log != [] && log[|log| - 1] == StreamHealth.Timed(now, StreamHealth.ExitEvent(false)) ==>
            (raised <==> FastCrashes(log, now) > 5))
  {
    var log, s' := Log(s, events), After(s, events);
    HealthIsLog(s, events);
    LogIsOrdered(s, events, 0, now);
    StreamHealth.VerdictRefinesHistory(log, now);
    VerdictIsJudged(s', now);
    hide After, Log, Step, StreamHealth.Within, StreamHealth.FastExitLog, StreamHealth.Run, StreamHealth.Ordered;
    hide Initial;
  }

  /** In every run from boot the tolerance is what its log makes it, so the tick's bounds are about the run. */
  lemma ToleranceInEveryRun(s: State, events: seq<Timed>, now: Time)
    requires Initial(s)
    ensures var log := Log(s, events);
      var bumps := StreamHealth.Bumps(log, |log|);
      StreamHealth.Tolerance(After(s, events).camera.health, now)
        == if StreamHealth.LongSpell(log, now) || bumps == 0 then 2 else if bumps == 1 then 3 else 4
  {
    var log := Log(s, events);
    HealthIsLog(s, events);
    StreamHealth.ToleranceIsHistory(log, |log|, now);
    assert log[..|log|] == log;
    hide StreamHealth.Tolerance, StreamHealth.Bumps, StreamHealth.LongSpell, After, Log, Initial;
  }

  /** In every run from boot the flag is up exactly while a mark in its log has no change to another status after it. */
  lemma BreakerInEveryRun(s: State, events: seq<Timed>)
    requires Initial(s)
    ensures StreamSupervision.Degraded(After(s, events)) <==> exists i: nat ::
      StreamHealth.StandingMark(Log(s, events), i)
  {
    HealthIsLog(s, events);
    StreamHealth.BreakerIsHistory(Log(s, events));
  }
}
