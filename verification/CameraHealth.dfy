/**
 The 60-second health tick: liveness of every camera that should be running, the miss counters,
 and the recovery of dead streams.
 */
module CameraHealth {
  import opened Common
  import FfmpegSupervisor
  import Recovery
  import StatusNotify
  import StreamHealth
  import StreamQueue

  const CACHE_STALE_MS := 300_000
  const RELOAD_EVERY_N_TICKS := 30

  /** Everything a tick can read or change of one camera; an absent miss counter is zero. */
  datatype CameraSlot = CameraSlot(
    camera: StatusNotify.Camera, running: bool, marked: bool, job: StreamQueue.Slot, misses: nat)

  /** A row of the tick's query: the source columns and the status at query time. */
  datatype Candidate = Candidate(source: StreamQueue.Source, status: Status)

  /** A camera after the restart detector has told these cameras to stop and enqueued these. */
  ghost function Resubmitted(s: CameraSlot, c: CameraId, stopped: seq<StreamQueue.Source>,
                             enqueued: seq<StreamQueue.Source>): CameraSlot {
    var s' := if Recovery.NotAmong(c, stopped) then s else s.(marked := s.marked || s.running);
    if Recovery.NotAmong(c, enqueued) then s'
    else
      var i :| 0 <= i < |enqueued| && enqueued[i].camera == c;
      s'.(job := Recovery.Enqueued(s.job, enqueued[i]))
  }

  predicate PushPassthrough(s: StreamQueue.Source) {
    s.push && !s.needsTranscode
  }

  datatype Verdict = Skipped | Tolerated | Healthy | EncoderGone | Dead

  function Misses(before: nat, srsAlive: bool): nat {
    if srsAlive then 0 else before + 1
  }

  /** The tick's judgement of one camera. */
  function Judge(s: CameraSlot, source: StreamQueue.Source, srsAlive: bool, now: Time): Verdict {
    var push := PushPassthrough(source);
    var misses := Misses(s.misses, srsAlive);
    if StreamHealth.IsDegraded(s.camera.health) then Skipped
    else if !srsAlive && !push && s.running && misses < StreamHealth.Tolerance(s.camera.health, now) then Tolerated
    else if push then (if srsAlive then Healthy else EncoderGone)
    else if s.running && srsAlive then Healthy
    else Dead
  }

  /** What happens to a camera found dead. */
  function Recovered(s: CameraSlot, candidate: Candidate, now: Time): CameraSlot {
    var source := candidate.source;
    var bumped := if candidate.status == Online
                  then s.(camera := s.camera.(health := StreamHealth.Bumped(s.camera.health))) else s;
    var moved := bumped.(camera := StatusNotify.Transitioned(bumped.camera, source.org, Reconnecting, now));
    if PushPassthrough(source) then moved
    else moved.(marked := s.marked || s.running,
                job := StreamQueue.TickEnqueued(s.job, StreamQueue.BuildStreamJobData(source)))
  }

  /** One camera's turn in a tick. */
  function TickCamera(s: CameraSlot, candidate: Candidate, srsAlive: bool, now: Time): CameraSlot {
    var source := candidate.source;
    var verdict := Judge(s, source, srsAlive, now);
    if verdict == Skipped then s
    else
      var read := s.(camera := s.camera.(health := StreamHealth.ToleranceRead(s.camera.health, now)),
                     misses := Misses(s.misses, srsAlive));
      if verdict == Tolerated || verdict == Healthy then read else Recovered(read, candidate, now)
  }

  /** The breaker: the liveness pass leaves a degraded camera exactly as it is. */
  lemma DegradedIsUntouched(s: CameraSlot, candidate: Candidate, srsAlive: bool, now: Time)
    ensures StreamHealth.IsDegraded(s.camera.health) ==> TickCamera(s, candidate, srsAlive, now) == s
    ensures !StreamHealth.IsDegraded(s.camera.health) && !srsAlive ==> TickCamera(s, candidate, srsAlive, now) != s
  {
    if !StreamHealth.IsDegraded(s.camera.health) && !srsAlive {
      assert TickCamera(s, candidate, srsAlive, now).misses == s.misses + 1;
    }
  }

  // ---- What a turn does ----

  /** SRS has lacked the stream for as many ticks in a row as the camera's tolerance. */
  predicate LongGone(s: CameraSlot, srsAlive: bool, now: Time) {
    !srsAlive && s.misses + 1 >= StreamHealth.Tolerance(s.camera.health, now)
  }

  /**
   A camera whose encoder publishes by itself is dead when SRS lacks its stream. Any other is dead
   when FFmpeg is gone, or when SRS has lacked the stream for long enough.
   */
  predicate IsDead(s: CameraSlot, source: StreamQueue.Source, srsAlive: bool, now: Time) {
    if source.push && !source.needsTranscode then !srsAlive else !s.running || LongGone(s, srsAlive, now)
  }

  /**
   Status and process: exactly the dead connecting and online cameras of the candidate's organisation
   go to reconnecting, with a notification due for each outside maintenance, and exactly the
   processes whose stream is long gone are told to stop.
   */
  predicate StatusTurned(s: CameraSlot, candidate: Candidate, srsAlive: bool, now: Time, s': CameraSlot) {
    var source, row := candidate.source, s.camera.row;
    var leaves := IsDead(s, source, srsAlive, now) && row.Some? && row.value.org == source.org
                  && (row.value.status == Connecting || row.value.status == Online);
    var told := leaves && !row.value.maintenance && !(s.camera.notify.Some? && s.camera.notify.value.active);
    var stopped := s.running && !(source.push && !source.needsTranscode) && LongGone(s, srsAlive, now);
    && s'.misses == (if srsAlive then 0 else s.misses + 1)
    && s'.running == s.running
    && s'.marked == (s.marked || stopped)
    && s'.camera.row == (if leaves then Some(row.value.(status := Reconnecting)) else row)
    && s'.camera.notify ==
         if told then Some(StatusNotify.NotifyJob(Reconnecting, row.value.status, now + 30_000, false))
         else s.camera.notify
  }

  /** The tolerance of a dead camera that its query found online is raised by one, up to four. */
  predicate ToleranceTurned(s: CameraSlot, candidate: Candidate, srsAlive: bool, now: Time, s': CameraSlot) {
    var before := StreamHealth.Tolerance(s.camera.health, now);
    var raised := IsDead(s, candidate.source, srsAlive, now) && candidate.status == Online && before < 4;
    StreamHealth.RecordOf(s'.camera.health).customMissTolerance.GetOr(2) == if raised then before + 1 else before
  }

  /** A dead camera that runs FFmpeg gets a start job if it has none, or an idle worn-out one. */
  predicate JobTurned(s: CameraSlot, candidate: Candidate, srsAlive: bool, now: Time, s': CameraSlot) {
    var source := candidate.source;
    var vacant := s.job.None? || (s.job.value.name == StreamQueue.StartJob && s.job.value.attemptsMade >= 3
                                       && s.job.value.state != StreamQueue.Active);
    var start := StreamQueue.Job(
      StreamQueue.StartJob, StreamQueue.BuildStreamJobData(source), 0, StreamQueue.Waiting);
    s'.job ==
      if IsDead(s, source, srsAlive, now) && !(source.push && !source.needsTranscode) && vacant
      then Some(start) else s.job
  }

  /** All that one turn does: with the breaker up nothing, else these three, and the breaker stays down. */
  ghost predicate Turned(s: CameraSlot, candidate: Candidate, srsAlive: bool, now: Time, s': CameraSlot) {
    if StreamHealth.IsDegraded(s.camera.health) then s' == s
    else
      && StatusTurned(s, candidate, srsAlive, now, s')
      && JobTurned(s, candidate, srsAlive, now, s')
      && (StreamHealth.Bounded(s.camera.health) ==> ToleranceTurned(s, candidate, srsAlive, now, s'))
      && !StreamHealth.IsDegraded(s'.camera.health)
  }

  lemma TickOutcome(s: CameraSlot, candidate: Candidate, srsAlive: bool, now: Time)
    ensures Turned(s, candidate, srsAlive, now, TickCamera(s, candidate, srsAlive, now))
  {
    DegradedIsUntouched(s, candidate, srsAlive, now);
    if !StreamHealth.IsDegraded(s.camera.health) {
      TickStatus(s, candidate, srsAlive, now);
      TickJob(s, candidate, srsAlive, now);
      TickTolerance(s, candidate, srsAlive, now);
    }
    hide StatusTurned, JobTurned, ToleranceTurned, TickCamera, StreamHealth.IsDegraded, StreamHealth.Bounded;
  }

  lemma TickStatus(s: CameraSlot, candidate: Candidate, srsAlive: bool, now: Time)
    requires !StreamHealth.IsDegraded(s.camera.health)
    ensures StatusTurned(s, candidate, srsAlive, now, TickCamera(s, candidate, srsAlive, now))
  {
    StatusNotify.TransitionOutcome(s.camera, candidate.source.org, Reconnecting, now);
    hide StreamHealth.ToleranceRead, StreamHealth.Bumped, StreamHealth.Tolerance, StreamHealth.IsDegraded;
    hide StreamHealth.Changed, StreamQueue.TickEnqueued, StreamQueue.BuildStreamJobData;
  }

  lemma TickTolerance(s: CameraSlot, candidate: Candidate, srsAlive: bool, now: Time)
    requires !StreamHealth.IsDegraded(s.camera.health)
    ensures var s' := TickCamera(s, candidate, srsAlive, now);
      && (StreamHealth.Bounded(s.camera.health) ==> ToleranceTurned(s, candidate, srsAlive, now, s'))
      && !StreamHealth.IsDegraded(s'.camera.health)
  {
    var read := StreamHealth.ToleranceRead(s.camera.health, now);
    AdaptedTolerance(s.camera.health, now);
    MoveKeepsTolerance(s.camera.(health := read), candidate.source.org, now);
    MoveKeepsTolerance(s.camera.(health := StreamHealth.Bumped(read)), candidate.source.org, now);
    hide StreamHealth.ToleranceRead, StreamHealth.Bumped, StreamHealth.Tolerance, StreamHealth.IsDegraded;
    hide StatusNotify.Transitioned, StreamQueue.TickEnqueued, StreamQueue.BuildStreamJobData, StreamHealth.Bounded;
  }

  lemma AdaptedTolerance(h: StreamHealth.Slot, now: Time)
    ensures var read, t := StreamHealth.ToleranceRead(h, now), StreamHealth.Tolerance(h, now);
      var bumped := StreamHealth.Bumped(read);
      && StreamHealth.RecordOf(read).customMissTolerance.GetOr(2) == t
      && (StreamHealth.Bounded(h) ==>
            StreamHealth.RecordOf(bumped).customMissTolerance.GetOr(2) == if t < 4 then t + 1 else t)
      && StreamHealth.IsDegraded(bumped) == StreamHealth.IsDegraded(read) == StreamHealth.IsDegraded(h)
  {}

  lemma MoveKeepsTolerance(c: StatusNotify.Camera, org: OrgId, now: Time)
    ensures var h := StatusNotify.Transitioned(c, org, Reconnecting, now).health;
      && StreamHealth.RecordOf(h).customMissTolerance == StreamHealth.RecordOf(c.health).customMissTolerance
      && (!StreamHealth.IsDegraded(c.health) ==> !StreamHealth.IsDegraded(h))
  {
    hide StreamHealth.RecentTransitions;
  }

  lemma TickJob(s: CameraSlot, candidate: Candidate, srsAlive: bool, now: Time)
    requires !StreamHealth.IsDegraded(s.camera.health)
    ensures JobTurned(s, candidate, srsAlive, now, TickCamera(s, candidate, srsAlive, now))
  {
    StreamQueue.EnqueueOutcome(s.job, StreamQueue.BuildStreamJobData(candidate.source));
    hide StreamHealth.ToleranceRead, StreamHealth.Bumped, StreamHealth.Tolerance, StreamHealth.IsDegraded;
    hide StatusNotify.Transitioned, StreamQueue.TickEnqueued, StreamQueue.BuildStreamJobData;
  }

  // ---- Kill bounds over a run of ticks ----

  /**
   One tick's visit to a camera. Between visits everything but the miss counter may have changed
   in any way, so each visit brings its own state.
   */
  datatype Visit = Visit(slot: CameraSlot, candidate: Candidate, srsAlive: bool, now: Time)

  predicate Evaluated(v: Visit) {
    !StreamHealth.IsDegraded(v.slot.camera.health)
  }

  function After(v: Visit): CameraSlot {
    TickCamera(v.slot, v.candidate, v.srsAlive, v.now)
  }

  /** A running FFmpeg that may be stopped and has not been told to. */
  predicate Stoppable(v: Visit) {
    Evaluated(v) && v.slot.running && !v.slot.marked
    && !(v.candidate.source.push && !v.candidate.source.needsTranscode)
  }

  /** The turn tells the running FFmpeg to stop. */
  predicate Stops(v: Visit) {
    v.slot.running && !v.slot.marked && After(v).marked
  }

  /** The miss counter is carried from visit to visit, starting from none. */
  ghost predicate Chained(visits: seq<Visit>) {
    forall i | 0 <= i < |visits| :: visits[i].slot.misses == MissesBefore(visits, i)
  }

  function MissesBefore(visits: seq<Visit>, i: nat): nat
    requires i < |visits|
  {
    if i == 0 then 0 else After(visits[i - 1]).misses
  }

  /** How many of the latest evaluated visits in a row found the stream missing from SRS. */
  function AbsentStreak(visits: seq<Visit>): nat {
    if visits == [] then 0
    else
      var v := visits[|visits| - 1];
      var before := AbsentStreak(visits[..|visits| - 1]);
      if !Evaluated(v) then before else if v.srsAlive then 0 else before + 1
  }

  lemma ChainedPrefix(visits: seq<Visit>, n: nat)
    requires Chained(visits) && n <= |visits|
    ensures Chained(visits[..n])
  {
    hide After;
    forall i | 0 <= i < n ensures visits[..n][i].slot.misses == MissesBefore(visits[..n], i) {
      assert visits[i].slot.misses == MissesBefore(visits, i);
    }
  }

  lemma {:induction false} MissesAreStreak(visits: seq<Visit>)
    requires Chained(visits)
    ensures visits != [] ==> After(visits[|visits| - 1]).misses == AbsentStreak(visits)
  {
    if visits != [] {
      hide After, Evaluated;
      var n := |visits| - 1;
      ChainedPrefix(visits, n);
      assert visits[n].slot.misses == MissesBefore(visits, n);
      MissesAreStreak(visits[..n]);
      AfterMisses(visits[n]);
    }
  }

  lemma AfterMisses(v: Visit)
    ensures After(v).misses == if Evaluated(v) then Misses(v.slot.misses, v.srsAlive) else v.slot.misses
  {
    hide StreamHealth.ToleranceRead, StreamHealth.Bumped, StreamHealth.Tolerance, StatusNotify.Transitioned;
    hide StreamQueue.TickEnqueued, StreamQueue.BuildStreamJobData;
  }

  /**
   Over any run of ticks, a running FFmpeg is stopped exactly when SRS has lacked the stream in
   as many consecutive evaluated ticks as the current tolerance; with the tolerance between two
   and four that is never before the second and never after the fourth.
   */
  lemma KillBounds(visits: seq<Visit>)
    requires Chained(visits) && visits != []
    requires StreamHealth.Bounded(visits[|visits| - 1].slot.camera.health)
    ensures var v := visits[|visits| - 1];
      var streak := AbsentStreak(visits);
      && (Stops(v) <==> Stoppable(v) && streak >= StreamHealth.Tolerance(v.slot.camera.health, v.now))
      && (Stops(v) ==> streak >= 2)
      && (Stoppable(v) && streak >= 4 ==> Stops(v))
  {
    var v := visits[|visits| - 1];
    MissesAreStreak(visits);
    AfterMisses(v);
    DegradedIsUntouched(v.slot, v.candidate, v.srsAlive, v.now);
    if Evaluated(v) {
      TickStatus(v.slot, v.candidate, v.srsAlive, v.now);
    }
    hide Chained, TickCamera, AbsentStreak;
  }

  // ---- The service ----

  class CameraHealthService {
    const detector: Recovery.SrsRestartDetector
    const status: StatusNotify.StatusService
    const ffmpeg: FfmpegSupervisor.FfmpegService := detector.ffmpeg
    const queue: StreamQueue.Queue := detector.queue
    var tickCount: nat
    var srsStreamIdsCache: set<CameraId>
    var srsCacheUpdatedAt: Time
    var missCounters: map<CameraId, nat>

    constructor (detector: Recovery.SrsRestartDetector, status: StatusNotify.StatusService)
      ensures this.detector == detector && this.status == status
      ensures tickCount == 0 && srsStreamIdsCache == {} && srsCacheUpdatedAt == 0 && missCounters == map[]
    {
      this.detector, this.status := detector, status;
      tickCount, srsStreamIdsCache, srsCacheUpdatedAt, missCounters := 0, {}, 0, map[];
    }

    function SlotOf(c: CameraId): CameraSlot
      reads `missCounters, ffmpeg, status, status.health, queue
    {
      CameraSlot(status.CameraOf(c), ffmpeg.IsRunning(c), c in ffmpeg.intentionalStops, queue.SlotOf(c),
                 if c in missCounters then missCounters[c] else 0)
    }

    method EnqueueStart(source: StreamQueue.Source)
      modifies queue
      ensures queue.SlotOf(source.camera)
        == StreamQueue.TickEnqueued(old(queue.SlotOf(source.camera)), StreamQueue.BuildStreamJobData(source))
      ensures var c := source.camera;
        var kept := c in old(queue.jobs) && var job := old(queue.jobs)[c];
          job.name == StreamQueue.RestartJob || job.attemptsMade < 3 || job.state == StreamQueue.Active;
        var start := StreamQueue.Job(
          StreamQueue.StartJob, StreamQueue.BuildStreamJobData(source), 0, StreamQueue.Waiting);
        queue.SlotOf(c) == if kept then old(queue.SlotOf(c)) else Some(start)
      ensures forall d | d != source.camera :: queue.SlotOf(d) == old(queue.SlotOf(d))
    {
      StreamQueue.EnqueueOutcome(queue.SlotOf(source.camera), StreamQueue.BuildStreamJobData(source));
      var c := source.camera;
      if c in queue.jobs {
        var existing := queue.jobs[c];
        if existing.name == StreamQueue.RestartJob {
          return;
        }
        if existing.attemptsMade >= StreamQueue.STUCK_ATTEMPTS_THRESHOLD {
          var _ := queue.RemoveJob(c);
        }
      }
      queue.AddJob(c, StreamQueue.StartJob, StreamQueue.BuildStreamJobData(source));
    }

    /** The recovery of a dead camera. Without FFmpeg of its own a push camera only changes status. */
    method Recover(candidate: Candidate, now: Time)
      requires FfmpegSupervisor.Inv(ffmpeg.View())
      modifies ffmpeg, status, status.health, queue
      ensures FfmpegSupervisor.Inv(ffmpeg.View())
      ensures SlotOf(candidate.source.camera) == Recovered(old(SlotOf(candidate.source.camera)), candidate, now)
      ensures forall d | d != candidate.source.camera :: SlotOf(d) == old(SlotOf(d))
    {
      hide StreamHealth.Bumped, StatusNotify.Transitioned, StatusNotify.TransitionResult;
      hide StreamQueue.TickEnqueued, StreamQueue.BuildStreamJobData, StreamHealth.StreamHealthMetricsService.SlotOf;
      hide FfmpegSupervisor.Inv;
      var source := candidate.source;
      var c := source.camera;
      if candidate.status == Online {
        status.health.BumpMissTolerance(c);
      }
      if source.push && !source.needsTranscode {
        var _ := status.Transition(c, source.org, Reconnecting, now);
        return;
      }
      ffmpeg.StopIfRunning(c);
      var _ := status.Transition(c, source.org, Reconnecting, now);
      EnqueueStart(source);
    }

    /** One camera's turn; no other camera is touched. */
    method TickOne(candidate: Candidate, srsAlive: bool, now: Time)
      requires FfmpegSupervisor.Inv(ffmpeg.View())
      modifies `missCounters, ffmpeg, status, status.health, queue
      ensures FfmpegSupervisor.Inv(ffmpeg.View())
      ensures SlotOf(candidate.source.camera)
        == TickCamera(old(SlotOf(candidate.source.camera)), candidate, srsAlive, now)
      ensures Turned(old(SlotOf(candidate.source.camera)), candidate, srsAlive, now, SlotOf(candidate.source.camera))
      ensures forall d | d != candidate.source.camera :: SlotOf(d) == old(SlotOf(d))
    {
      TickOutcome(SlotOf(candidate.source.camera), candidate, srsAlive, now);
      hide Turned;
      hide StreamHealth.IsDegraded, StreamHealth.Tolerance, StreamHealth.ToleranceRead, Recovered;
      hide FfmpegSupervisor.Inv, StreamHealth.StreamHealthMetricsService.SlotOf;
      var source := candidate.source;
      var c := source.camera;
      if StreamHealth.IsDegraded(status.health.SlotOf(c)) {
        return;
      }
      var isPushPassthrough := source.push && !source.needsTranscode;
      var ffmpegAlive := ffmpeg.IsRunning(c);
      var tolerance := status.health.GetMissTolerance(c, now);
      if srsAlive {
        missCounters := missCounters - {c};
      } else {
        var misses := (if c in missCounters then missCounters[c] else 0) + 1;
        missCounters := missCounters[c := misses];
        if !isPushPassthrough && ffmpegAlive && misses < tolerance {
          return;
        }
      }
      var dead := if isPushPassthrough then !srsAlive else !ffmpegAlive || !srsAlive;
      if !dead {
        return;
      }
      Recover(candidate, now);
    }

    /** The last step of a tick, camera by camera. */
    method LivenessPass(cameras: seq<Candidate>, srsStreamIds: set<CameraId>, now: Time)
      requires FfmpegSupervisor.Inv(ffmpeg.View())
      requires forall i, j | 0 <= i < j < |cameras| :: cameras[i].source.camera != cameras[j].source.camera
      modifies `missCounters, ffmpeg, status, status.health, queue
      ensures FfmpegSupervisor.Inv(ffmpeg.View())
      ensures forall i | 0 <= i < |cameras| ::
        var c := cameras[i].source.camera;
        SlotOf(c) == TickCamera(old(SlotOf(c)), cameras[i], c in srsStreamIds, now)
      ensures forall d | (forall i | 0 <= i < |cameras| :: cameras[i].source.camera != d) :: SlotOf(d) == old(SlotOf(d))
    {
      hide TickCamera, SlotOf, FfmpegSupervisor.Inv;
      for k := 0 to |cameras|
        invariant FfmpegSupervisor.Inv(ffmpeg.View())
        invariant forall i | 0 <= i < k ::
          var c := cameras[i].source.camera;
          SlotOf(c) == TickCamera(old(SlotOf(c)), cameras[i], c in srsStreamIds, now)
        invariant forall d | (forall i | 0 <= i < k :: cameras[i].source.camera != d) :: SlotOf(d) == old(SlotOf(d))
      {
        TickOne(cameras[k], cameras[k].source.camera in srsStreamIds, now);
      }
    }

    /** The detector's turn, camera by camera. */
    method Detect(summaries: Option<Recovery.Summaries>, affected: Option<seq<StreamQueue.Source>>, accepted: nat)
      returns (fired: bool, r: Result<(), Recovery.Failure>)
      requires FfmpegSupervisor.Inv(ffmpeg.View()) && Recovery.Distinct(affected.GetOr([]))
      modifies detector, ffmpeg, queue
      ensures FfmpegSupervisor.Inv(ffmpeg.View())
      ensures (detector.View(), fired) == Recovery.Observed(old(detector.View()),
        Recovery.Observation(Recovery.ServerId(summaries), Recovery.Handles(affected, accepted)))
      ensures r.Ok? <==> !fired || Recovery.Handles(affected, accepted)
      ensures var stopped, enqueued :=
          Recovery.First(fired, affected, accepted + 1), Recovery.First(fired, affected, accepted);
        forall c :: SlotOf(c) == Resubmitted(old(SlotOf(c)), c, stopped, enqueued)
    {
      hide FfmpegSupervisor.Inv, StatusNotify.StatusService.CameraOf, Recovery.Observed, Recovery.Enqueued;
      fired, r := detector.DetectAndHandle(summaries, affected, accepted);
    }

    /**
     A tick. `summaries`, `affected` and `accepted` are what the restart detector gets, `cameras` the
     rows that the tick's own query found, each camera once, absent when it failed, and `srs` the
     media server's streams, absent when the call failed. A detector or a query that throws ends the
     tick. Without a usable stream set nothing is judged.
     */
    method RunTick(summaries: Option<Recovery.Summaries>, affected: Option<seq<StreamQueue.Source>>, accepted: nat,
                   cameras: Option<seq<Candidate>>, srs: Option<set<CameraId>>, now: Time)
      returns (reloaded: bool, fired: bool, r: Result<(), Recovery.Failure>)
      requires FfmpegSupervisor.Inv(ffmpeg.View()) && Recovery.Distinct(affected.GetOr([]))
      requires var rows := cameras.GetOr([]);
        forall i, j | 0 <= i < j < |rows| :: rows[i].source.camera != rows[j].source.camera
      modifies this, detector, ffmpeg, status, status.health, queue
      ensures FfmpegSupervisor.Inv(ffmpeg.View())
      ensures tickCount == old(tickCount) + 1 && reloaded == (tickCount % 30 == 0)
      ensures (detector.View(), fired) == Recovery.Observed(old(detector.View()),
        Recovery.Observation(Recovery.ServerId(summaries), Recovery.Handles(affected, accepted)))
      ensures r.Ok? <==> (!fired || (affected.Some? && |affected.value| <= accepted)) && cameras.Some?
      ensures srsStreamIdsCache == if r.Ok? then srs.GetOr(old(srsStreamIdsCache)) else old(srsStreamIdsCache)
      ensures srsCacheUpdatedAt == if r.Ok? && srs.Some? then now else old(srsCacheUpdatedAt)
      ensures var stopped, enqueued :=
          Recovery.First(fired, affected, accepted + 1), Recovery.First(fired, affected, accepted);
        // A fresh answer, else the last one if it is less than five minutes old.
        var known :=
          if r.Err? then None
          else if srs.Some? then srs
          else if old(srsCacheUpdatedAt) > 0 && now < old(srsCacheUpdatedAt) + 300_000 then Some(old(srsStreamIdsCache))
          else None;
        var rows := cameras.GetOr([]);
        && (forall i | 0 <= i < |rows| ::
              var c := rows[i].source.camera;
              var slot := Resubmitted(old(SlotOf(c)), c, stopped, enqueued);
              SlotOf(c) == if known.None? then slot else TickCamera(slot, rows[i], c in known.value, now))
        && (forall d | (forall i | 0 <= i < |rows| :: rows[i].source.camera != d) ::
              SlotOf(d) == Resubmitted(old(SlotOf(d)), d, stopped, enqueued))
    {
      hide TickCamera, FfmpegSupervisor.Inv, StatusNotify.StatusService.CameraOf, Resubmitted;
      tickCount := tickCount + 1;
      reloaded := tickCount % RELOAD_EVERY_N_TICKS == 0;
      fired, r := Detect(summaries, affected, accepted);
      if r.Err? {
        return;
      }
      if cameras.None? {
        r := Err(Recovery.QueryFailed);
        return;
      }
      var srsStreamIds: set<CameraId>;
      if srs.None? {
        if srsCacheUpdatedAt > 0 && now - srsCacheUpdatedAt < CACHE_STALE_MS {
          srsStreamIds := srsStreamIdsCache;
        } else {
          return;
        }
      } else {
        srsStreamIds := srs.value;
        srsStreamIdsCache := srsStreamIds;
        srsCacheUpdatedAt := now;
      }
      assert cameras.GetOr([]) == cameras.value;
      LivenessPass(cameras.value, srsStreamIds, now);
    }
  }
}
