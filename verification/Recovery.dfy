/** Recovery without a user: restarts of the media server, and the boot of the service. */
module Recovery {
  import opened Common
  import opened Text
  import FfmpegSupervisor
  import StreamQueue

  /** What the media server says about itself: the instance id, and its process id. */
  datatype Summaries = Summaries(service: Option<string>, pid: Option<nat>)

  /** The instance id, else the process id in decimal, else nothing. */
  function ServerId(summaries: Option<Summaries>): Option<string> {
    if summaries.None? then None
    else if summaries.value.service.Some? then summaries.value.service
    else if summaries.value.pid.Some? then Some(Decimal(summaries.value.pid.value))
    else None
  }

  /** Servers that give no instance id are told apart by their process ids. */
  lemma ServerIdOutcome(s: Summaries, t: Summaries)
    ensures ServerId(None) == None
    ensures s.service.Some? ==> ServerId(Some(s)) == s.service
    ensures s.service.None? && s.pid.None? ==> ServerId(Some(s)) == None
    ensures s.service.None? && s.pid.Some? ==>
      var id := ServerId(Some(s));
      id.Some? && AllDigits(id.value) && ParseDecimal(id.value) == s.pid.value
    ensures s.service.None? && t.service.None? ==> (ServerId(Some(s)) == ServerId(Some(t)) <==> s.pid == t.pid)
  {
    if s.pid.Some? { DecimalRoundTrip(s.pid.value); }
    if t.pid.Some? { DecimalRoundTrip(t.pid.value); }
  }

  // ---- Detection ----

  datatype Detector = Detector(lastServerId: Option<string>, firstTick: bool)

  const NEW_DETECTOR := Detector(None, true)

  /** One look at the media server: the id it gave, and whether a restart seen now can be handled to its end. */
  datatype Observation = Observation(id: Option<string>, handled: bool)

  /**
   The detector after one observation, and whether it takes it for a restart. When the handling
   throws, the id is not stored.
   */
  function Observed(d: Detector, o: Observation): (Detector, bool) {
    if o.id.None? then (d, false)
    else if d.firstTick then (Detector(o.id, false), false)
    else
      var fired := d.lastServerId.Some? && d.lastServerId != o.id;
      (if fired && !o.handled then d else Detector(o.id, false), fired)
  }

  function Watch(seen: seq<Observation>): Detector {
    if seen == [] then NEW_DETECTOR else Observed(Watch(seen[..|seen| - 1]), seen[|seen| - 1]).0
  }

  /** The observation gives an id, and it is the first to do so or its handling would succeed. */
  ghost predicate Settles(seen: seq<Observation>, j: nat)
    requires j < |seen|
  {
    seen[j].id.Some? && (seen[j].handled || forall k | 0 <= k < j :: seen[k].id.None?)
  }

  /** Observation `j` is the latest one before `i` that settles an id. */
  ghost predicate Baseline(seen: seq<Observation>, i: nat, j: nat) {
    j < i <= |seen| && Settles(seen, j) && forall k | j < k < i :: !Settles(seen, k)
  }

  lemma {:induction false} WatchIsBaseline(seen: seq<Observation>, i: nat)
    requires i <= |seen|
    ensures var d := Watch(seen[..i]);
      && (d.firstTick <==> forall j | 0 <= j < i :: seen[j].id.None?)
      && (d.firstTick ==> d.lastServerId.None?)
      && (!d.firstTick ==> exists j: nat :: Baseline(seen, i, j) && d.lastServerId == seen[j].id)
    decreases i
  {
    if i > 0 {
      WatchIsBaseline(seen, i - 1);
      var before := Watch(seen[..i - 1]);
      assert seen[..i][..i - 1] == seen[..i - 1] && seen[..i][i - 1] == seen[i - 1];
      assert Watch(seen[..i]) == Observed(before, seen[i - 1]).0;
      hide Watch;
      if Settles(seen, i - 1) {
        assert Baseline(seen, i, i - 1);
      } else if !before.firstTick {
        var j: nat :| Baseline(seen, i - 1, j) && before.lastServerId == seen[j].id;
        assert Baseline(seen, i, j);
      }
    }
  }

  /**
   Over any run of ticks, with the media server answering or not and the handling failing or not, a
   restart is reported exactly when an id comes in that differs from the latest one settled before
   it: never on the first id, never because of ticks without an answer, and again and again until
   the handling succeeds.
   */
  lemma FiresExactlyOnChange(seen: seq<Observation>, i: nat)
    requires i < |seen|
    ensures Observed(Watch(seen[..i]), seen[i]).1
      <==> seen[i].id.Some? && exists j: nat :: Baseline(seen, i, j) && seen[j].id != seen[i].id
  {
    WatchIsBaseline(seen, i);
    forall j: nat, k: nat | Baseline(seen, i, j) && Baseline(seen, i, k)
      ensures j == k
    {}
  }

  // ---- The services ----

  datatype Failure = QueryFailed | QueueFailed

  /** A plain add: whatever job the camera has stays. */
  function Enqueued(slot: StreamQueue.Slot, source: StreamQueue.Source): StreamQueue.Slot {
    StreamQueue.Add(slot, StreamQueue.StartJob, StreamQueue.BuildStreamJobData(source))
  }

  /** A job under the id stays as it is; otherwise there is a start job with no attempts made. */
  lemma EnqueuedOutcome(slot: StreamQueue.Slot, source: StreamQueue.Source)
    ensures Enqueued(slot, source) ==
      if slot.Some? then slot
      else Some(StreamQueue.Job(
             StreamQueue.StartJob, StreamQueue.BuildStreamJobData(source), 0, StreamQueue.Waiting))
  {
    StreamQueue.EnqueueOutcome(slot, StreamQueue.BuildStreamJobData(source));
  }

  /** The handling of a restart gets to the end: its query answers, and the queue accepts every job. */
  predicate Handles(cameras: Option<seq<StreamQueue.Source>>, accepted: nat) {
    cameras.Some? && |cameras.value| <= accepted
  }

  /** The first `n` cameras of a handling that has begun. */
  function First(fired: bool, cameras: Option<seq<StreamQueue.Source>>, n: nat): seq<StreamQueue.Source> {
    var all := if fired then cameras.GetOr([]) else [];
    if n < |all| then all[..n] else all
  }

  /** The cameras reached are a prefix of the list, as long as the queue lets it be; without a handling none. */
  lemma FirstIsPrefix(cameras: seq<StreamQueue.Source>, n: nat)
    ensures First(true, Some(cameras), n) <= cameras
    ensures |First(true, Some(cameras), n)| == if n < |cameras| then n else |cameras|
    ensures First(false, Some(cameras), n) == First(true, None, n) == First(false, None, n) == []
  {}

  class SrsRestartDetector {
    const ffmpeg: FfmpegSupervisor.FfmpegService
    const queue: StreamQueue.Queue
    var lastServerId: Option<string>
    var firstTick: bool

    function View(): Detector
      reads this
    {
      Detector(lastServerId, firstTick)
    }

    constructor (ffmpeg: FfmpegSupervisor.FfmpegService, queue: StreamQueue.Queue)
      ensures this.ffmpeg == ffmpeg && this.queue == queue && View() == NEW_DETECTOR
    {
      this.ffmpeg, this.queue := ffmpeg, queue;
      lastServerId, firstTick := None, true;
    }

    /**
     `cameras` are the rows outside maintenance that are not offline, each camera once; the answer
     is absent when the query fails. `accepted` is the number of jobs that the queue accepts before
     it fails. When either fails, the method throws and keeps the old id; the camera whose job the
     queue refused has been stopped by then.
     */
    method DetectAndHandle(summaries: Option<Summaries>, cameras: Option<seq<StreamQueue.Source>>, accepted: nat)
      returns (fired: bool, r: Result<(), Failure>)
      requires FfmpegSupervisor.Inv(ffmpeg.View()) && Distinct(cameras.GetOr([]))
      modifies this, ffmpeg, queue
      ensures FfmpegSupervisor.Inv(ffmpeg.View())
      ensures (View(), fired) == Observed(old(View()), Observation(ServerId(summaries), Handles(cameras, accepted)))
      ensures r == if !fired || Handles(cameras, accepted) then Ok(())
                   else if cameras.None? then Err(QueryFailed) else Err(QueueFailed)
      ensures r.Ok? <==> !fired || (cameras.Some? && |cameras.value| <= accepted)
      ensures ffmpeg.runningProcesses == old(ffmpeg.runningProcesses)
      ensures var enqueued := First(fired, cameras, accepted);
        && (forall i | 0 <= i < |enqueued| ::
              queue.SlotOf(enqueued[i].camera) == Enqueued(old(queue.SlotOf(enqueued[i].camera)), enqueued[i]))
        && (forall d | NotAmong(d, enqueued) :: queue.SlotOf(d) == old(queue.SlotOf(d)))
      ensures forall d ::
        d in ffmpeg.intentionalStops <==>
          d in old(ffmpeg.intentionalStops)
          || (old(ffmpeg.IsRunning(d)) && !NotAmong(d, First(fired, cameras, accepted + 1)))
    {
      fired, r := false, Ok(());
      var currentServerId := ServerId(summaries);
      if currentServerId.None? {
        return;
      }
      if firstTick {
        lastServerId := currentServerId;
        firstTick := false;
        return;
      }
      if lastServerId.Some? && lastServerId != currentServerId {
        fired := true;
        if cameras.None? {
          return fired, Err(QueryFailed);
        }
        r := HandleRestart(cameras.value, accepted);
        if r.Err? {
          return;
        }
      }
      lastServerId := currentServerId;
    }

    method HandleRestart(cameras: seq<StreamQueue.Source>, accepted: nat) returns (r: Result<(), Failure>)
      requires FfmpegSupervisor.Inv(ffmpeg.View()) && Distinct(cameras)
      modifies ffmpeg, queue
      ensures FfmpegSupervisor.Inv(ffmpeg.View())
      ensures r == if |cameras| <= accepted then Ok(()) else Err(QueueFailed)
      ensures ffmpeg.runningProcesses == old(ffmpeg.runningProcesses)
      ensures var enqueued := First(true, Some(cameras), accepted);
        && (forall i | 0 <= i < |enqueued| ::
              queue.SlotOf(enqueued[i].camera) == Enqueued(old(queue.SlotOf(enqueued[i].camera)), enqueued[i]))
        && (forall d | NotAmong(d, enqueued) :: queue.SlotOf(d) == old(queue.SlotOf(d)))
      ensures forall d ::
        d in ffmpeg.intentionalStops <==>
          d in old(ffmpeg.intentionalStops)
          || (old(ffmpeg.IsRunning(d)) && !NotAmong(d, First(true, Some(cameras), accepted + 1)))
    {
      hide FfmpegSupervisor.TablesAgree, FfmpegSupervisor.MarksAgree, FfmpegSupervisor.ProcessesAgree;
      hide StreamQueue.BuildStreamJobData;
      for k := 0 to |cameras|
        invariant k <= accepted
        invariant FfmpegSupervisor.Inv(ffmpeg.View())
        invariant ffmpeg.runningProcesses == old(ffmpeg.runningProcesses)
        invariant forall i | 0 <= i < k ::
          queue.SlotOf(cameras[i].camera) == Enqueued(old(queue.SlotOf(cameras[i].camera)), cameras[i])
        invariant forall d | NotAmong(d, cameras[..k]) :: queue.SlotOf(d) == old(queue.SlotOf(d))
        invariant forall d ::
          d in ffmpeg.intentionalStops <==>
            d in old(ffmpeg.intentionalStops) || (old(ffmpeg.IsRunning(d)) && !NotAmong(d, cameras[..k]))
      {
        var c := cameras[k].camera;
        assert NotAmong(c, cameras[..k]);
        assert cameras[..k + 1] == cameras[..k] + [cameras[k]];
        ffmpeg.StopIfRunning(c);
        if k == accepted {
          return Err(QueueFailed);
        }
        queue.AddJob(c, StreamQueue.StartJob, StreamQueue.BuildStreamJobData(cameras[k]));
      }
      assert cameras[..|cameras|] == cameras;
      return Ok(());
    }
  }

  ghost predicate Distinct(cameras: seq<StreamQueue.Source>) {
    forall i, j | 0 <= i < j < |cameras| :: cameras[i].camera != cameras[j].camera
  }

  ghost predicate NotAmong(d: CameraId, cameras: seq<StreamQueue.Source>) {
    forall i | 0 <= i < |cameras| :: cameras[i].camera != d
  }

  class BootRecoveryService {
    const queue: StreamQueue.Queue

    constructor (queue: StreamQueue.Queue)
      ensures this.queue == queue
    {
      this.queue := queue;
    }

    /** `desiredRunning` are the rows outside maintenance that are not offline, each camera once. */
    method OnApplicationBootstrap(desiredRunning: seq<StreamQueue.Source>)
      requires Distinct(desiredRunning)
      modifies queue
      ensures forall i | 0 <= i < |desiredRunning| ::
        var c := desiredRunning[i].camera;
        queue.SlotOf(c) == Enqueued(old(queue.SlotOf(c)), desiredRunning[i])
      ensures forall i | 0 <= i < |desiredRunning| ::
        var c := desiredRunning[i].camera;
        var added := StreamQueue.Job(
          StreamQueue.StartJob, StreamQueue.BuildStreamJobData(desiredRunning[i]), 0, StreamQueue.Waiting);
        c in queue.jobs && queue.jobs[c] == if c in old(queue.jobs) then old(queue.jobs)[c] else added
      ensures forall d | NotAmong(d, desiredRunning) :: queue.SlotOf(d) == old(queue.SlotOf(d))
    {
      hide StreamQueue.BuildStreamJobData;
      for k := 0 to |desiredRunning|
        invariant forall i | 0 <= i < k ::
          var c := desiredRunning[i].camera;
          queue.SlotOf(c) == Enqueued(old(queue.SlotOf(c)), desiredRunning[i])
        invariant forall d | NotAmong(d, desiredRunning[..k]) :: queue.SlotOf(d) == old(queue.SlotOf(d))
      {
        assert NotAmong(desiredRunning[k].camera, desiredRunning[..k]);
        assert desiredRunning[..k + 1] == desiredRunning[..k] + [desiredRunning[k]];
        queue.AddJob(desiredRunning[k].camera, StreamQueue.StartJob, StreamQueue.BuildStreamJobData(desiredRunning[k]));
      }
      assert desiredRunning[..|desiredRunning|] == desiredRunning;
      forall i | 0 <= i < |desiredRunning|
        ensures var c := desiredRunning[i].camera;
          var added := StreamQueue.Job(
            StreamQueue.StartJob, StreamQueue.BuildStreamJobData(desiredRunning[i]), 0, StreamQueue.Waiting);
          c in queue.jobs && queue.jobs[c] == if c in old(queue.jobs) then old(queue.jobs)[c] else added
      {
        var c := desiredRunning[i].camera;
        assert queue.SlotOf(c) == Enqueued(old(queue.SlotOf(c)), desiredRunning[i]);
      }
    }
  }
}
