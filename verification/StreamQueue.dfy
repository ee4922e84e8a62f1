/**
 The FFmpeg job queue. Every camera has one job id, shared by 'start' and 'restart' jobs and by
 all the services that enqueue.

 `add` does nothing while the id exists, and `remove` fails on an active job. A job that has used
 up its attempts stays under its id as failed.
 */
module StreamQueue {
  import opened Common
  import opened StreamProfiles
  import FfmpegSupervisor
  import StatusNotify

  const MAX_STREAM_ATTEMPTS: nat := 8
  const STUCK_ATTEMPTS_THRESHOLD: nat := 3
  const LOOPBACK := "rtmp://127.0.0.1:1935/push/"

  datatype JobName = StartJob | RestartJob

  datatype JobState = Waiting | Active | Failed

  datatype JobData = JobData(camera: CameraId, org: OrgId, inputUrl: string, settings: Settings, needsTranscode: bool)

  datatype Job = Job(name: JobName, data: JobData, attemptsMade: nat, state: JobState)

  // ---- The slot of one camera's job id ----

  type Slot = Option<Job>

  function Add(slot: Slot, name: JobName, data: JobData): Slot {
    if slot.Some? then slot else Some(Job(name, data, 0, Waiting))
  }

  function Remove(slot: Slot): Slot {
    if slot.Some? && slot.value.state == Active then slot else None
  }

  predicate IsActive(slot: Slot) {
    slot.Some? && slot.value.state == Active
  }

  /** A restart that has not run yet. */
  predicate QueuedRestart(slot: Slot) {
    slot.Some? && slot.value.name == RestartJob && slot.value.state == Waiting
  }

  /** The user's start: remove, then add. */
  function UserStarted(slot: Slot, data: JobData): Slot {
    Add(Remove(slot), StartJob, data)
  }

  /** A profile change: an active job is signalled instead of being replaced. */
  function ProfileRestarted(slot: Slot, data: JobData): Slot {
    if IsActive(slot) then slot else Add(Remove(slot), RestartJob, data)
  }

  /** The tick looks at a job that has failed too often and has not been replaced by a restart. */
  predicate WornOut(seen: Slot) {
    seen.Some? && seen.value.name == StartJob && seen.value.attemptsMade >= STUCK_ATTEMPTS_THRESHOLD
  }

  predicate IsRestart(seen: Slot) {
    seen.Some? && seen.value.name == RestartJob
  }

  /** The tick's recovery enqueue with nothing happening in between. */
  function TickEnqueued(slot: Slot, data: JobData): Slot {
    if IsRestart(slot) then slot
    else Add(if WornOut(slot) then Remove(slot) else slot, StartJob, data)
  }

  /** The worker picks the job up. */
  function Begun(slot: Slot): Slot {
    if slot.Some? && slot.value.state == Waiting then Some(slot.value.(state := Active)) else slot
  }

  /** The job function returned; completed jobs are removed. */
  function Completed(slot: Slot): Slot {
    if IsActive(slot) then None else slot
  }

  /** The job function threw. */
  function AttemptFailed(slot: Slot): Slot {
    if !IsActive(slot) then slot
    else
      var made := slot.value.attemptsMade + 1;
      Some(slot.value.(attemptsMade := made, state := if made < MAX_STREAM_ATTEMPTS then Waiting else Failed))
  }

  /**
   What each way to enqueue leaves, for whatever stands under the id. An active job stays, and a
   job is only ever added with no attempts made. The plain add of the unattended services yields to
   any job, the tick's also replaces an idle start job with three failed attempts, a user's start
   and a profile change replace whatever is idle.
   */
  lemma EnqueueOutcome(slot: Slot, data: JobData)
    ensures var active := slot.Some? && slot.value.state == Active;
      var worn := slot.Some? && slot.value.name == StartJob && slot.value.attemptsMade >= 3;
      && Remove(slot) == (if active then slot else None)
      && Add(slot, StartJob, data) == (if slot.Some? then slot else Some(Job(StartJob, data, 0, Waiting)))
      && TickEnqueued(slot, data)
         == (if slot.None? || (worn && !active) then Some(Job(StartJob, data, 0, Waiting)) else slot)
      && UserStarted(slot, data) == (if active then slot else Some(Job(StartJob, data, 0, Waiting)))
      && ProfileRestarted(slot, data) == (if active then slot else Some(Job(RestartJob, data, 0, Waiting)))
  {}

  /**
   The worker's part: a waiting job becomes active and nothing else does, a finished one goes, and
   one that threw waits again until its eighth attempt, after which it stays under its id.
   */
  lemma WorkerOutcome(job: Job, n: nat)
    requires job.state == Waiting && n < 8 && job.attemptsMade == 0
    ensures Attempts(Some(job), n) == Some(job.(attemptsMade := n))
    ensures AttemptFailed(Begun(Attempts(Some(job), 7))) == Some(job.(attemptsMade := 8, state := Failed))
    ensures Completed(Begun(Attempts(Some(job), n))) == None
    ensures Begun(Some(job.(state := Failed))) == Completed(Some(job.(state := Failed))) == Some(job.(state := Failed))
  {
    AttemptsInOrder(job, n);
    AttemptsInOrder(job, 7);
  }

  /** The slot after `n` attempts that threw. */
  function Attempts(slot: Slot, n: nat): Slot {
    if n == 0 then slot else AttemptFailed(Begun(Attempts(slot, n - 1)))
  }

  lemma {:induction false} AttemptsInOrder(job: Job, n: nat)
    requires job.state == Waiting && n < 8 && job.attemptsMade == 0
    ensures Attempts(Some(job), n) == Some(job.(attemptsMade := n))
  {
    if n > 0 {
      AttemptsInOrder(job, n - 1);
    }
  }

  // ---- Every interleaving of the services ----

  /**
   Where the tick's enqueue of this camera is: past its look with what it saw, past its removal,
   or not there at all. `raced` is a history: a restart was added since the look.
   */
  datatype TickPhase = NotEnqueuing | Looked(seen: Slot, raced: bool) | Cleared

  datatype State = State(slot: Slot, tick: TickPhase)

  /** Each event is one queue command of one service, or one step of the worker. */
  datatype Event =
    | UserRemove | UserAdd(data: JobData)
    | ProfileRemove | ProfileAdd(data: JobData)
    | DetectorAdd(data: JobData)
    | BootAdd(data: JobData)
    | TickLook | TickRemove | TickAdd(data: JobData)
    | Begin | Complete | FailAttempt

  function Step(s: State, e: Event): State {
    match e
    case UserRemove => s.(slot := Remove(s.slot))
    case UserAdd(data) => s.(slot := Add(s.slot, StartJob, data))
    case ProfileRemove => s.(slot := Remove(s.slot))
    case ProfileAdd(data) =>
      State(Add(s.slot, RestartJob, data), if s.tick.Looked? then s.tick.(raced := true) else s.tick)
    case DetectorAdd(data) => s.(slot := Add(s.slot, StartJob, data))
    case BootAdd(data) => s.(slot := Add(s.slot, StartJob, data))
    case TickLook =>
      if s.tick.NotEnqueuing? then s.(tick := if IsRestart(s.slot) then NotEnqueuing else Looked(s.slot, false)) else s
    case TickRemove =>
      if s.tick.Looked? && WornOut(s.tick.seen) then State(Remove(s.slot), Cleared) else s
    case TickAdd(data) =>
      if s.tick.Cleared? || (s.tick.Looked? && !WornOut(s.tick.seen))
      then State(Add(s.slot, StartJob, data), NotEnqueuing) else s
    case Begin => s.(slot := Begun(s.slot))
    case Complete => s.(slot := Completed(s.slot))
    case FailAttempt => s.(slot := AttemptFailed(s.slot))
  }

  function Run(s: State, events: seq<Event>): State
    decreases |events|
  {
    if events == [] then s else Run(Step(s, events[0]), events[1..])
  }

  const NEW := State(None, NotEnqueuing)

  /** Each service's commands, with nothing in between, do what its method does. */
  lemma UndisturbedCommands(slot: Slot, data: JobData)
    ensures var s := State(slot, NotEnqueuing);
      && Step(Step(s, UserRemove), UserAdd(data)).slot == UserStarted(slot, data)
      && (!IsActive(slot) ==> Step(Step(s, ProfileRemove), ProfileAdd(data)).slot == ProfileRestarted(slot, data))
      && Step(Step(Step(s, TickLook), TickRemove), TickAdd(data)) == State(TickEnqueued(slot, data), NotEnqueuing)
      && Step(s, DetectorAdd(data)).slot == Step(s, BootAdd(data)).slot
           == (if slot.Some? then slot else Some(Job(StartJob, data, 0, Waiting)))
      && Step(s, Begin).slot == Begun(slot) && Step(s, Complete).slot == Completed(slot)
      && Step(s, FailAttempt).slot == AttemptFailed(slot)
  {}

  /** A tick that saw a worn-out job adds only after its removal, and one that did not removes nothing. */
  lemma TickInOrder(s: State, data: JobData)
    requires s.tick.Looked?
    ensures WornOut(s.tick.seen) ==> Step(s, TickAdd(data)) == s && Step(s, TickRemove).tick == Cleared
    ensures !WornOut(s.tick.seen) ==> Step(s, TickRemove) == s
  {}

  /** As long as no restart was added since the look, the job under the id is no restart. */
  ghost predicate Inv(s: State) {
    s.tick.Looked? ==> !IsRestart(s.tick.seen) && (!s.tick.raced ==> !IsRestart(s.slot))
  }

  lemma {:induction false} RunInv(s: State, events: seq<Event>)
    requires Inv(s)
    ensures Inv(Run(s, events))
    decreases |events|
  {
    if events != [] {
      RunInv(Step(s, events[0]), events[1..]);
    }
  }

  /** The events that take a waiting restart out of the queue. */
  predicate TakesRestart(s: State, e: Event) {
    e == Begin || e == UserRemove || e == ProfileRemove
    || (e == TickRemove && s.tick.Looked? && WornOut(s.tick.seen))
  }

  lemma TakenIff(s: State, e: Event)
    requires QueuedRestart(s.slot)
    ensures Step(s, e).slot != s.slot <==> TakesRestart(s, e)
  {}

  /** The race: the restart was added after the tick's look. */
  lemma RacedTake(events: seq<Event>)
    requires QueuedRestart(Run(NEW, events).slot) && TakesRestart(Run(NEW, events), TickRemove)
    ensures Run(NEW, events).tick.raced
  {
    RunInv(NEW, events);
  }

  /**
   In every run, a restart that waits in the queue stays there, unchanged, through any further
   events if and only if none of them is the worker picking it up, a user's start or stop, a newer
   restart, or the one race: the tick saw a worn-out start job, the restart was added after that
   look, and the tick's removal goes by id. The restart detector, boot recovery and the tick's own
   add never touch it.
   */
  lemma {:induction false} RestartStaysIff(s: State, events: seq<Event>)
    requires QueuedRestart(s.slot)
    ensures (forall n | 0 <= n <= |events| :: Run(s, events[..n]).slot == s.slot)
      <==> (forall n | 0 <= n < |events| :: !TakesRestart(Run(s, events[..n]), events[n]))
    decreases |events|
  {
    if events == [] {
    } else {
      var s', rest := Step(s, events[0]), events[1..];
      assert events[..0] == [] && Run(s, events[..0]) == s;
      TakenIff(s, events[0]);
      forall n | 0 <= n <= |rest| ensures Run(s', rest[..n]) == Run(s, events[..n + 1]) {
        assert events[..n + 1][0] == events[0] && events[..n + 1][1..] == rest[..n];
      }
      assert forall n | 0 <= n < |rest| :: rest[n] == events[n + 1];
      hide Run, Step, TakesRestart;
      assert Run(s, events[..1]) == Run(s', rest[..0]);
      if s'.slot == s.slot {
        RestartStaysIff(s', rest);
        SplitFirst(s, events);
      } else {
        assert Run(s', rest[..0]) == s' by {
          RunNothing(s');
          assert rest[..0] == [];
        }
        assert Run(s, events[..1]).slot != s.slot;
        assert TakesRestart(Run(s, events[..0]), events[0]);
      }
    }
  }

  lemma RunNothing(s: State)
    ensures Run(s, []) == s
  {}

  /** A statement about every point of a run is one about its first point and one about the rest. */
  lemma SplitFirst(s: State, events: seq<Event>)
    requires events != []
    requires forall n | 0 <= n <= |events| - 1 :: Run(Step(s, events[0]), events[1..][..n]) == Run(s, events[..n + 1])
    ensures (forall n | 0 <= n <= |events| :: Run(s, events[..n]).slot == s.slot)
      <==> (forall n | 0 <= n <= |events| - 1 :: Run(Step(s, events[0]), events[1..][..n]).slot == s.slot)
    ensures (forall n | 0 <= n < |events| :: !TakesRestart(Run(s, events[..n]), events[n]))
      <==> !TakesRestart(s, events[0])
           && (forall n | 0 <= n < |events| - 1 ::
               !TakesRestart(Run(Step(s, events[0]), events[1..][..n]), events[1..][n]))
  {
    var rest := events[1..];
    assert events[..0] == [] && Run(s, events[..0]) == s;
    assert forall n | 0 <= n < |rest| :: rest[n] == events[n + 1];
    hide Step, TakesRestart;
    forall n | 0 < n <= |events| ensures Run(s, events[..n]) == Run(Step(s, events[0]), rest[..n - 1]) {
      assert n == (n - 1) + 1;
    }
    assert forall n | 0 < n < |events| :: events[n] == rest[n - 1];
    hide Run;
    assert forall n | 0 <= n < |rest| :: Run(s, events[..n + 1]) == Run(Step(s, events[0]), rest[..n]);
  }

  /** The race is reachable: the restart is gone and a start job stands in its place. */
  lemma TickCanLoseRestart(first: JobData, wanted: JobData)
    ensures var events := [UserAdd(first), Begin, FailAttempt, Begin, FailAttempt, Begin, FailAttempt,
                           TickLook, ProfileRemove, ProfileAdd(wanted), TickRemove, TickAdd(first)];
      && QueuedRestart(Run(NEW, events[..10]).slot)
      && Run(NEW, events).slot == Some(Job(StartJob, first, 0, Waiting))
  {
    var setup := [UserAdd(first), Begin, FailAttempt, Begin, FailAttempt, Begin, FailAttempt];
    var worn := Some(Job(StartJob, first, 3, Waiting));
    RunPrefix(NEW, setup, [TickLook, ProfileRemove, ProfileAdd(wanted)]);
    RunPrefix(NEW, setup, [TickLook, ProfileRemove, ProfileAdd(wanted), TickRemove, TickAdd(first)]);
    assert Run(NEW, setup) == State(worn, NotEnqueuing) by {
      RunOne(NEW, setup);
      RunOne(Step(NEW, setup[0]), setup[1..]);
      var s2 := Step(Step(NEW, setup[0]), setup[1]);
      RunOne(s2, setup[2..]);
      var s3 := Step(s2, setup[2]);
      RunOne(s3, setup[3..]);
      var s4 := Step(s3, setup[3]);
      RunOne(s4, setup[4..]);
      var s5 := Step(s4, setup[4]);
      RunOne(s5, setup[5..]);
      var s6 := Step(s5, setup[5]);
      RunOne(s6, setup[6..]);
    }
    var race := [TickLook, ProfileRemove, ProfileAdd(wanted), TickRemove, TickAdd(first)];
    var s := State(worn, NotEnqueuing);
    var t3 := State(Some(Job(RestartJob, wanted, 0, Waiting)), Looked(worn, true));
    assert Step(Step(Step(s, TickLook), ProfileRemove), ProfileAdd(wanted)) == t3;
    RunOne(s, race[..3]);
    RunOne(Step(s, TickLook), race[..3][1..]);
    RunOne(Step(Step(s, TickLook), ProfileRemove), race[..3][2..]);
    assert race[..3] == [TickLook, ProfileRemove, ProfileAdd(wanted)];
    RunPrefix(s, race[..3], [TickRemove, TickAdd(first)]);
    assert race == race[..3] + [TickRemove, TickAdd(first)];
    RunOne(t3, [TickRemove, TickAdd(first)]);
    RunOne(Step(t3, TickRemove), [TickRemove, TickAdd(first)][1..]);
    var events := [UserAdd(first), Begin, FailAttempt, Begin, FailAttempt, Begin, FailAttempt,
                   TickLook, ProfileRemove, ProfileAdd(wanted), TickRemove, TickAdd(first)];
    assert events == setup + race;
    assert events[..10] == setup + race[..3];
  }

  lemma {:induction false} RunPrefix(s: State, a: seq<Event>, b: seq<Event>)
    ensures Run(s, a + b) == Run(Run(s, a), b)
    decreases |a|
  {
    if a == [] {
      assert a + b == b;
    } else {
      assert (a + b)[1..] == a[1..] + b;
      RunPrefix(Step(s, a[0]), a[1..], b);
    }
  }

  lemma RunOne(s: State, events: seq<Event>)
    requires events != []
    ensures Run(s, events) == Run(Step(s, events[0]), events[1..])
  {}

  // ---- A restart that has failed for good ----

  /** No user and no profile change acts. */
  predicate Unattended(e: Event) {
    !e.UserRemove? && !e.ProfileRemove?
  }

  /**
   A restart whose attempts are used up keeps the id. The tick takes it for one in flight and the
   other services' adds do nothing, so unattended no job of the camera is ever run again.
   */
  lemma {:induction false} FailedRestartBlocks(s: State, events: seq<Event>)
    requires IsRestart(s.slot) && s.slot.value.state == Failed && s.tick == NotEnqueuing
    requires forall i | 0 <= i < |events| :: Unattended(events[i])
    ensures Run(s, events) == s
    decreases |events|
  {
    if events != [] {
      assert Step(s, events[0]) == s;
      FailedRestartBlocks(s, events[1..]);
    }
  }

  /** A start job in the same position does not block: the next tick replaces it. */
  lemma FailedStartIsReplaced(job: Job, data: JobData)
    requires job.name == StartJob && job.state == Failed && job.attemptsMade >= MAX_STREAM_ATTEMPTS
    ensures TickEnqueued(Some(job), data) == Some(Job(StartJob, data, 0, Waiting))
    ensures Run(State(Some(job), NotEnqueuing), [TickLook, TickRemove, TickAdd(data)])
         == State(TickEnqueued(Some(job), data), NotEnqueuing)
  {
    var events := [TickLook, TickRemove, TickAdd(data)];
    var s := State(Some(job), NotEnqueuing);
    RunOne(s, events);
    RunOne(Step(s, TickLook), events[1..]);
    RunOne(Step(Step(s, TickLook), TickRemove), events[1..][1..]);
  }

  // ---- The queue and the streams service ----

  class Queue {
    var jobs: map<CameraId, Job>

    function SlotOf(c: CameraId): Slot
      reads this
    {
      if c in jobs then Some(jobs[c]) else None
    }

    constructor ()
      ensures jobs == map[]
    {
      jobs := map[];
    }

    method AddJob(c: CameraId, name: JobName, data: JobData)
      modifies this
      ensures SlotOf(c) == Add(old(SlotOf(c)), name, data)
      ensures forall d | d != c :: SlotOf(d) == old(SlotOf(d))
    {
      if c !in jobs {
        jobs := jobs[c := Job(name, data, 0, Waiting)];
      }
    }

    /** The worker's. */
    method BeginJob(c: CameraId)
      modifies this
      ensures SlotOf(c) == Begun(old(SlotOf(c)))
      ensures forall d | d != c :: SlotOf(d) == old(SlotOf(d))
    {
      if c in jobs && jobs[c].state == Waiting {
        jobs := jobs[c := jobs[c].(state := Active)];
      }
    }

    /** Fails on an active job. */
    method RemoveJob(c: CameraId) returns (removed: bool)
      modifies this
      ensures SlotOf(c) == Remove(old(SlotOf(c)))
      ensures removed == !IsActive(old(SlotOf(c)))
      ensures forall d | d != c :: SlotOf(d) == old(SlotOf(d))
    {
      if c in jobs && jobs[c].state == Active {
        return false;
      }
      jobs := jobs - {c};
      return true;
    }
  }

  /** The columns of a camera row that job data is built from. */
  datatype Source = Source(
    camera: CameraId, org: OrgId, push: bool, streamKey: Option<string>, streamUrl: string,
    needsTranscode: bool, settings: Option<Settings>)

  const FALLBACK := Settings(Some("auto"), None, None, None, None, Some("aac"), None)

  function InputUrl(s: Source): string {
    if s.push && s.streamKey.Some? && s.streamKey.value != "" then LOOPBACK + s.streamKey.value else s.streamUrl
  }

  /** Boot recovery, the detector and the tick build their data without the organisation's default. */
  function BuildStreamJobData(s: Source): JobData {
    JobData(s.camera, s.org, InputUrl(s), s.settings.GetOr(FALLBACK), s.needsTranscode)
  }

  /** Job data of a start by hand, which alone looks at the organisation's default. */
  function StartJobData(s: Source, orgDefault: Option<Settings>): JobData {
    BuildStreamJobData(s.(settings := if s.settings.Some? then s.settings else orgDefault))
  }

  /**
   A start by hand and the unattended paths enqueue the same job if and only if the camera has its
   own profile, or its organisation has no default, or that default has the hardcoded settings.
   */
  lemma PathsAgreeIff(s: Source, orgDefault: Option<Settings>)
    ensures StartJobData(s, orgDefault) == BuildStreamJobData(s)
      <==> s.settings.Some? || orgDefault.None? || orgDefault.value == FALLBACK
  {}

  /**
   Every path reads a push camera that has a key from the loopback address of that key, which is no
   other key's, and every other camera from its own address; the settings are the camera's own, else
   at a start by hand the organisation's default, else the hardcoded ones.
   */
  lemma JobDataOutcome(s: Source, t: Source, orgDefault: Option<Settings>)
    ensures var d, e := BuildStreamJobData(s), StartJobData(s, orgDefault);
      var keyed := s.push && s.streamKey.Some? && |s.streamKey.value| > 0;
      var hardcoded := Settings(Some("auto"), None, None, None, None, Some("aac"), None);
      && d.camera == e.camera == s.camera && d.org == e.org == s.org
      && d.needsTranscode == e.needsTranscode == s.needsTranscode
      && d.inputUrl == e.inputUrl
      && (keyed ==> d.inputUrl == "rtmp://127.0.0.1:1935/push/" + s.streamKey.value)
      && (!keyed ==> d.inputUrl == s.streamUrl)
      && (keyed && t.push && t.streamKey.Some? && |t.streamKey.value| > 0 ==>
            (BuildStreamJobData(t).inputUrl == d.inputUrl <==> t.streamKey == s.streamKey))
      && d.settings == s.settings.GetOr(hardcoded)
      && e.settings == s.settings.GetOr(orgDefault.GetOr(hardcoded))
  {
    if s.push && s.streamKey.Some? && t.push && t.streamKey.Some? {
      var a, b := LOOPBACK + s.streamKey.value, LOOPBACK + t.streamKey.value;
      assert a[|LOOPBACK|..] == s.streamKey.value && b[|LOOPBACK|..] == t.streamKey.value;
    }
  }

  /** A profile restart's remove and add, after the worker has or has not picked the job up. */
  function RestartEnqueued(slot: Slot, source: Source, settings: Settings, begun: bool): Slot {
    var data := BuildStreamJobData(source.(settings := Some(settings)));
    if IsActive(slot) then slot else ProfileRestarted(if begun then Begun(slot) else slot, data)
  }

  /** The new settings end up in the queue, or go out as a signal, unless the worker came in between. */
  lemma RestartEnqueuedUnlessBegun(slot: Slot, source: Source, settings: Settings, begun: bool)
    ensures var slot' := RestartEnqueued(slot, source, settings, begun);
      (IsActive(slot) || (slot'.Some? && slot'.value.name == RestartJob && slot'.value.data.settings == settings
                          && slot'.value.state == Waiting))
      <==> IsActive(slot) || !(begun && slot.Some? && slot.value.state == Waiting)
  {}

  class StreamsService {
    const queue: Queue
    const ffmpeg: FfmpegSupervisor.FfmpegService
    const status: StatusNotify.StatusService

    constructor (queue: Queue, ffmpeg: FfmpegSupervisor.FfmpegService, status: StatusNotify.StatusService)
      ensures this.queue == queue && this.ffmpeg == ffmpeg && this.status == status
    {
      this.queue, this.ffmpeg, this.status := queue, ffmpeg, status;
    }

    /** `orgDefault` is the organisation's default profile. Push cameras without transcoding have no job. */
    method StartStream(source: Source, orgDefault: Option<Settings>)
      modifies queue
      ensures var c := source.camera;
        queue.SlotOf(c) ==
          if source.push && !source.needsTranscode then old(queue.SlotOf(c))
          else UserStarted(old(queue.SlotOf(c)), StartJobData(source, orgDefault))
      ensures var before := old(queue.SlotOf(source.camera));
        queue.SlotOf(source.camera) ==
          if (source.push && !source.needsTranscode) || (before.Some? && before.value.state == Active) then before
          else Some(Job(StartJob, StartJobData(source, orgDefault), 0, Waiting))
      ensures forall d | d != source.camera :: queue.SlotOf(d) == old(queue.SlotOf(d))
    {
      if source.push && !source.needsTranscode {
        return;
      }
      var settings: Settings;
      if source.settings.Some? {
        settings := source.settings.value;
      } else if orgDefault.Some? {
        settings := orgDefault.value;
      } else {
        settings := FALLBACK;
      }
      var c := source.camera;
      if c in queue.jobs {
        var _ := queue.RemoveJob(c);
      }
      queue.AddJob(c, StartJob, JobData(c, source.org, InputUrl(source), settings, source.needsTranscode));
    }

    /**
     The cameras are the running ones outside maintenance that the change concerns, each once. For
     the cameras in `begun` the worker picks the job up between the look and the removal; a waiting
     job is then neither signalled nor replaced.
     */
    method EnqueueProfileRestart(cameras: seq<Source>, settings: Settings, begun: set<CameraId>)
      returns (signalled: set<CameraId>)
      requires forall i, j | 0 <= i < j < |cameras| :: cameras[i].camera != cameras[j].camera
      modifies queue
      ensures forall i | 0 <= i < |cameras| ::
        var c := cameras[i].camera;
        && queue.SlotOf(c) == RestartEnqueued(old(queue.SlotOf(c)), cameras[i], settings, c in begun)
        && (c in signalled <==> c in old(queue.jobs) && old(queue.jobs)[c].state == Active)
        && (c !in signalled && (c !in begun || c !in old(queue.jobs) || old(queue.jobs)[c].state == Failed) ==>
              queue.SlotOf(c) ==
                Some(Job(RestartJob, BuildStreamJobData(cameras[i].(settings := Some(settings))), 0, Waiting)))
      ensures forall d | (forall i | 0 <= i < |cameras| :: cameras[i].camera != d) ::
        queue.SlotOf(d) == old(queue.SlotOf(d)) && d !in signalled
    {
      hide BuildStreamJobData;
      signalled := {};
      for k := 0 to |cameras|
        invariant forall i | 0 <= i < k ::
          var c := cameras[i].camera;
          && queue.SlotOf(c) == RestartEnqueued(old(queue.SlotOf(c)), cameras[i], settings, c in begun)
          && (c in signalled <==> IsActive(old(queue.SlotOf(c))))
        invariant forall d | (forall i | 0 <= i < k :: cameras[i].camera != d) ::
          queue.SlotOf(d) == old(queue.SlotOf(d)) && d !in signalled
      {
        var c := cameras[k].camera;
        if c in queue.jobs && queue.jobs[c].state == Active {
          signalled := signalled + {c};
          continue;
        }
        var existing := c in queue.jobs;
        if c in begun {
          queue.BeginJob(c);
        }
        if existing {
          var _ := queue.RemoveJob(c);
        }
        queue.AddJob(c, RestartJob, BuildStreamJobData(cameras[k].(settings := Some(settings))));
      }
    }

    /** SIGTERM first, then the job, then the status; nothing of it for a camera that is not there. */
    method StopStream(c: CameraId, now: Time) returns (r: Result<(), StatusNotify.TransitionError>)
      requires FfmpegSupervisor.Inv(ffmpeg.View())
      modifies queue, ffmpeg, status, status.health
      ensures var row := old(status.CameraOf(c)).row;
        if row.None? then
          && r == Err(StatusNotify.NotFound) && ffmpeg.View() == old(ffmpeg.View())
          && queue.SlotOf(c) == old(queue.SlotOf(c)) && status.CameraOf(c) == old(status.CameraOf(c))
        else
          && r == Ok(()) && ffmpeg.View() == FfmpegSupervisor.Step(old(ffmpeg.View()), FfmpegSupervisor.Terminate(c))
          && queue.SlotOf(c) == Remove(old(queue.SlotOf(c)))
          && status.CameraOf(c) == StatusNotify.Transitioned(old(status.CameraOf(c)), row.value.org, Offline, now)
      ensures r.Ok? ==>
        && status.CameraOf(c).row == Some(old(status.rows)[c].(status := Offline))
        && (c in queue.jobs <==> c in old(queue.jobs) && old(queue.jobs)[c].state == Active)
        && (old(ffmpeg.IsRunning(c)) ==>
              var p := ffmpeg.runningProcesses[c];
              c in ffmpeg.intentionalStops && p in ffmpeg.processes && ffmpeg.processes[p].terminated)
      ensures forall d | d != c ::
        && queue.SlotOf(d) == old(queue.SlotOf(d))
        && status.CameraOf(d) == old(status.CameraOf(d))
    {
      hide StatusNotify.Transitioned, FfmpegSupervisor.Inv;
      if c !in status.rows {
        return Err(StatusNotify.NotFound);
      }
      var org := status.rows[c].org;
      FfmpegSupervisor.RunningIsAlive(ffmpeg.View(), c);
      if ffmpeg.IsRunning(c) {
        ffmpeg.StopStream(c);
      }
      if c in queue.jobs {
        var _ := queue.RemoveJob(c);
      }
      r := status.Transition(c, org, Offline, now);
    }
  }
}
