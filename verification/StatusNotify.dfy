/**
 The camera status machine and the debounced outbound notification.

 A recorded change replaces the camera's one delayed notify job; the dispatch looks at the camera
 again before it delivers, and an active job can be neither removed nor replaced. Here a change is
 a read and a write; `NotifyDebounce` also cuts the write from the job commands after it.
 */
module StatusNotify {
  import opened Common
  import StreamHealth

  const NOTIFY_DELAY_MS: nat := 30_000

  datatype Row = Row(org: OrgId, status: Status, maintenance: bool)

  datatype NotifyJob = NotifyJob(newStatus: Status, previousStatus: Status, due: Time, active: bool)

  datatype TransitionError = NotFound | InvalidTransition

  datatype Delivery = Delivery(status: Status, previousStatus: Status, at: Time)

  // ---- One camera ----

  /** A camera's row, its health record and its notify job. */
  datatype Camera = Camera(row: Option<Row>, health: StreamHealth.Slot, notify: Option<NotifyJob>)

  predicate Edge(from: Status, to: Status) {
    match from
    case Offline => to == Connecting || to == Online
    case Connecting => to == Online || to == Offline || to == Reconnecting || to == Degraded
    case Online => to == Reconnecting || to == Degraded || to == Offline || to == Connecting
    case Reconnecting => to == Online || to == Offline || to == Connecting || to == Degraded
    case Degraded => to == Online || to == Offline || to == Connecting
  }

  /** Going offline is always allowed. */
  predicate Allowed(from: Status, to: Status) {
    to == Offline || Edge(from, to)
  }

  predicate Notifiable(s: Status) {
    s != Connecting
  }

  /** The transition is a real change: the camera exists, is elsewhere, and may go there. */
  predicate Changes(c: Camera, org: OrgId, to: Status) {
    c.row.Some? && c.row.value.org == org && c.row.value.status != to && Allowed(c.row.value.status, to)
  }

  /** `remove` fails on an active job and `add` does nothing while the id exists. */
  function Scheduled(job: Option<NotifyJob>, to: Status, from: Status, now: Time): Option<NotifyJob> {
    if job.Some? && job.value.active then job else Some(NotifyJob(to, from, now + NOTIFY_DELAY_MS, false))
  }

  /** The write of a change; `seen` is the row as its read found it, which may have changed since. */
  function Written(c: Camera, seen: Row, to: Status, now: Time): Camera {
    if c.row.None? then c
    else
      Camera(
        Some(c.row.value.(status := to)),
        StreamHealth.Changed(c.health, now, seen.status, to),
        if seen.maintenance || !Notifiable(to) then c.notify else Scheduled(c.notify, to, seen.status, now))
  }

  /** A change that nothing comes in between. */
  function Transitioned(c: Camera, org: OrgId, to: Status, now: Time): Camera {
    if Changes(c, org, to) then Written(c, c.row.value, to, now) else c
  }

  function TransitionResult(c: Camera, org: OrgId, to: Status): Result<(), TransitionError> {
    if c.row.None? || c.row.value.org != org then Err(NotFound)
    else if c.row.value.status != to && !Allowed(c.row.value.status, to) then Err(InvalidTransition)
    else Ok(())
  }

  /** The worker picks the job up. */
  function Taken(c: Camera, now: Time): Camera {
    if c.notify.Some? && !c.notify.value.active && c.notify.value.due <= now
    then c.(notify := Some(c.notify.value.(active := true))) else c
  }

  /** The dispatch delivers: the camera is there, not in maintenance, and still where the job says. */
  predicate Delivers(c: Camera) {
    c.notify.Some? && c.notify.value.active && c.row.Some? && !c.row.value.maintenance
    && c.row.value.status == c.notify.value.newStatus
  }

  function Finished(c: Camera): Camera {
    if c.notify.Some? && c.notify.value.active then c.(notify := None) else c
  }

  /** No way leads to reconnecting from offline or degraded, nor to degraded from offline. */
  predicate Barred(from: Status, to: Status) {
    (to == Reconnecting && (from == Offline || from == Degraded)) || (to == Degraded && from == Offline)
  }

  /**
   What an undisturbed call does: it is refused exactly for a camera that is not there and for a
   barred way. Otherwise the row is left with the status asked for, and a real change outside
   maintenance to anything but connecting has its notification due in half a minute, in place of an
   earlier one that is not being delivered.
   */
  lemma TransitionOutcome(c: Camera, org: OrgId, to: Status, now: Time)
    ensures var r, c' := TransitionResult(c, org, to), Transitioned(c, org, to, now);
      var there := c.row.Some? && c.row.value.org == org;
      && (r == Err(NotFound) <==> !there)
      && (r == Err(InvalidTransition) <==> there && Barred(c.row.value.status, to))
      && (r.Err? ==> c' == c)
      && (r.Ok? ==> c'.row == Some(c.row.value.(status := to)))
      && (r.Ok? && c.row.value.status == to ==> c' == c)
      && (r.Ok? && c.row.value.status != to ==>
            && c'.health == StreamHealth.Changed(c.health, now, c.row.value.status, to)
            && c'.notify == if c.row.value.maintenance || to == Connecting || (c.notify.Some? && c.notify.value.active)
                            then c.notify
                            else Some(NotifyJob(to, c.row.value.status, now + 30_000, false)))
  {
    hide StreamHealth.Changed;
  }

  /** A job that is due is picked up, and delivers exactly if the camera is still where it says. */
  lemma DispatchOutcome(c: Camera, now: Time)
    requires c.notify.Some? && !c.notify.value.active
    ensures var taken := Taken(c, now);
      && (c.notify.value.due > now ==> taken == c && !Delivers(c) && Finished(c) == c)
      && (c.notify.value.due <= now ==>
            && taken == c.(notify := Some(c.notify.value.(active := true)))
            && Finished(taken) == c.(notify := None)
            && (Delivers(taken) <==>
                  c.row.Some? && !c.row.value.maintenance && c.row.value.status == c.notify.value.newStatus))
  {}

  // ---- The services ----

  class StatusService {
    const health: StreamHealth.StreamHealthMetricsService
    var rows: map<CameraId, Row>
    var notifyJobs: map<CameraId, NotifyJob>

    function CameraOf(c: CameraId): Camera
      reads this, health
    {
      Camera(if c in rows then Some(rows[c]) else None,
             health.SlotOf(c),
             if c in notifyJobs then Some(notifyJobs[c]) else None)
    }

    constructor (health: StreamHealth.StreamHealthMetricsService, rows: map<CameraId, Row>)
      ensures this.health == health && this.rows == rows && notifyJobs == map[]
    {
      this.health := health;
      this.rows := rows;
      notifyJobs := map[];
    }

    /** The first stretch of `transition`: the row if there is something to write. */
    method CheckTransition(c: CameraId, org: OrgId, to: Status) returns (r: Result<Option<Row>, TransitionError>)
      ensures r.Err? <==> TransitionResult(CameraOf(c), org, to).Err?
      ensures r.Err? ==> r.error == TransitionResult(CameraOf(c), org, to).error
      ensures r.Ok? ==> r.value == if Changes(CameraOf(c), org, to) then CameraOf(c).row else None
      ensures r == Err(NotFound) <==> c !in rows || rows[c].org != org
      ensures r == Err(InvalidTransition) <==> c in rows && rows[c].org == org && Barred(rows[c].status, to)
      ensures r.Ok? ==> (r.value.None? <==> rows[c].status == to)
    {
      if c !in rows || rows[c].org != org {
        return Err(NotFound);
      }
      var camera := rows[c];
      if to == camera.status {
        return Ok(None);
      }
      if to != Offline && !Edge(camera.status, to) {
        return Err(InvalidTransition);
      }
      return Ok(Some(camera));
    }

    /** The rest: the write, the record, and the notify job. */
    method WriteTransition(c: CameraId, camera: Row, to: Status, now: Time)
      requires c in rows
      modifies this, health
      ensures CameraOf(c) == Written(old(CameraOf(c)), camera, to, now)
      ensures CameraOf(c).row == Some(old(rows)[c].(status := to))
      ensures CameraOf(c).notify ==
        var job := old(CameraOf(c)).notify;
        if camera.maintenance || to == Connecting || (job.Some? && job.value.active) then job
        else Some(NotifyJob(to, camera.status, now + 30_000, false))
      ensures forall d | d != c :: CameraOf(d) == old(CameraOf(d))
    {
      rows := rows[c := rows[c].(status := to)];
      health.RecordTransition(c, now, camera.status, to);
      if camera.maintenance {
        return;
      }
      if !Notifiable(to) {
        return;
      }
      if c in notifyJobs && !notifyJobs[c].active {
        notifyJobs := notifyJobs - {c};
      }
      if c !in notifyJobs {
        notifyJobs := notifyJobs[c := NotifyJob(to, camera.status, now + NOTIFY_DELAY_MS, false)];
      }
    }

    /** The whole call, with nothing in between. */
    method Transition(c: CameraId, org: OrgId, to: Status, now: Time) returns (r: Result<(), TransitionError>)
      modifies this, health
      ensures r == TransitionResult(old(CameraOf(c)), org, to)
      ensures CameraOf(c) == Transitioned(old(CameraOf(c)), org, to, now)
      ensures r == Err(NotFound) <==> !(c in old(rows) && old(rows)[c].org == org)
      ensures r == Err(InvalidTransition)
        <==> c in old(rows) && old(rows)[c].org == org && Barred(old(rows)[c].status, to)
      ensures r.Ok? ==> CameraOf(c).row == Some(old(rows)[c].(status := to))
      ensures r.Err? ==> CameraOf(c) == old(CameraOf(c))
      ensures forall d | d != c :: CameraOf(d) == old(CameraOf(d))
    {
      TransitionOutcome(CameraOf(c), org, to, now);
      var checked := CheckTransition(c, org, to);
      if checked.Err? {
        return Err(checked.error);
      }
      if checked.value.Some? {
        WriteTransition(c, checked.value.value, to, now);
      }
      return Ok(());
    }
  }

  class NotifyDispatchProcessor {
    const status: StatusService
    /** What the webhook and notification services were given, per camera. */
    var delivered: map<CameraId, seq<Delivery>>

    constructor (status: StatusService)
      ensures this.status == status && delivered == map[]
    {
      this.status := status;
      delivered := map[];
    }

    function DeliveredTo(c: CameraId): seq<Delivery>
      reads this
    {
      if c in delivered then delivered[c] else []
    }

    method Take(c: CameraId, now: Time)
      modifies status
      ensures status.CameraOf(c) == Taken(old(status.CameraOf(c)), now)
      ensures c in status.notifyJobs && status.notifyJobs[c].active
        <==> c in old(status.notifyJobs) && (old(status.notifyJobs)[c].active || old(status.notifyJobs)[c].due <= now)
      ensures forall d | d != c :: status.CameraOf(d) == old(status.CameraOf(d))
    {
      if c in status.notifyJobs && !status.notifyJobs[c].active && status.notifyJobs[c].due <= now {
        status.notifyJobs := status.notifyJobs[c := status.notifyJobs[c].(active := true)];
      }
    }

    /** The body of `process`, and the removal of the completed job. */
    method Process(c: CameraId, now: Time)
      requires c in status.notifyJobs && status.notifyJobs[c].active
      modifies this, status
      ensures status.CameraOf(c) == Finished(old(status.CameraOf(c))) == old(status.CameraOf(c)).(notify := None)
      ensures DeliveredTo(c) == old(DeliveredTo(c)) +
        (if Delivers(old(status.CameraOf(c)))
         then [Delivery(old(status.notifyJobs)[c].newStatus, old(status.notifyJobs)[c].previousStatus, now)] else [])
      ensures |DeliveredTo(c)| > |old(DeliveredTo(c))|
        <==> c in old(status.rows) && !old(status.rows)[c].maintenance
             && old(status.rows)[c].status == old(status.notifyJobs)[c].newStatus
      ensures forall d | d != c ::
        status.CameraOf(d) == old(status.CameraOf(d)) && DeliveredTo(d) == old(DeliveredTo(d))
    {
      var job := status.notifyJobs[c];
      status.notifyJobs := status.notifyJobs - {c};
      if c !in status.rows {
        return;
      }
      var camera := status.rows[c];
      if camera.maintenance {
        return;
      }
      if camera.status != job.newStatus {
        return;
      }
      delivered := delivered[c := DeliveredTo(c) + [Delivery(job.newStatus, job.previousStatus, now)]];
    }
  }
}
