/**
 The debounced notification of one camera, with the status changes cut at their awaits.

 A change is a read, an update, a look at the notify job, its removal and the addition of the new
 one; a dispatch is the pick-up, the check with the delivery, and the removal of the completed job.
 Changes may overlap each other and a dispatch, so jobs get lost and a delivery can come early.
 The module says exactly when.
 */
module NotifyDebounce {
  import opened Common
  import opened StatusNotify

  type CallId = nat

  datatype Phase = Updating | Looking | Removing | Adding

  /** A `transition` that has read the row and found a change that is allowed. */
  datatype Call = Call(from: Status, to: Status, maintenance: bool, phase: Phase)

  /**
   `dispatched` says that the active job is past its check; `lastChange` is the time of the latest
   update and, like `delivered`, a history.
   */
  datatype State = State(
    status: Status, maintenance: bool, job: Option<NotifyJob>, dispatched: bool,
    calls: map<CallId, Call>, now: Time, lastChange: Option<Time>, delivered: seq<Delivery>)

  /** `ForceOffline` is the direct write that ends entering maintenance. */
  datatype Event =
    | Read(call: CallId, to: Status)
    | Continue(call: CallId)
    | SetMaintenance(on: bool)
    | ForceOffline
    | Take
    | Dispatch
    | Finish

  datatype Timed = Timed(at: Time, event: Event)

  /** The next stretch of a call, up to its next await. */
  function Continued(s: State, id: CallId): State
    requires id in s.calls
  {
    var call := s.calls[id];
    match call.phase
    case Updating =>
      var s' := s.(status := call.to, lastChange := Some(s.now));
      if call.maintenance || !Notifiable(call.to) then s'.(calls := s.calls - {id})
      else s'.(calls := s.calls[id := call.(phase := Looking)])
    case Looking =>
      s.(calls := s.calls[id := call.(phase := if s.job.Some? then Removing else Adding)])
    case Removing =>
      s.(job := if s.job.Some? && s.job.value.active then s.job else None,
         calls := s.calls[id := call.(phase := Adding)])
    case Adding =>
      s.(job := if s.job.Some? then s.job else Some(NotifyJob(call.to, call.from, s.now + NOTIFY_DELAY_MS, false)),
         calls := s.calls - {id})
  }

  predicate Checking(s: State) {
    s.job.Some? && s.job.value.active && !s.dispatched
  }

  /** The check of a dispatch that delivers. */
  predicate DeliversNow(s: State) {
    Checking(s) && !s.maintenance && s.status == s.job.value.newStatus
  }

  function Step(before: State, t: Timed): State {
    var s := before.(now := t.at);
    match t.event
    case Read(id, to) =>
      if id in s.calls || to == s.status || !Allowed(s.status, to) then s
      else s.(calls := s.calls[id := Call(s.status, to, s.maintenance, Updating)])
    case Continue(id) =>
      if id in s.calls then Continued(s, id) else s
    case SetMaintenance(on) =>
      s.(maintenance := on)
    case ForceOffline =>
      s.(status := Offline)
    case Take =>
      if s.job.Some? && !s.job.value.active && s.job.value.due <= s.now
      then s.(job := Some(s.job.value.(active := true)), dispatched := false) else s
    case Dispatch =>
      if DeliversNow(s)
      then s.(dispatched := true, delivered := s.delivered + [Delivery(s.status, s.job.value.previousStatus, s.now)])
      else if Checking(s) then s.(dispatched := true) else s
    case Finish =>
      if s.job.Some? && s.job.value.active && s.dispatched then s.(job := None) else s
  }

  function Run(s: State, events: seq<Timed>): State
    decreases |events|
  {
    if events == [] then s else Run(Step(s, events[0]), events[1..])
  }

  /** The clock does not go back. */
  ghost predicate Ordered(s: State, events: seq<Timed>)
    decreases |events|
  {
    events == [] || (s.now <= events[0].at && Ordered(Step(s, events[0]), events[1..]))
  }

  // ---- One call, undisturbed ----

  function Do(s: State, e: Event): State {
    Step(s, Timed(s.now, e))
  }

  /** A call that nothing overlaps does what `StatusNotify.Transitioned` says. */
  lemma UndisturbedTransition(s: State, id: CallId, c: Camera, org: OrgId, to: Status)
    requires s.calls == map[] && c.row == Some(Row(org, s.status, s.maintenance)) && c.notify == s.job
    ensures var c' := Transitioned(c, org, to, s.now);
      var updated := Do(Do(s, Read(id, to)), Continue(id));
      var s' := Do(Do(Do(updated, Continue(id)), Continue(id)), Continue(id));
      s'.calls == map[] && s'.job == c'.notify && c'.row == Some(Row(org, s'.status, s'.maintenance))
  {
    var read := Do(s, Read(id, to));
    if Changes(c, org, to) {
      assert read.calls == map[id := Call(s.status, to, s.maintenance, Updating)];
      var updated := Do(read, Continue(id));
      if updated.calls == map[] {
        assert updated.job == s.job;
      } else {
        var looked := Do(updated, Continue(id));
        assert looked.calls.Keys == {id};
        if s.job.Some? {
          var removed := Do(looked, Continue(id));
          assert removed.calls.Keys == {id} && removed.calls[id].phase == Adding;
          assert Do(removed, Continue(id)).calls == map[];
        } else {
          assert looked.calls[id].phase == Adding;
          assert Do(looked, Continue(id)).calls == map[];
        }
      }
    } else {
      assert read == s;
    }
  }

  /** A dispatch that nothing overlaps delivers and ends as the processor's method does. */
  lemma UndisturbedDispatch(s: State, c: Camera)
    requires c.row.Some? && c.row.value.status == s.status && c.row.value.maintenance == s.maintenance
    requires c.notify == s.job && Checking(s)
    ensures var s' := Do(Do(s, Dispatch), Finish);
      && s'.job == Finished(c).notify
      && s'.delivered == s.delivered +
           (if Delivers(c) then [Delivery(s.job.value.newStatus, s.job.value.previousStatus, s.now)] else [])
  {}

  /** What comes from outside, and the three steps of a dispatch. */
  lemma DispatchSteps(s: State, on: bool)
    ensures Do(s, SetMaintenance(on)) == s.(maintenance := on) && Do(s, ForceOffline) == s.(status := Offline)
    ensures var job := s.job;
      && Do(s, Take) ==
           (if job.Some? && !job.value.active && job.value.due <= s.now
            then s.(job := Some(job.value.(active := true)), dispatched := false) else s)
      && (job.Some? && job.value.active && !s.dispatched ==>
            var delivered := !s.maintenance && s.status == job.value.newStatus;
            && Do(s, Dispatch).dispatched
            && Do(s, Dispatch).delivered == s.delivered
                 + (if delivered then [Delivery(job.value.newStatus, job.value.previousStatus, s.now)] else [])
            && Do(Do(s, Dispatch), Finish).job == None)
  {}

  // ---- Every delivery is current ----

  ghost predicate Sound(s: State) {
    && (s.job.Some? ==>
          var job := s.job.value;
          Notifiable(job.newStatus) && (job.active ==> job.due <= s.now) && s.lastChange.Some?)
    && (s.lastChange.Some? ==> s.lastChange.value <= s.now)
    && (s.delivered != [] ==> s.lastChange.Some?)
    && (forall id | id in s.calls && !s.calls[id].phase.Updating? :: Notifiable(s.calls[id].to) && s.lastChange.Some?)
  }

  lemma SoundStep(s: State, t: Timed)
    requires Sound(s) && s.now <= t.at
    ensures Sound(Step(s, t))
  {
    if t.event.Continue? && t.event.call in s.calls {
      SoundContinued(s.(now := t.at), t.event.call);
    }
    hide Continued, Notifiable;
  }

  lemma SoundContinued(s: State, id: CallId)
    requires Sound(s) && id in s.calls
    ensures Sound(Continued(s, id))
  {
    assert forall other | other in Continued(s, id).calls && other != id ::
      Continued(s, id).calls[other] == s.calls[other];
    hide Notifiable;
  }

  /**
   In every run, whatever overlaps: a delivered event names the status the camera has at that
   moment, outside maintenance, and comes at least thirty seconds after its job was scheduled; no
   job delivers twice; and `connecting` is never pending or delivered.
   */
  lemma {:induction false} DeliveriesAreCurrent(s: State, events: seq<Timed>)
    requires Ordered(s, events)
    requires Sound(s)
    ensures var s' := Run(s, events);
      && Sound(s')
      && forall t: Timed | t.at >= s'.now ::
           var s'' := Step(s', t);
           s''.delivered != s'.delivered ==>
             && !s'.maintenance && Notifiable(s'.status)
             && |s''.delivered| == |s'.delivered| + 1
             && s''.delivered[|s'.delivered|].status == s'.status
             && s'.job.value.due <= t.at
             && !Checking(s'')
    decreases |events|
  {
    if events != [] {
      SoundStep(s, events[0]);
      DeliveriesAreCurrent(Step(s, events[0]), events[1..]);
    }
  }

  // ---- The present status stays covered ----

  /** The outside has last been told this status. */
  predicate Told(s: State, p: Status) {
    s.delivered != [] && s.delivered[|s.delivered| - 1].status == p
  }

  /** The job at hand will still be checked for this status. */
  predicate JobFor(s: State, p: Status) {
    s.job.Some? && s.job.value.newStatus == p && !(s.job.value.active && s.dispatched)
  }

  /** The call has yet to add the job for this status. */
  predicate Pending(s: State, id: CallId, p: Status) {
    id in s.calls && !s.calls[id].phase.Updating? && s.calls[id].to == p
  }

  ghost predicate CoveredFor(s: State, p: Status) {
    Told(s, p) || JobFor(s, p) || exists id :: Pending(s, id, p)
  }

  /** If the present status is one that is notified, it has been delivered or something is still to do so. */
  ghost predicate Covered(s: State) {
    Notifiable(s.status) ==> CoveredFor(s, s.status)
  }

  predicate SetsStatus(s: State, e: Event) {
    e == ForceOffline || (e.Continue? && e.call in s.calls && s.calls[e.call].phase.Updating?)
  }

  /** Another call is still to add the job. */
  ghost predicate OtherPending(s: State, id: CallId, p: Status) {
    exists other :: other != id && Pending(s, other, p)
  }

  /**
   The ways in which the present status loses its notification: an update whose call had read the
   camera in maintenance, or a write of `offline` past the status machine; a removal that hits the
   job of the present status; an addition that finds another job in place; and a check during
   maintenance. Each counts only where nothing else covers the status.
   */
  ghost predicate Uncovers(s: State, e: Event) {
    match e
    case Continue(id) =>
      id in s.calls && (
        var call := s.calls[id];
        match call.phase
        case Updating => call.maintenance && Notifiable(call.to) && !CoveredFor(s, call.to)
        case Looking => false
        case Removing =>
          && Notifiable(s.status) && s.job.Some? && !s.job.value.active && s.job.value.newStatus == s.status
          && !Told(s, s.status) && !exists other :: Pending(s, other, s.status)
        case Adding =>
          && call.to == s.status && Notifiable(s.status) && s.job.Some? && !JobFor(s, s.status)
          && !Told(s, s.status) && !OtherPending(s, id, s.status))
    case ForceOffline => !CoveredFor(s, Offline)
    case Dispatch =>
      && Checking(s) && s.maintenance && s.job.value.newStatus == s.status && Notifiable(s.status)
      && !Told(s, s.status) && !exists other :: Pending(s, other, s.status)
    case _ => false
  }

  /** Setting a status covers it exactly outside the named cases, whatever was before. */
  lemma SettingCovers(s: State, t: Timed)
    requires SetsStatus(s, t.event)
    ensures Covered(Step(s, t)) <==> !Uncovers(s, t.event)
  {
    var s' := Step(s, t);
    if t.event.Continue? {
      var id := t.event.call;
      var call := s.calls[id];
      if call.maintenance || !Notifiable(call.to) {
        SamePending(s, s', id, call.to);
      } else {
        assert Pending(s', id, call.to);
      }
    } else {
      SamePending(s, s', 0, Offline);
    }
  }

  /** A step that takes at most a call without a job to add away leaves the pending ones as they are. */
  lemma SamePending(s: State, s': State, id: CallId, p: Status)
    requires forall other | other != id :: (other in s.calls) == (other in s'.calls)
    requires forall other | other != id && other in s.calls :: s.calls[other] == s'.calls[other]
    requires Pending(s, id, p) == Pending(s', id, p)
    ensures (exists other :: Pending(s, other, p)) <==> exists other :: Pending(s', other, p)
  {
    if other :| Pending(s, other, p) {
      assert Pending(s', other, p);
    }
    if other :| Pending(s', other, p) {
      assert Pending(s, other, p);
    }
  }

  /** Any other step keeps the status covered exactly outside the named cases, and covers none that is not. */
  lemma CoveredKeptIff(s: State, t: Timed)
    requires !SetsStatus(s, t.event)
    ensures Covered(Step(s, t)) <==> Covered(s) && !Uncovers(s, t.event)
  {
    var s' := Step(s, t);
    var p := s.status;
    assert s'.status == p;
    if t.event.Continue? {
      var id := t.event.call;
      if id in s.calls && s.calls[id].phase == Adding && s.calls[id].to == p {
        assert Pending(s, id, p);
        AddCovers(s, t, id);
      } else {
        SamePending(s, s', id, p);
      }
    } else {
      SamePending(s, s', if t.event.Read? then t.event.call else 0, p);
    }
  }

  lemma AddCovers(s: State, t: Timed, id: CallId)
    requires Pending(s, id, s.status) && s.calls[id].phase == Adding && t.event == Continue(id)
    ensures var s' := Step(s, t);
      CoveredFor(s', s.status) <==>
        (s.job.None? || JobFor(s, s.status) || Told(s, s.status) || OtherPending(s, id, s.status))
  {
    var s' := Step(s, t);
    if other :| other != id && Pending(s, other, s.status) {
      assert Pending(s', other, s.status);
    }
    if other :| Pending(s', other, s.status) {
      assert other != id && Pending(s, other, s.status);
    }
  }

  ghost predicate NeverSets(s: State, events: seq<Timed>)
    decreases |events|
  {
    events == [] || (!SetsStatus(s, events[0].event) && NeverSets(Step(s, events[0]), events[1..]))
  }

  ghost predicate NeverUncovers(s: State, events: seq<Timed>)
    decreases |events|
  {
    events == [] || (!Uncovers(s, events[0].event) && NeverUncovers(Step(s, events[0]), events[1..]))
  }

  lemma {:induction false} CoveredAlongIff(s: State, events: seq<Timed>)
    requires NeverSets(s, events)
    ensures Covered(Run(s, events)) <==> Covered(s) && NeverUncovers(s, events)
    ensures Run(s, events).status == s.status
    decreases |events|
  {
    hide Covered, Uncovers;
    if events != [] {
      CoveredKeptIff(s, events[0]);
      CoveredAlongIff(Step(s, events[0]), events[1..]);
    }
  }

  /** Nothing is left to do. */
  predicate Settled(s: State) {
    s.calls == map[] && s.job.None?
  }

  /**
   A change to a notified status, and whatever follows until the camera settles, as long as the
   status is not set again: the outside is told the status last if and only if none of the named
   losses happens, at the change or on the way.
   */
  lemma LastStatusToldIff(s: State, t: Timed, events: seq<Timed>)
    requires SetsStatus(s, t.event) && NeverSets(Step(s, t), events)
    requires Notifiable(Step(s, t).status) && Settled(Run(Step(s, t), events))
    ensures Told(Run(Step(s, t), events), Step(s, t).status)
      <==> NeverUncovers(s, [t] + events)
  {
    var s' := Step(s, t);
    SettingCovers(s, t);
    CoveredAlongIff(s', events);
    assert ([t] + events)[1..] == events;
    assert !exists id :: Pending(Run(s', events), id, s'.status);
    hide Uncovers;
  }

  // ---- Bursts ----

  predicate Quiet(e: Event) {
    !e.SetMaintenance? && !e.ForceOffline?
  }

  /** One event of a burst outside maintenance: a change comes less than thirty seconds after the one before it. */
  predicate InBurst(s: State, t: Timed) {
    && s.now <= t.at && Quiet(t.event)
    && (SetsStatus(s, t.event) && s.lastChange.Some? ==> t.at < s.lastChange.value + NOTIFY_DELAY_MS)
  }

  ghost predicate Burst(s: State, events: seq<Timed>)
    decreases |events|
  {
    events == [] || (InBurst(s, events[0]) && Burst(Step(s, events[0]), events[1..]))
  }

  ghost predicate BurstInv(s: State) {
    Sound(s) && !s.maintenance && forall id | id in s.calls :: !s.calls[id].maintenance
  }

  lemma BurstStep(s: State, t: Timed)
    requires BurstInv(s) && InBurst(s, t)
    ensures BurstInv(Step(s, t))
  {
    SoundStep(s, t);
    hide Sound;
  }

  predicate Delivering(s: State, t: Timed) {
    t.event.Dispatch? && DeliversNow(s)
  }

  /** The burst can still change the status, or a call is still to add a job for the one it has. */
  ghost predicate Early(s: State, t: Timed) {
    || (s.lastChange.Some? && t.at < s.lastChange.value + NOTIFY_DELAY_MS)
    || exists id :: Pending(s, id, s.status)
  }

  /** The burst goes on to a further delivery. */
  ghost predicate CanDeliver(s: State) {
    exists events :: Burst(s, events) && |Run(s, events).delivered| > |s.delivered|
  }

  /** Its last change is thirty seconds old and nothing will be checked for its status any more. */
  ghost predicate Over(s: State) {
    && s.lastChange.Some? && s.lastChange.value + NOTIFY_DELAY_MS <= s.now
    && !JobFor(s, s.status) && !exists id :: Pending(s, id, s.status)
  }

  lemma OverStep(s: State, t: Timed)
    requires Over(s) && InBurst(s, t)
    ensures var s' := Step(s, t); Over(s') && s'.delivered == s.delivered && s'.status == s.status
  {
    var s' := Step(s, t);
    assert !SetsStatus(s, t.event);
    assert t.event.Continue? ==> !Pending(s, t.event.call, s.status);
    if id :| Pending(s', id, s.status) {
      assert Pending(s, id, s.status);
    }
  }

  lemma {:induction false} OverStays(s: State, events: seq<Timed>)
    requires Over(s) && Burst(s, events)
    ensures var s' := Run(s, events); Over(s') && s'.delivered == s.delivered && s'.status == s.status
    decreases |events|
  {
    hide Over;
    if events != [] {
      OverStep(s, events[0]);
      OverStays(Step(s, events[0]), events[1..]);
    }
  }

  lemma LateDeliveryEnds(s: State, t: Timed)
    requires BurstInv(s) && InBurst(s, t) && Delivering(s, t) && !Early(s, t)
    ensures Over(Step(s, t))
  {
    var s' := Step(s, t);
    if id :| Pending(s', id, s'.status) {
      assert Pending(s, id, s.status);
    }
  }

  lemma CanDeliverBefore(s: State, t: Timed)
    requires InBurst(s, t) && CanDeliver(Step(s, t)) && |s.delivered| <= |Step(s, t).delivered|
    ensures CanDeliver(s)
  {
    hide InBurst, Step;
    var s' := Step(s, t);
    var events :| Burst(s', events) && |Run(s', events).delivered| > |s'.delivered|;
    var all := [t] + events;
    assert all[1..] == events && all[0] == t;
    assert Burst(s, all) && Run(s, all) == Run(s', events);
  }

  lemma WaitingJobCanDeliver(s: State)
    requires !s.maintenance && s.job.Some? && !s.job.value.active && s.job.value.newStatus == s.status
    ensures CanDeliver(s)
  {
    var due := if s.job.value.due < s.now then s.now else s.job.value.due;
    var s1 := Step(s, Timed(due, Take));
    var s2 := Step(s1, Timed(due, Dispatch));
    assert s2.delivered == s1.delivered + [Delivery(s.status, s.job.value.previousStatus, due)];
    assert CanDeliver(s1) by {
      var events := [Timed(due, Dispatch)];
      assert events[1..] == [];
      assert Run(s1, events) == Run(s2, []) == s2 && Burst(s1, events);
    }
    CanDeliverBefore(s, Timed(due, Take));
  }

  /** With no job in place a pending call adds its own, which then delivers. */
  lemma {:induction false} PendingCanDeliver(s: State, id: CallId)
    requires !s.maintenance && s.job.None? && Pending(s, id, s.status)
    ensures CanDeliver(s)
    decreases match s.calls[id].phase case Updating => 3 case Looking => 2 case Removing => 1 case Adding => 0
  {
    var t := Timed(s.now, Continue(id));
    var s' := Step(s, t);
    if s.calls[id].phase == Adding {
      WaitingJobCanDeliver(s');
    } else {
      PendingCanDeliver(s', id);
    }
    CanDeliverBefore(s, t);
  }

  lemma {:induction false} UnusedCall(calls: set<CallId>) returns (id: CallId)
    ensures id !in calls && forall c | c in calls :: c < id
    decreases calls
  {
    if calls == {} {
      id := 0;
    } else {
      var c :| c in calls;
      assert calls == (calls - {c}) + {c};
      id := UnusedCall(calls - {c});
      id := if id <= c then c + 1 else id;
    }
  }

  lemma YoungChangeCanDeliver(s: State)
    requires BurstInv(s) && s.job.None? && s.lastChange.Some? && s.now < s.lastChange.value + NOTIFY_DELAY_MS
    ensures CanDeliver(s)
  {
    var id := UnusedCall(s.calls.Keys);
    var to := if s.status == Offline then Online else Offline;
    var s1 := Do(s, Read(id, to));
    var s2 := Do(s1, Continue(id));
    assert s2.status == to && Pending(s2, id, to);
    PendingCanDeliver(s2, id);
    CanDeliverBefore(s1, Timed(s.now, Continue(id)));
    CanDeliverBefore(s, Timed(s.now, Read(id, to)));
  }

  /**
   A delivery is the burst's last one unless it is early: some continuation of the burst delivers
   again if and only if the last change is less than thirty seconds old or a call has still to add
   a job for the status just delivered.
   */
  lemma DeliveryIsLastIff(s: State, t: Timed)
    requires BurstInv(s) && InBurst(s, t) && Delivering(s, t)
    ensures CanDeliver(Step(s, t)) <==> Early(s, t)
  {
    var s' := Step(s, t);
    BurstStep(s, t);
    if Early(s, t) {
      var finish := Timed(t.at, Finish);
      var done := Step(s', finish);
      BurstStep(s', finish);
      assert done.job.None?;
      if id :| Pending(s, id, s.status) {
        assert Pending(done, id, done.status);
        PendingCanDeliver(done, id);
      } else {
        YoungChangeCanDeliver(done);
      }
      CanDeliverBefore(s', finish);
    } else {
      LateDeliveryEnds(s, t);
      forall events | Burst(s', events)
        ensures |Run(s', events).delivered| <= |s'.delivered|
      {
        OverStays(s', events);
      }
    }
  }

  /** A camera outside maintenance with nothing pending, changed or delivered. */
  ghost predicate Fresh(s: State) {
    !s.maintenance && s.job.None? && s.calls == map[] && s.lastChange.None? && s.delivered == []
  }

  ghost predicate NeverEarly(s: State, events: seq<Timed>)
    decreases |events|
  {
    events == [] || (!(Delivering(s, events[0]) && Early(s, events[0])) && NeverEarly(Step(s, events[0]), events[1..]))
  }

  ghost predicate OnceAtMost(s: State) {
    s.delivered == [] || (|s.delivered| == 1 && s.delivered[0].status == s.status && Over(s))
  }

  lemma OnceStep(s: State, t: Timed)
    requires BurstInv(s) && OnceAtMost(s) && InBurst(s, t) && !(Delivering(s, t) && Early(s, t))
    ensures OnceAtMost(Step(s, t))
  {
    if s.delivered != [] {
      OverStep(s, t);
    } else if Delivering(s, t) {
      LateDeliveryEnds(s, t);
    }
  }

  lemma {:induction false} OnceRun(s: State, events: seq<Timed>)
    requires BurstInv(s) && OnceAtMost(s) && Burst(s, events) && NeverEarly(s, events)
    ensures OnceAtMost(Run(s, events))
    decreases |events|
  {
    hide BurstInv, OnceAtMost, InBurst, Early;
    if events != [] {
      BurstStep(s, events[0]);
      OnceStep(s, events[0]);
      OnceRun(Step(s, events[0]), events[1..]);
    }
  }

  /** A burst without an early delivery delivers at most once, for the status it ends in. */
  lemma BurstDeliversOnce(s: State, events: seq<Timed>)
    requires Fresh(s) && Burst(s, events) && NeverEarly(s, events)
    ensures var s' := Run(s, events);
      |s'.delivered| <= 1 && (s'.delivered != [] ==> s'.delivered[0].status == s'.status)
  {
    OnceRun(s, events);
  }

  // ---- Bursts without overlap ----

  /** Calls do not overlap each other, and no dispatch is under way while one runs. */
  predicate Alone(s: State, e: Event) {
    && (e.Read? ==> s.calls == map[] && !(s.job.Some? && s.job.value.active))
    && (e.Take? ==> s.calls == map[])
  }

  ghost predicate AloneAlong(s: State, events: seq<Timed>)
    decreases |events|
  {
    events == [] || (Alone(s, events[0].event) && AloneAlong(Step(s, events[0]), events[1..]))
  }

  /** At most one call runs; it is for the present status once it is past its update, and no dispatch is under way. */
  ghost predicate AloneInv(s: State) {
    && (forall i, j | i in s.calls && j in s.calls :: i == j)
    && (s.calls != map[] ==> !(s.job.Some? && s.job.value.active))
    && (forall id | id in s.calls && !s.calls[id].phase.Updating? ::
          s.calls[id].to == s.status && (s.calls[id].phase == Adding ==> s.job.None?))
    && ((forall id | id in s.calls :: s.calls[id].phase.Updating?)
        && s.job.Some? && s.job.value.newStatus == s.status ==>
          s.lastChange.Some? && s.lastChange.value + NOTIFY_DELAY_MS <= s.job.value.due)
  }

  lemma AloneStep(s: State, t: Timed)
    requires BurstInv(s) && AloneInv(s) && InBurst(s, t) && Alone(s, t.event)
    ensures AloneInv(Step(s, t))
  {
    if t.event.Continue? && t.event.call in s.calls {
      AloneContinued(s.(now := t.at), t.event.call);
    }
    hide Continued, Notifiable;
  }

  lemma AloneContinued(s: State, id: CallId)
    requires BurstInv(s) && AloneInv(s) && id in s.calls
    ensures AloneInv(Continued(s, id))
  {
    var s' := Continued(s, id);
    assert forall other | other in s.calls :: other == id;
    assert id !in s'.calls ==> s'.calls == map[];
    if s.calls[id].phase == Adding {
      assert s'.job.value.due == s.now + NOTIFY_DELAY_MS;
    }
  }

  lemma AloneNeverEarly(s: State, t: Timed)
    requires BurstInv(s) && AloneInv(s) && InBurst(s, t) && Delivering(s, t)
    ensures !Early(s, t)
  {
    assert s.calls == map[];
  }

  lemma AloneNeverUncovers(s: State, t: Timed)
    requires BurstInv(s) && AloneInv(s) && InBurst(s, t)
    ensures !Uncovers(s, t.event)
  {
    if t.event.Continue? && t.event.call in s.calls && s.calls[t.event.call].phase == Removing {
      assert Pending(s, t.event.call, s.status);
    }
  }

  lemma AloneCovers(s: State, t: Timed)
    requires BurstInv(s) && AloneInv(s) && InBurst(s, t)
    requires s.lastChange.Some? ==> Covered(s)
    ensures var s' := Step(s, t); s'.lastChange.Some? ==> Covered(s')
  {
    AloneNeverUncovers(s, t);
    if SetsStatus(s, t.event) {
      SettingCovers(s, t);
    } else {
      CoveredKeptIff(s, t);
    }
    hide Covered, Uncovers, AloneInv, BurstInv;
  }

  lemma {:induction false} AloneRun(s: State, events: seq<Timed>)
    requires BurstInv(s) && AloneInv(s) && Burst(s, events) && AloneAlong(s, events)
    requires s.lastChange.Some? ==> Covered(s)
    ensures NeverEarly(s, events)
    ensures var s' := Run(s, events); s'.lastChange.Some? ==> Covered(s')
    decreases |events|
  {
    hide BurstInv, AloneInv, InBurst, Early, Alone, Covered, Delivering, Step;
    if events != [] {
      AloneStep(s, events[0]);
      AloneCovers(s, events[0]);
      if Delivering(s, events[0]) {
        AloneNeverEarly(s, events[0]);
      }
      BurstStep(s, events[0]);
      AloneRun(Step(s, events[0]), events[1..]);
    }
  }

  /**
   A burst without overlap delivers at most once, for the status it ends in; and once it has
   settled, exactly once if that status is notified at all and not if it is not.
   */
  lemma BurstWithoutOverlap(s: State, events: seq<Timed>)
    requires Fresh(s) && Burst(s, events) && AloneAlong(s, events)
    ensures var s' := Run(s, events);
      && |s'.delivered| <= 1
      && (s'.delivered != [] ==> s'.delivered[0].status == s'.status)
      && (s'.lastChange.Some? && Settled(s') ==> (|s'.delivered| == 1 <==> Notifiable(s'.status)))
  {
    AloneRun(s, events);
    BurstDeliversOnce(s, events);
    BurstInvAlong(s, events);
    var s' := Run(s, events);
    hide Run, Burst, AloneAlong, NeverEarly;
    if s'.lastChange.Some? && Settled(s') {
      assert !exists id :: Pending(s', id, s'.status);
    }
  }

  lemma {:induction false} BurstInvAlong(s: State, events: seq<Timed>)
    requires BurstInv(s) && Burst(s, events)
    requires s.delivered != [] ==> Notifiable(s.delivered[|s.delivered| - 1].status)
    ensures var s' := Run(s, events);
      && BurstInv(s')
      && (s'.delivered != [] ==> Notifiable(s'.delivered[|s'.delivered| - 1].status))
    decreases |events|
  {
    if events != [] {
      BurstStep(s, events[0]);
      BurstInvAlong(Step(s, events[0]), events[1..]);
    }
  }

  // ---- What overlap costs ----

  lemma {:induction false} Append(s: State, a: seq<Timed>, b: seq<Timed>)
    ensures Run(s, a + b) == Run(Run(s, a), b)
    ensures Burst(s, a + b) <==> Burst(s, a) && Burst(Run(s, a), b)
    decreases |a|
  {
    hide Step, InBurst;
    if a == [] {
      assert a + b == b;
    } else {
      assert (a + b)[1..] == a[1..] + b;
      Append(Step(s, a[0]), a[1..], b);
    }
  }

  lemma OneStep(s: State, t: Timed)
    ensures Run(s, [t]) == Step(s, t) && (Burst(s, [t]) <==> InBurst(s, t))
  {
    hide Step, InBurst;
    assert [t][1..] == [];
  }

  /** One more event at the end of a run. */
  lemma Then(s: State, events: seq<Timed>, t: Timed)
    ensures Run(s, events + [t]) == Step(Run(s, events), t)
    ensures Burst(s, events + [t]) <==> Burst(s, events) && InBurst(Run(s, events), t)
  {
    Append(s, events, [t]);
    OneStep(Run(s, events), t);
  }

  /** The events of a whole call at one moment; a call may need fewer continuations. */
  function WholeCall(id: CallId, to: Status, at: Time): seq<Timed> {
    [Timed(at, Read(id, to))] + [Timed(at, Continue(id))] + [Timed(at, Continue(id))]
      + [Timed(at, Continue(id))] + [Timed(at, Continue(id))]
  }

  lemma WholeCallRuns(s: State, id: CallId, to: Status, at: Time)
    requires s.calls == map[] && !s.maintenance && to != s.status && Allowed(s.status, to) && s.now <= at
    requires s.lastChange.Some? ==> at < s.lastChange.value + NOTIFY_DELAY_MS
    ensures Run(s, WholeCall(id, to, at)) == s.(now := at, status := to, lastChange := Some(at),
      job := if Notifiable(to) then Scheduled(s.job, to, s.status, at) else s.job)
    ensures Burst(s, WholeCall(id, to, at))
  {
    var read, go := Timed(at, Read(id, to)), Timed(at, Continue(id));
    var s1 := Step(s, read);
    var s2 := Step(s1, go);
    assert s1.calls == map[id := Call(s.status, to, false, Updating)];
    assert InBurst(s, read) && InBurst(s1, go);
    if Notifiable(to) {
      assert s2.calls == map[id := Call(s.status, to, false, Looking)];
      LookAndAdd(s2, id);
    } else {
      assert s2.calls == map[];
    }
    var s3 := Step(s2, go);
    var s4 := Step(s3, go);
    hide Step, InBurst, Run, Burst, Scheduled;
    OneStep(s, read);
    Then(s, [read], go);
    Then(s, [read] + [go], go);
    Then(s, [read] + [go] + [go], go);
    Then(s, [read] + [go] + [go] + [go], go);
  }

  lemma LookAndAdd(s: State, id: CallId)
    requires id in s.calls && s.calls.Keys == {id} && s.calls[id].phase.Looking?
    ensures var go := Timed(s.now, Continue(id));
      var s' := Step(Step(s, go), go);
      && InBurst(s, go) && InBurst(Step(s, go), go) && InBurst(s', go)
      && Step(s', go) == s.(calls := map[], job := Scheduled(s.job, s.calls[id].to, s.calls[id].from, s.now))
  {
    var go := Timed(s.now, Continue(id));
    var s1 := Step(s, go);
    assert s1.calls.Keys == {id};
    var s2 := Step(s1, go);
    assert s2.calls.Keys <= {id};
    assert Step(s2, go).calls == map[];
  }

  /** The events of a whole dispatch at one moment, of a job that may have been picked up before. */
  function WholeDispatch(at: Time): seq<Timed> {
    [Timed(at, Take)] + [Timed(at, Dispatch)] + [Timed(at, Finish)]
  }

  lemma WholeDispatchRuns(s: State, at: Time)
    requires s.job.Some? && s.job.value.due <= at && s.now <= at && !s.maintenance
    requires s.job.value.active ==> !s.dispatched
    ensures Run(s, WholeDispatch(at)) == s.(now := at, job := None, dispatched := true,
      delivered := s.delivered + (if s.status == s.job.value.newStatus
        then [Delivery(s.status, s.job.value.previousStatus, at)] else []))
    ensures Burst(s, WholeDispatch(at))
  {
    hide Run, Burst;
    OneStep(s, Timed(at, Take));
    Then(s, [Timed(at, Take)], Timed(at, Dispatch));
    Then(s, [Timed(at, Take)] + [Timed(at, Dispatch)], Timed(at, Finish));
  }

  /** A camera that is online, outside maintenance, and quiet. */
  const QUIET := State(Online, false, None, false, map[], 0, None, [])

  /** The job of a first change survives a change to `connecting` and is being processed. */
  function PickedUp(): seq<Timed> {
    WholeCall(0, Reconnecting, 0) + WholeCall(0, Connecting, 20_000) + [Timed(30_000, Take)]
  }

  lemma PickedUpRuns()
    ensures Burst(QUIET, PickedUp())
    ensures Run(QUIET, PickedUp()) ==
      State(Connecting, false, Some(NotifyJob(Reconnecting, Online, 30_000, true)), false,
            map[], 30_000, Some(20_000), [])
  {
    var a, b := WholeCall(0, Reconnecting, 0), WholeCall(0, Connecting, 20_000);
    hide WholeCall, Run, Burst;
    WholeCallRuns(QUIET, 0, Reconnecting, 0);
    WholeCallRuns(Run(QUIET, a), 0, Connecting, 20_000);
    Append(QUIET, a, b);
    Then(QUIET, a + b, Timed(30_000, Take));
  }

  /** A change and the end of the dispatch that it lands in. */
  lemma ChangeInDispatch(to: Status)
    requires to == Reconnecting || to == Offline
    ensures var events := PickedUp() + WholeCall(0, to, 35_000) + WholeDispatch(36_000);
      && Burst(QUIET, events)
      && Run(QUIET, events) == State(to, false, None, true, map[], 36_000, Some(35_000),
           if to == Reconnecting then [Delivery(Reconnecting, Online, 36_000)] else [])
  {
    PickedUpRuns();
    var a, b := PickedUp(), WholeCall(0, to, 35_000);
    hide WholeCall, WholeDispatch, PickedUp, Run, Burst, Step;
    WholeCallRuns(Run(QUIET, a), 0, to, 35_000);
    Append(QUIET, a, b);
    WholeDispatchRuns(Run(QUIET, a + b), 36_000);
    Append(QUIET, a + b, WholeDispatch(36_000));
  }

  /**
   A burst with two deliveries: the camera comes back to the status whose job is being processed,
   which is delivered one second after that change, and the status the burst ends in is delivered
   as well.
   */
  lemma BurstDeliversTwice()
    ensures var events := PickedUp() + WholeCall(0, Reconnecting, 35_000) + WholeDispatch(36_000)
        + WholeCall(0, Online, 40_000) + WholeDispatch(70_000);
      && Fresh(QUIET) && Burst(QUIET, events)
      && Run(QUIET, events).delivered
           == [Delivery(Reconnecting, Online, 36_000), Delivery(Online, Reconnecting, 70_000)]
  {
    ChangeInDispatch(Reconnecting);
    var a := PickedUp() + WholeCall(0, Reconnecting, 35_000) + WholeDispatch(36_000);
    var b := WholeCall(0, Online, 40_000);
    hide WholeCall, WholeDispatch, PickedUp, Run, Burst, Step;
    WholeCallRuns(Run(QUIET, a), 0, Online, 40_000);
    Append(QUIET, a, b);
    WholeDispatchRuns(Run(QUIET, a + b), 70_000);
    Append(QUIET, a + b, WholeDispatch(70_000));
  }

  /**
   A burst with no delivery: a change that lands while the job of an earlier one is being processed
   schedules nothing, and the camera settles offline without a word to the outside.
   */
  lemma ChangeDuringDispatchIsLost()
    ensures var events := PickedUp() + WholeCall(0, Offline, 35_000) + WholeDispatch(36_000);
      var s' := Run(QUIET, events);
      Fresh(QUIET) && Burst(QUIET, events) && Settled(s') && s'.status == Offline && s'.delivered == []
  {
    ChangeInDispatch(Offline);
  }

  /**
   The same with two overlapping changes and no dispatch near them: both find no job to remove, the
   earlier one adds its own, and the later one's addition is dropped.
   */
  lemma OverlappingChangeIsLost()
    ensures var events := [Timed(0, Read(0, Reconnecting))] + [Timed(0, Continue(0))] + [Timed(0, Continue(0))]
        + [Timed(0, Read(1, Offline))] + [Timed(0, Continue(1))] + [Timed(0, Continue(1))]
        + [Timed(0, Continue(0))] + [Timed(0, Continue(1))] + WholeDispatch(30_000);
      var s' := Run(QUIET, events);
      Fresh(QUIET) && Burst(QUIET, events) && Settled(s') && s'.status == Offline && s'.delivered == []
  {
    var go0, go1 := Timed(0, Continue(0)), Timed(0, Continue(1));
    var e1 := [Timed(0, Read(0, Reconnecting))];
    var e3 := e1 + [go0] + [go0];
    OneStep(QUIET, e1[0]);
    Then(QUIET, e1, go0);
    Then(QUIET, e1 + [go0], go0);
    hide Run, Burst;
    var first := Call(Online, Reconnecting, false, Adding);
    assert Run(QUIET, e3) == State(Reconnecting, false, None, false, map[0 := first], 0, Some(0), []);
    var e4 := e3 + [Timed(0, Read(1, Offline))];
    var e6 := e4 + [go1] + [go1];
    Then(QUIET, e3, Timed(0, Read(1, Offline)));
    Then(QUIET, e4, go1);
    Then(QUIET, e4 + [go1], go1);
    var second := Call(Reconnecting, Offline, false, Adding);
    assert Run(QUIET, e6) == State(Offline, false, None, false, map[0 := first, 1 := second], 0, Some(0), []);
    var e8 := e6 + [go0] + [go1];
    Then(QUIET, e6, go0);
    Then(QUIET, e6 + [go0], go1);
    var job := NotifyJob(Reconnecting, Online, 30_000, false);
    assert Run(QUIET, e8) == State(Offline, false, Some(job), false, map[], 0, Some(0), []);
    hide WholeDispatch;
    WholeDispatchRuns(Run(QUIET, e8), 30_000);
    Append(QUIET, e8, WholeDispatch(30_000));
  }
}
