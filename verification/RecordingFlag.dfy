/**
 The flag that says a camera is recording, against the recordings it is meant to follow.

 A start writes the recording first and the flag second, a stop likewise. The flag can only be
 judged once no such second write of the camera is outstanding.
 */
module RecordingFlag {
  import opened Common
  import opened RecordingLedger

  ghost predicate NoneActive(s: State, c: CameraId) {
    forall id :: !ActiveOn(s, c, id)
  }

  ghost predicate AtMostOneActive(s: State, c: CameraId) {
    forall a, b | ActiveOn(s, c, a) && ActiveOn(s, c, b) :: a == b
  }

  /** No write of the camera's flag is outstanding. */
  ghost predicate Settled(starts: seq<Start>, stops: seq<Stop>, c: CameraId) {
    (forall x | x in starts && x.camera == c :: x.created.None?) && Lowering(c) !in stops
  }

  /** The camera has at most one active recording, and once settled its flag is up exactly if it has one. */
  ghost predicate FlagFits(s: State, c: CameraId)
    requires c in s.cameras
  {
    && AtMostOneActive(s, c)
    && (Settled(s.starts, s.stops, c) ==> (s.cameras[c].isRecording <==> !NoneActive(s, c)))
  }

  ghost predicate FlagsFit(s: State) {
    forall c | c in s.cameras :: FlagFits(s, c)
  }

  /** The steps that break it. */
  ghost predicate BreaksFlag(s: State, e: Event) {
    // A start creates a recording beside an active one: the starts overlapped.
    || (e.CreateRecording? && e.i < |s.starts| && s.starts[e.i].created.None? && e.id !in s.used
        && !NoneActive(s, s.starts[e.i].camera))
    // A start raises the flag last, but its recording has been stopped or deleted meanwhile.
    || (e.RaiseFlag? && e.i < |s.starts| && s.starts[e.i].created.Some?
        && Settled(Dropped(s.starts, e.i), s.stops, s.starts[e.i].camera) && NoneActive(s, s.starts[e.i].camera))
    // A stop lowers the flag last, but a recording has been started meanwhile.
    || (e.LowerFlag? && e.j < |s.stops| && s.stops[e.j].Lowering?
        && Settled(s.starts, Dropped(s.stops, e.j), s.stops[e.j].camera) && !NoneActive(s, s.stops[e.j].camera))
    // An active recording is deleted, by hand or by retention, with no flag write to come.
    || (e.Delete? && e.id in s.recordings && s.recordings[e.id].org == e.org && RemovalBreaks(s, e.id))
    || (e.Write? && s.recount.Some? && s.recount.value.count == 0
        && s.recount.value.recording in s.recordings && RemovalBreaks(s, s.recount.value.recording))
  }

  ghost predicate RemovalBreaks(s: State, id: RecordingId)
    requires id in s.recordings
  {
    s.recordings[id].active && Settled(s.starts, s.stops, s.recordings[id].camera)
  }

  /** A step whose effect is confined to one camera fits if it fits there. */
  ghost predicate SameElsewhere(s: State, s': State, c: CameraId) {
    && s'.cameras.Keys == s.cameras.Keys
    && (forall d | d in s.cameras && d != c :: s'.cameras[d].isRecording == s.cameras[d].isRecording)
    && (forall d, id | d != c :: ActiveOn(s', d, id) <==> ActiveOn(s, d, id))
    && (forall d | d != c :: Settled(s'.starts, s'.stops, d) <==> Settled(s.starts, s.stops, d))
  }

  lemma FitsIffThere(s: State, s': State, c: CameraId)
    requires FlagsFit(s) && SameElsewhere(s, s', c)
    ensures c in s.cameras ==> (FlagsFit(s') <==> FlagFits(s', c))
    ensures c !in s.cameras ==> FlagsFit(s')
  {
    forall d | d in s'.cameras && d != c ensures FlagFits(s', d) {
      assert FlagFits(s, d);
      assert NoneActive(s', d) <==> NoneActive(s, d);
    }
  }

  lemma Members<T>(xs: seq<T>, i: nat, y: T)
    requires i < |xs|
    ensures forall x :: x in xs <==> x == xs[i] || x in Dropped(xs, i)
    ensures forall x :: x in xs[i := y] <==> x == y || x in Dropped(xs, i)
  {
    assert xs == xs[..i] + [xs[i]] + xs[i + 1..];
    assert xs[i := y] == xs[..i] + [y] + xs[i + 1..];
  }

  lemma CreatedFlag(s: State, i: nat, id: RecordingId)
    requires RowsFit(s) && CallsFit(s) && FlagsFit(s) && i < |s.starts| && s.starts[i].created.None? && id !in s.used
    ensures FlagsFit(Created(s, i, id)) <==> NoneActive(s, s.starts[i].camera)
  {
    var start, s' := s.starts[i], Created(s, i, id);
    var c := start.camera;
    Members(s.starts, i, start.(created := Some(id)));
    hide Dropped;
    forall d, other ensures ActiveOn(s', d, other) <==> ActiveOn(s, d, other) || (d == c && other == id) {}
    assert s'.starts[i] == start.(created := Some(id));
    FitsIffThere(s, s', c);
    assert FlagFits(s, c);
    if !NoneActive(s, c) {
      var other :| ActiveOn(s, c, other);
      assert ActiveOn(s', c, other) && ActiveOn(s', c, id) && other != id;
    }
  }

  lemma RaisedFlag(s: State, i: nat)
    requires CallsFit(s) && FlagsFit(s) && i < |s.starts| && s.starts[i].created.Some?
    ensures FlagsFit(Raised(s, i)) <==> !BreaksFlag(s, RaiseFlag(i))
  {
    var start, s' := s.starts[i], Raised(s, i);
    var c := start.camera;
    Members(s.starts, i, start);
    hide Dropped;
    forall d, other ensures ActiveOn(s', d, other) <==> ActiveOn(s, d, other) {}
    FitsIffThere(s, s', c);
    assert FlagFits(s, c);
    assert NoneActive(s', c) <==> NoneActive(s, c);
  }

  lemma CompletedFlag(s: State, j: nat)
    requires CallsFit(s) && FlagsFit(s) && j < |s.stops| && s.stops[j].Completing?
    ensures FlagsFit(Completed(s, j))
  {
    var stop, s' := s.stops[j], Completed(s, j);
    var c := stop.camera;
    Members(s.stops, j, Lowering(c));
    hide Dropped;
    forall d, other ensures ActiveOn(s', d, other)
      <==> ActiveOn(s, d, other) && (other != stop.id || stop.id !in s.recordings) {}
    FitsIffThere(s, s', c);
    if c in s.cameras {
      assert FlagFits(s, c);
      if stop.id !in s.recordings {
        assert NoneActive(s', c) <==> NoneActive(s, c);
      } else {
        assert Lowering(c) in s'.stops;
      }
    }
  }

  lemma LoweredFlag(s: State, j: nat)
    requires FlagsFit(s) && j < |s.stops| && s.stops[j].Lowering?
    ensures s.stops[j].camera in s.cameras ==> (FlagsFit(Lowered(s, j)) <==> !BreaksFlag(s, LowerFlag(j)))
    ensures s.stops[j].camera !in s.cameras ==> FlagsFit(Lowered(s, j))
  {
    var stop, s' := s.stops[j], Lowered(s, j);
    var c := stop.camera;
    Members(s.stops, j, stop);
    hide Dropped;
    forall d, other ensures ActiveOn(s', d, other) <==> ActiveOn(s, d, other) {}
    FitsIffThere(s, s', c);
    if c in s.cameras {
      assert FlagFits(s, c);
      assert NoneActive(s', c) <==> NoneActive(s, c);
    }
  }

  lemma DeletedFlag(s: State, id: RecordingId)
    requires RowsFit(s) && FlagsFit(s) && id in s.recordings
    ensures FlagsFit(Deleted(s, id)) <==> !RemovalBreaks(s, id)
  {
    hide Remaining;
    var s' := Deleted(s, id);
    var c := s.recordings[id].camera;
    forall d, other ensures ActiveOn(s', d, other) <==> ActiveOn(s, d, other) && other != id {}
    FitsIffThere(s, s', c);
    assert FlagFits(s, c);
    if s.recordings[id].active {
      assert ActiveOn(s, c, id) && NoneActive(s', c);
    } else {
      assert NoneActive(s', c) <==> NoneActive(s, c) by {
        forall other ensures ActiveOn(s', c, other) <==> ActiveOn(s, c, other) {}
      }
    }
  }

  /** The step changes nothing that the flags depend on. */
  ghost predicate SameFlags(s: State, s': State) {
    && s'.cameras.Keys == s.cameras.Keys
    && (forall c | c in s.cameras :: s'.cameras[c].isRecording == s.cameras[c].isRecording)
    && (forall c, id :: ActiveOn(s', c, id) <==> ActiveOn(s, c, id))
    && (forall c :: Settled(s'.starts, s'.stops, c) <==> Settled(s.starts, s.stops, c))
  }

  lemma SameFlagsFit(s: State, s': State)
    requires FlagsFit(s) && SameFlags(s, s')
    ensures FlagsFit(s')
  {
    forall d | d in s'.cameras ensures FlagFits(s', d) {
      assert FlagFits(s, d);
      assert NoneActive(s', d) <==> NoneActive(s, d);
    }
  }

  lemma WrittenFlag(s: State)
    requires RowsFit(s) && FlagsFit(s) && s.recount.Some?
    ensures FlagsFit(Written(s, s.recount.value)) <==> !BreaksFlag(s, Write)
  {
    var r, s' := s.recount.value, s.(recount := None);
    SameFlagsFit(s, s');
    hide FlagsFit, Deleted, Settled;
    if r.recording in s.recordings {
      if r.count == 0 {
        DeletedFlag(s', r.recording);
      } else {
        SameFlagsFit(s, Written(s, r));
      }
    }
  }

  lemma ArchiveStepFlags(s: State, e: Event)
    requires e.Store? || e.Increment? || e.FailUpload? || e.Admit?
    ensures SameFlags(s, Step(s, e))
  {
    hide Total, Owed, Rows, Remaining, Dropped, QuotaAllows, Finds, Settled;
  }

  lemma OtherStepFlags(s: State, e: Event)
    requires e.CheckStart? || e.FindActive? || e.SetStatus? || e.Purge? || e.Count?
    ensures SameFlags(s, Step(s, e))
  {
    hide Total, Owed, Rows, Remaining, Dropped, QuotaAllows, Finds, Drift, Concerned;
  }

  /**
   A camera has at most one active recording, and once its flag writes are done its flag is up
   exactly if it has one. A step keeps that if and only if it is none of the five ways to break it.
   */
  lemma FlagKeptIff(s: State, e: Event)
    requires Inv(s) && FlagsFit(s)
    ensures FlagsFit(Step(s, e)) <==> !BreaksFlag(s, e)
  {
    hide Created, Raised, Completed, Lowered, Deleted, Written, FlagsFit, NoneActive, Settled, RowsFit, Balanced;
    match e
    case CreateRecording(i, id) =>
      if i < |s.starts| && s.starts[i].created.None? && id !in s.used { CreatedFlag(s, i, id); }
    case RaiseFlag(i) => if i < |s.starts| && s.starts[i].created.Some? { RaisedFlag(s, i); }
    case Complete(j) => if j < |s.stops| && s.stops[j].Completing? { CompletedFlag(s, j); }
    case LowerFlag(j) => if j < |s.stops| && s.stops[j].Lowering? { LoweredFlag(s, j); }
    case Delete(id, org) => if id in s.recordings { DeletedFlag(s, id); }
    case Write => if s.recount.Some? { WrittenFlag(s); }
    case _ => OtherKeeps(s, e);
  }

  lemma OtherKeeps(s: State, e: Event)
    requires FlagsFit(s)
    requires e.CheckStart? || e.FindActive? || e.SetStatus? || e.Purge? || e.Count?
      || e.Store? || e.Increment? || e.FailUpload? || e.Admit?
    ensures FlagsFit(Step(s, e))
  {
    hide FlagsFit, Step, SameFlags;
    if e.Store? || e.Increment? || e.FailUpload? || e.Admit? {
      ArchiveStepFlags(s, e);
    } else {
      OtherStepFlags(s, e);
    }
    SameFlagsFit(s, Step(s, e));
  }

  /** Over whole runs. */
  lemma {:induction false} FlagsInEveryRun(s: State, events: seq<Event>)
    requires Inv(s) && FlagsFit(s)
    requires forall n | 0 <= n < |events| :: !BreaksFlag(After(s, events[..n]), events[n])
    ensures FlagsFit(After(s, events))
    decreases |events|
  {
    if events != [] {
      var s', rest := Step(s, events[0]), events[1..];
      assert events[..0] == [];
      FlagKeptIff(s, events[0]);
      StepInv(s, events[0]);
      forall n | 0 <= n < |rest| ensures !BreaksFlag(After(s', rest[..n]), rest[n]) {
        assert events[..n + 1][0] == events[0] && events[..n + 1][1..] == rest[..n];
        assert events[n + 1] == rest[n];
      }
      hide Inv, FlagsFit, Step, BreaksFlag;
      FlagsInEveryRun(s', rest);
    }
  }

  // ---- The ways to break it, reached ----

  /** Two starts that both pass their checks before either writes leave two active recordings. */
  lemma OverlappingStartsDouble(s: State, c: CameraId, org: OrgId, first: RecordingId, second: RecordingId)
    requires StartOutcome(s, c, org).Ok? && first !in s.used && second !in s.used && first != second
    ensures var n := |s.starts|;
      var checked := Step(Step(s, CheckStart(c, org)), CheckStart(c, org));
      var s' := Step(Step(checked, CreateRecording(n, first)), CreateRecording(n + 1, second));
      ActiveOn(s', c, first) && ActiveOn(s', c, second)
  {
    hide Total;
    var n := |s.starts|;
    var s1 := Step(s, CheckStart(c, org));
    assert s1 == s.(starts := s.starts + [Start(c, org, None)]);
    var s2 := Step(s1, CheckStart(c, org));
    assert s2.starts == s.starts + [Start(c, org, None), Start(c, org, None)];
    var s3 := Step(s2, CreateRecording(n, first));
    assert s3.starts[n + 1] == Start(c, org, None);
  }

  /** The flag is up, no recording is active, and no start or stop is under way. */
  ghost predicate Stuck(s: State, c: CameraId) {
    && c in s.cameras && s.cameras[c].isRecording && NoneActive(s, c)
    && (forall x | x in s.starts :: x.camera != c)
    && (forall x | x in s.stops :: x.camera != c)
  }

  /**
   A stop that comes between the two writes of a start leaves the camera stuck: it completes the
   new recording and lowers the flag, and then the start raises it.
   */
  lemma StopBetweenWritesSticks(s: State, i: nat, org: OrgId)
    requires Inv(s) && FlagsFit(s) && i < |s.starts| && s.starts[i].created.Some?
    requires Finds(s, s.starts[i].camera, org, s.starts[i].created.value)
    requires forall x | x in Dropped(s.starts, i) :: x.camera != s.starts[i].camera
    requires forall x | x in s.stops :: x.camera != s.starts[i].camera
    ensures var c, j := s.starts[i].camera, |s.stops|;
      var stopped := Step(Step(Step(s, FindActive(c, org, s.starts[i].created.value)), Complete(j)), LowerFlag(j));
      Stuck(Step(stopped, RaiseFlag(i)), c)
  {
    hide BooksBalance, RecountBalances, Settled;
    var c, id, j := s.starts[i].camera, s.starts[i].created.value, |s.stops|;
    var s1 := Step(s, FindActive(c, org, id));
    assert s1.stops == s.stops + [Completing(c, id)] && s1.stops[j] == Completing(c, id);
    var s2 := Step(s1, Complete(j));
    assert s2.stops == s.stops + [Lowering(c)] && s2.starts == s.starts;
    assert Dropped(s2.stops, j) == s.stops;
    var s3 := Step(s2, LowerFlag(j));
    assert s3.stops == s.stops && s3.starts == s.starts;
    var s4 := Step(s3, RaiseFlag(i));
    assert FlagFits(s, c);
    forall other ensures !ActiveOn(s4, c, other) {
      assert ActiveOn(s4, c, other) ==> ActiveOn(s, c, other) && other != id;
    }
  }

  /** So does the deletion of the active recording. */
  lemma DeletingActiveSticks(s: State, id: RecordingId, org: OrgId)
    requires Inv(s) && FlagsFit(s)
    requires id in s.recordings && s.recordings[id].active && s.recordings[id].org == org
    requires forall x | x in s.starts :: x.camera != s.recordings[id].camera
    requires forall x | x in s.stops :: x.camera != s.recordings[id].camera
    ensures Stuck(Step(s, Delete(id, org)), s.recordings[id].camera)
  {
    hide Remaining, BooksBalance, RecountBalances;
    var c := s.recordings[id].camera;
    assert ActiveOn(s, c, id) && FlagFits(s, c);
    var s' := Step(s, Delete(id, org));
    forall other ensures !ActiveOn(s', c, other) {
      assert ActiveOn(s', c, other) ==> ActiveOn(s, c, other) && other != id;
    }
  }

  lemma StuckMembers(s: State, e: Event, c: CameraId)
    requires Stuck(s, c)
    ensures forall x | x in Step(s, e).starts :: x.camera != c
    ensures forall x | x in Step(s, e).stops :: x.camera != c
  {
    hide Total, Owed, Rows, Remaining, QuotaAllows, Dropped;
    match e
    case CreateRecording(i, id) => if i < |s.starts| { Members(s.starts, i, s.starts[i].(created := Some(id))); }
    case RaiseFlag(i) => if i < |s.starts| { Members(s.starts, i, s.starts[i]); }
    case Complete(j) => if j < |s.stops| { Members(s.stops, j, Lowering(s.stops[j].camera)); }
    case LowerFlag(j) => if j < |s.stops| { Members(s.stops, j, s.stops[j]); }
    case FindActive(d, org, id) => assert Finds(s, d, org, id) ==> ActiveOn(s, d, id);
    case _ =>
  }

  lemma StuckInactive(s: State, e: Event, c: CameraId)
    requires Stuck(s, c)
    ensures NoneActive(Step(s, e), c)
  {
    hide Total, Owed, Rows, Remaining, QuotaAllows, Dropped;
    var s' := Step(s, e);
    assert forall i | 0 <= i < |s.starts| :: s.starts[i] in s.starts;
    forall id ensures !ActiveOn(s', c, id) {
      assert !ActiveOn(s, c, id);
    }
  }

  lemma StuckFlag(s: State, e: Event, c: CameraId)
    requires Stuck(s, c)
    ensures var s' := Step(s, e); c in s'.cameras && s'.cameras[c].isRecording
  {
    hide Total, Owed, Rows, Remaining, QuotaAllows, Dropped, NoneActive;
    assert forall i | 0 <= i < |s.starts| :: s.starts[i] in s.starts;
    assert forall j | 0 <= j < |s.stops| :: s.stops[j] in s.stops;
  }

  lemma StuckStep(s: State, e: Event, c: CameraId)
    requires Stuck(s, c)
    ensures Stuck(Step(s, e), c)
  {
    StuckMembers(s, e, c);
    StuckInactive(s, e, c);
    StuckFlag(s, e, c);
    hide Step, NoneActive;
  }

  /** A stuck camera can never record again: in every continuation each start is refused and each stop finds nothing. */
  lemma {:induction false} StuckForever(s: State, events: seq<Event>, c: CameraId, org: OrgId)
    requires Stuck(s, c)
    ensures var s' := After(s, events);
      && Stuck(s', c)
      && (s'.cameras[c].org == org && s'.cameras[c].status != Offline ==>
          StartOutcome(s', c, org) == Err(AlreadyRecording))
      && StartOutcome(s', c, org).Err?
      && forall id :: !Finds(s', c, org, id)
    decreases |events|
  {
    if events == [] {
      assert forall id :: Finds(s, c, org, id) ==> ActiveOn(s, c, id);
    } else {
      StuckStep(s, events[0], c);
      hide Stuck, Step, StartOutcome, Finds;
      StuckForever(Step(s, events[0]), events[1..], c, org);
    }
  }
}
