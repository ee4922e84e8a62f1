/**
 The recording ledger: cameras, recordings and segment rows, and the operations that change them.

 Archiving and retention take several database calls, and other operations run between them. A
 segment callback is admitted (active recording found, quota checked), stores its row, and then
 increments the totals. Retention deletes expired rows, then for each recording concerned counts
 what is left and writes the result. A start checks the camera and the quota, creates the
 recording, and then raises the camera's flag; a stop finds the active recording, completes it, and
 then lowers the flag.
 */
module RecordingLedger {
  import opened Common

  type RecordingId = nat

  datatype CameraRow = CameraRow(org: OrgId, status: Status, isRecording: bool, retentionDays: Option<nat>)

  datatype Recording = Recording(org: OrgId, camera: CameraId, active: bool, totalSize: nat, totalDuration: nat)

  datatype Segment = Segment(org: OrgId, recording: RecordingId, camera: CameraId, size: nat, duration: nat, at: Time)

  /** A start that has passed its checks, and the recording it has created. */
  datatype Start = Start(camera: CameraId, org: OrgId, created: Option<RecordingId>)

  /** A stop that has found its recording, and one that has completed it. */
  datatype Stop = Completing(camera: CameraId, id: RecordingId) | Lowering(camera: CameraId)

  /** A segment callback that has been admitted, and whether it has stored its row. */
  datatype Callback = Callback(recording: RecordingId, camera: CameraId, org: OrgId, size: nat, duration: nat,
      stored: bool)

  /**
   Retention between its count of a recording's rows and its write. `owed`, `landed` and `added`
   are histories: the increments outstanding at the count, those that have landed since, and the
   number of rows stored since.
   */
  datatype Recount = Recount(recording: RecordingId, sum: nat, count: nat, owed: nat, landed: nat, added: nat)

  /**
   `todo` are the recordings retention has deleted rows of and not counted yet; `drift` and
   `horizon`, the latest cutoff used, are histories.
   */
  datatype State = State(
    cameras: map<CameraId, CameraRow>,
    recordings: map<RecordingId, Recording>,
    segments: seq<Segment>,
    limits: map<OrgId, nat>,
    starts: seq<Start>,
    stops: seq<Stop>,
    callbacks: seq<Callback>,
    todo: set<RecordingId>,
    recount: Option<Recount>,
    used: set<RecordingId>,
    drift: map<RecordingId, int>,
    horizon: Time)

  // ---- Sums over rows ----

  datatype Scope = OfRecording(id: RecordingId) | OfOrg(org: OrgId)

  predicate Counts(scope: Scope, x: Segment) {
    match scope
    case OfRecording(id) => x.recording == id
    case OfOrg(org) => x.org == org
  }

  function Total(segments: seq<Segment>, scope: Scope): nat {
    if segments == [] then 0
    else
      var n := |segments| - 1;
      Total(segments[..n], scope) + (if Counts(scope, segments[n]) then segments[n].size else 0)
  }

  function Rows(segments: seq<Segment>, scope: Scope): nat {
    if segments == [] then 0
    else
      var n := |segments| - 1;
      Rows(segments[..n], scope) + (if Counts(scope, segments[n]) then 1 else 0)
  }

  /** The two ways in which rows go: by age, and with their recording. */
  datatype Cut = Expired(camera: CameraId, org: OrgId, cutoff: Time) | Cascade(id: RecordingId)

  predicate Hits(cut: Cut, x: Segment) {
    match cut
    case Expired(camera, org, cutoff) => x.camera == camera && x.org == org && x.at < cutoff
    case Cascade(id) => x.recording == id
  }

  function Remaining(segments: seq<Segment>, cut: Cut): (left: seq<Segment>)
    ensures forall x :: x in left <==> x in segments && !Hits(cut, x)
  {
    if segments == [] then []
    else
      var front, last := segments[..|segments| - 1], segments[|segments| - 1];
      if Hits(cut, last) then Remaining(front, cut) else Remaining(front, cut) + [last]
  }

  /** The increments of a recording that are still to come for rows already stored. */
  function Owed(callbacks: seq<Callback>, id: RecordingId): nat {
    if callbacks == [] then 0
    else
      var n := |callbacks| - 1;
      Owed(callbacks[..n], id) + (if callbacks[n].stored && callbacks[n].recording == id then callbacks[n].size else 0)
  }

  // ---- Quota ----

  /** Without a package, or with one of zero size, everything is allowed. */
  predicate QuotaAllows(s: State, org: OrgId) {
    org in s.limits ==>
      var usagePercent := if s.limits[org] > 0 then Total(s.segments, OfOrg(org)) * 100 / s.limits[org] else 0;
      usagePercent < 100
  }

  // ---- Operations ----

  datatype StartError = CameraNotFound | CameraOffline | AlreadyRecording | QuotaExceeded

  function StartOutcome(s: State, c: CameraId, org: OrgId): Result<(), StartError> {
    if c !in s.cameras || s.cameras[c].org != org then Err(CameraNotFound)
    else if s.cameras[c].status == Offline then Err(CameraOffline)
    else if s.cameras[c].isRecording then Err(AlreadyRecording)
    else if !QuotaAllows(s, org) then Err(QuotaExceeded)
    else Ok(())
  }

  predicate ActiveOn(s: State, c: CameraId, id: RecordingId) {
    id in s.recordings && s.recordings[id].camera == c && s.recordings[id].active
  }

  /** What a lookup of the active recording may return; it returns nothing exactly if there is none. */
  predicate Finds(s: State, c: CameraId, org: OrgId, id: RecordingId) {
    ActiveOn(s, c, id) && s.recordings[id].org == org
  }

  function Drift(s: State, id: RecordingId): int {
    if id in s.drift then s.drift[id] else 0
  }

  function Dropped<T>(xs: seq<T>, i: nat): seq<T>
    requires i < |xs|
  {
    xs[..i] + xs[i + 1..]
  }

  function WithFlag(s: State, c: CameraId, on: bool): State {
    if c in s.cameras then s.(cameras := s.cameras[c := s.cameras[c].(isRecording := on)]) else s
  }

  function Created(s: State, i: nat, id: RecordingId): State
    requires i < |s.starts|
  {
    var start := s.starts[i];
    s.(recordings := s.recordings[id := Recording(start.org, start.camera, true, 0, 0)],
       starts := s.starts[i := start.(created := Some(id))], used := s.used + {id})
  }

  function Raised(s: State, i: nat): State
    requires i < |s.starts|
  {
    WithFlag(s.(starts := Dropped(s.starts, i)), s.starts[i].camera, true)
  }

  /** The recording may have gone since it was found; the stop fails then. */
  function Completed(s: State, j: nat): State
    requires j < |s.stops| && s.stops[j].Completing?
  {
    var id := s.stops[j].id;
    if id !in s.recordings then s.(stops := Dropped(s.stops, j))
    else s.(recordings := s.recordings[id := s.recordings[id].(active := false)],
            stops := s.stops[j := Lowering(s.stops[j].camera)])
  }

  function Lowered(s: State, j: nat): State
    requires j < |s.stops|
  {
    WithFlag(s.(stops := Dropped(s.stops, j)), s.stops[j].camera, false)
  }

  /** A row needs its recording; the callback fails otherwise. */
  function Stored(s: State, i: nat, at: Time): State
    requires i < |s.callbacks|
  {
    var b := s.callbacks[i];
    if b.recording !in s.recordings then s.(callbacks := Dropped(s.callbacks, i))
    else s.(segments := s.segments + [Segment(b.org, b.recording, b.camera, b.size, b.duration, at)],
            callbacks := s.callbacks[i := b.(stored := true)],
            recount := if s.recount.Some? && s.recount.value.recording == b.recording
                       then Some(s.recount.value.(added := s.recount.value.added + 1)) else s.recount)
  }

  function Incremented(s: State, i: nat): State
    requires i < |s.callbacks|
  {
    var b := s.callbacks[i];
    var s' := s.(callbacks := Dropped(s.callbacks, i));
    if b.recording !in s.recordings then s'
    else
      var r := s.recordings[b.recording];
      var r' := r.(totalSize := r.totalSize + b.size, totalDuration := r.totalDuration + b.duration);
      s'.(recordings := s.recordings[b.recording := r'],
          recount := if s.recount.Some? && s.recount.value.recording == b.recording
                     then Some(s.recount.value.(landed := s.recount.value.landed + b.size)) else s.recount)
  }

  /** Deleting a recording takes its rows along. */
  function Deleted(s: State, id: RecordingId): State {
    s.(recordings := s.recordings - {id}, segments := Remaining(s.segments, Cascade(id)))
  }

  function Concerned(segments: seq<Segment>, cut: Cut): set<RecordingId> {
    set x <- segments | Hits(cut, x) :: x.recording
  }

  function Purged(s: State, cut: Cut): State
    requires cut.Expired?
  {
    var left := Remaining(s.segments, cut);
    s.(segments := left,
       horizon := if cut.cutoff > s.horizon then cut.cutoff else s.horizon,
       todo := s.todo + Concerned(s.segments, cut),
       drift := map id <- s.used :: Drift(s, id) + Total(s.segments, OfRecording(id)) - Total(left, OfRecording(id)))
  }

  function Counted(s: State, id: RecordingId): State {
    var rows := OfRecording(id);
    s.(todo := s.todo - {id},
       recount := Some(Recount(id, Total(s.segments, rows), Rows(s.segments, rows), Owed(s.callbacks, id), 0, 0)))
  }

  function Written(s: State, r: Recount): State {
    var s' := s.(recount := None);
    if r.recording !in s.recordings then s'
    else if r.count == 0 then Deleted(s', r.recording)
    else s'.(recordings := s.recordings[r.recording := s.recordings[r.recording].(totalSize := r.sum)],
             drift := s.drift[r.recording := r.owed - r.landed])
  }

  datatype Event =
    | CheckStart(camera: CameraId, org: OrgId)
    | CreateRecording(i: nat, id: RecordingId)
    | RaiseFlag(i: nat)
    | FindActive(camera: CameraId, org: OrgId, id: RecordingId)
    | Complete(j: nat)
    | LowerFlag(j: nat)
    | SetStatus(camera: CameraId, status: Status)
    | Admit(camera: CameraId, org: OrgId, id: RecordingId, size: nat, duration: nat)
    | FailUpload(i: nat)
    | Store(i: nat, at: Time)
    | Increment(i: nat)
    | Delete(id: RecordingId, org: OrgId)
    | Purge(camera: CameraId, org: OrgId, cutoff: Time)
    | Count(id: RecordingId)
    | Write

  function Step(s: State, e: Event): State {
    match e
    case CheckStart(c, org) => if StartOutcome(s, c, org).Ok? then s.(starts := s.starts + [Start(c, org, None)]) else s
    case CreateRecording(i, id) =>
      if i < |s.starts| && s.starts[i].created.None? && id !in s.used then Created(s, i, id) else s
    case RaiseFlag(i) => if i < |s.starts| && s.starts[i].created.Some? then Raised(s, i) else s
    case FindActive(c, org, id) => if Finds(s, c, org, id) then s.(stops := s.stops + [Completing(c, id)]) else s
    case Complete(j) => if j < |s.stops| && s.stops[j].Completing? then Completed(s, j) else s
    case LowerFlag(j) => if j < |s.stops| && s.stops[j].Lowering? then Lowered(s, j) else s
    case SetStatus(c, status) =>
      if c in s.cameras then s.(cameras := s.cameras[c := s.cameras[c].(status := status)]) else s
    case Admit(c, org, id, size, duration) =>
      if Finds(s, c, org, id) && QuotaAllows(s, org)
      then s.(callbacks := s.callbacks + [Callback(id, c, org, size, duration, false)]) else s
    case FailUpload(i) =>
      if i < |s.callbacks| && !s.callbacks[i].stored then s.(callbacks := Dropped(s.callbacks, i)) else s
    case Store(i, at) => if i < |s.callbacks| && !s.callbacks[i].stored then Stored(s, i, at) else s
    case Increment(i) => if i < |s.callbacks| && s.callbacks[i].stored then Incremented(s, i) else s
    case Delete(id, org) => if id in s.recordings && s.recordings[id].org == org then Deleted(s, id) else s
    case Purge(c, org, cutoff) => if s.recount.None? then Purged(s, Expired(c, org, cutoff)) else s
    case Count(id) => if s.recount.None? && id in s.todo then Counted(s, id) else s
    case Write => if s.recount.Some? then Written(s, s.recount.value) else s
  }

  function After(s: State, events: seq<Event>): State
    decreases |events|
  {
    if events == [] then s else After(Step(s, events[0]), events[1..])
  }

  /** Cameras without recordings. */
  ghost predicate Initial(s: State) {
    && s.recordings == map[] && s.segments == [] && s.starts == [] && s.stops == [] && s.callbacks == []
    && s.todo == {} && s.recount == None && s.used == {} && s.drift == map[] && s.horizon == 0
    && forall c | c in s.cameras :: !s.cameras[c].isRecording
  }

  // ---- Well-formed rows ----

  ghost predicate RowsFit(s: State) {
    && s.recordings.Keys <= s.used
    && (forall i | 0 <= i < |s.segments| ::
          var x := s.segments[i];
          x.recording in s.recordings && s.recordings[x.recording].org == x.org
            && s.recordings[x.recording].camera == x.camera)
    && (forall id | id in s.recordings ::
          var r := s.recordings[id];
          r.camera in s.cameras && s.cameras[r.camera].org == r.org)
  }

  ghost predicate CallsFit(s: State) {
    && (forall i | 0 <= i < |s.starts| ::
          s.starts[i].camera in s.cameras && s.cameras[s.starts[i].camera].org == s.starts[i].org)
    && (forall j | 0 <= j < |s.stops| ::
          var stop := s.stops[j];
          && stop.camera in s.cameras
          && (stop.Completing? ==>
                stop.id in s.used && (stop.id in s.recordings ==> s.recordings[stop.id].camera == stop.camera)))
    && (forall i | 0 <= i < |s.callbacks| ::
          var b := s.callbacks[i];
          b.recording in s.used
          && (b.recording in s.recordings ==>
                s.recordings[b.recording].org == b.org && s.recordings[b.recording].camera == b.camera))
    && s.todo <= s.used && s.drift.Keys <= s.used
    && (s.recount.Some? ==> s.recount.value.recording in s.used)
  }

  /** The books: what each recording's total and its rows differ by, at any moment. */
  ghost predicate BooksBalance(s: State) {
    forall id | id in s.recordings ::
      s.recordings[id].totalSize + Owed(s.callbacks, id) == Total(s.segments, OfRecording(id)) + Drift(s, id)
  }

  /** What has changed under a recount since its count. */
  ghost predicate RecountBalances(s: State) {
    s.recount.Some? && s.recount.value.recording in s.recordings ==>
      var r := s.recount.value;
      && Total(s.segments, OfRecording(r.recording)) + r.owed == r.sum + Owed(s.callbacks, r.recording) + r.landed
      && Rows(s.segments, OfRecording(r.recording)) == r.count + r.added
  }

  ghost predicate Balanced(s: State) {
    BooksBalance(s) && RecountBalances(s)
  }

  ghost predicate Inv(s: State) {
    RowsFit(s) && CallsFit(s) && Balanced(s)
  }

  // ---- Laws of the sums ----

  lemma TotalAppend(segments: seq<Segment>, x: Segment, scope: Scope)
    ensures Total(segments + [x], scope) == Total(segments, scope) + (if Counts(scope, x) then x.size else 0)
  {
    assert (segments + [x])[..|segments|] == segments;
  }

  lemma RowsAppend(segments: seq<Segment>, x: Segment, scope: Scope)
    ensures Rows(segments + [x], scope) == Rows(segments, scope) + (if Counts(scope, x) then 1 else 0)
  {
    assert (segments + [x])[..|segments|] == segments;
  }

  lemma {:induction false} RemainingRows(segments: seq<Segment>, cut: Cut, scope: Scope)
    ensures (forall x | x in segments :: Counts(scope, x) ==> !Hits(cut, x)) ==>
      Rows(Remaining(segments, cut), scope) == Rows(segments, scope)
  {
    if segments != [] {
      var n := |segments| - 1;
      var front, last := segments[..n], segments[n];
      var left := Remaining(front, cut);
      RemainingRows(front, cut, scope);
      RowsAppend(left, last, scope);
      assert Rows(segments, scope) == Rows(front, scope) + (if Counts(scope, last) then 1 else 0);
      assert Remaining(segments, cut) == if Hits(cut, last) then left else left + [last];
      hide Rows, Remaining;
      assert forall x | x in front :: x in segments;
      assert last in segments;
    }
  }

  /** A cut that hits none of the rows in scope leaves their total. */
  lemma {:induction false} RemainingTotal(segments: seq<Segment>, cut: Cut, scope: Scope)
    ensures Total(Remaining(segments, cut), scope) <= Total(segments, scope)
    ensures (forall x | x in segments :: Counts(scope, x) ==> !Hits(cut, x)) ==>
      Total(Remaining(segments, cut), scope) == Total(segments, scope)
  {
    if segments != [] {
      var n := |segments| - 1;
      var front, last := segments[..n], segments[n];
      var left := Remaining(front, cut);
      RemainingTotal(front, cut, scope);
      TotalAppend(left, last, scope);
      assert Total(segments, scope) == Total(front, scope) + (if Counts(scope, last) then last.size else 0);
      assert Remaining(segments, cut) == if Hits(cut, last) then left else left + [last];
      hide Total, Remaining;
      assert forall x | x in front :: x in segments;
      assert last in segments;
    }
  }

  function Share(b: Callback, id: RecordingId): nat {
    if b.stored && b.recording == id then b.size else 0
  }

  lemma OwedAppend(callbacks: seq<Callback>, b: Callback, id: RecordingId)
    ensures Owed(callbacks + [b], id) == Owed(callbacks, id) + Share(b, id)
  {
    assert (callbacks + [b])[..|callbacks|] == callbacks;
  }

  lemma {:induction false} OwedSplit(xs: seq<Callback>, ys: seq<Callback>, id: RecordingId)
    ensures Owed(xs + ys, id) == Owed(xs, id) + Owed(ys, id)
    decreases |ys|
  {
    if ys == [] {
      assert xs + ys == xs;
    } else {
      var n := |ys| - 1;
      OwedSplit(xs, ys[..n], id);
      assert xs + ys == (xs + ys[..n]) + [ys[n]];
      OwedAppend(xs + ys[..n], ys[n], id);
    }
  }

  lemma OwedAt(callbacks: seq<Callback>, i: nat, b: Callback, id: RecordingId)
    requires i < |callbacks|
    ensures Owed(Dropped(callbacks, i), id) == Owed(callbacks, id) - Share(callbacks[i], id)
    ensures Owed(callbacks[i := b], id) == Owed(callbacks, id) - Share(callbacks[i], id) + Share(b, id)
  {
    var front, back := callbacks[..i], callbacks[i + 1..];
    assert callbacks == front + [callbacks[i]] + back;
    assert callbacks[i := b] == front + [b] + back;
    OwedAppend(front, callbacks[i], id);
    OwedAppend(front, b, id);
    OwedSplit(front + [callbacks[i]], back, id);
    OwedSplit(front + [b], back, id);
    OwedSplit(front, back, id);
  }

  // ---- The invariant, operation by operation ----

  lemma StoreFits(s: State, i: nat, at: Time)
    requires RowsFit(s) && CallsFit(s) && i < |s.callbacks|
    ensures RowsFit(Stored(s, i, at)) && CallsFit(Stored(s, i, at))
  {}

  /** The sums after a callback has stored its row. */
  lemma StoredSums(s: State, i: nat, at: Time)
    requires i < |s.callbacks| && !s.callbacks[i].stored && s.callbacks[i].recording in s.recordings
    ensures var b, s' := s.callbacks[i], Stored(s, i, at);
      forall id ::
        && Owed(s'.callbacks, id) == Owed(s.callbacks, id) + Share(b.(stored := true), id)
        && Total(s'.segments, OfRecording(id)) == Total(s.segments, OfRecording(id)) + Share(b.(stored := true), id)
        && Rows(s'.segments, OfRecording(id)) == Rows(s.segments, OfRecording(id))
          + (if b.recording == id then 1 else 0)
  {
    var b, s' := s.callbacks[i], Stored(s, i, at);
    var x := Segment(b.org, b.recording, b.camera, b.size, b.duration, at);
    forall id: RecordingId
      ensures Owed(s'.callbacks, id) == Owed(s.callbacks, id) + Share(b.(stored := true), id)
      ensures Total(s'.segments, OfRecording(id)) == Total(s.segments, OfRecording(id)) + Share(b.(stored := true), id)
      ensures Rows(s'.segments, OfRecording(id)) == Rows(s.segments, OfRecording(id))
        + (if b.recording == id then 1 else 0)
    {
      OwedAt(s.callbacks, i, b.(stored := true), id);
      TotalAppend(s.segments, x, OfRecording(id));
      RowsAppend(s.segments, x, OfRecording(id));
    }
  }

  lemma StoreBooks(s: State, i: nat, at: Time)
    requires BooksBalance(s) && i < |s.callbacks| && !s.callbacks[i].stored
    ensures BooksBalance(Stored(s, i, at))
  {
    OwedAfterDrop(s.callbacks, i);
    if s.callbacks[i].recording in s.recordings {
      StoredSums(s, i, at);
    }
    hide Total, Owed, Rows, Dropped;
  }

  lemma StoreRecount(s: State, i: nat, at: Time)
    requires RecountBalances(s) && i < |s.callbacks| && !s.callbacks[i].stored
    ensures RecountBalances(Stored(s, i, at))
  {
    OwedAfterDrop(s.callbacks, i);
    if s.callbacks[i].recording in s.recordings {
      StoredSums(s, i, at);
    }
    hide Total, Owed, Rows, Dropped;
  }

  lemma IncrementFits(s: State, i: nat)
    requires RowsFit(s) && CallsFit(s) && i < |s.callbacks|
    ensures RowsFit(Incremented(s, i)) && CallsFit(Incremented(s, i))
  {}

  lemma OwedAfterDrop(callbacks: seq<Callback>, i: nat)
    requires i < |callbacks|
    ensures forall id :: Owed(Dropped(callbacks, i), id) == Owed(callbacks, id) - Share(callbacks[i], id)
  {
    forall id: RecordingId ensures Owed(Dropped(callbacks, i), id) == Owed(callbacks, id) - Share(callbacks[i], id) {
      OwedAt(callbacks, i, callbacks[i], id);
    }
  }

  lemma IncrementBooks(s: State, i: nat)
    requires BooksBalance(s) && i < |s.callbacks| && s.callbacks[i].stored
    ensures BooksBalance(Incremented(s, i))
  {
    OwedAfterDrop(s.callbacks, i);
    hide Total, Owed, Dropped;
  }

  lemma IncrementRecount(s: State, i: nat)
    requires RecountBalances(s) && i < |s.callbacks| && s.callbacks[i].stored
    ensures RecountBalances(Incremented(s, i))
  {
    OwedAfterDrop(s.callbacks, i);
    hide Total, Owed, Dropped;
  }

  lemma DeletedFits(s: State, id: RecordingId)
    requires RowsFit(s) && CallsFit(s)
    ensures RowsFit(Deleted(s, id)) && CallsFit(Deleted(s, id))
  {
    var s' := Deleted(s, id);
    forall i | 0 <= i < |s'.segments| ensures s'.segments[i] in s.segments && s'.segments[i].recording != id {
      assert s'.segments[i] in s'.segments;
    }
    hide Remaining;
  }

  lemma DeletedBalanced(s: State, id: RecordingId)
    requires Balanced(s)
    ensures Balanced(Deleted(s, id))
  {
    forall r: RecordingId | r != id
      ensures Total(Remaining(s.segments, Cascade(id)), OfRecording(r)) == Total(s.segments, OfRecording(r))
    {
      RemainingTotal(s.segments, Cascade(id), OfRecording(r));
    }
    if s.recount.Some? {
      RemainingRows(s.segments, Cascade(id), OfRecording(s.recount.value.recording));
    }
    hide Total, Owed, Rows, Remaining;
  }

  lemma PurgedInv(s: State, cut: Cut)
    requires Inv(s) && s.recount.None? && cut.Expired?
    ensures Inv(Purged(s, cut))
  {
    hide Total, Owed;
    var s' := Purged(s, cut);
    forall i | 0 <= i < |s'.segments| ensures s'.segments[i] in s.segments {
      assert s'.segments[i] in s'.segments;
    }
    forall id | id in Concerned(s.segments, cut) ensures id in s.used {}
  }

  lemma CreatedFits(s: State, i: nat, id: RecordingId)
    requires RowsFit(s) && CallsFit(s) && i < |s.starts| && id !in s.used
    ensures RowsFit(Created(s, i, id)) && CallsFit(Created(s, i, id))
  {}

  lemma CreatedBalanced(s: State, i: nat, id: RecordingId)
    requires Inv(s) && i < |s.starts| && id !in s.used
    ensures Balanced(Created(s, i, id))
  {
    NothingOfUnused(s, id);
    hide Total, Owed, Rows;
  }

  lemma {:induction false} NoRows(segments: seq<Segment>, id: RecordingId)
    requires forall x | x in segments :: x.recording != id
    ensures Total(segments, OfRecording(id)) == 0
  {
    if segments != [] {
      assert forall x | x in segments[..|segments| - 1] :: x in segments;
      assert segments[|segments| - 1] in segments;
      NoRows(segments[..|segments| - 1], id);
    }
  }

  lemma {:induction false} NothingOwed(callbacks: seq<Callback>, id: RecordingId)
    requires forall b | b in callbacks :: b.recording != id
    ensures Owed(callbacks, id) == 0
  {
    if callbacks != [] {
      assert forall b | b in callbacks[..|callbacks| - 1] :: b in callbacks;
      assert callbacks[|callbacks| - 1] in callbacks;
      NothingOwed(callbacks[..|callbacks| - 1], id);
    }
  }

  lemma NothingOfUnused(s: State, id: RecordingId)
    requires Inv(s) && id !in s.used
    ensures Total(s.segments, OfRecording(id)) == 0 && Owed(s.callbacks, id) == 0
  {
    NoRows(s.segments, id);
    NothingOwed(s.callbacks, id);
  }

  lemma FailInv(s: State, i: nat)
    requires Inv(s) && i < |s.callbacks| && !s.callbacks[i].stored
    ensures Inv(s.(callbacks := Dropped(s.callbacks, i)))
  {
    forall id: RecordingId ensures Owed(Dropped(s.callbacks, i), id) == Owed(s.callbacks, id) {
      OwedAt(s.callbacks, i, s.callbacks[i], id);
    }
    hide Total, Owed;
  }

  lemma AdmitInv(s: State, c: CameraId, org: OrgId, id: RecordingId, size: nat, duration: nat)
    requires Inv(s) && Finds(s, c, org, id)
    ensures Inv(s.(callbacks := s.callbacks + [Callback(id, c, org, size, duration, false)]))
  {
    var b := Callback(id, c, org, size, duration, false);
    forall r: RecordingId ensures Owed(s.callbacks + [b], r) == Owed(s.callbacks, r) {
      OwedAppend(s.callbacks, b, r);
    }
    hide Total, Owed;
  }

  lemma WrittenFits(s: State)
    requires RowsFit(s) && CallsFit(s) && s.recount.Some?
    ensures RowsFit(Written(s, s.recount.value)) && CallsFit(Written(s, s.recount.value))
  {
    DeletedFits(s.(recount := None), s.recount.value.recording);
    hide Total, Owed, Deleted;
  }

  lemma WrittenBalanced(s: State)
    requires Balanced(s) && s.recount.Some?
    ensures Balanced(Written(s, s.recount.value))
  {
    DeletedBalanced(s.(recount := None), s.recount.value.recording);
    hide Total, Owed, Deleted;
  }

  lemma PlainStepInv(s: State, e: Event)
    requires Inv(s) && (e.CheckStart? || e.SetStatus? || e.Count? || e.FindActive?)
    ensures Inv(Step(s, e))
  {
    hide Total, Owed, Rows, QuotaAllows;
  }

  lemma FlagWriteInv(s: State, e: Event)
    requires Inv(s) && (e.RaiseFlag? || e.LowerFlag?)
    ensures Inv(Step(s, e))
  {
    hide Total, Owed, Rows;
  }

  lemma CompletedInv(s: State, j: nat)
    requires Inv(s) && j < |s.stops| && s.stops[j].Completing?
    ensures Inv(Completed(s, j))
  {
    hide Total, Owed, Rows;
  }

  lemma StepInv(s: State, e: Event)
    requires Inv(s)
    ensures Inv(Step(s, e))
  {
    hide RowsFit, CallsFit, BooksBalance, RecountBalances, Finds, Total, Owed, Rows, Remaining, Purged;
    hide Created, Raised, Completed, Lowered, Stored, Incremented, Deleted, Written, QuotaAllows;
    match e
    case Admit(c, org, id, size, duration) => if Finds(s, c, org, id) { AdmitInv(s, c, org, id, size, duration); }
    case CreateRecording(i, id) =>
      if i < |s.starts| && id !in s.used {
        CreatedFits(s, i, id);
        CreatedBalanced(s, i, id);
      }
    case RaiseFlag(_) => FlagWriteInv(s, e);
    case LowerFlag(_) => FlagWriteInv(s, e);
    case Complete(j) => if j < |s.stops| && s.stops[j].Completing? { CompletedInv(s, j); }
    case FailUpload(i) => if i < |s.callbacks| && !s.callbacks[i].stored { FailInv(s, i); }
    case Store(i, at) =>
      if i < |s.callbacks| && !s.callbacks[i].stored {
        StoreFits(s, i, at);
        StoreBooks(s, i, at);
        StoreRecount(s, i, at);
      }
    case Increment(i) =>
      if i < |s.callbacks| && s.callbacks[i].stored {
        IncrementFits(s, i);
        IncrementBooks(s, i);
        IncrementRecount(s, i);
      }
    case Delete(id, _) =>
      DeletedFits(s, id);
      DeletedBalanced(s, id);
    case Purge(c, org, cutoff) => if s.recount.None? { PurgedInv(s, Expired(c, org, cutoff)); }
    case Write =>
      if s.recount.Some? {
        WrittenFits(s);
        WrittenBalanced(s);
      }
    case _ => PlainStepInv(s, e);
  }

  lemma {:induction false} AfterInv(s: State, events: seq<Event>)
    requires Inv(s)
    ensures Inv(After(s, events))
    decreases |events|
  {
    if events != [] {
      StepInv(s, events[0]);
      AfterInv(Step(s, events[0]), events[1..]);
    }
  }

  lemma InitialInv(s: State)
    requires Initial(s)
    ensures Inv(s)
  {}

  // ---- Conservation ----

  /**
   In every run: a recording's total, with the increments still to come, is the sum of its rows
   plus its drift. Once its increments have landed, the total is exact if and only if the drift
   is zero.
   */
  lemma TotalsInEveryRun(s: State, events: seq<Event>, id: RecordingId)
    requires Initial(s) && id in After(s, events).recordings
    ensures var s' := After(s, events);
      var total, rows := s'.recordings[id].totalSize, Total(s'.segments, OfRecording(id));
      && total + Owed(s'.callbacks, id) == rows + Drift(s', id)
      && (Owed(s'.callbacks, id) == 0 ==> (total == rows <==> Drift(s', id) == 0))
  {
    InitialInv(s);
    AfterInv(s, events);
  }

  /**
   Where drift comes from: retention writes a sum it took earlier. The total it leaves is off by
   what was owed at the count less what landed before the write, and by nothing else.
   */
  lemma RecountError(s: State, events: seq<Event>)
    requires Initial(s)
    ensures var s' := After(s, events);
      s'.recount.Some? && s'.recount.value.recording in s'.recordings && s'.recount.value.count > 0 ==>
        var r := s'.recount.value;
        var w := Step(s', Write);
        && w.segments == s'.segments && w.callbacks == s'.callbacks
        && w.recordings[r.recording].totalSize + Owed(w.callbacks, r.recording)
             == Total(w.segments, OfRecording(r.recording)) + r.owed - r.landed
  {
    InitialInv(s);
    AfterInv(s, events);
  }

  /** So a row that is stored before the count and incremented after the write is counted twice. */
  lemma RecountCountsTwice(s: State, i: nat)
    requires Inv(s) && s.recount.None? && i < |s.callbacks| && s.callbacks[i].stored
    requires var id := s.callbacks[i].recording;
      id in s.recordings && id in s.todo && Rows(s.segments, OfRecording(id)) > 0
        && Owed(s.callbacks, id) == s.callbacks[i].size
    ensures var b := s.callbacks[i];
      var s' := Step(Step(Step(s, Count(b.recording)), Write), Increment(i));
      && b.recording in s'.recordings && Owed(s'.callbacks, b.recording) == 0
      && s'.recordings[b.recording].totalSize == Total(s'.segments, OfRecording(b.recording)) + b.size
  {
    OwedAt(s.callbacks, i, s.callbacks[i], s.callbacks[i].recording);
    CountAndWrite(s, s.callbacks[i].recording);
    hide Inv, Total, Owed, Rows, Dropped, Counted, Written;
  }

  /** A recount without anything in between. */
  lemma CountAndWrite(s: State, id: RecordingId)
    requires s.recount.None? && id in s.recordings && id in s.todo && Rows(s.segments, OfRecording(id)) > 0
    ensures Step(Step(s, Count(id)), Write) == s.(todo := s.todo - {id},
      recordings := s.recordings[id := s.recordings[id].(totalSize := Total(s.segments, OfRecording(id)))],
      drift := s.drift[id := Owed(s.callbacks, id)])
  {
    hide Total, Owed, Rows, Dropped;
  }

  /** The moments at which archiving and retention get in each other's way. */
  predicate Disturbs(s: State, e: Event) {
    || (e.Count? && Owed(s.callbacks, e.id) > 0)
    || (e.Increment? && e.i < |s.callbacks| && s.callbacks[e.i].stored
        && s.recount.Some? && s.recount.value.recording == s.callbacks[e.i].recording)
  }

  ghost predicate BeingCleaned(s: State, id: RecordingId) {
    id in s.todo || (s.recount.Some? && s.recount.value.recording == id)
  }

  ghost predicate Clean(s: State) {
    && (forall id | id in s.recordings && !BeingCleaned(s, id) :: Drift(s, id) == 0)
    && (s.recount.Some? ==> s.recount.value.owed == 0 && s.recount.value.landed == 0)
  }

  lemma PurgeClean(s: State, cut: Cut)
    requires Inv(s) && Clean(s) && s.recount.None? && cut.Expired?
    ensures Clean(Purged(s, cut))
  {
    var s' := Purged(s, cut);
    forall id | id in s'.recordings && !BeingCleaned(s', id) ensures Drift(s', id) == 0 {
      assert !BeingCleaned(s, id);
      assert forall x | x in s.segments :: Counts(OfRecording(id), x) ==> !Hits(cut, x);
      RemainingTotal(s.segments, cut, OfRecording(id));
    }
  }

  lemma RetentionCleanStep(s: State, e: Event)
    requires Inv(s) && Clean(s) && !Disturbs(s, e) && (e.Count? || e.Write? || e.Delete?)
    ensures Clean(Step(s, e))
  {
    hide Total, Owed, Rows, Remaining, RowsFit, CallsFit, BooksBalance, RecountBalances;
  }

  lemma ArchiveCleanStep(s: State, e: Event)
    requires Inv(s) && Clean(s) && !Disturbs(s, e) && !e.Count? && !e.Write? && !e.Delete? && !e.Purge?
    ensures Clean(Step(s, e))
  {
    hide Total, Owed, Rows, QuotaAllows, Dropped, BooksBalance, RecountBalances, RowsFit;
  }

  lemma CleanStep(s: State, e: Event)
    requires Inv(s) && Clean(s) && !Disturbs(s, e)
    ensures Clean(Step(s, e))
  {
    if e.Count? || e.Write? || e.Delete? {
      RetentionCleanStep(s, e);
    } else if !e.Purge? {
      ArchiveCleanStep(s, e);
    } else if s.recount.None? {
      PurgeClean(s, Expired(e.camera, e.org, e.cutoff));
    }
    hide Inv, Clean, Disturbs, Purged;
  }

  /**
   In every run in which retention never counts a recording that is owed an increment, and no
   increment lands between its count and its write, the total of every recording that retention is
   not at work on is exactly the sum of its rows, less what is still owed.
   */
  lemma {:induction false} ExactWhenUndisturbed(s: State, events: seq<Event>, id: RecordingId)
    requires Inv(s) && Clean(s)
    requires forall n | 0 <= n < |events| :: !Disturbs(After(s, events[..n]), events[n])
    ensures Clean(After(s, events))
    ensures var s' := After(s, events);
      id in s'.recordings && !BeingCleaned(s', id) ==>
        s'.recordings[id].totalSize + Owed(s'.callbacks, id) == Total(s'.segments, OfRecording(id))
    decreases |events|
  {
    if events == [] {
    } else {
      var s', rest := Step(s, events[0]), events[1..];
      assert events[..0] == [];
      CleanStep(s, events[0]);
      StepInv(s, events[0]);
      forall n | 0 <= n < |rest| ensures !Disturbs(After(s', rest[..n]), rest[n]) {
        assert events[..n + 1][0] == events[0] && events[..n + 1][1..] == rest[..n];
        assert events[n + 1] == rest[n];
      }
      hide Inv, Clean, Step, Disturbs;
      ExactWhenUndisturbed(s', rest, id);
    }
  }

  // ---- Usage of an organisation ----

  function SumOfTotals(segments: seq<Segment>, ids: seq<RecordingId>): nat {
    if ids == [] then 0 else SumOfTotals(segments, ids[..|ids| - 1]) + Total(segments, OfRecording(ids[|ids| - 1]))
  }

  lemma {:induction false} SumOfTotalsAppend(segments: seq<Segment>, x: Segment, ids: seq<RecordingId>)
    requires forall i, j | 0 <= i < j < |ids| :: ids[i] != ids[j]
    ensures SumOfTotals(segments + [x], ids) == SumOfTotals(segments, ids) + (if x.recording in ids then x.size else 0)
    decreases |ids|
  {
    if ids != [] {
      var n := |ids| - 1;
      SumOfTotalsAppend(segments, x, ids[..n]);
      TotalAppend(segments, x, OfRecording(ids[n]));
      assert ids == ids[..n] + [ids[n]];
    }
  }

  lemma {:induction false} SumOfTotalsEmpty(ids: seq<RecordingId>)
    ensures SumOfTotals([], ids) == 0
  {
    if ids != [] {
      SumOfTotalsEmpty(ids[..|ids| - 1]);
    }
  }

  lemma {:induction false} UsageByRecording(segments: seq<Segment>, org: OrgId, ids: seq<RecordingId>)
    requires forall i, j | 0 <= i < j < |ids| :: ids[i] != ids[j]
    requires forall x | x in segments :: x.org == org <==> x.recording in ids
    ensures Total(segments, OfOrg(org)) == SumOfTotals(segments, ids)
  {
    if segments == [] {
      SumOfTotalsEmpty(ids);
    } else {
      var n := |segments| - 1;
      assert segments == segments[..n] + [segments[n]];
      assert forall x | x in segments[..n] :: x in segments;
      assert segments[n] in segments;
      UsageByRecording(segments[..n], org, ids);
      SumOfTotalsAppend(segments[..n], segments[n], ids);
    }
  }

  /** `ids` lists the organisation's recordings, each once. */
  ghost predicate Lists(s: State, org: OrgId, ids: seq<RecordingId>) {
    && (forall i, j | 0 <= i < j < |ids| :: ids[i] != ids[j])
    && (forall id :: id in ids <==> id in s.recordings && s.recordings[id].org == org)
  }

  function SumOfColumns(s: State, ids: seq<RecordingId>): nat
    requires forall id | id in ids :: id in s.recordings
  {
    if ids == [] then 0
    else SumOfColumns(s, ids[..|ids| - 1]) + s.recordings[ids[|ids| - 1]].totalSize
  }

  lemma {:induction false} ColumnsAreTotals(s: State, ids: seq<RecordingId>)
    requires forall id | id in ids ::
      id in s.recordings && s.recordings[id].totalSize == Total(s.segments, OfRecording(id))
    ensures SumOfColumns(s, ids) == SumOfTotals(s.segments, ids)
    decreases |ids|
  {
    if ids != [] {
      assert ids[|ids| - 1] in ids;
      assert forall id | id in ids[..|ids| - 1] :: id in ids;
      ColumnsAreTotals(s, ids[..|ids| - 1]);
    }
  }

  /**
   In every run, the usage that the quota is checked against is the sum over the organisation's
   recordings of their rows; where no recording drifts or is owed an increment, it is the sum of
   their size columns.
   */
  lemma UsageIsSumOverRecordings(s: State, events: seq<Event>, org: OrgId, ids: seq<RecordingId>)
    requires Initial(s) && Lists(After(s, events), org, ids)
    ensures var s' := After(s, events);
      && Total(s'.segments, OfOrg(org)) == SumOfTotals(s'.segments, ids)
      && ((forall id | id in ids :: Drift(s', id) == 0 && Owed(s'.callbacks, id) == 0) ==>
            Total(s'.segments, OfOrg(org)) == SumOfColumns(s', ids))
  {
    InitialInv(s);
    AfterInv(s, events);
    var s' := After(s, events);
    forall x | x in s'.segments ensures x.org == org <==> x.recording in ids {
      var i :| 0 <= i < |s'.segments| && s'.segments[i] == x;
    }
    UsageByRecording(s'.segments, org, ids);
    if forall id | id in ids :: Drift(s', id) == 0 && Owed(s'.callbacks, id) == 0 {
      ColumnsAreTotals(s', ids);
    }
  }

  // ---- What retention removes ----

  lemma {:induction false} RemainingExact(segments: seq<Segment>, cut: Cut)
    ensures forall x :: multiset(Remaining(segments, cut))[x] == if Hits(cut, x) then 0 else multiset(segments)[x]
  {
    if segments != [] {
      var n := |segments| - 1;
      assert segments == segments[..n] + [segments[n]];
      RemainingExact(segments[..n], cut);
    }
  }

  /**
   A purge removes every row of the camera that is older than the cutoff and no other row, and
   leaves the recordings, their durations included, as they are.
   */
  lemma PurgeRemovesExactlyExpired(s: State, c: CameraId, org: OrgId, cutoff: Time)
    requires s.recount.None?
    ensures var s' := Step(s, Purge(c, org, cutoff));
      && s'.recordings == s.recordings
      && forall x :: multiset(s'.segments)[x]
           == if x.camera == c && x.org == org && x.at < cutoff then 0 else multiset(s.segments)[x]
  {
    RemainingExact(s.segments, Expired(c, org, cutoff));
  }

  /** Fewer rows like `x` than before. */
  predicate Lost(before: seq<Segment>, after: seq<Segment>, x: Segment) {
    multiset(after)[x] < multiset(before)[x]
  }

  /** Retention deletes a recording that it has found empty and that has got rows since. */
  predicate DropsAddedRows(s: State, e: Event) {
    e.Write? && s.recount.Some? && s.recount.value.count == 0 && s.recount.value.added > 0
    && s.recount.value.recording in s.recordings
  }

  lemma {:induction false} RowsPresent(segments: seq<Segment>, id: RecordingId)
    ensures Rows(segments, OfRecording(id)) > 0 <==> exists x :: x in segments && x.recording == id
  {
    if segments != [] {
      var front, last := segments[..|segments| - 1], segments[|segments| - 1];
      RowsPresent(front, id);
      assert segments == front + [last];
    }
  }

  /** Retention's write removes a row if and only if its recording was found empty and has got one since. */
  lemma WriteRemovesIff(s: State)
    requires Inv(s)
    ensures (exists x :: Lost(s.segments, Step(s, Write).segments, x)) <==> DropsAddedRows(s, Write)
  {
    hide Total, Owed, Rows, BooksBalance;
    if s.recount.Some? && s.recount.value.recording in s.recordings && s.recount.value.count == 0 {
      var id := s.recount.value.recording;
      RowsPresent(s.segments, id);
      RemainingExact(s.segments, Cascade(id));
      assert Step(s, Write).segments == Remaining(s.segments, Cascade(id));
      if x :| x in s.segments && x.recording == id {
        assert x in multiset(s.segments);
        assert Lost(s.segments, Step(s, Write).segments, x);
      }
      forall x | Lost(s.segments, Step(s, Write).segments, x) ensures x in s.segments && x.recording == id {
        assert x in multiset(s.segments);
      }
    }
  }

  /** A row is stamped no earlier than the cutoffs that retention has used by then. */
  predicate Stamped(s: State, e: Event) {
    e.Store? ==> e.at >= s.horizon
  }

  /** Whatever rows a recording found empty has now are newer than every cutoff used. */
  ghost predicate AddedRowsAreNew(s: State) {
    s.recount.Some? && s.recount.value.count == 0 ==>
      forall x | x in s.segments && x.recording == s.recount.value.recording :: x.at >= s.horizon
  }

  lemma AddedRowsStep(s: State, e: Event)
    requires Inv(s) && AddedRowsAreNew(s) && Stamped(s, e)
    ensures AddedRowsAreNew(Step(s, e))
  {
    hide Step, AddedRowsAreNew, Inv;
    if e.Count? || e.Store? || e.Write? || e.Purge? || e.Delete? {
      AddedRowsTouched(s, e);
    } else {
      AddedRowsUntouched(s, e);
    }
  }

  lemma AddedRowsUntouched(s: State, e: Event)
    requires AddedRowsAreNew(s) && !e.Count? && !e.Store? && !e.Write? && !e.Purge? && !e.Delete?
    ensures AddedRowsAreNew(Step(s, e))
  {
    hide QuotaAllows, Finds, StartOutcome, Dropped;
    var s' := Step(s, e);
    assert s'.segments == s.segments && s'.horizon == s.horizon;
  }

  lemma AddedRowsTouched(s: State, e: Event)
    requires Inv(s) && AddedRowsAreNew(s) && Stamped(s, e)
    requires e.Count? || e.Store? || e.Write? || e.Purge? || e.Delete?
    ensures AddedRowsAreNew(Step(s, e))
  {
    if e.Count? {
      RowsPresent(s.segments, e.id);
    }
    hide Total, Owed, Rows, Dropped, Drift, Concerned, Inv;
  }

  /** What the step removes as retention has expired: by the cutoff of the purge, or by one used before. */
  ghost predicate RemovesOnlyExpired(s: State, e: Event) {
    && (e.Purge? ==> forall x | Lost(s.segments, Step(s, e).segments, x) ::
          x.camera == e.camera && x.org == e.org && x.at < e.cutoff)
    && (e.Write? ==> forall x | Lost(s.segments, Step(s, e).segments, x) :: x.at < s.horizon)
  }

  lemma OnlyExpiredIff(s: State, e: Event)
    requires Inv(s) && AddedRowsAreNew(s)
    ensures RemovesOnlyExpired(s, e) <==> !DropsAddedRows(s, e)
  {
    hide Total, Owed, Rows, RowsFit, CallsFit, BooksBalance;
    if e.Purge? {
      RemainingExact(s.segments, Expired(e.camera, e.org, e.cutoff));
    } else if e.Write? {
      WriteRemovesIff(s);
      if DropsAddedRows(s, e) {
        var id := s.recount.value.recording;
        RemainingExact(s.segments, Cascade(id));
        var x :| Lost(s.segments, Step(s, Write).segments, x);
        assert x in multiset(s.segments) && x.recording == id;
        assert x.at >= s.horizon;
      }
    }
  }

  lemma {:induction false} AddedRowsInEveryRun(s: State, events: seq<Event>)
    requires Inv(s) && AddedRowsAreNew(s)
    requires forall n | 0 <= n < |events| :: Stamped(After(s, events[..n]), events[n])
    ensures Inv(After(s, events)) && AddedRowsAreNew(After(s, events))
    decreases |events|
  {
    if events != [] {
      var s', rest := Step(s, events[0]), events[1..];
      assert events[..0] == [];
      AddedRowsStep(s, events[0]);
      StepInv(s, events[0]);
      forall n | 0 <= n < |rest| ensures Stamped(After(s', rest[..n]), rest[n]) {
        assert events[..n + 1][0] == events[0] && events[..n + 1][1..] == rest[..n];
        assert events[n + 1] == rest[n];
      }
      hide Inv, AddedRowsAreNew, Step, Stamped;
      AddedRowsInEveryRun(s', rest);
    }
  }

  /**
   In every run in which rows are stamped no earlier than the cutoffs used so far, retention
   removes only expired rows if and only if it never deletes, for want of rows, a recording that
   has got one since the count.
   */
  lemma RetentionRemovesOnlyExpiredIff(s: State, events: seq<Event>)
    requires Initial(s)
    requires forall n | 0 <= n < |events| :: Stamped(After(s, events[..n]), events[n])
    ensures (forall n | 0 <= n < |events| :: RemovesOnlyExpired(After(s, events[..n]), events[n]))
      <==> (forall n | 0 <= n < |events| :: !DropsAddedRows(After(s, events[..n]), events[n]))
  {
    InitialInv(s);
    forall n | 0 <= n < |events|
      ensures RemovesOnlyExpired(After(s, events[..n]), events[n])
        <==> !DropsAddedRows(After(s, events[..n]), events[n])
    {
      var front := events[..n];
      forall m | 0 <= m < |front| ensures Stamped(After(s, front[..m]), front[m]) {
        assert front[..m] == events[..m] && front[m] == events[m];
      }
      AddedRowsInEveryRun(s, front);
      OnlyExpiredIff(After(s, front), events[n]);
    }
  }

  /**
   The deletion of a recording found empty goes by id: a row stored between the count and the
   deletion goes with it, however young it is.
   */
  lemma EmptyCountDropsFreshRow(s: State, i: nat, at: Time)
    requires Inv(s) && s.recount.None? && i < |s.callbacks| && !s.callbacks[i].stored
    requires var id := s.callbacks[i].recording;
      id in s.todo && id in s.recordings && Rows(s.segments, OfRecording(id)) == 0
    ensures var b := s.callbacks[i];
      var stored := Step(Step(s, Count(b.recording)), Store(i, at));
      var s' := Step(stored, Write);
      && Segment(b.org, b.recording, b.camera, b.size, b.duration, at) in stored.segments
      && b.recording !in s'.recordings
      && forall x | x in s'.segments :: x.recording != b.recording
  {
    hide Total, Owed;
    var b := s.callbacks[i];
    var stored := Step(Step(s, Count(b.recording)), Store(i, at));
    assert stored.segments[|s.segments|] == Segment(b.org, b.recording, b.camera, b.size, b.duration, at);
  }

  // ---- Quota ----

  /** The percentage test allows exactly what stays below the limit; a missing or zero limit allows everything. */
  lemma QuotaAllowsIff(s: State, org: OrgId)
    ensures QuotaAllows(s, org)
      <==> (org !in s.limits || s.limits[org] == 0 || Total(s.segments, OfOrg(org)) < s.limits[org])
  {
    hide Total;
    if org in s.limits && s.limits[org] > 0 {
      PercentBelow100(Total(s.segments, OfOrg(org)), s.limits[org]);
    }
  }

  /** The organisation has used up what its package gives it. */
  predicate Full(s: State, org: OrgId) {
    org in s.limits && s.limits[org] > 0 && Total(s.segments, OfOrg(org)) >= s.limits[org]
  }

  /** What a start is refused for, in the order of the checks; nothing is admitted into a full package. */
  lemma StartRefusedFor(s: State, c: CameraId, org: OrgId)
    ensures var r := StartOutcome(s, c, org);
      var there := c in s.cameras && s.cameras[c].org == org;
      && (r == Err(CameraNotFound) <==> !there)
      && (r == Err(CameraOffline) <==> there && s.cameras[c].status == Offline)
      && (r == Err(AlreadyRecording) <==> there && s.cameras[c].status != Offline && s.cameras[c].isRecording)
      && (r == Err(QuotaExceeded) <==>
            there && s.cameras[c].status != Offline && !s.cameras[c].isRecording && Full(s, org))
    ensures Step(s, CheckStart(c, org)) ==
      if StartOutcome(s, c, org) == Ok(()) then s.(starts := s.starts + [Start(c, org, None)]) else s
  {
    QuotaAllowsIff(s, org);
    hide Total, QuotaAllows;
  }

  /** A camera's status changes, and nothing else with it. */
  lemma StatusOutcome(s: State, c: CameraId, status: Status)
    ensures Step(s, SetStatus(c, status)) ==
      if c !in s.cameras then s
      else s.(cameras := s.cameras[c := CameraRow(s.cameras[c].org, status, s.cameras[c].isRecording,
                                                  s.cameras[c].retentionDays)])
  {}

  /**
   A segment callback from its admission to its row: it is admitted for an active recording of the
   camera and the organisation below the limit, and stores what it was called with at the time of
   its store, if the recording is still there. One whose upload fails goes.
   */
  lemma CallbackOutcome(s: State, c: CameraId, org: OrgId, id: RecordingId, size: nat, duration: nat, at: Time)
    ensures var found := id in s.recordings && s.recordings[id].camera == c && s.recordings[id].active
                         && s.recordings[id].org == org;
      var b := Callback(id, c, org, size, duration, false);
      var s' := Step(s, Admit(c, org, id, size, duration));
      && s' == (if found && !Full(s, org) then s.(callbacks := s.callbacks + [b]) else s)
      && (s' != s ==>
            var i := |s.callbacks|;
            && s'.callbacks[i] == b
            && Step(s', FailUpload(i)).callbacks == s.callbacks
            && Step(s', Store(i, at)).segments == s.segments + [Segment(org, id, c, size, duration, at)]
            && Step(s', Store(i, at)).callbacks == s.callbacks + [b.(stored := true)]
            && Step(Step(s', Delete(id, org)), Store(i, at)).callbacks == s.callbacks)
  {
    QuotaAllowsIff(s, org);
    hide Total, QuotaAllows, Remaining;
  }

  lemma PercentBelow100(usage: nat, limit: nat)
    requires limit > 0
    ensures usage * 100 / limit < 100 <==> usage < limit
  {
    var percent, q := usage * 100, usage * 100 / limit;
    assert percent == limit * q + percent % limit;
    if q < 100 {
      TimesGrows(q + 1, 100, limit);
      assert Times(q + 1, limit) == limit * q + limit;
    } else {
      TimesGrows(100, q, limit);
    }
  }

  function Times(n: nat, m: nat): nat {
    n * m
  }

  lemma TimesGrows(n: nat, n': nat, m: nat)
    ensures Times(n + 1, m) == Times(n, m) + m
    ensures n <= n' ==> Times(n, m) <= Times(n', m)
  {
    if n <= n' {
      assert (n' - n) * m >= 0;
    }
  }

  /** The organisation's callbacks between their quota check and their row. */
  function InFlight(callbacks: seq<Callback>, org: OrgId): nat {
    if callbacks == [] then 0
    else
      var n := |callbacks| - 1;
      InFlight(callbacks[..n], org) + (if !callbacks[n].stored && callbacks[n].org == org then 1 else 0)
  }

  function Pending(b: Callback, org: OrgId): nat {
    if !b.stored && b.org == org then 1 else 0
  }

  lemma InFlightAppend(callbacks: seq<Callback>, b: Callback, org: OrgId)
    ensures InFlight(callbacks + [b], org) == InFlight(callbacks, org) + Pending(b, org)
  {
    assert (callbacks + [b])[..|callbacks|] == callbacks;
  }

  lemma {:induction false} InFlightSplit(xs: seq<Callback>, ys: seq<Callback>, org: OrgId)
    ensures InFlight(xs + ys, org) == InFlight(xs, org) + InFlight(ys, org)
    decreases |ys|
  {
    if ys == [] {
      assert xs + ys == xs;
    } else {
      var n := |ys| - 1;
      InFlightSplit(xs, ys[..n], org);
      assert xs + ys == (xs + ys[..n]) + [ys[n]];
      InFlightAppend(xs + ys[..n], ys[n], org);
    }
  }

  lemma InFlightAt(callbacks: seq<Callback>, i: nat, b: Callback, org: OrgId)
    requires i < |callbacks|
    ensures InFlight(Dropped(callbacks, i), org) == InFlight(callbacks, org) - Pending(callbacks[i], org)
    ensures InFlight(callbacks[i := b], org) == InFlight(callbacks, org) - Pending(callbacks[i], org) + Pending(b, org)
  {
    var front, back := callbacks[..i], callbacks[i + 1..];
    assert callbacks == front + [callbacks[i]] + back;
    assert callbacks[i := b] == front + [b] + back;
    InFlightAppend(front, callbacks[i], org);
    InFlightAppend(front, b, org);
    InFlightSplit(front + [callbacks[i]], back, org);
    InFlightSplit(front + [b], back, org);
    InFlightSplit(front, back, org);
  }

  /** At most `k` callbacks in flight, none larger than `m`. */
  ghost predicate Moderate(s: State, org: OrgId, k: nat, m: nat) {
    InFlight(s.callbacks, org) <= k && forall i | 0 <= i < |s.callbacks| :: s.callbacks[i].size <= m
  }

  /** What is stored and what may still be stored stays below the limit plus `k` rows. */
  ghost predicate Covered(s: State, org: OrgId, k: nat, m: nat) {
    && org in s.limits && s.limits[org] > 0
    && Total(s.segments, OfOrg(org)) + Times(InFlight(s.callbacks, org), m) <= s.limits[org] - 1 + Times(k, m)
  }

  lemma FewerCovered(s: State, s': State, org: OrgId, k: nat, m: nat)
    requires Covered(s, org, k, m) && s'.limits == s.limits
    requires Total(s'.segments, OfOrg(org)) <= Total(s.segments, OfOrg(org))
    requires InFlight(s'.callbacks, org) <= InFlight(s.callbacks, org)
    ensures Covered(s', org, k, m)
  {
    TimesGrows(InFlight(s'.callbacks, org), InFlight(s.callbacks, org), m);
    hide Times, Total, InFlight;
  }

  lemma AdmitCovered(s: State, s': State, o: OrgId, org: OrgId, k: nat, m: nat)
    requires Covered(s, org, k, m) && QuotaAllows(s, o) && s'.limits == s.limits && s'.segments == s.segments
    requires InFlight(s'.callbacks, org) == InFlight(s.callbacks, org) + (if o == org then 1 else 0) <= k
    ensures Covered(s', org, k, m)
  {
    QuotaAllowsIff(s, o);
    TimesGrows(InFlight(s'.callbacks, org), k, m);
    hide Times, Total, InFlight, QuotaAllows;
  }

  lemma StoreCovered(s: State, i: nat, at: Time, org: OrgId, k: nat, m: nat)
    requires Covered(s, org, k, m) && i < |s.callbacks| && !s.callbacks[i].stored && s.callbacks[i].size <= m
    ensures Covered(Stored(s, i, at), org, k, m)
  {
    var b := s.callbacks[i];
    InFlightAt(s.callbacks, i, b.(stored := true), org);
    TotalAppend(s.segments, Segment(b.org, b.recording, b.camera, b.size, b.duration, at), OfOrg(org));
    TimesGrows(InFlight(Stored(s, i, at).callbacks, org), 0, m);
    hide Times, Total, InFlight, Dropped;
  }

  lemma FewerInFlight(s: State, i: nat, org: OrgId, k: nat, m: nat)
    requires Covered(s, org, k, m) && i < |s.callbacks|
    ensures Covered(s.(callbacks := Dropped(s.callbacks, i)), org, k, m)
  {
    InFlightAt(s.callbacks, i, s.callbacks[i], org);
    FewerCovered(s, s.(callbacks := Dropped(s.callbacks, i)), org, k, m);
  }

  lemma CutCovered(s: State, cut: Cut, org: OrgId, k: nat, m: nat)
    requires Covered(s, org, k, m)
    ensures Covered(s.(segments := Remaining(s.segments, cut)), org, k, m)
  {
    RemainingTotal(s.segments, cut, OfOrg(org));
    FewerCovered(s, s.(segments := Remaining(s.segments, cut)), org, k, m);
  }

  lemma CoveredStep(s: State, e: Event, org: OrgId, k: nat, m: nat)
    requires Covered(s, org, k, m) && Moderate(s, org, k, m) && Moderate(Step(s, e), org, k, m)
    ensures Covered(Step(s, e), org, k, m)
  {
    hide Rows, Owed, Times, Total, InFlight, Remaining, QuotaAllows, Dropped, Finds;
    match e
    case Admit(c, o, id, size, duration) =>
      if Finds(s, c, o, id) && QuotaAllows(s, o) {
        InFlightAppend(s.callbacks, Callback(id, c, o, size, duration, false), org);
        AdmitCovered(s, Step(s, e), o, org, k, m);
      }
    case FailUpload(i) => if i < |s.callbacks| { FewerInFlight(s, i, org, k, m); }
    case Store(i, at) => if i < |s.callbacks| && !s.callbacks[i].stored { StoreCovered(s, i, at, org, k, m); }
    case Increment(i) => if i < |s.callbacks| { FewerInFlight(s, i, org, k, m); }
    case Delete(id, _) => CutCovered(s, Cascade(id), org, k, m);
    case Purge(c, o, cutoff) => CutCovered(s, Expired(c, o, cutoff), org, k, m);
    case Write => if s.recount.Some? { CutCovered(s, Cascade(s.recount.value.recording), org, k, m); }
    case _ =>
  }

  /**
   In every interleaving of callbacks, starts, stops, deletions and retention in which at most `k`
   callbacks of the organisation are ever between their quota check and their row, with rows of at
   most `m` bytes, the usage never exceeds the limit less one plus `k` rows.
   */
  lemma {:induction false} OvershootBound(s: State, events: seq<Event>, org: OrgId, k: nat, m: nat)
    requires Covered(s, org, k, m)
    requires forall n | 0 <= n <= |events| :: Moderate(After(s, events[..n]), org, k, m)
    ensures Covered(After(s, events), org, k, m)
    ensures Total(After(s, events).segments, OfOrg(org)) <= s.limits[org] - 1 + k * m
    decreases |events|
  {
    if events == [] {
    } else {
      var s', rest := Step(s, events[0]), events[1..];
      assert events[..0] == [] && events[..1][0] == events[0] && events[..1][1..] == [];
      assert After(s, events[..0]) == s;
      assert After(s, events[..1]) == After(s', []) == s';
      assert Moderate(After(s, events[..0]), org, k, m) && Moderate(After(s, events[..1]), org, k, m);
      CoveredStep(s, events[0], org, k, m);
      forall n | 0 <= n <= |rest| ensures Moderate(After(s', rest[..n]), org, k, m) {
        assert events[..n + 1][0] == events[0] && events[..n + 1][1..] == rest[..n];
        assert Moderate(After(s, events[..n + 1]), org, k, m);
      }
      LimitsKept(s, events[0]);
      hide Covered, Moderate, Step, Total;
      OvershootBound(s', rest, org, k, m);
    }
  }

  lemma LimitsKept(s: State, e: Event)
    ensures Step(s, e).limits == s.limits
  {
    hide Total, Owed, Rows, Remaining, QuotaAllows;
  }

  lemma {:induction false} AfterAppend(s: State, events: seq<Event>, e: Event)
    ensures After(s, events + [e]) == Step(After(s, events), e)
    decreases |events|
  {
    if events == [] {
      assert [e][1..] == [];
    } else {
      assert (events + [e])[1..] == events[1..] + [e];
      AfterAppend(Step(s, events[0]), events[1..], e);
    }
  }

  /** `admitted` callbacks like `b`, the first `stored` of which have stored their rows. */
  function Filled(s: State, b: Callback, admitted: nat, stored: nat, at: Time): State {
    s.(callbacks := seq(admitted, i => b.(stored := i < stored)),
       segments := s.segments + seq(stored, _ => Segment(b.org, b.recording, b.camera, b.size, b.duration, at)),
       recount := if s.recount.Some? && s.recount.value.recording == b.recording
                  then Some(s.recount.value.(added := s.recount.value.added + stored)) else s.recount)
  }

  /** `k` admissions and then `k` rows. */
  function Rush(b: Callback, k: nat, at: Time): (events: seq<Event>)
    ensures |events| == 2 * k
  {
    seq(2 * k, n => if n < k then Admit(b.camera, b.org, b.recording, b.size, b.duration) else Store(n - k, at))
  }

  lemma {:induction false} FilledInFlight(b: Callback, admitted: nat, stored: nat)
    requires stored <= admitted
    ensures InFlight(seq(admitted, i => b.(stored := i < stored)), b.org) == admitted - stored
    decreases admitted
  {
    if admitted > 0 {
      var n := admitted - 1;
      var front := seq(n, i => b.(stored := i < stored));
      assert seq(admitted, i => b.(stored := i < stored)) == front + [b.(stored := n < stored)];
      InFlightAppend(front, b.(stored := n < stored), b.org);
      if stored <= n {
        FilledInFlight(b, n, stored);
      } else {
        assert front == seq(n, i => b.(stored := i < n));
        FilledInFlight(b, n, n);
      }
    }
  }

  lemma {:induction false} FilledTotal(s: State, b: Callback, admitted: nat, stored: nat, at: Time)
    ensures Total(Filled(s, b, admitted, stored, at).segments, OfOrg(b.org))
      == Total(s.segments, OfOrg(b.org)) + Times(stored, b.size)
    decreases stored
  {
    if stored == 0 {
      assert Filled(s, b, admitted, 0, at).segments == s.segments;
    } else {
      var x := Segment(b.org, b.recording, b.camera, b.size, b.duration, at);
      var before := Filled(s, b, admitted, stored - 1, at).segments;
      assert Filled(s, b, admitted, stored, at).segments == before + [x];
      TotalAppend(before, x, OfOrg(b.org));
      FilledTotal(s, b, admitted, stored - 1, at);
      TimesGrows(stored - 1, 0, b.size);
    }
  }

  lemma AdmitFills(s: State, b: Callback, m: nat, at: Time)
    requires s.callbacks == [] && !b.stored && Finds(s, b.camera, b.org, b.recording) && QuotaAllows(s, b.org)
    ensures Step(Filled(s, b, m, 0, at), Admit(b.camera, b.org, b.recording, b.size, b.duration))
      == Filled(s, b, m + 1, 0, at)
  {
    hide Total;
    var before, after := Filled(s, b, m, 0, at), Filled(s, b, m + 1, 0, at);
    assert before.segments == s.segments && after.segments == s.segments;
    assert before.callbacks + [b] == after.callbacks;
  }

  lemma StoreFills(s: State, b: Callback, k: nat, m: nat, at: Time)
    requires !b.stored && b.recording in s.recordings && m < k
    ensures Step(Filled(s, b, k, m, at), Store(m, at)) == Filled(s, b, k, m + 1, at)
  {
    var before, after := Filled(s, b, k, m, at), Filled(s, b, k, m + 1, at);
    assert before.callbacks[m] == b;
    assert before.callbacks[m := b.(stored := true)] == after.callbacks;
    assert before.segments + [Segment(b.org, b.recording, b.camera, b.size, b.duration, at)] == after.segments;
  }

  lemma {:induction false} RushFills(s: State, b: Callback, k: nat, n: nat, at: Time)
    requires s.callbacks == [] && !b.stored && n <= 2 * k
    requires Finds(s, b.camera, b.org, b.recording) && QuotaAllows(s, b.org)
    ensures After(s, Rush(b, k, at)[..n]) == Filled(s, b, if n < k then n else k, if n < k then 0 else n - k, at)
    decreases n
  {
    var events := Rush(b, k, at);
    if n == 0 {
      assert Filled(s, b, 0, 0, at) == s;
    } else {
      var m := n - 1;
      RushFills(s, b, k, m, at);
      assert events[..n] == events[..m] + [events[m]];
      AfterAppend(s, events[..m], events[m]);
      if m < k {
        AdmitFills(s, b, m, at);
      } else {
        StoreFills(s, b, k, m - k, at);
      }
      hide Filled, Step, After, QuotaAllows, Finds;
    }
  }

  /** The bound is reached: `k` callbacks admitted one byte below the limit. */
  lemma OvershootAttained(s: State, b: Callback, k: nat, at: Time)
    requires s.callbacks == [] && !b.stored && Finds(s, b.camera, b.org, b.recording)
    requires b.org in s.limits && s.limits[b.org] > 0 && Total(s.segments, OfOrg(b.org)) == s.limits[b.org] - 1
    ensures forall n | 0 <= n <= |Rush(b, k, at)| :: Moderate(After(s, Rush(b, k, at)[..n]), b.org, k, b.size)
    ensures Total(After(s, Rush(b, k, at)).segments, OfOrg(b.org)) == s.limits[b.org] - 1 + k * b.size
  {
    QuotaAllowsIff(s, b.org);
    forall n | 0 <= n <= 2 * k ensures Moderate(After(s, Rush(b, k, at)[..n]), b.org, k, b.size) {
      RushFills(s, b, k, n, at);
      FilledInFlight(b, if n < k then n else k, if n < k then 0 else n - k);
    }
    RushFills(s, b, k, 2 * k, at);
    assert Rush(b, k, at)[..2 * k] == Rush(b, k, at);
    FilledTotal(s, b, k, k, at);
  }
}
