/**
 The recordings service and the retention processor over their tables.

 `starts`, `stops` and `callbacks` are the calls that are suspended between two database operations. Each
 method of the service is one stretch of such a call and is proved to be a step of the ledger.
 */
module Recordings {
  import opened Common
  import opened RecordingLedger

  const DAY_MS: nat := 86_400_000
  const DEFAULT_RETENTION_DAYS: nat := 30

  datatype StopError = NoActiveRecording

  const SRS_HTML_PATH := "./objs/nginx/html"

  /** The media server's path as this service sees it. */
  function Mapped(path: string, mount: string): string {
    if SRS_HTML_PATH <= path then mount + path[|SRS_HTML_PATH|..] else path
  }

  /** The path contains two dots in a row. */
  predicate Climbs(path: string) {
    exists i :: 0 <= i < |path| - 1 && path[i] == '.' && path[i + 1] == '.'
  }

  /** A path under the media server's root becomes the same path under the mount point; any other path stays. */
  lemma MappedRest(path: string, rest: string, mount: string)
    ensures Mapped("./objs/nginx/html" + rest, mount) == mount + rest
    ensures !("./objs/nginx/html" <= path) ==> Mapped(path, mount) == path
  {
    var whole := "./objs/nginx/html" + rest;
    assert whole[|SRS_HTML_PATH|..] == rest;
  }

  lemma ClimbsIff(path: string)
    ensures Climbs(path) <==> exists a, b :: path == a + ".." + b
  {
    if Climbs(path) {
      var i :| 0 <= i < |path| - 1 && path[i] == '.' && path[i + 1] == '.';
      assert path == path[..i] + ".." + path[i + 2..];
    }
    if exists a, b :: path == a + ".." + b {
      var a, b :| path == a + ".." + b;
      assert path[|a|] == '.' && path[|a| + 1] == '.';
    }
  }

  class RecordingsService {
    var cameras: map<CameraId, CameraRow>
    var recordings: map<RecordingId, Recording>
    var segments: seq<Segment>
    var limits: map<OrgId, nat>
    var starts: seq<Start>
    var stops: seq<Stop>
    var callbacks: seq<Callback>
    ghost var todo: set<RecordingId>
    ghost var recount: Option<Recount>
    ghost var used: set<RecordingId>
    ghost var drift: map<RecordingId, int>
    ghost var horizon: Time

    ghost function View(): State
      reads this
    {
      State(cameras, recordings, segments, limits, starts, stops, callbacks, todo, recount, used, drift, horizon)
    }

    constructor (cameras: map<CameraId, CameraRow>, limits: map<OrgId, nat>)
      requires forall c | c in cameras :: !cameras[c].isRecording
      ensures Initial(View()) && this.cameras == cameras && this.limits == limits
    {
      this.cameras, this.limits := cameras, limits;
      recordings, segments, starts, stops, callbacks := map[], [], [], [], [];
      todo, recount, used, drift, horizon := {}, None, {}, map[], 0;
    }

    method CheckStorageQuota(org: OrgId) returns (allowed: bool)
      ensures allowed == QuotaAllows(View(), org)
    {
      if org !in limits {
        return true;
      }
      var usageBytes := Total(segments, OfOrg(org));
      var limitBytes := limits[org];
      var usagePercent := if limitBytes > 0 then usageBytes * 100 / limitBytes else 0;
      return usagePercent < 100;
    }

    /** The checks of a start; the writes come later. */
    method StartRecording(c: CameraId, org: OrgId) returns (r: Result<(), StartError>)
      modifies this
      ensures r == StartOutcome(old(View()), c, org)
      ensures r == Err(CameraNotFound) <==> !(c in old(cameras) && old(cameras)[c].org == org)
      ensures r == Err(CameraOffline)
        <==> c in old(cameras) && old(cameras)[c].org == org && old(cameras)[c].status == Offline
      ensures r == Err(AlreadyRecording)
        <==> c in old(cameras) && old(cameras)[c].org == org && old(cameras)[c].status != Offline
             && old(cameras)[c].isRecording
      ensures r == Err(QuotaExceeded)
        ==> org in limits && limits[org] > 0 && Total(old(segments), OfOrg(org)) >= limits[org]
      ensures r.Ok? ==>
        && starts == old(starts) + [Start(c, org, None)]
        && (org in limits && limits[org] > 0 ==> Total(old(segments), OfOrg(org)) < limits[org])
      ensures View() == Step(old(View()), CheckStart(c, org))
    {
      StartRefusedFor(View(), c, org);
      QuotaAllowsIff(View(), org);
      hide Total, QuotaAllows;
      if c !in cameras || cameras[c].org != org {
        return Err(CameraNotFound);
      }
      var camera := cameras[c];
      if camera.status == Offline {
        return Err(CameraOffline);
      }
      if camera.isRecording {
        return Err(AlreadyRecording);
      }
      var allowed := CheckStorageQuota(org);
      if !allowed {
        return Err(QuotaExceeded);
      }
      starts := starts + [Start(c, org, None)];
      return Ok(());
    }

    /** The first write of start `i`; `id` is the new recording's. */
    method CreateRecordingRow(i: nat, id: RecordingId)
      requires i < |starts| && starts[i].created.None? && id !in used
      modifies this
      ensures View() == Step(old(View()), CreateRecording(i, id))
    {
      var start := starts[i];
      recordings := recordings[id := Recording(start.org, start.camera, true, 0, 0)];
      starts := starts[i := start.(created := Some(id))];
      used := used + {id};
    }

    /** The second write of start `i`. */
    method RaiseRecordingFlag(i: nat)
      requires i < |starts| && starts[i].created.Some? && starts[i].camera in cameras
      modifies this
      ensures View() == Step(old(View()), RaiseFlag(i))
    {
      var c := starts[i].camera;
      cameras := cameras[c := cameras[c].(isRecording := true)];
      starts := starts[..i] + starts[i + 1..];
    }

    /** A stop up to its lookup, whose outcome is `id`. */
    method StopRecording(c: CameraId, org: OrgId, id: Option<RecordingId>) returns (r: Result<(), StopError>)
      requires if id.Some? then Finds(View(), c, org, id.value) else forall x :: !Finds(View(), c, org, x)
      modifies this
      ensures r.Err? <==> forall x :: !Finds(old(View()), c, org, x)
      ensures View() == if id.Some? then Step(old(View()), FindActive(c, org, id.value)) else old(View())
    {
      if id.None? {
        return Err(NoActiveRecording);
      }
      stops := stops + [Completing(c, id.value)];
      return Ok(());
    }

    /** The first write of stop `j`; it fails if the recording has gone since. */
    method CompleteRecording(j: nat) returns (ok: bool)
      requires j < |stops| && stops[j].Completing?
      modifies this
      ensures ok == (old(stops)[j].id in old(recordings))
      ensures View() == Step(old(View()), Complete(j))
    {
      var stop := stops[j];
      if stop.id !in recordings {
        stops := stops[..j] + stops[j + 1..];
        return false;
      }
      recordings := recordings[stop.id := recordings[stop.id].(active := false)];
      stops := stops[j := Lowering(stop.camera)];
      return true;
    }

    /** The second write of stop `j`. */
    method LowerRecordingFlag(j: nat)
      requires j < |stops| && stops[j].Lowering? && stops[j].camera in cameras
      modifies this
      ensures View() == Step(old(View()), LowerFlag(j))
    {
      var c := stops[j].camera;
      cameras := cameras[c := cameras[c].(isRecording := false)];
      stops := stops[..j] + stops[j + 1..];
    }

    /**
     The first part of a segment callback: the active recording, the quota, and the paths. What is
     admitted lies under the mount point and climbs nowhere.
     */
    method OnHls(c: CameraId, org: OrgId, id: Option<RecordingId>, file: string, m3u8: string, mount: string,
                 size: nat, duration: nat)
      returns (path: Option<string>)
      requires if id.Some? then Finds(View(), c, org, id.value) else forall x :: !Finds(View(), c, org, x)
      modifies this
      ensures path.Some?
        <==> id.Some? && !Full(old(View()), org)
             && !Climbs(Mapped(file, mount)) && !Climbs(Mapped(m3u8, mount)) && mount <= Mapped(file, mount)
      ensures path.Some? ==> path.value == Mapped(file, mount) && mount <= path.value && !Climbs(path.value)
      ensures View() == if path.Some? then Step(old(View()), Admit(c, org, id.value, size, duration)) else old(View())
    {
      QuotaAllowsIff(View(), org);
      hide Total, Climbs, Mapped, QuotaAllows;
      if id.None? {
        return None;
      }
      var allowed := CheckStorageQuota(org);
      if !allowed {
        return None;
      }
      var segmentFile, m3u8File := Mapped(file, mount), Mapped(m3u8, mount);
      if Climbs(segmentFile) || Climbs(m3u8File) {
        return None;
      }
      if !(mount <= segmentFile) {
        return None;
      }
      callbacks := callbacks + [Callback(id.value, c, org, size, duration, false)];
      return Some(segmentFile);
    }

    /** The upload is done: the row, if its recording is still there. */
    method StoreSegment(i: nat, at: Time)
      requires i < |callbacks| && !callbacks[i].stored
      modifies this
      ensures View() == Step(old(View()), Store(i, at))
      ensures var b := old(callbacks)[i];
        segments == if b.recording in old(recordings)
                    then old(segments) + [Segment(b.org, b.recording, b.camera, b.size, b.duration, at)]
                    else old(segments)
    {
      var b := callbacks[i];
      if b.recording !in recordings {
        callbacks := callbacks[..i] + callbacks[i + 1..];
        return;
      }
      segments := segments + [Segment(b.org, b.recording, b.camera, b.size, b.duration, at)];
      callbacks := callbacks[i := b.(stored := true)];
      if recount.Some? && recount.value.recording == b.recording {
        recount := Some(recount.value.(added := recount.value.added + 1));
      }
    }

    /** The totals, if the recording is still there. */
    method UpdateTotals(i: nat)
      requires i < |callbacks| && callbacks[i].stored
      modifies this
      ensures View() == Step(old(View()), Increment(i))
    {
      var b := callbacks[i];
      callbacks := callbacks[..i] + callbacks[i + 1..];
      if b.recording !in recordings {
        return;
      }
      var r := recordings[b.recording];
      r := r.(totalSize := r.totalSize + b.size, totalDuration := r.totalDuration + b.duration);
      recordings := recordings[b.recording := r];
      if recount.Some? && recount.value.recording == b.recording {
        recount := Some(recount.value.(landed := recount.value.landed + b.size));
      }
    }

    method DeleteRecording(id: RecordingId, org: OrgId) returns (found: bool)
      modifies this
      ensures found == (id in old(recordings) && old(recordings)[id].org == org)
      ensures View() == Step(old(View()), Delete(id, org))
    {
      if id !in recordings || recordings[id].org != org {
        return false;
      }
      RemoveRecording(id);
      return true;
    }

    /** The row, and by cascade its segments. */
    method RemoveRecording(id: RecordingId)
      modifies this
      ensures View() == Deleted(old(View()), id)
    {
      recordings := recordings - {id};
      segments := Remaining(segments, Cascade(id));
    }
  }

  // ---- Retention ----

  function Cutoff(cameras: map<CameraId, CameraRow>, c: CameraId, defaultRetention: nat, now: Time): Time {
    var days := if c in cameras then cameras[c].retentionDays.GetOr(defaultRetention) else defaultRetention;
    if now >= days * DAY_MS then now - days * DAY_MS else 0
  }

  /** The row has expired, and the object store gives its object up: `cutoffs` has the cameras it answers for. */
  predicate Goes(x: Segment, org: OrgId, cutoffs: map<CameraId, Time>) {
    x.org == org && x.camera in cutoffs && x.at < cutoffs[x.camera]
  }

  function Kept(segments: seq<Segment>, org: OrgId, cutoffs: map<CameraId, Time>): seq<Segment> {
    if segments == [] then []
    else
      var front, last := segments[..|segments| - 1], segments[|segments| - 1];
      if Goes(last, org, cutoffs) then Kept(front, org, cutoffs) else Kept(front, org, cutoffs) + [last]
  }

  /** Retention removes rows of the recording. */
  ghost predicate Concerns(segments: seq<Segment>, org: OrgId, cutoffs: map<CameraId, Time>, id: RecordingId) {
    exists x :: x in segments && x.recording == id && Goes(x, org, cutoffs)
  }

  /** A recording that lost rows goes when it has none left, and otherwise gets its size recomputed. */
  ghost predicate RecordingCleaned(before: State, after: State, id: RecordingId)
    requires id in before.recordings
  {
    && (id in after.recordings <==> Rows(after.segments, OfRecording(id)) > 0)
    && (id in after.recordings ==>
          after.recordings[id] == before.recordings[id].(totalSize := Total(after.segments, OfRecording(id))))
  }

  ghost predicate RecordingKept(before: State, after: State, id: RecordingId)
    requires id in before.recordings
  {
    id in after.recordings && after.recordings[id] == before.recordings[id]
  }

  /** What an undisturbed pass over the cameras in `cutoffs` makes of the tables. */
  ghost predicate CleanedUp(before: State, after: State, org: OrgId, cutoffs: map<CameraId, Time>) {
    && after.segments == Kept(before.segments, org, cutoffs)
    && after.cameras == before.cameras && after.callbacks == before.callbacks
    && after.starts == before.starts && after.stops == before.stops
    && after.recordings.Keys <= before.recordings.Keys
    && (forall id | id in before.recordings ::
          if Concerns(before.segments, org, cutoffs, id) then RecordingCleaned(before, after, id)
          else RecordingKept(before, after, id))
  }

  lemma {:induction false} KeptNothingGoes(segments: seq<Segment>, org: OrgId, cutoffs: map<CameraId, Time>)
    requires forall x | x in segments :: !Goes(x, org, cutoffs)
    ensures Kept(segments, org, cutoffs) == segments
  {
    if segments != [] {
      var n := |segments| - 1;
      assert segments == segments[..n] + [segments[n]];
      KeptNothingGoes(segments[..n], org, cutoffs);
    }
  }

  lemma {:induction false} KeptIsRemaining(segments: seq<Segment>, c: CameraId, org: OrgId, cutoff: Time)
    ensures Kept(segments, org, map[c := cutoff]) == Remaining(segments, Expired(c, org, cutoff))
  {
    if segments != [] {
      KeptIsRemaining(segments[..|segments| - 1], c, org, cutoff);
    }
  }

  lemma {:induction false} KeptRows(segments: seq<Segment>, org: OrgId, cutoffs: map<CameraId, Time>)
    ensures forall x ::
      multiset(Kept(segments, org, cutoffs))[x] == if Goes(x, org, cutoffs) then 0 else multiset(segments)[x]
  {
    if segments != [] {
      var n := |segments| - 1;
      assert segments == segments[..n] + [segments[n]];
      KeptRows(segments[..n], org, cutoffs);
    }
  }

  lemma KeptAppend(segments: seq<Segment>, x: Segment, org: OrgId, cutoffs: map<CameraId, Time>)
    ensures Kept(segments + [x], org, cutoffs)
      == if Goes(x, org, cutoffs) then Kept(segments, org, cutoffs) else Kept(segments, org, cutoffs) + [x]
  {
    assert (segments + [x])[..|segments|] == segments;
  }

  lemma {:induction false} KeptTwice(segments: seq<Segment>, org: OrgId, cutoffs: map<CameraId, Time>, c: CameraId,
    cutoff: Time)
    requires c !in cutoffs
    ensures Kept(Kept(segments, org, cutoffs), org, map[c := cutoff]) == Kept(segments, org, cutoffs[c := cutoff])
  {
    if segments != [] {
      var n := |segments| - 1;
      var front, x := segments[..n], segments[n];
      var once := Kept(front, org, cutoffs);
      KeptTwice(front, org, cutoffs, c, cutoff);
      assert segments == front + [x];
      KeptAppend(front, x, org, cutoffs);
      KeptAppend(front, x, org, cutoffs[c := cutoff]);
      KeptAppend(once, x, org, map[c := cutoff]);
    }
  }

  lemma {:induction false} KeptSums(segments: seq<Segment>, org: OrgId, cutoffs: map<CameraId, Time>, id: RecordingId)
    requires forall x | x in segments && x.recording == id :: !Goes(x, org, cutoffs)
    ensures var kept := Kept(segments, org, cutoffs);
      Total(kept, OfRecording(id)) == Total(segments, OfRecording(id))
        && Rows(kept, OfRecording(id)) == Rows(segments, OfRecording(id))
  {
    if segments != [] {
      var n := |segments| - 1;
      var front := Kept(segments[..n], org, cutoffs);
      assert segments == segments[..n] + [segments[n]];
      KeptSums(segments[..n], org, cutoffs, id);
      assert (front + [segments[n]])[..|front|] == front;
    }
  }

  /** One recording under a pass over one more camera. */
  lemma CleanedOneMore(s0: State, s1: State, s2: State, org: OrgId, cutoffs: map<CameraId, Time>, c: CameraId,
    cutoff: Time, id: RecordingId)
    requires RowsFit(s0) && c !in cutoffs && id in s0.recordings
    requires CleanedUp(s0, s1, org, cutoffs) && CleanedUp(s1, s2, org, map[c := cutoff])
    ensures if Concerns(s0.segments, org, cutoffs[c := cutoff], id) then RecordingCleaned(s0, s2, id)
      else RecordingKept(s0, s2, id)
  {
    var last := map[c := cutoff];
    ConcernsEither(s0.segments, org, cutoffs, c, cutoff, id);
    if Concerns(s0.segments, org, cutoffs, id) {
      NotBoth(s0, org, cutoffs, c, cutoff, id);
      assert forall x | x in s1.segments && x.recording == id :: !Goes(x, org, last);
      KeptSums(s1.segments, org, last, id);
    }
    hide Kept, Total, Rows, Goes, Concerns, RowsFit;
  }

  /** A pass over one more camera. */
  lemma CleanedUpMore(s0: State, s1: State, s2: State, org: OrgId, cutoffs: map<CameraId, Time>, c: CameraId,
    cutoff: Time)
    requires RowsFit(s0) && c !in cutoffs
    requires CleanedUp(s0, s1, org, cutoffs) && CleanedUp(s1, s2, org, map[c := cutoff])
    ensures CleanedUp(s0, s2, org, cutoffs[c := cutoff])
  {
    KeptTwice(s0.segments, org, cutoffs, c, cutoff);
    forall id | id in s0.recordings
      ensures if Concerns(s0.segments, org, cutoffs[c := cutoff], id) then RecordingCleaned(s0, s2, id)
        else RecordingKept(s0, s2, id)
    {
      CleanedOneMore(s0, s1, s2, org, cutoffs, c, cutoff, id);
    }
    hide Kept, RowsFit, RecordingCleaned, RecordingKept, Concerns;
  }

  /** All rows of a recording are of its camera. */
  lemma SameCamera(s: State, id: RecordingId)
    requires RowsFit(s)
    ensures forall x, y | x in s.segments && y in s.segments && x.recording == id && y.recording == id ::
      x.camera == y.camera
  {}

  lemma ConcernsEither(segments: seq<Segment>, org: OrgId, cutoffs: map<CameraId, Time>, c: CameraId, cutoff: Time,
    id: RecordingId)
    requires c !in cutoffs
    ensures Concerns(segments, org, cutoffs[c := cutoff], id)
      <==> Concerns(segments, org, cutoffs, id) || Concerns(Kept(segments, org, cutoffs), org, map[c := cutoff], id)
  {
    var both, kept := cutoffs[c := cutoff], Kept(segments, org, cutoffs);
    KeptRows(segments, org, cutoffs);
    forall x ensures x in kept <==> x in segments && !Goes(x, org, cutoffs) {
      assert x in multiset(kept) <==> x in kept;
      assert x in multiset(segments) <==> x in segments;
    }
    hide Kept;
    forall x | x in segments && x.recording == id
      ensures Goes(x, org, both) <==> Goes(x, org, cutoffs) || (x in kept && Goes(x, org, map[c := cutoff]))
    {}
  }

  lemma NotBoth(s: State, org: OrgId, cutoffs: map<CameraId, Time>, c: CameraId, cutoff: Time, id: RecordingId)
    requires RowsFit(s) && c !in cutoffs && Concerns(s.segments, org, cutoffs, id)
    ensures !Concerns(Kept(s.segments, org, cutoffs), org, map[c := cutoff], id)
  {
    SameCamera(s, id);
    KeptRows(s.segments, org, cutoffs);
    forall x | x in Kept(s.segments, org, cutoffs) ensures x in s.segments {
      assert x in multiset(Kept(s.segments, org, cutoffs));
    }
  }

  lemma {:induction false} CascadeNothing(segments: seq<Segment>, id: RecordingId)
    requires Rows(segments, OfRecording(id)) == 0
    ensures Remaining(segments, Cascade(id)) == segments
  {
    if segments != [] {
      var n := |segments| - 1;
      assert segments == segments[..n] + [segments[n]];
      CascadeNothing(segments[..n], id);
    }
  }

  lemma RecountEmpty(s: State, id: RecordingId)
    requires s.recount.None? && id in s.todo && id in s.recordings && Rows(s.segments, OfRecording(id)) == 0
    ensures Step(Step(s, Count(id)), Write) == s.(todo := s.todo - {id}, recordings := s.recordings - {id})
  {
    CascadeNothing(s.segments, id);
    hide Total, Rows, Owed, Remaining;
  }

  lemma RecountRest(s: State, id: RecordingId)
    requires s.recount.None? && id in s.todo && id in s.recordings && Rows(s.segments, OfRecording(id)) > 0
    ensures Step(Step(s, Count(id)), Write)
      == s.(todo := s.todo - {id}, drift := s.drift[id := Owed(s.callbacks, id)],
            recordings := s.recordings[id := s.recordings[id].(totalSize := Total(s.segments, OfRecording(id)))])
  {
    hide Total, Rows, Owed, Remaining;
  }

  /** Retention's two operations on a recording, with nothing in between. */
  lemma RecountStep(s: State, id: RecordingId)
    requires s.recount.None? && id in s.todo && id in s.recordings
    ensures var s' := Step(Step(s, Count(id)), Write);
      && s' == (if Rows(s.segments, OfRecording(id)) == 0
                then s.(todo := s.todo - {id}, recordings := s.recordings - {id})
                else s.(todo := s.todo - {id}, drift := s.drift[id := Owed(s.callbacks, id)],
                        recordings := s.recordings[
                          id := s.recordings[id].(totalSize := Total(s.segments, OfRecording(id)))]))
      && RecordingCleaned(s, s', id)
  {
    hide Total, Rows, Owed, Step;
    if Rows(s.segments, OfRecording(id)) == 0 {
      RecountEmpty(s, id);
    } else {
      RecountRest(s, id);
    }
  }

  /**
   A pass takes a row away: it is of the organisation, the object store answers for its camera, and it
   is older than the days that its camera is given, or else the organisation, or else thirty.
   */
  predicate TakenAway(x: Segment, cameras: map<CameraId, CameraRow>, org: OrgId, defaultRetention: Option<nat>,
                      now: Time, failing: set<CameraId>) {
    var own := if x.camera in cameras then cameras[x.camera].retentionDays else None;
    var days := if own.Some? then own.value else if defaultRetention.Some? then defaultRetention.value else 30;
    x.org == org && x.camera !in failing && x.at + days * 86_400_000 < now
  }

  /** Those rows are gone, and every other row is there as often as before. */
  ghost predicate ExpiredGone(before: State, after: seq<Segment>, org: OrgId, defaultRetention: Option<nat>, now: Time,
                              failing: set<CameraId>) {
    forall x ::
      multiset(after)[x] ==
        if TakenAway(x, before.cameras, org, defaultRetention, now, failing) then 0 else multiset(before.segments)[x]
  }

  lemma PassTakesExpired(s: State, s': State, org: OrgId, defaultRetention: Option<nat>, now: Time,
                         failing: set<CameraId>)
    requires CleanedUp(s, s', org, Cutoffs(s, org, defaultRetention, now, failing))
    ensures ExpiredGone(s, s'.segments, org, defaultRetention, now, failing)
  {
    var cutoffs := Cutoffs(s, org, defaultRetention, now, failing);
    KeptRows(s.segments, org, cutoffs);
    forall x | x in s.segments
      ensures Goes(x, org, cutoffs) <==> TakenAway(x, s.cameras, org, defaultRetention, now, failing)
    {
      if x.org == org {
        assert x.camera in CamerasOf(s.segments, org);
      }
    }
    hide Kept, Goes, TakenAway, Cutoffs;
    forall x | x !in s.segments ensures multiset(s.segments)[x] == 0 {
      assert x !in multiset(s.segments);
    }
  }

  class RetentionProcessor {
    const service: RecordingsService

    constructor (service: RecordingsService)
      ensures this.service == service
    {
      this.service := service;
    }

    /** One recording's size, from the rows it has left; without any it goes. */
    method RecountOne(id: RecordingId)
      requires service.recount.None? && id in service.todo && id in service.recordings
      modifies service
      ensures service.View() == Step(Step(old(service.View()), Count(id)), Write)
    {
      RecountStep(service.View(), id);
      hide Step, Total, Rows, Owed, RecordingCleaned;
      var sum, count := Total(service.segments, OfRecording(id)), Rows(service.segments, OfRecording(id));
      service.todo := service.todo - {id};
      if count == 0 {
        CascadeNothing(service.segments, id);
        service.RemoveRecording(id);
      } else {
        service.drift := service.drift[id := Owed(service.callbacks, id)];
        service.recordings := service.recordings[id := service.recordings[id].(totalSize := sum)];
      }
    }

    /** The deletion of the expired rows. */
    method DeleteRows(c: CameraId, org: OrgId, cutoff: Time) returns (recordingIds: set<RecordingId>)
      requires service.recount.None?
      modifies service
      ensures service.View() == Step(old(service.View()), Purge(c, org, cutoff))
      ensures recordingIds == Concerned(old(service.segments), Expired(c, org, cutoff))
    {
      hide Total, Remaining;
      var cut := Expired(c, org, cutoff);
      ghost var purged := Purged(service.View(), cut);
      recordingIds := Concerned(service.segments, cut);
      service.segments := Remaining(service.segments, cut);
      service.todo := purged.todo;
      service.horizon := purged.horizon;
      service.drift := purged.drift;
    }

    method RecountAll(recordingIds: set<RecordingId>)
      requires Inv(service.View()) && service.recount.None?
      requires recordingIds <= service.todo && recordingIds <= service.recordings.Keys
      modifies service
      ensures Inv(service.View()) && service.recount.None?
      ensures Recounted(old(service.View()), service.View(), recordingIds)
    {
      hide Inv, Step, Rows, Total;
      ghost var s1 := service.View();
      var ids := recordingIds;
      while ids != {}
        invariant Inv(service.View()) && service.recount.None?
        invariant ids <= recordingIds && ids <= service.todo && ids <= service.recordings.Keys
        invariant Recounted(s1, service.View(), recordingIds - ids)
        decreases ids
      {
        var id :| id in ids;
        ghost var before := service.View();
        StepInv(before, Count(id));
        StepInv(Step(before, Count(id)), Write);
        RecountStep(before, id);
        RecountOne(id);
        RecountedMore(s1, before, service.View(), recordingIds - ids, id);
        ids := ids - {id};
        assert recordingIds - ids == recordingIds - (ids + {id}) + {id};
      }
      assert recordingIds - {} == recordingIds;
    }

    /** One camera's part of a pass, when nothing else happens meanwhile. */
    method CleanupCamera(c: CameraId, org: OrgId, cutoff: Time, objectsRemoved: bool)
      requires Inv(service.View()) && service.recount.None?
      modifies service
      ensures Inv(service.View()) && service.recount.None?
      ensures objectsRemoved ==> CleanedUp(old(service.View()), service.View(), org, map[c := cutoff])
      ensures !objectsRemoved ==> service.View() == old(service.View())
    {
      hide Inv, Step, Kept, CleanedUp;
      ghost var s0 := service.View();
      if Concerned(service.segments, Expired(c, org, cutoff)) == {} {
        NothingExpired(s0, c, org, cutoff);
        return;
      }
      if !objectsRemoved {
        return;
      }
      StepInv(s0, Purge(c, org, cutoff));
      PurgeStep(s0, c, org, cutoff);
      var recordingIds := DeleteRows(c, org, cutoff);
      ghost var s1 := service.View();
      RecountAll(recordingIds);
      CameraCleaned(s0, s1, service.View(), c, org, cutoff);
    }

    /**
     A pass over the organisation when nothing else happens meanwhile. `failing` are the cameras
     whose objects the store fails to remove: their rows stay for the next pass.
     */
    method CleanupOrg(org: OrgId, defaultRetention: Option<nat>, now: Time, failing: set<CameraId>)
      requires Inv(service.View()) && service.recount.None?
      modifies service
      ensures Inv(service.View()) && service.recount.None?
      ensures CleanedUp(old(service.View()), service.View(), org,
          Cutoffs(old(service.View()), org, defaultRetention, now, failing))
      ensures ExpiredGone(old(service.View()), service.segments, org, defaultRetention, now, failing)
    {
      hide Inv, Step, Kept, Cutoff, CleanedUp, ExpiredGone;
      var retention := defaultRetention.GetOr(DEFAULT_RETENTION_DAYS);
      ghost var s0 := service.View();
      var all := CamerasOf(service.segments, org);
      var cameras := all;
      var known := service.cameras;
      NothingCleaned(s0, org);
      ghost var cutoffs: map<CameraId, Time> := map[];
      while cameras != {}
        invariant cameras <= all
        invariant Inv(service.View()) && service.recount.None? && service.cameras == known
        invariant cutoffs == map c | c in all && c !in cameras && c !in failing :: Cutoff(known, c, retention, now)
        invariant CleanedUp(s0, service.View(), org, cutoffs)
        decreases cameras
      {
        var c :| c in cameras;
        cameras := cameras - {c};
        var cutoffDate := Cutoff(known, c, retention, now);
        ghost var s1 := service.View();
        CleanupCamera(c, org, cutoffDate, c !in failing);
        if c !in failing {
          InvRows(s0);
          CleanedUpMore(s0, s1, service.View(), org, cutoffs, c, cutoffDate);
          CleanedUpKeepsCameras(s1, service.View(), org, map[c := cutoffDate]);
          cutoffs := cutoffs[c := cutoffDate];
        }
      }
      assert cutoffs == Cutoffs(s0, org, defaultRetention, now, failing);
      PassTakesExpired(s0, service.View(), org, defaultRetention, now, failing);
    }
  }

  function CamerasOf(segments: seq<Segment>, org: OrgId): set<CameraId> {
    set x <- segments | x.org == org :: x.camera
  }

  function Cutoffs(s: State, org: OrgId, defaultRetention: Option<nat>, now: Time,
    failing: set<CameraId>): map<CameraId, Time> {
    map c | c in CamerasOf(s.segments, org) && c !in failing ::
      Cutoff(s.cameras, c, defaultRetention.GetOr(DEFAULT_RETENTION_DAYS), now)
  }

  lemma NothingCleaned(s: State, org: OrgId)
    ensures CleanedUp(s, s, org, map[])
  {
    KeptNothingGoes(s.segments, org, map[]);
  }

  lemma InvRows(s: State)
    requires Inv(s)
    ensures RowsFit(s)
  {}

  lemma CleanedUpKeepsCameras(s: State, s': State, org: OrgId, cutoffs: map<CameraId, Time>)
    requires CleanedUp(s, s', org, cutoffs)
    ensures s'.cameras == s.cameras
  {}

  /** The recordings in `ids` have been recounted since `s1`, and nothing else has changed. */
  ghost predicate Recounted(s1: State, s: State, ids: set<RecordingId>) {
    && s.segments == s1.segments && s.cameras == s1.cameras && s.callbacks == s1.callbacks
    && s.starts == s1.starts && s.stops == s1.stops
    && s.recordings.Keys <= s1.recordings.Keys
    && forall id | id in s1.recordings ::
         if id in ids then RecordingCleaned(s1, s, id) else RecordingKept(s1, s, id)
  }

  lemma RecountedMore(s1: State, s: State, s': State, ids: set<RecordingId>, id: RecordingId)
    requires Recounted(s1, s, ids) && id !in ids && id in s.recordings
    requires s.recount.None? && id in s.todo && s' == Step(Step(s, Count(id)), Write)
    ensures Recounted(s1, s', ids + {id})
  {
    RecountStep(s, id);
    hide Step, Rows, Total, Owed;
  }

  lemma ConcernedIsConcerns(segments: seq<Segment>, c: CameraId, org: OrgId, cutoff: Time)
    ensures forall id ::
      id in Concerned(segments, Expired(c, org, cutoff)) <==> Concerns(segments, org, map[c := cutoff], id)
  {}

  lemma NothingExpired(s: State, c: CameraId, org: OrgId, cutoff: Time)
    requires Concerned(s.segments, Expired(c, org, cutoff)) == {}
    ensures CleanedUp(s, s, org, map[c := cutoff])
  {
    ConcernedIsConcerns(s.segments, c, org, cutoff);
    assert forall x | x in s.segments && Goes(x, org, map[c := cutoff]) ::
      x.recording in Concerned(s.segments, Expired(c, org, cutoff));
    KeptNothingGoes(s.segments, org, map[c := cutoff]);
  }

  lemma PurgeStep(s: State, c: CameraId, org: OrgId, cutoff: Time)
    requires Inv(s) && s.recount.None?
    ensures var s' := Step(s, Purge(c, org, cutoff));
      var ids := Concerned(s.segments, Expired(c, org, cutoff));
      && s'.segments == Kept(s.segments, org, map[c := cutoff])
      && s'.recordings == s.recordings && s'.cameras == s.cameras && s'.callbacks == s.callbacks
      && s'.starts == s.starts && s'.stops == s.stops
      && s'.recount.None? && ids <= s'.todo && ids <= s'.recordings.Keys
  {
    KeptIsRemaining(s.segments, c, org, cutoff);
    hide Total, Remaining, Kept, BooksBalance, RecountBalances;
  }

  lemma CameraCleaned(s0: State, s1: State, s2: State, c: CameraId, org: OrgId, cutoff: Time)
    requires s1.segments == Kept(s0.segments, org, map[c := cutoff])
    requires s1.recordings == s0.recordings && s1.cameras == s0.cameras && s1.callbacks == s0.callbacks
    requires s1.starts == s0.starts && s1.stops == s0.stops
    requires Recounted(s1, s2, Concerned(s0.segments, Expired(c, org, cutoff)))
    ensures CleanedUp(s0, s2, org, map[c := cutoff])
  {
    ConcernedIsConcerns(s0.segments, c, org, cutoff);
    hide Concerns, Concerned, Kept, Total, Rows;
  }
}
