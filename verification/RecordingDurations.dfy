/**
 The duration of a recording against its rows. Retention corrects the size of a recording that it
 takes rows from, and not the duration.
 */
module RecordingDurations {
  import opened Common
  import opened RecordingLedger

  /** The durations of a recording's rows. */
  function Seconds(segments: seq<Segment>, id: RecordingId): nat {
    if segments == [] then 0
    else
      var n := |segments| - 1;
      Seconds(segments[..n], id) + (if segments[n].recording == id then segments[n].duration else 0)
  }

  function LateShare(b: Callback, id: RecordingId): nat {
    if b.stored && b.recording == id then b.duration else 0
  }

  /** The durations of rows already stored that the recording is still to be told of. */
  function OwedSeconds(callbacks: seq<Callback>, id: RecordingId): nat {
    if callbacks == [] then 0
    else
      var n := |callbacks| - 1;
      OwedSeconds(callbacks[..n], id) + LateShare(callbacks[n], id)
  }

  /** What the recording's duration, with what is still owed, has over its rows. */
  function Lag(s: State, id: RecordingId): int
    requires id in s.recordings
  {
    s.recordings[id].totalDuration + OwedSeconds(s.callbacks, id) - Seconds(s.segments, id)
  }

  /** The durations of the rows that a step of retention takes from the recording for their age. */
  function PurgedBy(s: State, e: Event, id: RecordingId): int {
    if e.Purge? && s.recount.None?
    then Seconds(s.segments, id) - Seconds(Remaining(s.segments, Expired(e.camera, e.org, e.cutoff)), id) else 0
  }

  function PurgedSeconds(s: State, events: seq<Event>, id: RecordingId): int
    decreases |events|
  {
    if events == [] then 0 else PurgedBy(s, events[0], id) + PurgedSeconds(Step(s, events[0]), events[1..], id)
  }

  // ---- Laws of the sums ----

  lemma SecondsAppend(segments: seq<Segment>, x: Segment, id: RecordingId)
    ensures Seconds(segments + [x], id) == Seconds(segments, id) + (if x.recording == id then x.duration else 0)
  {
    assert (segments + [x])[..|segments|] == segments;
  }

  /** A cut takes seconds from a recording exactly if it hits a row of it with a duration. */
  ghost predicate Shortens(segments: seq<Segment>, cut: Cut, id: RecordingId) {
    exists x :: x in segments && Hits(cut, x) && x.recording == id && x.duration > 0
  }

  lemma {:induction false} RemainingSeconds(segments: seq<Segment>, cut: Cut, id: RecordingId)
    ensures Seconds(Remaining(segments, cut), id) <= Seconds(segments, id)
    ensures Seconds(Remaining(segments, cut), id) == Seconds(segments, id) <==> !Shortens(segments, cut, id)
  {
    if segments != [] {
      var n := |segments| - 1;
      var front, last := segments[..n], segments[n];
      var left := Remaining(front, cut);
      assert segments == front + [last];
      RemainingSeconds(front, cut, id);
      SecondsAppend(left, last, id);
      ShortensAppend(front, last, cut, id);
      assert Remaining(segments, cut) == if Hits(cut, last) then left else left + [last];
      hide Remaining, Shortens;
    }
  }

  lemma ShortensAppend(front: seq<Segment>, last: Segment, cut: Cut, id: RecordingId)
    ensures Shortens(front + [last], cut, id)
      <==> Shortens(front, cut, id) || (Hits(cut, last) && last.recording == id && last.duration > 0)
  {
    if x :| x in front && Hits(cut, x) && x.recording == id && x.duration > 0 {
      assert x in front + [last];
    }
    if Hits(cut, last) && last.recording == id && last.duration > 0 {
      assert last in front + [last];
    }
  }

  lemma OwedSecondsAppend(callbacks: seq<Callback>, b: Callback, id: RecordingId)
    ensures OwedSeconds(callbacks + [b], id) == OwedSeconds(callbacks, id) + LateShare(b, id)
  {
    assert (callbacks + [b])[..|callbacks|] == callbacks;
  }

  lemma {:induction false} OwedSecondsSplit(xs: seq<Callback>, ys: seq<Callback>, id: RecordingId)
    ensures OwedSeconds(xs + ys, id) == OwedSeconds(xs, id) + OwedSeconds(ys, id)
    decreases |ys|
  {
    if ys == [] {
      assert xs + ys == xs;
    } else {
      var n := |ys| - 1;
      OwedSecondsSplit(xs, ys[..n], id);
      assert xs + ys == (xs + ys[..n]) + [ys[n]];
      OwedSecondsAppend(xs + ys[..n], ys[n], id);
    }
  }

  lemma OwedSecondsAt(callbacks: seq<Callback>, i: nat, b: Callback, id: RecordingId)
    requires i < |callbacks|
    ensures OwedSeconds(Dropped(callbacks, i), id) == OwedSeconds(callbacks, id) - LateShare(callbacks[i], id)
    ensures OwedSeconds(callbacks[i := b], id)
      == OwedSeconds(callbacks, id) - LateShare(callbacks[i], id) + LateShare(b, id)
  {
    var front, back := callbacks[..i], callbacks[i + 1..];
    assert callbacks == front + [callbacks[i]] + back;
    assert callbacks[i := b] == front + [b] + back;
    OwedSecondsAppend(front, callbacks[i], id);
    OwedSecondsAppend(front, b, id);
    OwedSecondsSplit(front + [callbacks[i]], back, id);
    OwedSecondsSplit(front + [b], back, id);
    OwedSecondsSplit(front, back, id);
  }

  lemma {:induction false} NoSeconds(segments: seq<Segment>, id: RecordingId)
    requires forall i | 0 <= i < |segments| :: segments[i].recording != id
    ensures Seconds(segments, id) == 0
  {
    if segments != [] {
      NoSeconds(segments[..|segments| - 1], id);
    }
  }

  lemma {:induction false} NoSecondsOwed(callbacks: seq<Callback>, id: RecordingId)
    requires forall i | 0 <= i < |callbacks| :: callbacks[i].recording != id
    ensures OwedSeconds(callbacks, id) == 0
  {
    if callbacks != [] {
      NoSecondsOwed(callbacks[..|callbacks| - 1], id);
    }
  }

  // ---- Step by step ----

  lemma CreatedLag(s: State, i: nat, id: RecordingId)
    requires Inv(s) && i < |s.starts| && id !in s.used
    ensures Lag(Created(s, i, id), id) == 0
  {
    NoSeconds(s.segments, id);
    NoSecondsOwed(s.callbacks, id);
  }

  lemma AdmittedLag(s: State, e: Event, id: RecordingId)
    requires id in s.recordings && (e.Admit? || e.FailUpload?)
    ensures id in Step(s, e).recordings && Lag(Step(s, e), id) == Lag(s, id)
  {
    hide QuotaAllows, Finds, Dropped;
    match e
    case Admit(c, org, r, size, duration) =>
      OwedSecondsAppend(s.callbacks, Callback(r, c, org, size, duration, false), id);
    case FailUpload(i) => if i < |s.callbacks| { OwedSecondsAt(s.callbacks, i, s.callbacks[i], id); }
    hide Seconds, OwedSeconds;
  }

  lemma StoredLag(s: State, i: nat, at: Time, id: RecordingId)
    requires id in s.recordings && i < |s.callbacks| && !s.callbacks[i].stored
    ensures var s' := Stored(s, i, at); id in s'.recordings && Lag(s', id) == Lag(s, id)
  {
    var b := s.callbacks[i];
    OwedSecondsAt(s.callbacks, i, b.(stored := true), id);
    SecondsAppend(s.segments, Segment(b.org, b.recording, b.camera, b.size, b.duration, at), id);
    hide Seconds, OwedSeconds, Dropped;
  }

  lemma IncrementedLag(s: State, i: nat, id: RecordingId)
    requires id in s.recordings && i < |s.callbacks| && s.callbacks[i].stored
    ensures var s' := Incremented(s, i); id in s'.recordings && Lag(s', id) == Lag(s, id)
  {
    OwedSecondsAt(s.callbacks, i, s.callbacks[i], id);
    hide Seconds, OwedSeconds, Dropped;
  }

  lemma RemovalLag(s: State, r: RecordingId, id: RecordingId)
    requires r != id && id in s.recordings
    ensures id in Deleted(s, r).recordings && Lag(Deleted(s, r), id) == Lag(s, id)
  {
    RemainingSeconds(s.segments, Cascade(r), id);
    hide Seconds, OwedSeconds, Remaining;
  }

  lemma CallbackLag(s: State, e: Event, id: RecordingId)
    requires id in Step(s, e).recordings && (e.Admit? || e.FailUpload? || e.Store? || e.Increment?)
    ensures id in s.recordings && Lag(Step(s, e), id) == Lag(s, id)
  {
    hide Lag, QuotaAllows, Finds, Stored, Incremented, Dropped;
    match e
    case Store(i, at) =>
      if i < |s.callbacks| && !s.callbacks[i].stored {
        StoredKeeps(s, i, at);
        StoredLag(s, i, at, id);
      }
    case Increment(i) =>
      if i < |s.callbacks| && s.callbacks[i].stored {
        StoredKeeps(s, i, 0);
        IncrementedLag(s, i, id);
      }
    case Admit(_, _, _, _, _) => AdmittedLag(s, e, id);
    case FailUpload(_) => AdmittedLag(s, e, id);
  }

  lemma RetentionLag(s: State, e: Event, id: RecordingId)
    requires id in Step(s, e).recordings && (e.Delete? || e.Write?)
    ensures id in s.recordings && Lag(Step(s, e), id) == Lag(s, id)
  {
    hide Lag, Deleted, Written;
    match e
    case Delete(r, org) =>
      if r in s.recordings && s.recordings[r].org == org {
        DeletedKeys(s, r);
        RemovalLag(s, r, id);
      }
    case Write => if s.recount.Some? { WrittenLag(s, id); }
  }

  lemma StepLag(s: State, e: Event, id: RecordingId)
    requires Inv(s) && id in Step(s, e).recordings
    ensures Lag(Step(s, e), id) == (if id in s.recordings then Lag(s, id) else 0) + PurgedBy(s, e, id)
  {
    assert s.recordings.Keys <= s.used;
    if e.Admit? || e.FailUpload? || e.Store? || e.Increment? {
      CallbackLag(s, e, id);
      hide Step, Inv, Lag;
    } else if e.Delete? || e.Write? {
      RetentionLag(s, e, id);
      hide Step, Inv, Lag;
    } else if id in s.recordings {
      OtherLag(s, e, id);
      hide Step, Inv, Lag;
    } else {
      OnlyCreated(s, e, id);
      CreatedLag(s, e.i, id);
      hide Inv, Lag, Created;
    }
  }

  lemma OnlyCreated(s: State, e: Event, id: RecordingId)
    requires id !in s.recordings && id in Step(s, e).recordings
    requires !e.Admit? && !e.FailUpload? && !e.Store? && !e.Increment? && !e.Delete? && !e.Write?
    ensures e.CreateRecording? && e.id == id && e.i < |s.starts| && s.starts[e.i].created.None? && id !in s.used
  {
    hide QuotaAllows, StartOutcome, Total, Rows, Owed, Finds, Dropped, Remaining;
  }

  lemma StoredKeeps(s: State, i: nat, at: Time)
    requires i < |s.callbacks|
    ensures Stored(s, i, at).recordings.Keys == s.recordings.Keys == Incremented(s, i).recordings.Keys
  {}

  lemma DeletedKeys(s: State, r: RecordingId)
    ensures Deleted(s, r).recordings == s.recordings - {r}
  {}

  lemma WrittenLag(s: State, id: RecordingId)
    requires s.recount.Some? && id in Written(s, s.recount.value).recordings
    ensures id in s.recordings && Lag(Written(s, s.recount.value), id) == Lag(s, id)
  {
    var r := s.recount.value.recording;
    if r != id && id in s.recordings {
      RemovalLag(s.(recount := None), r, id);
    }
    hide Seconds, OwedSeconds, Remaining;
  }

  /** The other steps leave the rows, the callbacks and the durations alone, but for the purge's rows. */
  lemma OtherLag(s: State, e: Event, id: RecordingId)
    requires id in s.recordings && !e.Delete? && !e.Write?
    requires !e.Admit? && !e.FailUpload? && !e.Store? && !e.Increment?
    requires e.CreateRecording? ==> s.recordings.Keys <= s.used
    ensures id in Step(s, e).recordings && Lag(Step(s, e), id) == Lag(s, id) + PurgedBy(s, e, id)
  {
    hide Seconds, OwedSeconds, Remaining, QuotaAllows, StartOutcome, Total, Rows, Owed, Finds, Dropped;
  }

  // ---- Over whole runs ----

  /** Ids are not used twice. */
  lemma IdsStay(s: State, e: Event, id: RecordingId)
    requires id in s.used
    ensures id in Step(s, e).used && (id !in s.recordings ==> id !in Step(s, e).recordings)
  {
    hide QuotaAllows, StartOutcome, Total, Rows, Owed, Finds, Dropped, Remaining;
  }

  lemma {:induction false} GoneStaysGone(s: State, events: seq<Event>, id: RecordingId)
    requires id in s.used && id !in s.recordings
    ensures id !in After(s, events).recordings
    decreases |events|
  {
    hide Step;
    if events != [] {
      IdsStay(s, events[0], id);
      GoneStaysGone(Step(s, events[0]), events[1..], id);
    }
  }

  /** A step takes no row from a recording that is not there. */
  lemma NothingPurged(s: State, e: Event, id: RecordingId)
    requires Inv(s) && id !in s.recordings
    ensures PurgedBy(s, e, id) == 0
  {
    NoSeconds(s.segments, id);
    if e.Purge? {
      RemainingSeconds(s.segments, Expired(e.camera, e.org, e.cutoff), id);
    }
    hide Remaining, Seconds;
  }

  lemma {:induction false} RunLag(s: State, events: seq<Event>, id: RecordingId)
    requires Inv(s) && id in After(s, events).recordings
    ensures Lag(After(s, events), id) == (if id in s.recordings then Lag(s, id) else 0) + PurgedSeconds(s, events, id)
    decreases |events|
  {
    if events != [] {
      var s', rest := Step(s, events[0]), events[1..];
      StepInv(s, events[0]);
      RunLag(s', rest, id);
      if id in s'.recordings {
        StepLag(s, events[0], id);
        if id !in s.recordings {
          NothingPurged(s, events[0], id);
        }
      } else {
        if id in s.recordings {
          assert id in s.used;
          IdsStay(s, events[0], id);
          GoneStaysGone(s', rest, id);
        }
        NothingPurged(s, events[0], id);
      }
      hide Inv, Step, Lag, PurgedBy;
    }
  }

  /**
   In every run: a recording's duration, with what is still owed, is that of its rows plus that of
   the rows that retention has taken from it for their age.
   */
  lemma DurationsInEveryRun(s: State, events: seq<Event>, id: RecordingId)
    requires Initial(s) && id in After(s, events).recordings
    ensures var s' := After(s, events);
      s'.recordings[id].totalDuration + OwedSeconds(s'.callbacks, id)
      == Seconds(s'.segments, id) + PurgedSeconds(s, events, id)
  {
    InitialInv(s);
    RunLag(s, events, id);
  }

  /** The step is a purge that takes a row with a duration from the recording. */
  ghost predicate TakesSeconds(s: State, e: Event, id: RecordingId) {
    e.Purge? && s.recount.None? && Shortens(s.segments, Expired(e.camera, e.org, e.cutoff), id)
  }

  lemma PurgedByIff(s: State, e: Event, id: RecordingId)
    ensures PurgedBy(s, e, id) >= 0 && (PurgedBy(s, e, id) == 0 <==> !TakesSeconds(s, e, id))
  {
    if e.Purge? {
      RemainingSeconds(s.segments, Expired(e.camera, e.org, e.cutoff), id);
    }
    hide Seconds, Remaining, Shortens;
  }

  lemma {:induction false} PurgedSecondsIff(s: State, events: seq<Event>, id: RecordingId)
    ensures PurgedSeconds(s, events, id) >= 0
    ensures PurgedSeconds(s, events, id) == 0
      <==> forall n | 0 <= n < |events| :: !TakesSeconds(After(s, events[..n]), events[n], id)
    decreases |events|
  {
    if events != [] {
      var s', rest := Step(s, events[0]), events[1..];
      PurgedByIff(s, events[0], id);
      PurgedSecondsIff(s', rest, id);
      assert events[..0] == [];
      forall n | 0 <= n < |rest| ensures After(s', rest[..n]) == After(s, events[..n + 1]) && rest[n] == events[n + 1] {
        assert events[..n + 1][0] == events[0] && events[..n + 1][1..] == rest[..n];
      }
      assert After(s, events[..0]) == s;
      hide PurgedBy, TakesSeconds, Step, After;
      forall n | 0 < n < |events|
        ensures events[n] == rest[n - 1] && After(s, events[..n]) == After(s', rest[..n - 1])
      {
        assert n == (n - 1) + 1;
      }
    }
  }

  /**
   In every run: once all its callbacks are through, a recording's duration is exact if and only if
   retention has never taken a row with a duration from it.
   */
  lemma DurationExactIff(s: State, events: seq<Event>, id: RecordingId)
    requires Initial(s) && id in After(s, events).recordings && OwedSeconds(After(s, events).callbacks, id) == 0
    ensures After(s, events).recordings[id].totalDuration == Seconds(After(s, events).segments, id)
      <==> forall n | 0 <= n < |events| :: !TakesSeconds(After(s, events[..n]), events[n], id)
  {
    DurationsInEveryRun(s, events, id);
    PurgedSecondsIff(s, events, id);
  }

  /**
   A pass of retention that keeps the recording leaves an exact duration exact if and only if none of
   the rows of it that it removes has a duration; otherwise the duration is too large afterwards.
   */
  lemma RetentionKeepsDurationIff(s: State, c: CameraId, org: OrgId, cutoff: Time, id: RecordingId)
    requires s.recount.None? && id in s.recordings && s.recordings[id].totalDuration == Seconds(s.segments, id)
    ensures var s' := Step(Step(Step(s, Purge(c, org, cutoff)), Count(id)), Write);
      id in s'.recordings ==>
        && s'.recordings[id].totalDuration >= Seconds(s'.segments, id)
        && (s'.recordings[id].totalDuration == Seconds(s'.segments, id)
            <==> !Shortens(s.segments, Expired(c, org, cutoff), id))
  {
    RemainingSeconds(s.segments, Expired(c, org, cutoff), id);
    hide Total, Rows, Owed, Remaining, Seconds, Hits, Drift, Concerned, Shortens;
    var purged := Step(s, Purge(c, org, cutoff));
    assert purged.recount.None? && purged.recordings == s.recordings;
    assert purged.segments == Remaining(s.segments, Expired(c, org, cutoff));
    var counted := Step(purged, Count(id));
    assert counted == purged.(todo := counted.todo, recount := counted.recount);
    assert counted.recount.Some? ==> counted.recount.value.recording == id;
  }
}
