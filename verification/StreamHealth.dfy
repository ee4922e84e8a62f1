/**
 Per-camera stream health: crash-loop detection over a rolling window, the breaker flag, and the
 adaptive miss tolerance.

 The service keeps trimmed lists. The statements here compare what it reports with the complete
 history of the camera, which is the event list of a run.
 */
module StreamHealth {
  import opened Common

  const CRASH_WINDOW_MS := 600_000
  const FAST_EXIT_THRESHOLD_MS := 10_000
  const CRASH_LOOP_THRESHOLD := 5
  const FLAP_WINDOW_MS := 300_000
  const STUCK_RECONNECTING_MS := 300_000
  const STABLE_DWELL_MS := 300_000
  const DEFAULT_MISS_TOLERANCE: nat := 2
  const MAX_MISS_TOLERANCE: nat := 4

  datatype Transition = Transition(at: Time, from: Status, to: Status)

  datatype Record = Record(
    exits: seq<Time>,
    fastExits: seq<Time>,
    transitions: seq<Transition>,
    stableSince: Option<Time>,
    consecutiveFastExits: nat,
    customMissTolerance: Option<nat>,
    degradedSince: Option<Time>)

  const NEW_RECORD := Record([], [], [], None, 0, None, None)

  /** What the service holds about one camera. */
  datatype Slot = Slot(record: Option<Record>, startedAt: Option<Time>)

  const NEW_SLOT := Slot(None, None)

  // ---- One camera's operations ----

  /** The entries at most `window` old. */
  function Within(times: seq<Time>, now: Time, window: nat): seq<Time> {
    if times == [] then []
    else
      var n := |times| - 1;
      Within(times[..n], now, window) + (if now - times[n] <= window then [times[n]] else [])
  }

  function RecentTransitions(ts: seq<Transition>, now: Time): (r: seq<Transition>)
    ensures forall i | 0 <= i < |r| :: now - r[i].at <= FLAP_WINDOW_MS && r[i] in ts
  {
    if ts == [] then []
    else
      var n := |ts| - 1;
      RecentTransitions(ts[..n], now) + (if now - ts[n].at <= FLAP_WINDOW_MS then [ts[n]] else [])
  }

  function RecordOf(s: Slot): Record {
    s.record.GetOr(NEW_RECORD)
  }

  function Started(s: Slot, now: Time): Slot {
    s.(startedAt := Some(now))
  }

  /** A start at the epoch itself counts as no start: zero is falsy. */
  predicate FastExit(s: Slot, now: Time) {
    s.startedAt.Some? && s.startedAt.value != 0 && now - s.startedAt.value < FAST_EXIT_THRESHOLD_MS
  }

  function Exited(s: Slot, now: Time, intentional: bool): Slot {
    if intentional then s.(startedAt := None)
    else
      var r := RecordOf(s);
      var fast := FastExit(s, now);
      Slot(Some(r.(
        exits := Within(r.exits + [now], now, CRASH_WINDOW_MS),
        fastExits := Within(if fast then r.fastExits + [now] else r.fastExits, now, CRASH_WINDOW_MS),
        consecutiveFastExits := if fast then r.consecutiveFastExits + 1 else 0)), None)
  }

  function Changed(s: Slot, now: Time, from: Status, to: Status): Slot {
    var r := RecordOf(s);
    var r1 := r.(
      transitions := RecentTransitions(r.transitions + [Transition(now, from, to)], now),
      stableSince := if to == Online then Some(now) else if from == Online then None else r.stableSince);
    s.(record := Some(if to != Degraded && r1.degradedSince.Some?
                      then r1.(degradedSince := None, consecutiveFastExits := 0) else r1))
  }

  /** The part is a filter: it works entry by entry, in order, and keeps what is at most five minutes old. */
  lemma {:induction false} RecentIsFilter(ts: seq<Transition>, us: seq<Transition>, now: Time)
    ensures RecentTransitions(ts + us, now) == RecentTransitions(ts, now) + RecentTransitions(us, now)
    ensures us != [] && |us| == 1 ==> RecentTransitions(us, now) == if now - us[0].at <= 300_000 then us else []
  {
    if us == [] {
      assert ts + us == ts && RecentTransitions(us, now) == [];
    } else {
      var n := |us| - 1;
      assert (ts + us)[..|ts + us| - 1] == ts + us[..n];
      RecentIsFilter(ts, us[..n], now);
    }
  }

  predicate InCrashLoop(s: Slot) {
    s.record.Some? && |s.record.value.fastExits| > CRASH_LOOP_THRESHOLD
  }

  function Marked(s: Slot, now: Time): Slot {
    var r := RecordOf(s);
    s.(record := Some(if r.degradedSince.None? then r.(degradedSince := Some(now)) else r))
  }

  predicate IsDegraded(s: Slot) {
    s.record.Some? && s.record.value.degradedSince.Some?
  }

  predicate Stable(s: Slot, now: Time) {
    s.record.Some? && s.record.value.stableSince.Some? && now - s.record.value.stableSince.value >= STABLE_DWELL_MS
  }

  /** Reading the tolerance drops the adapted one after a long stable spell. */
  function ToleranceRead(s: Slot, now: Time): Slot {
    if Stable(s, now) then s.(record := Some(s.record.value.(customMissTolerance := None))) else s
  }

  function Tolerance(s: Slot, now: Time): nat {
    if s.record.None? || Stable(s, now) then DEFAULT_MISS_TOLERANCE
    else s.record.value.customMissTolerance.GetOr(DEFAULT_MISS_TOLERANCE)
  }

  function Bumped(s: Slot): Slot {
    var r := RecordOf(s);
    var current := r.customMissTolerance.GetOr(DEFAULT_MISS_TOLERANCE);
    s.(record := Some(if current >= MAX_MISS_TOLERANCE then r else r.(customMissTolerance := Some(current + 1))))
  }

  /** The base of the delays between the attempts of a camera's job. */
  function BackoffBase(s: Slot): nat {
    if s.record.None? then 1_000
    else if s.record.value.consecutiveFastExits >= 3 then 30_000
    else if s.record.value.consecutiveFastExits >= 1 then 5_000
    else 1_000
  }

  function Trimmed(s: Slot, now: Time): Slot {
    if s.record.None? then s
    else
      var r := s.record.value;
      s.(record := Some(r.(
        fastExits := Within(r.fastExits, now, CRASH_WINDOW_MS),
        transitions := RecentTransitions(r.transitions, now))))
  }

  /** The index of the last transition satisfying `p`, the length of the list if there is none. */
  function LastIndex(ts: seq<Transition>, p: Transition -> bool): (k: nat)
    ensures k <= |ts|
    ensures k < |ts| ==> p(ts[k]) && forall i | k < i < |ts| :: !p(ts[i])
    ensures k == |ts| ==> forall i | 0 <= i < |ts| :: !p(ts[i])
  {
    if ts == [] then 0
    else
      var n := |ts| - 1;
      if p(ts[n]) then n
      else var k := LastIndex(ts[..n], p); if k == n then |ts| else k
  }

  /** The stuck-reconnecting test on a trimmed list, for any threshold. */
  predicate StuckFor(ts: seq<Transition>, now: Time, threshold: nat) {
    var into := LastIndex(ts, (t: Transition) => t.to == Reconnecting);
    var out := LastIndex(ts, (t: Transition) => t.from == Reconnecting);
    into < |ts| && (out == |ts| || ts[out].at < ts[into].at) && now - ts[into].at > threshold
  }

  // ---- The service ----

  class StreamHealthMetricsService {
    var records: map<CameraId, Record>
    var startTimes: map<CameraId, Time>

    function SlotOf(c: CameraId): Slot
      reads this
    {
      Slot(if c in records then Some(records[c]) else None, if c in startTimes then Some(startTimes[c]) else None)
    }

    constructor ()
      ensures forall c :: SlotOf(c) == NEW_SLOT
    {
      records, startTimes := map[], map[];
    }

    method RecordStart(c: CameraId, now: Time)
      modifies this
      ensures SlotOf(c) == Started(old(SlotOf(c)), now)
      ensures forall d | d != c :: SlotOf(d) == old(SlotOf(d))
    {
      startTimes := startTimes[c := now];
    }

    method RecordExit(c: CameraId, now: Time, intentional: bool)
      modifies this
      ensures SlotOf(c) == Exited(old(SlotOf(c)), now, intentional)
      ensures forall d | d != c :: SlotOf(d) == old(SlotOf(d))
    {
      hide Within;
      var startedAt: Option<Time> := if c in startTimes then Some(startTimes[c]) else None;
      startTimes := startTimes - {c};
      if intentional {
        return;
      }
      var record := if c in records then records[c] else NEW_RECORD;
      record := record.(exits := record.exits + [now]);
      if startedAt.Some? && startedAt.value != 0 && now - startedAt.value < FAST_EXIT_THRESHOLD_MS {
        record := record.(fastExits := record.fastExits + [now],
            consecutiveFastExits := record.consecutiveFastExits + 1);
      } else {
        record := record.(consecutiveFastExits := 0);
      }
      record := record.(fastExits := Within(record.fastExits, now, CRASH_WINDOW_MS));
      record := record.(exits := Within(record.exits, now, CRASH_WINDOW_MS));
      records := records[c := record];
    }

    method RecordTransition(c: CameraId, now: Time, from: Status, to: Status)
      modifies this
      ensures SlotOf(c) == Changed(old(SlotOf(c)), now, from, to)
      ensures forall d | d != c :: SlotOf(d) == old(SlotOf(d))
    {
      var record := if c in records then records[c] else NEW_RECORD;
      record := record.(transitions := record.transitions + [Transition(now, from, to)]);
      record := record.(transitions := RecentTransitions(record.transitions, now));
      if to == Online {
        record := record.(stableSince := Some(now));
      } else if from == Online {
        record := record.(stableSince := None);
      }
      if to != Degraded && record.degradedSince.Some? {
        record := record.(degradedSince := None, consecutiveFastExits := 0);
      }
      records := records[c := record];
    }

    method MarkDegraded(c: CameraId, now: Time)
      modifies this
      ensures SlotOf(c) == Marked(old(SlotOf(c)), now)
      ensures forall d | d != c :: SlotOf(d) == old(SlotOf(d))
    {
      var record := if c in records then records[c] else NEW_RECORD;
      if record.degradedSince.None? {
        record := record.(degradedSince := Some(now));
      }
      records := records[c := record];
    }

    method GetMissTolerance(c: CameraId, now: Time) returns (tolerance: nat)
      modifies this
      ensures tolerance == Tolerance(old(SlotOf(c)), now)
      ensures SlotOf(c) == ToleranceRead(old(SlotOf(c)), now)
      ensures forall d | d != c :: SlotOf(d) == old(SlotOf(d))
    {
      if c !in records {
        return DEFAULT_MISS_TOLERANCE;
      }
      var record := records[c];
      if record.stableSince.Some? && now - record.stableSince.value >= STABLE_DWELL_MS {
        records := records[c := record.(customMissTolerance := None)];
        return DEFAULT_MISS_TOLERANCE;
      }
      return record.customMissTolerance.GetOr(DEFAULT_MISS_TOLERANCE);
    }

    method BumpMissTolerance(c: CameraId)
      modifies this
      ensures SlotOf(c) == Bumped(old(SlotOf(c)))
      ensures forall d | d != c :: SlotOf(d) == old(SlotOf(d))
    {
      var record := if c in records then records[c] else NEW_RECORD;
      var current := record.customMissTolerance.GetOr(DEFAULT_MISS_TOLERANCE);
      if current < MAX_MISS_TOLERANCE {
        record := record.(customMissTolerance := Some(current + 1));
      }
      records := records[c := record];
    }

    method GetBackoffBaseMs(c: CameraId) returns (base: nat)
      ensures base == BackoffBase(SlotOf(c))
    {
      if c !in records {
        return 1_000;
      }
      if records[c].consecutiveFastExits >= 3 {
        return 30_000;
      }
      if records[c].consecutiveFastExits >= 1 {
        return 5_000;
      }
      return 1_000;
    }

    /** One camera's part of the snapshot. Nothing the trim keeps is older than the stuck threshold. */
    method SnapshotOne(c: CameraId, now: Time) returns (crashLoop: bool, stuck: bool, degraded: bool)
      requires c in records
      modifies this
      ensures records.Keys == old(records.Keys)
      ensures SlotOf(c) == Trimmed(old(SlotOf(c)), now)
      ensures forall d | d != c :: SlotOf(d) == old(SlotOf(d))
      ensures crashLoop == InCrashLoop(SlotOf(c)) && degraded == IsDegraded(SlotOf(c)) && !stuck
    {
      hide Within, LastIndex;
      var record := records[c];
      record := record.(fastExits := Within(record.fastExits, now, CRASH_WINDOW_MS));
      record := record.(transitions := RecentTransitions(record.transitions, now));
      records := records[c := record];
      crashLoop := |record.fastExits| > CRASH_LOOP_THRESHOLD;
      degraded := record.degradedSince.Some?;
      stuck := StuckFor(record.transitions, now, STUCK_RECONNECTING_MS);
    }

    /**
     The metrics snapshot trims every record on the way, and reports no camera as reconnecting
     for more than five minutes, ever.
     */
    method Snapshot(now: Time) returns (crashLoop: set<CameraId>, stuck: set<CameraId>, degraded: set<CameraId>)
      modifies this
      ensures forall c :: SlotOf(c) == Trimmed(old(SlotOf(c)), now)
      ensures forall c :: c in crashLoop <==> c in records && InCrashLoop(SlotOf(c))
      ensures forall c :: c in degraded <==> c in records && IsDegraded(SlotOf(c))
      ensures stuck == {}
    {
      hide Trimmed, InCrashLoop, IsDegraded;
      crashLoop, stuck, degraded := {}, {}, {};
      var todo := records.Keys;
      while todo != {}
        invariant todo <= records.Keys == old(records.Keys)
        invariant forall c | c in todo :: SlotOf(c) == old(SlotOf(c))
        invariant forall c | c in records && c !in todo :: SlotOf(c) == Trimmed(old(SlotOf(c)), now)
        invariant forall c | c !in records :: SlotOf(c) == old(SlotOf(c))
        invariant forall c :: c in crashLoop <==> c in records && c !in todo && InCrashLoop(SlotOf(c))
        invariant forall c :: c in degraded <==> c in records && c !in todo && IsDegraded(SlotOf(c))
        invariant stuck == {}
        decreases todo
      {
        var c :| c in todo;
        var isLooping, isStuck, isDegraded := SnapshotOne(c, now);
        if isLooping {
          crashLoop := crashLoop + {c};
        }
        if isDegraded {
          degraded := degraded + {c};
        }
        if isStuck {
          stuck := stuck + {c};
        }
        todo := todo - {c};
      }
      forall c | c !in records ensures SlotOf(c) == Trimmed(old(SlotOf(c)), now) {
        TrimNothing(old(SlotOf(c)), now);
      }
    }
  }

  lemma TrimNothing(s: Slot, now: Time)
    requires s.record.None?
    ensures Trimmed(s, now) == s
  {}

  // ---- Whole runs on one camera ----

  datatype Event =
    | StartEvent
    | ExitEvent(intentional: bool)
    | ChangeEvent(from: Status, to: Status)
    | MarkEvent
    | ToleranceEvent
    | BumpEvent
    | SnapshotEvent

  datatype Timed = Timed(at: Time, event: Event)

  function Step(s: Slot, t: Timed): Slot {
    match t.event
    case StartEvent => Started(s, t.at)
    case ExitEvent(intentional) => Exited(s, t.at, intentional)
    case ChangeEvent(from, to) => Changed(s, t.at, from, to)
    case MarkEvent => Marked(s, t.at)
    case ToleranceEvent => ToleranceRead(s, t.at)
    case BumpEvent => Bumped(s)
    case SnapshotEvent => Trimmed(s, t.at)
  }

  function Run(events: seq<Timed>): Slot {
    if events == [] then NEW_SLOT
    else Step(Run(events[..|events| - 1]), events[|events| - 1])
  }

  ghost predicate Ordered(events: seq<Timed>) {
    forall i, j | 0 <= i < j < |events| :: events[i].at <= events[j].at
  }

  // ---- The complete history, read off the event list ----

  /** Event `j` is a start with no start and no exit after it and before position `i`. */
  ghost predicate OpenStart(events: seq<Timed>, i: nat, j: nat) {
    j < i <= |events| && events[j].event.StartEvent?
    && forall k | j < k < i :: !events[k].event.StartEvent? && !events[k].event.ExitEvent?
  }

  /** Event `i` is a non-intentional exit less than ten seconds after the start it ends. */
  ghost predicate IsFastExit(events: seq<Timed>, i: nat) {
    i < |events| && events[i].event == ExitEvent(false)
    && exists j: nat ::
      OpenStart(events, i, j) && events[j].at != 0 && events[i].at - events[j].at < 10_000
  }

  /** The times of all fast non-intentional exits among the first `n` events. */
  ghost function FastExitLog(events: seq<Timed>, n: nat): seq<Time>
    requires n <= |events|
  {
    if n == 0 then []
    else FastExitLog(events, n - 1) + (if IsFastExit(events, n - 1) then [events[n - 1].at] else [])
  }

  /** The event trims the fast-exit list of a camera that has a record. */
  predicate Trims(e: Event) {
    e == ExitEvent(false) || e == SnapshotEvent
  }

  /** The time of the last such event among the first `n`. */
  function LastTime(events: seq<Timed>, n: nat, such: Event -> bool): Time
    requires n <= |events|
  {
    if n == 0 then 0 else if such(events[n - 1].event) then events[n - 1].at else LastTime(events, n - 1, such)
  }

  // ---- Windows ----

  lemma {:induction false} WithinTwice(times: seq<Time>, earlier: Time, now: Time, window: nat)
    requires earlier <= now
    ensures Within(Within(times, earlier, window), now, window) == Within(times, now, window)
  {
    if times != [] {
      var n := |times| - 1;
      var front := Within(times[..n], earlier, window);
      WithinTwice(times[..n], earlier, now, window);
      if earlier - times[n] <= window {
        WithinAppend(front, times[n], now, window);
      } else {
        assert front + [] == front && Within(times[..n], now, window) + [] == Within(times[..n], now, window);
      }
    }
  }

  lemma WithinAppend(times: seq<Time>, t: Time, now: Time, window: nat)
    ensures Within(times + [t], now, window) == Within(times, now, window) + (if now - t <= window then [t] else [])
  {
    assert (times + [t])[..|times|] == times;
  }

  // ---- The lists refine the history ----

  lemma {:induction false} LastTimeBound(events: seq<Timed>, n: nat, such: Event -> bool)
    requires n <= |events| && Ordered(events)
    ensures forall i | n <= i < |events| :: LastTime(events, n, such) <= events[i].at
  {
    if n > 0 && !such(events[n - 1].event) {
      LastTimeBound(events, n - 1, such);
    }
  }

  lemma {:induction false} OpenStartRefines(events: seq<Timed>, n: nat)
    requires n <= |events|
    ensures var s := Run(events[..n]).startedAt;
      if s.None? then forall j: nat :: !OpenStart(events, n, j)
      else exists j: nat :: OpenStart(events, n, j) && events[j].at == s.value
    ensures forall i: nat, j: nat :: OpenStart(events, n, i) && OpenStart(events, n, j) ==> i == j
  {
    if n > 0 {
      assert events[..n][..n - 1] == events[..n - 1];
      OpenStartRefines(events, n - 1);
      var e := events[n - 1];
      assert Run(events[..n]) == Step(Run(events[..n - 1]), e);
      if e.event.StartEvent? {
        assert OpenStart(events, n, n - 1);
      } else if !e.event.ExitEvent? {
        forall j: nat ensures OpenStart(events, n, j) <==> OpenStart(events, n - 1, j) {}
      }
    }
  }

  lemma FastExitRefines(events: seq<Timed>, n: nat)
    requires n < |events| && events[n].event == ExitEvent(false)
    ensures FastExit(Run(events[..n]), events[n].at) <==> IsFastExit(events, n)
  {
    OpenStartRefines(events, n);
  }

  function FastExits(s: Slot): seq<Time> {
    RecordOf(s).fastExits
  }

  /**
   Although entries are dropped at arbitrary earlier calls, the list is exactly the part of the
   full history inside the window that ended at the last trim.
   */
  lemma {:induction false} ListIsWindowOfHistory(events: seq<Timed>, n: nat)
    requires n <= |events| && Ordered(events)
    ensures FastExits(Run(events[..n])) == Within(FastExitLog(events, n), LastTime(events, n, Trims), CRASH_WINDOW_MS)
  {
    if n > 0 {
      assert events[..n][..n - 1] == events[..n - 1];
      ListIsWindowOfHistory(events, n - 1);
      LastTimeBound(events, n - 1, Trims);
      var s, e := Run(events[..n - 1]), events[n - 1];
      assert Run(events[..n]) == Step(s, e);
      var log, before := FastExitLog(events, n - 1), LastTime(events, n - 1, Trims);
      assert log + [] == log;
      if e.event == ExitEvent(false) {
        FastExitRefines(events, n - 1);
        WithinTwice(log, before, e.at, CRASH_WINDOW_MS);
        WithinAppend(FastExits(s), e.at, e.at, CRASH_WINDOW_MS);
        WithinAppend(log, e.at, e.at, CRASH_WINDOW_MS);
      } else if e.event == SnapshotEvent {
        WithinTwice(log, before, e.at, CRASH_WINDOW_MS);
      }
    }
  }

  lemma {:induction false} WithinLengthShrinks(times: seq<Time>, earlier: Time, now: Time, window: nat)
    requires earlier <= now
    ensures |Within(times, now, window)| <= |Within(times, earlier, window)|
  {
    if times != [] {
      WithinLengthShrinks(times[..|times| - 1], earlier, now, window);
    }
  }

  /**
   The crash-loop verdict against the complete history. Read right after a non-intentional exit
   it is exact: more than five fast non-intentional exits in the last ten minutes. Read at any
   other time it may be out of date, but it never misses a crash loop that is still going on.
   */
  lemma VerdictRefinesHistory(events: seq<Timed>, now: Time)
    requires Ordered(events) && forall i | 0 <= i < |events| :: events[i].at <= now
    ensures var n := |events|;
      var history := Within(FastExitLog(events, n), now, 600_000);
      && (events != [] && events[n - 1] == Timed(now, ExitEvent(false)) ==>
            (InCrashLoop(Run(events)) <==> |history| > 5))
      && (|history| > 5 ==> InCrashLoop(Run(events)))
  {
    var n := |events|;
    assert events[..n] == events;
    ListIsWindowOfHistory(events, n);
    LastTimeIsPast(events, n, Trims, now);
    WithinLengthShrinks(FastExitLog(events, n), LastTime(events, n, Trims), now, CRASH_WINDOW_MS);
  }

  lemma {:induction false} LastTimeIsPast(events: seq<Timed>, n: nat, such: Event -> bool, now: Time)
    requires n <= |events| && forall i | 0 <= i < |events| :: events[i].at <= now
    ensures LastTime(events, n, such) <= now
  {
    if n > 0 {
      LastTimeIsPast(events, n - 1, such, now);
    }
  }

  // ---- The other two lists ----

  /** The times of all non-intentional exits among the first `n` events. */
  function ExitLog(events: seq<Timed>, n: nat): seq<Time>
    requires n <= |events|
  {
    if n == 0 then []
    else ExitLog(events, n - 1) + (if events[n - 1].event == ExitEvent(false) then [events[n - 1].at] else [])
  }

  /** All recorded changes among the first `n` events. */
  function ChangeLog(events: seq<Timed>, n: nat): seq<Transition>
    requires n <= |events|
  {
    if n == 0 then []
    else
      var t := events[n - 1];
      ChangeLog(events, n - 1)
      + (if t.event.ChangeEvent? then [Transition(t.at, t.event.from, t.event.to)] else [])
  }

  predicate TrimsExits(e: Event) {
    e == ExitEvent(false)
  }

  predicate TrimsChanges(e: Event) {
    e.ChangeEvent? || e == SnapshotEvent
  }

  lemma {:induction false} RecentTwice(ts: seq<Transition>, earlier: Time, now: Time)
    requires earlier <= now
    ensures RecentTransitions(RecentTransitions(ts, earlier), now) == RecentTransitions(ts, now)
  {
    if ts != [] {
      var n := |ts| - 1;
      var front := RecentTransitions(ts[..n], earlier);
      RecentTwice(ts[..n], earlier, now);
      if earlier - ts[n].at <= FLAP_WINDOW_MS {
        RecentIsFilter(front, [ts[n]], now);
      } else {
        assert front + [] == front && RecentTransitions(ts[..n], now) + [] == RecentTransitions(ts[..n], now);
      }
    }
  }

  lemma ListsStep(s: Slot, t: Timed)
    ensures RecordOf(Step(s, t)).exits ==
      if t.event == ExitEvent(false) then Within(RecordOf(s).exits + [t.at], t.at, CRASH_WINDOW_MS)
      else RecordOf(s).exits
    ensures RecordOf(Step(s, t)).transitions ==
      if t.event.ChangeEvent?
      then RecentTransitions(RecordOf(s).transitions + [Transition(t.at, t.event.from, t.event.to)], t.at)
      else if t.event == SnapshotEvent then RecentTransitions(RecordOf(s).transitions, t.at)
      else RecordOf(s).transitions
  {
    hide Within;
  }

  lemma NextStep(events: seq<Timed>, n: nat)
    requires 0 < n <= |events|
    ensures Run(events[..n]) == Step(Run(events[..n - 1]), events[n - 1])
  {
    hide Step;
    assert events[..n][..n - 1] == events[..n - 1];
  }

  lemma NothingYet(events: seq<Timed>)
    ensures Run(events[..0]) == NEW_SLOT
    ensures Within([], 0, 600_000) == [] && RecentTransitions([], 0) == []
  {}

  /** The list of exits is the last ten minutes of the history before the last exit. */
  lemma {:induction false} ExitsAreWindow(events: seq<Timed>, n: nat)
    requires n <= |events| && Ordered(events)
    ensures RecordOf(Run(events[..n])).exits == Within(ExitLog(events, n), LastTime(events, n, TrimsExits), 600_000)
  {
    hide Step, Run, Within;
    if n == 0 {
      NothingYet(events);
    } else {
      ExitsAreWindow(events, n - 1);
      LastTimeBound(events, n - 1, TrimsExits);
      NextStep(events, n);
      var s, e := Run(events[..n - 1]), events[n - 1];
      var log, before := ExitLog(events, n - 1), LastTime(events, n - 1, TrimsExits);
      ListsStep(s, e);
      if TrimsExits(e.event) {
        WithinTwice(log, before, e.at, CRASH_WINDOW_MS);
        WithinAppend(RecordOf(s).exits, e.at, e.at, CRASH_WINDOW_MS);
        WithinAppend(log, e.at, e.at, CRASH_WINDOW_MS);
      } else {
        assert ExitLog(events, n) == log && LastTime(events, n, TrimsExits) == before;
      }
    }
  }

  /** The list of changes is the last five minutes of the history before the last change or snapshot. */
  lemma {:induction false} ChangesAreWindow(events: seq<Timed>, n: nat)
    requires n <= |events| && Ordered(events)
    ensures RecordOf(Run(events[..n])).transitions
      == RecentTransitions(ChangeLog(events, n), LastTime(events, n, TrimsChanges))
  {
    hide Step, Run, RecentTransitions;
    if n == 0 {
      NothingYet(events);
    } else {
      ChangesAreWindow(events, n - 1);
      LastTimeBound(events, n - 1, TrimsChanges);
      NextStep(events, n);
      var s, e := Run(events[..n - 1]), events[n - 1];
      var log, before := ChangeLog(events, n - 1), LastTime(events, n - 1, TrimsChanges);
      ListsStep(s, e);
      if TrimsChanges(e.event) {
        RecentTwice(log, before, e.at);
        if e.event.ChangeEvent? {
          var change := [Transition(e.at, e.event.from, e.event.to)];
          RecentIsFilter(RecordOf(s).transitions, change, e.at);
          RecentIsFilter(log, change, e.at);
        } else {
          assert ChangeLog(events, n) == log;
        }
      } else {
        assert ChangeLog(events, n) == log && LastTime(events, n, TrimsChanges) == before;
      }
    }
  }

  // ---- The stuck-reconnecting list ----

  /**
   After a trim some camera can be reported as stuck exactly when the threshold is below the
   window that is kept. The service keeps five minutes and asks for more than five.
   */
  lemma StuckIffThresholdBelowWindow(threshold: nat)
    ensures (exists ts: seq<Transition>, now: Time :: StuckFor(RecentTransitions(ts, now), now, threshold))
      <==> threshold < FLAP_WINDOW_MS
  {
    if threshold < FLAP_WINDOW_MS {
      var now: Time := FLAP_WINDOW_MS;
      var t := Transition(0, Online, Reconnecting);
      assert [t][..0] == [];
      assert RecentTransitions([t], now) == [t];
      assert StuckFor([t], now, threshold) by {
        var into := LastIndex([t], (t: Transition) => t.to == Reconnecting);
        var out := LastIndex([t], (t: Transition) => t.from == Reconnecting);
        assert [t][0] == t;
        assert into == 0 && out == 1;
      }
      assert StuckFor(RecentTransitions([t], now), now, threshold);
    }
  }

  // ---- Bounds ----

  ghost predicate Bounded(s: Slot) {
    s.record.Some? && s.record.value.customMissTolerance.Some? ==>
      DEFAULT_MISS_TOLERANCE < s.record.value.customMissTolerance.value <= MAX_MISS_TOLERANCE
  }

  /** Under every bump and reset the tolerance stays between two and four. */
  lemma {:induction false} ToleranceBounds(events: seq<Timed>, now: Time)
    ensures Bounded(Run(events))
    ensures DEFAULT_MISS_TOLERANCE <= Tolerance(Run(events), now) <= MAX_MISS_TOLERANCE
  {
    if events != [] {
      ToleranceBounds(events[..|events| - 1], now);
    }
  }

  predicate ClearsBreaker(e: Event) {
    e.ChangeEvent? && e.to != Degraded
  }

  /** Event `i` marks the camera and nothing after it clears the mark. */
  ghost predicate StandingMark(events: seq<Timed>, i: nat) {
    i < |events| && events[i].event.MarkEvent? && forall j | i < j < |events| :: !ClearsBreaker(events[j].event)
  }

  /** A mark keeps the time of the first one. */
  lemma MarkedOnce(s: Slot, now: Time, later: Time)
    requires !IsDegraded(s)
    ensures RecordOf(Marked(s, now)).degradedSince == Some(now) && Marked(Marked(s, now), later) == Marked(s, now)
  {}

  lemma BreakerStep(s: Slot, t: Timed)
    ensures IsDegraded(Step(s, t)) <==> t.event.MarkEvent? || (IsDegraded(s) && !ClearsBreaker(t.event))
  {
    hide Within, RecentTransitions;
  }

  /**
   The breaker flag at the end of a run: it is up exactly when some mark has no later recorded
   change to a status other than degraded.
   */
  lemma {:induction false} BreakerIsHistory(events: seq<Timed>)
    ensures IsDegraded(Run(events)) <==> exists i: nat :: StandingMark(events, i)
  {
    if events != [] {
      var n := |events| - 1;
      var front := events[..n];
      BreakerIsHistory(front);
      var e := events[n].event;
      BreakerStep(Run(front), events[n]);
      assert Run(events) == Step(Run(front), events[n]);
      hide Run, IsDegraded, Step;
      assert forall i | 0 <= i < n :: front[i] == events[i];
      if events[n].event.MarkEvent? {
        assert StandingMark(events, n);
      } else {
        forall i: nat | i < n ensures StandingMark(events, i)
          <==> StandingMark(front, i) && !ClearsBreaker(events[n].event) {}
      }
    }
  }

  // ---- The dwell, the tolerance and the backoff base, read off the history ----

  /** Event `i` brings the camera online, and no recorded change after it comes from or leads to online. */
  ghost predicate OnlineSpell(events: seq<Timed>, i: nat) {
    && i < |events| && events[i].event.ChangeEvent? && events[i].event.to == Online
    && forall j | i < j < |events| ::
         events[j].event.ChangeEvent? ==> events[j].event.from != Online && events[j].event.to != Online
  }

  /** At time `now` the camera has been online for five minutes. */
  ghost predicate LongSpell(events: seq<Timed>, now: Time) {
    exists i: nat :: OnlineSpell(events, i) && now - events[i].at >= 300_000
  }

  /** The start of the dwell is the time of the change that began the present spell online. */
  lemma {:induction false} DwellIsHistory(events: seq<Timed>)
    ensures var since := RecordOf(Run(events)).stableSince;
      if since.None? then forall i: nat :: !OnlineSpell(events, i)
      else exists i: nat :: OnlineSpell(events, i) && events[i].at == since.value
    ensures forall i: nat, j: nat :: OnlineSpell(events, i) && OnlineSpell(events, j) ==> i == j
  {
    if events != [] {
      var n := |events| - 1;
      var front, e := events[..n], events[n].event;
      DwellIsHistory(front);
      var before, after := RecordOf(Run(front)).stableSince, RecordOf(Run(events)).stableSince;
      assert after == (if e.ChangeEvent? && e.to == Online then Some(events[n].at)
                       else if e.ChangeEvent? && e.from == Online then None else before) by {
        hide Within, RecentTransitions;
      }
      hide Run;
      assert forall i | 0 <= i < n :: front[i] == events[i];
      if e.ChangeEvent? && e.to == Online {
        assert OnlineSpell(events, n);
      } else {
        forall i: nat | i < n ensures OnlineSpell(events, i)
          <==> OnlineSpell(front, i) && !(e.ChangeEvent? && e.from == Online) {}
      }
    }
  }

  /** The dwell is over exactly when the camera has been online for five minutes. */
  lemma StableIsHistory(events: seq<Timed>, now: Time)
    ensures Stable(Run(events), now) <==> LongSpell(events, now)
  {
    DwellIsHistory(events);
  }

  /** How often the tolerance was raised since it was last read in a long spell online. */
  ghost function Bumps(events: seq<Timed>, n: nat): nat
    requires n <= |events|
  {
    if n == 0 then 0
    else
      var e := events[n - 1];
      if e.event.BumpEvent? then Bumps(events, n - 1) + 1
      else if e.event.ToleranceEvent? && LongSpell(events[..n - 1], e.at) then 0
      else Bumps(events, n - 1)
  }

  /** The tolerance is two in a long spell online, else two and one for each of those raises, up to four. */
  lemma {:induction false} ToleranceIsHistory(events: seq<Timed>, n: nat, now: Time)
    requires n <= |events|
    ensures RecordOf(Run(events[..n])).customMissTolerance.GetOr(2)
      == if Bumps(events, n) < 2 then 2 + Bumps(events, n) else 4
    ensures Tolerance(Run(events[..n]), now)
      == if LongSpell(events[..n], now) || Bumps(events, n) == 0 then 2 else if Bumps(events, n) == 1 then 3 else 4
  {
    StableIsHistory(events[..n], now);
    if n > 0 {
      var e := events[n - 1];
      assert events[..n][..n - 1] == events[..n - 1];
      ToleranceIsHistory(events, n - 1, e.at);
      StableIsHistory(events[..n - 1], e.at);
      assert Run(events[..n]) == Step(Run(events[..n - 1]), e);
      hide Run, LongSpell, Within, RecentTransitions;
    }
  }

  /** The camera is marked, by the history of the first `n` events. */
  ghost predicate MarkStands(events: seq<Timed>, n: nat)
    requires n <= |events|
  {
    exists i: nat :: StandingMark(events[..n], i)
  }

  /** How many of the latest non-intentional exits were fast, since the breaker was last cleared. */
  ghost function FastStreak(events: seq<Timed>, n: nat): nat
    requires n <= |events|
  {
    if n == 0 then 0
    else
      var e := events[n - 1].event;
      if e == ExitEvent(false) then (if IsFastExit(events, n - 1) then FastStreak(events, n - 1) + 1 else 0)
      else if ClearsBreaker(e) && MarkStands(events, n - 1) then 0
      else FastStreak(events, n - 1)
  }

  lemma StreakStep(s: Slot, t: Timed)
    ensures RecordOf(Step(s, t)).consecutiveFastExits ==
      var before := RecordOf(s).consecutiveFastExits;
      if t.event == ExitEvent(false) then (if FastExit(s, t.at) then before + 1 else 0)
      else if ClearsBreaker(t.event) && IsDegraded(s) then 0
      else before
  {
    hide Within, RecentTransitions;
  }

  /** The base is a second, after a fast exit five, after three in a row thirty. */
  lemma {:induction false} BackoffIsHistory(events: seq<Timed>, n: nat)
    requires n <= |events|
    ensures RecordOf(Run(events[..n])).consecutiveFastExits == FastStreak(events, n)
    ensures BackoffBase(Run(events[..n]))
      == if FastStreak(events, n) == 0 then 1_000 else if FastStreak(events, n) < 3 then 5_000 else 30_000
  {
    if n > 0 {
      var e := events[n - 1];
      assert events[..n][..n - 1] == events[..n - 1];
      BackoffIsHistory(events, n - 1);
      BreakerIsHistory(events[..n - 1]);
      if e.event == ExitEvent(false) {
        FastExitRefines(events, n - 1);
      }
      StreakStep(Run(events[..n - 1]), e);
      assert Run(events[..n]) == Step(Run(events[..n - 1]), e);
      hide Run, Step, StandingMark, IsFastExit, IsDegraded, FastExit, ClearsBreaker;
    }
  }
}
