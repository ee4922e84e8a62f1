/**
 The FFmpeg process table: start, stop, kill, stderr and exit events.

 The service keys everything by camera. The operating system and the start promises go by
 process; `processes` is their side, and the statements below say when the two sides agree.
 */
module FfmpegSupervisor {
  import opened Common
  import StreamHealth

  type ProcessId = nat

  const STDERR_BUFFER_SIZE := 30

  datatype Ending = Alive | ByError | ByEnd

  datatype Promise = Pending | Resolved | Rejected

  /** One spawned command: its history and its start promise. */
  datatype Process = Process(
    camera: CameraId, ending: Ending, terminated: bool, killed: bool, lines: seq<string>, promise: Promise)

  datatype System = System(
    running: map<CameraId, ProcessId>,
    handlers: map<CameraId, ProcessId>,
    marks: set<CameraId>,
    stderr: map<CameraId, seq<string>>,
    processes: map<ProcessId, Process>)

  const EMPTY := System(map[], map[], {}, map[], map[])

  datatype Event =
    | StartCall(camera: CameraId, id: ProcessId)
    | StderrLine(id: ProcessId, line: string)
    | ErrorExit(id: ProcessId)
    | EndExit(id: ProcessId)
    | Terminate(camera: CameraId)
    | Kill(camera: CameraId)

  predicate IsAlive(s: System, p: ProcessId) {
    p in s.processes && s.processes[p].ending == Alive
  }

  function PushLine(buffer: seq<string>, line: string): seq<string> {
    var longer := buffer + [line];
    if |longer| > STDERR_BUFFER_SIZE then longer[1..] else longer
  }

  function Spawned(s: System, c: CameraId, p: ProcessId): System {
    System(s.running[c := p], s.handlers[c := p], s.marks, s.stderr[c := []],
           s.processes[p := Process(c, Alive, false, false, [], Pending)])
  }

  /** What both exit handlers do to the tables, and the settlement of the promise. */
  function Exited(s: System, p: ProcessId, ending: Ending, promise: Promise): System
    requires p in s.processes
  {
    var c := s.processes[p].camera;
    System(s.running - {c}, s.handlers - {c}, s.marks - {c}, s.stderr - {c},
           s.processes[p := s.processes[p].(ending := ending, promise := promise)])
  }

  function Step(s: System, e: Event): System {
    match e
    case StartCall(c, p) =>
      if c in s.running || p in s.processes then s else Spawned(s, c, p)
    case StderrLine(p, line) =>
      if !IsAlive(s, p) then s
      else
        var c := s.processes[p].camera;
        s.(stderr := if c in s.stderr then s.stderr[c := PushLine(s.stderr[c], line)] else s.stderr,
           processes := s.processes[p := s.processes[p].(lines := s.processes[p].lines + [line])])
    case ErrorExit(p) =>
      if !IsAlive(s, p) then s
      else Exited(s, p, ByError, if s.processes[p].camera in s.marks then Resolved else Rejected)
    case EndExit(p) =>
      if !IsAlive(s, p) then s else Exited(s, p, ByEnd, Resolved)
    case Terminate(c) =>
      if c in s.running && s.running[c] in s.processes then
        var p := s.running[c];
        s.(marks := s.marks + {c}, processes := s.processes[p := s.processes[p].(terminated := true)])
      else s
    case Kill(c) =>
      if c in s.running && s.running[c] in s.processes then
        var p := s.running[c];
        s.(marks := s.marks + {c}, processes := s.processes[p := s.processes[p].(killed := true)])
      else s
  }

  function Run(s: System, events: seq<Event>): System
    decreases |events|
  {
    if events == [] then s else Run(Step(s, events[0]), events[1..])
  }

  // ---- The invariant ----

  function LastLines(lines: seq<string>, n: nat): seq<string> {
    if |lines| <= n then lines else lines[|lines| - n..]
  }

  ghost predicate TablesAgree(s: System) {
    // One domain, and the camera's process is the live one the handlers belong to.
    && s.running == s.handlers
    && s.running.Keys == s.stderr.Keys
    && (forall c | c in s.running :: IsAlive(s, s.running[c]) && s.processes[s.running[c]].camera == c)
    && (forall p | IsAlive(s, p) ::
          s.processes[p].camera in s.running && s.running[s.processes[p].camera] == p)
  }

  ghost predicate MarksAgree(s: System) {
    // A mark stands exactly for a signal sent to the camera's present process.
    && s.marks <= s.running.Keys
    && (forall c | c in s.running && s.running[c] in s.processes ::
          c in s.marks <==> s.processes[s.running[c]].terminated || s.processes[s.running[c]].killed)
  }

  ghost predicate ProcessesAgree(s: System) {
    forall p | p in s.processes ::
      var q := s.processes[p];
      && (q.promise == Pending <==> q.ending == Alive)
      && (q.promise == Rejected <==> q.ending == ByError && !q.terminated && !q.killed)
      && (q.ending == Alive && q.camera in s.stderr ==> s.stderr[q.camera] == LastLines(q.lines, STDERR_BUFFER_SIZE))
  }

  ghost predicate Inv(s: System) {
    TablesAgree(s) && MarksAgree(s) && ProcessesAgree(s)
  }

  lemma RunningIsAlive(s: System, c: CameraId)
    requires Inv(s)
    ensures c in s.running ==> IsAlive(s, s.running[c]) && s.processes[s.running[c]].camera == c
    ensures c !in s.running ==> c !in s.marks
  {}

  lemma LinesPushed(lines: seq<string>, line: string)
    ensures PushLine(LastLines(lines, STDERR_BUFFER_SIZE), line) == LastLines(lines + [line], STDERR_BUFFER_SIZE)
  {}

  lemma SpawnInv(s: System, c: CameraId, p: ProcessId)
    requires Inv(s) && c !in s.running && p !in s.processes
    ensures Inv(Spawned(s, c, p))
  {
    var s' := Spawned(s, c, p);
    forall d | d in s'.running ensures IsAlive(s', s'.running[d]) && s'.processes[s'.running[d]].camera == d {
      if d != c { assert IsAlive(s, s.running[d]); }
    }
    forall q | IsAlive(s', q) ensures s'.processes[q].camera in s'.running && s'.running[s'.processes[q].camera] == q {
      if q != p { assert IsAlive(s, q); }
    }
  }

  lemma ExitInv(s: System, p: ProcessId, ending: Ending, promise: Promise)
    requires Inv(s) && IsAlive(s, p) && ending != Alive && promise != Pending
    requires promise == Rejected <==> ending == ByError && s.processes[p].camera !in s.marks
    ensures Inv(Exited(s, p, ending, promise))
  {
    var s' := Exited(s, p, ending, promise);
    var c := s.processes[p].camera;
    assert s.running[c] == p;
    forall d | d in s'.running ensures IsAlive(s', s'.running[d]) && s'.processes[s'.running[d]].camera == d {
      assert IsAlive(s, s.running[d]) && s.processes[s.running[d]].camera == d != c;
    }
    forall q | IsAlive(s', q) ensures s'.processes[q].camera in s'.running && s'.running[s'.processes[q].camera] == q {
      assert IsAlive(s, q) && q != p;
    }
  }

  lemma LineInv(s: System, p: ProcessId, line: string)
    requires Inv(s) && IsAlive(s, p)
    ensures Inv(Step(s, StderrLine(p, line)))
  {
    var s' := Step(s, StderrLine(p, line));
    var c := s.processes[p].camera;
    LinesPushed(s.processes[p].lines, line);
    forall d | d in s'.running ensures IsAlive(s', s'.running[d]) && s'.processes[s'.running[d]].camera == d {
      assert IsAlive(s, s.running[d]) && s.processes[s.running[d]].camera == d;
    }
    forall q | IsAlive(s', q) ensures s'.processes[q].camera in s'.running && s'.running[s'.processes[q].camera] == q {
      assert IsAlive(s, q);
    }
  }

  lemma SignalTables(s: System, c: CameraId, kill: bool)
    requires TablesAgree(s)
    ensures TablesAgree(Step(s, if kill then Kill(c) else Terminate(c)))
  {
    var s' := Step(s, if kill then Kill(c) else Terminate(c));
    forall d | d in s'.running ensures IsAlive(s', s'.running[d]) && s'.processes[s'.running[d]].camera == d {
      assert IsAlive(s, s.running[d]) && s.processes[s.running[d]].camera == d;
    }
    forall q | IsAlive(s', q) ensures s'.processes[q].camera in s'.running && s'.running[s'.processes[q].camera] == q {
      assert IsAlive(s, q);
    }
  }

  lemma SignalInv(s: System, c: CameraId, kill: bool)
    requires Inv(s)
    ensures Inv(Step(s, if kill then Kill(c) else Terminate(c)))
  {
    SignalTables(s, c, kill);
    var s' := Step(s, if kill then Kill(c) else Terminate(c));
    assert MarksAgree(s') by {
      hide ProcessesAgree, LastLines, PushLine;
    }
    assert ProcessesAgree(s') by {
      hide MarksAgree, LastLines, PushLine;
    }
  }

  lemma StepInv(s: System, e: Event)
    requires Inv(s)
    ensures Inv(Step(s, e))
  {
    hide TablesAgree, MarksAgree, ProcessesAgree;
    match e
    case StartCall(c, p) =>
      if c !in s.running && p !in s.processes { SpawnInv(s, c, p); }
    case StderrLine(p, line) =>
      if IsAlive(s, p) { LineInv(s, p, line); }
    case ErrorExit(p) =>
      if IsAlive(s, p) { ExitInv(s, p, ByError, if s.processes[p].camera in s.marks then Resolved else Rejected); }
    case EndExit(p) =>
      if IsAlive(s, p) { ExitInv(s, p, ByEnd, Resolved); }
    case Terminate(c) => SignalInv(s, c, false);
    case Kill(c) => SignalInv(s, c, true);
  }

  lemma {:induction false} RunInv(s: System, events: seq<Event>)
    requires Inv(s)
    ensures Inv(Run(s, events))
    decreases |events|
  {
    if events != [] {
      StepInv(s, events[0]);
      RunInv(Step(s, events[0]), events[1..]);
    }
  }

  /**
   In every run of start, stop, kill, stderr and exit events: a camera has at most one live
   process, the tables share one domain, a stop mark always belongs to a signal sent to the
   camera's present process and never to an earlier one, a start promise is pending exactly while
   its process lives and is rejected exactly when the process errored without having been
   signalled, and the buffer of a live process is the last thirty lines it wrote.
   */
  lemma EveryRun(events: seq<Event>)
    ensures var s := Run(EMPTY, events);
      && (forall p, q | IsAlive(s, p) && IsAlive(s, q) && s.processes[p].camera == s.processes[q].camera :: p == q)
      && s.running == s.handlers && s.running.Keys == s.stderr.Keys && s.marks <= s.running.Keys
      && (forall p | p in s.processes ::
            var q := s.processes[p];
            && (q.promise == Pending <==> q.ending == Alive)
            && (q.promise == Rejected <==> q.ending == ByError && !q.terminated && !q.killed)
            && (q.ending == Alive ==>
                  && q.camera in s.stderr && s.stderr[q.camera] == LastLines(q.lines, 30)
                  && (q.camera in s.marks <==> q.terminated || q.killed)))
  {
    RunInv(EMPTY, events);
    var s := Run(EMPTY, events);
    forall p, q | IsAlive(s, p) && IsAlive(s, q) && s.processes[p].camera == s.processes[q].camera ensures p == q {
      assert s.running[s.processes[p].camera] == p;
    }
  }

  /** The camera has a live process. */
  ghost predicate HasLive(s: System, c: CameraId) {
    exists p :: IsAlive(s, p) && s.processes[p].camera == c
  }

  /** Process `p` is alive and the camera's. */
  predicate LiveOf(s: System, c: CameraId, p: ProcessId) {
    IsAlive(s, p) && s.processes[p].camera == c
  }

  /**
   Each event without the tables. A start makes a process exactly if its camera has no live one; a
   signal goes to the camera's live process and to no other; an exit ends its own process, and its
   promise is rejected exactly if it is an error of a process that had no signal.
   */
  lemma EventOutcome(s: System, e: Event)
    requires Inv(s)
    ensures var before, after := s.processes, Step(s, e).processes;
      match e
      case StartCall(c, p) =>
        after == if HasLive(s, c) || p in before then before
                 else before[p := Process(c, Alive, false, false, [], Pending)]
      case StderrLine(p, line) =>
        after == if IsAlive(s, p) then before[p := before[p].(lines := before[p].lines + [line])] else before
      case ErrorExit(p) =>
        after == if !IsAlive(s, p) then before
                 else before[p := before[p].(ending := ByError,
                   promise := if before[p].terminated || before[p].killed then Resolved else Rejected)]
      case EndExit(p) =>
        after == if IsAlive(s, p) then before[p := before[p].(ending := ByEnd, promise := Resolved)] else before
      case Terminate(c) =>
        && after.Keys == before.Keys
        && forall p | p in before :: after[p] == if LiveOf(s, c, p) then before[p].(terminated := true) else before[p]
      case Kill(c) =>
        && after.Keys == before.Keys
        && forall p | p in before :: after[p] == if LiveOf(s, c, p) then before[p].(killed := true) else before[p]
  {
    match e
    case StartCall(c, p) =>
      RunningIsAlive(s, c);
    case StderrLine(p, line) =>
      hide PushLine;
    case ErrorExit(p) =>
      if IsAlive(s, p) {
        assert s.running[s.processes[p].camera] == p;
      }
    case EndExit(p) =>
    case Terminate(c) =>
      RunningIsAlive(s, c);
    case Kill(c) =>
      RunningIsAlive(s, c);
  }

  lemma StepKeepsSettled(s: System, e: Event, p: ProcessId)
    requires TablesAgree(s) && ProcessesAgree(s) && p in s.processes && s.processes[p].promise != Pending
    ensures p in Step(s, e).processes && Step(s, e).processes[p] == s.processes[p]
  {
    hide PushLine;
  }

  /** A settled promise stays as it settled, and a process that ended gets no further signal. */
  lemma {:induction false} SettledOnce(s: System, events: seq<Event>, p: ProcessId)
    requires Inv(s) && p in s.processes && s.processes[p].promise != Pending
    ensures p in Run(s, events).processes && Run(s, events).processes[p] == s.processes[p]
    decreases |events|
  {
    if events != [] {
      StepInv(s, events[0]);
      StepKeepsSettled(s, events[0], p);
      hide Step, Inv;
      SettledOnce(Step(s, events[0]), events[1..], p);
    }
  }

  // ---- Graceful restart ----

  /** One turn of the polling loop: the clock, and what happens during the sleep after it. */
  datatype Poll = Poll(now: Time, during: seq<Event>)

  /** The state in which the loop stops, and whether the grace period ran out there. */
  function Polled(s: System, c: CameraId, deadline: Time, polls: seq<Poll>): (System, bool)
    decreases |polls|
  {
    if polls == [] || polls[0].now >= deadline then (s, true)
    else if c !in s.running then (s, false)
    else Polled(Run(s, polls[0].during), c, deadline, polls[1..])
  }

  /** Terminate, wait, and kill whatever the camera runs when the grace is over. */
  function GracefullyRestarted(s: System, c: CameraId, deadline: Time, polls: seq<Poll>): System {
    if c !in s.running then s
    else
      var (s', expired) := Polled(Step(s, Terminate(c)), c, deadline, polls);
      if expired then Step(s', Kill(c)) else s'
  }

  predicate StartsCamera(e: Event, c: CameraId) {
    e.StartCall? && e.camera == c
  }

  ghost predicate NoStart(polls: seq<Poll>, c: CameraId) {
    forall i, j | 0 <= i < |polls| && 0 <= j < |polls[i].during| :: !StartsCamera(polls[i].during[j], c)
  }

  /** The camera runs nothing but `p`. */
  ghost predicate Holds(s: System, c: CameraId, p: ProcessId) {
    c in s.running ==> s.running[c] == p
  }

  ghost predicate Known(s: System, c: CameraId, p: ProcessId) {
    p in s.processes && s.processes[p].camera == c && s.processes[p].terminated
  }

  lemma StepKeepsProcess(s: System, e: Event, c: CameraId, p: ProcessId)
    requires TablesAgree(s) && Known(s, c, p)
    ensures Known(Step(s, e), c, p)
    ensures Holds(s, c, p) && !StartsCamera(e, c) ==> Holds(Step(s, e), c, p)
  {}

  lemma {:induction false} RunKeepsProcess(s: System, events: seq<Event>, c: CameraId, p: ProcessId)
    requires Inv(s) && Known(s, c, p)
    ensures Inv(Run(s, events)) && Known(Run(s, events), c, p)
    ensures (forall j | 0 <= j < |events| :: !StartsCamera(events[j], c)) && Holds(s, c, p) ==>
      Holds(Run(s, events), c, p)
    decreases |events|
  {
    if events != [] {
      StepInv(s, events[0]);
      StepKeepsProcess(s, events[0], c, p);
      hide Inv, Known, Holds, Step;
      RunKeepsProcess(Step(s, events[0]), events[1..], c, p);
    }
  }

  lemma {:induction false} PolledKeeps(s: System, c: CameraId, p: ProcessId, deadline: Time, polls: seq<Poll>)
    requires Inv(s) && Known(s, c, p)
    ensures var (s', expired) := Polled(s, c, deadline, polls);
      && Inv(s') && Known(s', c, p)
      && (!expired ==> c !in s'.running)
      && (NoStart(polls, c) && Holds(s, c, p) ==> Holds(s', c, p))
    decreases |polls|
  {
    if polls != [] && polls[0].now < deadline && c in s.running {
      RunKeepsProcess(s, polls[0].during, c, p);
      PolledKeeps(Run(s, polls[0].during), c, p, deadline, polls[1..]);
    }
  }

  /** The restart's kill hits process `q`: it had not been killed when the wait ended. */
  predicate KillHits(waited: System, after: System, q: ProcessId) {
    q in waited.processes && q in after.processes && !waited.processes[q].killed && after.processes[q].killed
  }

  /**
   When a restart returns, the process it was asked to replace is dead or has been sent SIGKILL.
   Another process of the camera, not killed yet, is hit if and only if the grace period runs out
   while it is the one that the camera runs; that does not happen as long as nothing starts the
   camera during the wait.
   */
  lemma RestartOutcome(s: System, c: CameraId, deadline: Time, polls: seq<Poll>)
    requires Inv(s) && c in s.running
    ensures var p := s.running[c];
      var (waited, expired) := Polled(Step(s, Terminate(c)), c, deadline, polls);
      var s' := GracefullyRestarted(s, c, deadline, polls);
      && p in s'.processes
      && (s'.processes[p].ending != Alive || s'.processes[p].killed)
      && (forall q | q != p && q in waited.processes && !waited.processes[q].killed ::
            KillHits(waited, s', q) <==> expired && c in waited.running && waited.running[c] == q)
      && (NoStart(polls, c) ==> Holds(s', c, p) && forall q | q != p :: !KillHits(waited, s', q))
  {
    var p := s.running[c];
    SignalInv(s, c, false);
    var s1 := Step(s, Terminate(c));
    assert IsAlive(s, p);
    PolledKeeps(s1, c, p, deadline, polls);
    var (waited, expired) := Polled(s1, c, deadline, polls);
    assert c in waited.running ==> IsAlive(waited, waited.running[c]);
    hide Polled, Inv, NoStart, Known;
  }

  /**
   The proviso is needed: the wait polls the camera and not the process, so a successor that
   starts between two polls is waited for and killed in place of the process that has gone.
   */
  lemma RestartCanKillSuccessor(c: CameraId)
    ensures var s := Run(EMPTY, [StartCall(c, 0)]);
      var polls := [Poll(0, [ErrorExit(0), StartCall(c, 1)])];
      var s' := GracefullyRestarted(s, c, 5000, polls);
      && 0 in s'.processes && s'.processes[0].ending == ByError && !s'.processes[0].killed
      && IsAlive(s', 1) && s'.processes[1].camera == c && s'.processes[1].killed
  {
    var s := Step(EMPTY, StartCall(c, 0));
    assert Run(EMPTY, [StartCall(c, 0)]) == s by {
      assert [StartCall(c, 0)][1..] == [];
    }
    var during := [ErrorExit(0), StartCall(c, 1)];
    var s1 := Step(s, Terminate(c));
    var s2 := Step(s1, ErrorExit(0));
    var s3 := Step(s2, StartCall(c, 1));
    assert Run(s1, during) == s3 by {
      assert during[1..] == [StartCall(c, 1)] && during[1..][1..] == [];
      assert Run(s2, during[1..]) == Run(s3, []);
    }
    var polls := [Poll(0, during)];
    assert polls[1..] == [];
    assert Polled(s1, c, 5000, polls) == Polled(s3, c, 5000, []) == (s3, true);
  }

  // ---- The service ----

  class FfmpegService {
    const health: StreamHealth.StreamHealthMetricsService
    var runningProcesses: map<CameraId, ProcessId>
    var eventHandlers: map<CameraId, ProcessId>
    var intentionalStops: set<CameraId>
    var stderrBuffers: map<CameraId, seq<string>>
    /** The operating system's and the promises' side. */
    var processes: map<ProcessId, Process>

    function View(): System
      reads this
    {
      System(runningProcesses, eventHandlers, intentionalStops, stderrBuffers, processes)
    }

    constructor (health: StreamHealth.StreamHealthMetricsService)
      ensures this.health == health && View() == EMPTY
    {
      this.health := health;
      runningProcesses, eventHandlers, intentionalStops, stderrBuffers, processes := map[], map[], {}, map[], map[];
    }

    predicate IsRunning(c: CameraId)
      reads this
    {
      c in runningProcesses
    }

    /** `p` identifies the command that is built if none runs for the camera. */
    method StartStream(c: CameraId, p: ProcessId) returns (alreadyRunning: bool)
      requires p !in processes
      modifies this
      ensures View() == Step(old(View()), StartCall(c, p))
      ensures alreadyRunning == old(IsRunning(c))
    {
      if c in runningProcesses {
        return true;
      }
      runningProcesses := runningProcesses[c := p];
      stderrBuffers := stderrBuffers[c := []];
      eventHandlers := eventHandlers[c := p];
      processes := processes[p := Process(c, Alive, false, false, [], Pending)];
      return false;
    }

    /** The 'start' event. */
    method OnStart(c: CameraId, now: Time)
      modifies health
      ensures health.SlotOf(c) == StreamHealth.Started(old(health.SlotOf(c)), now)
      ensures forall d | d != c :: health.SlotOf(d) == old(health.SlotOf(d))
    {
      health.RecordStart(c, now);
    }

    method OnStderr(p: ProcessId, line: string)
      requires IsAlive(View(), p)
      modifies this
      ensures View() == Step(old(View()), StderrLine(p, line))
    {
      var c := processes[p].camera;
      processes := processes[p := processes[p].(lines := processes[p].lines + [line])];
      if c !in stderrBuffers {
        return;
      }
      var buffer := stderrBuffers[c] + [line];
      if |buffer| > STDERR_BUFFER_SIZE {
        buffer := buffer[1..];
      }
      stderrBuffers := stderrBuffers[c := buffer];
    }

    /** The exit is reported to the health service as intentional exactly when the mark stands. */
    method OnError(p: ProcessId, now: Time)
      requires IsAlive(View(), p)
      modifies this, health
      ensures View() == Step(old(View()), ErrorExit(p))
      ensures var c := old(processes[p].camera);
        && health.SlotOf(c) == StreamHealth.Exited(old(health.SlotOf(c)), now, c in old(intentionalStops))
        && forall d | d != c :: health.SlotOf(d) == old(health.SlotOf(d))
    {
      var c := processes[p].camera;
      var wasIntentional := c in intentionalStops;
      health.RecordExit(c, now, wasIntentional);
      intentionalStops := intentionalStops - {c};
      runningProcesses := runningProcesses - {c};
      eventHandlers := eventHandlers - {c};
      stderrBuffers := stderrBuffers - {c};
      var promise := if wasIntentional then Resolved else Rejected;
      processes := processes[p := processes[p].(ending := ByError, promise := promise)];
    }

    method OnEnd(p: ProcessId, now: Time)
      requires IsAlive(View(), p)
      modifies this, health
      ensures View() == Step(old(View()), EndExit(p))
      ensures var c := old(processes[p].camera);
        && health.SlotOf(c) == StreamHealth.Exited(old(health.SlotOf(c)), now, true)
        && forall d | d != c :: health.SlotOf(d) == old(health.SlotOf(d))
    {
      var c := processes[p].camera;
      health.RecordExit(c, now, true);
      intentionalStops := intentionalStops - {c};
      runningProcesses := runningProcesses - {c};
      eventHandlers := eventHandlers - {c};
      stderrBuffers := stderrBuffers - {c};
      processes := processes[p := processes[p].(ending := ByEnd, promise := Resolved)];
    }

    method StopStream(c: CameraId)
      requires Inv(View())
      modifies this
      ensures View() == Step(old(View()), Terminate(c))
    {
      if c in runningProcesses {
        var p := runningProcesses[c];
        assert IsAlive(View(), p);
        intentionalStops := intentionalStops + {c};
        processes := processes[p := processes[p].(terminated := true)];
      }
    }

    /** The callers' idiom: stop what runs, if anything does. */
    method StopIfRunning(c: CameraId)
      requires Inv(View())
      modifies this
      ensures Inv(View()) && View() == Step(old(View()), Terminate(c))
      ensures runningProcesses == old(runningProcesses)
      ensures intentionalStops == old(intentionalStops) + (if old(IsRunning(c)) then {c} else {})
    {
      SignalInv(View(), c, false);
      if IsRunning(c) {
        assert IsAlive(View(), runningProcesses[c]);
        StopStream(c);
      }
    }

    method ForceKill(c: CameraId)
      requires Inv(View())
      modifies this
      ensures View() == Step(old(View()), Kill(c))
    {
      if c !in runningProcesses {
        return;
      }
      var p := runningProcesses[c];
      assert IsAlive(View(), p);
      intentionalStops := intentionalStops + {c};
      processes := processes[p := processes[p].(killed := true)];
    }

    /** Time passes: other handlers of this service run. */
    method Sleep(during: seq<Event>)
      requires Inv(View())
      modifies this
      ensures View() == Run(old(View()), during) && Inv(View())
    {
      RunInv(View(), during);
      var s := Run(View(), during);
      runningProcesses, eventHandlers, intentionalStops, stderrBuffers, processes :=
        s.running, s.handlers, s.marks, s.stderr, s.processes;
    }

    /** The polling loop; a list of polls that ends before the deadline stands for one that reaches it there. */
    method GracefulRestart(c: CameraId, deadline: Time, polls: seq<Poll>)
      requires Inv(View())
      modifies this
      ensures View() == GracefullyRestarted(old(View()), c, deadline, polls)
    {
      hide TablesAgree, MarksAgree, ProcessesAgree, Run, Step;
      if !IsRunning(c) {
        return;
      }
      SignalInv(View(), c, false);
      StopStream(c);
      ghost var signalled := View();
      var k := 0;
      while k < |polls| && polls[k].now < deadline
        invariant 0 <= k <= |polls| && Inv(View())
        invariant Polled(signalled, c, deadline, polls) == Polled(View(), c, deadline, polls[k..])
      {
        if !IsRunning(c) {
          return;
        }
        Sleep(polls[k].during);
        k := k + 1;
      }
      ForceKill(c);
    }
  }
}
