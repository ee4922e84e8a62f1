/**
 A user's stop with the worker between its operations: the look at the process with the signal, the
 look at the job, its removal, and the read and the write of the status change.
 */
module StopRace {
  import opened Common
  import opened StreamSupervision
  import opened LostStop
  import StatusNotify
  import StreamHealth
  import StreamQueue

  /** What the stop does next, its signal given. */
  datatype Stop = Finding | Unqueuing | Reading | Writing(read: StatusNotify.Row) | Ended

  datatype Scene = Scene(s: State, stop: Stop)

  datatype Move = ByWorker(t: Timed) | ByStop(at: Time)

  /** The stop begins with its look at the process, which it signals. */
  function Begun(s: State, now: Time): Scene {
    Scene(Do(s, Terminate, now), Finding)
  }

  /** One more operation of the stop. A job that it has not found it does not remove. */
  function StopMove(x: Scene, now: Time): Scene {
    match x.stop
    case Finding => x.(stop := if x.s.job.Some? then Unqueuing else Reading)
    case Unqueuing => Scene(Do(x.s, RemoveJob, now), Reading)
    case Reading =>
      x.(stop := if x.s.camera.row.Some? && x.s.camera.row.value.status != Offline
                 then Writing(x.s.camera.row.value) else Ended)
    case Writing(read) => Scene(Do(x.s, Transition(read, Offline), now), Ended)
    case Ended => x
  }

  function Next(x: Scene, m: Move): Scene {
    match m
    case ByWorker(t) => if Outside(t.event) then x else x.(s := Step(x.s, t))
    case ByStop(at) => StopMove(x, at)
  }

  function Play(x: Scene, moves: seq<Move>): Scene
    decreases |moves|
  {
    if moves == [] then x else Play(Next(x, moves[0]), moves[1..])
  }

  ghost predicate Sound(x: Scene) {
    Inv(x.s) && x.s.camera.row.Some? && (x.stop.Writing? ==> x.stop.read.status != Offline)
  }

  /** The stop has come to its end, and the camera streams all the same or the worker gets it to. */
  ghost predicate IsLost(x: Scene) {
    x.stop.Ended? && WillStream(x.s)
  }

  // ---- Whether the stop can be lost ----

  /** The stop will write `offline`, which takes the breaker down, if the worker lets it. */
  predicate CanLowerBreaker(x: Scene) {
    match x.stop
    case Writing(_) => true
    case Ended => false
    case _ =>
      x.s.camera.row.Some?
      && (x.s.camera.row.value.status != Offline || (x.s.run == Degrading && x.s.seen.Some?))
  }

  /** With the breaker up now, a start job will still pass its guard after the stop's write. */
  predicate Revivable(x: Scene) {
    IsStart(x.s) && CanLowerBreaker(x) &&
    match x.s.run
    case NoRun => x.s.job.value.state == StreamQueue.Waiting && Passes(x.s)
    case Picked => Passes(x.s)
    case Rejected => HasAnotherAttempt(x.s)
    case Degrading => HasAnotherAttempt(x.s)
    case GivingUp => HasAnotherAttempt(x.s)
    case _ => false
  }

  /**
   The camera streams in spite of the signal, or the worker would get it to with the breaker as it
   is, or it would with the breaker that the stop's own write takes down.
   */
  predicate CanBeLost(x: Scene) {
    StreamsOn(x.s) || Fertile(x.s) || Revivable(x)
  }

  lemma WorkerKeepsRow(s: State, t: Timed)
    requires Inv(s) && !Outside(t.event) && s.camera.row.Some?
    ensures Step(s, t).camera.row.Some?
  {
    StepOfWorker(s, t);
    hide Step, Inv, StreamHealth.Changed, FingerprintDiffers, Unfit, StatusNotify.Changes;
    hide StatusNotify.TransitionResult;
  }

  lemma SoundNext(x: Scene, m: Move)
    requires Sound(x)
    ensures Sound(Next(x, m))
  {
    hide Inv, Step;
    match m
    case ByWorker(t) =>
      if !Outside(t.event) {
        StepInv(x.s, t);
        WorkerKeepsRow(x.s, t);
      }
    case ByStop(at) => StopMoveSound(x, at);
  }

  lemma StopMoveSound(x: Scene, now: Time)
    requires Sound(x)
    ensures Sound(StopMove(x, now))
  {
    match x.stop
    case Unqueuing =>
      StepInv(x.s, Timed(now, RemoveJob));
      StepOfOutside(x.s, Timed(now, RemoveJob));
    case Writing(read) =>
      StepInv(x.s, Timed(now, Transition(read, Offline)));
      StepOfOutside(x.s, Timed(now, Transition(read, Offline)));
    case _ =>
    hide Inv, Step, StreamHealth.Changed;
  }

  /** What its end leaves, exactly: a process that the signal missed, or a run that will spawn. */
  lemma EndedIsLostIff(x: Scene, now: Time)
    requires Sound(x)
    ensures IsLost(x) <==> x.stop.Ended? && (StreamsOn(x.s) || Fertile(x.s))
    ensures IsLost(x) ==> CanBeLost(x)
  {
    hide Fertile, WillStream, Inv;
    WillStreamIff(x.s, now);
  }

  // ---- A stop that cannot be lost stays so ----

  lemma WorkerCannotRevive(x: Scene, t: Timed)
    requires Sound(x) && !Outside(t.event) && !CanBeLost(x)
    ensures !Revivable(Next(x, ByWorker(t)))
  {
    StepOfWorker(x.s, t);
    hide Step, Unfit, StreamHealth.InCrashLoop, StreamHealth.IsDegraded, Up, FingerprintDiffers, StatusNotify.Written;
  }

  lemma WorkerStaysSafe(x: Scene, t: Timed)
    requires Sound(x) && !Outside(t.event) && !CanBeLost(x)
    ensures !CanBeLost(Next(x, ByWorker(t)))
  {
    WorkerCannotRevive(x, t);
    BarrenStep(x.s, t);
    hide Revivable, Fertile, Step, Inv;
  }

  lemma UnqueuingStaysSafe(x: Scene, now: Time)
    requires Sound(x) && !CanBeLost(x) && x.stop.Unqueuing?
    ensures !CanBeLost(StopMove(x, now))
  {
    StepOfOutside(x.s, Timed(now, RemoveJob));
    if x.s.run != NoRun {
      ActiveJobStays(x.s);
    }
    hide Inv, Step, Unfit, StreamHealth.InCrashLoop, StreamSupervision.Degraded;
  }

  lemma WritingStaysSafe(x: Scene, now: Time)
    requires Sound(x) && !CanBeLost(x) && x.stop.Writing?
    ensures !CanBeLost(StopMove(x, now))
  {
    var y := StopMove(x, now);
    WriteLowers(x.s, x.stop.read, now);
    StopMoveSpares(x, now);
    StartAttempts(x.s, y.s);
    RestartStops(y.s);
    hide Do, Inv, Unfit, StreamHealth.InCrashLoop, StreamSupervision.Degraded;
  }

  lemma StopStaysSafe(x: Scene, now: Time)
    requires Sound(x) && !CanBeLost(x)
    ensures !CanBeLost(StopMove(x, now))
  {
    match x.stop
    case Unqueuing => UnqueuingStaysSafe(x, now);
    case Writing(_) => WritingStaysSafe(x, now);
    case _ =>
      hide Inv, Do, Unfit, Fertile, StreamHealth.InCrashLoop, HasAnotherAttempt, Passes;
  }

  lemma {:induction false} StaysSafe(x: Scene, moves: seq<Move>)
    requires Sound(x) && !CanBeLost(x)
    ensures Sound(Play(x, moves)) && !CanBeLost(Play(x, moves))
    decreases |moves|
  {
    hide Sound, CanBeLost, Next, Outside;
    if moves != [] {
      NextStaysSafe(x, moves[0]);
      StaysSafe(Next(x, moves[0]), moves[1..]);
    }
  }

  lemma NextStaysSafe(x: Scene, m: Move)
    requires Sound(x) && !CanBeLost(x)
    ensures Sound(Next(x, m)) && !CanBeLost(Next(x, m))
  {
    SoundNext(x, m);
    hide Sound, CanBeLost, Outside, Step, StopMove;
    match m
    case ByWorker(t) => if !Outside(t.event) { WorkerStaysSafe(x, t); }
    case ByStop(at) => StopStaysSafe(x, at);
  }

  // ---- One that can be lost gets lost ----

  ghost predicate LeadsTo(x: Scene, y: Scene) {
    exists moves :: Play(x, moves) == y
  }

  lemma {:induction false} PlayAppend(x: Scene, a: seq<Move>, b: seq<Move>)
    ensures Play(x, a + b) == Play(Play(x, a), b)
    decreases |a|
  {
    hide Next;
    if a == [] {
      assert a + b == b;
    } else {
      assert (a + b)[1..] == a[1..] + b;
      PlayAppend(Next(x, a[0]), a[1..], b);
    }
  }

  lemma OneMove(x: Scene, m: Move)
    ensures LeadsTo(x, Next(x, m))
  {
    hide Next;
    assert [m][1..] == [];
    assert Play(x, [m]) == Play(Next(x, m), []) == Next(x, m);
  }

  lemma Chain(x: Scene, y: Scene, z: Scene)
    requires LeadsTo(x, y) && LeadsTo(y, z)
    ensures LeadsTo(x, z)
  {
    hide Play;
    var a :| Play(x, a) == y;
    var b :| Play(y, b) == z;
    PlayAppend(x, a, b);
  }

  /** The rest of the stop, with nothing in between. */
  function Finished(x: Scene, now: Time): Scene {
    StopMove(StopMove(StopMove(StopMove(x, now), now), now), now)
  }

  lemma FinishedLedTo(x: Scene, now: Time)
    ensures LeadsTo(x, Finished(x, now)) && Finished(x, now).stop.Ended?
  {
    var m := ByStop(now);
    var x1 := StopMove(x, now);
    var x2 := StopMove(x1, now);
    var x3 := StopMove(x2, now);
    assert StopMove(x3, now).stop.Ended?;
    assert Next(x, m) == x1 && Next(x1, m) == x2 && Next(x2, m) == x3 && Next(x3, m) == StopMove(x3, now);
    hide LeadsTo, StopMove, Next;
    OneMove(x, m);
    OneMove(x1, m);
    OneMove(x2, m);
    OneMove(x3, m);
    Chain(x, x1, x2);
    Chain(x, x2, x3);
    Chain(x, x3, Finished(x, now));
  }

  /** The stop signals only once. */
  lemma StopMoveSpares(x: Scene, now: Time)
    ensures StopMove(x, now).s.process == x.s.process
  {
    StepOfOutside(x.s, Timed(now, RemoveJob));
    if x.stop.Writing? {
      StepOfOutside(x.s, Timed(now, Transition(x.stop.read, Offline)));
    }
    hide Step, StatusNotify.Written;
  }

  lemma FinishedSound(x: Scene, now: Time)
    requires Sound(x)
    ensures Sound(Finished(x, now)) && Finished(x, now).s.process == x.s.process
  {
    hide Sound, StopMove;
    var x1 := StopMove(x, now);
    var x2 := StopMove(x1, now);
    var x3 := StopMove(x2, now);
    StopMoveSound(x, now);
    StopMoveSound(x1, now);
    StopMoveSound(x2, now);
    StopMoveSound(x3, now);
    StopMoveSpares(x, now);
    StopMoveSpares(x1, now);
    StopMoveSpares(x2, now);
    StopMoveSpares(x3, now);
  }

  lemma StreamingIsLost(x: Scene, now: Time)
    requires Sound(x) && StreamsOn(x.s)
    ensures LeadsTo(x, Finished(x, now)) && IsLost(Finished(x, now))
  {
    FinishedLedTo(x, now);
    FinishedSound(x, now);
    hide Finished, LeadsTo, Fertile;
    WillStreamIff(Finished(x, now).s, now);
  }

  lemma {:induction false} WorkerPlays(x: Scene, events: seq<Timed>)
    requires Undisturbed(events)
    ensures LeadsTo(x, x.(s := After(x.s, events)))
    decreases |events|
  {
    if events == [] {
      assert Play(x, []) == x;
    } else {
      assert events[0] in events && forall t | t in events[1..] :: t in events;
      var y := Next(x, ByWorker(events[0]));
      OneMove(x, ByWorker(events[0]));
      assert y == x.(s := Step(x.s, events[0]));
      hide LeadsTo, Next, Step, Outside;
      WorkerPlays(y, events[1..]);
      Chain(x, y, x.(s := After(x.s, events)));
    }
  }

  /** The worker gets there before the stop's next operation. */
  lemma FertileIsLost(x: Scene, now: Time)
    requires Sound(x) && Fertile(x.s)
    ensures exists y :: LeadsTo(x, y) && IsLost(y)
  {
    hide LeadsTo, Fertile, After, Undisturbed;
    var events := FertileSpawns(x.s, now);
    WorkerPlays(x, events);
    var y := x.(s := After(x.s, events));
    RowAlong(x.s, events);
    StreamingIsLost(y, now);
    Chain(x, y, Finished(y, now));
  }

  lemma {:induction false} RowAlong(s: State, events: seq<Timed>)
    requires Inv(s) && s.camera.row.Some? && Undisturbed(events)
    ensures After(s, events).camera.row.Some?
    decreases |events|
  {
    hide Inv, Step, Outside;
    if events != [] {
      assert events[0] in events && forall t | t in events[1..] :: t in events;
      StepInv(s, events[0]);
      WorkerKeepsRow(s, events[0]);
      RowAlong(Step(s, events[0]), events[1..]);
    }
  }

  // ---- The stop takes the breaker down ----

  /** Revived by the rest of the stop as it is. */
  predicate ReadyToRevive(x: Scene) {
    Revivable(x) && x.s.run != NoRun
    && (x.stop.Writing? || x.s.camera.row.value.status != Offline)
    && (x.s.run == Rejected ==> !StreamHealth.InCrashLoop(x.s.camera.health))
  }

  lemma WriteLowers(s: State, read: StatusNotify.Row, now: Time)
    requires s.camera.row.Some? && read.status != Offline
    ensures var s' := Do(s, Transition(read, Offline), now);
      && s' == s.(camera := s'.camera, log := s'.log)
      && s'.camera.row == Some(s.camera.row.value.(status := Offline))
      && !StreamSupervision.Degraded(s')
      && StreamHealth.InCrashLoop(s'.camera.health) == StreamHealth.InCrashLoop(s.camera.health)
  {
    StepOfOutside(s, Timed(now, Transition(read, Offline)));
    hide Step, StreamHealth.RecentTransitions;
  }

  lemma WriteRevives(x: Scene, now: Time)
    requires Sound(x) && x.stop.Writing? && ReadyToRevive(x)
    ensures var y := StopMove(x, now); y.stop.Ended? && Fertile(y.s)
  {
    WriteLowers(x.s, x.stop.read, now);
    hide Inv, Step, Unfit, StreamHealth.InCrashLoop, StreamSupervision.Degraded;
  }

  lemma StopMoveKeepsReady(x: Scene, now: Time)
    requires Sound(x) && !x.stop.Writing? && ReadyToRevive(x)
    ensures ReadyToRevive(StopMove(x, now))
    ensures x.stop.Finding? ==> StopMove(x, now).stop.Unqueuing?
    ensures x.stop.Unqueuing? ==> StopMove(x, now).stop.Reading?
    ensures x.stop.Reading? ==> StopMove(x, now).stop.Writing?
  {
    if x.stop.Unqueuing? {
      StepOfOutside(x.s, Timed(now, RemoveJob));
      ActiveJobStays(x.s);
    }
    hide Inv, Step, Unfit, StreamHealth.InCrashLoop, StreamQueue.Remove;
  }

  lemma ActiveJobStays(s: State)
    requires Inv(s) && s.run != NoRun
    ensures StreamQueue.Remove(s.job) == s.job
  {
    hide Up, StreamHealth.IsDegraded, StreamHealth.Bounded;
  }

  lemma ReadyIsLost(x: Scene, now: Time)
    requires Sound(x) && ReadyToRevive(x)
    ensures LeadsTo(x, Finished(x, now)) && IsLost(Finished(x, now))
  {
    FinishedLedTo(x, now);
    FinishedSound(x, now);
    FinishedFertile(x, now);
    hide Finished, LeadsTo, Fertile, ReadyToRevive;
    WillStreamIff(Finished(x, now).s, now);
  }

  lemma FinishedFertile(x: Scene, now: Time)
    requires Sound(x) && ReadyToRevive(x)
    ensures Fertile(Finished(x, now).s)
  {
    assert !x.stop.Ended?;
    var x1 := StopMove(x, now);
    var x2 := StopMove(x1, now);
    var x3 := StopMove(x2, now);
    StopMoveSound(x, now);
    StopMoveSound(x1, now);
    StopMoveSound(x2, now);
    EndedStays(x1, now);
    EndedStays(x2, now);
    EndedStays(x3, now);
    hide Sound, ReadyToRevive, StopMove, Fertile;
    match x.stop
    case Writing(_) => WriteRevives(x, now);
    case Reading =>
      StopMoveKeepsReady(x, now);
      WriteRevives(x1, now);
    case Unqueuing =>
      StopMoveKeepsReady(x, now);
      StopMoveKeepsReady(x1, now);
      WriteRevives(x2, now);
    case Finding =>
      StopMoveKeepsReady(x, now);
      StopMoveKeepsReady(x1, now);
      StopMoveKeepsReady(x2, now);
      WriteRevives(x3, now);
  }

  lemma EndedStays(x: Scene, now: Time)
    ensures x.stop.Ended? ==> StopMove(x, now) == x
  {}

  /** One step of the worker makes it ready. */
  lemma WorkerReadies(x: Scene, now: Time)
    requires Sound(x) && Revivable(x) && !ReadyToRevive(x)
    ensures var y := Next(x, ByWorker(Timed(now, WorkerMove(x.s))));
      ReadyToRevive(y)
  {
    var t := Timed(now, WorkerMove(x.s));
    StepOfWorker(x.s, t);
    hide Step, Inv, Unfit, StreamHealth.InCrashLoop, StreamHealth.Marked, StatusNotify.Written;
  }

  lemma RevivableIsLost(x: Scene, now: Time)
    requires Sound(x) && Revivable(x)
    ensures exists y :: LeadsTo(x, y) && IsLost(y)
  {
    hide LeadsTo, Sound, Revivable, ReadyToRevive, Next, Step, Finished, IsLost;
    if ReadyToRevive(x) {
      ReadyIsLost(x, now);
    } else {
      var m := ByWorker(Timed(now, WorkerMove(x.s)));
      var y := Next(x, m);
      WorkerReadies(x, now);
      SoundNext(x, m);
      OneMove(x, m);
      ReadyIsLost(y, now);
      Chain(x, y, Finished(y, now));
    }
  }

  lemma GetsLost(x: Scene, now: Time)
    requires Sound(x) && CanBeLost(x)
    ensures exists moves :: IsLost(Play(x, moves))
  {
    hide Play, IsLost, Sound, Revivable, Fertile, Finished;
    if StreamsOn(x.s) {
      StreamingIsLost(x, now);
    } else if Fertile(x.s) {
      FertileIsLost(x, now);
    } else {
      RevivableIsLost(x, now);
    }
    var y :| LeadsTo(x, y) && IsLost(y);
    PlaysTo(x, y);
  }

  lemma PlaysTo(x: Scene, y: Scene)
    requires LeadsTo(x, y) && IsLost(y)
    ensures exists moves :: IsLost(Play(x, moves))
  {
    hide Play, IsLost;
    var moves :| Play(x, moves) == y;
    assert IsLost(Play(x, moves));
  }

  /**
   In every reachable state, and at every point of a stop: some interleaving of the rest of the stop
   with the worker leaves the camera streaming, or gets it to stream again, if and only if it
   streams in spite of the signal, the worker would get it to, or a start job would pass its guard
   once the stop's own write has taken the breaker down.
   */
  lemma CanBeLostIff(x: Scene, now: Time)
    requires Sound(x)
    ensures (exists moves :: IsLost(Play(x, moves))) <==> CanBeLost(x)
  {
    if CanBeLost(x) {
      GetsLost(x, now);
    } else {
      hide CanBeLost, Sound;
      forall moves ensures !IsLost(Play(x, moves)) {
        StaysSafe(x, moves);
        EndedIsLostIff(Play(x, moves), now);
      }
    }
  }

  /** The runs that a stop which now begins can fail to end. */
  predicate MayOutliveStop(s: State) {
    var down := !StreamSupervision.Degraded(s);
    var lowers := s.camera.row.Some? && s.camera.row.value.status != Offline;
    match s.run
    case NoRun =>
      s.job.Some? && s.job.value.state == StreamQueue.Waiting && Passes(s) && (down || (IsStart(s) && lowers))
    case Picked => Passes(s) && (down || (IsStart(s) && lowers))
    case Admitted(_) => Prepares(s)
    case Subscribed(_) => Prepares(s)
    case Ready(_, _) => s.seen.Some? || Prepares(s)
    case Prepared(_, _) => true
    case Rejected =>
      HasAnotherAttempt(s)
      && ((down && !StreamHealth.InCrashLoop(s.camera.health)) || (IsStart(s) && lowers))
    case Degrading => IsStart(s) && HasAnotherAttempt(s) && (down || lowers || s.seen.Some?)
    case GivingUp => HasAnotherAttempt(s) && (down || (IsStart(s) && lowers))
    case _ => false
  }

  /** From the start of a stop: whether some interleaving loses it can be told from the run it finds. */
  lemma StopCanFailIff(s: State, now: Time)
    requires Inv(s) && s.camera.row.Some?
    ensures (exists moves :: IsLost(Play(Begun(s, now), moves))) <==> MayOutliveStop(s)
  {
    BegunState(s, now);
    CanBeLostIff(Begun(s, now), now);
    hide Begun, Inv, Unfit, StreamHealth.InCrashLoop, StreamHealth.IsDegraded, IsLost, Play;
  }

  lemma BegunState(s: State, now: Time)
    requires Inv(s) && s.camera.row.Some?
    ensures var x := Begun(s, now);
      Sound(x) && x.stop.Finding? && x.s == s.(process := x.s.process) && !StreamsOn(x.s)
  {
    StepInv(s, Timed(now, Terminate));
    StepOfOutside(s, Timed(now, Terminate));
    hide Step, Inv;
  }

  // ---- Which interleavings decide it ----

  /** The breaker as the stop will leave it if nothing comes in between any more. */
  predicate BreakerAfter(x: Scene) {
    StreamSupervision.Degraded(x.s)
    && !(x.stop.Writing? || (x.s.camera.row.Some? && x.s.camera.row.value.status != Offline))
  }

  /** What the rest of the stop, with nothing in between, does not end. */
  predicate Outlasts(x: Scene) {
    var s := x.s;
    match s.run
    case NoRun =>
      (x.stop.Reading? || x.stop.Writing?)
      && IsStart(s) && s.job.value.state == StreamQueue.Waiting && Passes(s) && !BreakerAfter(x)
    case Picked => IsStart(s) && Passes(s) && !BreakerAfter(x)
    case Admitted(_) => IsStart(s) && Prepares(s)
    case Subscribed(_) => IsStart(s) && Prepares(s)
    case Ready(_, _) => s.seen.Some? || (IsStart(s) && Prepares(s))
    case Prepared(_, _) => true
    case Rejected =>
      IsStart(s) && HasAnotherAttempt(s) && !BreakerAfter(x) && !StreamHealth.InCrashLoop(s.camera.health)
    case Degrading => IsStart(s) && HasAnotherAttempt(s) && !BreakerAfter(x)
    case GivingUp => IsStart(s) && HasAnotherAttempt(s) && !BreakerAfter(x)
    case _ => false
  }

  predicate WouldBeLost(x: Scene) {
    StreamsOn(x.s) || (if x.stop.Ended? then Fertile(x.s) else Outlasts(x))
  }

  /** A start's attempts do not depend on the status. */
  lemma StartAttempts(s: State, s': State)
    requires s'.job == s.job && s.camera.row.Some? && s'.camera.row.Some?
    requires s'.camera.row.value.org == s.camera.row.value.org
    ensures IsStart(s') == IsStart(s)
    ensures IsStart(s) ==> Passes(s') == Passes(s) && HasAnotherAttempt(s') == HasAnotherAttempt(s)
  {
    hide Unfit;
  }

  lemma UnqueuingDecides(x: Scene, now: Time)
    requires Sound(x) && x.stop.Unqueuing?
    ensures WouldBeLost(StopMove(x, now)) <==> WouldBeLost(x)
  {
    StepOfOutside(x.s, Timed(now, RemoveJob));
    if x.s.run != NoRun {
      ActiveJobStays(x.s);
    }
    hide Inv, Step, Unfit, Fertile, StreamHealth.InCrashLoop, StreamHealth.IsDegraded;
  }

  lemma WritingDecides(x: Scene, now: Time)
    requires Sound(x) && x.stop.Writing?
    ensures WouldBeLost(StopMove(x, now)) <==> WouldBeLost(x)
  {
    var y := StopMove(x, now);
    WriteLowers(x.s, x.stop.read, now);
    StopMoveSpares(x, now);
    StartAttempts(x.s, y.s);
    hide Do, Inv, Unfit, StreamHealth.InCrashLoop, StreamHealth.IsDegraded;
    RestartStops(y.s);
  }

  /** Off line, nothing but a start goes on, or a change that is already about to be written. */
  lemma RestartStops(s: State)
    requires s.camera.row.Some? && s.camera.row.value.status == Offline
    ensures Prepares(s) || Passes(s) || HasAnotherAttempt(s) ==> IsStart(s)
  {
    hide Unfit;
  }

  lemma ReadingDecides(x: Scene, now: Time)
    requires Sound(x) && (x.stop.Finding? || x.stop.Reading? || x.stop.Ended?)
    ensures WouldBeLost(StopMove(x, now)) <==> WouldBeLost(x)
  {
    hide Inv, Do, Unfit, StreamHealth.InCrashLoop, StreamHealth.IsDegraded;
    if x.s.camera.row.value.status == Offline {
      RestartStops(x.s);
    }
  }

  lemma StopMoveDecides(x: Scene, now: Time)
    requires Sound(x)
    ensures WouldBeLost(StopMove(x, now)) <==> WouldBeLost(x)
  {
    hide Sound, WouldBeLost, StopMove;
    match x.stop
    case Unqueuing => UnqueuingDecides(x, now);
    case Writing(_) => WritingDecides(x, now);
    case _ => ReadingDecides(x, now);
  }

  /** At every point of a stop: what becomes of it if nothing comes in between any more. */
  lemma FinishedIsLostIff(x: Scene, now: Time)
    requires Sound(x)
    ensures IsLost(Finished(x, now)) <==> WouldBeLost(x)
  {
    var x1 := StopMove(x, now);
    var x2 := StopMove(x1, now);
    var x3 := StopMove(x2, now);
    FinishedLedTo(x, now);
    FinishedSound(x, now);
    hide Sound, WouldBeLost, StopMove, IsLost, LeadsTo;
    StopMoveSound(x, now);
    StopMoveSound(x1, now);
    StopMoveSound(x2, now);
    StopMoveDecides(x, now);
    StopMoveDecides(x1, now);
    StopMoveDecides(x2, now);
    StopMoveDecides(x3, now);
    EndedDecided(Finished(x, now), now);
  }

  lemma EndedDecided(x: Scene, now: Time)
    requires Sound(x) && x.stop.Ended?
    ensures IsLost(x) <==> WouldBeLost(x)
  {
    EndedIsLostIff(x, now);
    hide IsLost, Fertile, Inv;
  }

  /** The uninterrupted stop is the instance without any step of the worker. */
  lemma UninterruptedStop(s: State, now: Time)
    requires Inv(s) && s.camera.row.Some?
    ensures Finished(Begun(s, now), now).s == UserStop(s, now)
    ensures WouldBeLost(Begun(s, now)) <==> StopIsLost(s)
  {
    BegunState(s, now);
    StopIsLostIff(s, now);
    FinishedIsLostIff(Begun(s, now), now);
    FinishedLedTo(Begun(s, now), now);
    UninterruptedState(s, now);
    hide Finished, Begun, UserStop, WouldBeLost, StopIsLost, WillStream, Inv;
  }

  lemma ReadAndWrite(s: State, now: Time)
    requires s.camera.row.Some?
    ensures var x := StopMove(StopMove(Scene(s, Reading), now), now);
      x.stop.Ended? && x.s == Do(s, Transition(s.camera.row.value, Offline), now)
  {
    StepOfOutside(s, Timed(now, Transition(s.camera.row.value, Offline)));
    hide Step, Write;
  }

  lemma UninterruptedState(s: State, now: Time)
    requires Inv(s) && s.camera.row.Some?
    ensures Finished(Begun(s, now), now).s == UserStop(s, now)
  {
    var s1 := Do(s, Terminate, now);
    var s2 := Do(s1, RemoveJob, now);
    SignalAndRemove(s, now);
    ReadAndWrite(s2, now);
    var x1 := StopMove(Begun(s, now), now);
    var x2 := StopMove(x1, now);
    if s1.job.None? {
      assert x1 == Scene(s2, Reading);
      EndedStays(StopMove(x2, now), now);
    } else {
      assert x1 == Scene(s1, Unqueuing) && x2 == Scene(s2, Reading);
    }
    hide StopMove, Do, Inv;
  }

  lemma SignalAndRemove(s: State, now: Time)
    ensures var s1 := Do(s, Terminate, now);
      var s2 := Do(s1, RemoveJob, now);
      s1.camera == s.camera && s2.camera == s.camera && (s1.job.None? ==> s2 == s1)
  {
    StepOfOutside(s, Timed(now, Terminate));
    StepOfOutside(Do(s, Terminate, now), Timed(now, RemoveJob));
    hide Step;
  }

  /** The steps of the worker that turn a stop that would have succeeded into a lost one. */
  predicate TurnsToLoss(x: Scene, e: Event) {
    var s := x.s;
    // The job is picked up before it can be removed.
    || (e.Begin? && (x.stop.Finding? || x.stop.Unqueuing?) && s.run == NoRun
        && IsStart(s) && s.job.value.state == StreamQueue.Waiting && Passes(s) && !BreakerAfter(x))
    // A restart reads the status before the stop writes it.
    || (e.Prepare? && s.run.Ready? && s.seen.None? && !IsStart(s) && Prepares(s))
    // The crash-loop verdict comes before the write, which takes its mark back.
    || (e.Verdict? && s.run == Rejected && StreamHealth.InCrashLoop(s.camera.health)
        && IsStart(s) && HasAnotherAttempt(s) && (x.stop.Writing? || s.camera.row.value.status != Offline))
    // The worker makes an offline camera degraded before the read, so that there is something to write.
    || (e.WriteStatus? && s.run == Degrading && s.seen.Some? && IsStart(s) && HasAnotherAttempt(s) && BreakerAfter(x))
  }

  /** The steps of the worker that turn a stop that would have been lost into a success. */
  predicate TurnsToSuccess(x: Scene, t: Timed) {
    var s, e := x.s, t.event;
    // The failed attempt puts its job back before it can be removed.
    || (e.Rethrow? && (x.stop.Finding? || x.stop.Unqueuing?) && s.run == GivingUp
        && IsStart(s) && HasAnotherAttempt(s) && !BreakerAfter(x))
    // The guard sees the breaker before the write takes it down.
    || (e.Guard? && s.run == Picked && IsStart(s) && Passes(s) && StreamSupervision.Degraded(s) && !BreakerAfter(x))
    // The process that the signal missed ends, by itself or with an error that is not retried.
    || (e.FfEnd? && StreamsOn(s))
    || (e.FfError? && StreamsOn(s)
        && !(IsStart(s) && HasAnotherAttempt(s)
             && !StreamHealth.InCrashLoop(StreamHealth.Exited(s.camera.health, t.at, false))))
  }

  /** The step changes what becomes of the stop exactly if it is one of these. */
  ghost predicate Decides(x: Scene, t: Timed) {
    var y := Next(x, ByWorker(t));
    && (TurnsToLoss(x, t.event) ==> !WouldBeLost(x) && WouldBeLost(y))
    && (TurnsToSuccess(x, t) ==> WouldBeLost(x) && !WouldBeLost(y))
    && (!TurnsToLoss(x, t.event) && !TurnsToSuccess(x, t) ==> (WouldBeLost(x) <==> WouldBeLost(y)))
  }

  lemma PickUpDecides(x: Scene, t: Timed)
    requires Sound(x) && !x.stop.Ended? && (t.event.Begin? || t.event.Guard? || t.event.Refuse?)
    ensures Decides(x, t)
  {
    StepOfWorker(x.s, t);
    hide Step, Unfit, StreamHealth.InCrashLoop, StreamHealth.IsDegraded, StreamHealth.Bounded, Up;
  }

  lemma CheckDecides(x: Scene, t: Timed)
    requires Sound(x) && !x.stop.Ended? && t.event.CheckFingerprint?
    ensures Decides(x, t)
  {
    var y := Next(x, ByWorker(t));
    assert t == Timed(t.at, CheckFingerprint);
    if x.s.run.Subscribed? {
      WaitsForNothing(x.s);
      CheckStep(x.s, t.at);
      SameAttempts(x.s, y.s);
      hide Step, Inv, IsStart, Prepares, Passes, HasAnotherAttempt;
    } else {
      CheckIsChecked(x.s, t.at);
      assert y == x;
      hide WouldBeLost, Step, Inv;
    }
  }

  lemma WaitsForNothing(s: State)
    requires Inv(s) && s.run.Subscribed?
    ensures s.process.None? && s.seen.None?
  {
    hide Up, StreamHealth.IsDegraded, StreamHealth.Bounded;
  }

  lemma SubscribeDecides(x: Scene, t: Timed)
    requires Sound(x) && !x.stop.Ended? && t.event.Subscribe?
    ensures Decides(x, t)
  {
    StepOfWorker(x.s, t);
    assert x.s.run.Admitted? ==> x.s.seen.None? && x.s.process.None? by {
      hide Step, Up, StreamHealth.IsDegraded;
    }
    hide Step, Inv, Unfit, StreamHealth.InCrashLoop, StreamHealth.IsDegraded;
    if !x.s.run.Admitted? {
      assert Next(x, ByWorker(t)) == x;
      hide WouldBeLost;
    }
  }

  lemma PreparationDecides(x: Scene, t: Timed)
    requires Sound(x) && !x.stop.Ended? && t.event.Prepare?
    ensures Decides(x, t)
  {
    PrepareIsPrepared(x.s, t.at);
    assert t == Timed(t.at, Prepare);
    hide Step, Unfit, StreamHealth.InCrashLoop, StreamHealth.IsDegraded, StreamHealth.Bounded, Up;
    if !x.s.run.Ready? || x.s.job.None? || x.s.seen.Some? {
      assert Next(x, ByWorker(t)) == x;
      hide WouldBeLost;
    }
  }

  lemma SpawnDecides(x: Scene, t: Timed)
    requires Sound(x) && !x.stop.Ended? && t.event.Spawn?
    ensures Decides(x, t)
  {
    StepOfWorker(x.s, t);
    assert Step(x.s, t) == SpawnedFor(x.s);
    hide Step, WorkerStep, Unfit, StreamHealth.InCrashLoop, StreamHealth.IsDegraded, StreamHealth.Bounded, Up;
    if !x.s.run.Prepared? {
      assert Next(x, ByWorker(t)) == x;
      hide WouldBeLost;
    }
  }

  lemma FinishDecides(x: Scene, t: Timed)
    requires Sound(x) && !x.stop.Ended? && t.event.Finish?
    ensures Decides(x, t)
  {
    StepOfWorker(x.s, t);
    assert Step(x.s, t) == if x.s.run == Resolved then JobDone(x.s) else x.s;
    hide Step, WorkerStep, Unfit, StreamHealth.InCrashLoop, StreamHealth.IsDegraded, StreamHealth.Bounded, Up;
    if x.s.run != Resolved {
      assert Next(x, ByWorker(t)) == x;
      hide WouldBeLost;
    }
  }

  lemma StartDecides(x: Scene, t: Timed)
    requires Sound(x) && !x.stop.Ended? && t.event.FfStart?
    ensures Decides(x, t)
  {
    var s := x.s;
    StepOfWorker(s, t);
    assert Step(s, t) == if s.process.Some?
      then s.(camera := s.camera.(health := StreamHealth.Started(s.camera.health, t.at))) else s;
    assert s.process.Some? ==> s.run.Streaming? by {
      hide Step, WorkerStep, Up, StreamHealth.IsDegraded;
    }
    hide Step, WorkerStep, Inv, StreamHealth.Started;
    if s.process.None? {
      assert Next(x, ByWorker(t)) == x;
      hide WouldBeLost;
    }
  }

  /** What an attempt depends on besides the run and the breaker. */
  predicate SameJob(s: State, s': State) {
    s'.job == s.job && s'.camera.row == s.camera.row
  }

  lemma SameAttempts(s: State, s': State)
    requires SameJob(s, s')
    ensures IsStart(s') == IsStart(s) && Prepares(s') == Prepares(s) && Passes(s') == Passes(s)
    ensures HasAnotherAttempt(s') == HasAnotherAttempt(s)
  {
    hide Unfit;
  }

  lemma EndDecides(x: Scene, t: Timed)
    requires Sound(x) && !x.stop.Ended? && t.event.FfEnd?
    ensures Decides(x, t)
  {
    var s := x.s;
    StepOfWorker(s, t);
    assert Step(s, t) == if s.process.Some? then Exited(s, t.at, true, Resolved) else s;
    assert s.process.Some? ==> s.run.Streaming? by {
      hide Step, WorkerStep, Up, StreamHealth.IsDegraded;
    }
    hide Step, WorkerStep, Inv, StreamHealth.Exited;
    if s.process.None? {
      assert Next(x, ByWorker(t)) == x;
      hide WouldBeLost;
    }
  }

  lemma RejectedOutlasts(x: Scene)
    requires !x.stop.Ended? && x.s.process.None? && x.s.run == Rejected
    ensures WouldBeLost(x) <==> IsStart(x.s) && HasAnotherAttempt(x.s) && !BreakerAfter(x)
                                && !StreamHealth.InCrashLoop(x.s.camera.health)
  {
    hide IsStart, HasAnotherAttempt, BreakerAfter, StreamHealth.InCrashLoop;
  }

  lemma JudgedOutlasts(x: Scene)
    requires !x.stop.Ended? && x.s.process.None? && (x.s.run == Degrading || x.s.run == GivingUp)
    ensures WouldBeLost(x) <==> IsStart(x.s) && HasAnotherAttempt(x.s) && !BreakerAfter(x)
  {
    hide IsStart, HasAnotherAttempt, BreakerAfter;
  }

  lemma ErrorOutcome(x: Scene, now: Time)
    requires !x.stop.Ended? && StreamsOn(x.s) && !StreamSupervision.Degraded(x.s)
    ensures var y := x.(s := Exited(x.s, now, false, Rejected));
      WouldBeLost(y) <==> IsStart(x.s) && HasAnotherAttempt(x.s)
                          && !StreamHealth.InCrashLoop(StreamHealth.Exited(x.s.camera.health, now, false))
  {
    var y := x.(s := Exited(x.s, now, false, Rejected));
    BreakerFlag(x.s.camera.health, now, false);
    hide WouldBeLost, StreamHealth.InCrashLoop, StreamHealth.IsDegraded, StreamHealth.Exited;
    SameAttempts(x.s, y.s);
    RejectedOutlasts(y);
    hide IsStart, HasAnotherAttempt, Prepares, Passes;
  }

  lemma ErrorDecides(x: Scene, t: Timed)
    requires Sound(x) && !x.stop.Ended? && t.event.FfError?
    ensures Decides(x, t)
  {
    hide Decides, Inv, StreamsOn;
    if StreamsOn(x.s) {
      UnmarkedErrorDecides(x, t);
    } else {
      MarkedErrorDecides(x, t);
    }
  }

  lemma UnmarkedErrorDecides(x: Scene, t: Timed)
    requires Inv(x.s) && !x.stop.Ended? && t.event.FfError? && StreamsOn(x.s)
    ensures Decides(x, t)
  {
    hide Step, Inv, Next, Exited, IsStart, HasAnotherAttempt, StreamHealth.InCrashLoop, StreamHealth.Exited;
    hide StreamHealth.IsDegraded, Prepares, Passes, BreakerAfter;
    StreamingWouldBeLost(x);
    hide WouldBeLost;
    BreakerDown(x.s);
    NextOnError(x, t);
    ErrorOutcome(x, t.at);
  }

  lemma StreamingWouldBeLost(x: Scene)
    requires StreamsOn(x.s)
    ensures WouldBeLost(x) && x.s.process.Some?
  {}

  lemma NextOnError(x: Scene, t: Timed)
    requires t.event.FfError? && StreamsOn(x.s)
    ensures Next(x, ByWorker(t)) == x.(s := Exited(x.s, t.at, false, Rejected))
  {
    ErrorStep(x.s, t.at);
    assert t == Timed(t.at, FfError);
    hide Step, Exited;
  }

  lemma BreakerDown(s: State)
    requires Inv(s) && s.process.Some?
    ensures !StreamSupervision.Degraded(s)
  {
    hide Up, StreamHealth.IsDegraded, StreamHealth.Bounded;
  }

  lemma MarkedErrorDecides(x: Scene, t: Timed)
    requires Sound(x) && !x.stop.Ended? && t.event.FfError? && !StreamsOn(x.s)
    ensures Decides(x, t)
  {
    var s := x.s;
    StepOfWorker(s, t);
    assert Step(s, t) == if s.process.Some? then Exited(s, t.at, true, Resolved) else s;
    assert s.process.Some? ==> s.run.Streaming? by {
      hide Step, WorkerStep, Up, StreamHealth.IsDegraded;
    }
    hide Step, WorkerStep, Inv, StreamHealth.Exited;
    if s.process.None? {
      assert Next(x, ByWorker(t)) == x;
      hide WouldBeLost;
    }
  }

  lemma VerdictOutcome(x: Scene, now: Time)
    requires !x.stop.Ended? && x.s.process.None? && x.s.run == Rejected
    ensures var y := x.(s := Judged(x.s, now));
      var s, inLoop := x.s, StreamHealth.InCrashLoop(x.s.camera.health);
      && (WouldBeLost(x) <==> IsStart(s) && HasAnotherAttempt(s) && !BreakerAfter(x) && !inLoop)
      && (WouldBeLost(y) <==>
            IsStart(s) && HasAnotherAttempt(s)
            && (if inLoop then x.stop.Writing? || (s.camera.row.Some? && s.camera.row.value.status != Offline)
                else !BreakerAfter(x)))
  {
    var y := x.(s := Judged(x.s, now));
    BreakerFlag(x.s.camera.health, now, false);
    hide WouldBeLost, StreamHealth.InCrashLoop, StreamHealth.IsDegraded, StreamHealth.Marked;
    SameAttempts(x.s, y.s);
    RejectedOutlasts(x);
    JudgedOutlasts(y);
    hide IsStart, Prepares, Passes, HasAnotherAttempt;
  }

  lemma VerdictDecides(x: Scene, t: Timed)
    requires Sound(x) && !x.stop.Ended? && t.event.Verdict?
    ensures Decides(x, t)
  {
    var s, y := x.s, Next(x, ByWorker(t));
    VerdictIsJudged(s, t.at);
    assert t == Timed(t.at, Verdict);
    assert y == x.(s := Judged(s, t.at));
    hide Step, Next;
    if s.run != Rejected {
      assert y == x;
      hide WouldBeLost, Inv;
    } else {
      assert s.process.None?;
      hide WouldBeLost, Inv, Judged, IsStart, HasAnotherAttempt, StreamHealth.InCrashLoop;
      VerdictOutcome(x, t.at);
    }
  }

  lemma DegradeDecides(x: Scene, t: Timed)
    requires Sound(x) && !x.stop.Ended? && t.event.Degrade?
    ensures Decides(x, t)
  {
    var s, s' := x.s, Step(x.s, t);
    StepOfWorker(s, t);
    if s.run != Degrading || s.job.None? || s.seen.Some? {
      assert Next(x, ByWorker(t)) == x;
      hide WouldBeLost;
    } else {
      assert s.process.None? by {
        hide Step, Up, StreamHealth.IsDegraded;
      }
      DegradeStep(s, t.at);
      assert t == Timed(t.at, Degrade);
      hide Step, WorkerStep, Inv, StreamHealth.InCrashLoop, StreamHealth.IsDegraded, StatusNotify.Changes;
      SameAttempts(s, s');
      hide IsStart, Prepares, Passes, HasAnotherAttempt;
    }
  }

  lemma RethrowDecides(x: Scene, t: Timed)
    requires Sound(x) && !x.stop.Ended? && t.event.Rethrow?
    ensures Decides(x, t)
  {
    StepOfWorker(x.s, t);
    hide Step, Unfit, StreamHealth.InCrashLoop, StreamHealth.IsDegraded, StreamHealth.Bounded, Up;
  }

  /** The three places where the worker writes. */
  lemma DegradedWriteDecides(x: Scene, now: Time)
    requires Sound(x) && !x.stop.Ended? && x.s.seen.Some? && x.s.run == Degrading && x.s.process.None?
    ensures var y := x.(s := StatusWritten(x.s, now));
      && (WouldBeLost(x) <==> IsStart(x.s) && HasAnotherAttempt(x.s) && !BreakerAfter(x))
      && (WouldBeLost(y) <==> IsStart(x.s) && HasAnotherAttempt(x.s))
  {
    var y := x.(s := StatusWritten(x.s, now));
    DegradedWritten(x.s, now);
    hide StatusWritten, Inv, Fertile, WouldBeLost, StreamHealth.IsDegraded;
    StartAttempts(x.s, y.s);
    JudgedOutlasts(x);
    JudgedOutlasts(y);
    hide IsStart, HasAnotherAttempt, Passes;
  }

  lemma RefusalWriteDecides(x: Scene, now: Time)
    requires Sound(x) && !x.stop.Ended? && x.s.seen.Some? && x.s.run == Refusing && x.s.process.None?
    requires StreamQueue.IsActive(x.s.job)
    ensures !WouldBeLost(x) && !WouldBeLost(x.(s := StatusWritten(x.s, now)))
  {
    RefusalWritten(x.s, now);
    hide StatusWritten, Inv, Fertile, Unfit, StreamHealth.IsDegraded, StreamHealth.InCrashLoop;
  }

  lemma PreparationWriteDecides(x: Scene, now: Time)
    requires Sound(x) && !x.stop.Ended? && x.s.seen.Some? && x.s.run.Ready?
    ensures WouldBeLost(x) && WouldBeLost(x.(s := StatusWritten(x.s, now)))
  {
    PreparationWritten(x.s, now);
    hide StatusWritten, Inv, Fertile, Unfit, StreamHealth.IsDegraded, StreamHealth.InCrashLoop;
  }

  lemma WriteDecides(x: Scene, t: Timed)
    requires Sound(x) && !x.stop.Ended? && t.event.WriteStatus?
    ensures Decides(x, t)
  {
    var s, y := x.s, Next(x, ByWorker(t));
    WriteStep(s, t.at);
    assert t == Timed(t.at, WriteStatus);
    assert y == x.(s := StatusWritten(s, t.at));
    if s.seen.Some? {
      WriterIdle(s);
    }
    hide Step, Inv, WouldBeLost, Next, StatusWritten;
    if s.seen.None? {
      NothingWritten(s, t.at);
    } else if s.run == Degrading {
      DegradedWriteDecides(x, t.at);
    } else if s.run == Refusing {
      RefusalWriteDecides(x, t.at);
    } else {
      PreparationWriteDecides(x, t.at);
    }
    hide IsStart, HasAnotherAttempt, BreakerAfter;
  }

  lemma WriterIdle(s: State)
    requires Inv(s) && s.seen.Some?
    ensures s.process.None? && StreamQueue.IsActive(s.job) && (s.run.Ready? || s.run == Refusing || s.run == Degrading)
  {
    hide Up, StreamHealth.IsDegraded, StreamHealth.Bounded;
  }

  lemma NothingWritten(s: State, now: Time)
    requires s.seen.None?
    ensures StatusWritten(s, now) == s
  {}

  /** Until the stop has ended, a step of the worker changes what becomes of it if and only if it is one of these. */
  lemma WorkerDecidesIff(x: Scene, t: Timed)
    requires Sound(x) && !x.stop.Ended? && !Outside(t.event)
    ensures var y := Next(x, ByWorker(t));
      && (WouldBeLost(y) && !WouldBeLost(x) <==> TurnsToLoss(x, t.event))
      && (WouldBeLost(x) && !WouldBeLost(y) <==> TurnsToSuccess(x, t))
  {
    hide Sound, WouldBeLost, TurnsToLoss, TurnsToSuccess, Next;
    var e := t.event;
    if e.Begin? || e.Guard? || e.Refuse? {
      PickUpDecides(x, t);
    } else if e.Subscribe? {
      SubscribeDecides(x, t);
    } else if e.CheckFingerprint? {
      CheckDecides(x, t);
    } else if e.Prepare? {
      PreparationDecides(x, t);
    } else if e.FfError? {
      ErrorDecides(x, t);
    } else if e.FfEnd? {
      EndDecides(x, t);
    } else if e.Verdict? {
      VerdictDecides(x, t);
    } else if e.Degrade? {
      DegradeDecides(x, t);
    } else if e.Rethrow? {
      RethrowDecides(x, t);
    } else if e.WriteStatus? {
      WriteDecides(x, t);
    } else if e.Spawn? {
      SpawnDecides(x, t);
    } else if e.FfStart? {
      StartDecides(x, t);
    } else {
      FinishDecides(x, t);
    }
  }

  /**
   A stop that succeeds unless the worker comes in between: the job that waits when the stop looks at
   the process is picked up before the removal.
   */
  lemma PickUpDuringStop(s: State, now: Time)
    requires Inv(s) && s.run == NoRun && !StreamSupervision.Degraded(s)
    requires IsStart(s) && s.job.value.state == StreamQueue.Waiting && Passes(s)
    ensures !StopIsLost(s)
    ensures var x := Next(StopMove(Begun(s, now), now), ByWorker(Timed(now, Begin)));
      x.stop.Unqueuing? && IsLost(Finished(x, now))
  {
    BegunState(s, now);
    var x := StopMove(Begun(s, now), now);
    StopMoveSound(Begun(s, now), now);
    SoundNext(x, ByWorker(Timed(now, Begin)));
    WorkerDecidesIff(x, Timed(now, Begin));
    FinishedIsLostIff(Next(x, ByWorker(Timed(now, Begin))), now);
    hide Begun, Step, Inv, Unfit, StreamHealth.IsDegraded, WouldBeLost, IsLost, Finished;
  }

  /** And one that is lost unless the worker comes in between: the failed attempt puts its job back in time. */
  lemma RethrowDuringStop(s: State, now: Time)
    requires Inv(s) && s.run == GivingUp && s.camera.row.Some? && !StreamSupervision.Degraded(s)
    requires IsStart(s) && HasAnotherAttempt(s)
    ensures StopIsLost(s)
    ensures var x := Next(StopMove(Begun(s, now), now), ByWorker(Timed(now, Rethrow)));
      x.stop.Unqueuing? && !IsLost(Finished(x, now))
  {
    BegunState(s, now);
    var x := StopMove(Begun(s, now), now);
    StopMoveSound(Begun(s, now), now);
    SoundNext(x, ByWorker(Timed(now, Rethrow)));
    WorkerDecidesIff(x, Timed(now, Rethrow));
    FinishedIsLostIff(Next(x, ByWorker(Timed(now, Rethrow))), now);
    SameAttempts(s, x.s);
    hide Begun, Step, Inv, Unfit, StreamHealth.IsDegraded, WouldBeLost, IsLost, Finished;
  }
}
