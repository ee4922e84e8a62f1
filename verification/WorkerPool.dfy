/**
 The bulk-action worker pool: a fixed number of runners pull indices from one shared cursor.

 `outcomes[i]` is how the worker call for item `i` will settle. Which runner moves next is left
 open everywhere, so each statement covers every interleaving of the runners.
 */
module WorkerPool {
  import opened Common

  datatype Reason = ErrorObject(message: string) | Text(text: string) | Other

  datatype Settled<+R> = Fulfilled(value: R) | Rejected(reason: Reason)

  datatype Runner = AtLoopHead | Working(index: nat) | Finished

  /** `claims` is the history of indices taken from the cursor that were inside the list. */
  datatype Pool<+R> = Pool(
    cursor: nat,
    runners: seq<Runner>,
    results: seq<Option<Settled<R>>>,
    claims: seq<nat>)

  function WorkerCount(concurrency: int, n: nat): nat {
    var wanted := if concurrency < 1 then 1 else concurrency;
    if wanted < n then wanted else n
  }

  function Start<R>(concurrency: int, n: nat): Pool<R> {
    Pool(0, seq(WorkerCount(concurrency, n), _ => AtLoopHead), seq(n, _ => None), [])
  }

  predicate Enabled(p: Pool, r: nat) {
    r < |p.runners| && !p.runners[r].Finished?
  }

  /** Runner `r` runs up to its next suspension point. */
  function Step<R>(p: Pool<R>, r: nat, outcomes: seq<Settled<R>>): Pool<R>
    requires |p.results| == |outcomes|
  {
    if !Enabled(p, r) then p
    else match p.runners[r]
      case AtLoopHead =>
        var i := p.cursor;
        if i >= |outcomes| then p.(cursor := i + 1, runners := p.runners[r := Finished])
        else p.(cursor := i + 1, runners := p.runners[r := Working(i)], claims := p.claims + [i])
      case Working(i) =>
        if i < |outcomes| then
          p.(runners := p.runners[r := AtLoopHead], results := p.results[i := Some(outcomes[i])])
        else p
  }

  // ---- Counting runners ----

  function Busy(runners: seq<Runner>): nat {
    if runners == [] then 0 else (if runners[0].Working? then 1 else 0) + Busy(runners[1..])
  }

  function Unfinished(runners: seq<Runner>): nat {
    if runners == [] then 0 else (if runners[0].Finished? then 0 else 1) + Unfinished(runners[1..])
  }

  lemma {:induction false} CountUpdate(runners: seq<Runner>, r: nat, x: Runner)
    requires r < |runners|
    ensures Busy(runners[r := x]) - Busy(runners)
         == (if x.Working? then 1 else 0) - (if runners[r].Working? then 1 else 0)
    ensures Unfinished(runners[r := x]) - Unfinished(runners)
         == (if x.Finished? then 0 else 1) - (if runners[r].Finished? then 0 else 1)
  {
    var after := runners[r := x];
    if r == 0 {
      assert after[1..] == runners[1..];
    } else {
      assert after[1..] == runners[1..][r - 1 := x];
      CountUpdate(runners[1..], r - 1, x);
    }
  }

  lemma {:induction false} CountBounds(runners: seq<Runner>)
    ensures Busy(runners) <= Unfinished(runners) <= |runners|
    ensures Unfinished(runners) == 0 <==> forall r | 0 <= r < |runners| :: runners[r].Finished?
    ensures (forall r | 0 <= r < |runners| :: runners[r] == AtLoopHead)
      ==> Busy(runners) == 0 && Unfinished(runners) == |runners|
  {
    if runners != [] {
      CountBounds(runners[1..]);
      assert forall r | 1 <= r < |runners| :: runners[r] == runners[1..][r - 1];
    }
  }

  // ---- The invariant of every interleaving ----

  function Min(a: nat, b: nat): nat {
    if a < b then a else b
  }

  ghost predicate InFlight(p: Pool, i: nat) {
    exists r :: 0 <= r < |p.runners| && p.runners[r] == Working(i)
  }

  ghost predicate Inv<R>(p: Pool<R>, outcomes: seq<Settled<R>>) {
    var n := |outcomes|;
    && |p.results| == n
    // Each index is claimed exactly once, in order.
    && p.claims == seq(Min(p.cursor, n), i => i)
    // A claimed index is either in flight or settled as its own worker call settles.
    && (forall i: nat :: i < n && i < p.cursor && p.results[i] == None ==> InFlight(p, i))
    && (forall i: nat :: i < n && p.results[i].Some? ==> i < p.cursor && p.results[i].value == outcomes[i])
    // What is in flight is claimed, unsettled, and held by one runner only.
    && (forall r :: 0 <= r < |p.runners| && p.runners[r].Working? ==>
          p.runners[r].index < n && p.runners[r].index < p.cursor && p.results[p.runners[r].index] == None)
    && (forall r, q :: 0 <= r < q < |p.runners| && p.runners[r].Working? ==> p.runners[r] != p.runners[q])
    // A runner finishes only after the list is exhausted.
    && (forall r :: 0 <= r < |p.runners| && p.runners[r].Finished? ==> p.cursor > n)
  }

  /** The number of steps still to be taken, whatever the schedule. */
  function StepsLeft(p: Pool): int {
    2 * (|p.results| - Min(p.cursor, |p.results|)) + Busy(p.runners) + Unfinished(p.runners)
  }

  lemma StartInv<R>(concurrency: int, outcomes: seq<Settled<R>>)
    ensures Inv(Start<R>(concurrency, |outcomes|), outcomes)
    ensures StepsLeft(Start<R>(concurrency, |outcomes|)) == 2 * |outcomes| + WorkerCount(concurrency, |outcomes|)
  {
    CountBounds(Start<R>(concurrency, |outcomes|).runners);
  }

  lemma StepInv<R>(p: Pool<R>, r: nat, outcomes: seq<Settled<R>>)
    requires Inv(p, outcomes) && Enabled(p, r)
    ensures Inv(Step(p, r, outcomes), outcomes)
    ensures |Step(p, r, outcomes).runners| == |p.runners|
    ensures StepsLeft(Step(p, r, outcomes)) == StepsLeft(p) - 1
  {
    var p' := Step(p, r, outcomes);
    var n := |outcomes|;
    CountUpdate(p.runners, r, p'.runners[r]);
    forall i: nat | i < n && i < p'.cursor && p'.results[i] == None
      ensures InFlight(p', i)
    {
      if i < p.cursor {
        var q :| 0 <= q < |p.runners| && p.runners[q] == Working(i);
        assert p'.runners[q] == Working(i);
      } else {
        assert p'.runners[r] == Working(i);
      }
    }
  }

  // ---- Whole runs ----

  function Run<R>(p: Pool<R>, schedule: seq<nat>, outcomes: seq<Settled<R>>): Pool<R>
    requires |p.results| == |outcomes|
    decreases |schedule|
  {
    if schedule == [] then p
    else
      var p' := Step(p, schedule[0], outcomes);
      Run(p', schedule[1..], outcomes)
  }

  /** Every entry of the schedule moves a runner that has not returned. */
  ghost predicate Moves<R>(p: Pool<R>, schedule: seq<nat>, outcomes: seq<Settled<R>>)
    requires |p.results| == |outcomes|
    decreases |schedule|
  {
    schedule == [] || (Enabled(p, schedule[0]) && Moves(Step(p, schedule[0], outcomes), schedule[1..], outcomes))
  }

  ghost predicate AllFinished(p: Pool) {
    forall r | 0 <= r < |p.runners| :: p.runners[r].Finished?
  }

  lemma {:induction false} RunInv<R>(p: Pool<R>, schedule: seq<nat>, outcomes: seq<Settled<R>>)
    requires Inv(p, outcomes) && Moves(p, schedule, outcomes)
    ensures var p' := Run(p, schedule, outcomes);
      Inv(p', outcomes) && |p'.runners| == |p.runners| && StepsLeft(p') == StepsLeft(p) - |schedule|
    decreases |schedule|
  {
    if schedule != [] {
      StepInv(p, schedule[0], outcomes);
      RunInv(Step(p, schedule[0], outcomes), schedule[1..], outcomes);
    }
  }

  lemma FinishedResults<R>(p: Pool<R>, outcomes: seq<Settled<R>>)
    requires Inv(p, outcomes) && AllFinished(p)
    requires outcomes != [] ==> p.runners != []
    ensures p.results == seq(|outcomes|, i requires 0 <= i < |outcomes| => Some(outcomes[i]))
    ensures p.claims == seq(|outcomes|, i => i)
  {
    if outcomes != [] {
      assert p.runners[0].Finished?;
    }
    forall i: nat | i < |outcomes| ensures p.results[i].Some? {
      assert !InFlight(p, i);
    }
  }

  /** No steps are left exactly when every runner has returned. */
  lemma NoStepsLeft<R>(p: Pool<R>, outcomes: seq<Settled<R>>)
    requires Inv(p, outcomes)
    requires outcomes != [] ==> p.runners != []
    ensures StepsLeft(p) >= 0
    ensures AllFinished(p) <==> StepsLeft(p) == 0
  {
    CountBounds(p.runners);
    if AllFinished(p) && outcomes != [] {
      assert p.runners[0].Finished?;
    }
  }

  /**
   The pool under every schedule: no index is ever in flight twice or claimed twice, at most
   min(max(c, 1), n) items are in flight, no schedule takes more than 2n + w steps, and the
   schedules that end with every runner returned take exactly that many and leave the
   sequential map in the result array.
   */
  lemma EveryInterleaving<R>(concurrency: int, schedule: seq<nat>, outcomes: seq<Settled<R>>)
    requires Moves(Start<R>(concurrency, |outcomes|), schedule, outcomes)
    ensures var n := |outcomes|;
      var w := if concurrency < 1 then Min(1, n) else if concurrency < n then concurrency else n;
      var p := Run(Start<R>(concurrency, n), schedule, outcomes);
      && |p.runners| == w
      && p.claims == seq(Min(p.cursor, n), i => i)
      && Busy(p.runners) <= w
      && |schedule| <= 2 * n + w
      && (AllFinished(p) <==> |schedule| == 2 * n + w)
      && (AllFinished(p) ==> p.results == seq(n, i requires 0 <= i < n => Some(outcomes[i])))
  {
    var n := |outcomes|;
    var start := Start<R>(concurrency, n);
    assert |start.runners| == WorkerCount(concurrency, n) && (n > 0 ==> WorkerCount(concurrency, n) > 0);
    StartInv(concurrency, outcomes);
    RunInv(start, schedule, outcomes);
    var p := Run(start, schedule, outcomes);
    assert p.claims == seq(Min(p.cursor, n), i => i);
    hide *;
    CountBounds(p.runners);
    NoStepsLeft(p, outcomes);
    if AllFinished(p) {
      FinishedResults(p, outcomes);
    }
  }

  // ---- The code itself ----

  /** The variables that the runners of one call share. */
  class SharedPool<R> {
    const outcomes: seq<Settled<R>>
    var cursor: nat
    var runners: seq<Runner>
    var results: seq<Option<Settled<R>>>
    ghost var claims: seq<nat>

    ghost function View(): Pool<R>
      reads this
    {
      Pool(cursor, runners, results, claims)
    }

    constructor (outcomes: seq<Settled<R>>, concurrency: int)
      ensures this.outcomes == outcomes && View() == Start<R>(concurrency, |outcomes|)
    {
      this.outcomes := outcomes;
      cursor := 0;
      runners := seq(WorkerCount(concurrency, |outcomes|), _ => AtLoopHead);
      results := seq(|outcomes|, _ => None);
      claims := [];
    }

    /** One turn of runner `r`: take an index, or record how its worker call settled. */
    method Resume(r: nat)
      requires r < |runners| && !runners[r].Finished? && |results| == |outcomes|
      requires runners[r].Working? ==> runners[r].index < |outcomes|
      modifies this
      ensures View() == Step(old(View()), r, outcomes)
    {
      match runners[r] {
        case AtLoopHead =>
          var i := cursor;
          cursor := cursor + 1;
          if i >= |outcomes| {
            runners := runners[r := Finished];
          } else {
            claims := claims + [i];
            runners := runners[r := Working(i)];
          }
        case Working(i) =>
          results := results[i := Some(outcomes[i])];
          runners := runners[r := AtLoopHead];
      }
    }
  }

  /** The whole call; the scheduler resumes any runner that can move until all have returned. */
  method ChunkedAllSettled<R>(outcomes: seq<Settled<R>>, concurrency: int) returns (results: seq<Settled<R>>)
    ensures results == outcomes
  {
    if outcomes == [] {
      return [];
    }
    var pool := new SharedPool<R>(outcomes, concurrency);
    StartInv(concurrency, outcomes);
    while exists r :: 0 <= r < |pool.runners| && !pool.runners[r].Finished?
      invariant pool.outcomes == outcomes && pool.runners != []
      invariant Inv(pool.View(), outcomes) && StepsLeft(pool.View()) >= 0
      decreases StepsLeft(pool.View())
    {
      var r: nat :| r < |pool.runners| && !pool.runners[r].Finished?;
      StepInv(pool.View(), r, outcomes);
      pool.Resume(r);
      CountBounds(pool.runners);
    }
    FinishedResults(pool.View(), outcomes);
    var filled := pool.results;
    results := seq(|filled|, i requires 0 <= i < |filled| && filled[i].Some? => filled[i].value);
  }

  // ---- bulkAction ----

  datatype Failure = Failure(id: string, error: string)

  function ErrorMessage(e: Reason): string {
    match e
    case ErrorObject(message) => message
    case Text(text) => text
    case Other => "Unknown error"
  }

  /** The positions settled one way, in list order. */
  function Positions<R>(settled: seq<Settled<R>>, fulfilled: bool): seq<nat> {
    if settled == [] then []
    else
      var n := |settled| - 1;
      Positions(settled[..n], fulfilled) + (if settled[n].Fulfilled? == fulfilled then [n] else [])
  }

  lemma {:induction false} PositionsSound<R>(settled: seq<Settled<R>>, fulfilled: bool)
    ensures var ps := Positions(settled, fulfilled);
      && (forall k | 0 <= k < |ps| :: ps[k] < |settled| && settled[ps[k]].Fulfilled? == fulfilled)
      && (forall j, k | 0 <= j < k < |ps| :: ps[j] < ps[k])
      && (forall i | 0 <= i < |settled| && settled[i].Fulfilled? == fulfilled :: i in ps)
  {
    if settled != [] {
      var n := |settled| - 1;
      var front, ps := Positions(settled[..n], fulfilled), Positions(settled, fulfilled);
      PositionsSound(settled[..n], fulfilled);
      assert ps == front + (if settled[n].Fulfilled? == fulfilled then [n] else []);
      forall k | 0 <= k < |ps| ensures ps[k] < |settled| && settled[ps[k]].Fulfilled? == fulfilled {
        if k < |front| {
          assert ps[k] == front[k] < n && settled[..n][front[k]] == settled[ps[k]];
        }
      }
    }
  }

  lemma {:induction false} PositionsCover<R>(settled: seq<Settled<R>>)
    ensures |Positions(settled, true)| + |Positions(settled, false)| == |settled|
  {
    if settled != [] {
      PositionsCover(settled[..|settled| - 1]);
    }
  }

  ghost predicate Split<R>(ids: seq<string>, settled: seq<Settled<R>>, succeeded: seq<string>, failed: seq<Failure>)
    requires |settled| <= |ids|
  {
    var ok, ko := Positions(settled, true), Positions(settled, false);
    && |succeeded| == |ok| && |failed| == |ko|
    && (forall k | 0 <= k < |ok| :: ok[k] < |settled| && succeeded[k] == ids[ok[k]])
    && (forall k | 0 <= k < |ko| :: ko[k] < |settled| && settled[ko[k]].Rejected?
          && failed[k].id == ids[ko[k]]
          && match settled[ko[k]].reason
             case ErrorObject(message) => failed[k].error == message
             case Text(text) => failed[k].error == text
             case Other => failed[k].error == "Unknown error")
  }

  lemma SplitExtends<R>(ids: seq<string>, settled: seq<Settled<R>>, last: Settled<R>,
                        succeeded: seq<string>, failed: seq<Failure>)
    requires |settled| < |ids| && Split(ids, settled, succeeded, failed)
    ensures last.Fulfilled? ==> Split(ids, settled + [last], succeeded + [ids[|settled|]], failed)
    ensures last.Rejected? ==>
      Split(ids, settled + [last], succeeded, failed + [Failure(ids[|settled|], ErrorMessage(last.reason))])
  {
    assert (settled + [last])[..|settled|] == settled;
  }

  /**
   The bulk verb over `ids`: the succeeded ids are those at the fulfilled positions and the
   failures those at the rejected positions with their messages, each in input order.
   */
  method BulkAction<R>(ids: seq<string>, outcomes: seq<Settled<R>>, concurrency: Option<int>)
    returns (succeeded: seq<string>, failed: seq<Failure>)
    requires |ids| == |outcomes|
    ensures Split(ids, outcomes, succeeded, failed)
    ensures |succeeded| + |failed| == |ids|
  {
    var results := ChunkedAllSettled(outcomes, concurrency.GetOr(5));
    succeeded, failed := [], [];
    for i := 0 to |results|
      invariant Split(ids, results[..i], succeeded, failed)
    {
      SplitExtends(ids, results[..i], results[i], succeeded, failed);
      assert results[..i + 1] == results[..i] + [results[i]];
      if results[i].Fulfilled? {
        succeeded := succeeded + [ids[i]];
      } else {
        failed := failed + [Failure(ids[i], ErrorMessage(results[i].reason))];
      }
    }
    assert results[..|results|] == outcomes;
    PositionsCover(outcomes);
  }
}
