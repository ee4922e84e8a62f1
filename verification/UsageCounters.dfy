/**
 API-key usage: counters incremented in Redis and moved to Postgres by a daily aggregation.

 A counter is named by key, date and kind (requests or bandwidth). The two kinds are separate
 Redis keys that are incremented and read by separate commands, so each is a counter of its own.
 */
module UsageCounters {
  import opened Common

  datatype Kind = Requests | Bandwidth

  datatype Counter = Counter(keyId: string, date: string, kind: Kind)

  function Get(m: map<Counter, nat>, c: Counter): nat {
    if c in m then m[c] else 0
  }

  // ---- The service, with nothing running beside it ----

  class ApiKeysService {
    /** The Redis counters. */
    var redis: map<Counter, nat>
    /** The persisted rows. */
    var usage: map<Counter, nat>

    method RecordUsage(keyId: string, date: string, bytes: nat)
      modifies this`redis
      ensures forall c ::
        Get(redis, c) - Get(old(redis), c) ==
          if c == Counter(keyId, date, Requests) then 1 else if c == Counter(keyId, date, Bandwidth) then bytes else 0
      ensures redis.Keys == old(redis.Keys) + {Counter(keyId, date, Requests), Counter(keyId, date, Bandwidth)}
    {
      var r, b := Counter(keyId, date, Requests), Counter(keyId, date, Bandwidth);
      redis := redis[r := Get(redis, r) + 1];
      redis := redis[b := Get(redis, b) + bytes];
    }

    /** The two counters of one key and date: read, added to the rows, and deleted. */
    method MoveCounters(requestKey: Counter, bandwidthKey: Counter)
      requires requestKey != bandwidthKey
      modifies this
      ensures forall c ::
        if c == requestKey || c == bandwidthKey
        then Get(redis, c) == 0 && Get(usage, c) == Get(old(usage), c) + Get(old(redis), c)
        else Get(redis, c) == Get(old(redis), c) && Get(usage, c) == Get(old(usage), c)
    {
      var requests := Get(redis, requestKey);
      var bandwidth := Get(redis, bandwidthKey);
      usage := usage[requestKey := Get(usage, requestKey) + requests];
      usage := usage[bandwidthKey := Get(usage, bandwidthKey) + bandwidth];
      redis := redis - {requestKey, bandwidthKey};
    }

    /** Every request counter that exists is moved with its bandwidth; no unit is made or lost. */
    method AggregateDaily()
      modifies this
      ensures forall c :: Get(redis, c) + Get(usage, c) == Get(old(redis), c) + Get(old(usage), c)
      ensures forall keyId, date :: Counter(keyId, date, Requests) in old(redis) ==>
        Get(redis, Counter(keyId, date, Requests)) == 0 && Get(redis, Counter(keyId, date, Bandwidth)) == 0
      ensures forall keyId, date :: Counter(keyId, date, Requests) !in old(redis) ==>
        Get(usage, Counter(keyId, date, Bandwidth)) == Get(old(usage), Counter(keyId, date, Bandwidth))
    {
      hide Get;
      var keys := set c | c in redis && c.kind == Requests;
      ghost var all := keys;
      while keys != {}
        invariant keys <= all
        invariant forall c :: Get(redis, c) + Get(usage, c) == Get(old(redis), c) + Get(old(usage), c)
        invariant forall c | c in all && c !in keys ::
          c.kind == Requests && Get(redis, c) == 0 && Get(redis, c.(kind := Bandwidth)) == 0
        invariant forall c: Counter | c.kind == Bandwidth && c.(kind := Requests) !in all ::
          Get(usage, c) == Get(old(usage), c)
        decreases keys
      {
        var requestKey :| requestKey in keys;
        MoveCounters(requestKey, requestKey.(kind := Bandwidth));
        keys := keys - {requestKey};
      }
      forall keyId, date | Counter(keyId, date, Requests) !in old(redis)
        ensures Get(usage, Counter(keyId, date, Bandwidth)) == Get(old(usage), Counter(keyId, date, Bandwidth))
      {
        var c := Counter(keyId, date, Bandwidth);
        assert c.(kind := Requests) == Counter(keyId, date, Requests);
      }
      forall keyId, date | Counter(keyId, date, Requests) in old(redis)
        ensures Get(redis, Counter(keyId, date, Requests)) == 0 && Get(redis, Counter(keyId, date, Bandwidth)) == 0
      {
        assert Counter(keyId, date, Requests) in all;
      }
    }
  }

  // ---- Increments landing during an aggregation ----

  /** How far the aggregation is with one counter, and what has landed on it since the read. */
  datatype Phase = Idle | Held(value: nat, landed: nat) | Saved(value: nat, landed: nat)

  /** `recorded`, `lost` and `twice` are histories. */
  datatype Slot = Slot(redis: nat, persisted: nat, phase: Phase, recorded: nat, lost: nat, twice: nat)

  datatype Event = Add(amount: nat) | ReadValue | Upsert | Delete | Crash

  function Step(s: Slot, e: Event): Slot {
    match e
    case Add(amount) =>
      s.(redis := s.redis + amount,
         recorded := s.recorded + amount,
         phase := match s.phase
                  case Idle => Idle
                  case Held(v, l) => Held(v, l + amount)
                  case Saved(v, l) => Saved(v, l + amount))
    case ReadValue =>
      if s.phase.Idle? then s.(phase := Held(s.redis, 0)) else s
    case Upsert =>
      if s.phase.Held?
      then s.(persisted := s.persisted + s.phase.value, phase := Saved(s.phase.value, s.phase.landed)) else s
    case Delete =>
      if s.phase.Saved? then s.(redis := 0, phase := Idle, lost := s.lost + s.phase.landed) else s
    case Crash =>
      // The process dies: a value already persisted stays in Redis and is aggregated again.
      s.(phase := Idle, twice := s.twice + (if s.phase.Saved? then s.phase.value else 0))
  }

  /**
   One counter: recording adds to Redis, an aggregation that nothing interrupts moves what is there,
   and a crash after the upsert leaves it there to be moved again.
   */
  lemma CounterOutcome(s: Slot, amount: nat)
    ensures Step(s, Add(amount)).redis == s.redis + amount && Step(s, Add(amount)).recorded == s.recorded + amount
    ensures Step(s, Add(amount)).persisted == s.persisted
    ensures s.phase.Idle? ==>
      var saved := Step(Step(s, ReadValue), Upsert);
      && saved.persisted == s.persisted + s.redis && saved.redis == s.redis
      && Step(saved, Delete) == s.(persisted := s.persisted + s.redis, redis := 0)
      && Step(saved, Crash) == s.(persisted := s.persisted + s.redis, twice := s.twice + s.redis)
  {}

  /** Any number of counters side by side; the aggregation handles them in any order. */
  type System = map<Counter, Slot>

  const NEW := Slot(0, 0, Idle, 0, 0, 0)

  function SlotOf(s: System, c: Counter): Slot {
    if c in s then s[c] else NEW
  }

  function Run(s: System, events: seq<(Counter, Event)>): System
    decreases |events|
  {
    if events == [] then s
    else
      var (c, e) := events[0];
      Run(s[c := Step(SlotOf(s, c), e)], events[1..])
  }

  ghost predicate Balanced(s: Slot) {
    && s.recorded + s.twice == s.persisted + s.redis + s.lost - (if s.phase.Saved? then s.phase.value else 0)
    && (!s.phase.Idle? ==> s.redis == s.phase.value + s.phase.landed)
  }

  lemma {:induction false} RunBalanced(s: System, events: seq<(Counter, Event)>)
    requires forall c | c in s :: Balanced(s[c])
    ensures forall c | c in Run(s, events) :: Balanced(Run(s, events)[c])
    decreases |events|
  {
    if events != [] {
      var (c, e) := events[0];
      assert Balanced(Step(SlotOf(s, c), e));
      RunBalanced(s[c := Step(SlotOf(s, c), e)], events[1..]);
    }
  }

  /**
   In every run, between aggregations of a counter: what was recorded is what is persisted plus
   what is in Redis plus exactly the increments that landed between a read and its delete, less
   exactly the values that were persisted just before a crash.
   */
  lemma Conservation(events: seq<(Counter, Event)>, c: Counter)
    requires SlotOf(Run(map[], events), c).phase == Idle
    ensures var s := SlotOf(Run(map[], events), c);
      && s.recorded == s.persisted + s.redis + s.lost - s.twice
      && (s.lost == 0 && s.twice == 0 ==> s.recorded == s.persisted + s.redis)
  {
    RunBalanced(map[], events);
  }

  // ---- The losses read off the event list alone ----

  /** The events on one counter, in order. */
  function Project(events: seq<(Counter, Event)>, c: Counter): seq<Event> {
    if events == [] then []
    else (if events[0].0 == c then [events[0].1] else []) + Project(events[1..], c)
  }

  /** Total of all increments. */
  function Sum(events: seq<Event>): nat {
    if events == [] then 0 else (if events[0].Add? then events[0].amount else 0) + Sum(events[1..])
  }

  /** One undisturbed aggregation with `gap1` before the upsert and `gap2` before the delete. */
  function Aggregation(gap1: seq<Event>, gap2: seq<Event>): seq<Event> {
    [ReadValue] + gap1 + [Upsert] + gap2 + [Delete]
  }

  function RunSlot(s: Slot, events: seq<Event>): Slot
    decreases |events|
  {
    if events == [] then s else RunSlot(Step(s, events[0]), events[1..])
  }

  lemma {:induction false} RunSlotAppend(s: Slot, a: seq<Event>, b: seq<Event>)
    ensures RunSlot(s, a + b) == RunSlot(RunSlot(s, a), b)
    decreases |a|
  {
    if a == [] {
      assert a + b == b;
    } else {
      assert (a + b)[1..] == a[1..] + b;
      RunSlotAppend(Step(s, a[0]), a[1..], b);
    }
  }

  lemma RunSlotCons(s: Slot, e: Event, rest: seq<Event>)
    ensures RunSlot(s, [e] + rest) == RunSlot(Step(s, e), rest)
  {
    assert ([e] + rest)[1..] == rest;
  }

  lemma RunSlotNothing(s: Slot)
    ensures RunSlot(s, []) == s
  {}

  lemma {:induction false} RunAdds(s: Slot, adds: seq<Event>)
    requires forall i | 0 <= i < |adds| :: adds[i].Add?
    ensures var s' := RunSlot(s, adds);
      && s'.redis == s.redis + Sum(adds) && s'.recorded == s.recorded + Sum(adds)
      && s'.persisted == s.persisted && s'.lost == s.lost && s'.twice == s.twice
      && (match s.phase
          case Idle => s'.phase == Idle
          case Held(v, l) => s'.phase == Held(v, l + Sum(adds))
          case Saved(v, l) => s'.phase == Saved(v, l + Sum(adds)))
    decreases |adds|
  {
    if adds != [] {
      RunAdds(Step(s, adds[0]), adds[1..]);
    }
  }

  lemma GapState(s: Slot, gap1: seq<Event>, gap2: seq<Event>)
    requires s.phase == Idle
    requires forall i | 0 <= i < |gap1| :: gap1[i].Add?
    requires forall i | 0 <= i < |gap2| :: gap2[i].Add?
    ensures var landed := Sum(gap1) + Sum(gap2);
      RunSlot(Step(RunSlot(Step(s, ReadValue), gap1), Upsert), gap2) ==
        Slot(s.redis + landed, s.persisted + s.redis, Saved(s.redis, landed), s.recorded + landed, s.lost, s.twice)
  {
    RunAdds(Step(s, ReadValue), gap1);
    RunAdds(Step(RunSlot(Step(s, ReadValue), gap1), Upsert), gap2);
  }

  lemma AggregationSteps(s: Slot, gap1: seq<Event>, gap2: seq<Event>)
    ensures RunSlot(s, Aggregation(gap1, gap2)) ==
      Step(RunSlot(Step(RunSlot(Step(s, ReadValue), gap1), Upsert), gap2), Delete)
  {
    var tail2 := gap2 + [Delete];
    var tail1 := gap1 + ([Upsert] + tail2);
    assert Aggregation(gap1, gap2) == [ReadValue] + tail1;
    hide *;
    var s1 := Step(s, ReadValue);
    var s2 := RunSlot(s1, gap1);
    var s3 := Step(s2, Upsert);
    var s4 := RunSlot(s3, gap2);
    RunSlotCons(s, ReadValue, tail1);
    RunSlotAppend(s1, gap1, [Upsert] + tail2);
    RunSlotCons(s2, Upsert, tail2);
    RunSlotAppend(s3, gap2, [Delete]);
    RunSlotCons(s4, Delete, []);
    assert [Delete] + [] == [Delete];
    RunSlotNothing(Step(s4, Delete));
  }

  /** An aggregation loses the increments of its two gaps, all of them and nothing else. */
  lemma GapLoss(s: Slot, gap1: seq<Event>, gap2: seq<Event>)
    requires s.phase == Idle
    requires forall i | 0 <= i < |gap1| :: gap1[i].Add?
    requires forall i | 0 <= i < |gap2| :: gap2[i].Add?
    ensures var landed := Sum(gap1) + Sum(gap2);
      RunSlot(s, Aggregation(gap1, gap2)) ==
        Slot(0, s.persisted + s.redis, Idle, s.recorded + landed, s.lost + landed, s.twice)
  {
    AggregationSteps(s, gap1, gap2);
    GapState(s, gap1, gap2);
  }

  /** Each counter of a run behaves as it would alone. */
  lemma {:induction false} RunProjects(s: System, events: seq<(Counter, Event)>, c: Counter)
    ensures SlotOf(Run(s, events), c) == RunSlot(SlotOf(s, c), Project(events, c))
    decreases |events|
  {
    if events != [] {
      var (d, e) := events[0];
      RunProjects(s[d := Step(SlotOf(s, d), e)], events[1..], c);
      if d == c {
        assert Project(events, c)[1..] == Project(events[1..], c);
      } else {
        assert Project(events, c) == Project(events[1..], c);
      }
    }
  }
}
