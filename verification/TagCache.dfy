/**
 The distinct-tags cache: Redis first, then process memory, then the database.

 Every Redis call may fail. Calls overlap at their suspension points, so the statements about
 runs are about every interleaving of lookups, stores and invalidations.
 */
module TagCache {
  import opened Common

  type TagList = seq<string>

  const TTL_MS := 60_000

  datatype Entry = Entry(value: TagList, storedAt: Time)

  predicate Live(e: Entry, now: Time) {
    now < e.storedAt + TTL_MS
  }

  /** What a lookup finds; `getOk` says whether Redis answers. */
  function Lookup(redis: map<OrgId, Entry>, memory: map<OrgId, Entry>, org: OrgId, now: Time,
    getOk: bool): Option<TagList> {
    if getOk && org in redis && Live(redis[org], now) then Some(redis[org].value)
    else if org in memory && Live(memory[org], now) then Some(memory[org].value)
    else None
  }

  /** Redis is asked first and memory next, and neither answers with a list of a minute ago or older. */
  lemma LookupOutcome(redis: map<OrgId, Entry>, memory: map<OrgId, Entry>, org: OrgId, now: Time, getOk: bool)
    ensures var hit := Lookup(redis, memory, org, now, getOk);
      var inRedis := getOk && org in redis && now < redis[org].storedAt + 60_000;
      var inMemory := org in memory && now < memory[org].storedAt + 60_000;
      && (hit.Some? <==> inRedis || inMemory)
      && (inRedis ==> hit == Some(redis[org].value))
      && (!inRedis && inMemory ==> hit == Some(memory[org].value))
  {}

  // ---- The service, one call at a time ----

  class TagCacheService {
    var redis: map<OrgId, Entry>
    var memoryFallback: map<OrgId, Entry>

    /** `current` is what the database would return; `setAt` and `rememberAt` are the clock at the two stores. */
    method GetOrCompute(org: OrgId, now: Time, getOk: bool, current: TagList, setAt: Time, setOk: bool,
      rememberAt: Time)
      returns (r: TagList)
      modifies this
      ensures var hit := Lookup(old(redis), old(memoryFallback), org, now, getOk);
        if hit.Some? then r == hit.value && redis == old(redis) && memoryFallback == old(memoryFallback)
        else
          && r == current
          && redis == (if setOk then old(redis)[org := Entry(current, setAt)] else old(redis))
          && memoryFallback == old(memoryFallback)[org := Entry(current, rememberAt)]
      ensures getOk && org in old(redis) && now < old(redis)[org].storedAt + 60_000 ==> r == old(redis)[org].value
      ensures (getOk && org in old(redis) && now < old(redis)[org].storedAt + 60_000)
        || (org in old(memoryFallback) && now < old(memoryFallback)[org].storedAt + 60_000)
        || r == current
    {
      if getOk {
        if org in redis && Live(redis[org], now) {
          return redis[org].value;
        }
      }
      if org in memoryFallback && Live(memoryFallback[org], now) {
        return memoryFallback[org].value;
      }
      if setOk {
        redis := redis[org := Entry(current, setAt)];
      }
      memoryFallback := memoryFallback[org := Entry(current, rememberAt)];
      return current;
    }

    method Invalidate(org: OrgId, delOk: bool)
      modifies this
      ensures redis == (if delOk then old(redis) - {org} else old(redis))
      ensures memoryFallback == old(memoryFallback) - {org}
    {
      if delOk {
        redis := redis - {org};
      }
      memoryFallback := memoryFallback - {org};
    }
  }

  // ---- Overlapping calls ----

  /** Where a call of `getOrCompute` is suspended. */
  datatype Call =
    | Looking(org: OrgId)
    | Missed(org: OrgId)
    | Computing(org: OrgId)
    | Writing(org: OrgId, value: TagList)
    | Remembering(org: OrgId, value: TagList)
    | Returned(org: OrgId, value: TagList)

  /** `computed` and `stored` are histories. */
  datatype State = State(
    redis: map<OrgId, Entry>,
    memory: map<OrgId, Entry>,
    calls: map<nat, Call>,
    computed: set<(OrgId, TagList)>,
    stored: seq<(OrgId, Entry)>)

  /** An invalidation is two deletions. */
  datatype Event =
    | Begin(id: nat, org: OrgId)
    | ReadRedis(id: nat, now: Time, ok: bool)
    | ReadMemory(id: nat, now: Time)
    | Compute(id: nat, value: TagList)
    | SetRedis(id: nat, now: Time, ok: bool)
    | Remember(id: nat, now: Time)
    | DeleteRedis(org: OrgId, ok: bool)
    | DeleteMemory(org: OrgId)

  function Step(s: State, e: Event): State {
    match e
    case Begin(id, org) =>
      if id in s.calls then s else s.(calls := s.calls[id := Looking(org)])
    case ReadRedis(id, now, ok) =>
      if id in s.calls && s.calls[id].Looking? then
        var org := s.calls[id].org;
        s.(calls := s.calls[id := if ok && org in s.redis && Live(s.redis[org], now)
                                  then Returned(org, s.redis[org].value) else Missed(org)])
      else s
    case ReadMemory(id, now) =>
      if id in s.calls && s.calls[id].Missed? then
        var org := s.calls[id].org;
        s.(calls := s.calls[id := if org in s.memory && Live(s.memory[org], now)
                                  then Returned(org, s.memory[org].value) else Computing(org)])
      else s
    case Compute(id, value) =>
      if id in s.calls && s.calls[id].Computing? then
        var org := s.calls[id].org;
        s.(calls := s.calls[id := Writing(org, value)], computed := s.computed + {(org, value)})
      else s
    case SetRedis(id, now, ok) =>
      if id in s.calls && s.calls[id].Writing? then
        var Writing(org, value) := s.calls[id];
        var s' := s.(calls := s.calls[id := Remembering(org, value)]);
        if ok
        then s'.(redis := s.redis[org := Entry(value, now)], stored := s.stored + [(org, Entry(value, now))])
        else s'
      else s
    case Remember(id, now) =>
      if id in s.calls && s.calls[id].Remembering? then
        var Remembering(org, value) := s.calls[id];
        s.(calls := s.calls[id := Returned(org, value)],
           memory := s.memory[org := Entry(value, now)],
           stored := s.stored + [(org, Entry(value, now))])
      else s
    case DeleteRedis(org, ok) => if ok then s.(redis := s.redis - {org}) else s
    case DeleteMemory(org) => s.(memory := s.memory - {org})
  }

  function Run(s: State, events: seq<Event>): State
    decreases |events|
  {
    if events == [] then s else Run(Step(s, events[0]), events[1..])
  }

  const EMPTY := State(map[], map[], map[], {}, [])

  /** The six steps of a call that nothing overlaps. */
  function WholeCall(s: State, id: nat, org: OrgId, now: Time, getOk: bool, current: TagList, setAt: Time, setOk: bool,
                     rememberAt: Time): State {
    var read := Step(Step(Step(s, Begin(id, org)), ReadRedis(id, now, getOk)), ReadMemory(id, now));
    Step(Step(Step(read, Compute(id, current)), SetRedis(id, setAt, setOk)), Remember(id, rememberAt))
  }

  /** Such a call does what the service's method does. */
  lemma UndisturbedCall(s: State, id: nat, org: OrgId, now: Time, getOk: bool, current: TagList, setAt: Time,
                        setOk: bool, rememberAt: Time)
    requires id !in s.calls
    ensures var s' := WholeCall(s, id, org, now, getOk, current, setAt, setOk, rememberAt);
      var hit := Lookup(s.redis, s.memory, org, now, getOk);
      && id in s'.calls && s'.calls[id] == Returned(org, hit.GetOr(current))
      && s'.redis == (if hit.Some? || !setOk then s.redis else s.redis[org := Entry(current, setAt)])
      && s'.memory == (if hit.Some? then s.memory else s.memory[org := Entry(current, rememberAt)])
  {
    var begun := Step(s, Begin(id, org));
    var asked := Step(begun, ReadRedis(id, now, getOk));
    var read := Step(asked, ReadMemory(id, now));
    assert read.calls[id] == if Lookup(s.redis, s.memory, org, now, getOk).Some?
                             then Returned(org, Lookup(s.redis, s.memory, org, now, getOk).value) else Computing(org);
  }

  ghost predicate Inv(s: State) {
    && (forall org | org in s.redis :: (org, s.redis[org]) in s.stored)
    && (forall org | org in s.memory :: (org, s.memory[org]) in s.stored)
    && (forall x | x in s.stored :: (x.0, x.1.value) in s.computed)
    && (forall id | id in s.calls ::
          var c := s.calls[id];
          c.Writing? || c.Remembering? || c.Returned? ==> (c.org, c.value) in s.computed)
  }

  lemma ReadInv(s: State, e: Event)
    requires Inv(s) && (e.ReadRedis? || e.ReadMemory?)
    ensures Inv(Step(s, e))
  {
    if e.id in s.calls && !s.calls[e.id].Returned? {
      var org := s.calls[e.id].org;
      if org in s.redis { assert (org, s.redis[org]) in s.stored; }
      if org in s.memory { assert (org, s.memory[org]) in s.stored; }
    }
  }

  lemma StepInv(s: State, e: Event)
    requires Inv(s)
    ensures Inv(Step(s, e))
  {
    if e.ReadRedis? || e.ReadMemory? {
      ReadInv(s, e);
    }
  }

  lemma {:induction false} RunInv(s: State, events: seq<Event>)
    requires Inv(s)
    ensures Inv(Run(s, events))
    decreases |events|
  {
    if events != [] {
      StepInv(s, events[0]);
      hide Inv, Step;
      RunInv(Step(s, events[0]), events[1..]);
    }
  }

  /**
   In every run, whatever fails and overlaps: a list answered from a cache was computed for the
   same organisation and stored less than a minute before the read, and every list a call returns
   was computed for its organisation.
   */
  lemma AnswersAreRecent(events: seq<Event>, id: nat, now: Time, e: Event)
    requires var s := Run(EMPTY, events); id in s.calls && (s.calls[id].Looking? || s.calls[id].Missed?)
    requires e == ReadRedis(id, now, true) || e == ReadRedis(id, now, false) || e == ReadMemory(id, now)
    ensures var s := Run(EMPTY, events);
      var c := Step(s, e).calls[id];
      && c.org == s.calls[id].org
      && (c.Returned? ==>
            && (c.org, c.value) in s.computed
            && exists at: Time :: (c.org, Entry(c.value, at)) in s.stored && now < at + TTL_MS)
  {
    RunInv(EMPTY, events);
    var s := Run(EMPTY, events);
    var c := Step(s, e).calls[id];
    if c.Returned? {
      if e.ReadRedis? {
        assert (c.org, Entry(c.value, s.redis[c.org].storedAt)) in s.stored;
      } else {
        assert (c.org, Entry(c.value, s.memory[c.org].storedAt)) in s.stored;
      }
    }
  }

  // ---- After an invalidation ----

  /** The event stores a list for `org`: some call that computed earlier gets to its store. */
  predicate StoresFor(s: State, e: Event, org: OrgId) {
    match e
    case SetRedis(id, _, ok) => ok && id in s.calls && s.calls[id].Writing? && s.calls[id].org == org
    case Remember(id, _) => id in s.calls && s.calls[id].Remembering? && s.calls[id].org == org
    case _ => false
  }

  ghost predicate NoStore(s: State, events: seq<Event>, org: OrgId)
    decreases |events|
  {
    events == [] || (!StoresFor(s, events[0], org) && NoStore(Step(s, events[0]), events[1..], org))
  }

  ghost predicate NoRedisStore(s: State, events: seq<Event>, org: OrgId)
    decreases |events|
  {
    events == []
    || (!(events[0].SetRedis? && StoresFor(s, events[0], org)) && NoRedisStore(Step(s, events[0]), events[1..], org))
  }

  /** No other invalidation of the organisation comes in between. */
  predicate NoDelete(events: seq<Event>, org: OrgId) {
    forall e | e in events :: !(e.DeleteRedis? && e.org == org) && !(e.DeleteMemory? && e.org == org)
  }

  ghost predicate Absent(s: State, org: OrgId) {
    org !in s.redis && org !in s.memory
  }

  lemma {:induction false} RedisAbsentIff(s: State, events: seq<Event>, org: OrgId)
    requires NoDelete(events, org)
    ensures org !in Run(s, events).redis <==> org !in s.redis && NoRedisStore(s, events, org)
    decreases |events|
  {
    if events != [] {
      assert events[0] in events && forall e | e in events[1..] :: e in events;
      var s' := Step(s, events[0]);
      assert org !in s'.redis <==> org !in s.redis && !(events[0].SetRedis? && StoresFor(s, events[0], org));
      hide Step, StoresFor;
      RedisAbsentIff(s', events[1..], org);
    }
  }

  /**
   An invalidation that reaches Redis leaves both layers empty exactly if no call stores its list
   in Redis between the two deletions.
   */
  lemma InvalidationEmptiesIff(s: State, between: seq<Event>, org: OrgId)
    requires NoDelete(between, org)
    ensures var s' := Step(Run(Step(s, DeleteRedis(org, true)), between), DeleteMemory(org));
      Absent(s', org) <==> NoRedisStore(Step(s, DeleteRedis(org, true)), between, org)
  {
    RedisAbsentIff(Step(s, DeleteRedis(org, true)), between, org);
  }

  lemma {:induction false} AbsentIff(s: State, events: seq<Event>, org: OrgId)
    requires NoDelete(events, org)
    ensures Absent(Run(s, events), org) <==> Absent(s, org) && NoStore(s, events, org)
    decreases |events|
  {
    if events != [] {
      assert events[0] in events && forall e | e in events[1..] :: e in events;
      var s' := Step(s, events[0]);
      assert Absent(s', org) <==> Absent(s, org) && !StoresFor(s, events[0], org);
      hide Step, StoresFor, Absent;
      AbsentIff(s', events[1..], org);
    }
  }

  /** A lookup whose two reads come one right after the other. */
  function LookedUp(s: State, id: nat, now: Time, ok: bool): State {
    Step(Step(s, ReadRedis(id, now, ok)), ReadMemory(id, now))
  }

  /**
   From two empty layers, and until the next invalidation: every lookup goes to the database, at
   any time and whether Redis answers or not, if and only if no call that was already past its own
   lookup has stored its older list since. If one has, that list answers while it is young enough.
   */
  lemma InvalidateForcesComputeIff(s: State, org: OrgId, events: seq<Event>, id: nat)
    requires Absent(s, org) && NoDelete(events, org)
    requires id in Run(s, events).calls && Run(s, events).calls[id] == Looking(org)
    ensures NoStore(s, events, org)
      <==> forall now, ok :: LookedUp(Run(s, events), id, now, ok).calls[id] == Computing(org)
  {
    AbsentIff(s, events, org);
    var s' := Run(s, events);
    if !Absent(s', org) {
      if org in s'.redis {
        assert LookedUp(s', id, s'.redis[org].storedAt, true).calls[id] == Returned(org, s'.redis[org].value);
      } else {
        assert LookedUp(s', id, s'.memory[org].storedAt, true).calls[id] == Returned(org, s'.memory[org].value);
      }
    }
  }

  /** Such a store is possible: a call caught between computing and storing brings the old list back. */
  lemma InvalidateCanBeUndone(org: OrgId, old1: TagList, now: Time)
    ensures var run := [Begin(0, org), ReadRedis(0, now, true), ReadMemory(0, now), Compute(0, old1),
                        DeleteRedis(org, true), DeleteMemory(org), SetRedis(0, now, true),
                        Begin(1, org), ReadRedis(1, now, true)];
      1 in Run(EMPTY, run).calls && Run(EMPTY, run).calls[1] == Returned(org, old1)
  {
    var e := [Begin(0, org), ReadRedis(0, now, true), ReadMemory(0, now), Compute(0, old1),
              DeleteRedis(org, true), DeleteMemory(org), SetRedis(0, now, true),
              Begin(1, org), ReadRedis(1, now, true)];
    var s4 := Step(Step(Step(Step(EMPTY, e[0]), e[1]), e[2]), e[3]);
    assert s4.calls[0] == Writing(org, old1);
    var s9 := Step(Step(Step(Step(Step(s4, e[4]), e[5]), e[6]), e[7]), e[8]);
    assert s9.calls[1] == Returned(org, old1);
    hide Step;
    RunFive(s4, e[4..]);
    RunFour(EMPTY, e);
  }

  lemma RunFour(s: State, e: seq<Event>)
    requires |e| >= 4
    ensures Run(s, e) == Run(Step(Step(Step(Step(s, e[0]), e[1]), e[2]), e[3]), e[4..])
  {
    hide Step;
    var s1 := Step(s, e[0]);
    var s2 := Step(s1, e[1]);
    var s3 := Step(s2, e[2]);
    assert e[1..][1..] == e[2..] && e[2..][1..] == e[3..] && e[3..][1..] == e[4..];
    assert Run(s1, e[1..]) == Run(s2, e[2..]);
    assert Run(s2, e[2..]) == Run(s3, e[3..]);
  }

  lemma RunFive(s: State, e: seq<Event>)
    requires |e| == 5
    ensures Run(s, e) == Step(Step(Step(Step(Step(s, e[0]), e[1]), e[2]), e[3]), e[4])
  {
    hide Step;
    RunFour(s, e);
    assert e[4..][1..] == [] && e[4..][0] == e[4];
    var s4 := Step(Step(Step(Step(s, e[0]), e[1]), e[2]), e[3]);
    assert Run(s4, e[4..]) == Run(Step(s4, e[4]), []);
  }
}
