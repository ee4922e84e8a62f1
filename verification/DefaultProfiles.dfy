/**
 The stream profile service: one default profile per organisation.

 A create counts, clears the other defaults and writes; an update reads, clears and writes; a
 deletion reads, counts, looks for cameras and removes. Other calls come in between.
 */
module DefaultProfiles {
  import opened Common
  import opened StreamProfiles

  // ---- The default profile ----

  type CallId = nat

  datatype Profile = Profile(org: OrgId, settings: Settings, isDefault: bool)

  /** A partial update: an absent field stays, and a present one may be null. */
  datatype Patch = Patch(
    codec: Option<Option<string>>, preset: Option<Option<string>>, resolution: Option<Option<string>>,
    fps: Option<Option<nat>>, videoBitrate: Option<Option<string>>, audioCodec: Option<Option<string>>,
    audioBitrate: Option<Option<string>>, isDefault: Option<bool>)

  datatype Failure = NotFound | IsDefault | InUse

  /** How far a deletion has come: a default read, no obstacle to its going found, no camera found. */
  datatype Deletion = DefaultRead | MayGo | Unused

  /**
   A call between two of its database operations. A create has counted the organisation's
   profiles, an update has read its target; both clear the organisation's defaults before they
   write a default.
   */
  datatype Call =
    | Creating(id: ProfileId, org: OrgId, settings: Settings, isDefault: bool, cleared: bool)
    | Updating(id: ProfileId, org: OrgId, before: Settings, patch: Patch, cleared: bool)
    | Deleting(id: ProfileId, org: OrgId, phase: Deletion)

  /**
   `rivals` is a history: for each call past its clear, the defaults of its organisation that were
   written since and still stand.
   */
  datatype State = State(rows: map<ProfileId, Profile>, calls: map<CallId, Call>, rivals: map<CallId, set<ProfileId>>)

  predicate WantsDefault(c: Call) {
    (c.Creating? && c.isDefault) || (c.Updating? && c.patch.isDefault == Some(true))
  }

  predicate HasCleared(c: Call) {
    !c.Deleting? && c.cleared
  }

  function Defaults(rows: map<ProfileId, Profile>, org: OrgId): set<ProfileId> {
    set id | id in rows && rows[id].org == org && rows[id].isDefault
  }

  predicate HasOrg(rows: map<ProfileId, Profile>, org: OrgId) {
    exists id :: id in rows && rows[id].org == org
  }

  predicate OthersInOrg(rows: map<ProfileId, Profile>, org: OrgId, id: ProfileId) {
    exists other :: other in rows && other != id && rows[other].org == org
  }

  function Clear(rows: map<ProfileId, Profile>, org: OrgId): map<ProfileId, Profile> {
    map id | id in rows :: if rows[id].org == org then rows[id].(isDefault := false) else rows[id]
  }

  function PatchedSettings(s: Settings, patch: Patch): Settings {
    Settings(patch.codec.GetOr(s.codec), patch.preset.GetOr(s.preset), patch.resolution.GetOr(s.resolution),
             patch.fps.GetOr(s.fps), patch.videoBitrate.GetOr(s.videoBitrate), patch.audioCodec.GetOr(s.audioCodec),
             patch.audioBitrate.GetOr(s.audioBitrate))
  }

  function Patched(p: Profile, patch: Patch): Profile {
    p.(settings := PatchedSettings(p.settings, patch), isDefault := patch.isDefault.GetOr(p.isDefault))
  }

  /** The patch gives some field a value that the settings do not have. */
  predicate Alters(patch: Patch, s: Settings) {
    || (patch.codec.Some? && patch.codec.value != s.codec)
    || (patch.preset.Some? && patch.preset.value != s.preset)
    || (patch.resolution.Some? && patch.resolution.value != s.resolution)
    || (patch.fps.Some? && patch.fps.value != s.fps)
    || (patch.videoBitrate.Some? && patch.videoBitrate.value != s.videoBitrate)
    || (patch.audioCodec.Some? && patch.audioCodec.value != s.audioCodec)
    || (patch.audioBitrate.Some? && patch.audioBitrate.value != s.audioBitrate)
  }

  /** Each field that a patch carries is replaced, by null too, and each other field stays; the organisation does. */
  lemma PatchedOutcome(p: Profile, patch: Patch)
    ensures var p' := Patched(p, patch);
      var s, s' := p.settings, p'.settings;
      && p'.org == p.org
      && p'.isDefault == (if patch.isDefault.Some? then patch.isDefault.value else p.isDefault)
      && s'.codec == (if patch.codec.Some? then patch.codec.value else s.codec)
      && s'.preset == (if patch.preset.Some? then patch.preset.value else s.preset)
      && s'.resolution == (if patch.resolution.Some? then patch.resolution.value else s.resolution)
      && s'.fps == (if patch.fps.Some? then patch.fps.value else s.fps)
      && s'.videoBitrate == (if patch.videoBitrate.Some? then patch.videoBitrate.value else s.videoBitrate)
      && s'.audioCodec == (if patch.audioCodec.Some? then patch.audioCodec.value else s.audioCodec)
      && s'.audioBitrate == (if patch.audioBitrate.Some? then patch.audioBitrate.value else s.audioBitrate)
  {}

  /** A clear takes the mark from every profile of the organisation, and changes nothing else. */
  lemma ClearOutcome(rows: map<ProfileId, Profile>, org: OrgId)
    ensures Clear(rows, org).Keys == rows.Keys
    ensures forall id | id in rows && rows[id].org == org ::
      Clear(rows, org)[id] == Profile(org, rows[id].settings, false)
    ensures forall id | id in rows && rows[id].org != org :: Clear(rows, org)[id] == rows[id]
  {}

  predicate Concerned(s: State, n: CallId, org: OrgId) {
    n in s.calls && s.calls[n].org == org
  }

  /** The histories after row `id` of `org` has become a default, or has stopped being one. */
  function Noted(s: State, org: OrgId, id: ProfileId, isDefault: bool): map<CallId, set<ProfileId>> {
    map n | n in s.rivals ::
      if !Concerned(s, n, org) then s.rivals[n] else if isDefault then s.rivals[n] + {id} else s.rivals[n] - {id}
  }

  /** The histories after a clear. */
  function NotedClear(s: State, org: OrgId): map<CallId, set<ProfileId>> {
    map n | n in s.rivals :: if Concerned(s, n, org) then {} else s.rivals[n]
  }

  function Cleared(s: State, n: CallId): State
    requires n in s.calls && !s.calls[n].Deleting?
  {
    var c := s.calls[n];
    State(Clear(s.rows, c.org), s.calls[n := c.(cleared := true)], NotedClear(s, c.org)[n := {}])
  }

  /** The last operation of a create or an update; an update fails if its row has gone. */
  function Written(s: State, n: CallId): State
    requires n in s.calls && !s.calls[n].Deleting?
  {
    var c := s.calls[n];
    var rest := s.calls - {n};
    if c.Creating? then
      State(s.rows[c.id := Profile(c.org, c.settings, c.isDefault)], rest, Noted(s, c.org, c.id, c.isDefault))
    else if c.id !in s.rows then s.(calls := rest)
    else
      var p := Patched(s.rows[c.id], c.patch);
      State(s.rows[c.id := p], rest, Noted(s, p.org, c.id, p.isDefault))
  }

  /** The database makes the ids of new rows. */
  predicate FreshId(s: State, id: ProfileId) {
    id !in s.rows && forall n | n in s.calls :: s.calls[n].id != id
  }

  function Removed(s: State, n: CallId): State
    requires n in s.calls
  {
    var c := s.calls[n];
    State(s.rows - {c.id}, s.calls - {n}, Noted(s, c.org, c.id, false))
  }

  datatype Event =
    | CountForCreate(call: CallId, org: OrgId, id: ProfileId, settings: Settings, isDefault: bool)
    | ReadForUpdate(call: CallId, id: ProfileId, patch: Patch)
    | ClearDefaults(call: CallId)
    | Write(call: CallId)
    | ReadForDelete(call: CallId, id: ProfileId)
    | CountOthers(call: CallId)
    | FindUses(call: CallId, inUse: bool)
    | Remove(call: CallId)

  function Step(s: State, e: Event): State {
    match e
    case CountForCreate(n, org, id, settings, isDefault) =>
      if n in s.calls || !FreshId(s, id) then s
      else s.(calls := s.calls[n := Creating(id, org, settings, isDefault || !HasOrg(s.rows, org), false)])
    case ReadForUpdate(n, id, patch) =>
      if n in s.calls || id !in s.rows then s
      else s.(calls := s.calls[n := Updating(id, s.rows[id].org, s.rows[id].settings, patch, false)])
    case ClearDefaults(n) =>
      if n in s.calls && WantsDefault(s.calls[n]) && !s.calls[n].cleared then Cleared(s, n) else s
    case Write(n) =>
      if n in s.calls && !s.calls[n].Deleting? && (WantsDefault(s.calls[n]) ==> s.calls[n].cleared) then Written(s, n)
        else s
    case ReadForDelete(n, id) =>
      if n in s.calls || id !in s.rows then s
      else s.(calls := s.calls[n := Deleting(id, s.rows[id].org, if s.rows[id].isDefault then DefaultRead else MayGo)])
    case CountOthers(n) =>
      if n in s.calls && s.calls[n].Deleting? && s.calls[n].phase == DefaultRead then
        if OthersInOrg(s.rows, s.calls[n].org, s.calls[n].id) then s.(calls := s.calls - {n})
        else s.(calls := s.calls[n := s.calls[n].(phase := MayGo)])
      else s
    case FindUses(n, inUse) =>
      if n in s.calls && s.calls[n].Deleting? && s.calls[n].phase == MayGo then
        if inUse then s.(calls := s.calls - {n}) else s.(calls := s.calls[n := s.calls[n].(phase := Unused)])
      else s
    case Remove(n) =>
      if n in s.calls && s.calls[n].Deleting? && s.calls[n].phase == Unused then Removed(s, n) else s
  }

  function Run(s: State, events: seq<Event>): State
    decreases |events|
  {
    if events == [] then s else Run(Step(s, events[0]), events[1..])
  }

  // ---- At most one default ----

  ghost predicate AtMostOneDefault(rows: map<ProfileId, Profile>) {
    forall a, b | a in rows && b in rows && rows[a].org == rows[b].org && rows[a].isDefault && rows[b].isDefault ::
      a == b
  }

  ghost predicate HistoriesTrue(s: State) {
    forall n | n in s.calls && HasCleared(s.calls[n]) ::
      n in s.rivals && s.rivals[n] == Defaults(s.rows, s.calls[n].org)
  }

  /** The calls know the organisations of their rows, and the rows to be created are not there. */
  ghost predicate CallsFit(s: State) {
    forall n | n in s.calls && s.calls[n].id in s.rows ::
      !s.calls[n].Creating? && s.rows[s.calls[n].id].org == s.calls[n].org
  }

  /** Two calls on one row agree, and at most one of them is about to create it. */
  ghost predicate CallsAgree(s: State) {
    forall m, n | m in s.calls && n in s.calls && m != n && s.calls[m].id == s.calls[n].id ::
      !s.calls[m].Creating? && s.calls[m].org == s.calls[n].org
  }

  ghost predicate Inv(s: State) {
    HistoriesTrue(s) && CallsFit(s) && CallsAgree(s)
  }

  /** The write of a default after another default was written, and stands, since the call's own clear. */
  predicate Overtaken(s: State, e: Event) {
    e.Write? && e.call in s.calls
    && var c := s.calls[e.call];
    WantsDefault(c) && c.cleared && (c.Creating? || c.id in s.rows)
    && e.call in s.rivals && s.rivals[e.call] - {c.id} != {}
  }

  lemma ClearedDefaults(rows: map<ProfileId, Profile>, org: OrgId, other: OrgId)
    ensures Defaults(Clear(rows, org), other) == if other == org then {} else Defaults(rows, other)
  {}

  lemma PutDefaults(rows: map<ProfileId, Profile>, id: ProfileId, p: Profile, org: OrgId)
    requires id in rows ==> rows[id].org == p.org
    ensures Defaults(rows[id := p], org)
      == if org != p.org then Defaults(rows, org)
         else if p.isDefault then Defaults(rows, org) + {id} else Defaults(rows, org) - {id}
  {}

  lemma RemovedDefaults(rows: map<ProfileId, Profile>, id: ProfileId, org: OrgId)
    ensures Defaults(rows - {id}, org) == Defaults(rows, org) - {id}
  {}

  lemma ClearedHistories(s: State, n: CallId)
    requires HistoriesTrue(s) && n in s.calls && WantsDefault(s.calls[n])
    ensures HistoriesTrue(Cleared(s, n))
  {
    forall org: OrgId ensures Defaults(Clear(s.rows, s.calls[n].org), org)
      == if org == s.calls[n].org then {} else Defaults(s.rows, org)
    {
      ClearedDefaults(s.rows, s.calls[n].org, org);
    }
    hide Defaults, Clear;
  }

  lemma ClearedCalls(s: State, n: CallId)
    requires CallsFit(s) && CallsAgree(s) && n in s.calls && WantsDefault(s.calls[n])
    ensures CallsFit(Cleared(s, n)) && CallsAgree(Cleared(s, n))
  {
    hide Defaults;
  }

  /** The row that a create or an update leaves. */
  function RowOf(s: State, n: CallId): Profile
    requires n in s.calls && !s.calls[n].Deleting?
  {
    var c := s.calls[n];
    if c.Creating? then Profile(c.org, c.settings, c.isDefault)
    else if c.id in s.rows then Patched(s.rows[c.id], c.patch)
    else Profile(c.org, c.before, false)
  }

  lemma WrittenHistories(s: State, n: CallId)
    requires HistoriesTrue(s) && CallsFit(s) && n in s.calls && !s.calls[n].Deleting?
    ensures HistoriesTrue(Written(s, n))
  {
    var c, p := s.calls[n], RowOf(s, n);
    forall org: OrgId
      ensures Defaults(s.rows[c.id := p], org)
        == if org != p.org then Defaults(s.rows, org)
           else if p.isDefault then Defaults(s.rows, org) + {c.id} else Defaults(s.rows, org) - {c.id}
    {
      PutDefaults(s.rows, c.id, p, org);
    }
    hide Defaults, CallsFit;
  }

  lemma WrittenCalls(s: State, n: CallId)
    requires CallsFit(s) && CallsAgree(s) && n in s.calls && !s.calls[n].Deleting?
    ensures CallsFit(Written(s, n)) && CallsAgree(Written(s, n))
  {
    hide Defaults;
  }

  lemma RemovedInv(s: State, n: CallId)
    requires Inv(s) && n in s.calls && s.calls[n].Deleting?
    ensures Inv(Removed(s, n))
  {
    forall org: OrgId ensures Defaults(s.rows - {s.calls[n].id}, org) == Defaults(s.rows, org) - {s.calls[n].id} {
      RemovedDefaults(s.rows, s.calls[n].id, org);
    }
    forall org: OrgId | org != s.calls[n].org ensures s.calls[n].id !in Defaults(s.rows, org) {}
    hide Defaults;
  }

  lemma StepInv(s: State, e: Event)
    requires Inv(s)
    ensures Inv(Step(s, e))
  {
    hide Cleared, Written, Removed, HasOrg, OthersInOrg, Defaults;
    match e
    case ClearDefaults(n) => if n in s.calls && WantsDefault(s.calls[n]) { ClearedHistories(s, n); ClearedCalls(s, n); }
    case Write(n) => if n in s.calls && !s.calls[n].Deleting? { WrittenHistories(s, n); WrittenCalls(s, n); }
    case Remove(n) => if n in s.calls && s.calls[n].Deleting? { RemovedInv(s, n); }
    case _ =>
  }

  lemma {:induction false} RunInv(s: State, events: seq<Event>)
    requires Inv(s)
    ensures Inv(Run(s, events))
    decreases |events|
  {
    if events != [] {
      StepInv(s, events[0]);
      RunInv(Step(s, events[0]), events[1..]);
    }
  }

  /**
   A step leaves every organisation with at most one default if and only if it is not the write
   of a default that comes after another default was written since the call's own clear.
   */
  lemma OneDefaultKeptIff(s: State, e: Event)
    requires Inv(s) && AtMostOneDefault(s.rows)
    ensures AtMostOneDefault(Step(s, e).rows) <==> !Overtaken(s, e)
  {
    if e.Write? && e.call in s.calls && !s.calls[e.call].Deleting?
       && (WantsDefault(s.calls[e.call]) ==> s.calls[e.call].cleared) {
      WriteKeepsOneIff(s, e.call);
    }
    hide Written, Defaults, HasOrg, OthersInOrg, FreshId, Noted;
  }

  lemma WriteKeepsOneIff(s: State, n: CallId)
    requires Inv(s) && AtMostOneDefault(s.rows) && n in s.calls && !s.calls[n].Deleting?
    requires WantsDefault(s.calls[n]) ==> s.calls[n].cleared
    ensures AtMostOneDefault(Written(s, n).rows) <==> !Overtaken(s, Write(n))
  {
    var c, after := s.calls[n], Written(s, n).rows;
    if Overtaken(s, Write(n)) {
      var rival :| rival in s.rivals[n] - {c.id};
      assert rival in after && after[rival].isDefault && after[rival].org == c.org;
      assert after[c.id].isDefault && after[c.id].org == c.org;
    } else if WantsDefault(c) {
      assert HasCleared(c) && s.rivals[n] == Defaults(s.rows, c.org);
      if c.Creating? || c.id in s.rows {
        assert s.rivals[n] - {c.id} == {};
        forall id | id in s.rows && s.rows[id].org == c.org && s.rows[id].isDefault ensures id == c.id {
          assert id in Defaults(s.rows, c.org);
          assert id !in s.rivals[n] - {c.id};
        }
      }
    }
  }

  /** Two creates of a default that overlap in one organisation leave it with two. */
  lemma OverlappingCreatesDouble(s: State, org: OrgId, settings: Settings, a: ProfileId, b: ProfileId, m: CallId,
    n: CallId)
    requires a != b && m != n && m !in s.calls && n !in s.calls && FreshId(s, a) && FreshId(s, b)
    ensures var counted := Step(Step(s, CountForCreate(m, org, a, settings, true)),
        CountForCreate(n, org, b, settings, true));
      var cleared := Step(Step(counted, ClearDefaults(m)), ClearDefaults(n));
      var s' := Step(Step(cleared, Write(m)), Write(n));
      {a, b} <= Defaults(s'.rows, org)
  {
    var counted := Step(Step(s, CountForCreate(m, org, a, settings, true)), CountForCreate(n, org, b, settings, true));
    assert counted.calls[m] == Creating(a, org, settings, true, false);
    assert counted.calls[n] == Creating(b, org, settings, true, false);
    var cleared := Step(Step(counted, ClearDefaults(m)), ClearDefaults(n));
    assert m in cleared.calls && cleared.calls[m].Creating? && cleared.calls[m].cleared && cleared.calls[m].id == a;
    assert n in cleared.calls && cleared.calls[n].Creating? && cleared.calls[n].cleared && cleared.calls[n].id == b;
    hide Step;
    var first := Step(cleared, Write(m));
    WriteOfCreate(cleared, m);
    WriteOfCreate(first, n);
    assert a in first.rows && first.rows[a] == Profile(org, settings, true);
    assert n in first.calls && first.calls[n].Creating? && first.calls[n].id == b;
    assert first.calls[n].cleared && first.calls[n].org == org && first.calls[n].isDefault;
    hide Defaults, HasOrg, Clear;
    DefaultsHas(Step(first, Write(n)).rows, org, a);
    DefaultsHas(Step(first, Write(n)).rows, org, b);
  }

  lemma WriteOfCreate(s: State, n: CallId)
    requires n in s.calls && s.calls[n].Creating? && (s.calls[n].isDefault ==> s.calls[n].cleared)
    ensures var c := s.calls[n];
      var s' := Step(s, Write(n));
      && s'.rows == s.rows[c.id := Profile(c.org, c.settings, c.isDefault)]
      && forall other | other in s.calls && other != n :: other in s'.calls && s'.calls[other] == s.calls[other]
  {}

  lemma DefaultsHas(rows: map<ProfileId, Profile>, org: OrgId, id: ProfileId)
    ensures id in Defaults(rows, org) <==> id in rows && rows[id].org == org && rows[id].isDefault
  {}

  // ---- Some default ----

  /** The call is past its clear and will write a default, for its row can be written. */
  predicate Brings(s: State, c: Call) {
    WantsDefault(c) && c.cleared && (c.Creating? || c.id in s.rows)
  }

  /** A default of the organisation is under way, in a call on another row than `id`. */
  ghost predicate Coming(s: State, org: OrgId, except: Option<ProfileId>) {
    exists n :: n in s.calls && s.calls[n].org == org && Brings(s, s.calls[n]) && except != Some(s.calls[n].id)
  }

  ghost predicate Provided(s: State, org: OrgId) {
    HasOrg(s.rows, org) ==> Defaults(s.rows, org) != {} || Coming(s, org, None)
  }

  /** Every organisation with profiles has a default, or one is under way. */
  ghost predicate AllProvided(s: State) {
    forall org :: Provided(s, org)
  }

  /** The ways to lose the last default. */
  ghost predicate LosesDefault(s: State, e: Event) {
    // An update that clears the others' defaults although its own row has gone.
    || (e.ClearDefaults? && e.call in s.calls && WantsDefault(s.calls[e.call]) && !s.calls[e.call].cleared
        && var c := s.calls[e.call];
        c.Updating? && c.id !in s.rows && HasOrg(s.rows, c.org) && !Coming(s, c.org, None))
    // A create counted others, which have gone, and adds a profile that is no default.
    || (e.Write? && e.call in s.calls && s.calls[e.call].Creating? && !WantsDefault(s.calls[e.call])
        && var c := s.calls[e.call];
        Defaults(s.rows, c.org) == {} && !Coming(s, c.org, None))
    // An update takes the flag off the only default.
    || (e.Write? && e.call in s.calls && s.calls[e.call].Updating?
        && var c := s.calls[e.call];
        c.patch.isDefault == Some(false) && c.id in s.rows
        && Defaults(s.rows, c.org) - {c.id} == {} && !Coming(s, c.org, None))
    // A deletion takes the only default, or the only row that is about to become one, from a profile added since.
    || (e.Remove? && e.call in s.calls && s.calls[e.call].Deleting? && s.calls[e.call].phase == Unused
        && var c := s.calls[e.call];
        OthersInOrg(s.rows, c.org, c.id) && Defaults(s.rows, c.org) - {c.id} == {} && !Coming(s, c.org, Some(c.id)))
  }

  /** A step that touches only one organisation provides for all if it provides for that one. */
  lemma ProvidedElsewhere(s: State, s': State, org: OrgId)
    requires forall other | other != org :: HasOrg(s'.rows, other) ==> HasOrg(s.rows, other)
    requires forall other | other != org :: Defaults(s'.rows, other) == Defaults(s.rows, other)
    requires forall other | other != org :: Coming(s, other, None) ==> Coming(s', other, None)
    requires AllProvided(s)
    ensures AllProvided(s') <==> Provided(s', org)
  {
    forall other | other != org ensures Provided(s', other) {
      assert Provided(s, other);
    }
  }

  lemma ClearProvides(s: State, n: CallId)
    requires AllProvided(s) && n in s.calls && WantsDefault(s.calls[n]) && !s.calls[n].cleared
    ensures AllProvided(Cleared(s, n)) <==> !LosesDefault(s, ClearDefaults(n))
  {
    var c, s' := s.calls[n], Cleared(s, n);
    forall org: OrgId
      ensures Defaults(s'.rows, org) == if org == c.org then {} else Defaults(s.rows, org)
      ensures HasOrg(s'.rows, org) == HasOrg(s.rows, org)
    {
      ClearedDefaults(s.rows, c.org, org);
      assert HasOrg(s.rows, org) ==> HasOrg(s'.rows, org) by {
        if id :| id in s.rows && s.rows[id].org == org { assert s'.rows[id].org == org; }
      }
      assert HasOrg(s'.rows, org) ==> HasOrg(s.rows, org) by {
        if id :| id in s'.rows && s'.rows[id].org == org { assert s.rows[id].org == org; }
      }
    }
    hide HasOrg, Defaults;
    forall m | m in s.calls && m != n ensures Brings(s', s'.calls[m]) == Brings(s, s.calls[m]) {}
    forall org: OrgId ensures Coming(s', org, None)
      <==> Coming(s, org, None) || (org == c.org && Brings(s', s'.calls[n])) {
      if Coming(s, org, None) {
        var m :| m in s.calls && s.calls[m].org == org && Brings(s, s.calls[m]);
        assert m in s'.calls && m != n;
      }
      if Coming(s', org, None) {
        var m :| m in s'.calls && s'.calls[m].org == org && Brings(s', s'.calls[m]);
        assert m in s.calls;
      }
      if org == c.org && Brings(s', s'.calls[n]) {
        assert n in s'.calls;
      }
    }
    hide Coming;
    ProvidedElsewhere(s, s', c.org);
    assert Provided(s, c.org);
  }

  lemma PutOrgs(rows: map<ProfileId, Profile>, id: ProfileId, p: Profile)
    requires id in rows ==> rows[id].org == p.org
    ensures forall org :: HasOrg(rows[id := p], org) == (HasOrg(rows, org) || org == p.org)
  {
    forall org: OrgId ensures HasOrg(rows[id := p], org) == (HasOrg(rows, org) || org == p.org) {
      var after := rows[id := p];
      assert after[id].org == p.org;
      if other :| other in rows && rows[other].org == org { assert after[other].org == org; }
      if other :| other in after && after[other].org == org { assert other == id || rows[other].org == org; }
    }
  }

  lemma WriteComing(s: State, n: CallId)
    requires n in s.calls && !s.calls[n].Deleting? && (s.calls[n].Creating? || s.calls[n].id in s.rows)
    requires CallsAgree(s)
    ensures forall org :: Coming(Written(s, n), org, None) ==> Coming(s, org, None)
    ensures forall org :: Coming(s, org, None) ==>
      Coming(Written(s, n), org, None) || (org == s.calls[n].org && Brings(s, s.calls[n]))
  {
    var c, s' := s.calls[n], Written(s, n);
    assert s'.calls.Keys == s.calls.Keys - {n};
    forall m | m in s'.calls
      ensures s'.calls[m].org == s.calls[m].org && Brings(s', s'.calls[m]) == Brings(s, s.calls[m])
    {}
    hide Written, Brings;
    forall org: OrgId | Coming(s, org, None) ensures Coming(s', org, None) || (org == c.org && Brings(s, c)) {
      var m :| m in s.calls && s.calls[m].org == org && Brings(s, s.calls[m]);
      assert m == n || m in s'.calls;
    }
    forall org: OrgId | Coming(s', org, None) ensures Coming(s, org, None) {
      var m :| m in s'.calls && s'.calls[m].org == org && Brings(s', s'.calls[m]);
      assert m in s.calls;
    }
  }

  lemma WriteProvides(s: State, n: CallId)
    requires CallsFit(s) && CallsAgree(s) && AllProvided(s) && n in s.calls && !s.calls[n].Deleting?
    requires WantsDefault(s.calls[n]) ==> s.calls[n].cleared
    ensures AllProvided(Written(s, n)) <==> !LosesDefault(s, Write(n))
  {
    var c, s', p := s.calls[n], Written(s, n), RowOf(s, n);
    if c.Updating? && c.id !in s.rows {
      DroppedProvides(s, n);
    } else {
      assert p.org == c.org && s'.rows == s.rows[c.id := p];
      forall org: OrgId
        ensures Defaults(s'.rows, org)
          == if org != c.org then Defaults(s.rows, org)
             else if p.isDefault then Defaults(s.rows, org) + {c.id} else Defaults(s.rows, org) - {c.id}
      {
        PutDefaults(s.rows, c.id, p, org);
      }
      PutOrgs(s.rows, c.id, p);
      WriteComing(s, n);
      DefaultsHas(s.rows, c.org, c.id);
      hide HasOrg, Defaults, Coming, Written, CallsFit, CallsAgree;
      ProvidedElsewhere(s, s', c.org);
      assert Provided(s, c.org);
    }
  }

  /** An update whose row has gone changes nothing when it fails. */
  lemma DroppedProvides(s: State, n: CallId)
    requires AllProvided(s) && n in s.calls && !Brings(s, s.calls[n])
    ensures AllProvided(s.(calls := s.calls - {n}))
  {
    var s' := s.(calls := s.calls - {n});
    forall org ensures Provided(s', org) {
      assert Provided(s, org);
      if Coming(s, org, None) {
        var m :| m in s.calls && s.calls[m].org == org && Brings(s, s.calls[m]);
        assert m in s'.calls && Brings(s', s'.calls[m]);
      }
    }
  }

  lemma RemoveProvides(s: State, n: CallId)
    requires CallsFit(s) && CallsAgree(s) && AllProvided(s) && n in s.calls && s.calls[n].Deleting?
      && s.calls[n].phase == Unused
    ensures AllProvided(Removed(s, n)) <==> !LosesDefault(s, Remove(n))
  {
    var c, s' := s.calls[n], Removed(s, n);
    forall org: OrgId
      ensures Defaults(s'.rows, org) == Defaults(s.rows, org) - {c.id}
      ensures HasOrg(s'.rows, org) <==> OthersInOrg(s.rows, org, c.id)
      ensures org != c.org ==> c.id !in Defaults(s.rows, org)
      ensures HasOrg(s'.rows, org) ==> HasOrg(s.rows, org)
    {
      RemovedDefaults(s.rows, c.id, org);
      if id :| id in s'.rows && s'.rows[id].org == org { assert s.rows[id].org == org; }
      if id :| id in s.rows && id != c.id && s.rows[id].org == org { assert id in s'.rows; }
    }
    hide HasOrg, Defaults, OthersInOrg;
    forall org: OrgId ensures Coming(s', org, None) <==> Coming(s, org, Some(c.id)) {
      if Coming(s, org, Some(c.id)) {
        var m :| m in s.calls && s.calls[m].org == org && Brings(s, s.calls[m]) && s.calls[m].id != c.id;
        assert m in s'.calls && Brings(s', s'.calls[m]);
      }
      if Coming(s', org, None) {
        var m :| m in s'.calls && s'.calls[m].org == org && Brings(s', s'.calls[m]);
        assert m in s.calls && Brings(s, s.calls[m]) && s.calls[m].id != c.id;
      }
    }
    forall org: OrgId | org != c.org && Coming(s, org, None) ensures Coming(s', org, None) {
      var m :| m in s.calls && s.calls[m].org == org && Brings(s, s.calls[m]);
      assert s.calls[m].id != c.id;
    }
    hide Coming;
    ProvidedElsewhere(s, s', c.org);
    assert Provided(s, c.org);
  }

  lemma OtherProvides(s: State, e: Event)
    requires AllProvided(s) && (e.CountForCreate? || e.ReadForUpdate? || e.ReadForDelete? || e.CountOthers?
        || e.FindUses?)
    ensures AllProvided(Step(s, e))
  {
    hide HasOrg, Defaults, OthersInOrg, FreshId;
    var s' := Step(s, e);
    forall org ensures Provided(s', org) {
      assert Provided(s, org);
      if Coming(s, org, None) {
        var m :| m in s.calls && s.calls[m].org == org && Brings(s, s.calls[m]);
        assert m in s'.calls && Brings(s', s'.calls[m]);
      }
    }
  }

  /**
   A step keeps a default, or one under way, in every organisation that has profiles if and only
   if it is none of the four ways to lose it.
   */
  lemma SomeDefaultKeptIff(s: State, e: Event)
    requires Inv(s) && AllProvided(s)
    ensures AllProvided(Step(s, e)) <==> !LosesDefault(s, e)
  {
    hide Cleared, Written, Removed, HasOrg, OthersInOrg, Defaults, Coming, HistoriesTrue, CallsFit, CallsAgree;
    hide AllProvided;
    match e
    case ClearDefaults(n) =>
      if n in s.calls && WantsDefault(s.calls[n]) && !s.calls[n].cleared { ClearProvides(s, n); }
    case Write(n) =>
      if n in s.calls && !s.calls[n].Deleting? {
        if WantsDefault(s.calls[n]) ==> s.calls[n].cleared { WriteProvides(s, n); }
      }
    case Remove(n) =>
      if n in s.calls && s.calls[n].Deleting? && s.calls[n].phase == Unused { RemoveProvides(s, n); }
    case _ => OtherProvides(s, e);
  }

  /** The events of a run take no default away and write none too late. */
  ghost predicate Careful(s: State, events: seq<Event>)
    decreases |events|
  {
    events == [] || (!Overtaken(s, events[0]) && !LosesDefault(s, events[0])
        && Careful(Step(s, events[0]), events[1..]))
  }

  ghost predicate NeverOvertaken(s: State, events: seq<Event>)
    decreases |events|
  {
    events == [] || (!Overtaken(s, events[0]) && NeverOvertaken(Step(s, events[0]), events[1..]))
  }

  /**
   In every interleaving of creates, updates and deletes in which no default is written after
   another one since its own clear, each organisation has at most one default. If none of the four
   ways to lose the last one occurs either, an organisation with profiles has exactly one whenever
   no call is under way.
   */
  lemma {:induction false} RunDefaults(s: State, events: seq<Event>)
    requires Inv(s) && AtMostOneDefault(s.rows) && NeverOvertaken(s, events)
    ensures AtMostOneDefault(Run(s, events).rows)
    ensures AllProvided(s) && Careful(s, events) ==> AllProvided(Run(s, events))
    ensures AllProvided(s) && Careful(s, events) && Run(s, events).calls == map[] ==>
      forall org :: HasOrg(Run(s, events).rows, org) ==> Defaults(Run(s, events).rows, org) != {}
    decreases |events|
  {
    if events != [] {
      var s' := Step(s, events[0]);
      OneDefaultKeptIff(s, events[0]);
      StepInv(s, events[0]);
      if AllProvided(s) && Careful(s, events) {
        SomeDefaultKeptIff(s, events[0]);
      }
      hide Inv, AtMostOneDefault, AllProvided, Step, Overtaken, LosesDefault;
      RunDefaults(s', events[1..]);
    } else if AllProvided(s) && s.calls == map[] {
      forall org | HasOrg(s.rows, org) ensures Defaults(s.rows, org) != {} {
        assert Provided(s, org);
      }
    }
  }

  // ---- Calls that nothing interrupts ----

  lemma UndisturbedCreate(s: State, n: CallId, org: OrgId, id: ProfileId, settings: Settings, isDefault: bool)
    requires n !in s.calls && FreshId(s, id)
    ensures var s' := Step(Step(Step(s, CountForCreate(n, org, id, settings, isDefault)), ClearDefaults(n)), Write(n));
      var effective := isDefault || !HasOrg(s.rows, org);
      && s'.rows == (if effective then Clear(s.rows, org) else s.rows)[id := Profile(org, settings, effective)]
      && s'.calls == s.calls
  {
    hide HasOrg, Noted, NotedClear;
    var counted := Step(s, CountForCreate(n, org, id, settings, isDefault));
    assert counted.calls - {n} == s.calls;
    var cleared := Step(counted, ClearDefaults(n));
    assert cleared.calls - {n} == s.calls;
  }

  lemma UndisturbedUpdate(s: State, n: CallId, id: ProfileId, patch: Patch)
    requires n !in s.calls && id in s.rows
    ensures var s' := Step(Step(Step(s, ReadForUpdate(n, id, patch)), ClearDefaults(n)), Write(n));
      var base := if patch.isDefault == Some(true) then Clear(s.rows, s.rows[id].org) else s.rows;
      && s'.rows == base[id := Patched(base[id], patch)]
      && s'.calls == s.calls
  {
    hide Noted, NotedClear;
    var read := Step(s, ReadForUpdate(n, id, patch));
    assert read.calls - {n} == s.calls;
    var cleared := Step(read, ClearDefaults(n));
    assert cleared.calls - {n} == s.calls && id in cleared.rows;
  }

  /** An update whose row has gone by its write fails, and is over. */
  lemma UpdateOfGoneRow(s: State, n: CallId)
    requires n in s.calls && s.calls[n].Updating? && s.calls[n].id !in s.rows
    requires s.calls[n].patch.isDefault == Some(true) ==> s.calls[n].cleared
    ensures Step(s, Write(n)) == s.(calls := s.calls - {n})
  {}

  /** Deleting a default is refused while the organisation has other profiles, and any profile in use. */
  lemma UndisturbedDelete(s: State, n: CallId, id: ProfileId, inUse: bool)
    requires n !in s.calls && id in s.rows
    ensures var s' := Step(Step(Step(Step(s, ReadForDelete(n, id)), CountOthers(n)), FindUses(n, inUse)), Remove(n));
      && s'.rows == (if (s.rows[id].isDefault && OthersInOrg(s.rows, s.rows[id].org, id)) || inUse then s.rows
          else s.rows - {id})
      && s'.calls == s.calls
  {
    hide Noted, OthersInOrg;
    var read := Step(s, ReadForDelete(n, id));
    assert read.calls - {n} == s.calls;
    var counted := Step(read, CountOthers(n));
    assert n in counted.calls ==> counted.calls - {n} == s.calls;
    var found := Step(counted, FindUses(n, inUse));
    assert n in found.calls ==> found.calls - {n} == s.calls;
  }

  /** The update restarts the cameras of its profile: the row it leaves has another fingerprint than the one it read. */
  predicate Restarts(before: Settings, after: Settings) {
    FingerprintProfile(Some(before)) != FingerprintProfile(Some(after))
  }

  /**
   Cameras are restarted by an update exactly when the row it leaves differs in one of the seven
   settings from the row it read; if no other update came between, when one of the fields that it
   carries alters a setting.
   */
  lemma RestartIffChanged(before: Settings, row: Profile, patch: Patch)
    requires PlainSettings(before) && PlainSettings(Patched(row, patch).settings)
    ensures Restarts(before, Patched(row, patch).settings) <==> before != Patched(row, patch).settings
    ensures row.settings == before ==>
      (Restarts(before, Patched(row, patch).settings) <==> Alters(patch, before))
  {
    CanonicalInjective(before, Patched(row, patch).settings);
  }

  // ---- The service ----

  class StreamProfileService {
    var rows: map<ProfileId, Profile>
    var calls: map<CallId, Call>
    ghost var rivals: map<CallId, set<ProfileId>>

    ghost function View(): State
      reads this
    {
      State(rows, calls, rivals)
    }

    constructor (rows: map<ProfileId, Profile>)
      ensures this.rows == rows && View() == State(rows, map[], map[])
    {
      this.rows, calls, rivals := rows, map[], map[];
    }

    /** A create up to its count. */
    method Create(n: CallId, org: OrgId, id: ProfileId, settings: Settings, isDefault: bool)
      requires n !in calls && FreshId(View(), id)
      modifies this
      ensures View() == Step(old(View()), CountForCreate(n, org, id, settings, isDefault))
    {
      calls := calls[n := Creating(id, org, settings, isDefault || !HasOrg(rows, org), false)];
    }

    /** An update up to its read. */
    method Update(n: CallId, id: ProfileId, patch: Patch) returns (r: Result<(), Failure>)
      requires n !in calls
      modifies this
      ensures r == if id in old(rows) then Ok(()) else Err(NotFound)
      ensures View() == Step(old(View()), ReadForUpdate(n, id, patch))
    {
      if id !in rows {
        return Err(NotFound);
      }
      calls := calls[n := Updating(id, rows[id].org, rows[id].settings, patch, false)];
      return Ok(());
    }

    /** The clear of both. */
    method UnsetDefaults(n: CallId)
      requires n in calls && WantsDefault(calls[n]) && !calls[n].cleared
      modifies this
      ensures View() == Step(old(View()), ClearDefaults(n))
    {
      var c := calls[n];
      rivals := NotedClear(View(), c.org)[n := {}];
      rows := Clear(rows, c.org);
      calls := calls[n := c.(cleared := true)];
    }

    method FinishCreate(n: CallId)
      requires n in calls && calls[n].Creating? && (calls[n].isDefault ==> calls[n].cleared)
      modifies this
      ensures View() == Step(old(View()), Write(n))
    {
      var c := calls[n];
      rivals := Noted(View(), c.org, c.id, c.isDefault);
      rows := rows[c.id := Profile(c.org, c.settings, c.isDefault)];
      calls := calls - {n};
    }

    /** The write of an update; `r.value` says whether the cameras on the profile are restarted. */
    method FinishUpdate(n: CallId) returns (r: Result<bool, Failure>)
      requires n in calls && calls[n].Updating? && (calls[n].patch.isDefault == Some(true) ==> calls[n].cleared)
      modifies this
      ensures View() == Step(old(View()), Write(n))
      ensures var c := old(calls)[n];
        r == if c.id !in old(rows) then Err(NotFound)
             else Ok(Restarts(c.before, Patched(old(rows)[c.id], c.patch).settings))
      ensures var c := old(calls)[n];
        r.Ok? && c.id in rows && PlainSettings(c.before) && PlainSettings(rows[c.id].settings) ==>
          (r.value <==> c.before != rows[c.id].settings)
    {
      hide PlainSettings, Canonical;
      var c := calls[n];
      calls := calls - {n};
      if c.id !in rows {
        return Err(NotFound);
      }
      var updated := rows[c.id].(
        settings := PatchedSettings(rows[c.id].settings, c.patch),
        isDefault := c.patch.isDefault.GetOr(rows[c.id].isDefault));
      rivals := Noted(old(View()), updated.org, c.id, updated.isDefault);
      rows := rows[c.id := updated];
      if PlainSettings(c.before) && PlainSettings(updated.settings) {
        CanonicalInjective(c.before, updated.settings);
      }
      r := Ok(FingerprintProfile(Some(c.before)) != FingerprintProfile(Some(updated.settings)));
    }

    /** A deletion up to its read. */
    method Delete(n: CallId, id: ProfileId) returns (r: Result<(), Failure>)
      requires n !in calls
      modifies this
      ensures r == if id in old(rows) then Ok(()) else Err(NotFound)
      ensures View() == Step(old(View()), ReadForDelete(n, id))
    {
      if id !in rows {
        return Err(NotFound);
      }
      calls := calls[n := Deleting(id, rows[id].org, if rows[id].isDefault then DefaultRead else MayGo)];
      return Ok(());
    }

    method CheckOthers(n: CallId) returns (r: Result<(), Failure>)
      requires n in calls && calls[n].Deleting? && calls[n].phase == DefaultRead
      modifies this
      ensures View() == Step(old(View()), CountOthers(n))
      ensures r == if OthersInOrg(old(rows), old(calls)[n].org, old(calls)[n].id) then Err(IsDefault) else Ok(())
    {
      var c := calls[n];
      if OthersInOrg(rows, c.org, c.id) {
        calls := calls - {n};
        return Err(IsDefault);
      }
      calls := calls[n := c.(phase := MayGo)];
      return Ok(());
    }

    method CheckUses(n: CallId, inUse: bool) returns (r: Result<(), Failure>)
      requires n in calls && calls[n].Deleting? && calls[n].phase == MayGo
      modifies this
      ensures View() == Step(old(View()), FindUses(n, inUse))
      ensures r == if inUse then Err(InUse) else Ok(())
    {
      var c := calls[n];
      if inUse {
        calls := calls - {n};
        return Err(InUse);
      }
      calls := calls[n := c.(phase := Unused)];
      return Ok(());
    }

    method FinishDelete(n: CallId)
      requires n in calls && calls[n].Deleting? && calls[n].phase == Unused
      modifies this
      ensures View() == Step(old(View()), Remove(n))
    {
      var c := calls[n];
      rivals := Noted(View(), c.org, c.id, false);
      rows := rows - {c.id};
      calls := calls - {n};
    }
  }
}
