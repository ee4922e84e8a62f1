/**
 Viewer counts and the viewer limit of play requests.

 The counter is the only record of who watches. `watching` is the truth beside it: the plays that
 were admitted and have not stopped.
 */
module ViewerAdmission {
  import opened Common

  datatype Audience = Audience(count: nat, watching: nat, strays: nat)

  const NOBODY := Audience(0, 0, 0)

  /** A limit of zero is no limit. */
  predicate Admits(count: nat, maxViewers: nat) {
    !(maxViewers > 0 && count >= maxViewers)
  }

  function Fewer(count: nat): nat {
    if count == 0 then 0 else count - 1
  }

  /** A stop is either that of an admitted play or a stray one; the service cannot tell. */
  datatype Event = Play(maxViewers: nat) | Stop | StrayStop

  function Step(a: Audience, e: Event): Audience {
    match e
    case Play(maxViewers) =>
      if Admits(a.count, maxViewers) then a.(count := a.count + 1, watching := a.watching + 1) else a
    case Stop => if a.watching > 0 then a.(count := Fewer(a.count), watching := a.watching - 1) else a
    case StrayStop => a.(count := Fewer(a.count), strays := a.strays + 1)
  }

  function Run(a: Audience, events: seq<Event>): Audience
    decreases |events|
  {
    if events == [] then a else Run(Step(a, events[0]), events[1..])
  }

  ghost predicate LimitedTo(events: seq<Event>, maxViewers: nat) {
    forall i | 0 <= i < |events| && events[i].Play? :: events[i].maxViewers == maxViewers
  }

  ghost predicate Inv(a: Audience, maxViewers: nat) {
    a.count <= a.watching <= a.count + a.strays && (maxViewers > 0 ==> a.count <= maxViewers)
  }

  lemma {:induction false} RunInv(a: Audience, events: seq<Event>, maxViewers: nat)
    requires Inv(a, maxViewers) && LimitedTo(events, maxViewers)
    ensures Inv(Run(a, events), maxViewers)
    decreases |events|
  {
    if events != [] {
      RunInv(Step(a, events[0]), events[1..], maxViewers);
    }
  }

  /**
   In every run of plays and stops the count is never above the viewers that watch, and below it
   by at most the number of stray stops: without any it is exact, and the limit holds. With some
   the limit is exceeded by at most their number.
   */
  lemma LimitHoldsUpToStrays(events: seq<Event>, maxViewers: nat)
    requires LimitedTo(events, maxViewers)
    ensures var a := Run(NOBODY, events);
      && a.count <= a.watching <= a.count + a.strays
      && (a.strays == 0 ==> a.count == a.watching)
      && (maxViewers > 0 ==> a.watching <= maxViewers + a.strays)
  {
    RunInv(NOBODY, events, maxViewers);
  }

  /** A play gets in exactly without a limit or below it, and is then counted; a stop counts down to zero. */
  lemma AdmittedIff(a: Audience, maxViewers: nat)
    ensures var a' := Step(a, Play(maxViewers));
      && (a'.watching == a.watching + 1 <==> maxViewers == 0 || a.count < maxViewers)
      && (a' == a || a' == Audience(a.count + 1, a.watching + 1, a.strays))
    ensures Step(a, StrayStop) == Audience(if a.count > 0 then a.count - 1 else 0, a.watching, a.strays + 1)
    ensures a.watching > 0 ==> Step(a, Stop) == Audience(Step(a, StrayStop).count, a.watching - 1, a.strays)
  {}

  /** A full house and then `n` times a stray stop and a play. */
  function Intruders(n: nat, maxViewers: nat): seq<Event> {
    if n == 0 then [] else [StrayStop, Play(maxViewers)] + Intruders(n - 1, maxViewers)
  }

  lemma {:induction false} IntrudersGetIn(a: Audience, n: nat, maxViewers: nat)
    requires a.count == maxViewers > 0
    ensures Run(a, Intruders(n, maxViewers)) == Audience(maxViewers, a.watching + n, a.strays + n)
    ensures LimitedTo(Intruders(n, maxViewers), maxViewers)
    decreases n
  {
    if n > 0 {
      var rest := Intruders(n - 1, maxViewers);
      var events := Intruders(n, maxViewers);
      var a' := Step(Step(a, StrayStop), Play(maxViewers));
      assert events[1..] == [Play(maxViewers)] + rest && events[1..][1..] == rest;
      assert Run(a, events) == Run(Step(a, StrayStop), events[1..]) == Run(a', rest);
      IntrudersGetIn(a', n - 1, maxViewers);
    }
  }

  class StatusService {
    var viewerCounts: map<CameraId, nat>

    function GetViewerCount(c: CameraId): nat
      reads this
    {
      if c in viewerCounts then viewerCounts[c] else 0
    }

    constructor ()
      ensures forall c :: GetViewerCount(c) == 0
    {
      viewerCounts := map[];
    }

    /** The admission of a play whose token and domain have been accepted. */
    method OnPlay(c: CameraId, maxViewers: nat) returns (allowed: bool)
      modifies this
      ensures allowed == Admits(old(GetViewerCount(c)), maxViewers)
      ensures allowed <==> maxViewers == 0 || old(GetViewerCount(c)) < maxViewers
      ensures GetViewerCount(c) == old(GetViewerCount(c)) + (if allowed then 1 else 0)
      ensures forall watching, strays ::
        GetViewerCount(c) == Step(Audience(old(GetViewerCount(c)), watching, strays), Play(maxViewers)).count
      ensures forall d | d != c :: GetViewerCount(d) == old(GetViewerCount(d))
    {
      if maxViewers > 0 && GetViewerCount(c) >= maxViewers {
        return false;
      }
      viewerCounts := viewerCounts[c := GetViewerCount(c) + 1];
      return true;
    }

    method OnStop(c: CameraId)
      modifies this
      ensures forall watching, strays ::
        GetViewerCount(c) == Step(Audience(old(GetViewerCount(c)), watching, strays), StrayStop).count
      ensures old(GetViewerCount(c)) == GetViewerCount(c) + (if old(GetViewerCount(c)) > 0 then 1 else 0)
      ensures forall d | d != c :: GetViewerCount(d) == old(GetViewerCount(d))
    {
      var count := GetViewerCount(c) - 1;
      viewerCounts := viewerCounts[c := if count > 0 then count else 0];
    }
  }
}
