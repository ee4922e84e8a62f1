/**
 Camera tags: the two normal forms, the lowercase shadow column kept by the write hooks, the
 indexed filter, the bulk add and remove, and the comparison used by the audit diff.

 Case folding and white space are ASCII.
 */
module Tags {
  import opened Common

  // ---- Lower case and trimming ----

  function LowerChar(c: char): char {
    if 'A' <= c <= 'Z' then (c as int + 32) as char else c
  }

  function Lower(s: string): (r: string)
    ensures |r| == |s|
  {
    seq(|s|, i requires 0 <= i < |s| => LowerChar(s[i]))
  }

  predicate IsSpace(c: char) {
    c == ' ' || 9 <= c as int <= 13
  }

  function TrimStart(s: string): (r: string)
    ensures r == "" || !IsSpace(r[0])
    ensures s == "" || !IsSpace(s[0]) ==> r == s
  {
    if s != "" && IsSpace(s[0]) then TrimStart(s[1..]) else s
  }

  function TrimEnd(s: string): (r: string)
    ensures r == "" || !IsSpace(r[|r| - 1])
    ensures s == "" || !IsSpace(s[|s| - 1]) ==> r == s
    ensures r <= s
  {
    if s != "" && IsSpace(s[|s| - 1]) then TrimEnd(s[..|s| - 1]) else s
  }

  function Trim(s: string): (r: string)
    ensures r == "" || (!IsSpace(r[0]) && !IsSpace(r[|r| - 1]))
    ensures s == "" || (!IsSpace(s[0]) && !IsSpace(s[|s| - 1])) ==> r == s
  {
    TrimEnd(TrimStart(s))
  }

  /** Lower case identifies exactly the two cases of a letter, and leaves no capital. */
  lemma LowerIdentifies(c: char, d: char)
    ensures LowerChar(c) == LowerChar(d)
      <==> c == d
           || ('A' <= c <= 'Z' && d as int - 'a' as int == c as int - 'A' as int)
           || ('A' <= d <= 'Z' && c as int - 'a' as int == d as int - 'A' as int)
    ensures !('A' <= LowerChar(c) <= 'Z')
  {}

  lemma LowerByChar(s: string, t: string)
    ensures Lower(s) == Lower(t)
      <==> |s| == |t| && forall i | 0 <= i < |s| :: LowerChar(s[i]) == LowerChar(t[i])
    ensures Lower(Lower(s)) == Lower(s)
  {
    if Lower(s) == Lower(t) {
      assert |s| == |t|;
      forall i | 0 <= i < |s| ensures LowerChar(s[i]) == LowerChar(t[i]) {
        assert Lower(s)[i] == Lower(t)[i];
      }
    }
  }

  /** A blank, or one of tab to carriage return. */
  predicate BlankChar(c: char) {
    c == ' ' || '\t' <= c <= '\r'
  }

  ghost predicate Blank(s: string) {
    forall i | 0 <= i < |s| :: BlankChar(s[i])
  }

  lemma {:induction false} TrimStartTakesBlanks(s: string)
    ensures exists a :: Blank(a) && s == a + TrimStart(s)
  {
    if s != "" && IsSpace(s[0]) {
      TrimStartTakesBlanks(s[1..]);
      var a :| Blank(a) && s[1..] == a + TrimStart(s[1..]);
      assert Blank([s[0]] + a) && s == ([s[0]] + a) + TrimStart(s);
    } else {
      assert Blank("") && s == "" + TrimStart(s);
    }
  }

  lemma {:induction false} TrimEndTakesBlanks(s: string)
    ensures exists b :: Blank(b) && s == TrimEnd(s) + b
  {
    if s != "" && IsSpace(s[|s| - 1]) {
      var n := |s| - 1;
      TrimEndTakesBlanks(s[..n]);
      var b :| Blank(b) && s[..n] == TrimEnd(s[..n]) + b;
      assert Blank(b + [s[n]]) && s == TrimEnd(s) + (b + [s[n]]);
    } else {
      assert Blank("") && s == TrimEnd(s) + "";
    }
  }

  /** Trimming takes blanks from both ends, as far as they go. */
  lemma TrimTakesBlanks(s: string)
    ensures exists a, b :: Blank(a) && Blank(b) && s == a + Trim(s) + b
    ensures Trim(s) != "" ==> !BlankChar(Trim(s)[0]) && !BlankChar(Trim(s)[|Trim(s)| - 1])
  {
    TrimStartTakesBlanks(s);
    var t := TrimStart(s);
    var a :| Blank(a) && s == a + t;
    TrimEndTakesBlanks(t);
    var b :| Blank(b) && t == TrimEnd(t) + b;
    assert Trim(s) == TrimEnd(t);
    assert s == a + Trim(s) + b;
  }

  /** Tags with the same key are the same tag up to case and surrounding white space. */
  function Key(tag: string): string {
    Lower(Trim(tag))
  }

  // ---- The shadow column's normal form ----

  function NormalDb(raw: seq<string>): seq<string> {
    if raw == [] then []
    else
      var before := NormalDb(raw[..|raw| - 1]);
      var k := Key(raw[|raw| - 1]);
      if k == "" || k in before then before else before + [k]
  }

  method NormalizeForDb(raw: seq<string>) returns (out: seq<string>)
    ensures out == NormalDb(raw)
  {
    var seen: set<string> := {};
    out := [];
    for i := 0 to |raw|
      invariant out == NormalDb(raw[..i])
      invariant forall k :: k in seen <==> k in out
    {
      assert raw[..i + 1][..i] == raw[..i];
      var k := Key(raw[i]);
      if k == "" || k in seen {
        continue;
      }
      seen := seen + {k};
      out := out + [k];
    }
    assert raw[..|raw|] == raw;
  }

  ghost predicate Distinct(s: seq<string>) {
    forall i, j | 0 <= i < j < |s| :: s[i] != s[j]
  }

  ghost predicate SomeKey(raw: seq<string>, k: string) {
    exists i :: 0 <= i < |raw| && Key(raw[i]) == k
  }

  /** The column holds each non-empty key of the tags once and nothing else. */
  lemma {:induction false} NormalDbKeys(raw: seq<string>)
    ensures Distinct(NormalDb(raw))
    ensures forall k :: k in NormalDb(raw) <==> k != "" && SomeKey(raw, k)
  {
    if raw != [] {
      var n := |raw| - 1;
      var front := raw[..n];
      NormalDbKeys(front);
      forall k ensures SomeKey(raw, k) <==> SomeKey(front, k) || k == Key(raw[n]) {
        if SomeKey(raw, k) {
          var i :| 0 <= i < |raw| && Key(raw[i]) == k;
          assert i < n ==> front[i] == raw[i];
        }
        if SomeKey(front, k) {
          var i :| 0 <= i < |front| && Key(front[i]) == k;
          assert raw[i] == front[i];
        }
      }
    }
  }

  // ---- The displayed form ----

  const TAG_MAX_LENGTH := 50
  const TAG_MAX_PER_CAMERA := 20

  datatype TagError = EmptyTag | TooLong | TooMany

  predicate HasKey(tags: seq<string>, k: string) {
    exists i :: 0 <= i < |tags| && Key(tags[i]) == k
  }

  /** The loop of the display normal form over `raw`, without the final count check. */
  function Display(raw: seq<string>): Result<seq<string>, TagError> {
    if raw == [] then Ok([])
    else
      match Display(raw[..|raw| - 1])
      case Err(e) => Err(e)
      case Ok(before) =>
        var trimmed := Trim(raw[|raw| - 1]);
        if trimmed == "" then Ok(before)
        else if |trimmed| > TAG_MAX_LENGTH then Err(TooLong)
        else if HasKey(before, Key(trimmed)) then Ok(before)
        else Ok(before + [trimmed])
  }

  function NormalDisplay(raw: seq<string>): Result<seq<string>, TagError> {
    var r := Display(raw);
    if r.Ok? && |r.value| > TAG_MAX_PER_CAMERA then Err(TooMany) else r
  }

  lemma TrimTwice(s: string)
    ensures Trim(Trim(s)) == Trim(s)
  {}

  method NormalizeForDisplay(raw: seq<string>) returns (r: Result<seq<string>, TagError>)
    ensures r == NormalDisplay(raw)
  {
    var seen: set<string> := {};
    var out: seq<string> := [];
    for i := 0 to |raw|
      invariant Display(raw[..i]) == Ok(out)
      invariant forall k :: k in seen <==> HasKey(out, k)
    {
      assert raw[..i + 1][..i] == raw[..i];
      var trimmed := Trim(raw[i]);
      if trimmed == "" {
        continue;
      }
      TrimTwice(raw[i]);
      if |trimmed| > TAG_MAX_LENGTH {
        DisplayStops(raw, i + 1);
        return Err(TooLong);
      }
      var k := Lower(trimmed);
      if k in seen {
        continue;
      }
      ghost var before := out;
      seen := seen + {k};
      out := out + [trimmed];
      HasKeyAppend(before, trimmed);
    }
    assert raw[..|raw|] == raw;
    r := if |out| > TAG_MAX_PER_CAMERA then Err(TooMany) else Ok(out);
  }

  lemma HasKeyAppend(tags: seq<string>, last: string)
    ensures forall k :: HasKey(tags + [last], k) <==> HasKey(tags, k) || k == Key(last)
  {
    forall k ensures HasKey(tags + [last], k) <==> HasKey(tags, k) || k == Key(last) {
      var all := tags + [last];
      assert all[|tags|] == last;
      if HasKey(tags, k) {
        var i :| 0 <= i < |tags| && Key(tags[i]) == k;
        assert all[i] == tags[i];
      }
    }
  }

  lemma {:induction false} DisplayStops(raw: seq<string>, n: nat)
    requires n <= |raw| && Display(raw[..n]).Err?
    ensures Display(raw) == Display(raw[..n])
    decreases |raw| - n
  {
    if n == |raw| {
      assert raw[..n] == raw;
    } else {
      assert raw[..n + 1][..n] == raw[..n];
      DisplayStops(raw, n + 1);
    }
  }

  function Keys(tags: seq<string>): seq<string> {
    seq(|tags|, i requires 0 <= i < |tags| => Key(tags[i]))
  }

  ghost predicate TooLongAt(raw: seq<string>, i: nat) {
    i < |raw| && |Trim(raw[i])| > 50
  }

  /** The display form fails exactly for a tag of more than 50 characters or for more than 20 tags. */
  lemma {:induction false} DisplayFailsIff(raw: seq<string>)
    ensures Display(raw) == Err(TooLong) <==> exists i: nat :: TooLongAt(raw, i)
    ensures Display(raw).Err? ==> Display(raw) == Err(TooLong)
    ensures NormalDisplay(raw) == Err(TooMany) <==> Display(raw).Ok? && |NormalDb(raw)| > 20
    ensures NormalDisplay(raw).Err? <==> Display(raw).Err? || |NormalDb(raw)| > 20
  {
    if Display(raw).Ok? {
      DisplayMatchesDb(raw);
    }
    if raw != [] {
      var n := |raw| - 1;
      DisplayFailsIff(raw[..n]);
      forall i: nat | i < n ensures TooLongAt(raw, i) <==> TooLongAt(raw[..n], i) {}
      if |Trim(raw[n])| > 50 {
        assert TooLongAt(raw, n);
      }
    }
  }

  /** Tag `t` is tag `i` trimmed, the first of `raw` with its key. */
  ghost predicate FirstOfKey(raw: seq<string>, t: string, i: nat) {
    i < |raw| && t == Trim(raw[i]) && forall j | 0 <= j < i :: Key(raw[j]) != Key(raw[i])
  }

  lemma DisplayHasKeys(raw: seq<string>)
    requires Display(raw).Ok?
    ensures forall j | 0 <= j < |raw| && Key(raw[j]) != "" :: HasKey(Display(raw).value, Key(raw[j]))
  {
    DisplayMatchesDb(raw);
    NormalDbKeys(raw);
    var shown := Display(raw).value;
    hide Display, NormalDb, Key;
    forall j | 0 <= j < |raw| && Key(raw[j]) != "" ensures HasKey(shown, Key(raw[j])) {
      assert SomeKey(raw, Key(raw[j]));
      var i :| 0 <= i < |shown| && Keys(shown)[i] == Key(raw[j]);
    }
  }

  /** The last tag comes in only if its key is new. */
  lemma DisplayNext(raw: seq<string>)
    requires raw != [] && Display(raw).Ok?
    ensures var n := |raw| - 1;
      && Display(raw[..n]).Ok?
      && var before := Display(raw[..n]).value;
      forall t | t in Display(raw).value && t !in before ::
        t == Trim(raw[n]) && Key(raw[n]) != "" && !HasKey(before, Key(raw[n]))
  {
    TrimTwice(raw[|raw| - 1]);
    hide HasKey;
  }

  /** The tags shown are the first of their keys, trimmed and otherwise as they were written. */
  lemma {:induction false} DisplayKeepsFirst(raw: seq<string>)
    requires Display(raw).Ok?
    ensures forall t | t in Display(raw).value :: exists i: nat :: FirstOfKey(raw, t, i)
  {
    if raw != [] {
      var n := |raw| - 1;
      var front := raw[..n];
      DisplayKeepsFirst(front);
      DisplayNext(raw);
      DisplayHasKeys(front);
      var before := Display(front).value;
      hide Display, HasKey, Key, Trim;
      forall j | 0 <= j < n ensures front[j] == raw[j] {}
      forall t | t in Display(raw).value ensures exists i: nat :: FirstOfKey(raw, t, i) {
        if t in before {
          var i: nat :| FirstOfKey(front, t, i);
          assert FirstOfKey(raw, t, i);
        } else {
          assert FirstOfKey(raw, t, n);
        }
      }
    }
  }

  /** What is displayed and what is indexed are the same tags: key by key, in the same order. */
  lemma {:induction false} DisplayMatchesDb(raw: seq<string>)
    requires Display(raw).Ok?
    ensures Keys(Display(raw).value) == NormalDb(raw)
    ensures forall i | 0 <= i < |Display(raw).value| ::
      var t := Display(raw).value[i]; Trim(t) == t && t != "" && |t| <= TAG_MAX_LENGTH
  {
    if raw != [] {
      var n := |raw| - 1;
      DisplayMatchesDb(raw[..n]);
      TrimTwice(raw[n]);
      var before := Display(raw[..n]).value;
      forall k ensures HasKey(before, k) <==> k in Keys(before) {
        if HasKey(before, k) {
          var i :| 0 <= i < |before| && Key(before[i]) == k;
          assert Keys(before)[i] == k;
        }
      }
      assert Lower(Trim(raw[n])) == "" <==> Trim(raw[n]) == "";
      assert Keys(before + [Trim(raw[n])]) == Keys(before) + [Key(Trim(raw[n]))];
    }
  }

  // ---- The write hooks ----

  datatype TagRow = TagRow(tags: seq<string>, tagsNormalized: seq<string>)

  ghost predicate Indexed(row: TagRow) {
    row.tagsNormalized == NormalDb(row.tags)
  }

  /** The camera table behind the hooks; a write without tags leaves both columns alone. */
  class CameraTable {
    var rows: map<CameraId, TagRow>

    ghost predicate Valid()
      reads this
    {
      forall id | id in rows :: Indexed(rows[id])
    }

    constructor ()
      ensures Valid() && rows == map[]
    {
      rows := map[];
    }

    method Create(id: CameraId, tags: Option<seq<string>>)
      requires Valid() && id !in rows
      modifies this
      ensures Valid() && rows.Keys == old(rows.Keys) + {id}
      ensures rows[id].tags == tags.GetOr([]) && rows == old(rows)[id := rows[id]]
    {
      var normalized: seq<string> := [];
      if tags.Some? {
        normalized := NormalizeForDb(tags.value);
      }
      rows := rows[id := TagRow(tags.GetOr([]), normalized)];
    }

    method Update(id: CameraId, tags: Option<seq<string>>)
      requires Valid() && id in rows
      modifies this
      ensures Valid() && rows.Keys == old(rows.Keys)
      ensures rows[id].tags == tags.GetOr(old(rows)[id].tags) && rows == old(rows)[id := rows[id]]
    {
      if tags.Some? {
        var normalized := NormalizeForDb(tags.value);
        rows := rows[id := TagRow(tags.value, normalized)];
      }
    }

    method Upsert(id: CameraId, create: Option<seq<string>>, update: Option<seq<string>>)
      requires Valid()
      modifies this
      ensures Valid() && rows.Keys == old(rows.Keys) + {id}
      ensures rows[id].tags == if id in old(rows) then update.GetOr(old(rows)[id].tags) else create.GetOr([])
      ensures rows == old(rows)[id := rows[id]]
    {
      if id in rows {
        Update(id, update);
      } else {
        Create(id, create);
      }
    }

    /** The tag filter of the camera list: a query of blank tags is no filter at all. */
    method FindAllCameras(query: seq<string>) returns (found: set<CameraId>)
      requires Valid()
      ensures found == set id | id in rows
        && ((forall i | 0 <= i < |query| :: Key(query[i]) == "") || SharesTag(rows[id].tags, query))
    {
      hide NormalDb, SharesTag, Key;
      var normalized: seq<string> := [];
      for i := 0 to |query|
        invariant forall k :: k in normalized <==> k != "" && SomeKey(query[..i], k)
      {
        SomeKeyAppend(query, i);
        var k := Key(query[i]);
        if k != "" {
          normalized := normalized + [k];
        }
      }
      assert query[..|query|] == query;
      if normalized == [] {
        forall i | 0 <= i < |query| ensures Key(query[i]) == "" {
          assert Key(query[i]) !in normalized;
        }
        return rows.Keys;
      }
      assert SomeKey(query, normalized[0]) && normalized[0] in normalized;
      found := set id | id in rows && exists k :: k in normalized && k in rows[id].tagsNormalized;
      forall id | id in rows
        ensures SharesTag(rows[id].tags, query) <==> exists k :: k in normalized && k in rows[id].tagsNormalized
      {
        SharedKeys(rows[id].tags, query, normalized);
      }
    }
  }

  lemma SharedKeys(tags: seq<string>, query: seq<string>, normalized: seq<string>)
    requires forall k :: k in normalized <==> k != "" && SomeKey(query, k)
    ensures SharesTag(tags, query) <==> exists k :: k in normalized && k in NormalDb(tags)
  {
    NormalDbKeys(tags);
    hide NormalDb, Key;
    if SharesTag(tags, query) {
      var i, j :| 0 <= i < |tags| && 0 <= j < |query| && Key(tags[i]) == Key(query[j]) != "";
      assert Key(query[j]) in normalized && Key(query[j]) in NormalDb(tags);
    }
  }

  lemma SomeKeyAppend(raw: seq<string>, i: nat)
    requires i < |raw|
    ensures forall k :: SomeKey(raw[..i + 1], k) <==> SomeKey(raw[..i], k) || k == Key(raw[i])
  {
    forall k ensures SomeKey(raw[..i + 1], k) <==> SomeKey(raw[..i], k) || k == Key(raw[i]) {
      assert raw[..i + 1][i] == raw[i];
      if SomeKey(raw[..i], k) {
        var j :| 0 <= j < i && Key(raw[..i][j]) == k;
        assert raw[..i + 1][j] == raw[..i][j];
      }
      if SomeKey(raw[..i + 1], k) {
        var j :| 0 <= j < i + 1 && Key(raw[..i + 1][j]) == k;
        assert j < i ==> raw[..i][j] == raw[..i + 1][j];
      }
    }
  }

  /** Some tag equals some query tag up to case and trimming. */
  ghost predicate SharesTag(tags: seq<string>, query: seq<string>) {
    exists i, j :: 0 <= i < |tags| && 0 <= j < |query| && Key(tags[i]) == Key(query[j]) != ""
  }

  // ---- Bulk add and remove ----

  predicate HasLower(tags: seq<string>, k: string) {
    exists i :: 0 <= i < |tags| && Lower(tags[i]) == k
  }

  function WithoutLower(tags: seq<string>, k: string): (r: seq<string>)
    ensures |r| <= |tags|
    ensures |r| == |tags| <==> !HasLower(tags, k)
    ensures !HasLower(tags, k) ==> r == tags
  {
    if tags == [] then []
    else
      var front := tags[..|tags| - 1];
      assert HasLower(front, k) ==> HasLower(tags, k) by {
        if HasLower(front, k) {
          var i :| 0 <= i < |front| && Lower(front[i]) == k;
          assert Lower(tags[i]) == k;
        }
      }
      assert forall i | 0 <= i < |front| :: front[i] == tags[i];
      WithoutLower(front, k) + (if Lower(tags[|tags| - 1]) == k then [] else [tags[|tags| - 1]])
  }

  lemma RemovalOfOne(tags: seq<string>, t: string, k: string)
    ensures WithoutLower(tags + [t], k) == WithoutLower(tags, k) + (if Lower(t) == k then [] else [t])
  {
    assert (tags + [t])[..|tags|] == tags;
  }

  lemma Associates(a: seq<string>, b: seq<string>, c: seq<string>)
    ensures (a + b) + c == a + (b + c)
  {}

  /** Removal works tag by tag and in order: it takes exactly the tags that are `k` in lower case. */
  lemma {:induction false} RemovalIsFilter(tags: seq<string>, more: seq<string>, k: string)
    ensures WithoutLower(tags + more, k) == WithoutLower(tags, k) + WithoutLower(more, k)
    ensures forall t :: WithoutLower([t], k) == if Lower(t) == k then [] else [t]
  {
    hide HasLower, Lower;
    if more == [] {
      assert tags + more == tags && WithoutLower(more, k) == [];
    } else {
      var n := |more| - 1;
      var front, x := more[..n], more[n];
      var last := if Lower(x) == k then [] else [x];
      RemovalOfOne(tags + front, x, k);
      RemovalOfOne(front, x, k);
      assert front + [x] == more;
      Associates(tags, front, [x]);
      hide WithoutLower;
      RemovalIsFilter(tags, front, k);
      Associates(WithoutLower(tags, k), WithoutLower(front, k), last);
    }
  }

  /** `after` is `before` without the tags that equal the target up to case. */
  ghost predicate TakenFrom(before: seq<string>, after: seq<string>, target: string) {
    forall t :: multiset(after)[t] == if Lower(t) == Lower(target) then 0 else multiset(before)[t]
  }

  lemma {:induction false} RemovalKeepsOthers(tags: seq<string>, target: string)
    ensures TakenFrom(tags, WithoutLower(tags, Lower(target)), target)
  {
    if tags != [] {
      var n := |tags| - 1;
      assert tags == tags[..n] + [tags[n]];
      RemovalKeepsOthers(tags[..n], target);
    }
  }

  datatype BulkVerb = Add | Remove

  /** One camera's turn: the new tags, or `None` when the camera is skipped as unchanged. */
  function TagTurn(verb: BulkVerb, before: seq<string>, target: string): Result<Option<seq<string>>, TagError> {
    match verb
    case Add =>
      if HasLower(before, Lower(target)) then Ok(None)
      else (match NormalDisplay(before + [target])
            case Err(e) => Err(e)
            case Ok(after) => Ok(Some(after)))
    case Remove =>
      var after := WithoutLower(before, Lower(target));
      Ok(if |after| == |before| then None else Some(after))
  }

  /**
   A turn by its effect. A remove never fails, takes exactly the target's tags, and skips a camera
   without any; an add skips a camera that has the target and otherwise leaves it with the target.
   */
  lemma TurnOutcome(verb: BulkVerb, before: seq<string>, target: string)
    requires Trim(target) == target && target != ""
    ensures var turn := TagTurn(verb, before, target);
      var has := exists i :: 0 <= i < |before| && Lower(before[i]) == Lower(target);
      && (verb == Remove ==>
            && turn.Ok?
            && (turn.value.Some? <==> has)
            && (turn.value.Some? ==> TakenFrom(before, turn.value.value, target)))
      && (verb == Add ==>
            && (turn == Ok(None) <==> has)
            && (turn.Err? <==> !has && NormalDisplay(before + [target]).Err?)
            && (turn.Ok? && turn.value.Some? ==>
                  && Keys(turn.value.value) == NormalDb(before + [target])
                  && exists i :: 0 <= i < |turn.value.value| && Lower(turn.value.value[i]) == Lower(target)))
  {
    if verb == Remove {
      RemovalKeepsOthers(before, target);
    } else if NormalDisplay(before + [target]).Ok? {
      AddedIsPresent(before, target);
      DisplayMatchesDb(before + [target]);
    }
  }

  /** The rows after the turns of `ids`, in order, up to the first failing one. */
  function AfterTurns(rows: map<CameraId, TagRow>, ids: seq<CameraId>, verb: BulkVerb, target: string)
    : map<CameraId, TagRow>
    requires forall i | 0 <= i < |ids| :: ids[i] in rows
  {
    if ids == [] then rows
    else
      var n := |ids| - 1;
      var before := AfterTurns(rows, ids[..n], verb, target);
      var turn := TagTurn(verb, rows[ids[n]].tags, target);
      if turn.Ok? && turn.value.Some?
      then before[ids[n] := TagRow(turn.value.value, NormalDb(turn.value.value))] else before
  }

  lemma {:induction false} TurnsTouchOnlyTheirs(rows: map<CameraId, TagRow>, ids: seq<CameraId>, verb: BulkVerb,
    target: string)
    requires forall i | 0 <= i < |ids| :: ids[i] in rows
    ensures AfterTurns(rows, ids, verb, target).Keys == rows.Keys
    ensures forall id | id in rows && id !in ids :: AfterTurns(rows, ids, verb, target)[id] == rows[id]
  {
    if ids != [] {
      TurnsTouchOnlyTheirs(rows, ids[..|ids| - 1], verb, target);
    }
  }

  /** A camera's row after the loop is that of its own turn on its own tags. */
  lemma {:induction false} OwnTurn(rows: map<CameraId, TagRow>, ids: seq<CameraId>, i: nat, verb: BulkVerb,
    target: string)
    requires i < |ids| && Distinct(ids) && forall k | 0 <= k < |ids| :: ids[k] in rows
    ensures var after := AfterTurns(rows, ids, verb, target);
      var turn := TagTurn(verb, rows[ids[i]].tags, target);
      && ids[i] in after
      && after[ids[i]] ==
           if turn.Ok? && turn.value.Some? then TagRow(turn.value.value, NormalDb(turn.value.value)) else rows[ids[i]]
  {
    hide TagTurn, NormalDb;
    var n := |ids| - 1;
    NextTurn(rows, ids, n, verb, target);
    assert ids[..n + 1] == ids;
    if i < n {
      OwnTurn(rows, ids[..n], i, verb, target);
      assert ids[..n][i] == ids[i] != ids[n];
    }
  }

  /** The tags of a camera after the action. */
  ghost predicate Acted(verb: BulkVerb, before: seq<string>, after: seq<string>, target: string) {
    match verb
    case Remove => TakenFrom(before, after, target)
    case Add => if HasLower(before, Lower(target)) then after == before else Keys(after) == NormalDb(before + [target])
  }

  lemma ActedByTurn(verb: BulkVerb, before: seq<string>, target: string)
    requires Trim(target) == target && target != ""
    ensures var turn := TagTurn(verb, before, target);
      turn.Ok? ==> Acted(verb, before, turn.value.GetOr(before), target)
  {
    TurnOutcome(verb, before, target);
    RemovalKeepsOthers(before, target);
  }

  lemma NextTurn(rows: map<CameraId, TagRow>, ids: seq<CameraId>, i: nat, verb: BulkVerb, target: string)
    requires i < |ids| && Distinct(ids) && forall k | 0 <= k < |ids| :: ids[k] in rows
    ensures var before := AfterTurns(rows, ids[..i], verb, target);
      var after := AfterTurns(rows, ids[..i + 1], verb, target);
      var turn := TagTurn(verb, rows[ids[i]].tags, target);
      && ids[i] in before && before[ids[i]] == rows[ids[i]]
      && (turn.Err? || turn.value.None? ==> after == before)
      && (turn.Ok? && turn.value.Some? ==>
            after == before[ids[i] := TagRow(turn.value.value, NormalDb(turn.value.value))])
  {
    TurnsTouchOnlyTheirs(rows, ids[..i], verb, target);
    assert ids[i] !in ids[..i];
    assert ids[..i + 1][..i] == ids[..i];
  }

  /** One camera's turn; only its own row can change. */
  method TurnOne(table: CameraTable, id: CameraId, verb: BulkVerb, target: string) returns (r: Result<bool, TagError>)
    requires table.Valid() && id in table.rows
    modifies table
    ensures table.Valid()
    ensures var turn := TagTurn(verb, old(table.rows)[id].tags, target);
      match turn
      case Err(e) => r == Err(e) && table.rows == old(table.rows)
      case Ok(None) => r == Ok(false) && table.rows == old(table.rows)
      case Ok(Some(after)) => r == Ok(true) && table.rows == old(table.rows)[id := TagRow(after, NormalDb(after))]
  {
    var before := table.rows[id].tags;
    var after: seq<string>;
    if verb == Add {
      if HasLower(before, Lower(target)) {
        return Ok(false);
      }
      var normal := NormalizeForDisplay(before + [target]);
      if normal.Err? {
        return Err(normal.error);
      }
      after := normal.value;
    } else {
      after := WithoutLower(before, Lower(target));
      if |after| == |before| {
        return Ok(false);
      }
    }
    table.Update(id, Some(after));
    r := Ok(true);
  }

  /** The loop got as far as `done` cameras; an error is that of the next one's turn. */
  ghost predicate StoppedAfter(rows: map<CameraId, TagRow>, after: map<CameraId, TagRow>, ids: seq<CameraId>, done: nat,
                               verb: BulkVerb, target: string, r: Result<nat, TagError>)
    requires done <= |ids| && forall k | 0 <= k < |ids| :: ids[k] in rows
  {
    && after == AfterTurns(rows, ids[..done], verb, target)
    && (r.Ok? ==> done == |ids|)
    && (r.Err? ==> done < |ids| && TagTurn(verb, rows[ids[done]].tags, target) == Err(r.error))
  }

  /** The cameras in `ids` whose tags are different. */
  ghost function Differ(rows: map<CameraId, TagRow>, after: map<CameraId, TagRow>, ids: seq<CameraId>): set<CameraId> {
    set id <- ids | id in rows && id in after && after[id].tags != rows[id].tags
  }

  lemma TurnChanges(verb: BulkVerb, before: seq<string>, target: string)
    requires Trim(target) == target && target != ""
    ensures var turn := TagTurn(verb, before, target); turn.Ok? && turn.value.Some? ==> turn.value.value != before
  {
    if verb == Add && NormalDisplay(before + [target]).Ok? {
      AddedIsPresent(before, target);
    }
  }

  lemma NextDiffers(rows: map<CameraId, TagRow>, ids: seq<CameraId>, i: nat, verb: BulkVerb, target: string)
    requires i < |ids| && Distinct(ids) && forall k | 0 <= k < |ids| :: ids[k] in rows
    requires Trim(target) == target && target != ""
    ensures var turn := TagTurn(verb, rows[ids[i]].tags, target);
      Differ(rows, AfterTurns(rows, ids[..i + 1], verb, target), ids[..i + 1])
        == Differ(rows, AfterTurns(rows, ids[..i], verb, target), ids[..i])
           + (if turn.Ok? && turn.value.Some? then {ids[i]} else {})
    ensures ids[i] !in Differ(rows, AfterTurns(rows, ids[..i], verb, target), ids[..i])
  {
    NextTurn(rows, ids, i, verb, target);
    TurnChanges(verb, rows[ids[i]].tags, target);
    hide AfterTurns, TagTurn, NormalDb;
    assert ids[..i + 1] == ids[..i] + [ids[i]];
  }

  /** Every camera of `ids` has been acted on, and no other one. */
  ghost predicate AllActed(rows: map<CameraId, TagRow>, after: map<CameraId, TagRow>, ids: seq<CameraId>,
                           verb: BulkVerb, target: string) {
    && after.Keys == rows.Keys
    && (forall id | id in ids && id in rows :: Acted(verb, rows[id].tags, after[id].tags, target))
    && (forall id | id in rows && id !in ids :: after[id] == rows[id])
  }

  lemma TurnsAct(rows: map<CameraId, TagRow>, ids: seq<CameraId>, verb: BulkVerb, target: string)
    requires Distinct(ids) && forall k | 0 <= k < |ids| :: ids[k] in rows
    requires Trim(target) == target && target != ""
    requires forall i | 0 <= i < |ids| :: TagTurn(verb, rows[ids[i]].tags, target).Ok?
    ensures AllActed(rows, AfterTurns(rows, ids, verb, target), ids, verb, target)
  {
    TurnsTouchOnlyTheirs(rows, ids, verb, target);
    var after := AfterTurns(rows, ids, verb, target);
    hide AfterTurns, TagTurn, NormalDb, Acted;
    forall i | 0 <= i < |ids| ensures Acted(verb, rows[ids[i]].tags, after[ids[i]].tags, target) {
      OwnTurn(rows, ids, i, verb, target);
      ActedByTurn(verb, rows[ids[i]].tags, target);
    }
  }

  /** The loop has done `i` turns without an error, and `count` of them changed something. */
  ghost predicate Progress(rows: map<CameraId, TagRow>, after: map<CameraId, TagRow>, ids: seq<CameraId>, i: nat,
                           verb: BulkVerb, target: string, count: nat)
    requires i <= |ids| && forall k | 0 <= k < |ids| :: ids[k] in rows
  {
    && after == AfterTurns(rows, ids[..i], verb, target)
    && count == |Differ(rows, after, ids[..i])|
    && forall k | 0 <= k < i :: TagTurn(verb, rows[ids[k]].tags, target).Ok?
  }

  lemma NoProgress(rows: map<CameraId, TagRow>, ids: seq<CameraId>, verb: BulkVerb, target: string)
    requires forall k | 0 <= k < |ids| :: ids[k] in rows
    ensures Progress(rows, rows, ids, 0, verb, target, 0)
  {
    assert ids[..0] == [] && Differ(rows, rows, []) == {};
  }

  lemma MoreProgress(rows: map<CameraId, TagRow>, after: map<CameraId, TagRow>, ids: seq<CameraId>, i: nat,
                     verb: BulkVerb, target: string, count: nat)
    requires i < |ids| && Distinct(ids) && forall k | 0 <= k < |ids| :: ids[k] in rows
    requires Trim(target) == target && target != "" && Progress(rows, after, ids, i, verb, target, count)
    ensures var turn := TagTurn(verb, rows[ids[i]].tags, target);
      && ids[i] in after && after[ids[i]] == rows[ids[i]]
      && (turn.Err? ==> StoppedAfter(rows, after, ids, i, verb, target, Err(turn.error)) && verb == Add)
      && (turn == Ok(None) ==> Progress(rows, after, ids, i + 1, verb, target, count))
      && (turn.Ok? && turn.value.Some? ==>
            Progress(rows, after[ids[i] := TagRow(turn.value.value, NormalDb(turn.value.value))], ids, i + 1, verb,
                     target, count + 1))
  {
    NextTurn(rows, ids, i, verb, target);
    NextDiffers(rows, ids, i, verb, target);
    RemoveSucceeds(rows[ids[i]].tags, target);
    hide AfterTurns, TagTurn, Differ, NormalDb, Distinct, Trim;
  }

  lemma FullProgress(rows: map<CameraId, TagRow>, after: map<CameraId, TagRow>, ids: seq<CameraId>, verb: BulkVerb,
                     target: string, count: nat)
    requires Distinct(ids) && forall k | 0 <= k < |ids| :: ids[k] in rows
    requires Trim(target) == target && target != "" && Progress(rows, after, ids, |ids|, verb, target, count)
    ensures StoppedAfter(rows, after, ids, |ids|, verb, target, Ok(count))
    ensures AllActed(rows, after, ids, verb, target) && count == |Differ(rows, after, ids)|
  {
    assert ids[..|ids|] == ids;
    TurnsAct(rows, ids, verb, target);
    hide AfterTurns, TagTurn, AllActed, Differ, Trim;
  }

  /**
   The loop over the cameras found. A camera whose new list is too long stops the loop with an
   error; the cameras before it keep their new tags, the ones after it keep their old ones. A loop
   that gets through has acted on every camera and counts the changed ones, and a remove always does.
   */
  method BulkTagAction(table: CameraTable, ids: seq<CameraId>, verb: BulkVerb, tag: string)
    returns (r: Result<nat, TagError>)
    requires table.Valid() && Distinct(ids)
    requires forall i | 0 <= i < |ids| :: ids[i] in table.rows
    modifies table
    ensures table.Valid()
    ensures Trim(tag) == "" ==> r == Err(EmptyTag) && table.rows == old(table.rows)
    ensures Trim(tag) != "" ==>
      exists done: nat :: done <= |ids| && StoppedAfter(old(table.rows), table.rows, ids, done, verb, Trim(tag), r)
    ensures r.Ok? ==>
      && AllActed(old(table.rows), table.rows, ids, verb, Trim(tag))
      && r.value == |Differ(old(table.rows), table.rows, ids)|
    ensures verb == Remove && Trim(tag) != "" ==> r.Ok?
  {
    var target := Trim(tag);
    if target == "" {
      return Err(EmptyTag);
    }
    TrimTwice(tag);
    hide *;
    ghost var rows := table.rows;
    var updatedCount := 0;
    NoProgress(rows, ids, verb, target);
    for i := 0 to |ids|
      invariant table.Valid()
      invariant Progress(rows, table.rows, ids, i, verb, target, updatedCount)
    {
      MoreProgress(rows, table.rows, ids, i, verb, target, updatedCount);
      var turn := TurnOne(table, ids[i], verb, target);
      if turn.Err? {
        return Err(turn.error);
      }
      if turn.value {
        updatedCount := updatedCount + 1;
      }
    }
    FullProgress(rows, table.rows, ids, verb, target, updatedCount);
    r := Ok(updatedCount);
  }

  lemma RemoveSucceeds(before: seq<string>, target: string)
    ensures TagTurn(Remove, before, target).Ok?
  {}

  // ---- Laws of the bulk verbs ----

  lemma AddedIsPresent(before: seq<string>, target: string)
    requires Trim(target) == target && target != ""
    requires NormalDisplay(before + [target]).Ok?
    ensures HasLower(NormalDisplay(before + [target]).value, Lower(target))
  {
    var raw := before + [target];
    var after := NormalDisplay(raw).value;
    DisplayMatchesDb(raw);
    NormalDbKeys(raw);
    assert raw[|before|] == target && SomeKey(raw, Key(target));
    assert Lower(target) in Keys(after);
    var i :| 0 <= i < |after| && Keys(after)[i] == Lower(target);
    assert Lower(after[i]) == Lower(target);
  }

  /** Doing either verb a second time changes nothing. */
  lemma VerbIdempotent(verb: BulkVerb, before: seq<string>, target: string)
    requires Trim(target) == target && target != ""
    ensures var turn := TagTurn(verb, before, target);
      turn.Ok? && turn.value.Some? ==> TagTurn(verb, turn.value.value, target) == Ok(None)
  {
    var turn := TagTurn(verb, before, target);
    if turn.Ok? && turn.value.Some? {
      match verb
      case Add => AddedIsPresent(before, target);
      case Remove => RemovedIsAbsent(before, Lower(target));
    }
  }

  lemma {:induction false} RemovedIsAbsent(tags: seq<string>, k: string)
    ensures !HasLower(WithoutLower(tags, k), k)
  {
    if tags != [] {
      RemovedIsAbsent(tags[..|tags| - 1], k);
    }
  }

  /** A list as the display form leaves it: trimmed, non-empty, no two tags with one key. */
  ghost predicate Stored(tags: seq<string>) {
    NormalDisplay(tags) == Ok(tags)
  }

  lemma AddToStored(before: seq<string>, target: string)
    requires Stored(before) && Trim(target) == target && target != "" && !HasLower(before, Lower(target))
    ensures NormalDisplay(before + [target]) ==
      if |target| > TAG_MAX_LENGTH then Err(TooLong)
      else if |before| == TAG_MAX_PER_CAMERA then Err(TooMany)
      else Ok(before + [target])
  {
    DisplayMatchesDb(before);
    assert (before + [target])[..|before|] == before;
    forall i | 0 <= i < |before| ensures Key(before[i]) != Key(target) {
      assert Key(before[i]) == Lower(before[i]);
    }
    assert !HasKey(before, Key(target));
  }

  lemma RemoveLast(before: seq<string>, target: string)
    requires !HasLower(before, Lower(target))
    ensures WithoutLower(before + [target], Lower(target)) == before
  {
    assert (before + [target])[..|before|] == before;
    assert (before + [target])[|before|] == target;
  }

  /**
   On stored lists a remove takes back exactly what an add put in, and an add is refused exactly
   when it would add something and the tag is too long or the list is full.
   */
  lemma RemoveUndoesAdd(before: seq<string>, target: string)
    requires Stored(before) && Trim(target) == target && target != ""
    ensures var turn := TagTurn(Add, before, target);
      && (turn.Ok? && turn.value.Some? ==> TagTurn(Remove, turn.value.value, target) == Ok(Some(before)))
      && (turn.Err? <==>
            !HasLower(before, Lower(target)) && (|target| > TAG_MAX_LENGTH || |before| == TAG_MAX_PER_CAMERA))
  {
    if !HasLower(before, Lower(target)) {
      AddToStored(before, target);
      RemoveLast(before, target);
    }
  }

  // ---- The audit comparison ----

  function LowerAll(tags: seq<string>): (r: seq<string>)
    ensures |r| == |tags|
  {
    seq(|tags|, i requires 0 <= i < |tags| => Lower(tags[i]))
  }

  predicate ArraysEqualCaseInsensitive(a: seq<string>, b: seq<string>) {
    |a| == |b| && forall i | 0 <= i < |b| :: LowerAll(b)[i] in LowerAll(a)
  }

  ghost predicate SameTags(a: seq<string>, b: seq<string>) {
    multiset(LowerAll(a)) == multiset(LowerAll(b))
  }

  /** Pigeonhole: a duplicate-free list inside an equally long one is a rearrangement of it. */
  lemma {:induction false} Pigeonhole(a: seq<string>, b: seq<string>)
    requires |a| == |b| && Distinct(b) && forall i | 0 <= i < |b| :: b[i] in a
    ensures multiset(a) == multiset(b)
  {
    if b != [] {
      var n := |b| - 1;
      var k :| 0 <= k < |a| && a[k] == b[n];
      var a' := a[..k] + a[k + 1..];
      assert a == a[..k] + ([a[k]] + a[k + 1..]);
      forall i | 0 <= i < n ensures b[..n][i] in a' {
        var j :| 0 <= j < |a| && a[j] == b[i];
        assert a'[if j < k then j else j - 1] == b[i];
      }
      Pigeonhole(a', b[..n]);
      assert b == b[..n] + [b[n]];
    }
  }

  /** A list is at most as long as the set it draws from is rich: the comparison is symmetric then. */
  lemma ComparisonOnDistinct(a: seq<string>, b: seq<string>)
    requires Distinct(LowerAll(b))
    ensures ArraysEqualCaseInsensitive(a, b) <==> SameTags(a, b)
  {
    var la, lb := LowerAll(a), LowerAll(b);
    if ArraysEqualCaseInsensitive(a, b) {
      Pigeonhole(la, lb);
    }
    if SameTags(a, b) {
      assert |la| == |multiset(la)| == |lb|;
      forall i | 0 <= i < |lb| ensures lb[i] in la {
        assert lb[i] in multiset(lb);
      }
    }
  }

  /** A tag longer than every tag of the list, hence different from all of them. */
  function Fresh(tags: seq<string>): (r: string)
    ensures forall i | 0 <= i < |tags| :: |tags[i]| < |r|
    ensures Lower(r) == r
  {
    if tags == [] then "x"
    else
      var rest := Fresh(tags[1..]);
      assert forall i | 1 <= i < |tags| :: tags[i] == tags[1..][i - 1];
      if |tags[0]| < |rest| then rest else
        assert Lower(seq(|tags[0]| + 1, _ => 'x')) == seq(|tags[0]| + 1, _ => 'x');
        seq(|tags[0]| + 1, _ => 'x')
  }

  /**
   The comparison is the multiset equality it is described as, against every first list, exactly
   when the second list has no tag twice up to case. A repeated tag makes it accept a list that
   has another tag in place of the repetition.
   */
  lemma ComparisonExact(b: seq<string>)
    ensures (forall a :: ArraysEqualCaseInsensitive(a, b) <==> SameTags(a, b)) <==> Distinct(LowerAll(b))
  {
    if Distinct(LowerAll(b)) {
      forall a ensures ArraysEqualCaseInsensitive(a, b) <==> SameTags(a, b) {
        ComparisonOnDistinct(a, b);
      }
    } else {
      var i, j :| 0 <= i < j < |b| && LowerAll(b)[i] == LowerAll(b)[j];
      var x := Fresh(b);
      var a := b[j := x];
      var la, lb := LowerAll(a), LowerAll(b);
      forall k | 0 <= k < |b| ensures lb[k] in la {
        assert la[if k == j then i else k] == lb[k];
      }
      assert ArraysEqualCaseInsensitive(a, b);
      assert la[j] == x;
      assert x in multiset(la);
      assert forall k | 0 <= k < |lb| :: |lb[k]| < |x|;
      assert x !in multiset(lb);
      assert !SameTags(a, b);
    }
  }

  /** With a repeated tag the order of the arguments matters. */
  lemma ComparisonNotSymmetric()
    ensures ArraysEqualCaseInsensitive(["a", "b"], ["a", "a"])
    ensures !ArraysEqualCaseInsensitive(["a", "a"], ["a", "b"])
  {
    assert Lower("a") == "a" && Lower("b") == "b";
    assert LowerAll(["a", "b"]) == ["a", "b"] && LowerAll(["a", "a"]) == ["a", "a"];
    assert LowerAll(["a", "b"])[1] == "b";
  }
}
