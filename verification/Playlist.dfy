/**
 The two HLS playlist printers (recording download and recording playback) and a reader for
 what they print.

 Durations are whole microseconds, the precision `toFixed(6)` prints.
 */
module Playlist {
  import opened Common
  import opened Text

  datatype Segment = Segment(micros: nat, url: string)

  // ---- Which segments are printed ----

  /** A stored segment; `hasKeyframe` is absent on rows older than the column. */
  datatype SourceSegment = SourceSegment(segment: Segment, hasKeyframe: Option<bool>)

  predicate Playable(s: SourceSegment) {
    s.hasKeyframe != Some(false)
  }

  /** The longest suffix that starts on a playable segment. */
  function SkipLeading(segments: seq<SourceSegment>): (r: seq<SourceSegment>)
    ensures |r| <= |segments| && r == segments[|segments| - |r|..]
    ensures r != [] ==> Playable(r[0])
    ensures forall i | 0 <= i < |segments| - |r| :: !Playable(segments[i])
  {
    if segments == [] || Playable(segments[0]) then segments else SkipLeading(segments[1..])
  }

  /** The download query does not select `hasKeyframe`, so its rows carry no verdict. */
  function DownloadRow(s: SourceSegment): SourceSegment {
    s.(hasKeyframe := None)
  }

  /**
   The download therefore starts where playback starts exactly when the first stored segment is
   already playable; otherwise it keeps undecodable segments that playback drops.
   */
  lemma DownloadSkipsNothing(segments: seq<SourceSegment>)
    ensures var rows := seq(|segments|, i requires 0 <= i < |segments| => DownloadRow(segments[i]));
      && SkipLeading(rows) == rows
      && (|SkipLeading(segments)| == |SkipLeading(rows)| <==> segments == [] || Playable(segments[0]))
  {
    var rows := seq(|segments|, i requires 0 <= i < |segments| => DownloadRow(segments[i]));
    if segments != [] {
      assert Playable(rows[0]);
    }
  }

  // ---- Target duration ----

  const MICROS := 1_000_000

  function Longest(segments: seq<Segment>): (m: nat)
    ensures forall i | 0 <= i < |segments| :: segments[i].micros <= m
    ensures segments != [] ==> exists i | 0 <= i < |segments| :: segments[i].micros == m
  {
    if segments == [] then 0
    else
      var rest := Longest(segments[1..]);
      assert segments == [segments[0]] + segments[1..];
      if segments[0].micros >= rest then segments[0].micros else
        assert exists i | 0 <= i < |segments[1..]| :: segments[1..][i].micros == rest;
        assert forall i | 0 <= i < |segments[1..]| :: segments[1..][i] == segments[i + 1];
        rest
  }

  function CeilSeconds(micros: nat): nat {
    (micros + MICROS - 1) / MICROS
  }

  function ComputeTargetDuration(segments: seq<Segment>): nat {
    if segments == [] then 1
    else
      var max := CeilSeconds(Longest(segments));
      if max < 1 then 1 else max
  }

  /** Nearest whole second, halves up. */
  function RoundedSeconds(micros: nat): nat {
    (micros + MICROS / 2) / MICROS
  }

  /**
   RFC 8216 section 4.3.3.1: every segment duration, rounded to the nearest integer, is at most
   the target; and the target is the least positive number of seconds no segment exceeds.
   */
  lemma TargetDurationIsLeast(segments: seq<Segment>)
    ensures var t := ComputeTargetDuration(segments);
      && t >= 1
      && (forall i | 0 <= i < |segments| ::
            segments[i].micros <= t * MICROS && RoundedSeconds(segments[i].micros) <= t)
      && (forall u: nat :: u >= 1 && (forall i | 0 <= i < |segments| :: segments[i].micros <= u * MICROS) ==> t <= u)
  {
    var t := ComputeTargetDuration(segments);
    var m := Longest(segments);
    assert m <= t * MICROS;
    forall i | 0 <= i < |segments|
      ensures segments[i].micros <= t * MICROS && RoundedSeconds(segments[i].micros) <= t
    {
      assert segments[i].micros <= m;
    }
    forall u: nat | u >= 1 && (forall i | 0 <= i < |segments| :: segments[i].micros <= u * MICROS)
      ensures t <= u
    {
      if segments != [] {
        var i :| 0 <= i < |segments| && segments[i].micros == m;
        assert m <= u * MICROS;
      }
    }
  }

  // ---- Printing ----

  /** `seconds.toFixed(6)` */
  function Fixed6(micros: nat): string {
    Decimal(micros / MICROS) + "." + Padded(micros % MICROS, 6)
  }

  const NL := '\n'

  function Line(s: string): string {
    s + [NL]
  }

  function Entry(s: Segment): string {
    Line("#EXTINF:" + Fixed6(s.micros) + ",") + Line(s.url)
  }

  function Body(segments: seq<Segment>): string {
    if segments == [] then "" else Entry(segments[0]) + Body(segments[1..])
  }

  lemma Associate(a: string, b: string, c: string)
    ensures (a + b) + c == a + (b + c)
  {}

  lemma AppendEntry(head: string, segments: seq<Segment>, k: nat)
    requires k < |segments|
    ensures head + Body(segments[..k]) + Line("#EXTINF:" + Fixed6(segments[k].micros) + ",") + Line(segments[k].url)
         == head + Body(segments[..k + 1])
  {
    var body, inf, url := Body(segments[..k]), Line("#EXTINF:" + Fixed6(segments[k].micros) + ","),
      Line(segments[k].url);
    BodyAppend(segments[..k], segments[k]);
    assert segments[..k + 1] == segments[..k] + [segments[k]];
    Associate(head + body, inf, url);
    Associate(head, body, inf + url);
  }

  lemma {:induction false} BodyAppend(segments: seq<Segment>, last: Segment)
    ensures Body(segments + [last]) == Body(segments) + Entry(last)
  {
    if segments == [] {
      assert (segments + [last])[1..] == [];
      assert Body([]) == "";
    } else {
      BodyAppend(segments[1..], last);
      assert (segments + [last])[1..] == segments[1..] + [last];
      Associate(Entry(segments[0]), Body(segments[1..]), Entry(last));
    }
  }

  function Head(target: string): string {
    Line("#EXTM3U") + Line("#EXT-X-VERSION:3") + Line("#EXT-X-TARGETDURATION:" + target)
    + Line("#EXT-X-MEDIA-SEQUENCE:0") + Line("#EXT-X-PLAYLIST-TYPE:VOD")
  }

  /** The playback printer's target duration as text: over no segments the largest of them is minus infinity. */
  function PlaybackTarget(segments: seq<Segment>): string {
    if segments == [] then "-Infinity" else Decimal(CeilSeconds(Longest(segments)))
  }

  function Printed(target: string, segments: seq<Segment>): string {
    Head(target) + (Body(segments) + Line("#EXT-X-ENDLIST"))
  }

  /** The download printer. */
  method BuildDownloadPlaylist(segments: seq<Segment>) returns (m3u8: string)
    ensures m3u8 == Printed(Decimal(ComputeTargetDuration(segments)), segments)
  {
    var targetDuration := ComputeTargetDuration(segments);
    m3u8 := Line("#EXTM3U") + Line("#EXT-X-VERSION:3");
    m3u8 := m3u8 + Line("#EXT-X-TARGETDURATION:" + Decimal(targetDuration));
    m3u8 := m3u8 + Line("#EXT-X-MEDIA-SEQUENCE:0");
    m3u8 := m3u8 + Line("#EXT-X-PLAYLIST-TYPE:VOD");
    ghost var head := m3u8;
    for k := 0 to |segments|
      invariant m3u8 == head + Body(segments[..k])
    {
      AppendEntry(head, segments, k);
      m3u8 := m3u8 + Line("#EXTINF:" + Fixed6(segments[k].micros) + ",");
      m3u8 := m3u8 + Line(segments[k].url);
    }
    assert segments[..|segments|] == segments;
    Associate(head, Body(segments), Line("#EXT-X-ENDLIST"));
    m3u8 := m3u8 + Line("#EXT-X-ENDLIST");
  }

  /** The playback printer. */
  method BuildManifest(segments: seq<Segment>) returns (m3u8: string)
    ensures m3u8 == Printed(PlaybackTarget(segments), segments)
  {
    var maxDuration := PlaybackTarget(segments);
    m3u8 := Line("#EXTM3U");
    m3u8 := m3u8 + Line("#EXT-X-VERSION:3");
    m3u8 := m3u8 + Line("#EXT-X-TARGETDURATION:" + maxDuration);
    m3u8 := m3u8 + Line("#EXT-X-MEDIA-SEQUENCE:0");
    m3u8 := m3u8 + Line("#EXT-X-PLAYLIST-TYPE:VOD");
    ghost var head := m3u8;
    for k := 0 to |segments|
      invariant m3u8 == head + Body(segments[..k])
    {
      AppendEntry(head, segments, k);
      m3u8 := m3u8 + Line("#EXTINF:" + Fixed6(segments[k].micros) + ",");
      m3u8 := m3u8 + Line(segments[k].url);
    }
    assert segments[..|segments|] == segments;
    Associate(head, Body(segments), Line("#EXT-X-ENDLIST"));
    m3u8 := m3u8 + Line("#EXT-X-ENDLIST");
  }

  // ---- Reading ----

  predicate HasPrefix(s: string, prefix: string) {
    |prefix| <= |s| && s[..|prefix|] == prefix
  }

  /** `<digits>.<six digits>,` in microseconds. */
  function ReadDuration(s: string): Option<nat> {
    var parts := Split(Split(s, ',')[0], '.');
    if |parts| == 2 && parts[0] != "" && |parts[1]| == 6 && AllDigits(parts[0]) && AllDigits(parts[1])
    then Some(ParseDecimal(parts[0]) * MICROS + ParseDecimal(parts[1]))
    else None
  }

  /** What a player takes from a playlist: each URI line with the duration announced before it. */
  function ReadLines(lines: seq<string>, pending: Option<nat>): seq<Segment> {
    if lines == [] then []
    else if HasPrefix(lines[0], "#EXTINF:") then ReadLines(lines[1..], ReadDuration(lines[0][8..]))
    else if lines[0] == "" || lines[0][0] == '#' then ReadLines(lines[1..], pending)
    else (if pending.Some? then [Segment(pending.value, lines[0])] else []) + ReadLines(lines[1..], None)
  }

  function Read(text: string): seq<Segment> {
    ReadLines(Split(text, NL), None)
  }

  /** A URL that is one playlist line and not a tag or comment. */
  predicate PlainUrl(url: string) {
    url != "" && NL !in url && url[0] != '#'
  }

  lemma NotInDigits(s: string, c: char)
    requires AllDigits(s) && !IsDigit(c)
    ensures c !in s
  {}

  lemma MillionIsPower10()
    ensures Power10(6) == MICROS
  {
    assert Power10(3) == 1000;
    assert Power10(5) == 100 * Power10(3);
  }

  /** A printed duration splits into its two numerals. */
  lemma SplitDuration(whole: string, fraction: string)
    requires AllDigits(whole) && AllDigits(fraction)
    ensures var text := whole + "." + fraction;
      NL !in text && Split(text + ",", ',')[0] == text && Split(text, '.') == [whole, fraction]
  {
    var text := whole + "." + fraction;
    NotInDigits(whole, ',');
    NotInDigits(fraction, ',');
    NotInDigits(whole, NL);
    NotInDigits(fraction, NL);
    NotInDigits(whole, '.');
    NotInDigits(fraction, '.');
    hide Split, AllDigits;
    SplitFirst(text, ',', "");
    assert text + [','] + "" == text + ",";
    SplitFirst(whole, '.', fraction);
    assert whole + ['.'] + fraction == text;
    SplitWhole(fraction, '.');
  }

  lemma DurationRoundTrip(micros: nat)
    ensures NL !in Fixed6(micros)
    ensures ReadDuration(Fixed6(micros) + ",") == Some(micros)
  {
    MillionIsPower10();
    hide Split, Decimal, Padded, ParseDecimal, AllDigits, Power10;
    DecimalRoundTrip(micros / MICROS);
    PaddedRoundTrip(micros % MICROS, 6);
    SplitDuration(Decimal(micros / MICROS), Padded(micros % MICROS, 6));
  }

  /** A tag line other than a segment's. */
  predicate OtherTag(line: string) {
    |line| > 4 && line[0] == '#' && line[4] != 'I' && NL !in line
  }

  lemma ReadTag(line: string, rest: string)
    requires OtherTag(line)
    ensures Read(Line(line) + rest) == Read(rest)
  {
    SplitFirst(line, NL, rest);
    assert !HasPrefix(line, "#EXTINF:") by {
      assert "#EXTINF:"[4] == 'I';
    }
  }

  lemma ReadEntry(s: Segment, rest: string)
    requires PlainUrl(s.url)
    ensures Read(Entry(s) + rest) == [s] + Read(rest)
  {
    DurationRoundTrip(s.micros);
    var inf := "#EXTINF:" + Fixed6(s.micros) + ",";
    assert inf[8..] == Fixed6(s.micros) + ",";
    var rest1 := Line(s.url) + rest;
    SplitFirst(inf, NL, rest1);
    Associate(Line(inf), Line(s.url), rest);
    SplitFirst(s.url, NL, rest);
    var after := Split(rest, NL);
    assert ReadLines([s.url] + after, Some(s.micros)) == [s] + ReadLines(after, None);
    assert ReadLines([inf] + ([s.url] + after), None) == ReadLines([s.url] + after, Some(s.micros));
  }

  predicate PlainUrls(segments: seq<Segment>) {
    forall i | 0 <= i < |segments| :: PlainUrl(segments[i].url)
  }

  lemma {:induction false} ReadBody(segments: seq<Segment>, rest: string)
    requires PlainUrls(segments)
    ensures Read(Body(segments) + rest) == segments + Read(rest)
  {
    if segments == [] {
      assert Body(segments) + rest == rest;
    } else {
      var tail := Body(segments[1..]);
      assert Body(segments) == Entry(segments[0]) + tail;
      assert PlainUrls(segments[1..]);
      ReadEntry(segments[0], tail + rest);
      hide *;
      ReadBody(segments[1..], rest);
      Associate(Entry(segments[0]), tail, rest);
      assert [segments[0]] + (segments[1..] + Read(rest)) == segments + Read(rest);
    }
  }

  lemma TargetLineIsTag(target: string)
    requires NL !in target
    ensures OtherTag("#EXT-X-TARGETDURATION:" + target)
  {}

  /** What either printer puts after the target tag. */
  lemma TargetsArePlain(segments: seq<Segment>)
    ensures NL !in Decimal(ComputeTargetDuration(segments)) && NL !in PlaybackTarget(segments)
  {
    DecimalRoundTrip(ComputeTargetDuration(segments));
    NotInDigits(Decimal(ComputeTargetDuration(segments)), NL);
    if segments != [] {
      DecimalRoundTrip(CeilSeconds(Longest(segments)));
      NotInDigits(PlaybackTarget(segments), NL);
    }
  }

  lemma ReadHead(target: string, rest: string)
    requires NL !in target
    ensures Read(Head(target) + rest) == Read(rest)
  {
    var l0, l1, l3, l4 := "#EXTM3U", "#EXT-X-VERSION:3", "#EXT-X-MEDIA-SEQUENCE:0", "#EXT-X-PLAYLIST-TYPE:VOD";
    var l2 := "#EXT-X-TARGETDURATION:" + target;
    assert OtherTag(l0) && OtherTag(l1) && OtherTag(l3) && OtherTag(l4);
    TargetLineIsTag(target);
    assert Head(target) == Line(l0) + Line(l1) + Line(l2) + Line(l3) + Line(l4);
    hide *;
    ReadFive(l0, l1, l2, l3, l4, rest);
  }

  lemma ReadFive(l0: string, l1: string, l2: string, l3: string, l4: string, rest: string)
    requires OtherTag(l0) && OtherTag(l1) && OtherTag(l2) && OtherTag(l3) && OtherTag(l4)
    ensures Read(Line(l0) + Line(l1) + Line(l2) + Line(l3) + Line(l4) + rest) == Read(rest)
  {
    hide *;
    var t4 := Line(l4) + rest;
    var t3 := Line(l3) + t4;
    var t2 := Line(l2) + t3;
    var t1 := Line(l1) + t2;
    Associate(Line(l0) + Line(l1) + Line(l2) + Line(l3), Line(l4), rest);
    Associate(Line(l0) + Line(l1) + Line(l2), Line(l3), t4);
    Associate(Line(l0) + Line(l1), Line(l2), t3);
    Associate(Line(l0), Line(l1), t2);
    ReadTag(l0, t1);
    ReadTag(l1, t2);
    ReadTag(l2, t3);
    ReadTag(l3, t4);
    ReadTag(l4, rest);
  }

  lemma ReadAny(target: string, segments: seq<Segment>)
    requires NL !in target && PlainUrls(segments)
    ensures Read(Printed(target, segments)) == segments
  {
    var end := Line("#EXT-X-ENDLIST");
    assert Read(end) == [] by {
      ReadTag("#EXT-X-ENDLIST", "");
      assert end + "" == end;
      assert [""][1..] == [] && ReadLines([""], None) == [];
    }
    hide PlainUrls, ReadLines, Split;
    ReadHead(target, Body(segments) + end);
    ReadBody(segments, end);
  }

  /** Reading back what either printer printed gives the same URLs in the same order with their durations. */
  lemma ReadPrinted(segments: seq<Segment>)
    requires PlainUrls(segments)
    ensures Read(Printed(Decimal(ComputeTargetDuration(segments)), segments)) == segments
    ensures Read(Printed(PlaybackTarget(segments), segments)) == segments
  {
    TargetsArePlain(segments);
    ReadAny(Decimal(ComputeTargetDuration(segments)), segments);
    ReadAny(PlaybackTarget(segments), segments);
  }

  // ---- Reading the tags ----

  predicate IsTag(line: string) {
    line != "" && line[0] == '#' && !HasPrefix(line, "#EXTINF:")
  }

  /** The tags that are not a segment's, in order. */
  function TagLines(lines: seq<string>): seq<string> {
    if lines == [] then []
    else (if IsTag(lines[0]) then [lines[0]] else []) + TagLines(lines[1..])
  }

  function TagsIn(text: string): seq<string> {
    TagLines(Split(text, NL))
  }

  lemma TagsOfTag(line: string, rest: string)
    requires OtherTag(line)
    ensures TagsIn(Line(line) + rest) == [line] + TagsIn(rest)
  {
    SplitFirst(line, NL, rest);
    assert !HasPrefix(line, "#EXTINF:") by {
      assert "#EXTINF:"[4] == 'I';
    }
  }

  lemma TagsOfEntry(s: Segment, rest: string)
    requires PlainUrl(s.url)
    ensures TagsIn(Entry(s) + rest) == TagsIn(rest)
  {
    DurationRoundTrip(s.micros);
    var inf := "#EXTINF:" + Fixed6(s.micros) + ",";
    assert HasPrefix(inf, "#EXTINF:");
    SplitFirst(inf, NL, Line(s.url) + rest);
    Associate(Line(inf), Line(s.url), rest);
    SplitFirst(s.url, NL, rest);
    var after := Split(rest, NL);
    assert TagLines([s.url] + after) == TagLines(after);
    assert TagLines([inf] + ([s.url] + after)) == TagLines([s.url] + after);
  }

  lemma {:induction false} TagsOfBody(segments: seq<Segment>, rest: string)
    requires PlainUrls(segments)
    ensures TagsIn(Body(segments) + rest) == TagsIn(rest)
  {
    if segments == [] {
      assert Body(segments) + rest == rest;
    } else {
      var tail := Body(segments[1..]);
      assert Body(segments) == Entry(segments[0]) + tail;
      assert PlainUrls(segments[1..]);
      TagsOfEntry(segments[0], tail + rest);
      hide *;
      TagsOfBody(segments[1..], rest);
      Associate(Entry(segments[0]), tail, rest);
    }
  }

  lemma TagsOfHead(target: string, rest: string)
    requires NL !in target
    ensures TagsIn(Head(target) + rest) ==
      ["#EXTM3U", "#EXT-X-VERSION:3", "#EXT-X-TARGETDURATION:" + target, "#EXT-X-MEDIA-SEQUENCE:0",
       "#EXT-X-PLAYLIST-TYPE:VOD"] + TagsIn(rest)
  {
    var l0, l1, l3, l4 := "#EXTM3U", "#EXT-X-VERSION:3", "#EXT-X-MEDIA-SEQUENCE:0", "#EXT-X-PLAYLIST-TYPE:VOD";
    var l2 := "#EXT-X-TARGETDURATION:" + target;
    assert OtherTag(l0) && OtherTag(l1) && OtherTag(l3) && OtherTag(l4);
    TargetLineIsTag(target);
    assert Head(target) == Line(l0) + Line(l1) + Line(l2) + Line(l3) + Line(l4);
    hide *;
    TagsOfFive(l0, l1, l2, l3, l4, rest);
  }

  lemma TagsOfFive(l0: string, l1: string, l2: string, l3: string, l4: string, rest: string)
    requires OtherTag(l0) && OtherTag(l1) && OtherTag(l2) && OtherTag(l3) && OtherTag(l4)
    ensures TagsIn(Line(l0) + Line(l1) + Line(l2) + Line(l3) + Line(l4) + rest) == [l0, l1, l2, l3, l4] + TagsIn(rest)
  {
    hide *;
    var t4 := Line(l4) + rest;
    var t3 := Line(l3) + t4;
    var t2 := Line(l2) + t3;
    var t1 := Line(l1) + t2;
    Associate(Line(l0) + Line(l1) + Line(l2) + Line(l3), Line(l4), rest);
    Associate(Line(l0) + Line(l1) + Line(l2), Line(l3), t4);
    Associate(Line(l0) + Line(l1), Line(l2), t3);
    Associate(Line(l0), Line(l1), t2);
    TagsOfTag(l0, t1);
    TagsOfTag(l1, t2);
    TagsOfTag(l2, t3);
    TagsOfTag(l3, t4);
    TagsOfTag(l4, rest);
  }

  /** The target duration that a player finds, in seconds. */
  function ReadTarget(tags: seq<string>): Option<nat> {
    if tags == [] then None
    else if HasPrefix(tags[0], "#EXT-X-TARGETDURATION:") then
      var value := tags[0][22..];
      if value != "" && AllDigits(value) then Some(ParseDecimal(value)) else None
    else ReadTarget(tags[1..])
  }

  lemma TagsOfAny(target: string, segments: seq<Segment>)
    requires NL !in target && PlainUrls(segments)
    ensures TagsIn(Printed(target, segments)) ==
      ["#EXTM3U", "#EXT-X-VERSION:3", "#EXT-X-TARGETDURATION:" + target, "#EXT-X-MEDIA-SEQUENCE:0",
       "#EXT-X-PLAYLIST-TYPE:VOD", "#EXT-X-ENDLIST"]
  {
    var end := Line("#EXT-X-ENDLIST");
    assert TagsIn(end) == ["#EXT-X-ENDLIST"] by {
      TagsOfTag("#EXT-X-ENDLIST", "");
      assert end + "" == end;
      assert [""][1..] == [] && TagLines([""]) == [];
    }
    hide PlainUrls, TagLines, Split;
    TagsOfHead(target, Body(segments) + end);
    TagsOfBody(segments, end);
  }

  lemma TargetInTags(target: string, rest: seq<string>)
    ensures ReadTarget(["#EXTM3U", "#EXT-X-VERSION:3", "#EXT-X-TARGETDURATION:" + target] + rest)
      == if target != "" && AllDigits(target) then Some(ParseDecimal(target)) else None
  {
    var tags := ["#EXTM3U", "#EXT-X-VERSION:3", "#EXT-X-TARGETDURATION:" + target] + rest;
    assert tags[2][22..] == target;
    assert !HasPrefix(tags[0], "#EXT-X-TARGETDURATION:");
    assert !HasPrefix(tags[1], "#EXT-X-TARGETDURATION:") by {
      assert "#EXT-X-TARGETDURATION:"[7] == 'T' && tags[1][7] == 'V';
    }
    assert ReadTarget(tags) == ReadTarget(tags[1..]) == ReadTarget(tags[1..][1..]);
    assert tags[1..][1..][0] == tags[2];
  }

  /** Both texts begin with the format's tag and end with the end of the list. */
  predicate Framed(text: string) {
    HasPrefix(text, "#EXTM3U\n") && |text| >= 15 && text[|text| - 15..] == "#EXT-X-ENDLIST\n"
  }

  /**
   Reading the tags of what either printer printed: the six tags in order, and as target the
   computed one; over no segments the playback printer's target is no number.
   */
  lemma ReadTags(segments: seq<Segment>)
    requires PlainUrls(segments)
    ensures var download := Printed(Decimal(ComputeTargetDuration(segments)), segments);
      && Framed(download) && |TagsIn(download)| == 6
      && ReadTarget(TagsIn(download)) == Some(ComputeTargetDuration(segments))
    ensures var playback := Printed(PlaybackTarget(segments), segments);
      && Framed(playback) && |TagsIn(playback)| == 6
      && ReadTarget(TagsIn(playback)) == if segments == [] then None else Some(CeilSeconds(Longest(segments)))
  {
    TargetsArePlain(segments);
    DecimalRoundTrip(ComputeTargetDuration(segments));
    DecimalRoundTrip(CeilSeconds(Longest(segments)));
    TargetRead(Decimal(ComputeTargetDuration(segments)), segments);
    TargetRead(PlaybackTarget(segments), segments);
    assert !AllDigits("-Infinity") by {
      assert "-Infinity"[0] == '-';
    }
    hide Decimal, ParseDecimal, Printed, TagsIn, ReadTarget;
  }

  lemma TargetRead(target: string, segments: seq<Segment>)
    requires NL !in target && PlainUrls(segments)
    ensures var text := Printed(target, segments);
      && Framed(text) && |TagsIn(text)| == 6
      && ReadTarget(TagsIn(text)) == if target != "" && AllDigits(target) then Some(ParseDecimal(target)) else None
  {
    TagsOfAny(target, segments);
    var rest := ["#EXT-X-MEDIA-SEQUENCE:0", "#EXT-X-PLAYLIST-TYPE:VOD", "#EXT-X-ENDLIST"];
    TargetInTags(target, rest);
    assert TagsIn(Printed(target, segments))
      == ["#EXTM3U", "#EXT-X-VERSION:3", "#EXT-X-TARGETDURATION:" + target] + rest;
    hide TagsIn, ReadTarget, Body, AllDigits;
  }

  /** The two printers agree exactly when some segment has a length. */
  lemma PrintersAgree(segments: seq<Segment>)
    ensures Printed(Decimal(ComputeTargetDuration(segments)), segments) == Printed(PlaybackTarget(segments), segments)
      <==> exists i | 0 <= i < |segments| :: segments[i].micros > 0
  {
    if Longest(segments) == 0 {
      var before := Line("#EXTM3U") + Line("#EXT-X-VERSION:3") + "#EXT-X-TARGETDURATION:";
      var k := |before|;
      assert Decimal(1) == "1" && Decimal(0) == "0";
      assert Printed("1", segments)[k] == '1';
      assert Printed("0", segments)[k] == '0';
      assert Printed("-Infinity", segments)[k] == '-';
    }
  }
}
