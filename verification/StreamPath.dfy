/** The parser for the application and stream names in the media server's callbacks. */
module StreamPath {
  import opened Common
  import opened Text

  datatype Parsed = Push(streamKey: string) | Live(org: string, camera: string) | LiveInternal

  const MEDIA_EXTENSIONS := [".m3u8", ".ts", ".m4s", ".mp4", ".flv"]

  predicate HasSuffix(s: string, suffix: string) {
    |suffix| <= |s| && s[|s| - |suffix|..] == suffix
  }

  /** `.replace(/^live\//, '')` */
  function DropLive(s: string): string {
    if |s| >= 5 && s[..5] == "live/" then s[5..] else s
  }

  /** The length of the media extension at the end, zero if there is none. */
  function ExtensionLength(s: string): (k: nat)
    ensures k <= |s|
  {
    if HasSuffix(s, ".m3u8") then 5
    else if HasSuffix(s, ".ts") then 3
    else if HasSuffix(s, ".m4s") then 4
    else if HasSuffix(s, ".mp4") then 4
    else if HasSuffix(s, ".flv") then 4
    else 0
  }

  /** The media extensions are these five and no others. */
  lemma ExtensionIff(s: string)
    ensures ExtensionLength(s) > 0
      <==> exists base :: s == base + ".m3u8" || s == base + ".ts" || s == base + ".m4s" || s == base + ".mp4"
                          || s == base + ".flv"
    ensures ExtensionLength(s) == 0 ==> StripMedia(s) == s
  {
    var base := s[..|s| - ExtensionLength(s)];
    if ExtensionLength(s) > 0 {
      assert s == base + s[|s| - ExtensionLength(s)..];
    }
  }

  /** The number of digits at the end. */
  function TrailingDigits(s: string): (k: nat)
    ensures k <= |s|
    ensures forall i | |s| - k <= i < |s| :: IsDigit(s[i])
    ensures k < |s| ==> !IsDigit(s[|s| - k - 1])
  {
    if s != "" && IsDigit(s[|s| - 1]) then TrailingDigits(s[..|s| - 1]) + 1 else 0
  }

  /** The name ends in a hyphen and at least one digit. */
  predicate EndsInSequence(s: string) {
    var k := TrailingDigits(s);
    0 < k < |s| && s[|s| - k - 1] == '-'
  }

  /** `.replace(/-\d+$/, '')` */
  function DropSequence(s: string): string {
    if EndsInSequence(s) then s[..|s| - TrailingDigits(s) - 1] else s
  }

  function StripMedia(s: string): string {
    var k := ExtensionLength(s);
    if k > 0 then DropSequence(s[..|s| - k]) else s
  }

  function ParseStreamKey(stream: string, app: string): Parsed {
    if app == "push" then Push(stream)
    else
      var fullPath := if app != "" then app + "/" + stream else stream;
      var parts := Split(DropLive(fullPath), '/');
      if |parts| >= 2 && parts[0] != "" && parts[1] != "" then Live(parts[0], StripMedia(parts[1]))
      else LiveInternal
  }

  /**
   Every application and stream: one of the push application is a stream key as it is, and any other
   names a camera exactly if the path without a leading "live/" has at least two components of which the
   first two are not empty; further components are not looked at.
   */
  lemma ParseCases(stream: string, app: string)
    ensures ParseStreamKey(stream, "push") == Push(stream)
    ensures var path := if |app| == 0 then stream else app + "/" + stream;
      var parts := Split(if "live/" <= path then path[5..] else path, '/');
      app != "push" ==>
        && (ParseStreamKey(stream, app).Live? <==> |parts| > 1 && |parts[0]| > 0 && |parts[1]| > 0)
        && (ParseStreamKey(stream, app).Live? ==> ParseStreamKey(stream, app) == Live(parts[0], StripMedia(parts[1])))
        && !ParseStreamKey(stream, app).Push?
  {}

  // ---- The three encodings of live/org/name ----

  datatype Encoding = AppLive | AppLiveOrg | StreamOnly

  function App(e: Encoding, org: string): string {
    match e
    case AppLive => "live"
    case AppLiveOrg => "live/" + org
    case StreamOnly => ""
  }

  function Stream(e: Encoding, org: string, name: string): string {
    match e
    case AppLive => org + "/" + name
    case AppLiveOrg => name
    case StreamOnly => "live/" + org + "/" + name
  }

  /** A path component. */
  predicate Id(s: string) {
    s != "" && '/' !in s
  }

  /** Whatever the encoding, the parser sees the organisation and the name stripped of media parts. */
  lemma ParseEncoding(e: Encoding, org: string, name: string)
    requires Id(org) && Id(name)
    ensures ParseStreamKey(Stream(e, org, name), App(e, org)) == Live(org, StripMedia(name))
  {
    var path := org + ['/'] + name;
    var app, stream := App(e, org), Stream(e, org, name);
    assert app != "push" by {
      assert "push"[0] == 'p' && (app != "" ==> app[0] == 'l');
    }
    var fullPath := if app != "" then app + "/" + stream else stream;
    assert fullPath == "live/" + path;
    assert DropLive(fullPath) == path;
    SplitFirst(org, '/', name);
    SplitWhole(name, '/');
    assert Split(path, '/') == [org, name];
  }

  lemma ExtensionOf(base: string, ext: string)
    requires ext in MEDIA_EXTENSIONS
    ensures ExtensionLength(base + ext) == |ext|
  {
    var s := base + ext;
    assert HasSuffix(s, ext);
    assert s[|s| - 1] == ext[|ext| - 1];
    assert MEDIA_EXTENSIONS[0] == ".m3u8" && MEDIA_EXTENSIONS[1] == ".ts" && MEDIA_EXTENSIONS[2] == ".m4s";
    LastTwo(s, ".m3u8");
    LastTwo(s, ".ts");
    LastTwo(s, ".m4s");
    LastTwo(s, ".mp4");
    LastTwo(s, ".flv");
  }

  lemma LastTwo(s: string, suffix: string)
    requires |suffix| >= 2
    ensures HasSuffix(s, suffix) ==>
      |s| >= |suffix| && s[|s| - 1] == suffix[|suffix| - 1] && s[|s| - 2] == suffix[|suffix| - 2]
  {
    if HasSuffix(s, suffix) {
      assert s[|s| - |suffix|..][|suffix| - 1] == suffix[|suffix| - 1];
      assert s[|s| - |suffix|..][|suffix| - 2] == suffix[|suffix| - 2];
    }
  }

  lemma {:induction false} TrailingDigitsAppend(base: string, digits: string)
    requires AllDigits(digits)
    requires base != "" ==> !IsDigit(base[|base| - 1])
    ensures TrailingDigits(base + digits) == |digits|
  {
    if digits == "" {
      assert base + digits == base;
    } else {
      var n := |digits|;
      assert (base + digits)[..|base + digits| - 1] == base + digits[..n - 1];
      TrailingDigitsAppend(base, digits[..n - 1]);
    }
  }

  /** The publish path of a camera parses back exactly when its id carries no media extension. */
  lemma BareRoundTrip(e: Encoding, org: string, camera: string)
    requires Id(org) && Id(camera)
    ensures ParseStreamKey(Stream(e, org, camera), App(e, org)) == Live(org, camera)
      <==> ExtensionLength(camera) == 0
  {
    ParseEncoding(e, org, camera);
    if ExtensionLength(camera) > 0 {
      assert |StripMedia(camera)| < |camera|;
    }
  }

  lemma StripSegment(camera: string, digits: string, ext: string)
    requires AllDigits(digits) && digits != "" && ext in MEDIA_EXTENSIONS
    requires camera != ""
    ensures StripMedia(camera + "-" + digits + ext) == camera
  {
    var base := camera + "-" + digits;
    ExtensionOf(base, ext);
    assert (base + ext)[..|base|] == base;
    TrailingDigitsAppend(camera + "-", digits);
    assert base == (camera + "-") + digits;
    assert base[|camera|] == '-';
    assert base[..|camera|] == camera;
  }

  lemma SegmentIsId(camera: string, digits: string, ext: string)
    requires Id(camera) && AllDigits(digits) && ext in MEDIA_EXTENSIONS
    ensures Id(camera + "-" + digits + ext)
  {
    assert forall i | 0 <= i < |MEDIA_EXTENSIONS| :: '/' !in MEDIA_EXTENSIONS[i];
    assert '/' !in digits;
  }

  /** A segment file `camera-seq.ext` parses back for every camera id and every digit string. */
  lemma SegmentRoundTrip(e: Encoding, org: string, camera: string, digits: string, ext: string)
    requires Id(org) && Id(camera) && AllDigits(digits) && digits != "" && ext in MEDIA_EXTENSIONS
    ensures ParseStreamKey(Stream(e, org, camera + "-" + digits + ext), App(e, org)) == Live(org, camera)
  {
    SegmentIsId(camera, digits, ext);
    StripSegment(camera, digits, ext);
    ParseEncoding(e, org, camera + "-" + digits + ext);
  }

  /** A playlist `camera.m3u8` parses back exactly when the id does not end in a hyphen and digits. */
  lemma PlaylistRoundTrip(e: Encoding, org: string, camera: string)
    requires Id(org) && Id(camera)
    ensures ParseStreamKey(Stream(e, org, camera + ".m3u8"), App(e, org)) == Live(org, camera)
      <==> !EndsInSequence(camera)
  {
    var name := camera + ".m3u8";
    ParseEncoding(e, org, name);
    assert ".m3u8" == MEDIA_EXTENSIONS[0];
    ExtensionOf(camera, ".m3u8");
    assert name[..|name| - 5] == camera;
    if EndsInSequence(camera) {
      assert |DropSequence(camera)| < |camera|;
    }
  }
}
