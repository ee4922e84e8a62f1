/** Stream profiles: the settings that reach FFmpeg, and the fingerprint that decides on a restart. */
module StreamProfiles {
  import opened Common
  import opened Text

  type ProfileId = string

  // ---- Fingerprint ----

  /** The seven settings that reach FFmpeg. */
  datatype Settings = Settings(
    codec: Option<string>, preset: Option<string>, resolution: Option<string>, fps: Option<nat>,
    videoBitrate: Option<string>, audioCodec: Option<string>, audioBitrate: Option<string>)

  const FINGERPRINT_FIELDS := ["codec", "preset", "resolution", "fps", "videoBitrate", "audioCodec", "audioBitrate"]

  function Show(v: Option<string>): string {
    v.GetOr("null")
  }

  function Values(s: Settings): (vs: seq<string>)
    ensures |vs| == |FINGERPRINT_FIELDS|
  {
    [Show(s.codec), Show(s.preset), Show(s.resolution),
     Show(ShowFps(s.fps)),
     Show(s.videoBitrate), Show(s.audioCodec), Show(s.audioBitrate)]
  }

  /** `key=value` pairs from field `k` on, joined by bars. */
  function Joined(values: seq<string>, k: nat): string
    requires |values| == |FINGERPRINT_FIELDS| && k < |values|
    decreases |values| - k
  {
    var pair := FINGERPRINT_FIELDS[k] + "=" + values[k];
    if k == |values| - 1 then pair else pair + "|" + Joined(values, k + 1)
  }

  function Canonical(s: Settings): string {
    Joined(Values(s), 0)
  }

  /** No bar in a value, and no value that reads like the absent one. */
  predicate PlainValue(v: Option<string>) {
    v.Some? ==> '|' !in v.value && v.value != "null"
  }

  predicate PlainSettings(s: Settings) {
    PlainValue(s.codec) && PlainValue(s.preset) && PlainValue(s.resolution) && PlainValue(s.videoBitrate)
    && PlainValue(s.audioCodec) && PlainValue(s.audioBitrate)
  }

  lemma {:induction false} JoinedInjective(v: seq<string>, w: seq<string>, k: nat)
    requires |v| == |FINGERPRINT_FIELDS| == |w| && k < |v|
    requires forall i | 0 <= i < |v| :: '|' !in v[i] && '|' !in w[i]
    requires Joined(v, k) == Joined(w, k)
    ensures v[k..] == w[k..]
    decreases |v| - k
  {
    var key := FINGERPRINT_FIELDS[k] + "=";
    var a, b := key + v[k], key + w[k];
    if k < |v| - 1 {
      assert forall i | 0 <= i < |FINGERPRINT_FIELDS| :: '|' !in FINGERPRINT_FIELDS[i];
      assert '|' !in a && '|' !in b;
      assert a + ['|'] + Joined(v, k + 1) == Joined(v, k);
      assert b + ['|'] + Joined(w, k + 1) == Joined(w, k);
      SplitInjective(a, Joined(v, k + 1), '|', b, Joined(w, k + 1));
      JoinedInjective(v, w, k + 1);
    }
    assert a == b;
    assert v[k] == a[|key|..] && w[k] == b[|key|..];
    assert v[k..] == [v[k]] + v[k + 1..] && w[k..] == [w[k]] + w[k + 1..];
  }

  lemma ShowInjective(v: Option<string>, w: Option<string>)
    requires PlainValue(v) && PlainValue(w) && Show(v) == Show(w)
    ensures v == w
  {}

  /** A numeral is never the text for an absent value. */
  lemma NumeralIsPlain(n: nat)
    ensures PlainValue(Some(Decimal(n)))
  {
    DecimalRoundTrip(n);
    assert "null"[0] == 'n' && !IsDigit('n');
  }

  function ShowFps(fps: Option<nat>): Option<string> {
    if fps.Some? then Some(Decimal(fps.value)) else None
  }

  lemma FpsInjective(a: Option<nat>, b: Option<nat>)
    requires Show(ShowFps(a)) == Show(ShowFps(b))
    ensures a == b
  {
    if a.Some? { NumeralIsPlain(a.value); DecimalRoundTrip(a.value); }
    if b.Some? { NumeralIsPlain(b.value); DecimalRoundTrip(b.value); }
    ShowInjective(ShowFps(a), ShowFps(b));
  }

  lemma NoBars(s: Settings)
    requires PlainSettings(s)
    ensures forall i | 0 <= i < |Values(s)| :: '|' !in Values(s)[i]
  {
    assert "null" == ['n', 'u', 'l', 'l'];
    if s.fps.Some? { NumeralIsPlain(s.fps.value); DecimalRoundTrip(s.fps.value); }
  }

  /** Two plain settings have the same canonical text exactly when they are the same. */
  lemma CanonicalInjective(s: Settings, t: Settings)
    requires PlainSettings(s) && PlainSettings(t)
    ensures Canonical(s) == Canonical(t) <==> s == t
  {
    if Canonical(s) == Canonical(t) {
      var v, w := Values(s), Values(t);
      NoBars(s);
      NoBars(t);
      JoinedInjective(v, w, 0);
      hide Joined, Decimal;
      assert v[0..] == v && w[0..] == w;
      assert v[0] == w[0] && v[1] == w[1] && v[2] == w[2] && v[3] == w[3] && v[4] == w[4] && v[5] == w[5]
        && v[6] == w[6];
      FpsInjective(s.fps, t.fps);
      ShowInjective(s.codec, t.codec);
      ShowInjective(s.preset, t.preset);
      ShowInjective(s.resolution, t.resolution);
      ShowInjective(s.videoBitrate, t.videoBitrate);
      ShowInjective(s.audioCodec, t.audioCodec);
      ShowInjective(s.audioBitrate, t.audioBitrate);
    }
  }

  /** The SHA-256 digest stands for its input. */
  datatype Fingerprint = NoProfile | Digest(canonical: string)

  function FingerprintProfile(s: Option<Settings>): Fingerprint {
    if s.Some? then Digest(Canonical(s.value)) else NoProfile
  }
}
