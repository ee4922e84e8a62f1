/** The recording schedule: a window on the wall clock, written as two `HH:MM` texts. */
module Schedule {
  import opened Common
  import opened Text

  const MINUTES_PER_DAY := 1440

  /** JavaScript's `a < b` on strings. */
  predicate Less(a: string, b: string) {
    b != "" && (a == "" || a[0] < b[0] || (a[0] == b[0] && Less(a[1..], b[1..])))
  }

  /** The texts the schedule form accepts: two digits, a colon, two digits. */
  predicate TimeText(t: string) {
    |t| == 5 && t[2] == ':' && IsDigit(t[0]) && IsDigit(t[1]) && IsDigit(t[3]) && IsDigit(t[4])
  }

  function Hour(t: string): nat
    requires TimeText(t)
  {
    10 * DigitValue(t[0]) + DigitValue(t[1])
  }

  function Minute(t: string): nat
    requires TimeText(t)
  {
    10 * DigitValue(t[3]) + DigitValue(t[4])
  }

  /** A minute of an actual day, which the form does not insist on. */
  predicate ClockText(t: string) {
    TimeText(t) && Hour(t) < 24 && Minute(t) < 60
  }

  function MinuteOfDay(t: string): nat
    requires TimeText(t)
  {
    60 * Hour(t) + Minute(t)
  }

  /** Comparing the texts compares hours first and minutes second, even for impossible times. */
  lemma TextOrder(a: string, b: string)
    requires TimeText(a) && TimeText(b)
    ensures Less(a, b) <==> Hour(a) < Hour(b) || (Hour(a) == Hour(b) && Minute(a) < Minute(b))
  {
    LessStep(a, b, 0);
    LessStep(a, b, 1);
    LessStep(a, b, 2);
    LessStep(a, b, 3);
    LessStep(a, b, 4);
    assert a[0..] == a && b[0..] == b && a[5..] == "" && b[5..] == "";
  }

  lemma LessStep(a: string, b: string, k: nat)
    requires k < |a| && k < |b|
    ensures Less(a[k..], b[k..]) <==> a[k] < b[k] || (a[k] == b[k] && Less(a[k + 1..], b[k + 1..]))
  {
    assert a[k..][1..] == a[k + 1..] && b[k..][1..] == b[k + 1..];
  }

  predicate ShouldBeRecording(current: string, start: string, end: string) {
    if Less(end, start) then !Less(current, start) || Less(current, end)
    else !Less(current, start) && Less(current, end)
  }

  function Since(start: nat, minute: nat): nat {
    (minute - start) % MINUTES_PER_DAY
  }

  lemma SinceCases(start: nat, minute: nat)
    requires start < MINUTES_PER_DAY && minute < MINUTES_PER_DAY
    ensures Since(start, minute) == if minute >= start then minute - start else minute - start + MINUTES_PER_DAY
  {}

  /**
   The two-branch text comparison is one statement about the clock: the time since the window
   opened is less than the window's length, both around midnight.
   */
  lemma WindowIsModular(current: string, start: string, end: string)
    requires ClockText(current) && ClockText(start) && ClockText(end)
    ensures ShouldBeRecording(current, start, end)
      <==> Since(MinuteOfDay(start), MinuteOfDay(current)) < Since(MinuteOfDay(start), MinuteOfDay(end))
  {
    TextOrder(current, start);
    TextOrder(current, end);
    TextOrder(end, start);
    hide Less, Since;
    SinceCases(MinuteOfDay(start), MinuteOfDay(current));
    SinceCases(MinuteOfDay(start), MinuteOfDay(end));
  }

  /** `24:00` is accepted as an end time and means midnight. */
  lemma WindowToMidnight(current: string, start: string)
    requires ClockText(current) && ClockText(start)
    ensures ShouldBeRecording(current, start, "24:00") <==> MinuteOfDay(start) <= MinuteOfDay(current)
  {
    TextOrder(current, start);
    TextOrder(current, "24:00");
    TextOrder("24:00", start);
  }

  // ---- The decision ----

  datatype Config = Config(weekly: bool, start: string, end: string, days: Option<set<nat>>)

  datatype Action = StartRecording | StopRecording | Leave

  /** One schedule's turn, for a camera that exists. */
  function Decide(config: Config, day: nat, current: string, isRecording: bool, online: bool): Action {
    if config.weekly && config.days.Some? && day !in config.days.value then Leave
    else
      var should := ShouldBeRecording(current, config.start, config.end);
      if should && !isRecording && online then StartRecording
      else if !should && isRecording then StopRecording
      else Leave
  }

  /**
   A turn that succeeds leaves the camera recording exactly when the window is open, except that
   a camera which is not online is not started and that an excluded weekday changes nothing, not
   even a recording left running from the day before.
   */
  lemma DecisionFollowsWindow(config: Config, day: nat, current: string, isRecording: bool, online: bool)
    requires ClockText(current) && ClockText(config.start) && ClockText(config.end)
    ensures var action := Decide(config, day, current, isRecording, online);
      var after := if action == StartRecording then true else if action == StopRecording then false else isRecording;
      var s := MinuteOfDay(config.start);
      var open := Since(s, MinuteOfDay(current)) < Since(s, MinuteOfDay(config.end));
      && after == (if config.weekly && config.days.Some? && day !in config.days.value then isRecording
                   else open && (isRecording || online))
      && (action == StartRecording ==> !isRecording && online)
      && (action == StopRecording ==> isRecording)
  {
    WindowIsModular(current, config.start, config.end);
  }
}
