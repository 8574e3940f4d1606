/**
 * The session countdown's arithmetic (public/dom-handler.js:571-653): the time
 * left, its `mm:ss` text, the warning and critical thresholds, and the
 * timer's start/tick/extend/stop transitions as values. All times are integer
 * milliseconds; the clock is a parameter.
 */
module SessionTimer {
  import opened Wrappers
  import opened JsBuiltins

  const DefaultDurationMs := 2 * 60 * 1000
  const ExtensionMs := 2 * 60 * 1000
  const CriticalMs := 30000
  const WarningMs := 60000

  /** `Math.max(0, duration - (now - start))`. */
  function Remaining(start: int, duration: int, now: int): (r: nat)
    ensures r >= duration - (now - start)
    ensures r == 0 || r == duration - (now - start)
    ensures now >= start && duration >= 0 ==> r <= duration
  {
    var left := duration - (now - start);
    if left > 0 then left else 0
  }

  /** `Math.ceil(remaining / 1000)`: whole seconds shown, rounded up. */
  function ShownSeconds(remaining: nat): nat {
    CeilDiv(remaining, 1000)
  }

  /** The timer text: minutes and seconds, each padded to two digits. */
  function TimerText(remaining: nat): string {
    var total := ShownSeconds(remaining);
    PadStart2(DecimalString(total / 60)) + ":" + PadStart2(DecimalString(total % 60))
  }

  predicate AllDecimal(s: string) {
    forall i :: 0 <= i < |s| ==> IsDecimalDigit(s[i])
  }

  /** Reads a `m:ss` text back as a number of seconds. */
  function ReadTimerText(s: string): Option<nat> {
    if |s| >= 4 && s[|s| - 3] == ':' then ReadFields(s[..|s| - 3], s[|s| - 2..]) else None
  }

  /** The minutes and seconds fields on either side of the colon, as seconds; the seconds must read below 60. */
  function ReadFields(minutes: string, seconds: string): Option<nat> {
    if AllDecimal(minutes) && AllDecimal(seconds) && DigitsValue(seconds, 10) < 60
    then Some(DigitsValue(minutes, 10) * 60 + DigitsValue(seconds, 10))
    else None
  }

  /**
   * The text always has a two-digit seconds field that reads below 60, a minutes
   * field of at least two digits with no leading zero beyond two, and reading it
   * back gives the remaining time in whole seconds rounded up.
   */
  lemma TimerTextReadsBack(remaining: nat)
    ensures ReadTimerText(TimerText(remaining)) == Some(ShownSeconds(remaining))
    ensures |TimerText(remaining)| >= 5
    ensures var t := TimerText(remaining);
      t[|t| - 3] == ':' && DigitsValue(t[|t| - 2..], 10) < 60 && (|t| > 5 ==> t[0] != '0')
    ensures ShownSeconds(remaining) * 1000 >= remaining
    ensures ShownSeconds(remaining) == 0 || (ShownSeconds(remaining) - 1) * 1000 < remaining
  {
    var total := ShownSeconds(remaining);
    var mm := PadStart2(DecimalString(total / 60));
    var ss := PadStart2(DecimalString(total % 60));
    PaddedFields(total);
    ReadJoinedText(mm, ss);
    var t := mm + ":" + ss;
    assert t[|t| - 2..] == ss && t[|t| - 3] == ':' && t[0] == mm[0];
  }

  /**
   * Both padded fields are all digits, the seconds field has two and reads below 60,
   * the minutes field has no leading zero beyond two digits, and they read back.
   */
  lemma PaddedFields(total: nat)
    ensures var mm := PadStart2(DecimalString(total / 60));
            var ss := PadStart2(DecimalString(total % 60));
            |mm| >= 2 && |ss| == 2 && AllDecimal(mm) && AllDecimal(ss) &&
            DigitsValue(ss, 10) < 60 && (|mm| > 2 ==> mm[0] != '0') && ReadFields(mm, ss) == Some(total)
  {
    var minutes, seconds := total / 60, total % 60;
    var mm, ss := PadStart2(DecimalString(minutes)), PadStart2(DecimalString(seconds));
    PaddedField(minutes);
    PaddedField(seconds);
    assert DigitsValue(ss, 10) == seconds < 60;
    ReadDigitFields(mm, ss, minutes, seconds);
    assert minutes * 60 + seconds == total;
  }

  /** One padded field: all digits, at least two of them, exactly two below 100, no leading zero beyond two, and its value. */
  lemma PaddedField(n: nat)
    ensures var f := PadStart2(DecimalString(n));
            AllDecimal(f) && DigitsValue(f, 10) == n && |f| >= 2 && (n < 100 ==> |f| == 2) &&
            (|f| > 2 ==> f[0] != '0')
  {
    PaddedDecimal(n);
  }

  lemma ReadDigitFields(mm: string, ss: string, minutes: nat, seconds: nat)
    requires AllDecimal(mm) && AllDecimal(ss) && seconds < 60
    requires DigitsValue(mm, 10) == minutes && DigitsValue(ss, 10) == seconds
    ensures ReadFields(mm, ss) == Some(minutes * 60 + seconds)
  {
  }

  lemma ReadJoinedText(mm: string, ss: string)
    requires |mm| >= 2 && |ss| == 2 && AllDecimal(mm) && AllDecimal(ss)
    ensures ReadTimerText(mm + ":" + ss) == ReadFields(mm, ss)
    ensures |mm + ":" + ss| >= 5
  {
    var s := mm + ":" + ss;
    var k := |mm|;
    assert |s| == k + 3 && |s| - 3 == k && |s| - 2 == k + 1;
    assert s[..k] == mm;
    assert s[k + 1..] == ss;
    assert s[k] == ':';
  }

  /** The two texts the source's own comments and reset value fix. */
  lemma TimerTextExamples()
    ensures TimerText(1000) == "00:01"
    ensures TimerText(999) == "00:01"
    ensures TimerText(120000) == "02:00"
    ensures TimerText(0) == "00:00"
  {
    assert CeilDiv(1000, 1000) == 1;
    assert CeilDiv(999, 1000) == 1;
    assert CeilDiv(120000, 1000) == 120;
    assert CeilDiv(0, 1000) == 0;
  }

  /** The colour class of the timer text and progress bar. */
  datatype Severity = Normal | Warning | Critical

  function SeverityOf(remaining: int): Severity {
    if remaining <= CriticalMs then Critical
    else if remaining <= WarningMs then Warning
    else Normal
  }

  /**
   * The colour agrees with the digits shown: critical exactly when the text reads
   * at most 00:30, warning exactly when it reads 00:31 to 01:00, never both.
   */
  lemma SeverityMatchesText(remaining: nat)
    ensures SeverityOf(remaining) == Critical <==> ShownSeconds(remaining) <= 30
    ensures SeverityOf(remaining) == Warning <==> 30 < ShownSeconds(remaining) <= 60
    ensures SeverityOf(remaining) == Normal <==> ShownSeconds(remaining) > 60
  {
    ShownSecondsAtMost(remaining, 30);
    ShownSecondsAtMost(remaining, 60);
  }

  /** The text reads at most k seconds exactly when at most k thousand milliseconds are left. */
  lemma ShownSecondsAtMost(remaining: nat, k: nat)
    ensures ShownSeconds(remaining) <= k <==> remaining <= k * 1000
  {
    var t := ShownSeconds(remaining);
    if t <= k {
      assert t * 1000 <= k * 1000;
    } else {
      assert (t - 1) * 1000 >= k * 1000;
    }
  }

  /** The extend button is shown by a tick only in the last thirty seconds, before zero. */
  predicate OffersExtension(remaining: int) {
    remaining <= CriticalMs && remaining > 0
  }

  /** Offering an extension happens only in the critical state, and in every critical state before zero. */
  lemma ExtensionOnlyWhenCritical(remaining: int)
    ensures OffersExtension(remaining) <==> SeverityOf(remaining) == Critical && remaining > 0
  {
  }

  // ---------------------------------------------------------------------------
  // The timer's state and its transitions
  // ---------------------------------------------------------------------------

  /** `sessionStartTime`, `sessionDuration` and `isSessionActive`. */
  datatype Timer = Timer(startTime: Option<int>, duration: int, active: bool)

  /** The state the page begins with: two minutes, never started. */
  const InitialTimer := Timer(None, DefaultDurationMs, false)

  /** `startSessionTimer()`: the duration is kept, so an earlier extension carries over. */
  function Start(t: Timer, now: int): Timer {
    Timer(Some(now), t.duration, true)
  }

  /** A tick does something only when the timer is active and its start time is truthy (not 0). */
  predicate Ticking(t: Timer) {
    t.active && t.startTime.Some? && t.startTime.value != 0
  }

  /** The remaining time a tick computes. */
  function TickRemaining(t: Timer, now: int): nat
    requires Ticking(t)
  {
    Remaining(t.startTime.value, t.duration, now)
  }

  /** A tick at `now` stops the session: the timer is ticking and no time is left. */
  predicate ExpiresAt(t: Timer, now: int) {
    Ticking(t) && TickRemaining(t, now) == 0
  }

  /** The timer after a tick: an expiring tick stops the session, which deactivates the timer. */
  function Tick(t: Timer, now: int): Timer {
    if ExpiresAt(t, now) then t.(active := false) else t
  }

  /** `stopSessionTimer()`. */
  function Stop(t: Timer): Timer {
    t.(active := false)
  }

  /** `extendSession()`: two more minutes, then an immediate tick. */
  function Extend(t: Timer, now: int): Timer {
    Tick(t.(duration := t.duration + ExtensionMs), now)
  }

  /** The number of ticks in `nows` that stop the session, ticking in order. */
  function Expirations(t: Timer, nows: seq<int>): nat
    decreases |nows|
  {
    if nows == [] then 0
    else (if ExpiresAt(t, nows[0]) then 1 else 0) + Expirations(Tick(t, nows[0]), nows[1..])
  }

  /** Ticks of a timer that is not ticking change nothing and never stop the session. */
  lemma {:induction false} IdleTicksDoNothing(t: Timer, nows: seq<int>)
    requires !Ticking(t)
    ensures Expirations(t, nows) == 0
    decreases |nows|
  {
    if nows != [] {
      IdleTicksDoNothing(Tick(t, nows[0]), nows[1..]);
    }
  }

  /** However the clock moves, the session is stopped by the timer at most once per start. */
  lemma {:induction false} ExpiresAtMostOnce(t: Timer, nows: seq<int>)
    ensures Expirations(t, nows) <= 1
    decreases |nows|
  {
    if nows != [] {
      if ExpiresAt(t, nows[0]) {
        IdleTicksDoNothing(Tick(t, nows[0]), nows[1..]);
      } else {
        ExpiresAtMostOnce(Tick(t, nows[0]), nows[1..]);
      }
    }
  }

  /**
   * Extending adds exactly two minutes to the duration and keeps the start time;
   * while time is left, the time left grows by exactly two minutes.
   */
  lemma ExtendAddsTwoMinutes(t: Timer, now: int)
    requires Ticking(t) && TickRemaining(t, now) > 0
    ensures Extend(t, now).duration == t.duration + ExtensionMs
    ensures Extend(t, now).startTime == t.startTime && Extend(t, now).active
    ensures TickRemaining(Extend(t, now), now) == TickRemaining(t, now) + ExtensionMs
  {
  }

  /**
   * The duration is never reset: after an extension, a stop and a new start, the
   * new session runs for the extended duration from its own start time, whether
   * the extension came while time was left, after the deadline but before the
   * next tick, or on an idle timer.
   */
  lemma ExtensionCarriesOver(t: Timer, now: int, later: int)
    ensures Start(Stop(Extend(t, now)), later) == Timer(Some(later), t.duration + ExtensionMs, true)
  {
  }

  /**
   * A two-minute session started at `s`: 90 seconds in, 30 seconds are left and
   * the state is critical; 119 seconds in, the text reads 00:01 (still critical);
   * 120 seconds in, the tick stops the session; extending with 25 seconds left
   * leaves 145 seconds.
   */
  lemma DefaultSessionTimeline(s: int)
    requires s != 0
    ensures var t := Start(InitialTimer, s);
      SeverityOf(TickRemaining(t, s + 90000)) == Critical &&
      TimerText(TickRemaining(t, s + 119000)) == "00:01" &&
      !ExpiresAt(t, s + 119000) && ExpiresAt(t, s + 120000) && ExpiresAt(t, s + 150000) &&
      TickRemaining(Extend(t, s + 95000), s + 95000) == 145000
  {
    TimerTextExamples();
  }
}
