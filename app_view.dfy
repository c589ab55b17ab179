/** The application shell's own logic (`App.tsx`): the exercise selector,
    the `m:ss` session clock, and what it passes to the energy meter. */
module AppView {
  import opened FitnessTypes
  import opened Text
  import PoseDetection
  import EnergyMeter
  import Workout

  /** The exercises the selector offers, in order. */
  const Exercises: seq<ExerciseType> := [Squat, Pushup, JumpingJack]

  /** The selector offers exactly the exercises that have an analyzer. */
  lemma SelectorOffersImplemented(e: ExerciseType)
    ensures e in Exercises <==> PoseDetection.Implemented(e)
    ensures Plank !in Exercises && Lunge !in Exercises
  {
  }

  // ---------------------------------------------------------------------
  // The session clock
  // ---------------------------------------------------------------------

  /** JavaScript's `%` on integers: the remainder takes the sign of the
      dividend and is smaller than the divisor in size. */
  function JsRemainder(a: int, b: int): (r: int)
    requires b > 0
    ensures a >= 0 ==> 0 <= r < b
    ensures a < 0 ==> -b < r <= 0
    ensures (a - r) % b == 0
  {
    if a >= 0 then
      MultipleRem(a / b, b);
      a % b
    else
      MultipleRem(-((-a) / b), b);
      assert a + (-a) % b == b * (-((-a) / b));
      -((-a) % b)
  }

  /** A multiple of `b` leaves no remainder. */
  lemma MultipleRem(k: int, b: int)
    requires b > 0
    ensures (b * k) % b == 0
  {
    var q := (b * k) / b;
    var r := (b * k) % b;
    assert b * k == b * q + r;
    var d := k - q;
    assert b * d == r by {
      assert b * d == b * k - b * q;
    }
    MulOutside(b, d);
  }

  /** A non-zero multiple of a positive `b` is at least `b` in size. */
  lemma MulOutside(b: int, d: int)
    requires b > 0
    ensures d >= 1 ==> b * d >= b
    ensures d <= -1 ==> b * d <= -b
  {
    if d >= 1 {
      assert b * d == b + b * (d - 1);
      assert b * (d - 1) >= 0;
    } else if d <= -1 {
      assert b * d == -b + b * (d + 1);
      assert b * (d + 1) <= 0;
    }
  }

  /** The minutes and seconds fields of a non-negative number of seconds:
      the seconds field is below 60 and the two fields make up the whole. */
  lemma TimeFields(seconds: int)
    requires seconds >= 0
    ensures 0 <= JsRemainder(seconds, 60) < 60
    ensures (seconds / 60) * 60 + JsRemainder(seconds, 60) == seconds
  {
  }

  /** A number below 100 prints with at most two digits. */
  lemma SmallNatDigits(n: nat)
    requires n < 100
    ensures |NatToString(n)| <= 2
  {
  }

  /** `formatTime`: whole minutes, a colon and the remaining seconds padded
      to two digits. A negative time has negative minutes and so starts with
      a minus sign. */
  function FormatTime(seconds: int): (t: string)
    ensures |t| >= 4
    ensures seconds < 0 <==> t[0] == '-'
  {
    var mins := seconds / 60;
    var secs := JsRemainder(seconds, 60);
    IntToString(mins) + ":" + PadStart2(IntToString(secs))
  }

  /** The clock text of `mins` minutes and `secs` seconds. */
  function ClockText(mins: nat, secs: nat): string {
    NatToString(mins) + ":" + PadStart2(NatToString(secs))
  }

  /** For a non-negative time, `formatTime` prints the whole minutes and
      the seconds left over. */
  lemma FormatTimeFields(seconds: int)
    requires seconds >= 0
    ensures FormatTime(seconds) == ClockText(seconds / 60, seconds % 60)
  {
  }

  /** Reads an `m:ss` string back into its minutes and seconds. */
  function ParseTime(t: string): Option<(nat, nat)> {
    if |t| >= 4 && t[|t| - 3] == ':' && AllDigits(t[..|t| - 3]) && AllDigits(t[|t| - 2..]) then
      Some((ParseNat(t[..|t| - 3]), ParseNat(t[|t| - 2..])))
    else None
  }

  /** The number of seconds a minutes-and-seconds pair stands for. */
  function TotalSeconds(fields: (nat, nat)): nat {
    fields.0 * 60 + fields.1
  }

  /** Digits, a colon and two digits read back as the two numbers. */
  lemma ParseClockFields(m: string, secs: string)
    requires |m| >= 1 && AllDigits(m) && |secs| == 2 && AllDigits(secs)
    ensures ParseTime(m + ":" + secs) == Some((ParseNat(m), ParseNat(secs)))
  {
    var t := m + ":" + secs;
    assert t[..|t| - 3] == m;
    assert t[|t| - 2..] == secs;
  }

  /** Leading zeros do not change a digit string's value. */
  lemma ParseNatPadded(s: string)
    requires AllDigits(s) && |s| >= 1
    ensures AllDigits(PadStart2(s)) && ParseNat(PadStart2(s)) == ParseNat(s)
  {
  }

  /** The clock text reads back as the minutes and seconds it shows. */
  lemma ClockTextRoundTrip(mins: nat, secs: nat)
    requires secs < 60
    ensures ParseTime(ClockText(mins, secs)) == Some((mins, secs))
  {
    var digits := NatToString(secs);
    SmallNatDigits(secs);
    ParseNatPadded(digits);
    ParseClockFields(NatToString(mins), PadStart2(digits));
    ParseNatToString(mins);
    ParseNatToString(secs);
  }

  /** The clock text is digits, a colon, then exactly two digits. */
  lemma ClockTextShape(mins: nat, secs: nat)
    requires secs < 60
    ensures var t := ClockText(mins, secs);
      |t| >= 4 && t[|t| - 3] == ':' && AllDigits(t[..|t| - 3]) && AllDigits(t[|t| - 2..]) && |t[|t| - 2..]| == 2
  {
    ClockTextRoundTrip(mins, secs);
  }

  /** The clock text of a non-negative time reads back as that time. */
  lemma FormatTimeRoundTrip(seconds: int)
    requires seconds >= 0
    ensures ParseTime(FormatTime(seconds)).Some?
    ensures TotalSeconds(ParseTime(FormatTime(seconds)).value) == seconds
  {
    var mins: nat := seconds / 60;
    var secs: nat := seconds % 60;
    FormatTimeFields(seconds);
    ClockTextRoundTrip(mins, secs);
    TimeFields(seconds);
  }

  /** A negative time, which the clock can be handed right after a restart,
      comes out with two minus signs, as in JavaScript. */
  lemma FormatTimeNegative()
    ensures FormatTime(-5) == "-1:-5"
  {
  }

  /** The whole seconds between a session's start and a clock reading. */
  function ElapsedSeconds(sd: WorkoutSession, currentTime: int): int {
    (currentTime - sd.startTime) / 1000
  }

  /** The session clock: `0:00` without a session, else the whole seconds
      since the session started. */
  function GetCurrentDuration(session: Option<WorkoutSession>, currentTime: int): (t: string)
    ensures session.None? ==> t == FormatTime(0)
  {
    match session
    case None => "0:00"
    case Some(sd) => FormatTime(ElapsedSeconds(sd, currentTime))
  }

  /** For a clock reading at or after the start, the clock shows the
      elapsed whole seconds. */
  lemma CurrentDurationReadsBack(sd: WorkoutSession, currentTime: int)
    requires currentTime >= sd.startTime
    ensures ParseTime(GetCurrentDuration(Some(sd), currentTime)).Some?
    ensures TotalSeconds(ParseTime(GetCurrentDuration(Some(sd), currentTime)).value)
            == (currentTime - sd.startTime) / 1000
  {
    ElapsedNonNegative(sd, currentTime);
    FormatTimeRoundTrip(ElapsedSeconds(sd, currentTime));
  }

  lemma ElapsedNonNegative(sd: WorkoutSession, currentTime: int)
    requires currentTime >= sd.startTime
    ensures ElapsedSeconds(sd, currentTime) >= 0
  {
  }

  // ---------------------------------------------------------------------
  // What the meter is given
  // ---------------------------------------------------------------------

  /** `sessionData?.totalReps || 0`. */
  function MeterReps(session: Option<WorkoutSession>): (n: int)
    ensures n == 0 <==> session.None? || session.value.totalReps == 0
    ensures session.Some? && session.value.totalReps != 0 ==> n == session.value.totalReps
  {
    if session.Some? then session.value.totalReps else 0
  }

  /** `latestExerciseResult?.isCorrectForm ?? true`. */
  function MeterForm(latest: Option<ExerciseResult>): (good: bool)
    ensures !good <==> latest.Some? && !latest.value.isCorrectForm
  {
    if latest.Some? then latest.value.isCorrectForm else true
  }

  /** In every reachable workout state the meter has a badge, the
      achievement notice shows exactly at full energy, and the boost
      condition is false without a session, so the corrected boost effect
      hides the pop-up once the session is gone. */
  lemma MeterOfValidState(s: Workout.WorkoutState, p: EnergyMeter.BoostPopup)
    requires Workout.Valid(s)
    ensures EnergyMeter.LevelBadge(s.goose.energyLevel).Some?
    ensures EnergyMeter.ShowAchievement(s.goose.energyLevel) <==> s.goose.energyLevel == 100
    ensures s.session.None? ==> !EnergyMeter.ShowBoost(MeterForm(s.latest), MeterReps(s.session))
    ensures s.session.None? ==> !EnergyMeter.BoostEffectFixed(p, MeterForm(s.latest), MeterReps(s.session)).showing
  {
  }
}
