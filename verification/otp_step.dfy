/**
 * src/screens/register/OtpStep.tsx: the sign-up screen where the SMS code is
 * typed. The field keeps digits only, a three-minute timer counts down to
 * zero, and Verify is enabled for a six-character code.
 */
module OtpStep {
  import Text
  import GroupRegistration

  /** The timer's starting value in seconds (line 10). */
  const InitialTimer: nat := 180

  /** The field's maxLength (line 74). */
  const MaxLength: nat := 6

  /** The field's onChange (lines 76-78): every character that is not 0-9 is removed. */
  function CodeAfterChange(value: string): (code: string)
    ensures |code| <= |value|
    ensures forall i :: 0 <= i < |code| ==> Text.IsDigit(code[i])
  {
    Text.Digits(value)
  }

  /** The digits kept are the digits typed, in order, and a code already of digits is kept whole. */
  lemma {:induction false} CodeAfterChangeSpec(value: string)
    ensures CodeAfterChange(value) == Text.Digits(value)
    ensures CodeAfterChange(CodeAfterChange(value)) == CodeAfterChange(value)
    ensures (forall i :: 0 <= i < |value| ==> Text.IsDigit(value[i])) ==> CodeAfterChange(value) == value
    ensures |value| <= MaxLength ==> |CodeAfterChange(value)| <= MaxLength
  {
    Text.DigitsIdempotent(value);
  }

  /** One tick of the interval (line 14): down by one, but never below zero. */
  function Tick(prev: nat): (r: nat)
  {
    if prev > 0 then prev - 1 else 0
  }

  /** The timer agrees tick for tick with the countdown of the group registration screen. */
  lemma TickIsCountdown(prev: nat)
    ensures Tick(prev) == GroupRegistration.Countdown(prev)
    ensures Tick(prev) <= prev && (prev > 0 ==> Tick(prev) == prev - 1) && (prev == 0 ==> Tick(prev) == 0)
  {
  }

  /** The timer after n seconds. */
  function TimerAfter(n: nat): nat
  {
    if n == 0 then InitialTimer else Tick(TimerAfter(n - 1))
  }

  /** After n seconds the timer shows 180 - n, and zero from the third minute on. */
  lemma {:induction false} TimerAfterSpec(n: nat)
    ensures TimerAfter(n) == if n <= InitialTimer then InitialTimer - n else 0
  {
    if n > 0 {
      TimerAfterSpec(n - 1);
    }
  }

  /** formatTime (lines 19-23): minutes, a colon, a '0' when the seconds are below 10, then the seconds. */
  function FormatTime(seconds: nat): (r: string)
    ensures |r| >= 4 && r[|r| - 3] == ':'
    ensures forall i :: 0 <= i < |r| && i != |r| - 3 ==> Text.IsDigit(r[i])
  {
    Text.NatToString(seconds / 60) + ":" + (if seconds % 60 < 10 then "0" else "") + Text.NatToString(seconds % 60)
  }

  /**
   * Both screens render a time the same way, so this one too ends in ':'
   * and two digits, and reads back as the seconds it shows.
   */
  lemma FormatTimeSpec(seconds: nat)
    ensures FormatTime(seconds) == GroupRegistration.FormatTime(seconds)
    ensures var t := FormatTime(seconds);
            |t| >= 4 && t[|t| - 3] == ':'
            && Text.DigitsValue(t[..|t| - 3]) * 60 + Text.DigitsValue(t[|t| - 2..]) == seconds
  {
    var s := seconds % 60;
    assert s < 10 ==> ("0" + Text.NatToString(s)) == Text.Pad2(s);
    assert Text.NatToString(seconds / 60) + ":" + ("0" + Text.NatToString(s))
        == Text.NatToString(seconds / 60) + ":" + "0" + Text.NatToString(s);
    GroupRegistration.FormatTimeRoundTrip(seconds);
  }

  /** The Verify button (line 97) is enabled when the code has exactly six characters. */
  predicate CanVerify(code: string)
  {
    !(|code| != MaxLength)
  }

  /** Verify is enabled exactly when six digits have been typed. */
  lemma CanVerifySpec(value: string)
    ensures CanVerify(CodeAfterChange(value)) <==> |Text.Digits(value)| == 6
    ensures CanVerify(CodeAfterChange(value)) ==> forall i :: 0 <= i < 6 ==> Text.IsDigit(CodeAfterChange(value)[i])
  {
  }
}
