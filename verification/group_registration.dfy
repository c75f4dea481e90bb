/**
 * src/screens/profile/GroupRegistrationScreen.tsx: a user joins a group by
 * proving ownership of a company or school email address. The screen sends a
 * code to the address, collects it in six one-digit slots (submitting on its
 * own once every slot is filled) and counts down the code's lifetime.
 * Server replies are parameters of the handlers.
 */
module GroupRegistration {
  import opened Wrappers
  import Text

  datatype Step = Input | Verify | Success

  /** The message shown under the form; NoError is the empty string. */
  datatype Error = NoError | InvalidEmail | WrongLength | SendFailed | VerifyFailed | Network | Server(message: string)

  /** The reply to the send-code request (lines 76-97). */
  datatype SendReply = SendThrew | SendAccepted(groupName: Option<string>, expiresIn: Option<nat>) | SendRejected(message: Option<string>)

  /** The reply to the verify request (lines 135-157). */
  datatype VerifyReply = VerifyThrew | VerifyAccepted(groupName: Option<string>) | VerifyRejected(message: Option<string>)

  const CodeLength: nat := 6
  const DefaultExpiry: nat := 300
  const EmptyCode: seq<string> := ["", "", "", "", "", ""]

  /** `/^\d*$/`: the text is made of decimal digits only (the empty text included). */
  predicate AllDigits(s: string)
  {
    forall i :: 0 <= i < |s| ==> Text.IsDigit(s[i])
  }

  /** `value.slice(-1)`: the last character typed, or nothing. */
  function Slot(value: string): (r: string)
    ensures |r| <= 1
    ensures r == [] <==> value == []
    ensures r != [] ==> r[0] == value[|value| - 1]
  {
    if value == [] then [] else [value[|value| - 1]]
  }

  /** Six slots of at most one digit each. */
  predicate SlotsValid(code: seq<string>)
  {
    |code| == CodeLength && forall i :: 0 <= i < |code| ==> |code[i]| <= 1 && AllDigits(code[i])
  }

  lemma EmptyCodeValid()
    ensures SlotsValid(EmptyCode)
  {
  }

  /** The sum of the slot lengths. */
  function TotalLength(parts: seq<string>): nat
  {
    if parts == [] then 0 else |parts[0]| + TotalLength(parts[1..])
  }

  /** `code.join('')` is as long as the slots together. */
  lemma {:induction false} JoinLength(parts: seq<string>)
    ensures |Text.Join(parts, "")| == TotalLength(parts)
  {
    if |parts| > 1 {
      JoinLength(parts[1..]);
    } else if |parts| == 1 {
      assert parts[1..] == [];
    }
  }

  /** Slots of at most one character fill a text of length |parts| exactly when none is empty. */
  lemma {:induction false} ShortSlotsLength(parts: seq<string>)
    requires forall i :: 0 <= i < |parts| ==> |parts[i]| <= 1
    ensures TotalLength(parts) <= |parts|
    ensures TotalLength(parts) == |parts| <==> forall i :: 0 <= i < |parts| ==> parts[i] != []
  {
    if parts != [] {
      ShortSlotsLength(parts[1..]);
      assert forall i :: 1 <= i < |parts| ==> parts[i] == parts[1..][i - 1];
    }
  }

  /** The auto-submit test of line 114: every slot is non-empty and the joined code has six characters. */
  predicate Complete(code: seq<string>)
  {
    (forall i :: 0 <= i < |code| ==> code[i] != []) && |Text.Join(code, "")| == CodeLength
  }

  /**
   * For six one-digit slots, the code is submitted exactly when no slot is
   * empty, and the length test adds nothing.
   */
  lemma CompleteIffFilled(code: seq<string>)
    requires SlotsValid(code)
    ensures Complete(code) <==> forall i :: 0 <= i < |code| ==> code[i] != []
  {
    JoinLength(code);
    ShortSlotsLength(code);
  }

  /** Putting the last character of a digit string into one slot keeps the slots valid. */
  lemma SetSlotValid(code: seq<string>, index: nat, value: string)
    requires SlotsValid(code) && index < CodeLength && AllDigits(value)
    ensures SlotsValid(code[index := Slot(value)])
  {
  }

  /** The guard of lines 68-71: a non-blank address that contains '@'. */
  predicate EmailAccepted(email: string)
  {
    !Text.IsBlank(email) && '@' in email
  }

  /** The address sent: trimmed and lower-cased (line 80). */
  function SentEmail(email: string): string
  {
    Text.Lower(Text.Trim(email))
  }

  /** An accepted address is never sent empty, and trimming only shortens it. */
  lemma SentEmailNonEmpty(email: string)
    requires EmailAccepted(email)
    ensures SentEmail(email) != [] && |SentEmail(email)| <= |email|
  {
  }

  /** `data.expires_in || 300`: a missing or zero lifetime becomes five minutes. */
  function ExpiryOf(expiresIn: Option<nat>): (r: nat)
    ensures r > 0
    ensures expiresIn.Some? && expiresIn.value > 0 ==> r == expiresIn.value
    ensures (expiresIn.None? || expiresIn.value == 0) ==> r == DefaultExpiry
  {
    if expiresIn.Some? && expiresIn.value != 0 then expiresIn.value else DefaultExpiry
  }

  /** `data.message || fallback`. */
  function MessageOr(message: Option<string>, fallback: Error): (r: Error)
    ensures message.Some? && message.value != [] ==> r == Server(message.value)
    ensures (message.None? || message.value == []) ==> r == fallback
  {
    if message.Some? && message.value != [] then Server(message.value) else fallback
  }

  /** One tick of the countdown, `Math.max(0, prev - 1)` (line 49). */
  function Countdown(prev: nat): (r: nat)
  {
    if prev > 0 then prev - 1 else 0
  }

  /** The countdown after n ticks. */
  function AfterTicks(prev: nat, n: nat): nat
  {
    if n == 0 then prev else Countdown(AfterTicks(prev, n - 1))
  }

  /** After n ticks the countdown has lost n seconds, and stops at zero rather than going below. */
  lemma {:induction false} AfterTicksSpec(prev: nat, n: nat)
    ensures AfterTicks(prev, n) == if n <= prev then prev - n else 0
  {
    if n > 0 {
      AfterTicksSpec(prev, n - 1);
    }
  }

  /** formatTime (lines 183-187): whole minutes, a colon, then the seconds padded to two digits. */
  function FormatTime(seconds: nat): (r: string)
    ensures |r| >= 4 && r[|r| - 3] == ':'
    ensures forall i :: 0 <= i < |r| && i != |r| - 3 ==> Text.IsDigit(r[i])
  {
    Text.NatToString(seconds / 60) + ":" + Text.Pad2(seconds % 60)
  }

  /**
   * The text reads back as the time it shows: the last three characters are
   * ':' and two digits below 60, and the minutes before them times 60 plus
   * those seconds is the input.
   */
  lemma FormatTimeRoundTrip(seconds: nat)
    ensures var t := FormatTime(seconds);
            |t| >= 4 && t[|t| - 3] == ':'
            && (forall i :: 0 <= i < |t| && i != |t| - 3 ==> Text.IsDigit(t[i]))
            && Text.DigitsValue(t[|t| - 2..]) < 60
            && Text.DigitsValue(t[..|t| - 3]) * 60 + Text.DigitsValue(t[|t| - 2..]) == seconds
  {
    var m := Text.NatToString(seconds / 60);
    var s := Text.Pad2(seconds % 60);
    Text.DigitsValueOfNat(seconds / 60);
    Text.Pad2Value(seconds % 60);
    var t := FormatTime(seconds);
    assert t == m + ":" + s;
    assert t[..|t| - 3] == m && t[|t| - 2..] == s;
  }

  class GroupRegistrationState {
    var step: Step
    var email: string
    var code: seq<string>
    var loading: bool
    var error: Error
    var pendingGroupName: string
    var expiresIn: nat
    /** The address in the last send-code request, if any was made. */
    var sentEmail: Option<string>
    /** The code in the last verify request, if any was made. */
    var sentCode: Option<string>

    predicate Valid()
      reads this
    {
      SlotsValid(code)
    }

    /** The initial state of lines 28-35. */
    constructor()
      ensures Valid()
      ensures step == Input && email == [] && code == EmptyCode && !loading && error == NoError
      ensures pendingGroupName == [] && expiresIn == 0 && sentEmail.None? && sentCode.None?
    {
      step := Input;
      email := [];
      code := EmptyCode;
      loading := false;
      error := NoError;
      pendingGroupName := [];
      expiresIn := 0;
      sentEmail := None;
      sentCode := None;
    }

    /** The email field (line 251). */
    method TypeEmail(value: string)
      modifies this
      ensures email == value
      ensures step == old(step) && code == old(code) && error == old(error) && expiresIn == old(expiresIn)
      ensures sentEmail == old(sentEmail) && sentCode == old(sentCode) && pendingGroupName == old(pendingGroupName)
    {
      email := value;
    }

    /** One second of the countdown (lines 46-53). */
    method Tick()
      modifies this
      ensures expiresIn == Countdown(old(expiresIn))
      ensures expiresIn <= old(expiresIn) && (old(expiresIn) > 0 ==> expiresIn == old(expiresIn) - 1)
      ensures step == old(step) && code == old(code) && error == old(error) && email == old(email)
      ensures sentEmail == old(sentEmail) && sentCode == old(sentCode) && pendingGroupName == old(pendingGroupName)
    {
      if expiresIn > 0 {
        expiresIn := expiresIn - 1;
      }
    }

    /**
     * handleSendCode (lines 67-99): an unusable address only sets the error;
     * otherwise the trimmed, lower-cased address is sent, and on success the
     * screen moves to the code step with empty slots and a running countdown.
     */
    method SendCode(reply: SendReply)
      requires Valid()
      modifies this
      ensures Valid()
      ensures email == old(email)
      ensures !EmailAccepted(email) ==>
                error == InvalidEmail && sentEmail == old(sentEmail) && step == old(step) && code == old(code)
                && expiresIn == old(expiresIn) && loading == old(loading) && pendingGroupName == old(pendingGroupName)
      ensures EmailAccepted(email) ==> sentEmail == Some(SentEmail(email)) && !loading
      ensures EmailAccepted(email) && reply.SendAccepted? ==>
                step == Verify && code == EmptyCode && error == NoError && expiresIn == ExpiryOf(reply.expiresIn)
                && pendingGroupName == Text.OptOrElse(reply.groupName, "")
      ensures EmailAccepted(email) && reply.SendRejected? ==>
                error == MessageOr(reply.message, SendFailed) && step == old(step) && code == old(code) && expiresIn == old(expiresIn)
      ensures EmailAccepted(email) && reply.SendThrew? ==>
                error == Network && step == old(step) && code == old(code) && expiresIn == old(expiresIn)
      ensures sentCode == old(sentCode)
    {
      if !EmailAccepted(email) {
        error := InvalidEmail;
        return;
      }
      loading := true;
      error := NoError;
      sentEmail := Some(SentEmail(email));
      ApplySendReply(reply);
      loading := false;
    }

    /** The response handling of handleSendCode (lines 85-95), after the request went out. */
    method ApplySendReply(reply: SendReply)
      requires Valid()
      modifies this
      ensures Valid()
      ensures email == old(email) && sentEmail == old(sentEmail) && sentCode == old(sentCode) && loading == old(loading)
      ensures reply.SendAccepted? ==>
                step == Verify && code == EmptyCode && error == old(error) && expiresIn == ExpiryOf(reply.expiresIn)
                && pendingGroupName == Text.OptOrElse(reply.groupName, "")
      ensures reply.SendRejected? ==>
                error == MessageOr(reply.message, SendFailed) && step == old(step) && code == old(code) && expiresIn == old(expiresIn)
      ensures reply.SendThrew? ==>
                error == Network && step == old(step) && code == old(code) && expiresIn == old(expiresIn)
    {
      match reply {
        case SendAccepted(groupName, expires) =>
          pendingGroupName := Text.OptOrElse(groupName, "");
          expiresIn := ExpiryOf(expires);
          step := Verify;
          EmptyCodeValid();
          code := EmptyCode;
        case SendRejected(message) =>
          error := MessageOr(message, SendFailed);
        case SendThrew =>
          error := Network;
      }
    }

    /**
     * handleVerify (lines 125-158): the code given, or else the slots joined,
     * must have six characters; a rejected code empties the slots.
     */
    method SubmitCode(codeText: Option<string>, reply: VerifyReply)
      requires Valid()
      modifies this
      ensures Valid()
      ensures var finalCode := Text.OptOrElse(codeText, Text.Join(old(code), ""));
              (|finalCode| != CodeLength ==>
                 error == WrongLength && sentCode == old(sentCode) && step == old(step) && code == old(code)
                 && loading == old(loading) && pendingGroupName == old(pendingGroupName))
              && (|finalCode| == CodeLength ==>
                    sentCode == Some(finalCode) && !loading
                    && (reply.VerifyAccepted? ==>
                          step == Success && error == NoError && code == old(code)
                          && pendingGroupName == Text.OrElse(Text.OptOrElse(reply.groupName, ""), old(pendingGroupName)))
                    && (reply.VerifyRejected? ==>
                          step == old(step) && error == MessageOr(reply.message, VerifyFailed) && code == EmptyCode)
                    && (reply.VerifyThrew? ==> step == old(step) && error == Network && code == old(code)))
      ensures email == old(email) && expiresIn == old(expiresIn) && sentEmail == old(sentEmail)
    {
      var finalCode := Text.OptOrElse(codeText, Text.Join(code, ""));
      if |finalCode| != CodeLength {
        error := WrongLength;
        return;
      }
      loading := true;
      error := NoError;
      sentCode := Some(finalCode);
      match reply {
        case VerifyAccepted(groupName) =>
          pendingGroupName := Text.OrElse(Text.OptOrElse(groupName, ""), pendingGroupName);
          step := Success;
        case VerifyRejected(message) =>
          error := MessageOr(message, VerifyFailed);
          code := EmptyCode;
        case VerifyThrew =>
          error := Network;
      }
      loading := false;
    }

    /**
     * handleCodeChange (lines 101-117): text with a non-digit is ignored;
     * otherwise the slot keeps the last character typed, and once all six
     * slots are filled the joined code is submitted.
     */
    method CodeChange(index: nat, value: string, reply: VerifyReply)
      requires Valid() && index < CodeLength
      modifies this
      ensures Valid()
      ensures !AllDigits(value) ==>
                code == old(code) && sentCode == old(sentCode) && error == old(error) && step == old(step)
      ensures var newCode := old(code)[index := Slot(value)];
              AllDigits(value) ==>
                (!Complete(newCode) ==> code == newCode && sentCode == old(sentCode) && error == old(error) && step == old(step))
                && (Complete(newCode) ==>
                      sentCode == Some(Text.Join(newCode, "")) && |Text.Join(newCode, "")| == CodeLength
                      && (reply.VerifyAccepted? ==> step == Success && code == newCode)
                      && (reply.VerifyRejected? ==> code == EmptyCode && error == MessageOr(reply.message, VerifyFailed))
                      && (reply.VerifyThrew? ==> code == newCode && error == Network))
      ensures email == old(email) && expiresIn == old(expiresIn) && sentEmail == old(sentEmail)
    {
      if !AllDigits(value) {
        return;
      }
      var newCode := code[index := Slot(value)];
      SetSlotValid(code, index, value);
      code := newCode;
      if (forall i :: 0 <= i < |newCode| ==> newCode[i] != []) && |Text.Join(newCode, "")| == CodeLength {
        SubmitCode(Some(Text.Join(newCode, "")), reply);
      }
    }

    /** The back button of the code step (line 322). */
    method Back()
      modifies this
      ensures step == Input && error == NoError
      ensures code == old(code) && email == old(email) && expiresIn == old(expiresIn)
      ensures sentEmail == old(sentEmail) && sentCode == old(sentCode) && pendingGroupName == old(pendingGroupName)
    {
      step := Input;
      error := NoError;
    }
  }
}
