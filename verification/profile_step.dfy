/**
 * src/screens/register/ProfileStep.tsx: the last sign-up screen, three steps
 * in one (0: the @handle, 1: the nickname, 2: the photo). The handle is
 * sanitised as it is typed and its availability is asked of the server once
 * it has three characters; the profile is saved from the last step. Server
 * replies, the stored user id and navigation are parameters or outcomes.
 */
module ProfileStep {
  import opened Wrappers
  import Text

  datatype HandleStatus = Idle | Checking | Available | Taken

  /** Where the screen sends the user, if anywhere. */
  datatype Navigation = Stay | Previous | Login | QuizIntro

  /** The reply to the availability request (lines 44-57). */
  datatype CheckReply = CheckThrew | Answered(available: bool)

  /** The reply to the photo upload (lines 72-97). */
  datatype UploadReply = UploadThrew | UploadFailed | Uploaded(url: string)

  /** The reply to the profile save (lines 113-143). */
  datatype SaveReply = SaveThrew | SaveFailed | Saved

  /** The body of the profile save (lines 120-126). */
  datatype Profile = Profile(accountId: string, nickname: string, profileImage: Option<string>)

  const LastStep: nat := 2
  const MinHandleLength: nat := 3

  /** The characters a handle may hold: `[a-z0-9_.]`. */
  predicate HandleChar(c: char)
  {
    Text.IsLowerAscii(c) || Text.IsDigit(c) || c == '_' || c == '.'
  }

  /** `replace(/[^a-z0-9_.]/g, '')`. */
  function Strip(t: string): (r: string)
    ensures |r| <= |t|
    ensures forall i :: 0 <= i < |r| ==> HandleChar(r[i])
  {
    if t == [] then [] else (if HandleChar(t[0]) then [t[0]] else []) + Strip(t[1..])
  }

  /** The handle field's onChange (line 205): lower-case, then keep [a-z0-9_.]. */
  function Sanitize(value: string): (r: string)
    ensures |r| <= |value|
    ensures forall i :: 0 <= i < |r| ==> HandleChar(r[i])
  {
    Strip(Text.Lower(value))
  }

  lemma {:induction false} StripAppend(a: string, b: string)
    ensures Strip(a + b) == Strip(a) + Strip(b)
  {
    if a == [] {
      assert a + b == b;
    } else {
      assert (a + b)[1..] == a[1..] + b;
      StripAppend(a[1..], b);
    }
  }

  lemma {:induction false} StripKeepsHandle(t: string)
    requires forall i :: 0 <= i < |t| ==> HandleChar(t[i])
    ensures Strip(t) == t
  {
    if t != [] {
      StripKeepsHandle(t[1..]);
    }
  }

  /**
   * Sanitising works character by character: an upper-case ASCII letter
   * becomes its lower-case letter, a character of [a-z0-9_.] is kept, any
   * other is dropped; a valid handle is left as it is, so sanitising twice
   * changes nothing.
   */
  lemma SanitizeSpec(a: string, b: string, c: char)
    ensures Sanitize(a + b) == Sanitize(a) + Sanitize(b)
    ensures Sanitize([c]) == if HandleChar(Text.LowerChar(c)) then [Text.LowerChar(c)] else []
    ensures Text.IsUpperAscii(c) ==> Sanitize([c]) == [Text.LowerChar(c)] && Text.IsLowerAscii(Text.LowerChar(c))
    ensures (forall i :: 0 <= i < |a| ==> HandleChar(a[i])) ==> Sanitize(a) == a
    ensures Sanitize(Sanitize(a)) == Sanitize(a)
  {
    Text.LowerAppend(a, b);
    StripAppend(Text.Lower(a), Text.Lower(b));
    assert Text.Lower([c]) == [Text.LowerChar(c)];
    assert Strip([Text.LowerChar(c)]) == (if HandleChar(Text.LowerChar(c)) then [Text.LowerChar(c)] else []) + Strip([]);
    var s := Sanitize(a);
    assert Text.Lower(s) == s;
    StripKeepsHandle(s);
    if forall i :: 0 <= i < |a| ==> HandleChar(a[i]) {
      assert Text.Lower(a) == a;
      StripKeepsHandle(a);
    }
  }

  /** Whether the effect of lines 24-36 schedules an availability check. */
  predicate CheckScheduled(step: nat, handle: string)
  {
    step == 0 && |handle| >= MinHandleLength
  }

  /** isNextDisabled (lines 147-152). */
  function NextDisabled(step: nat, status: HandleStatus, nickname: string, checking: bool, uploading: bool): (r: bool)
    ensures step == 0 ==> (r <==> status != Available)
    ensures step == 1 ==> (r <==> nickname == [])
    ensures step == 2 ==> (r <==> checking || uploading)
    ensures step > 2 ==> !r
  {
    if step == 0 then status != Available
    else if step == 1 then |nickname| < 1
    else if step == 2 then checking || uploading
    else false
  }

  class ProfileState {
    var step: nat
    var handle: string
    var nickname: string
    var photoUrl: Option<string>
    var checking: bool
    var uploading: bool
    var handleStatus: HandleStatus
    var errorShown: bool
    var navigation: Navigation
    /** The handle in the last availability request, if any was made. */
    var checkedHandle: Option<string>
    /** The body of the last profile save, if any was sent. */
    var savedProfile: Option<Profile>

    /** The handle holds only [a-z0-9_.], and the step is one of the three. */
    predicate Valid()
      reads this
    {
      step <= LastStep && forall i :: 0 <= i < |handle| ==> HandleChar(handle[i])
    }

    /** The initial state of lines 10-19. */
    constructor()
      ensures Valid()
      ensures step == 0 && handle == [] && nickname == [] && photoUrl.None? && !checking && !uploading
      ensures handleStatus == Idle && !errorShown && navigation == Stay && checkedHandle.None? && savedProfile.None?
    {
      step := 0;
      handle := [];
      nickname := [];
      photoUrl := None;
      checking := false;
      uploading := false;
      handleStatus := Idle;
      errorShown := false;
      navigation := Stay;
      checkedHandle := None;
      savedProfile := None;
    }

    /** The effect of lines 24-36 when its check is not scheduled: the status and the message are cleared. */
    method HandleEffect()
      modifies this
      ensures !CheckScheduled(step, handle) ==> handleStatus == Idle && !errorShown
      ensures CheckScheduled(step, handle) ==> handleStatus == old(handleStatus) && errorShown == old(errorShown)
      ensures step == old(step) && handle == old(handle) && nickname == old(nickname) && photoUrl == old(photoUrl)
      ensures checking == old(checking) && uploading == old(uploading) && navigation == old(navigation)
      ensures checkedHandle == old(checkedHandle) && savedProfile == old(savedProfile)
    {
      if step != 0 || |handle| < MinHandleLength {
        handleStatus := Idle;
        errorShown := false;
      }
    }

    /** The handle field's onChange (lines 204-208), followed by the effect. */
    method TypeHandle(value: string)
      requires Valid()
      modifies this
      ensures Valid()
      ensures handle == Sanitize(value) && handleStatus == Idle
      ensures !CheckScheduled(step, handle) ==> !errorShown
      ensures step == old(step) && nickname == old(nickname) && photoUrl == old(photoUrl) && navigation == old(navigation)
      ensures checkedHandle == old(checkedHandle) && savedProfile == old(savedProfile)
    {
      handle := Sanitize(value);
      handleStatus := Idle;
      HandleEffect();
    }

    /** The nickname field. */
    method TypeNickname(value: string)
      modifies this
      ensures nickname == value
      ensures step == old(step) && handle == old(handle) && handleStatus == old(handleStatus) && photoUrl == old(photoUrl)
      ensures checkedHandle == old(checkedHandle) && savedProfile == old(savedProfile) && navigation == old(navigation)
    {
      nickname := value;
    }

    /**
     * checkHandleAvailability (lines 38-58), run by the debounce timer or the
     * Enter key on the current handle: a handle under three characters is
     * not sent; otherwise the reply decides available or taken, and a
     * failed request leaves the status idle so it can be retried.
     */
    method CheckAvailability(reply: CheckReply)
      modifies this
      ensures |handle| < MinHandleLength ==>
                handleStatus == old(handleStatus) && errorShown == old(errorShown) && checkedHandle == old(checkedHandle)
      ensures |handle| >= MinHandleLength ==>
                checkedHandle == Some(handle)
                && (reply == Answered(true) ==> handleStatus == Available && !errorShown)
                && (reply == Answered(false) ==> handleStatus == Taken && errorShown)
                && (reply == CheckThrew ==> handleStatus == Idle && !errorShown)
      ensures step == old(step) && handle == old(handle) && nickname == old(nickname) && photoUrl == old(photoUrl)
      ensures savedProfile == old(savedProfile) && navigation == old(navigation)
    {
      if |handle| < MinHandleLength {
        return;
      }
      handleStatus := Checking;
      errorShown := false;
      checkedHandle := Some(handle);
      match reply {
        case Answered(available) =>
          if available {
            handleStatus := Available;
          } else {
            handleStatus := Taken;
            errorShown := true;
          }
        case CheckThrew =>
          handleStatus := Idle;
      }
    }

    /** handleBack (lines 60-66), followed by the effect: back one step, or off the screen from the first. */
    method Back()
      requires Valid()
      modifies this
      ensures Valid()
      ensures old(step) > 0 ==> step == old(step) - 1 && navigation == old(navigation)
      ensures old(step) == 0 ==> step == 0 && navigation == Previous
      ensures handle == old(handle) && nickname == old(nickname) && photoUrl == old(photoUrl)
      ensures checkedHandle == old(checkedHandle) && savedProfile == old(savedProfile)
    {
      if step > 0 {
        step := step - 1;
        HandleEffect();
      } else {
        navigation := Previous;
      }
    }

    /**
     * handleFileChange (lines 68-98): with a file chosen, the upload's URL
     * becomes the photo; a failed upload leaves the photo as it was.
     */
    method ChoosePhoto(fileChosen: bool, reply: UploadReply)
      modifies this
      ensures !fileChosen ==> photoUrl == old(photoUrl) && uploading == old(uploading)
      ensures fileChosen ==> !uploading && photoUrl == (if reply.Uploaded? then Some(reply.url) else old(photoUrl))
      ensures step == old(step) && handle == old(handle) && nickname == old(nickname) && handleStatus == old(handleStatus)
      ensures checkedHandle == old(checkedHandle) && savedProfile == old(savedProfile) && navigation == old(navigation)
      ensures checking == old(checking)
    {
      if !fileChosen {
        return;
      }
      uploading := true;
      if reply.Uploaded? {
        photoUrl := Some(reply.url);
      }
      uploading := false;
    }

    /**
     * handleNext (lines 100-145): the first two steps move on (the first
     * only with an available handle, exactly when its button is enabled);
     * the last saves the profile, or goes to login when the stored user id is
     * missing or empty (`!userId`).
     */
    method Next(userId: Option<string>, reply: SaveReply)
      requires Valid()
      modifies this
      ensures Valid()
      ensures old(step) == 0 ==> (step == 1 <==> !NextDisabled(0, old(handleStatus), old(nickname), old(checking), old(uploading)))
      ensures old(step) < LastStep && (old(step) != 0 || old(handleStatus) == Available) ==>
                step == old(step) + 1 && handleStatus == Idle && !errorShown && savedProfile == old(savedProfile)
      ensures old(step) == 0 && old(handleStatus) != Available ==>
                step == 0 && handleStatus == old(handleStatus) && savedProfile == old(savedProfile)
      ensures old(step) == LastStep && (userId.None? || userId.value == "") ==>
                step == LastStep && navigation == Login && checking && savedProfile == old(savedProfile)
      ensures old(step) == LastStep && userId.Some? && userId.value != "" ==>
                step == LastStep && savedProfile == Some(Profile(handle, nickname, photoUrl))
                && (reply.Saved? ==> navigation == QuizIntro && checking)
                && (!reply.Saved? ==> navigation == old(navigation) && !checking)
      ensures handle == old(handle) && nickname == old(nickname) && photoUrl == old(photoUrl)
    {
      if step < LastStep {
        if step == 0 && handleStatus != Available {
          return;
        }
        step := step + 1;
        HandleEffect();
      } else {
        checking := true;
        if userId.None? || userId.value == "" {
          navigation := Login;
          return;
        }
        savedProfile := Some(Profile(handle, nickname, photoUrl));
        if reply.Saved? {
          navigation := QuizIntro;
        } else {
          checking := false;
        }
      }
    }
  }
}
