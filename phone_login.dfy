/**
 * The student sign-in page of pages/user/UserLogin.tsx: a phone number is
 * validated and normalised to +91, a one-time code is sent, then verified;
 * a first sign-in creates the user's profile. The identity provider and the
 * user-document store are parameters (the outcome of each call).
 */
module PhoneLogin {

  import opened Wrappers
  import opened Types
  import opened TextUtil

  datatype Step = PhoneStep | OtpStep

  /** An opaque handle to the pending code confirmation. */
  datatype Confirmation = Confirmation(handle: nat)

  /** The signed-in account the confirmation yields. */
  datatype AuthUser = AuthUser(uid: string, phoneNumber: string)

  /** What the confirm-then-provision sequence observed. */
  datatype VerifyOutcome =
    | CodeRejected                     // `confirm` failed
    | LookupFailed(user: AuthUser)     // reading the user document failed
    | ProfileFound(user: AuthUser)     // a user document already exists
    | ProfileMissing(user: AuthUser, writeSucceeded: bool)

  const InvalidPhone: string := "Invalid phone number"
  const InvalidOtp: string := "Invalid OTP code"

  /**
   * A phone number is accepted when it is non-empty and its `length` (UTF-16
   * code units) is at least 10. In characters: 10 or more is always enough,
   * fewer than 5 never is, and for Basic-Multilingual-Plane text (digits, "+")
   * it is exactly "at least 10 characters".
   */
  predicate PhoneAccepted(phone: string)
    ensures |phone| >= 10 ==> PhoneAccepted(phone)
    ensures |phone| < 5 ==> !PhoneAccepted(phone)
    ensures (forall i :: 0 <= i < |phone| ==> phone[i] as int < 0x1_0000) ==> (PhoneAccepted(phone) <==> |phone| >= 10)
  {
    phone != "" && Utf16Length(phone) >= 10
  }

  /** A number already starting with "+" is kept; any other gets the +91 country code. */
  function NormalizePhone(phone: string): (r: string)
    ensures |r| >= 1 && r[0] == '+'
    ensures |phone| >= 1 && phone[0] == '+' ==> r == phone
    ensures !(|phone| >= 1 && phone[0] == '+') ==> r == "+91" + phone
  {
    if |phone| >= 1 && phone[0] == '+' then phone else "+91" + phone
  }

  /** Normalising twice is normalising once, and the entered digits are kept as a suffix. */
  lemma NormalizeIdempotent(phone: string)
    ensures NormalizePhone(NormalizePhone(phone)) == NormalizePhone(phone)
    ensures var r := NormalizePhone(phone); |r| >= |phone| && r[|r| - |phone|..] == phone
  {
    var r := NormalizePhone(phone);
    if !(|phone| >= 1 && phone[0] == '+') {
      assert r[3..] == phone;
    }
  }

  /**
   * A code is sent for verification only when its `length` is at least 6 and a
   * confirmation is pending: never without a confirmation, always with one and
   * at least 6 characters, and for Basic-Multilingual-Plane text (digits)
   * exactly "at least 6 characters".
   */
  predicate OtpAccepted(otp: string, confirmation: Option<Confirmation>)
    ensures OtpAccepted(otp, confirmation) ==> confirmation.Some? && |otp| >= 3
    ensures confirmation.Some? && |otp| >= 6 ==> OtpAccepted(otp, confirmation)
    ensures (forall i :: 0 <= i < |otp| ==> otp[i] as int < 0x1_0000) ==>
      (OtpAccepted(otp, confirmation) <==> confirmation.Some? && |otp| >= 6)
  {
    otp != "" && Utf16Length(otp) >= 6 && confirmation.Some?
  }

  /** The profile a first sign-in creates. */
  function NewProfile(user: AuthUser): (p: UserProfile)
    ensures p.uid == user.uid && p.phone == user.phoneNumber
    ensures p.name == "Student" && RoleName(p.role) == "user" && !p.blocked
  {
    UserProfile(user.uid, user.phoneNumber, "Student", User, false)
  }

  class LoginPage {
    var phoneNumber: string
    var otp: string
    var step: Step
    var confirmation: Option<Confirmation>
    var loading: bool
    var error: string

    constructor ()
      ensures phoneNumber == "" && otp == "" && step == PhoneStep
      ensures confirmation == None && !loading && error == ""
    {
      phoneNumber := "";
      otp := "";
      step := PhoneStep;
      confirmation := None;
      loading := false;
      error := "";
    }

    method EnterPhone(text: string)
      modifies this`phoneNumber
      ensures phoneNumber == text
    {
      phoneNumber := text;
    }

    method EnterOtp(text: string)
      modifies this`otp
      ensures otp == text
    {
      otp := text;
    }

    /**
     * "Send OTP", up to the request: a rejected number sets the error and sends
     * nothing; an accepted one starts loading, clears the error and yields the
     * normalised number to send the code to.
     */
    method BeginSendOtp() returns (sendTo: Option<string>)
      modifies this`loading, this`error
      ensures !PhoneAccepted(old(phoneNumber)) ==>
        sendTo == None && error == InvalidPhone && loading == old(loading)
      ensures PhoneAccepted(old(phoneNumber)) ==>
        sendTo == Some(NormalizePhone(phoneNumber)) && loading && error == ""
    {
      if !PhoneAccepted(phoneNumber) {
        error := InvalidPhone;
        return None;
      }
      loading := true;
      error := "";
      sendTo := Some(NormalizePhone(phoneNumber));
    }

    /**
     * "Send OTP", after the request: success stores the confirmation and moves
     * to the code step; failure shows the provider's message. Loading ends.
     */
    method EndSendOtp(result: Option<Confirmation>, failureMessage: string)
      modifies this`confirmation, this`step, this`error, this`loading
      ensures result.Some? ==> confirmation == result && step == OtpStep && error == old(error)
      ensures result.None? ==> confirmation == old(confirmation) && step == old(step) && error == failureMessage
      ensures !loading
    {
      if result.Some? {
        confirmation := result;
        step := OtpStep;
      } else {
        error := failureMessage;
      }
      loading := false;
    }

    /** "Verify & Login", up to the request: nothing unless the code and a confirmation are there. */
    method BeginVerifyOtp() returns (request: Option<(Confirmation, string)>)
      modifies this`loading
      ensures !OtpAccepted(old(otp), old(confirmation)) ==> request == None && loading == old(loading)
      ensures OtpAccepted(old(otp), old(confirmation)) ==> request == Some((confirmation.value, otp)) && loading
    {
      if !OtpAccepted(otp, confirmation) {
        return None;
      }
      loading := true;
      request := Some((confirmation.value, otp));
    }

    /**
     * "Verify & Login", after the request: a first sign-in writes the default
     * profile; any failure on the way shows "Invalid OTP code". Loading ends.
     */
    method EndVerifyOtp(outcome: VerifyOutcome) returns (created: Option<UserProfile>)
      modifies this`error, this`loading
      ensures created.Some? <==> outcome.ProfileMissing? && outcome.writeSucceeded
      ensures created.Some? ==> created.value == NewProfile(outcome.user)
      ensures error == (if outcome.ProfileFound? || created.Some? then old(error) else InvalidOtp)
      ensures !loading
    {
      created := None;
      match outcome {
        case CodeRejected => error := InvalidOtp;
        case LookupFailed(_) => error := InvalidOtp;
        case ProfileFound(_) =>
        case ProfileMissing(user, ok) =>
          if ok {
            created := Some(NewProfile(user));
          } else {
            error := InvalidOtp;
          }
      }
      loading := false;
    }

    /** "Change phone number" goes back to the phone step. */
    method ChangePhone()
      modifies this`step
      ensures step == PhoneStep
    {
      step := PhoneStep;
    }
  }
}
