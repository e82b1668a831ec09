/** The password-reset page: requesting a code always moves on to the second
    step; the new password is checked before the confirm request. */
module ForgotPassword {
  import opened Common
  import opened Text

  const MinPasswordLength: nat := 8

  const MismatchError: string := "Passwords do not match."
  const TooShortError: string := "Password must be at least 8 characters."
  const ConfirmFailedError: string := "Invalid code or request failed. Please try again."

  /** The message after requesting a code; the wording depends on whether the
      request succeeded, and it names the address either way. */
  function RequestOtpMessage(email: string, ok: bool): (m: string)
    ensures Contains(m, email)
  {
    if ok then
      ContainsSuffix("We sent a 6-digit code to ", email, "");
      assert "We sent a 6-digit code to " + email + "" == "We sent a 6-digit code to " + email;
      "We sent a 6-digit code to " + email
    else
      ContainsSuffix("If an account exists for ", email, ", a code has been sent.");
      "If an account exists for " + email + ", a code has been sent."
  }

  /** The checks before the confirm request, in order: the confirmation
      first, the length second. `None` means the request is sent. */
  function ResetCheck(pw: string, confirm: string): (e: Option<string>)
    ensures e.None? <==> pw == confirm && Utf16Length(pw) >= MinPasswordLength
    ensures pw != confirm ==> e == Some(MismatchError)
    ensures pw == confirm && Utf16Length(pw) < MinPasswordLength ==> e == Some(TooShortError)
  {
    if pw != confirm then Some(MismatchError)
    else if Utf16Length(pw) < MinPasswordLength then Some(TooShortError)
    else None
  }

  class ResetForm {
    var step: int          // 1 = request a code, 2 = confirm
    var loading: bool
    var message: string
    var error: string
    var successOpen: bool
    var email: string
    var otp: string
    var newPassword: string
    var confirmNewPassword: string

    constructor ()
      ensures step == 1 && !loading && message == "" && error == "" && !successOpen
      ensures email == "" && otp == "" && newPassword == "" && confirmNewPassword == ""
    {
      step, loading, message, error, successOpen := 1, false, "", "", false;
      email, otp, newPassword, confirmNewPassword := "", "", "", "";
    }

    /** `handleRequestOtp`: `ok` is the outcome of the reset request. */
    method RequestOtp(ok: bool)
      modifies this`error, this`message, this`loading, this`step
      ensures step == 2
      ensures message == RequestOtpMessage(email, ok)
      ensures error == "" && !loading
    {
      error := "";
      message := "";
      loading := true;
      step := 2;
      message := RequestOtpMessage(email, ok);
      loading := false;
    }

    /** `handleResetPassword`: returns whether the confirm request is sent;
        `ok` is its outcome. */
    method ResetPassword(ok: bool) returns (sent: bool)
      modifies this`error, this`loading, this`successOpen
      ensures sent <==> ResetCheck(newPassword, confirmNewPassword).None?
      ensures !sent ==> Some(error) == ResetCheck(newPassword, confirmNewPassword)
      ensures !sent ==> loading == old(loading) && successOpen == old(successOpen)
      ensures sent ==> !loading
      ensures sent && ok ==> successOpen && error == ""
      ensures sent && !ok ==> successOpen == old(successOpen) && error == ConfirmFailedError
    {
      error := "";
      var check := ResetCheck(newPassword, confirmNewPassword);
      if check.Some? {
        error := check.value;
        return false;
      }
      loading := true;
      sent := true;
      if ok {
        successOpen := true;
      } else {
        error := ConfirmFailedError;
      }
      loading := false;
    }
  }
}
