/** The registration page: the live password-strength flags, the checks made
    before the register request, the error shown when it fails, and the OTP
    verification step. */
module Register {
  import opened Common
  import opened Seqs
  import opened Text

  /** The four password requirements. */
  datatype Strength = Strength(length: bool, number: bool, special: bool, upper: bool)

  const MinPasswordLength: nat := 8

  /** The characters of the class `[!@#$%^&*(),.?":{}|<>]`. */
  const SpecialChars: set<char> :=
    {'!', '@', '#', '$', '%', '^', '&', '*', '(', ')', ',', '.', '?', '"', ':', '{', '}', '|', '<', '>'}

  predicate IsDigit(c: char) { '0' <= c <= '9' }
  predicate IsUpper(c: char) { 'A' <= c <= 'Z' }
  predicate IsSpecial(c: char) { c in SpecialChars }

  /** The flags computed from a password. */
  function StrengthOf(pw: string): (f: Strength)
    ensures f.length <==> Utf16Length(pw) >= MinPasswordLength
    ensures f.number <==> exists i :: 0 <= i < |pw| && '0' <= pw[i] <= '9'
    ensures f.special <==> exists i :: 0 <= i < |pw| && pw[i] in SpecialChars
    ensures f.upper <==> exists i :: 0 <= i < |pw| && 'A' <= pw[i] <= 'Z'
  {
    Strength(Utf16Length(pw) >= MinPasswordLength, AnyOf(pw, IsDigit), AnyOf(pw, IsSpecial), AnyOf(pw, IsUpper))
  }

  /** For a password made only of Basic Multilingual Plane characters the
      length flag counts characters. */
  lemma LengthFlagOfBmp(pw: string)
    requires forall i :: 0 <= i < |pw| ==> pw[i] as int <= 0xFFFF
    ensures StrengthOf(pw).length <==> |pw| >= MinPasswordLength
  {
    Utf16LengthOfBmp(pw);
  }

  predicate Strong(f: Strength)
  {
    f.length && f.number && f.special && f.upper
  }

  const MismatchError: string := "Passwords do not match."
  const WeakError: string := "Please ensure your password meets all requirements."
  const DefaultRegisterError: string := "Registration failed. Username or Email may be taken."
  const InvalidCodeError: string := "Invalid code. Please check your email and try again."

  /** The checks before the request, in order: the confirmation first, the
      strength flags second. `None` means the request is sent. */
  function RegisterCheck(pw: string, confirm: string, f: Strength): (e: Option<string>)
    ensures e.None? <==> pw == confirm && Strong(f)
    ensures pw != confirm ==> e == Some(MismatchError)
    ensures pw == confirm && !Strong(f) ==> e == Some(WeakError)
  {
    if pw != confirm then Some(MismatchError)
    else if !Strong(f) then Some(WeakError)
    else None
  }

  /** The field errors of a rejected registration (`err.response.data`). */
  datatype FieldErrors = FieldErrors(username: seq<string>, email: seq<string>)

  /** `list?.[0]` when that is truthy. */
  function FirstTruthy(errs: seq<string>): Option<string>
  {
    if |errs| > 0 && errs[0] != "" then Some(errs[0]) else None
  }

  /** The message shown after a failed registration: the first username error,
      else the first email error, else the fixed default. */
  function RegisterErrorMessage(data: Option<FieldErrors>): (m: string)
    ensures m != ""
    ensures data.Some? && |data.value.username| > 0 && data.value.username[0] != "" ==>
              m == data.value.username[0]
    ensures data.Some? && !(|data.value.username| > 0 && data.value.username[0] != "") &&
            |data.value.email| > 0 && data.value.email[0] != "" ==>
              m == data.value.email[0]
    ensures (data.None? || (FirstTruthy(data.value.username).None? && FirstTruthy(data.value.email).None?)) ==>
              m == DefaultRegisterError
  {
    if data.None? then DefaultRegisterError
    else match FirstTruthy(data.value.username)
      case Some(u) => u
      case None =>
        match FirstTruthy(data.value.email)
        case Some(e) => e
        case None => DefaultRegisterError
  }

  /** The body of `POST /auth/verify-email/`. */
  datatype VerifyData = VerifyData(access: Option<string>, refresh: Option<string>, username: Option<string>, userId: Option<int>)

  /** What the page does after the verify request. `LoginAndGoHome` carries the
      arguments of the `login` call, in the order the page passes them. */
  datatype VerifyOutcome =
    | LoginAndGoHome(access: string, refresh: string, username: Option<string>, userId: Option<int>)
    | GoToLogin
    | StayWithError

  function VerifyNext(response: Option<VerifyData>): (o: VerifyOutcome)
    ensures o.LoginAndGoHome? <==> response.Some? && Truthy(response.value.access) && Truthy(response.value.refresh)
    ensures o.StayWithError? <==> response.None?
    ensures o.LoginAndGoHome? ==> o.access == response.value.access.value && o.refresh == response.value.refresh.value
  {
    if response.None? then StayWithError
    else
      var d := response.value;
      if Truthy(d.access) && Truthy(d.refresh) then LoginAndGoHome(d.access.value, d.refresh.value, d.username, d.userId)
      else GoToLogin
  }

  const UsernameField: string := "username"
  const EmailField: string := "email"
  const PasswordField: string := "password"
  const ConfirmField: string := "confirmPassword"

  /** Outcome of `POST /auth/register/`. */
  datatype RegisterResponse = Registered | Rejected(data: Option<FieldErrors>)

  class RegisterForm {
    var step: int          // 1 = details, 2 = OTP
    var loading: bool
    var formData: map<string, string>
    var otp: string
    var error: string
    var strength: Strength

    /** The flags always describe the password currently in the form. */
    ghost predicate Valid()
      reads this
    {
      && UsernameField in formData && EmailField in formData
      && PasswordField in formData && ConfirmField in formData
      && strength == StrengthOf(formData[PasswordField])
    }

    constructor ()
      ensures Valid()
      ensures step == 1 && !loading && otp == "" && error == ""
      ensures formData == map[UsernameField := "", EmailField := "", PasswordField := "", ConfirmField := ""]
      ensures strength == Strength(false, false, false, false)
    {
      step, loading, otp, error := 1, false, "", "";
      formData := map[UsernameField := "", EmailField := "", PasswordField := "", ConfirmField := ""];
      strength := Strength(false, false, false, false);
    }

    /** `handleChange`: the field named `id` takes `value`; the flags are
        recomputed only for the password field. */
    method HandleChange(id: string, value: string)
      requires Valid()
      modifies this`formData, this`strength
      ensures Valid()
      ensures formData == old(formData)[id := value]
      ensures id == PasswordField ==> strength == StrengthOf(value)
      ensures id != PasswordField ==> strength == old(strength)
    {
      formData := formData[id := value];
      if id == PasswordField {
        strength := StrengthOf(value);
      }
    }

    /** `handleRegister`. Returns whether the register request is sent;
        `response` is its outcome. */
    method HandleRegister(response: RegisterResponse) returns (sent: bool)
      requires Valid()
      modifies this`error, this`loading, this`step
      ensures Valid()
      ensures sent <==> formData[PasswordField] == formData[ConfirmField] && Strong(StrengthOf(formData[PasswordField]))
      ensures !sent ==> Some(error) == RegisterCheck(formData[PasswordField], formData[ConfirmField], strength)
      ensures !sent ==> step == old(step) && loading == old(loading)
      ensures sent ==> !loading
      ensures sent && response.Registered? ==> step == 2 && error == ""
      ensures sent && response.Rejected? ==> step == old(step) && error == RegisterErrorMessage(response.data)
    {
      error := "";
      if formData[PasswordField] != formData[ConfirmField] {
        error := MismatchError;
        return false;
      }
      if !strength.length || !strength.number || !strength.special || !strength.upper {
        error := WeakError;
        return false;
      }
      loading := true;
      sent := true;
      if response.Registered? {
        step := 2;
      } else {
        error := RegisterErrorMessage(response.data);
      }
      loading := false;
    }

    /** `handleVerify`: `response` is the body of the verify request, `None`
        when it fails. The step never changes here. */
    method HandleVerify(response: Option<VerifyData>) returns (next: VerifyOutcome)
      modifies this`error, this`loading
      ensures next == VerifyNext(response)
      ensures error == if response.None? then InvalidCodeError else ""
      ensures !loading
    {
      error := "";
      loading := true;
      next := VerifyNext(response);
      if next.StayWithError? {
        error := InvalidCodeError;
      }
      loading := false;
    }

    /** The "back" button of the OTP step. */
    method Back()
      requires Valid()
      modifies this`step
      ensures Valid() && step == 1
    {
      step := 1;
    }
  }
}
