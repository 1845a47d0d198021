/**
 * The sign-in dialog: the five-field form it keeps, the checks of the login
 * and registration handlers with their messages, the two-phase registration
 * (send a one-time code, then verify it), and the user record each handler
 * hands to the page. The one-time code is never checked against anything:
 * any non-empty text completes registration.
 */
module Auth {
  import opened Strings

  /** The five inputs of the dialog. */
  datatype AuthField = EmailField | PasswordField | ConfirmPasswordField | NameField | OtpField

  datatype AuthForm = AuthForm(email: string, password: string, confirmPassword: string, name: string, otp: string)

  const EMPTY_FORM: AuthForm := AuthForm("", "", "", "", "")

  function Get(form: AuthForm, field: AuthField): string
  {
    match field
    case EmailField => form.email
    case PasswordField => form.password
    case ConfirmPasswordField => form.confirmPassword
    case NameField => form.name
    case OtpField => form.otp
  }

  /** The form with one input set to `value`. */
  function SetField(form: AuthForm, field: AuthField, value: string): (r: AuthForm)
    ensures Get(r, field) == value
    ensures forall g :: g != field ==> Get(r, g) == Get(form, g)
  {
    match field
    case EmailField => form.(email := value)
    case PasswordField => form.(password := value)
    case ConfirmPasswordField => form.(confirmPassword := value)
    case NameField => form.(name := value)
    case OtpField => form.(otp := value)
  }

  /** Two forms that agree on every input are the same form. */
  lemma FormsAgree(a: AuthForm, b: AuthForm)
    requires forall g :: Get(a, g) == Get(b, g)
    ensures a == b
  {
    assert Get(a, EmailField) == Get(b, EmailField);
    assert Get(a, PasswordField) == Get(b, PasswordField);
    assert Get(a, ConfirmPasswordField) == Get(b, ConfirmPasswordField);
    assert Get(a, NameField) == Get(b, NameField);
    assert Get(a, OtpField) == Get(b, OtpField);
  }

  /** Setting an input to the value it already has leaves the form as it is,
      and the later of two writes to the same input wins. */
  lemma SetFieldLaws(form: AuthForm, field: AuthField, v: string, w: string)
    ensures SetField(form, field, Get(form, field)) == form
    ensures SetField(SetField(form, field, v), field, w) == SetField(form, field, w)
  {
    FormsAgree(SetField(form, field, Get(form, field)), form);
    FormsAgree(SetField(SetField(form, field, v), field, w), SetField(form, field, w));
  }

  /** The record the dialog passes to the page on success. */
  datatype User = User(id: string, name: string, email: string, isPremium: bool, qrCodesCount: nat, maxQrCodes: nat)

  const FILL_IN_ALL_FIELDS: string := "Please fill in all fields"
  const PASSWORDS_DO_NOT_MATCH: string := "Passwords do not match"
  const ENTER_THE_OTP: string := "Please enter the OTP"

  /** `email.split('@')[0]`: the longest prefix of `email` without an `@`. */
  function EmailLocalPart(email: string): (r: string)
    ensures r <= email && '@' !in r
    ensures |r| == |email| || email[|r|] == '@'
  {
    SplitPieces(email, '@');
    Split(email, '@')[0]
  }

  /** The local part of an address `a@...` is `a`. */
  lemma LocalPartBeforeAt(a: string, t: string)
    requires '@' !in a && t != [] && t[0] == '@'
    ensures EmailLocalPart(a + t) == a
  {
    var e := a + t;
    var r := EmailLocalPart(e);
    assert forall i :: 0 <= i < |a| ==> e[i] == a[i] && e[i] != '@';
    assert e[|a|] == '@';
    assert forall i :: 0 <= i < |r| ==> r[i] == e[i] && r[i] != '@';
    assert |r| == |a|;
    assert r == e[..|a|];
  }

  lemma LocalPartExample()
    ensures EmailLocalPart("jane@example.com") == "jane"
  {
    var a, t := "jane", "@example.com";
    assert "jane@example.com" == a + t;
    LocalPartBeforeAt(a, t);
  }

  datatype LoginResult = LoginFailed(message: string) | LoggedIn(user: User)

  /** `handleLogin` on the form: email and password must be given; the user
      is named after the form's name, or else after the email's local part,
      and starts with three of ten QR codes used. */
  function Login(form: AuthForm): (r: LoginResult)
    ensures r.LoginFailed? <==> form.email == "" || form.password == ""
    ensures r.LoginFailed? ==> r.message == FILL_IN_ALL_FIELDS
    ensures r.LoggedIn? ==>
      && r.user.id == "1" && r.user.email == form.email && !r.user.isPremium
      && r.user.qrCodesCount == 3 && r.user.maxQrCodes == 10
    ensures r.LoggedIn? && form.name != "" ==> r.user.name == form.name
    ensures r.LoggedIn? && form.name == "" ==> r.user.name == EmailLocalPart(form.email)
  {
    if form.email == "" || form.password == "" then LoginFailed(FILL_IN_ALL_FIELDS)
    else
      var name := if form.name != "" then form.name else EmailLocalPart(form.email);
      LoggedIn(User("1", name, form.email, false, 3, 10))
  }

  /** Login reads neither the confirmation nor the one-time code. */
  lemma LoginIgnoresRegistrationInputs(form: AuthForm, confirmPassword: string, otp: string)
    ensures Login(form.(confirmPassword := confirmPassword, otp := otp)) == Login(form)
  {
  }

  /** Logging in as `jane@example.com` without a name gives the user `jane`. */
  lemma LoginNameExample()
    ensures Login(AuthForm("jane@example.com", "secret", "", "", ""))
      == LoggedIn(User("1", "jane", "jane@example.com", false, 3, 10))
  {
    LocalPartExample();
  }

  predicate AllFilled(form: AuthForm)
  {
    form.email != "" && form.password != "" && form.confirmPassword != "" && form.name != ""
  }

  datatype RegisterResult = RegisterFailed(message: string) | OtpSent | Registered(user: User)

  /** `handleRegister` on the form, in the phase `isOtpSent`: an empty input
      fails before a mismatch of the passwords is looked at; a valid form
      first only sends the code; once the code is sent, any non-empty code
      creates the account, with no QR codes used of ten. */
  function Register(form: AuthForm, isOtpSent: bool): (r: RegisterResult)
    ensures r == RegisterFailed(FILL_IN_ALL_FIELDS) <==> !AllFilled(form)
    ensures r == RegisterFailed(PASSWORDS_DO_NOT_MATCH) <==> AllFilled(form) && form.password != form.confirmPassword
    ensures r.OtpSent? <==> AllFilled(form) && form.password == form.confirmPassword && !isOtpSent
    ensures r == RegisterFailed(ENTER_THE_OTP) <==>
      AllFilled(form) && form.password == form.confirmPassword && isOtpSent && form.otp == ""
    ensures r.Registered? <==>
      AllFilled(form) && form.password == form.confirmPassword && isOtpSent && form.otp != ""
    ensures r.RegisterFailed? ==> r.message in {FILL_IN_ALL_FIELDS, PASSWORDS_DO_NOT_MATCH, ENTER_THE_OTP}
    ensures r.Registered? ==>
      && r.user.id == "1" && r.user.name == form.name && r.user.email == form.email
      && !r.user.isPremium && r.user.qrCodesCount == 0 && r.user.maxQrCodes == 10
  {
    if !AllFilled(form) then RegisterFailed(FILL_IN_ALL_FIELDS)
    else if form.password != form.confirmPassword then RegisterFailed(PASSWORDS_DO_NOT_MATCH)
    else if !isOtpSent then OtpSent
    else if form.otp == "" then RegisterFailed(ENTER_THE_OTP)
    else Registered(User("1", form.name, form.email, false, 0, 10))
  }

  /** The value of the one-time code never matters, only that it is given. */
  lemma OtpValueIgnored(form: AuthForm, otp1: string, otp2: string)
    requires otp1 != "" && otp2 != ""
    ensures Register(form.(otp := otp1), true) == Register(form.(otp := otp2), true)
  {
  }

  /** A valid form registers in two presses: the first sends the code and
      does not log in, the second, with a code typed, creates the account. */
  lemma TwoPhaseRegistration(form: AuthForm)
    requires AllFilled(form) && form.password == form.confirmPassword && form.otp != ""
    ensures Register(form, false) == OtpSent
    ensures Register(form, true) == Registered(User("1", form.name, form.email, false, 0, 10))
  {
  }

  /** The dialog's state: its busy flag, the form and the registration phase. */
  class AuthModal {
    var isLoading: bool
    var formData: AuthForm
    var isOtpSent: bool

    constructor()
      ensures !isLoading && formData == EMPTY_FORM && !isOtpSent
    {
      isLoading := false;
      formData := EMPTY_FORM;
      isOtpSent := false;
    }

    /** `handleInputChange`: set one input. */
    method HandleInputChange(field: AuthField, value: string)
      modifies this
      ensures formData == SetField(old(formData), field, value)
      ensures isLoading == old(isLoading) && isOtpSent == old(isOtpSent)
    {
      formData := SetField(formData, field, value);
    }

    /** `handleLogin`: the result is what the page receives or the message
        shown; the dialog is not busy afterwards either way. */
    method HandleLogin() returns (result: LoginResult)
      modifies this
      ensures result == Login(formData)
      ensures !isLoading
      ensures formData == old(formData) && isOtpSent == old(isOtpSent)
    {
      isLoading := true;
      if formData.email == "" || formData.password == "" {
        result := LoginFailed(FILL_IN_ALL_FIELDS);
      } else {
        var name := formData.name;
        if name == "" {
          name := EmailLocalPart(formData.email);
        }
        result := LoggedIn(User("1", name, formData.email, false, 3, 10));
      }
      isLoading := false;
    }

    /** `handleRegister`: the phase moves to "code sent" exactly when the
        checks pass in the first phase; the dialog is not busy afterwards. */
    method HandleRegister() returns (result: RegisterResult)
      modifies this
      ensures result == Register(formData, old(isOtpSent))
      ensures isOtpSent == (old(isOtpSent) || result.OtpSent?)
      ensures !isLoading
      ensures formData == old(formData)
    {
      isLoading := true;
      if !AllFilled(formData) {
        result := RegisterFailed(FILL_IN_ALL_FIELDS);
      } else if formData.password != formData.confirmPassword {
        result := RegisterFailed(PASSWORDS_DO_NOT_MATCH);
      } else if !isOtpSent {
        isOtpSent := true;
        result := OtpSent;
      } else if formData.otp == "" {
        result := RegisterFailed(ENTER_THE_OTP);
      } else {
        result := Registered(User("1", formData.name, formData.email, false, 0, 10));
      }
      isLoading := false;
    }

    /** The "resend" link: back to the first phase; the form is kept. */
    method ResendCode()
      modifies this
      ensures !isOtpSent
      ensures formData == old(formData) && isLoading == old(isLoading)
    {
      isOtpSent := false;
    }
  }

  /** A fresh dialog, filled with a valid form and a code, registers on the
      second press of the button. */
  method RegistrationScenario(email: string, password: string, name: string, otp: string)
    returns (first: RegisterResult, second: RegisterResult)
    requires email != "" && password != "" && name != "" && otp != ""
    ensures first == OtpSent
    ensures second == Registered(User("1", name, email, false, 0, 10))
  {
    var modal := new AuthModal();
    modal.HandleInputChange(NameField, name);
    modal.HandleInputChange(EmailField, email);
    modal.HandleInputChange(PasswordField, password);
    modal.HandleInputChange(ConfirmPasswordField, password);
    first := modal.HandleRegister();
    modal.HandleInputChange(OtpField, otp);
    second := modal.HandleRegister();
  }
}
