/** The form that sets a new password with an emailed code
    (src/components/auth/ResetPasswordForm.tsx). */
module ResetPasswordForm {
  import opened Strings
  import opened Lists
  import RegisterForm

  const CODE_LENGTH: nat := 6

  datatype Form = Form(resetCode: string, newPassword: string, confirmPassword: string)

  datatype Field = ResetCode | NewPassword | ConfirmPassword

  /** `value.replace(/\D/g, '').slice(0, 6)`: the digits typed, at most six. */
  function SanitizeCode(value: string): (r: string)
    ensures |r| <= CODE_LENGTH
    ensures forall i :: 0 <= i < |r| ==> IsDigit(r[i])
    ensures r <= DigitsOf(value)
    ensures |r| == if |DigitsOf(value)| < CODE_LENGTH then |DigitsOf(value)| else CODE_LENGTH
  {
    Take(DigitsOf(value), CODE_LENGTH)
  }

  /** Sanitising a sanitised code changes nothing. */
  lemma SanitizeIdempotent(value: string)
    ensures SanitizeCode(SanitizeCode(value)) == SanitizeCode(value)
  {
  }

  /** `handleInputChange`: the code keeps only its first six digits, the
      other fields take the value as typed. */
  function HandleInputChange(form: Form, field: Field, value: string): (r: Form)
    ensures field == ResetCode ==> r == form.(resetCode := SanitizeCode(value))
    ensures field == NewPassword ==> r == form.(newPassword := value)
    ensures field == ConfirmPassword ==> r == form.(confirmPassword := value)
  {
    match field
    case ResetCode => form.(resetCode := SanitizeCode(value))
    case NewPassword => form.(newPassword := value)
    case ConfirmPassword => form.(confirmPassword := value)
  }

  /** A code entered through the form is at most six digits, so its only way
      to fail the length check is to be too short. */
  lemma CodeFieldShape(form: Form, value: string)
    ensures var code := HandleInputChange(form, ResetCode, value).resetCode;
      |code| <= CODE_LENGTH && (forall i :: 0 <= i < |code| ==> IsDigit(code[i]))
      && (|code| != CODE_LENGTH <==> |DigitsOf(value)| < CODE_LENGTH)
  {
  }

  datatype Rejection = PasswordsDiffer | PasswordTooShort | InvalidCode

  /** The checks of `handleSubmit`, in order: the first that fails decides. */
  function Validate(form: Form): (r: Option<Rejection>)
    ensures r == Some(PasswordsDiffer) <==> form.newPassword != form.confirmPassword
    ensures r == Some(PasswordTooShort) <==> form.newPassword == form.confirmPassword
                                             && |form.newPassword| < RegisterForm.MIN_PASSWORD
    ensures r == Some(InvalidCode) <==> form.newPassword == form.confirmPassword
                                        && |form.newPassword| >= RegisterForm.MIN_PASSWORD
                                        && |form.resetCode| != CODE_LENGTH
  {
    if form.newPassword != form.confirmPassword then Some(PasswordsDiffer)
    else if |form.newPassword| < RegisterForm.MIN_PASSWORD then Some(PasswordTooShort)
    else if |form.resetCode| != CODE_LENGTH then Some(InvalidCode)
    else None
  }

  datatype Submission =
    | Rejected(reason: Rejection)
    | ResetPassword(email: string, resetCode: string, newPassword: string)

  /** `handleSubmit`: `resetPassword` is called only with matching passwords
      of at least six characters and a six-character code. */
  function HandleSubmit(email: string, form: Form): (r: Submission)
    ensures r.ResetPassword? <==> form.newPassword == form.confirmPassword
                                  && |form.newPassword| >= RegisterForm.MIN_PASSWORD
                                  && |form.resetCode| == CODE_LENGTH
    ensures r.ResetPassword? ==> r == ResetPassword(email, form.resetCode, form.newPassword)
    ensures r.Rejected? ==> Validate(form) == Some(r.reason)
  {
    match Validate(form)
    case Some(reason) => Rejected(reason)
    case None => ResetPassword(email, form.resetCode, form.newPassword)
  }

  /** Whether the submit button can be pressed: the password length is not
      part of it. */
  predicate SubmitEnabled(form: Form, isLoading: bool)
  {
    !(isLoading || form.newPassword != form.confirmPassword || |form.resetCode| != CODE_LENGTH)
  }

  /** An enabled button submits exactly when the password is long enough;
      a short matching password gets through the button and is refused by
      `handleSubmit`. */
  lemma EnabledSubmitRefusesShortPassword(email: string, form: Form)
    requires SubmitEnabled(form, false)
    ensures HandleSubmit(email, form).Rejected? <==> |form.newPassword| < RegisterForm.MIN_PASSWORD
    ensures HandleSubmit(email, form).Rejected? ==> HandleSubmit(email, form).reason == PasswordTooShort
  {
  }

  /** The strength meter under the new password is the sign-up form's. */
  function PasswordStrength(form: Form): (r: RegisterForm.Strength)
    ensures r == RegisterForm.PasswordStrength(form.newPassword)
    ensures r.level >= 3 <==> |form.newPassword| >= 8
  {
    RegisterForm.PasswordStrength(form.newPassword)
  }
}
