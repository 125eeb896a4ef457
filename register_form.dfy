/** The sign-up form (src/components/auth/RegisterForm.tsx): the checks run
    before `register` is called, the password strength meter, the submit
    button's enable condition and the messages shown for server errors. */
module RegisterForm {
  import opened Strings

  datatype Form = Form(username: string, email: string, password: string, confirmPassword: string)

  datatype Field = Username | Email | Password | ConfirmPassword

  /** `handleInputChange`: the named field takes the value as typed. */
  function WithField(form: Form, field: Field, value: string): (r: Form)
    ensures field == Username ==> r == form.(username := value)
    ensures field == Email ==> r == form.(email := value)
    ensures field == Password ==> r == form.(password := value)
    ensures field == ConfirmPassword ==> r == form.(confirmPassword := value)
  {
    match field
    case Username => form.(username := value)
    case Email => form.(email := value)
    case Password => form.(password := value)
    case ConfirmPassword => form.(confirmPassword := value)
  }

  /** Why a submission is refused, in the order the checks run. */
  datatype Rejection = UsernameRequired | EmailRequired | PasswordRequired | PasswordsDiffer | PasswordTooShort

  function RejectionText(r: Rejection): string
  {
    match r
    case UsernameRequired => "Username is required"
    case EmailRequired => "Email is required"
    case PasswordRequired => "Password is required"
    case PasswordsDiffer => "Passwords do not match"
    case PasswordTooShort => "Password must be at least 6 characters long"
  }

  const MIN_PASSWORD: nat := 6

  /** The checks of `handleSubmit`: the first that fails decides. */
  function Validate(form: Form): (r: Option<Rejection>)
    ensures r == Some(UsernameRequired) <==> AllSpace(form.username)
    ensures r == Some(EmailRequired) <==> !AllSpace(form.username) && AllSpace(form.email)
    ensures r == Some(PasswordRequired) <==> !AllSpace(form.username) && !AllSpace(form.email) && form.password == ""
    ensures r == Some(PasswordsDiffer) <==> !AllSpace(form.username) && !AllSpace(form.email) && form.password != ""
                                            && form.password != form.confirmPassword
    ensures r == Some(PasswordTooShort) <==> !AllSpace(form.username) && !AllSpace(form.email) && form.password != ""
                                             && form.password == form.confirmPassword && |form.password| < MIN_PASSWORD
    ensures r.None? <==> !AllSpace(form.username) && !AllSpace(form.email)
                         && form.password == form.confirmPassword && |form.password| >= MIN_PASSWORD
  {
    TrimEmptyIffAllSpace(form.username);
    TrimEmptyIffAllSpace(form.email);
    if Trim(form.username) == "" then Some(UsernameRequired)
    else if Trim(form.email) == "" then Some(EmailRequired)
    else if form.password == "" then Some(PasswordRequired)
    else if form.password != form.confirmPassword then Some(PasswordsDiffer)
    else if |form.password| < MIN_PASSWORD then Some(PasswordTooShort)
    else None
  }

  datatype Submission =
    | Rejected(reason: Rejection)
    | Register(username: string, email: string, password: string)

  /** `handleSubmit`: either a refusal, or the call to `register` with the
      username and email trimmed and the password as typed. */
  function HandleSubmit(form: Form): (r: Submission)
    ensures r.Register? <==> Validate(form).None?
    ensures r.Rejected? ==> Validate(form) == Some(r.reason)
    ensures r.Register? ==> r == Register(Trim(form.username), Trim(form.email), form.password)
                            && r.username != "" && r.email != "" && |r.password| >= MIN_PASSWORD
  {
    match Validate(form)
    case Some(reason) => Rejected(reason)
    case None =>
      TrimEmptyIffAllSpace(form.username);
      TrimEmptyIffAllSpace(form.email);
      Register(Trim(form.username), Trim(form.email), form.password)
  }

  /** Whether the submit button can be pressed. */
  predicate SubmitEnabled(form: Form, isLoading: bool)
  {
    !(isLoading || Trim(form.username) == "" || Trim(form.email) == "" || form.password == ""
      || form.confirmPassword == "" || form.password != form.confirmPassword
      || |form.password| < MIN_PASSWORD)
  }

  /** The button is enabled exactly when no request is in flight and every
      check of `handleSubmit` passes, so an enabled button never leads to a
      refusal. */
  lemma SubmitEnabledIffValid(form: Form, isLoading: bool)
    ensures SubmitEnabled(form, isLoading) <==> !isLoading && Validate(form).None?
  {
    TrimEmptyIffAllSpace(form.username);
    TrimEmptyIffAllSpace(form.email);
  }

  /** A character matched by a regular-expression lookahead `(?=.*[...])`
      anchored at the start: it occurs before the first line terminator. */
  predicate OnFirstLine(s: string, f: char -> bool)
  {
    exists i :: 0 <= i < |s| && f(s[i]) && forall j :: 0 <= j < i ==> !IsLineTerminator(s[j])
  }

  /** The scan the regular expression engine makes for one lookahead. */
  function ScanFirstLine(s: string, f: char -> bool): (r: bool)
    ensures r <==> OnFirstLine(s, f)
  {
    if s == [] then false
    else if f(s[0]) then true
    else if IsLineTerminator(s[0]) then false
    else
      var r := ScanFirstLine(s[1..], f);
      assert r ==> OnFirstLine(s, f) by {
        if r {
          var i :| 0 <= i < |s| - 1 && f(s[1..][i]) && forall j :: 0 <= j < i ==> !IsLineTerminator(s[1..][j]);
          assert f(s[i + 1]) && forall j :: 0 <= j < i + 1 ==> !IsLineTerminator(s[j]);
        }
      }
      assert OnFirstLine(s, f) ==> r by {
        if OnFirstLine(s, f) {
          var i :| 0 <= i < |s| && f(s[i]) && forall j :: 0 <= j < i ==> !IsLineTerminator(s[j]);
          assert i != 0;
          assert f(s[1..][i - 1]) && forall j :: 0 <= j < i - 1 ==> !IsLineTerminator(s[1..][j]);
        }
      }
      r
  }

  /** `password.match(/^(?=.*[a-z])(?=.*[A-Z])(?=.*\d)/)`. */
  predicate Mixed(password: string)
  {
    ScanFirstLine(password, IsLowerAscii) && ScanFirstLine(password, IsUpperAscii) && ScanFirstLine(password, IsDigit)
  }

  datatype Strength = Strength(level: nat, text: string, color: string)

  /** `getPasswordStrength`, graded by length and, from eight characters on,
      by a mix of lower case, upper case and digits. */
  function PasswordStrength(password: string): (r: Strength)
    ensures r.level == 0 <==> password == ""
    ensures r.level == 1 <==> 1 <= |password| < 6
    ensures r.level == 2 <==> 6 <= |password| < 8
    ensures r.level == 4 <==> |password| >= 8 && OnFirstLine(password, IsLowerAscii)
                              && OnFirstLine(password, IsUpperAscii) && OnFirstLine(password, IsDigit)
    ensures r.level == 3 <==> |password| >= 8 && !Mixed(password)
    ensures r.level <= 4
  {
    if |password| == 0 then Strength(0, "", "")
    else if |password| < 6 then Strength(1, "Weak", "text-red-500")
    else if |password| < 8 then Strength(2, "Fair", "text-yellow-500")
    else if Mixed(password) then Strength(4, "Strong", "text-green-500")
    else Strength(3, "Good", "text-blue-500")
  }

  const EMAIL_TAKEN_TEXT: string := "This email is already registered. Try logging in instead!"
  const USERNAME_TAKEN_TEXT: string := "This username is already taken. Please choose a different one."
  const FALLBACK_TEXT: string := "Registration failed. Please try again."

  /** The toast shown when `register` fails with `message`: the two known
      conflicts get their own text, any other message is shown as it is, and
      the text is never blank. */
  function ErrorText(message: string): (r: string)
    ensures Contains(message, "Email already registered") ==> r == EMAIL_TAKEN_TEXT
    ensures !Contains(message, "Email already registered") && Contains(message, "Username already taken")
            ==> r == USERNAME_TAKEN_TEXT
    ensures !Contains(message, "Email already registered") && !Contains(message, "Username already taken")
            ==> r == (if message == "" then FALLBACK_TEXT else message)
    ensures r != ""
  {
    if Contains(message, "Email already registered") then EMAIL_TAKEN_TEXT
    else if Contains(message, "Username already taken") then USERNAME_TAKEN_TEXT
    else if message != "" then message
    else FALLBACK_TEXT
  }
}
