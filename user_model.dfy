/** The stored user record (server/models/User.js): the field rules and
    defaults of the schema, password hashing on save, and the six-digit
    codes for email verification and password reset. */
module UserModel {
  import opened Strings
  import opened Domain
  import ResetPasswordForm

  const USERNAME_MIN: nat := 3
  const USERNAME_MAX: nat := 30
  const PASSWORD_MIN: nat := 6
  /** Ten minutes, in milliseconds. */
  const TOKEN_LIFETIME: int := 10 * 60 * 1000
  const AVATAR_BASE := "https://api.dicebear.com/7.x/avataaars/svg?seed="

  /** The first rule a field breaks; each field reports one. */
  datatype Issue =
    | UsernameRequired | UsernameTooShort | UsernameTooLong
    | EmailRequired
    | PasswordRequired | PasswordTooShort
    | StatusNotAllowed

  /** The message the schema attaches to a broken rule. */
  function IssueText(issue: Issue): string
  {
    match issue
    case UsernameRequired => "Username is required"
    case UsernameTooShort => "Username must be at least 3 characters"
    case UsernameTooLong => "Username cannot exceed 30 characters"
    case EmailRequired => "Email is required"
    case PasswordRequired => "Password is required"
    case PasswordTooShort => "Password must be at least 6 characters"
    case StatusNotAllowed => "`status` is not a valid enum value"
  }

  /** The username rules, checked on the trimmed value: required first, then
      the minimum and the maximum length. */
  function UsernameIssue(username: string): (r: Option<Issue>)
    ensures r == Some(UsernameRequired) <==> username == ""
    ensures r.None? <==> USERNAME_MIN <= |username| <= USERNAME_MAX
    ensures r == Some(UsernameTooShort) <==> 0 < |username| < USERNAME_MIN
    ensures r == Some(UsernameTooLong) <==> |username| > USERNAME_MAX
  {
    if username == "" then Some(UsernameRequired)
    else if |username| < USERNAME_MIN then Some(UsernameTooShort)
    else if |username| > USERNAME_MAX then Some(UsernameTooLong)
    else None
  }

  function PasswordIssue(password: string): (r: Option<Issue>)
    ensures r == Some(PasswordRequired) <==> password == ""
    ensures r.None? <==> |password| >= PASSWORD_MIN
    ensures r == Some(PasswordTooShort) <==> 0 < |password| < PASSWORD_MIN
  {
    if password == "" then Some(PasswordRequired)
    else if |password| < PASSWORD_MIN then Some(PasswordTooShort)
    else None
  }

  predicate IsStatus(status: string)
  {
    status == ONLINE || status == AWAY || status == BUSY || status == OFFLINE
  }

  /** The default avatar: the avatar service keyed by the username. */
  function DefaultAvatar(username: string): string
  {
    AVATAR_BASE + username
  }

  /** The default avatar is the service's address followed by the username,
      so distinct usernames get distinct avatars. */
  lemma DefaultAvatarSeeded(username: string, other: string)
    ensures StartsWith(DefaultAvatar(username), AVATAR_BASE)
    ensures DefaultAvatar(username)[|AVATAR_BASE|..] == username
    ensures DefaultAvatar(username) == DefaultAvatar(other) <==> username == other
  {
    assert DefaultAvatar(other)[|AVATAR_BASE|..] == other;
  }

  /** `Math.floor(100000 + Math.random() * 900000)`, the random number being
      `num / den` with `0 <= num < den`. */
  function TokenValue(num: nat, den: nat): (r: nat)
    requires num < den
    ensures 100000 <= r <= 999999
  {
    100000 + (num * 900000) / den
  }

  /** `.toString()` of the code. */
  function Token(num: nat, den: nat): (r: string)
    requires num < den
  {
    NatToString(TokenValue(num, den))
  }

  /** A code is always six decimal digits, so the code inputs of the
      verification and reset forms take it unchanged, it reads back as the
      number drawn, and every six-digit number can be drawn. */
  lemma TokenShape(num: nat, den: nat)
    requires num < den
    ensures |Token(num, den)| == ResetPasswordForm.CODE_LENGTH
    ensures forall i :: 0 <= i < |Token(num, den)| ==> IsDigit(Token(num, den)[i])
    ensures ResetPasswordForm.SanitizeCode(Token(num, den)) == Token(num, den)
    ensures ParseNat(Token(num, den)) == TokenValue(num, den)
  {
    assert Pow10(5) == 100000 && Pow10(6) == 1000000 by {
      assert Pow10(2) == 100;
      assert Pow10(4) == 10000;
    }
    NatToStringLength(TokenValue(num, den), 6);
    ParseNatToString(TokenValue(num, den));
  }

  /** Every code from 100000 to 999999 is drawn for some random value. */
  lemma EveryTokenDrawn(t: nat)
    requires 100000 <= t <= 999999
    ensures TokenValue(t - 100000, 900000) == t
  {
  }

  /** The fields a user document stores. */
  datatype Record = Record(
    username: string, email: string, password: string, avatar: string, status: string,
    isEmailVerified: bool,
    emailVerificationToken: Option<string>, emailVerificationExpires: Option<int>,
    passwordResetToken: Option<string>, passwordResetExpires: Option<int>,
    lastSeen: int, socketId: Option<string>)

  /** The document a registration creates at time `now`: the setters of the
      schema applied (the username trimmed, the email lower-cased) and the
      defaults filled in. */
  function Registered(username: string, email: string, password: string, now: int): Record
  {
    var trimmed := Trim(username);
    Record(trimmed, Lower(email), password, DefaultAvatar(trimmed), OFFLINE, false,
           None, None, None, None, now, None)
  }

  /** What registration stores: the username trimmed of white space at both
      ends, the email lower-cased character by character, the password as
      given, the avatar seeded with the stored username, an allowed status and
      no codes. */
  lemma RegisteredDefaults(username: string, email: string, password: string, now: int)
    ensures var r := Registered(username, email, password, now);
      && |r.username| <= |username|
      && (r.username == [] || (!IsSpace(r.username[0]) && !IsSpace(r.username[|r.username| - 1])))
      && |r.email| == |email| && (forall i :: 0 <= i < |email| ==> r.email[i] == LowerChar(email[i]))
      && r.password == password && r.avatar == DefaultAvatar(r.username)
      && r.status == OFFLINE && IsStatus(r.status) && !r.isEmailVerified
      && r.lastSeen == now && r.socketId.None?
      && r.emailVerificationToken.None? && r.emailVerificationExpires.None?
      && r.passwordResetToken.None? && r.passwordResetExpires.None?
  {
    TrimEnds(username);
  }

  /** A user document, its fields updated in place by the hooks and methods
      of the schema. */
  class UserDocument {
    var username: string
    var email: string
    var password: string
    var avatar: string
    var status: string
    var isEmailVerified: bool
    var emailVerificationToken: Option<string>
    var emailVerificationExpires: Option<int>
    var passwordResetToken: Option<string>
    var passwordResetExpires: Option<int>
    var lastSeen: int
    var socketId: Option<string>

    function Fields(): Record
      reads this
    {
      Record(username, email, password, avatar, status, isEmailVerified,
             emailVerificationToken, emailVerificationExpires, passwordResetToken, passwordResetExpires,
             lastSeen, socketId)
    }

    /** A new document from the registration fields at time `now`. */
    constructor (username: string, email: string, password: string, now: int)
      ensures Fields() == Registered(username, email, password, now)
    {
      var r := Registered(username, email, password, now);
      this.username, this.email, this.password, avatar, status, isEmailVerified :=
        r.username, r.email, r.password, r.avatar, r.status, r.isEmailVerified;
      emailVerificationToken, emailVerificationExpires, passwordResetToken, passwordResetExpires :=
        r.emailVerificationToken, r.emailVerificationExpires, r.passwordResetToken, r.passwordResetExpires;
      lastSeen, socketId := r.lastSeen, r.socketId;
    }

    /** The issues validation reports, one per broken field. */
    function Issues(): (r: set<Issue>)
      reads this
      ensures r == {} <==>
        && USERNAME_MIN <= |username| <= USERNAME_MAX && email != ""
        && |password| >= PASSWORD_MIN && IsStatus(status)
      ensures UsernameIssue(username).Some? ==> UsernameIssue(username).value in r
      ensures EmailRequired in r <==> email == ""
      ensures PasswordIssue(password).Some? ==> PasswordIssue(password).value in r
      ensures StatusNotAllowed in r <==> !IsStatus(status)
    {
      var u := UsernameIssue(username);
      var p := PasswordIssue(password);
      (if u.Some? then {u.value} else {})
      + (if email == "" then {EmailRequired} else {})
      + (if p.Some? then {p.value} else {})
      + (if IsStatus(status) then {} else {StatusNotAllowed})
    }

    /** The pre-save hook: the password is replaced by its hash only when it
        was changed since the last save. */
    method PreSave(passwordModified: bool, hash: string -> string)
      modifies this
      ensures passwordModified ==> password == hash(old(password))
      ensures !passwordModified ==> password == old(password)
      ensures username == old(username) && email == old(email) && status == old(status)
      ensures emailVerificationToken == old(emailVerificationToken)
      ensures passwordResetToken == old(passwordResetToken)
      ensures Fields() == old(Fields()).(password := if passwordModified then hash(old(password)) else old(password))
    {
      if passwordModified {
        password := hash(password);
      }
    }

    /** `createEmailVerificationToken`, the random number being `num / den`:
        stores a fresh code valid for ten minutes from `now` and returns it. */
    method CreateEmailVerificationToken(num: nat, den: nat, now: int) returns (token: string)
      requires num < den
      modifies this
      ensures token == Token(num, den)
      ensures emailVerificationToken == Some(token)
      ensures emailVerificationExpires == Some(now + TOKEN_LIFETIME)
      ensures passwordResetToken == old(passwordResetToken) && passwordResetExpires == old(passwordResetExpires)
      ensures password == old(password) && isEmailVerified == old(isEmailVerified)
      ensures Fields() == old(Fields()).(emailVerificationToken := Some(token), emailVerificationExpires := Some(now + TOKEN_LIFETIME))
    {
      token := NatToString(100000 + (num * 900000) / den);
      emailVerificationToken := Some(token);
      emailVerificationExpires := Some(now + 10 * 60 * 1000);
    }

    /** `createPasswordResetToken`: the same for the reset code. */
    method CreatePasswordResetToken(num: nat, den: nat, now: int) returns (token: string)
      requires num < den
      modifies this
      ensures token == Token(num, den)
      ensures passwordResetToken == Some(token)
      ensures passwordResetExpires == Some(now + TOKEN_LIFETIME)
      ensures emailVerificationToken == old(emailVerificationToken)
      ensures emailVerificationExpires == old(emailVerificationExpires)
      ensures password == old(password) && isEmailVerified == old(isEmailVerified)
      ensures Fields() == old(Fields()).(passwordResetToken := Some(token), passwordResetExpires := Some(now + TOKEN_LIFETIME))
    {
      token := NatToString(100000 + (num * 900000) / den);
      passwordResetToken := Some(token);
      passwordResetExpires := Some(now + 10 * 60 * 1000);
    }
  }
}
