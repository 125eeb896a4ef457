/** The authentication screens (src/components/auth/AuthContainer.tsx): which
    form is shown, the address carried from one form to the next, and the
    callbacks each form is handed. */
module AuthContainer {

  /** `AuthView`. */
  datatype View = Login | Register | VerifyEmail | ForgotPassword | ResetPassword

  /** The callbacks the forms can fire. `LoggedIn` and `Verified` hand the
      user to the application (`onAuthSuccess`), which is outside this model. */
  datatype Event =
    | LoggedIn
    | SwitchToRegister
    | SwitchToForgotPassword
    | SwitchToLogin
    | RegistrationSucceeded(email: string)
    | Verified
    | ResetCodeSent(email: string)
    | ResetSucceeded

  datatype State = State(currentView: View, email: string)

  /** `useState('login')` and `useState('')`. */
  function Initial(): (r: State)
    ensures r.currentView == Login && r.email == ""
  {
    State(Login, "")
  }

  /** The callbacks `renderCurrentView` hands to the form shown for `view`. */
  predicate Offered(view: View, e: Event)
  {
    match view
    case Login => e.LoggedIn? || e.SwitchToRegister? || e.SwitchToForgotPassword?
    case Register => e.SwitchToLogin? || e.RegistrationSucceeded?
    case VerifyEmail => e.Verified? || e.SwitchToLogin?
    case ForgotPassword => e.SwitchToLogin? || e.ResetCodeSent?
    case ResetPassword => e.ResetSucceeded?
  }

  /** Whether the callback hands the user to the application. */
  predicate Authenticates(e: Event)
  {
    e.LoggedIn? || e.Verified?
  }

  /** What a callback does to the container's state. */
  function Step(s: State, e: Event): State
  {
    match e
    case LoggedIn => s
    case Verified => s
    case SwitchToRegister => s.(currentView := Register)
    case SwitchToForgotPassword => s.(currentView := ForgotPassword)
    case SwitchToLogin => s.(currentView := Login)
    case RegistrationSucceeded(email) => State(VerifyEmail, email)
    case ResetCodeSent(email) => State(ResetPassword, email)
    case ResetSucceeded => s.(currentView := Login)
  }

  /** Only a registration or a sent reset code changes the stored address,
      and then to the address it carries; every other callback keeps it. */
  lemma StepEmail(s: State, e: Event)
    ensures (e.RegistrationSucceeded? || e.ResetCodeSent?) ==> Step(s, e).email == e.email
    ensures !(e.RegistrationSucceeded? || e.ResetCodeSent?) ==> Step(s, e).email == s.email
    ensures Authenticates(e) ==> Step(s, e) == s
  {
  }

  /** The verification form is entered only from the registration form, on a
      successful registration, and the reset form only from the
      forgot-password form once a code was sent; each then holds the address
      that callback carried. */
  lemma EnteringCodeForms(s: State, e: Event)
    requires Offered(s.currentView, e)
    ensures Step(s, e).currentView == VerifyEmail && s.currentView != VerifyEmail ==>
      s.currentView == Register && e.RegistrationSucceeded? && Step(s, e).email == e.email
    ensures Step(s, e).currentView == ResetPassword && s.currentView != ResetPassword ==>
      s.currentView == ForgotPassword && e.ResetCodeSent? && Step(s, e).email == e.email
  {
  }

  /** From the login form the only other forms reachable in one step are
      registration and forgot-password. */
  lemma LoginExits(s: State, e: Event)
    requires s.currentView == Login && Offered(Login, e)
    ensures Step(s, e).currentView in {Login, Register, ForgotPassword}
    ensures Step(s, e).email == s.email
  {
  }

  /** Every form but the login form offers a way back to it. */
  function BackToLogin(view: View): (r: Event)
    requires view != Login
    ensures Offered(view, r)
    ensures forall s: State :: s.currentView == view ==> Step(s, r).currentView == Login && Step(s, r).email == s.email
  {
    if view == ResetPassword then ResetSucceeded else SwitchToLogin
  }

  /** Running the offered callbacks in order; callbacks a form does not
      offer cannot be fired and are passed over. */
  function Run(s: State, events: seq<Event>): State
    decreases |events|
  {
    if events == [] then s
    else
      var next := if Offered(s.currentView, events[0]) then Step(s, events[0]) else s;
      Run(next, events[1..])
  }

  /** The two forms that work on an address: verification and reset. */
  predicate OnCodeForm(s: State)
  {
    s.currentView == VerifyEmail || s.currentView == ResetPassword
  }

  /** A callback that stores the address it carries. */
  predicate Delivers(e: Event, email: string)
  {
    (e.RegistrationSucceeded? || e.ResetCodeSent?) && e.email == email
  }

  /** Whenever a run ends on one of the code forms, the address it holds was
      carried by a registration or sent-code callback of the run, or the run
      started on a code form with that address already stored. */
  lemma {:induction false} RunCodeFormEmail(s: State, events: seq<Event>)
    ensures OnCodeForm(Run(s, events)) ==>
      (OnCodeForm(s) && Run(s, events).email == s.email)
      || exists i :: 0 <= i < |events| && Delivers(events[i], Run(s, events).email)
    decreases |events|
  {
    if events != [] {
      var e := events[0];
      var next := if Offered(s.currentView, e) then Step(s, e) else s;
      var last := Run(s, events);
      assert last == Run(next, events[1..]);
      RunCodeFormEmail(next, events[1..]);
      if OnCodeForm(last) {
        if OnCodeForm(next) && last.email == next.email {
          if next.email != s.email || !OnCodeForm(s) {
            assert Delivers(events[0], last.email);
          }
        } else {
          var i :| 0 <= i < |events[1..]| && Delivers(events[1..][i], last.email);
          assert events[i + 1] == events[1..][i];
        }
      }
    }
  }

  /** Starting from the login form, a code form only ever shows an address
      that a registration or sent-code callback of the run delivered. */
  lemma FromInitialCodeFormEmail(events: seq<Event>)
    ensures OnCodeForm(Run(Initial(), events)) ==>
      exists i :: 0 <= i < |events| && Delivers(events[i], Run(Initial(), events).email)
  {
    RunCodeFormEmail(Initial(), events);
  }

  /** The code forms are reachable from the initial state when the login form
      fires the switch callbacks it is handed: registering leads to the
      verification form with the registered address, and asking for a reset
      code leads to the reset form with that address. */
  lemma CodeFormsReachable(email: string)
    ensures Run(Initial(), [SwitchToRegister, RegistrationSucceeded(email)]) == State(VerifyEmail, email)
    ensures Run(Initial(), [SwitchToForgotPassword, ResetCodeSent(email)]) == State(ResetPassword, email)
  {
    var a := [SwitchToRegister, RegistrationSucceeded(email)];
    assert a[1..] == [RegistrationSucceeded(email)] && a[1..][1..] == [];
    assert Run(State(VerifyEmail, email), []) == State(VerifyEmail, email);
    assert Run(State(Register, ""), a[1..]) == State(VerifyEmail, email);
    assert Run(Initial(), a) == Run(State(Register, ""), a[1..]);
    var b := [SwitchToForgotPassword, ResetCodeSent(email)];
    assert b[1..] == [ResetCodeSent(email)] && b[1..][1..] == [];
    assert Run(State(ResetPassword, email), []) == State(ResetPassword, email);
    assert Run(State(ForgotPassword, ""), b[1..]) == State(ResetPassword, email);
    assert Run(Initial(), b) == Run(State(ForgotPassword, ""), b[1..]);
  }

  /** The callbacks the login form fires as written: it takes only
      `onLogin` and never calls the two switch callbacks it is handed. */
  predicate OfferedAsWritten(view: View, e: Event)
  {
    if view == Login then e.LoggedIn? else Offered(view, e)
  }

  /** `Run` with the login form as written. */
  function RunAsWritten(s: State, events: seq<Event>): State
    decreases |events|
  {
    if events == [] then s
    else
      var next := if OfferedAsWritten(s.currentView, events[0]) then Step(s, events[0]) else s;
      RunAsWritten(next, events[1..])
  }

  /** With the login form as written, no run ever leaves the login view:
      registration, password reset and the code forms are unreachable. */
  lemma {:induction false} AsWrittenStaysOnLogin(events: seq<Event>)
    ensures RunAsWritten(Initial(), events) == Initial()
    decreases |events|
  {
    if events != [] {
      var e := events[0];
      var next := if OfferedAsWritten(Login, e) then Step(Initial(), e) else Initial();
      assert next == Initial();
      AsWrittenStaysOnLogin(events[1..]);
    }
  }

  /** The form `renderCurrentView` shows; the code forms are given the stored address. */
  datatype Screen =
    | LoginForm
    | RegisterForm
    | EmailVerificationForm(email: string)
    | ForgotPasswordForm
    | ResetPasswordForm(email: string)

  function RenderCurrentView(s: State): (r: Screen)
    ensures r.EmailVerificationForm? <==> s.currentView == VerifyEmail
    ensures r.ResetPasswordForm? <==> s.currentView == ResetPassword
    ensures r.LoginForm? <==> s.currentView == Login
    ensures (r.EmailVerificationForm? || r.ResetPasswordForm?) ==> r.email == s.email
  {
    match s.currentView
    case Login => LoginForm
    case Register => RegisterForm
    case VerifyEmail => EmailVerificationForm(s.email)
    case ForgotPassword => ForgotPasswordForm
    case ResetPassword => ResetPasswordForm(s.email)
  }

  /** The container component, with its two pieces of state. */
  class Container {
    var currentView: View
    var email: string

    function CurrentState(): State
      reads this
    {
      State(currentView, email)
    }

    constructor ()
      ensures CurrentState() == Initial()
    {
      currentView, email := Login, "";
    }

    /** Fires a callback the shown form was handed; returns whether the user
        is handed to the application. */
    method Handle(e: Event) returns (authenticated: bool)
      requires Offered(currentView, e)
      modifies this
      ensures CurrentState() == Step(old(CurrentState()), e)
      ensures authenticated == Authenticates(e)
    {
      authenticated := false;
      match e {
        case LoggedIn => authenticated := true;
        case Verified => authenticated := true;
        case SwitchToRegister => currentView := Register;
        case SwitchToForgotPassword => currentView := ForgotPassword;
        case SwitchToLogin => currentView := Login;
        case RegistrationSucceeded(userEmail) =>
          email := userEmail;
          currentView := VerifyEmail;
        case ResetCodeSent(userEmail) =>
          email := userEmail;
          currentView := ResetPassword;
        case ResetSucceeded => currentView := Login;
      }
    }
  }
}
