/** The form that confirms an address with the emailed code
    (src/components/auth/EmailVerificationForm.tsx): the code input, the
    submit guard, and the one-second countdown that gates "resend". The
    interval timer is the `Tick` method, called once per second. */
module EmailVerificationForm {
  import opened Strings
  import ResetPasswordForm

  const COUNTDOWN_START: nat := 60

  /** One tick of the countdown updater: the next value, and whether resend
      becomes allowed. */
  function TickOf(prev: int): (r: (int, bool))
    ensures r.0 >= 0
    ensures prev > 1 ==> r == (prev - 1, false)
    ensures prev <= 1 ==> r == (0, true)
  {
    if prev <= 1 then (0, true) else (prev - 1, false)
  }

  /** The countdown after `n` ticks. */
  function CountdownAfter(start: int, n: nat): int
  {
    if n == 0 then start else TickOf(CountdownAfter(start, n - 1)).0
  }

  /** From a non-negative start the countdown goes down one per tick, stops
      at zero and never goes below it. */
  lemma {:induction false} CountdownAfterTicks(start: nat, n: nat)
    ensures CountdownAfter(start, n) == if n < start then start - n else 0
  {
    if n > 0 {
      CountdownAfterTicks(start, n - 1);
    }
  }

  /** A submission: the address and the six-character code. */
  datatype VerifyRequest = VerifyRequest(email: string, verificationCode: string)

  /** What `handleSubmit` sends: nothing for a code of any length but six. */
  function Submission(email: string, code: string): (r: Option<VerifyRequest>)
    ensures r.None? <==> |code| != ResetPasswordForm.CODE_LENGTH
    ensures r.Some? ==> r.value.email == email && r.value.verificationCode == code
  {
    if |code| != ResetPasswordForm.CODE_LENGTH then None else Some(VerifyRequest(email, code))
  }

  /** The resend button's text. */
  function ResendLabel(canResend: bool, countdown: nat): (r: string)
    ensures canResend ==> r == "Resend Code"
    ensures !canResend ==> r == "Resend in " + NatToString(countdown) + "s"
  {
    if canResend then "Resend Code" else "Resend in " + NatToString(countdown) + "s"
  }

  /** Whenever resend is not offered, the label counts down a positive number of seconds. */
  lemma ResendLabelCounts(canResend: bool, countdown: nat)
    requires countdown <= COUNTDOWN_START && (canResend <==> countdown == 0)
    ensures !canResend ==> ParseNat(ResendLabel(canResend, countdown)[10..|ResendLabel(canResend, countdown)| - 1]) > 0
  {
    if !canResend {
      var text := ResendLabel(canResend, countdown);
      assert text[10..|text| - 1] == NatToString(countdown);
      ParseNatToString(countdown);
    }
  }

  class VerificationForm {
    const email: string
    var verificationCode: string
    var isLoading: bool
    var isResending: bool
    var countdown: int
    var canResend: bool

    /** The code is at most six digits; the countdown stays between 0 and 60
        and resend is allowed exactly when it has reached 0. */
    ghost predicate Valid()
      reads this
    {
      && |verificationCode| <= ResetPasswordForm.CODE_LENGTH
      && (forall i :: 0 <= i < |verificationCode| ==> IsDigit(verificationCode[i]))
      && 0 <= countdown <= COUNTDOWN_START
      && (canResend <==> countdown == 0)
    }

    constructor (email: string)
      ensures Valid()
      ensures this.email == email && verificationCode == "" && !isLoading && !isResending
      ensures countdown == COUNTDOWN_START && !canResend
    {
      this.email := email;
      verificationCode, isLoading, isResending := "", false, false;
      countdown, canResend := COUNTDOWN_START, false;
    }

    /** One firing of the one-second interval. */
    method Tick()
      requires Valid()
      modifies this
      ensures Valid()
      ensures countdown == TickOf(old(countdown)).0
      ensures canResend == (old(canResend) || TickOf(old(countdown)).1)
      ensures verificationCode == old(verificationCode) && isLoading == old(isLoading)
      ensures isResending == old(isResending)
    {
      if countdown <= 1 {
        canResend := true;
        countdown := 0;
      } else {
        countdown := countdown - 1;
      }
    }

    /** `handleCodeChange`. */
    method HandleCodeChange(value: string)
      requires Valid()
      modifies this
      ensures Valid()
      ensures verificationCode == ResetPasswordForm.SanitizeCode(value)
      ensures countdown == old(countdown) && canResend == old(canResend)
      ensures isLoading == old(isLoading) && isResending == old(isResending)
    {
      verificationCode := ResetPasswordForm.SanitizeCode(value);
    }

    /** `handleSubmit` up to the awaited `verifyEmail` call: a code of any
        other length than six is refused without a request; otherwise the
        loading flag is raised, which disables the verify button until the
        call settles. */
    method HandleSubmit() returns (r: Option<VerifyRequest>)
      requires Valid()
      modifies this
      ensures Valid()
      ensures r == Submission(email, old(verificationCode))
      ensures isLoading == (old(isLoading) || r.Some?)
      ensures r.Some? ==> !SubmitEnabled()
      ensures verificationCode == old(verificationCode) && isResending == old(isResending)
      ensures countdown == old(countdown) && canResend == old(canResend)
    {
      if |verificationCode| != ResetPasswordForm.CODE_LENGTH {
        return None;
      }
      isLoading := true;
      r := Some(VerifyRequest(email, verificationCode));
    }

    /** The `finally` of `handleSubmit`, once `verifyEmail` settles either way. */
    method SubmitSettled()
      requires Valid()
      modifies this
      ensures Valid()
      ensures !isLoading
      ensures verificationCode == old(verificationCode) && isResending == old(isResending)
      ensures countdown == old(countdown) && canResend == old(canResend)
    {
      isLoading := false;
    }

    /** The verify button is disabled while loading or unless the code has six digits. */
    predicate SubmitEnabled()
      reads this
    {
      !isLoading && |verificationCode| == ResetPasswordForm.CODE_LENGTH
    }

    /** `handleResendCode` up to the awaited `resendVerification` call: the
        resending flag is raised, which disables the resend button. */
    method HandleResend()
      requires Valid()
      modifies this
      ensures Valid()
      ensures isResending && !ResendEnabled()
      ensures verificationCode == old(verificationCode) && isLoading == old(isLoading)
      ensures countdown == old(countdown) && canResend == old(canResend)
    {
      isResending := true;
    }

    /** The rest of `handleResendCode`, given whether `resendVerification`
        succeeded: success restarts the countdown and withdraws resend; the
        resending flag is lowered either way. */
    method ResendSettled(succeeded: bool)
      requires Valid()
      modifies this
      ensures Valid()
      ensures succeeded ==> countdown == COUNTDOWN_START && !canResend
      ensures !succeeded ==> countdown == old(countdown) && canResend == old(canResend)
      ensures !isResending && verificationCode == old(verificationCode) && isLoading == old(isLoading)
    {
      if succeeded {
        countdown := COUNTDOWN_START;
        canResend := false;
      }
      isResending := false;
    }

    /** The resend button is disabled while resend is not allowed or a resend is in flight. */
    predicate ResendEnabled()
      reads this
    {
      canResend && !isResending
    }
  }

  /** The resend button is enabled only once the countdown has run out, and
      an enabled verify button always leads to a request. */
  lemma ButtonsEnabled(f: VerificationForm)
    requires f.Valid()
    ensures f.ResendEnabled() ==> f.countdown == 0
    ensures f.SubmitEnabled() ==> Submission(f.email, f.verificationCode).Some?
  {
  }
}
