/** The password-reset screen: the email is validated as it is typed, the
    reset email can be sent only for a valid address, and after sending a
    60-second countdown must run out before it can be sent again.

    The send itself is simulated by the screen (a two-second wait that
    always succeeds), so its only effect is on the screen's state; the
    one-second timer of the countdown is a `Tick` input. */
module ForgotPassword {
  import opened Common
  import opened Validation

  const InvalidEmailMessage := "Please enter a valid email address"
  /** Seconds before the email can be sent again. */
  const ResendDelay := 60

  /** `validateEmail`: the empty string exactly for an address of the
      email pattern. */
  function EmailError(value: string): (r: string)
    ensures r == "" <==> MatchesEmailPattern(value)
  {
    EmailRegexTestIffPattern(value);
    if !EmailRegexTest(value) then InvalidEmailMessage else ""
  }

  /** The screen's state. */
  datatype ResetState = ResetState(email: string, emailError: string, emailValid: bool, emailSent: bool, countdown: int)

  const InitialResetState := ResetState("", "", false, false, 0)

  /** `handleEmailChange`: store the value, its error, and whether it may be sent. */
  function EmailChanged(s: ResetState, value: string): (r: ResetState)
    ensures r.email == value && r.emailError == EmailError(value)
    ensures r.emailValid == (r.emailError == "" && |value| > 0)
    ensures r.emailSent == s.emailSent && r.countdown == s.countdown
  {
    var error := EmailError(value);
    s.(email := value, emailError := error, emailValid := error == "" && |value| > 0)
  }

  /** The "non-empty" half of `emailValid` is implied by the pattern: the
      flag is set exactly when the address matches. */
  lemma EmailValidIffPattern(s: ResetState, value: string)
    ensures EmailChanged(s, value).emailValid <==> MatchesEmailPattern(value)
  {
  }

  /** `handleSendResetEmail`: nothing but an alert for an invalid address;
      otherwise the email counts as sent and the countdown starts at 60. */
  function SendReset(s: ResetState): ResetState
  {
    if !s.emailValid then s else s.(emailSent := true, countdown := ResendDelay)
  }

  /** The countdown effect: one second later the count drops by one, only
      while it is positive. */
  function Tick(s: ResetState): ResetState
  {
    if s.countdown > 0 then s.(countdown := s.countdown - 1) else s
  }

  /** `handleResendEmail`: ignored while the countdown runs; otherwise the
      countdown restarts and the send is attempted, even for an address
      that is no longer valid. */
  function Resend(s: ResetState): ResetState
  {
    if s.countdown > 0 then s else SendReset(s.(countdown := ResendDelay))
  }

  datatype ResetAction = TypeEmail(value: string) | Send | ResendEmail | TimerTick

  /** One user action or timer tick. The screen renders either the email
      form (its input and send button) or, once sent, the success message
      (its resend button); an action whose control is not on screen cannot
      happen and changes nothing. */
  function ApplyReset(s: ResetState, a: ResetAction): ResetState
  {
    match a
    case TypeEmail(v) => if s.emailSent then s else EmailChanged(s, v)
    case Send => if s.emailSent then s else SendReset(s)
    case ResendEmail => if s.emailSent then Resend(s) else s
    case TimerTick => Tick(s)
  }

  function RunReset(s: ResetState, actions: seq<ResetAction>): ResetState
    decreases |actions|
  {
    if actions == [] then s else RunReset(ApplyReset(s, actions[0]), actions[1..])
  }

  /** The countdown stays within 0..60 and runs only after a send, and a
      sent email was, and stays, a valid address. */
  ghost predicate ResetInv(s: ResetState)
  {
    && 0 <= s.countdown <= ResendDelay
    && (s.emailValid ==> MatchesEmailPattern(s.email))
    && (s.countdown > 0 ==> s.emailSent)
    && (s.emailSent ==> s.emailValid)
  }

  lemma {:induction false} RunKeepsResetInv(s: ResetState, actions: seq<ResetAction>)
    requires ResetInv(s)
    ensures ResetInv(RunReset(s, actions))
    decreases |actions|
  {
    if actions != [] {
      var a := actions[0];
      if a.TypeEmail? {
        EmailValidIffPattern(s, a.value);
      }
      RunKeepsResetInv(ApplyReset(s, a), actions[1..]);
    }
  }

  /** Whatever happens on the screen, the countdown is never negative and
      never above 60, it runs only once the email has been sent, and an
      email is only ever sent to an address of the email pattern. */
  lemma CountdownInRange(actions: seq<ResetAction>)
    ensures var r := RunReset(InitialResetState, actions);
            0 <= r.countdown <= ResendDelay && (r.countdown > 0 ==> r.emailSent)
    ensures var r := RunReset(InitialResetState, actions);
            r.emailSent ==> MatchesEmailPattern(r.email)
  {
    RunKeepsResetInv(InitialResetState, actions);
  }

  /** Once the email is sent the screen stays on the success message and
      the address it was sent to no longer changes. */
  lemma {:induction false} SentScreenKeepsAddress(s: ResetState, actions: seq<ResetAction>)
    requires s.emailSent
    ensures RunReset(s, actions).emailSent && RunReset(s, actions).email == s.email
    decreases |actions|
  {
    if actions != [] {
      SentScreenKeepsAddress(ApplyReset(s, actions[0]), actions[1..]);
    }
  }

  /** `n` seconds of the timer. */
  function Ticks(s: ResetState, n: nat): ResetState
    decreases n
  {
    if n == 0 then s else Ticks(Tick(s), n - 1)
  }

  /** After `n` seconds the countdown has dropped by `n`, stopping at zero. */
  lemma {:induction false} TicksCountDown(s: ResetState, n: nat)
    requires s.countdown >= 0
    ensures Ticks(s, n) == s.(countdown := if s.countdown >= n then s.countdown - n else 0)
    decreases n
  {
    if n > 0 {
      TicksCountDown(Tick(s), n - 1);
    }
  }

  /** A resend is ignored for the 59 seconds after a send and accepted on
      the 60th. */
  lemma ResendAfterSixtySeconds(s: ResetState, n: nat)
    requires s.emailValid
    ensures n < ResendDelay ==> Resend(Ticks(SendReset(s), n)) == Ticks(SendReset(s), n)
    ensures Resend(Ticks(SendReset(s), ResendDelay)) == SendReset(s)
  {
    TicksCountDown(SendReset(s), n);
    TicksCountDown(SendReset(s), ResendDelay);
  }

  /** The screen as a component with its state hooks. */
  class ForgotPasswordScreen {
    var state: ResetState

    constructor ()
      ensures state == InitialResetState
    {
      state := InitialResetState;
    }

    method HandleEmailChange(value: string)
      modifies this
      ensures state == EmailChanged(old(state), value)
    {
      var error := EmailError(value);
      state := state.(email := value, emailError := error, emailValid := error == "" && |value| > 0);
    }

    method HandleSendResetEmail()
      modifies this
      ensures state == SendReset(old(state))
    {
      if !state.emailValid {
        return;
      }
      state := state.(emailSent := true);
      state := state.(countdown := ResendDelay);
    }

    method HandleResendEmail()
      modifies this
      ensures state == Resend(old(state))
    {
      if state.countdown > 0 {
        return;
      }
      state := state.(countdown := ResendDelay);
      HandleSendResetEmail();
    }

    /** The timer firing once. */
    method OnTimer()
      modifies this
      ensures state == Tick(old(state))
    {
      if state.countdown > 0 {
        state := state.(countdown := state.countdown - 1);
      }
    }
  }
}
