/**
 * The reset-password screen of app/auth/forgot-password.tsx.
 *
 * handleResetPassword validates the email and schedules a timer; the
 * timer's callback, run later by the event loop, finishes the request.
 * The timer is modelled by a count of scheduled callbacks that have not run
 * yet, and its completion by the explicit step TimerElapsed.
 */
module ForgotPasswordScreen {

  const EnterEmail: string := "Please enter your email address"

  class ResetPasswordForm {
    var email: string
    var error: string
    var isLoading: bool
    var resetSent: bool
    /** Callbacks scheduled with setTimeout that have not run yet. */
    var pendingTimers: nat

    /**
     * The screen's discipline: a request is in flight exactly while its one
     * timer is pending, and after the success view appears nothing is in
     * flight.
     */
    ghost predicate Valid()
      reads this
    {
      pendingTimers <= 1 &&
      (isLoading <==> pendingTimers == 1) &&
      (resetSent ==> !isLoading)
    }

    constructor ()
      ensures Valid()
      ensures email == "" && error == "" && !isLoading && !resetSent && pendingTimers == 0
    {
      email := "";
      error := "";
      isLoading := false;
      resetSent := false;
      pendingTimers := 0;
    }

    /** The email field's onChangeText. */
    method SetEmail(value: string)
      requires Valid()
      modifies this
      ensures Valid()
      ensures email == value
      ensures error == old(error) && isLoading == old(isLoading)
      ensures resetSent == old(resetSent) && pendingTimers == old(pendingTimers)
    {
      email := value;
    }

    /** The success view replaces the form once the link has been sent. */
    function ShowsSuccessView(): (shown: bool)
      reads this
      ensures shown <==> resetSent
    {
      resetSent
    }

    /** The Send Reset Link button is on screen and enabled. */
    function SendEnabled(): (enabled: bool)
      reads this
      ensures enabled <==> !resetSent && !isLoading
      ensures enabled ==> !ShowsSuccessView()
    {
      !resetSent && !isLoading
    }

    /**
     * handleResetPassword: with no email, only the error message changes;
     * otherwise the error is cleared, isLoading is set and one timer is
     * scheduled.  On screen it is reached only through PressSendResetLink,
     * that is, from a valid state with the button enabled, and from there
     * it keeps Valid.
     */
    method HandleResetPassword()
      modifies this
      ensures old(Valid()) && old(SendEnabled()) ==> Valid()
      ensures email == old(email) && resetSent == old(resetSent)
      ensures old(email) == "" ==>
        error == EnterEmail && isLoading == old(isLoading) && pendingTimers == old(pendingTimers)
      ensures old(email) != "" ==>
        error == "" && isLoading && pendingTimers == old(pendingTimers) + 1
    {
      if email == "" {
        error := EnterEmail;
        return;
      }
      error := "";
      isLoading := true;
      pendingTimers := pendingTimers + 1;
    }

    /** The timer callback: the request is over and the link reported as sent. */
    method TimerElapsed()
      requires pendingTimers > 0
      modifies this
      ensures !isLoading && resetSent
      ensures pendingTimers == old(pendingTimers) - 1
      ensures email == old(email) && error == old(error)
      ensures old(Valid()) ==> Valid() && ShowsSuccessView() && !SendEnabled()
    {
      isLoading := false;
      resetSent := true;
      pendingTimers := pendingTimers - 1;
    }

    /**
     * Pressing Send Reset Link.  The button is disabled while isLoading and
     * is not rendered at all once the success view shows, so such a press
     * changes nothing.
     */
    method PressSendResetLink()
      requires Valid()
      modifies this
      ensures Valid()
      ensures email == old(email) && resetSent == old(resetSent)
      ensures !old(SendEnabled()) ==>
        email == old(email) && error == old(error) && isLoading == old(isLoading) &&
        pendingTimers == old(pendingTimers)
      ensures old(SendEnabled()) && email == "" ==>
        error == EnterEmail && !isLoading && pendingTimers == 0
      ensures old(SendEnabled()) && email != "" ==>
        error == "" && isLoading && pendingTimers == 1
    {
      if !SendEnabled() {
        return;
      }
      HandleResetPassword();
    }
  }
}
