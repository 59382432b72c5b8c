/**
 * The sign-in screen of app/auth/login.tsx: the form fields, the password
 * visibility toggle and the submit handler `handleLogin`.
 *
 * handleLogin is asynchronous.  BeginSubmit is its part up to the awaited
 * `login` call and FinishSubmit the part after that call settles, so the
 * state in between (error cleared, isLoading set) is observable;
 * HandleLogin runs the two around the provider's Login.
 */
module LoginScreen {
  import opened Wrappers
  import opened AuthContext

  const FillAllFields: string := "Please fill in all fields"
  const InvalidCredentials: string := "Invalid email or password"
  const DashboardRoute: string := "/dashboard"

  class LoginForm {
    var email: string
    var password: string
    var error: string
    var showPassword: bool
    var isLoading: bool

    constructor ()
      ensures email == "" && password == "" && error == ""
      ensures !showPassword && !isLoading
    {
      email := "";
      password := "";
      error := "";
      showPassword := false;
      isLoading := false;
    }

    /** The email field's onChangeText. */
    method SetEmail(value: string)
      modifies this
      ensures email == value
      ensures password == old(password) && error == old(error)
      ensures showPassword == old(showPassword) && isLoading == old(isLoading)
    {
      email := value;
    }

    /** The password field's onChangeText. */
    method SetPassword(value: string)
      modifies this
      ensures password == value
      ensures email == old(email) && error == old(error)
      ensures showPassword == old(showPassword) && isLoading == old(isLoading)
    {
      password := value;
    }

    /** The eye icon: flips password visibility and nothing else. */
    method TogglePassword()
      modifies this
      ensures showPassword == !old(showPassword)
      ensures PasswordMasked() == !old(PasswordMasked())
      ensures email == old(email) && password == old(password)
      ensures error == old(error) && isLoading == old(isLoading)
    {
      showPassword := !showPassword;
    }

    /** The password input's secureTextEntry. */
    function PasswordMasked(): (masked: bool)
      reads this
      ensures masked <==> !showPassword
    {
      !showPassword
    }

    /** The Sign In button is enabled exactly while no submit is in flight. */
    function SubmitEnabled(): (enabled: bool)
      reads this
      ensures enabled <==> !isLoading
    {
      !isLoading
    }

    /**
     * handleLogin up to `await login(email, password)`.  Returns whether
     * login is called (with the current email as its username argument).
     */
    method BeginSubmit() returns (callsLogin: bool)
      modifies this
      ensures callsLogin <==> email != "" && password != ""
      ensures !callsLogin ==> error == FillAllFields && isLoading == old(isLoading)
      ensures callsLogin ==> error == "" && isLoading && !SubmitEnabled()
      ensures email == old(email) && password == old(password) && showPassword == old(showPassword)
    {
      if email == "" || password == "" {
        error := FillAllFields;
        return false;
      }
      error := "";
      isLoading := true;
      callsLogin := true;
    }

    /**
     * handleLogin after the awaited login settles: navigate on success,
     * report invalid credentials on failure, and in either case clear
     * isLoading.  Returns the route navigated to, if any.
     */
    method FinishSubmit(c: Completion) returns (route: Option<string>)
      modifies this
      ensures route == (if c == Resolved then Some(DashboardRoute) else None)
      ensures error == (if c == Resolved then old(error) else InvalidCredentials)
      ensures !isLoading && SubmitEnabled()
      ensures email == old(email) && password == old(password) && showPassword == old(showPassword)
    {
      if c == Resolved {
        route := Some(DashboardRoute);
      } else {
        error := InvalidCredentials;
        route := None;
      }
      isLoading := false;
    }

    /** The whole of handleLogin against the provider, whose setItem fails when `writeFails`. */
    method HandleLogin(auth: AuthProvider, writeFails: bool) returns (route: Option<string>)
      modifies this, auth
      ensures email == old(email) && password == old(password) && showPassword == old(showPassword)
      ensures old(email) == "" || old(password) == "" ==>
        error == FillAllFields && route == None && isLoading == old(isLoading) &&
        auth.State() == old(auth.State()) && auth.trace == old(auth.trace)
      ensures old(email) != "" && old(password) != "" ==>
        !isLoading &&
        auth.trace == old(auth.trace) + LoginEffects(old(email), old(password), writeFails) &&
        auth.State() == Apply(old(auth.State()), LoginEffects(old(email), old(password), writeFails)) &&
        (route == Some(DashboardRoute) <==> !writeFails) &&
        (route == None <==> writeFails) &&
        (writeFails ==> error == InvalidCredentials) &&
        (!writeFails ==> error == "" && auth.user == Some(LoginUser(old(email))) && auth.isAuthenticated)
    {
      var callsLogin := BeginSubmit();
      if !callsLogin {
        return None;
      }
      var c := auth.Login(email, password, writeFails);
      route := FinishSubmit(c);
      LoginOutcome(old(auth.State()), email, password, writeFails);
    }

    /**
     * Pressing Sign In.  The button is disabled while isLoading, so a press
     * during a submit in flight starts nothing.
     */
    method PressSignIn() returns (callsLogin: bool)
      modifies this
      ensures old(isLoading) ==> !callsLogin
      ensures old(isLoading) ==>
        email == old(email) && password == old(password) && error == old(error) &&
        showPassword == old(showPassword) && isLoading
      ensures !old(isLoading) ==>
        (callsLogin <==> email != "" && password != "") &&
        (callsLogin ==> error == "" && isLoading) &&
        (!callsLogin ==> error == FillAllFields && !isLoading)
      ensures email == old(email) && password == old(password) && showPassword == old(showPassword)
    {
      if isLoading {
        return false;
      }
      callsLogin := BeginSubmit();
    }
  }

  /** The username the provider records after a successful sign-in is the email typed in the form. */
  lemma SignedInUsernameIsEmail(s: AuthState, email: string, password: string)
    ensures var t := Apply(s, LoginEffects(email, password, false));
      t.user.Some? && t.user.value.username == email
  {
    LoginOutcome(s, email, password, false);
  }
}
