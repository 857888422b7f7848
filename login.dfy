/**
 * The Login page: a sign-in attempt guarded by `isSigningIn`, its error
 * message, and the fire-and-forget registration of the user's uid.
 */
module Login {
  import opened Wrappers
  import AuthContext

  /** Which sign-in the form starts. */
  datatype Provider = EmailPassword(email: string, password: string) | Google

  /** How the identity provider's sign-in ends. */
  datatype SignInResult = SignedIn(user: AuthContext.User) | SignInFailed(message: string)

  /** What a handler does outside its own state, in order. */
  datatype Effect =
    | SignInCall(provider: Provider)
    | StoreUserCall(uid: string)
    | NavigateTo(path: string)

  /**
   * `if (userLoggedIn) return <Navigate to="/home" />`: with the flag read from
   * the auth context, a visitor is sent to /home exactly when a user is signed in.
   */
  function Redirect(auth: AuthContext.AuthProvider): (target: Option<string>)
    reads auth
    requires auth.Valid()
    ensures target.Some? <==> auth.currentUser.Some?
    ensures target.Some? ==> target.value == "/home"
  {
    if auth.userLoggedIn then Some("/home") else None
  }

  /** The Login component's state. */
  class LoginState {
    var email: string
    var password: string
    var isSigningIn: bool
    var errorMessage: string

    constructor ()
      ensures email == "" && password == "" && !isSigningIn && errorMessage == ""
    {
      email := "";
      password := "";
      isSigningIn := false;
      errorMessage := "";
    }

    /** The email input's `onChange`. */
    method SetEmail(value: string)
      modifies this`email
      ensures email == value
    {
      email := value;
    }

    /** The password input's `onChange`. */
    method SetPassword(value: string)
      modifies this`password
      ensures password == value
    {
      password := value;
    }

    /**
     * The body shared by `onSubmit` and `onGoogleSignIn`: nothing while a
     * sign-in is in flight; otherwise mark it in flight, call the provider,
     * and on success call `userStore` with the uid and go to /home (leaving the flag set),
     * on failure show the error and clear the flag. `userStore` is not awaited
     * and catches its own failures, so its outcome never reaches the page;
     * whether it posts (it first awaits its own `getIdToken`) is not modelled,
     * only the call with the uid.
     */
    method SignIn(provider: Provider, result: SignInResult) returns (effects: seq<Effect>)
      modifies this`isSigningIn, this`errorMessage
      ensures old(isSigningIn) ==> effects == [] && isSigningIn && errorMessage == old(errorMessage)
      ensures !old(isSigningIn) && result.SignedIn? ==>
                && effects == [SignInCall(provider), StoreUserCall(result.user.uid), NavigateTo("/home")]
                && isSigningIn && errorMessage == old(errorMessage)
      ensures !old(isSigningIn) && result.SignInFailed? ==>
                && effects == [SignInCall(provider)]
                && !isSigningIn && errorMessage == result.message
    {
      effects := [];
      if !isSigningIn {
        isSigningIn := true;
        effects := [SignInCall(provider)];
        match result {
          case SignedIn(user) =>
            effects := effects + [StoreUserCall(user.uid), NavigateTo("/home")];
          case SignInFailed(message) =>
            errorMessage := message;
            isSigningIn := false;
        }
      }
    }

    /** `onSubmit`: sign in with the typed email and password. */
    method OnSubmit(result: SignInResult) returns (effects: seq<Effect>)
      modifies this`isSigningIn, this`errorMessage
      ensures old(isSigningIn) ==> effects == [] && isSigningIn && errorMessage == old(errorMessage)
      ensures !old(isSigningIn) && result.SignedIn? ==>
                && effects == [SignInCall(EmailPassword(email, password)), StoreUserCall(result.user.uid), NavigateTo("/home")]
                && isSigningIn && errorMessage == old(errorMessage)
      ensures !old(isSigningIn) && result.SignInFailed? ==>
                && effects == [SignInCall(EmailPassword(email, password))]
                && !isSigningIn && errorMessage == result.message
    {
      effects := SignIn(EmailPassword(email, password), result);
    }

    /** `onGoogleSignIn`: the same guard and error handling with the Google popup. */
    method OnGoogleSignIn(result: SignInResult) returns (effects: seq<Effect>)
      modifies this`isSigningIn, this`errorMessage
      ensures old(isSigningIn) ==> effects == [] && isSigningIn && errorMessage == old(errorMessage)
      ensures !old(isSigningIn) && result.SignedIn? ==>
                && effects == [SignInCall(Google), StoreUserCall(result.user.uid), NavigateTo("/home")]
                && isSigningIn && errorMessage == old(errorMessage)
      ensures !old(isSigningIn) && result.SignInFailed? ==>
                && effects == [SignInCall(Google)]
                && !isSigningIn && errorMessage == result.message
    {
      effects := SignIn(Google, result);
    }
  }
}
