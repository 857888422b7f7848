/**
 * The Register page: password confirmation checked first, then an account
 * creation guarded by `isRegistering`.
 */
module Register {
  import opened Wrappers

  /** How the identity provider's account creation ends. */
  datatype CreateResult = Created | CreateFailed(message: string)

  /** The call `doCreateUserWithEmailAndPassword(email, password)`. */
  datatype CreateCall = CreateCall(email: string, password: string)

  const MismatchMessage := "Passwords do not match"

  /** The Register component's state. */
  class RegisterState {
    var email: string
    var password: string
    var confirmPassword: string
    var isRegistering: bool
    var errorMessage: string

    constructor ()
      ensures email == "" && password == "" && confirmPassword == ""
      ensures !isRegistering && errorMessage == ""
    {
      email := "";
      password := "";
      confirmPassword := "";
      isRegistering := false;
      errorMessage := "";
    }

    /** The email input's `onChange`. */
    method SetEmail(value: string)
      modifies this`email
      ensures email == value
    {
      email := value;
    }

    /** The password input's `onChange`. */
    method SetPassword(value: string)
      modifies this`password
      ensures password == value
    {
      password := value;
    }

    /** The confirmation input's `onChange`. */
    method SetConfirmPassword(value: string)
      modifies this`confirmPassword
      ensures confirmPassword == value
    {
      confirmPassword := value;
    }

    /**
     * `onSubmit`: a mismatch shows its message and stops, whatever the flag;
     * otherwise nothing happens while a creation is in flight; else the flag
     * is set, the account is created with the typed email and password, and a
     * failure shows its message and clears the flag.
     */
    method OnSubmit(result: CreateResult) returns (call: Option<CreateCall>)
      modifies this`isRegistering, this`errorMessage
      ensures password != confirmPassword ==>
                call.None? && errorMessage == MismatchMessage && isRegistering == old(isRegistering)
      ensures password == confirmPassword && old(isRegistering) ==>
                call.None? && isRegistering && errorMessage == old(errorMessage)
      ensures password == confirmPassword && !old(isRegistering) ==>
                call == Some(CreateCall(email, password))
      ensures password == confirmPassword && !old(isRegistering) && result.Created? ==>
                isRegistering && errorMessage == old(errorMessage)
      ensures password == confirmPassword && !old(isRegistering) && result.CreateFailed? ==>
                !isRegistering && errorMessage == result.message
    {
      if password != confirmPassword {
        errorMessage := MismatchMessage;
        return None;
      }
      call := None;
      if !isRegistering {
        isRegistering := true;
        call := Some(CreateCall(email, password));
        if result.CreateFailed? {
          errorMessage := result.message;
          isRegistering := false;
        }
      }
    }
  }
}
