/**
 * The authentication context: the current user as reported by the identity
 * provider's state-change callback, and whether the app may render yet.
 */
module AuthContext {
  import opened Wrappers

  /** A signed-in user as the identity provider reports it. */
  datatype User = User(uid: string, email: string)

  /** The context value the children read: `{ currentUser, userLoggedIn }`. */
  datatype Context = Context(currentUser: Option<User>, userLoggedIn: bool)

  /** The AuthProvider component's state. */
  class AuthProvider {
    var currentUser: Option<User>
    var userLoggedIn: bool
    var loading: bool

    /** `userLoggedIn` reflects exactly whether a user is held. */
    ghost predicate Valid()
      reads this
    {
      userLoggedIn <==> currentUser.Some?
    }

    /** `useState(null)`, `useState(false)` and `useState(true)`. */
    constructor ()
      ensures currentUser == None && !userLoggedIn && loading
      ensures Valid()
      ensures ChildContext().None?
    {
      currentUser := None;
      userLoggedIn := false;
      loading := true;
    }

    /**
     * `initializeUser`, the auth-state callback: keeps a copy of the user (or
     * none), sets `userLoggedIn` to match, and ends loading for good.
     */
    method InitializeUser(user: Option<User>)
      modifies this
      ensures currentUser == user
      ensures userLoggedIn == user.Some?
      ensures !loading
      ensures Valid()
      ensures ChildContext() == Some(Context(user, user.Some?))
    {
      match user {
        case Some(u) =>
          currentUser := Some(u);
          userLoggedIn := true;
        case None =>
          currentUser := None;
          userLoggedIn := false;
      }
      loading := false;
    }

    /**
     * `{!loading && children}`: the context the children are rendered with, or
     * none while loading. Whenever they are rendered, the login flag they see
     * agrees with the user they see.
     */
    function ChildContext(): (ctx: Option<Context>)
      reads this
      requires Valid()
      ensures ctx.Some? <==> !loading
      ensures ctx.Some? ==> (ctx.value.userLoggedIn <==> ctx.value.currentUser.Some?)
      ensures ctx.Some? ==> ctx.value.currentUser == currentUser
    {
      if loading then None else Some(Context(currentUser, userLoggedIn))
    }
  }
}
