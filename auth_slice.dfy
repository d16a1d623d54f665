/**
 * The `auth` slice of the Redux store: who is signed in, with which
 * access token, and whether the session counts as authenticated.
 * Each reducer runs as one atomic update of the three fields.
 */
module AuthSlice {
  import opened Nullable

  datatype AdminUser = AdminUser(adminId: string, email: string, adminRole: string)

  /** The value the selectors read (`state.auth`). */
  datatype AuthState = AuthState(user: Option<AdminUser>, accessToken: Option<string>, isAuthenticated: bool)

  const InitialState := AuthState(None, None, false)

  class AuthStore {
    var user: Option<AdminUser>
    var accessToken: Option<string>
    var isAuthenticated: bool

    /** The abstract session: the value the selectors read, and the one the
        reducers and the guards are stated over. */
    function Snapshot(): AuthState
      reads this
    {
      AuthState(user, accessToken, isAuthenticated)
    }

    constructor ()
      ensures Snapshot() == InitialState
    {
      user, accessToken, isAuthenticated := None, None, false;
    }

    /** Overwrites the session with the payload, whatever was there before,
        and marks it authenticated. Nothing is validated: a `null` user or an
        empty token is stored as given. */
    method SetCredentials(payloadUser: Option<AdminUser>, payloadToken: string)
      modifies this
      ensures Snapshot() == AuthState(payloadUser, Some(payloadToken), true)
    {
      user := payloadUser;
      accessToken := Some(payloadToken);
      isAuthenticated := true;
    }

    /** Returns the session to the initial, unauthenticated state from any
        state; hence calling it twice is the same as calling it once. */
    method LogOut()
      modifies this
      ensures Snapshot() == InitialState
    {
      user := None;
      accessToken := None;
      isAuthenticated := false;
    }
  }

  /** A client of the store: two sign-ins in a row leave exactly the second
      payload (no field of the first survives), and signing out, once or
      twice, restores the initial state. */
  method SignInTwiceThenOut(store: AuthStore, u1: Option<AdminUser>, t1: string, u2: Option<AdminUser>, t2: string)
    returns (afterSecond: AuthState)
    modifies store
    ensures afterSecond == AuthState(u2, Some(t2), true)
    ensures store.Snapshot() == InitialState
  {
    store.SetCredentials(u1, t1);
    store.SetCredentials(u2, t2);
    afterSecond := store.Snapshot();
    store.LogOut();
    store.LogOut();
  }
}
