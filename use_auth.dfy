/** The `useAuth` hook of src/hooks/useAuth.ts: local `loading`/`error` next to the session
    store. Toasts and navigation are not part of this model. The hook has no try/catch: if a
    call throws, the state it set before awaiting stays. */
module UseAuth {
  import opened Types
  import opened Api
  import opened AuthStore

  class AuthHook {
    const store: AuthState
    var loading: bool
    var error: Option<ApiError>

    constructor (store: AuthState)
      ensures this.store == store && !loading && error.None?
    {
      this.store := store;
      loading, error := false, None;
    }

    /** `login(username, password)`: success logs the store in with the server's session id
        and user id and the argument's user name and leaves `error` cleared; an error result
        sets `error` and leaves the store. Both end with `loading` false. */
    method Login(username: string, password: string, login: LoginRequest -> Outcome<LoginResponse>)
      modifies this, store
      ensures var o := login(LoginRequest(username, password));
        o.Returned? && o.result.Ok? ==>
          && store.sessionId == Some(o.result.value.sessionId)
          && store.userId == Some(o.result.value.userId)
          && store.username == Some(username) && store.isAuthenticated
          && error.None? && !loading
      ensures var o := login(LoginRequest(username, password));
        o.Returned? && o.result.Err? ==>
          && store.sessionId == old(store.sessionId) && store.userId == old(store.userId)
          && store.username == old(store.username) && store.isAuthenticated == old(store.isAuthenticated)
          && error == Some(o.result.error) && !loading
      ensures login(LoginRequest(username, password)).Threw? ==>
        && store.sessionId == old(store.sessionId) && store.userId == old(store.userId)
        && store.username == old(store.username) && store.isAuthenticated == old(store.isAuthenticated)
        && error.None? && loading
    {
      loading := true;
      error := None;
      var result := login(LoginRequest(username, password));
      match result {
        case Returned(r) =>
          if r.Ok? {
            store.Login(r.value.sessionId, r.value.userId, username);
          } else {
            error := Some(r.error);
          }
          loading := false;
        case Threw =>
      }
    }

    /** `logout()`: after the logout call returns the store is cleared, whatever the call
        returned, and `loading` ends false; `error` is never touched. */
    method Logout(outcome: Outcome<LogoutResponse>)
      modifies this, store
      ensures error == old(error)
      ensures outcome.Returned? ==> store.IsAnonymous() && store.Valid() && !loading
      ensures outcome.Threw? ==>
        && store.sessionId == old(store.sessionId) && store.userId == old(store.userId)
        && store.username == old(store.username) && store.isAuthenticated == old(store.isAuthenticated)
        && loading
    {
      loading := true;
      if outcome.Returned? {
        store.Logout();
        loading := false;
      }
    }
  }
}
