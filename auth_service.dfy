/** `authService` of src/services/authService.ts. Toasts and the page redirects are not part of
    this model. */
module AuthService {
  import opened Types
  import opened Api
  import opened AuthStore

  /** `login(username, password)`: calls the login endpoint with both; on an error result the
      store is left and the function returns; on success the store gets the server's session
      id and user id and the caller's user name. The password reaches the API call only. */
  method Login(store: AuthState, username: string, password: string,
               login: LoginRequest -> Outcome<LoginResponse>)
    modifies store
    ensures var o := login(LoginRequest(username, password));
      o.Returned? && o.result.Ok? ==>
        && store.sessionId == Some(o.result.value.sessionId)
        && store.userId == Some(o.result.value.userId)
        && store.username == Some(username)
        && store.isAuthenticated
    ensures var o := login(LoginRequest(username, password));
      !(o.Returned? && o.result.Ok?) ==>
        && store.sessionId == old(store.sessionId) && store.userId == old(store.userId)
        && store.username == old(store.username) && store.isAuthenticated == old(store.isAuthenticated)
  {
    var res := login(LoginRequest(username, password));
    if res.Threw? || res.result.Err? {
      return;
    }
    store.Login(res.result.value.sessionId, res.result.value.userId, username);
  }

  /** `logout()`: after the logout call returns, whatever it returned, the store is cleared. A
      throw escapes first and leaves the store. */
  method Logout(store: AuthState, outcome: Outcome<LogoutResponse>)
    modifies store
    ensures outcome.Returned? ==> store.IsAnonymous() && store.Valid()
    ensures outcome.Threw? ==>
      && store.sessionId == old(store.sessionId) && store.userId == old(store.userId)
      && store.username == old(store.username) && store.isAuthenticated == old(store.isAuthenticated)
  {
    if outcome.Threw? {
      return;
    }
    store.Logout();
  }
}
