/** The session store of src/stores/authStore.ts: a two-state machine, Anonymous (every field
    null) and Authenticated (every field set). The persistence and devtools middleware are not
    part of this model. */
module AuthStore {
  import opened Types

  class AuthState {
    var sessionId: Option<string>
    var userId: Option<int>
    var username: Option<string>
    var isAuthenticated: bool

    /** `isAuthenticated` holds exactly when a session id is held, and the three identity
        fields are set or cleared together. */
    predicate Valid()
      reads this
    {
      && (isAuthenticated <==> sessionId.Some?)
      && (sessionId.Some? <==> userId.Some?)
      && (sessionId.Some? <==> username.Some?)
    }

    predicate IsAnonymous()
      reads this
    {
      sessionId.None? && userId.None? && username.None? && !isAuthenticated
    }

    /** The store as created: anonymous. */
    constructor ()
      ensures IsAnonymous() && Valid()
    {
      sessionId, userId, username := None, None, None;
      isAuthenticated := false;
    }

    /** Overwrites all four fields, whatever the previous state (last login wins). */
    method Login(sessionId: string, userId: int, username: string)
      modifies this
      ensures this.sessionId == Some(sessionId) && this.userId == Some(userId)
      ensures this.username == Some(username) && isAuthenticated
      ensures Valid()
    {
      this.sessionId, this.userId, this.username := Some(sessionId), Some(userId), Some(username);
      isAuthenticated := true;
    }

    /** Clears all four fields from any state, so a second logout changes nothing and a login
        followed by a logout gives back the initial state. */
    method Logout()
      modifies this
      ensures IsAnonymous() && Valid()
    {
      sessionId, userId, username := None, None, None;
      isAuthenticated := false;
    }
  }
}
