/**
 * The browser's sessionStorage entries the pages share, and the
 * "authStateChanged" window event they dispatch.
 */
module Session {
  import opened Wrappers

  class SessionStorage {
    /** "users": the signed-up accounts, email -> password. */
    var users: map<string, string>
    /** "dummyAuth": the logged-in user's email, None when the item is absent. */
    var dummyAuth: Option<string>
    /** How many "authStateChanged" events have been dispatched on the window. */
    var authEvents: nat

    constructor (users: map<string, string>, dummyAuth: Option<string>)
      ensures this.users == users && this.dummyAuth == dummyAuth && authEvents == 0
    {
      this.users := users;
      this.dummyAuth := dummyAuth;
      authEvents := 0;
    }
  }

  /** `!!JSON.parse(sessionStorage.getItem("dummyAuth") || "{}").email`: a non-empty email is stored. */
  predicate HasEmail(dummyAuth: Option<string>)
  {
    dummyAuth.Some? && dummyAuth.value != ""
  }
}
