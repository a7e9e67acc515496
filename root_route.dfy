/**
 * The root route (__root.tsx): the guard every navigation passes, the
 * navigation that follows a change of login state, and the logout button.
 */
module RootRoute {
  import opened Wrappers
  import opened Session

  const LoginPath: string := "/Login"
  const HomePath: string := "/"
  const LoggedOutText: string := "Logged out successfully"

  /** What `beforeLoad` does with a navigation. */
  datatype Guard = Proceed | RedirectTo(to: string, redirect: string)

  /** `beforeLoad`: with no auth email, every path but the login page is sent to the login page, remembering where it was going. */
  function BeforeLoad(dummyAuth: Option<string>, pathname: string): (g: Guard)
    ensures g.Proceed? <==> HasEmail(dummyAuth) || pathname == "/Login"
    ensures g.RedirectTo? ==> g.to == "/Login" && g.redirect == pathname
  {
    if !HasEmail(dummyAuth) && pathname != LoginPath then RedirectTo(LoginPath, pathname)
    else Proceed
  }

  /** `new URLSearchParams(search).get("redirect") || "/"`: the page to open after logging in. */
  function AuthChangedTarget(redirectParam: Option<string>): (r: string)
    ensures r != ""
    ensures redirectParam.Some? && redirectParam.value != "" ==> r == redirectParam.value
    ensures redirectParam.None? || redirectParam == Some("") ==> r == "/"
  {
    match redirectParam
    case Some(p) => if p != "" then p else HomePath
    case None => HomePath
  }

  /** The guard never redirects the login page itself, so it cannot loop. */
  lemma LoginPageNeverRedirected(dummyAuth: Option<string>)
    ensures BeforeLoad(dummyAuth, LoginPath) == Proceed
  {
  }

  /**
   * A redirected navigation completes once a login stores an email: the
   * page the guard remembered is where the auth-change handler goes, and
   * the guard then lets it through.
   */
  lemma RedirectRoundTrip(before: Option<string>, after: Option<string>, pathname: string)
    requires BeforeLoad(before, pathname).RedirectTo?
    requires HasEmail(after) && pathname != ""
    ensures AuthChangedTarget(Some(BeforeLoad(before, pathname).redirect)) == pathname
    ensures BeforeLoad(after, AuthChangedTarget(Some(BeforeLoad(before, pathname).redirect))) == Proceed
  {
  }

  class RootLayout {
    const session: SessionStorage
    var isLoggedIn: bool
    /** The navigations the layout has made, oldest first. */
    var navigations: seq<string>
    /** The alert dialogs shown, oldest first. */
    var alerts: seq<string>

    /** `isLoggedIn` starts from whether session storage holds an auth email. */
    constructor (session: SessionStorage)
      ensures this.session == session
      ensures isLoggedIn == HasEmail(session.dummyAuth)
      ensures navigations == [] && alerts == []
    {
      this.session := session;
      isLoggedIn := HasEmail(session.dummyAuth);
      navigations := [];
      alerts := [];
    }

    /**
     * The "authStateChanged" listener: re-read the auth marker and, when an
     * email is stored, go to the remembered page (`redirectParam` is the
     * current URL's `redirect` query value).
     */
    method HandleAuthStateChanged(redirectParam: Option<string>)
      modifies this
      ensures isLoggedIn == HasEmail(session.dummyAuth)
      ensures HasEmail(session.dummyAuth) ==> navigations == old(navigations) + [AuthChangedTarget(redirectParam)]
      ensures !HasEmail(session.dummyAuth) ==> navigations == old(navigations)
      ensures alerts == old(alerts)
    {
      isLoggedIn := HasEmail(session.dummyAuth);
      if HasEmail(session.dummyAuth) {
        navigations := navigations + [AuthChangedTarget(redirectParam)];
      }
    }

    /**
     * The logout button: nothing happens when already logged out; otherwise
     * the auth marker is removed, the state changes to logged out, the
     * auth-change event runs this layout's own listener, an alert is shown
     * and the login page is opened.
     */
    method HandleLogout(redirectParam: Option<string>)
      modifies this, session
      ensures !old(isLoggedIn) ==>
        && isLoggedIn == old(isLoggedIn) && navigations == old(navigations) && alerts == old(alerts)
        && session.dummyAuth == old(session.dummyAuth) && session.authEvents == old(session.authEvents)
      ensures old(isLoggedIn) ==>
        && session.dummyAuth == None && !isLoggedIn
        && session.authEvents == old(session.authEvents) + 1
        && alerts == old(alerts) + [LoggedOutText]
        && navigations == old(navigations) + [LoginPath]
      ensures session.users == old(session.users)
    {
      if !isLoggedIn {
        return;
      }
      session.dummyAuth := None;
      isLoggedIn := false;
      session.authEvents := session.authEvents + 1;
      HandleAuthStateChanged(redirectParam);
      alerts := alerts + [LoggedOutText];
      navigations := navigations + [LoginPath];
    }
  }

  /** After a logout, every page but the login page is guarded again. */
  lemma LoggedOutIsGuarded(pathname: string)
    requires pathname != LoginPath
    ensures BeforeLoad(None, pathname) == RedirectTo("/Login", pathname)
  {
  }
}
