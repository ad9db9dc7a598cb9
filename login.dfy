/**
 * The sign-in page (src/pages/Login.tsx): the email and password form, the
 * call to the session's `login`, and the role-based redirect that follows.
 */
module Login {
  import opened Wrappers
  import opened Records
  import opened Browser
  import opened Api
  import opened AuthContext
  import opened Navigation

  /**
   * The redirect after a successful sign-in, always replacing the history
   * entry: a manufacturer to the manufacturer dashboard, a buyer to the buyer
   * dashboard, anybody else (no user, no role, another role) to the home page.
   */
  function RedirectAfterLogin(user: Option<Record>): (n: Navigation)
    ensures n.replace
    ensures n.path == ManufacturerHome <==> UserRole(user) == Some(Manufacturer)
    ensures n.path == BuyerHome <==> UserRole(user) == Some(Buyer)
    ensures n.path == SiteHome <==> UserRole(user) != Some(Manufacturer) && UserRole(user) != Some(Buyer)
  {
    if user.Some? && Records.Get(user.value, "role") == Some("manufacturer") then Navigation(ManufacturerHome, true)
    else if user.Some? && Records.Get(user.value, "role") == Some("buyer") then Navigation(BuyerHome, true)
    else Navigation(SiteHome, true)
  }

  class LoginPage {
    const auth: AuthProvider
    var email: string
    var password: string
    var loading: bool

    constructor(auth: AuthProvider)
      ensures this.auth == auth && email == "" && password == "" && !loading
    {
      this.auth := auth;
      email := "";
      password := "";
      loading := false;
    }

    method SetEmail(value: string)
      modifies this
      ensures email == value && password == old(password) && loading == old(loading)
    {
      email := value;
    }

    method SetPassword(value: string)
      modifies this
      ensures password == value && email == old(email) && loading == old(loading)
    {
      password := value;
    }

    /**
     * `handleSubmit`: signs in with the form's credentials; a success
     * redirects by the returned user's role, a failure stays on the page with
     * the server's message or 'Invalid credentials'. Loading ends false.
     */
    method HandleSubmit(reply: Reply<AuthReply>) returns (navigation: Option<Navigation>, message: Option<string>)
      modifies this, auth, auth.window
      ensures auth.State() == SignInStep(old(auth.State()), reply)
      ensures reply.Success? ==> navigation == Some(RedirectAfterLogin(Some(reply.data.user))) && message.None?
      ensures reply.Failure? ==> navigation.None? && message == Some(ErrorMessage(reply.error, "Invalid credentials"))
      ensures !loading && email == old(email) && password == old(password)
    {
      loading := true;
      var result := auth.Login(email, password, reply);
      if result.Success? {
        navigation := Some(RedirectAfterLogin(Some(result.data)));
        message := None;
      } else {
        navigation := None;
        message := Some(ErrorMessage(result.error, "Invalid credentials"));
      }
      loading := false;
    }
  }
}
