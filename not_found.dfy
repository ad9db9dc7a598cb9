/**
 * The catch-all route (src/pages/NotFound.tsx), which renders a second copy
 * of the registration page: the same role step, guard and body as
 * `Register`, but a redirect that knows no buyer dashboard and does not
 * replace the history entry.
 */
module NotFound {
  import opened Wrappers
  import opened Records
  import opened Browser
  import opened Api
  import opened AuthContext
  import opened Navigation
  import opened Register

  /** Manufacturers go to their dashboard; everybody else, buyers included, to the home page. */
  function RedirectAfterNotFoundRegister(role: Role): (n: Navigation)
    ensures !n.replace
    ensures n.path == ManufacturerHome <==> role == Manufacturer
    ensures n.path == SiteHome <==> role != Manufacturer
  {
    if role == Manufacturer then Navigation(ManufacturerHome, false) else Navigation(SiteHome, false)
  }

  /** The two copies send a manufacturer to the same page, but a buyer to different ones. */
  lemma RedirectsDiffer()
    ensures RedirectAfterNotFoundRegister(Manufacturer).path == RedirectAfterRegister(Manufacturer).path
    ensures RedirectAfterNotFoundRegister(Buyer).path != RedirectAfterRegister(Buyer).path
  {
  }

  class NotFoundPage {
    const auth: AuthProvider
    var step: int
    var role: Role
    var loading: bool
    var formData: RegisterForm

    predicate Valid()
      reads this
    {
      (step == 1 || step == 2) && (step == 2 ==> role != NoRole)
    }

    constructor(auth: AuthProvider)
      ensures this.auth == auth && Valid()
      ensures step == 1 && role == NoRole && !loading && formData == EmptyRegisterForm
    {
      this.auth := auth;
      step := 1;
      role := NoRole;
      loading := false;
      formData := EmptyRegisterForm;
    }

    method HandleRoleSelect(selected: Role)
      requires Valid() && selected != NoRole
      modifies this
      ensures Valid()
      ensures role == selected && step == 2
      ensures loading == old(loading) && formData == old(formData)
    {
      role := selected;
      step := 2;
    }

    method Back()
      requires Valid()
      modifies this
      ensures Valid()
      ensures step == 1 && role == old(role) && loading == old(loading) && formData == old(formData)
    {
      step := 1;
    }

    method SetField(field: RegisterField, value: string)
      requires Valid()
      modifies this
      ensures Valid()
      ensures formData == WithRegisterField(old(formData), field, value)
      ensures step == old(step) && role == old(role) && loading == old(loading)
    {
      formData := WithRegisterField(formData, field, value);
    }

    /** `handleSubmit`, as in `Register` but with this page's redirect. */
    method HandleSubmit(reply: Reply<AuthReply>)
      returns (request: Option<Record>, navigation: Option<Navigation>, message: Option<string>)
      requires Valid()
      modifies this, auth, auth.window
      ensures Valid()
      ensures var check := RegistrationRequest(old(formData), old(role));
              && (check.Err? ==> request.None? && navigation.None? && message == Some(check.error))
              && (check.Err? ==> auth.State() == old(auth.State()) && loading == old(loading))
              && (check.Ok? ==> request == Some(check.value) && !loading)
              && (check.Ok? ==> auth.State() == SignInStep(old(auth.State()), reply))
      ensures reply.Success? && request.Some? ==> navigation == Some(RedirectAfterNotFoundRegister(role)) && message.None?
      ensures reply.Failure? && request.Some? ==> navigation.None? && message == Some(ErrorMessage(reply.error, "Something went wrong"))
      ensures step == old(step) && role == old(role) && formData == old(formData)
    {
      var check := RegistrationRequest(formData, role);
      if check.Err? {
        return None, None, Some(check.error);
      }
      loading := true;
      request := Some(check.value);
      var result := auth.Register(check.value, reply);
      if result.Success? {
        navigation := Some(RedirectAfterNotFoundRegister(role));
        message := None;
      } else {
        navigation := None;
        message := Some(ErrorMessage(result.error, "Something went wrong"));
      }
      loading := false;
    }
  }
}
