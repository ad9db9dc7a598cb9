/**
 * The registration page (src/pages/Register.tsx): a role chosen in step one,
 * the account form in step two, the password-match guard, the body sent to
 * the session's `register`, and the redirect by the chosen role.
 */
module Register {
  import opened Wrappers
  import opened Records
  import opened Browser
  import opened Api
  import opened AuthContext
  import opened Navigation
  import Login

  datatype RegisterForm = RegisterForm(
    companyName: string,
    email: string,
    password: string,
    confirmPassword: string,
    phone: string,
    address: string)

  const EmptyRegisterForm := RegisterForm("", "", "", "", "", "")

  datatype RegisterField = CompanyNameField | EmailField | PasswordField | ConfirmPasswordField | PhoneField | AddressField

  /** An input's `onChange`: only the named field changes. */
  function WithRegisterField(form: RegisterForm, field: RegisterField, value: string): (r: RegisterForm)
    ensures field == CompanyNameField ==> r == form.(companyName := value)
    ensures field == EmailField ==> r == form.(email := value)
    ensures field == PasswordField ==> r == form.(password := value)
    ensures field == ConfirmPasswordField ==> r == form.(confirmPassword := value)
    ensures field == PhoneField ==> r == form.(phone := value)
    ensures field == AddressField ==> r == form.(address := value)
  {
    match field
    case CompanyNameField => form.(companyName := value)
    case EmailField => form.(email := value)
    case PasswordField => form.(password := value)
    case ConfirmPasswordField => form.(confirmPassword := value)
    case PhoneField => form.(phone := value)
    case AddressField => form.(address := value)
  }

  const MismatchMessage := "Passwords do not match"

  /** The fields of the registration body. */
  const PayloadKeys: set<string> := {"companyName", "email", "password", "phone", "address", "role"}

  /**
   * The registration `handleSubmit` would send: refused when the two
   * passwords differ; otherwise the five account fields and the role, without
   * the confirmation.
   */
  function RegistrationRequest(form: RegisterForm, role: Role): (r: Result<Record, string>)
    ensures r.Err? <==> form.password != form.confirmPassword
    ensures r.Err? ==> r.error == MismatchMessage
    ensures r.Ok? ==> r.value.Keys == PayloadKeys && "confirmPassword" !in r.value
    ensures r.Ok? ==> && r.value["companyName"] == form.companyName && r.value["email"] == form.email
                      && r.value["password"] == form.password && r.value["phone"] == form.phone
                      && r.value["address"] == form.address && r.value["role"] == RoleText(role)
  {
    if form.password != form.confirmPassword then Err(MismatchMessage)
    else Ok(map["companyName" := form.companyName, "email" := form.email, "password" := form.password,
                "phone" := form.phone, "address" := form.address, "role" := RoleText(role)])
  }

  /**
   * The redirect after registering, by the role chosen on the page (not the
   * returned user), always replacing the history entry.
   */
  function RedirectAfterRegister(role: Role): (n: Navigation)
    ensures n.replace
    ensures n.path == ManufacturerHome <==> role == Manufacturer
    ensures n.path == BuyerHome <==> role == Buyer
    ensures n.path == SiteHome <==> role == NoRole
  {
    match role
    case Manufacturer => Navigation(ManufacturerHome, true)
    case Buyer => Navigation(BuyerHome, true)
    case NoRole => Navigation(SiteHome, true)
  }

  class RegisterPage {
    const auth: AuthProvider
    var step: int
    var role: Role
    var loading: bool
    var formData: RegisterForm

    /** The page is on one of its two steps, and the form step is reached only once a role was chosen. */
    predicate Valid()
      reads this
    {
      (step == 1 || step == 2) && (step == 2 ==> role != NoRole)
    }

    constructor(auth: AuthProvider)
      ensures this.auth == auth && Valid()
      ensures step == 1 && role == NoRole && !loading && formData == EmptyRegisterForm
    {
      this.auth := auth;
      step := 1;
      role := NoRole;
      loading := false;
      formData := EmptyRegisterForm;
    }

    /** `handleRoleSelect`: one of the two roles is recorded and the form step shown. */
    method HandleRoleSelect(selected: Role)
      requires Valid() && selected != NoRole
      modifies this
      ensures Valid()
      ensures role == selected && step == 2
      ensures loading == old(loading) && formData == old(formData)
    {
      role := selected;
      step := 2;
    }

    /** The Back button: step one again, the chosen role and the form kept. */
    method Back()
      requires Valid()
      modifies this
      ensures Valid()
      ensures step == 1 && role == old(role) && loading == old(loading) && formData == old(formData)
    {
      step := 1;
    }

    method SetField(field: RegisterField, value: string)
      requires Valid()
      modifies this
      ensures Valid()
      ensures formData == WithRegisterField(old(formData), field, value)
      ensures step == old(step) && role == old(role) && loading == old(loading)
    {
      formData := WithRegisterField(formData, field, value);
    }

    /**
     * `handleSubmit`: passwords that differ send nothing and change nothing;
     * otherwise the body is registered, a success redirects by the chosen
     * role, a failure yields the server's message or 'Something went wrong'.
     * Loading ends false.
     */
    method HandleSubmit(reply: Reply<AuthReply>)
      returns (request: Option<Record>, navigation: Option<Navigation>, message: Option<string>)
      requires Valid()
      modifies this, auth, auth.window
      ensures Valid()
      ensures var check := RegistrationRequest(old(formData), old(role));
              && (check.Err? ==> request.None? && navigation.None? && message == Some(check.error))
              && (check.Err? ==> auth.State() == old(auth.State()) && loading == old(loading))
              && (check.Ok? ==> request == Some(check.value) && !loading)
              && (check.Ok? ==> auth.State() == SignInStep(old(auth.State()), reply))
      ensures reply.Success? && request.Some? ==> navigation == Some(RedirectAfterRegister(role)) && message.None?
      ensures reply.Failure? && request.Some? ==> navigation.None? && message == Some(ErrorMessage(reply.error, "Something went wrong"))
      ensures step == old(step) && role == old(role) && formData == old(formData)
    {
      var check := RegistrationRequest(formData, role);
      if check.Err? {
        return None, None, Some(check.error);
      }
      loading := true;
      request := Some(check.value);
      var result := auth.Register(check.value, reply);
      if result.Success? {
        navigation := Some(RedirectAfterRegister(role));
        message := None;
      } else {
        navigation := None;
        message := Some(ErrorMessage(result.error, "Something went wrong"));
      }
      loading := false;
    }
  }

  /**
   * Signing in later sends a registered manufacturer or buyer where
   * registering did, provided the server returns the role the page sent.
   */
  lemma LoginAgreesWithRegister(user: Record, role: Role)
    requires role != NoRole
    requires "role" in user && user["role"] == RoleText(role)
    ensures Login.RedirectAfterLogin(Some(user)) == RedirectAfterRegister(role)
  {
    assert UserRole(Some(user)) == Some(role) by {
      RoleTextRoundTrip(role);
    }
  }
}
