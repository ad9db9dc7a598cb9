/**
 * Where the sign-in pages send the browser: a route and whether the new entry
 * replaces the current one in the history, together with the two account
 * roles a user can hold.
 */
module Navigation {
  import opened Wrappers
  import opened Records

  /** A call of `navigate(path, { replace })`. */
  datatype Navigation = Navigation(path: string, replace: bool)

  const ManufacturerHome := "/manufacturer/dashboard"
  const BuyerHome := "/buyer-dashboard"
  const SiteHome := "/"

  /** The registration role: none chosen yet, or one of the two account kinds. */
  datatype Role = NoRole | Manufacturer | Buyer

  /** The role as the pages hold and send it: "", "manufacturer" or "buyer". */
  function RoleText(role: Role): (t: string)
    ensures t == "" <==> role == NoRole
    ensures t == "manufacturer" <==> role == Manufacturer
    ensures t == "buyer" <==> role == Buyer
  {
    match role
    case NoRole => ""
    case Manufacturer => "manufacturer"
    case Buyer => "buyer"
  }

  /** Reading a role back from its text: the inverse of `RoleText`. */
  function RoleOfText(t: string): (r: Option<Role>)
    ensures r.Some? <==> t in ["", "manufacturer", "buyer"]
  {
    match t
    case "" => Some(NoRole)
    case "manufacturer" => Some(Manufacturer)
    case "buyer" => Some(Buyer)
    case _ => None
  }

  lemma RoleTextRoundTrip(role: Role)
    ensures RoleOfText(RoleText(role)) == Some(role)
  {
  }

  /** The `role` field of a user, when it names a role. */
  function UserRole(user: Option<Record>): (r: Option<Role>)
    ensures r.Some? ==> user.Some? && "role" in user.value && RoleText(r.value) == user.value["role"]
    ensures user.Some? && "role" in user.value && user.value["role"] in ["", "manufacturer", "buyer"] ==> r.Some?
  {
    match user
    case None => None
    case Some(u) => if "role" in u then RoleOfText(u["role"]) else None
  }
}
