/**
 * The account forms the manufacturer's Settings page and the buyer's Profile
 * page share (src/pages/manufacturer/Settings.tsx,
 * src/pages/buyer-dashboard/Profile.tsx): the seven profile fields, the
 * password-change and account-deletion guards, and the company logo checks.
 */
module AccountForms {
  import opened Wrappers
  import opened Records

  /** The fields of the profile form. */
  const ProfileKeys: set<string> := {"companyName", "email", "phone", "address", "industry", "description", "website"}

  /**
   * The profile form filled from a user: each of the seven fields is the
   * user's text for it, or "" when the user has none; no other field appears.
   */
  function ProfileFrom(user: Record): (p: Record)
    ensures p.Keys == ProfileKeys
    ensures forall k :: k in ProfileKeys && k in user ==> p[k] == user[k]
    ensures forall k :: k in ProfileKeys && k !in user ==> p[k] == ""
  {
    map k | k in ProfileKeys :: TextOr(user, k)
  }

  /** The form before anything is loaded: every field empty. */
  function EmptyProfile(): (p: Record)
    ensures p.Keys == ProfileKeys && forall k :: k in p ==> p[k] == ""
  {
    ProfileFrom(map[])
  }

  /** Filling twice from the same user gives the same form, and filling from a filled form changes nothing. */
  lemma ProfileFromIdempotent(user: Record)
    ensures ProfileFrom(ProfileFrom(user)) == ProfileFrom(user)
  {
  }

  datatype PasswordData = PasswordData(currentPassword: string, newPassword: string, confirmPassword: string)

  const EmptyPasswords := PasswordData("", "", "")

  datatype PasswordField = CurrentPassword | NewPassword | ConfirmPassword

  /** `handlePasswordChange(field, value)`: only the named field changes. */
  function WithPasswordField(p: PasswordData, field: PasswordField, value: string): (r: PasswordData)
    ensures field == CurrentPassword ==> r == p.(currentPassword := value)
    ensures field == NewPassword ==> r == p.(newPassword := value)
    ensures field == ConfirmPassword ==> r == p.(confirmPassword := value)
  {
    match field
    case CurrentPassword => p.(currentPassword := value)
    case NewPassword => p.(newPassword := value)
    case ConfirmPassword => p.(confirmPassword := value)
  }

  /** The body of the password-change call: the confirmation is not sent. */
  datatype PasswordRequest = PasswordRequest(currentPassword: string, newPassword: string)

  const MinPasswordLength := 6
  const MismatchMessage := "New passwords do not match"
  const TooShortMessage := "Password must be at least 6 characters long"

  /**
   * The two guards of `handlePasswordUpdate`, in their order: a confirmation
   * that differs is refused first, then a new password under six characters;
   * only a form passing both yields the request.
   */
  function CheckPasswordChange(p: PasswordData): (r: Result<PasswordRequest, string>)
    ensures p.newPassword != p.confirmPassword ==> r == Err(MismatchMessage)
    ensures p.newPassword == p.confirmPassword && |p.newPassword| < MinPasswordLength ==> r == Err(TooShortMessage)
    ensures r.Ok? <==> p.newPassword == p.confirmPassword && |p.newPassword| >= MinPasswordLength
    ensures r.Ok? ==> r.value == PasswordRequest(p.currentPassword, p.newPassword)
  {
    if p.newPassword != p.confirmPassword then Err(MismatchMessage)
    else if |p.newPassword| < MinPasswordLength then Err(TooShortMessage)
    else Ok(PasswordRequest(p.currentPassword, p.newPassword))
  }

  /** The cleared form never passes the guards, so submitting it twice sends nothing. */
  lemma EmptyPasswordsRefused()
    ensures CheckPasswordChange(EmptyPasswords) == Err(TooShortMessage)
  {
  }

  const EmptyDeleteMessage := "Please enter your password to confirm account deletion"

  /** `handleDeleteAccount`'s guard: an empty (falsy) password is refused; any other is the request body. */
  function CheckDelete(password: string): (r: Result<string, string>)
    ensures r.Err? <==> password == ""
    ensures r.Err? ==> r.error == EmptyDeleteMessage
    ensures r.Ok? ==> r.value == password
  {
    if password == "" then Err(EmptyDeleteMessage) else Ok(password)
  }

  const DefaultAvatar := "default-avatar.jpg"

  /** The user's own avatar: present, not empty (falsy), and not the placeholder image. */
  function CustomAvatar(user: Record): (a: Option<string>)
    ensures a.Some? <==> "avatar" in user && user["avatar"] != "" && user["avatar"] != DefaultAvatar
    ensures a.Some? ==> a.value == user["avatar"]
  {
    match Get(user, "avatar")
    case Some(avatar) => if avatar != "" && avatar != DefaultAvatar then Some(avatar) else None
    case None => None
  }

  /** A selected image file; only its size matters to the checks here. */
  datatype LogoFile = LogoFile(name: string, size: int)

  /** Five mebibytes. */
  const MaxLogoBytes := 5 * 1024 * 1024

  /** `handleLogoUpload` keeps a chosen file of at most 5 MiB; no file, or a larger one, is refused. */
  predicate LogoAccepted(file: Option<LogoFile>)
    ensures LogoAccepted(file) ==> file.Some?
    ensures file.Some? && 0 <= file.value.size <= MaxLogoBytes ==> LogoAccepted(file)
    ensures file.Some? && file.value.size > MaxLogoBytes ==> !LogoAccepted(file)
  {
    file.Some? && file.value.size <= MaxLogoBytes
  }
}
