/**
 * The manufacturer's settings page (src/pages/manufacturer/Settings.tsx): the
 * company profile form prefilled from the signed-in user, the logo, the
 * password change and the account deletion, each sent through the API client
 * with the session's browser window.
 */
module Settings {
  import opened Wrappers
  import opened Records
  import opened Browser
  import opened Api
  import opened AuthContext
  import opened AccountForms

  class SettingsPage {
    const auth: AuthProvider
    var loading: bool
    var logoPreview: Option<string>
    var logoFile: Option<LogoFile>
    var profileData: Record
    var passwordData: PasswordData
    var deletePassword: string

    constructor(auth: AuthProvider)
      ensures this.auth == auth
      ensures !loading && logoPreview.None? && logoFile.None?
      ensures profileData == EmptyProfile() && passwordData == EmptyPasswords && deletePassword == ""
    {
      this.auth := auth;
      loading := false;
      logoPreview := None;
      logoFile := None;
      profileData := EmptyProfile();
      passwordData := EmptyPasswords;
      deletePassword := "";
    }

    /**
     * The effect on `user`: with a user signed in, the profile form is filled
     * from it and a custom avatar becomes the logo preview (any other avatar
     * leaves the preview as it was); with nobody signed in nothing changes.
     */
    method OnUserChanged()
      modifies this
      ensures auth.user.None? ==> profileData == old(profileData) && logoPreview == old(logoPreview)
      ensures auth.user.Some? ==> profileData == ProfileFrom(auth.user.value)
      ensures auth.user.Some? && CustomAvatar(auth.user.value).Some? ==> logoPreview == CustomAvatar(auth.user.value)
      ensures auth.user.Some? && CustomAvatar(auth.user.value).None? ==> logoPreview == old(logoPreview)
      ensures loading == old(loading) && logoFile == old(logoFile)
      ensures passwordData == old(passwordData) && deletePassword == old(deletePassword)
    {
      if auth.user.Some? {
        var user := auth.user.value;
        profileData := ProfileFrom(user);
        var avatar := CustomAvatar(user);
        if avatar.Some? {
          logoPreview := avatar;
        }
      }
    }

    /**
     * `handleLogoUpload`: a file of at most 5 MiB becomes the logo file; no
     * file, or a larger one, changes nothing. The preview arrives later from
     * the file reader, in `OnLogoLoaded`.
     */
    method HandleLogoUpload(file: Option<LogoFile>) returns (accepted: bool)
      modifies this
      ensures accepted <==> LogoAccepted(file)
      ensures accepted ==> logoFile == file
      ensures !accepted ==> logoFile == old(logoFile)
      ensures logoPreview == old(logoPreview) && loading == old(loading) && profileData == old(profileData)
      ensures passwordData == old(passwordData) && deletePassword == old(deletePassword)
    {
      if file.None? {
        return false;
      }
      if file.value.size > MaxLogoBytes {
        return false;
      }
      logoFile := file;
      accepted := true;
    }

    /** The file reader's result: the data URL becomes the preview. */
    method OnLogoLoaded(url: string)
      modifies this
      ensures logoPreview == Some(url)
      ensures logoFile == old(logoFile) && loading == old(loading) && profileData == old(profileData)
      ensures passwordData == old(passwordData) && deletePassword == old(deletePassword)
    {
      logoPreview := Some(url);
    }

    /** `removeLogo`: neither a preview nor a file is left. */
    method RemoveLogo()
      modifies this
      ensures logoPreview.None? && logoFile.None?
      ensures loading == old(loading) && profileData == old(profileData)
      ensures passwordData == old(passwordData) && deletePassword == old(deletePassword)
    {
      logoPreview := None;
      logoFile := None;
    }

    /**
     * `handleProfileUpdate`: the form is sent as it is; the server's user is
     * spread over the session user (and stored), and the form is refilled from
     * the result; a failure changes only what the client's 401 handling
     * changes, and yields the server's message or the fallback.
     */
    method HandleProfileUpdate(reply: Reply<Record>) returns (body: Record, message: Option<string>)
      modifies this, auth, auth.window
      ensures body == old(profileData)
      ensures reply.Success? ==> auth.State() == UpdateUserStep(old(auth.State()), reply.data) && message.None?
      ensures reply.Success? ==> auth.user.Some? && profileData == ProfileFrom(auth.user.value)
      ensures reply.Success? && auth.user.Some? ==>
                logoPreview == (if CustomAvatar(auth.user.value).Some? then CustomAvatar(auth.user.value) else old(logoPreview))
      ensures reply.Failure? ==> auth.State() == old(auth.State()).(store := AfterError(old(auth.window.Snapshot()), reply.error))
      ensures reply.Failure? ==> profileData == old(profileData) && logoPreview == old(logoPreview)
      ensures reply.Failure? ==> message == Some(ErrorMessage(reply.error, "Failed to update profile"))
      ensures !loading && logoFile == old(logoFile)
      ensures passwordData == old(passwordData) && deletePassword == old(deletePassword)
    {
      loading := true;
      body := profileData;
      var response, _ := Send(auth.window, UsersUpdateProfile, reply);
      if response.Success? {
        auth.UpdateUser(response.data);
        OnUserChanged();
        message := None;
      } else {
        message := Some(ErrorMessage(response.error, "Failed to update profile"));
      }
      loading := false;
    }

    /**
     * `handlePasswordUpdate`: a form the guards refuse sends nothing and
     * changes nothing; otherwise the current and new passwords are sent, a
     * success clears the three fields and a failure keeps them.
     */
    method HandlePasswordUpdate(reply: Reply<()>) returns (request: Option<PasswordRequest>, message: Option<string>)
      modifies this, auth.window
      ensures var check := CheckPasswordChange(old(passwordData));
              && (check.Err? ==> request.None? && message == Some(check.error))
              && (check.Err? ==> passwordData == old(passwordData) && loading == old(loading))
              && (check.Err? ==> auth.window.Snapshot() == old(auth.window.Snapshot()))
              && (check.Ok? ==> request == Some(check.value) && !loading)
              && (check.Ok? ==> auth.window.Snapshot() == AfterReply(old(auth.window.Snapshot()), reply))
              && (check.Ok? && reply.Success? ==> passwordData == EmptyPasswords && message.None?)
              && (check.Ok? && reply.Failure? ==> passwordData == old(passwordData))
              && (check.Ok? && reply.Failure? ==> message == Some(ErrorMessage(reply.error, "Failed to update password")))
      ensures profileData == old(profileData) && deletePassword == old(deletePassword)
      ensures logoPreview == old(logoPreview) && logoFile == old(logoFile)
    {
      var check := CheckPasswordChange(passwordData);
      if check.Err? {
        return None, Some(check.error);
      }
      loading := true;
      request := Some(check.value);
      var response, _ := Send(auth.window, UsersUpdatePassword, reply);
      if response.Success? {
        passwordData := EmptyPasswords;
        message := None;
      } else {
        message := Some(ErrorMessage(response.error, "Failed to update password"));
      }
      loading := false;
    }

    /**
     * `handleDeleteAccount`: an empty password sends nothing and changes
     * nothing; otherwise the password is sent and cleared whatever the
     * outcome, and a success schedules the logout.
     */
    method HandleDeleteAccount(reply: Reply<()>) returns (request: Option<string>, message: Option<string>, logoutScheduled: bool)
      modifies this, auth.window
      ensures old(deletePassword) == "" ==> request.None? && message == Some(EmptyDeleteMessage) && !logoutScheduled
      ensures old(deletePassword) == "" ==> loading == old(loading) && auth.window.Snapshot() == old(auth.window.Snapshot())
      ensures old(deletePassword) != "" ==> request == Some(old(deletePassword)) && deletePassword == "" && !loading
      ensures old(deletePassword) != "" ==> auth.window.Snapshot() == AfterReply(old(auth.window.Snapshot()), reply)
      ensures old(deletePassword) != "" ==> (logoutScheduled <==> reply.Success?)
      ensures old(deletePassword) != "" && reply.Success? ==> message.None?
      ensures old(deletePassword) != "" && reply.Failure? ==> message == Some(ErrorMessage(reply.error, "Failed to delete account"))
      ensures deletePassword == "" && profileData == old(profileData) && passwordData == old(passwordData)
      ensures logoPreview == old(logoPreview) && logoFile == old(logoFile)
    {
      var check := CheckDelete(deletePassword);
      if check.Err? {
        return None, Some(check.error), false;
      }
      loading := true;
      request := Some(check.value);
      var response, _ := Send(auth.window, UsersDeleteAccount, reply);
      if response.Success? {
        message := None;
        logoutScheduled := true;
      } else {
        message := Some(ErrorMessage(response.error, "Failed to delete account"));
        logoutScheduled := false;
      }
      loading := false;
      deletePassword := "";
    }

    /** `handleProfileChange(field, value)`: the named field takes the value, every other field stays. */
    method HandleProfileChange(field: string, value: string)
      modifies this
      ensures profileData == WithField(old(profileData), field, value)
      ensures loading == old(loading) && passwordData == old(passwordData) && deletePassword == old(deletePassword)
      ensures logoPreview == old(logoPreview) && logoFile == old(logoFile)
    {
      profileData := WithField(profileData, field, value);
    }

    method HandlePasswordChange(field: PasswordField, value: string)
      modifies this
      ensures passwordData == WithPasswordField(old(passwordData), field, value)
      ensures loading == old(loading) && profileData == old(profileData) && deletePassword == old(deletePassword)
      ensures logoPreview == old(logoPreview) && logoFile == old(logoFile)
    {
      passwordData := WithPasswordField(passwordData, field, value);
    }

    /** Setting the deletion form's password field. */
    method SetDeletePassword(value: string)
      modifies this
      ensures deletePassword == value
      ensures loading == old(loading) && profileData == old(profileData) && passwordData == old(passwordData)
      ensures logoPreview == old(logoPreview) && logoFile == old(logoFile)
    {
      deletePassword := value;
    }
  }
}
