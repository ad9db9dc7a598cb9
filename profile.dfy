/**
 * The buyer's profile page (src/pages/buyer-dashboard/Profile.tsx): the same
 * profile, password and deletion forms as the manufacturer's settings, except
 * that the form is filled from a profile call of its own, the field names are
 * limited to the seven profile fields, and a deletion schedules no logout.
 */
module Profile {
  import opened Wrappers
  import opened Records
  import opened Browser
  import opened Api
  import opened AuthContext
  import opened AccountForms

  class ProfilePage {
    const auth: AuthProvider
    var loading: bool
    var profileLoading: bool
    var profileData: Record
    var passwordData: PasswordData
    var deletePassword: string

    /** The form always holds exactly the seven profile fields. */
    predicate Valid()
      reads this
    {
      profileData.Keys == ProfileKeys
    }

    constructor(auth: AuthProvider)
      ensures this.auth == auth && Valid()
      ensures !loading && profileLoading
      ensures profileData == EmptyProfile() && passwordData == EmptyPasswords && deletePassword == ""
    {
      this.auth := auth;
      loading := false;
      profileLoading := true;
      profileData := EmptyProfile();
      passwordData := EmptyPasswords;
      deletePassword := "";
    }

    /**
     * `fetchProfile`: the profile call's user fills the form, "" standing for
     * each missing field; a failed call keeps the form. Either way the
     * profile has finished loading.
     */
    method FetchProfile(reply: Reply<Record>)
      requires Valid()
      modifies this, auth.window
      ensures Valid() && !profileLoading
      ensures reply.Success? ==> profileData == ProfileFrom(reply.data)
      ensures reply.Failure? ==> profileData == old(profileData)
      ensures auth.window.Snapshot() == AfterReply(old(auth.window.Snapshot()), reply)
      ensures loading == old(loading) && passwordData == old(passwordData) && deletePassword == old(deletePassword)
    {
      profileLoading := true;
      var response, _ := Send(auth.window, UsersGetProfile, reply);
      if response.Success? {
        profileData := ProfileFrom(response.data);
      }
      profileLoading := false;
    }

    /**
     * `handleProfileUpdate`: the form is sent as it is; the server's user is
     * spread over the session user (and stored); a failure changes only what
     * the client's 401 handling changes, and yields the server's message or
     * the fallback. The form itself is not refilled.
     */
    method HandleProfileUpdate(reply: Reply<Record>) returns (body: Record, message: Option<string>)
      requires Valid()
      modifies this, auth, auth.window
      ensures Valid() && !loading
      ensures body == old(profileData)
      ensures reply.Success? ==> auth.State() == UpdateUserStep(old(auth.State()), reply.data) && message.None?
      ensures reply.Failure? ==> auth.State() == old(auth.State()).(store := AfterError(old(auth.window.Snapshot()), reply.error))
      ensures reply.Failure? ==> message == Some(ErrorMessage(reply.error, "Failed to update profile"))
      ensures profileData == old(profileData) && profileLoading == old(profileLoading)
      ensures passwordData == old(passwordData) && deletePassword == old(deletePassword)
    {
      loading := true;
      body := profileData;
      var response, _ := Send(auth.window, UsersUpdateProfile, reply);
      if response.Success? {
        auth.UpdateUser(response.data);
        message := None;
      } else {
        message := Some(ErrorMessage(response.error, "Failed to update profile"));
      }
      loading := false;
    }

    /**
     * `handlePasswordUpdate`: a form the guards refuse sends nothing and
     * changes nothing; otherwise the current and new passwords are sent, a
     * success clears the three fields and a failure keeps them.
     */
    method HandlePasswordUpdate(reply: Reply<()>) returns (request: Option<PasswordRequest>, message: Option<string>)
      requires Valid()
      modifies this, auth.window
      ensures Valid()
      ensures var check := CheckPasswordChange(old(passwordData));
              && (check.Err? ==> request.None? && message == Some(check.error))
              && (check.Err? ==> passwordData == old(passwordData) && loading == old(loading))
              && (check.Err? ==> auth.window.Snapshot() == old(auth.window.Snapshot()))
              && (check.Ok? ==> request == Some(check.value) && !loading)
              && (check.Ok? ==> auth.window.Snapshot() == AfterReply(old(auth.window.Snapshot()), reply))
              && (check.Ok? && reply.Success? ==> passwordData == EmptyPasswords && message.None?)
              && (check.Ok? && reply.Failure? ==> passwordData == old(passwordData))
              && (check.Ok? && reply.Failure? ==> message == Some(ErrorMessage(reply.error, "Failed to update password")))
      ensures profileData == old(profileData) && profileLoading == old(profileLoading) && deletePassword == old(deletePassword)
    {
      var check := CheckPasswordChange(passwordData);
      if check.Err? {
        return None, Some(check.error);
      }
      loading := true;
      request := Some(check.value);
      var response, _ := Send(auth.window, UsersUpdatePassword, reply);
      if response.Success? {
        passwordData := EmptyPasswords;
        message := None;
      } else {
        message := Some(ErrorMessage(response.error, "Failed to update password"));
      }
      loading := false;
    }

    /**
     * `handleDeleteAccount`: an empty password sends nothing and changes
     * nothing; otherwise the password is sent and cleared whatever the
     * outcome. Nothing here signs the user out.
     */
    method HandleDeleteAccount(reply: Reply<()>) returns (request: Option<string>, message: Option<string>)
      requires Valid()
      modifies this, auth.window
      ensures Valid()
      ensures old(deletePassword) == "" ==> request.None? && message == Some(EmptyDeleteMessage)
      ensures old(deletePassword) == "" ==> loading == old(loading) && auth.window.Snapshot() == old(auth.window.Snapshot())
      ensures old(deletePassword) != "" ==> request == Some(old(deletePassword)) && !loading
      ensures old(deletePassword) != "" ==> auth.window.Snapshot() == AfterReply(old(auth.window.Snapshot()), reply)
      ensures old(deletePassword) != "" && reply.Success? ==> message.None?
      ensures old(deletePassword) != "" && reply.Failure? ==> message == Some(ErrorMessage(reply.error, "Failed to delete account"))
      ensures deletePassword == "" && profileData == old(profileData) && passwordData == old(passwordData)
      ensures profileLoading == old(profileLoading)
    {
      var check := CheckDelete(deletePassword);
      if check.Err? {
        return None, Some(check.error);
      }
      loading := true;
      request := Some(check.value);
      var response, _ := Send(auth.window, UsersDeleteAccount, reply);
      if response.Success? {
        message := None;
      } else {
        message := Some(ErrorMessage(response.error, "Failed to delete account"));
      }
      loading := false;
      deletePassword := "";
    }

    /** `handleProfileChange(field, value)`, `field` being one of the seven profile fields: only it changes. */
    method HandleProfileChange(field: string, value: string)
      requires Valid() && field in ProfileKeys
      modifies this
      ensures Valid()
      ensures profileData[field] == value
      ensures forall k :: k in profileData && k != field ==> profileData[k] == old(profileData)[k]
      ensures loading == old(loading) && profileLoading == old(profileLoading)
      ensures passwordData == old(passwordData) && deletePassword == old(deletePassword)
    {
      profileData := WithField(profileData, field, value);
    }

    method HandlePasswordChange(field: PasswordField, value: string)
      modifies this
      ensures passwordData == WithPasswordField(old(passwordData), field, value)
      ensures loading == old(loading) && profileLoading == old(profileLoading)
      ensures profileData == old(profileData) && deletePassword == old(deletePassword)
    {
      passwordData := WithPasswordField(passwordData, field, value);
    }

    method SetDeletePassword(value: string)
      modifies this
      ensures deletePassword == value
      ensures loading == old(loading) && profileLoading == old(profileLoading)
      ensures profileData == old(profileData) && passwordData == old(passwordData)
    {
      deletePassword := value;
    }
  }
}
