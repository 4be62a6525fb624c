/** The password form: a confirmation guard, then a partial update of the password alone. */
module ChangePassword {
  import opened Values
  import opened Records
  import opened Remote
  import opened AuthContext

  const Mismatch := "Passwords do not match. Please try again."

  class ChangePasswordForm {
    var newPassword: string
    var confirmNewPassword: string
    var error: string

    constructor ()
      ensures newPassword == "" && confirmNewPassword == "" && error == ""
    {
      newPassword, confirmNewPassword, error := "", "", "";
    }

    method HandleNewPasswordChange(v: string)
      modifies this`newPassword
      ensures newPassword == v
    {
      newPassword := v;
    }

    method HandleConfirmNewPasswordChange(v: string)
      modifies this`confirmNewPassword
      ensures confirmNewPassword == v
    {
      confirmNewPassword := v;
    }

    /** `handleSubmit`. The form resets whenever the update call resolves, whatever its status;
        only a 200 answer replaces the records. A thrown error, or a missing profile or user,
        is logged and changes nothing. */
    method HandleSubmit(auth: AuthProvider, answer: Call<UserRecord>) returns (sent: seq<Request>)
      requires auth.Settled()
      modifies this, auth`user, auth`userProfile, auth`store, auth`synced
      ensures auth.Settled()
      ensures old(newPassword) != old(confirmNewPassword) ==>
        sent == [] && error == Mismatch && newPassword == old(newPassword) && confirmNewPassword == old(confirmNewPassword)
      ensures old(newPassword) == old(confirmNewPassword) && old(auth.user).Some? && old(auth.userProfile).Some? ==>
        sent == [UpdateUser(old(auth.userProfile).value.email, PasswordOnly(old(confirmNewPassword)), old(auth.user).value.accessToken)]
      ensures old(newPassword) == old(confirmNewPassword) && old(auth.user).Some? && old(auth.userProfile).Some? && answer.Ok? ==>
        newPassword == "" && confirmNewPassword == "" && error == ""
      ensures old(newPassword) == old(confirmNewPassword) && (old(auth.user).None? || old(auth.userProfile).None? || answer.Thrown?) ==>
        newPassword == old(newPassword) && confirmNewPassword == old(confirmNewPassword) && error == old(error)
      ensures old(newPassword) == old(confirmNewPassword) && old(auth.user).Some? && old(auth.userProfile).Some? && Succeeded(answer) ==>
        auth.user == Some(SessionOf(answer.data)) && auth.userProfile == Some(ProfileOf(answer.data))
      ensures !(old(newPassword) == old(confirmNewPassword) && old(auth.user).Some? && old(auth.userProfile).Some? && Succeeded(answer)) ==>
        auth.user == old(auth.user) && auth.userProfile == old(auth.userProfile) && auth.store == old(auth.store)
    {
      sent := [];
      if newPassword != confirmNewPassword {
        error := Mismatch;
        return;
      }
      if auth.userProfile.None? || auth.user.None? {
        return;
      }
      sent := [UpdateUser(auth.userProfile.value.email, PasswordOnly(confirmNewPassword), auth.user.value.accessToken)];
      if answer.Thrown? {
        return;
      }
      if answer.status == 200 {
        auth.Commit(Some(SessionOf(answer.data)), Some(ProfileOf(answer.data)));
      }
      newPassword, confirmNewPassword, error := "", "", "";
    }

    /** The cancel button. */
    method HandleCancel()
      modifies this
      ensures newPassword == "" && confirmNewPassword == "" && error == ""
    {
      newPassword, confirmNewPassword, error := "", "", "";
    }
  }
}
