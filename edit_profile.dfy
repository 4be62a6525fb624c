/** The profile form: loads the current account, submits a partial update of three fields. */
module EditProfile {
  import opened Values
  import opened Records
  import opened Remote
  import opened AuthContext
  import Register

  const FetchFailed := "Failed to fetch user data. Please try again later."
  const UpdateFailed := "Failed to update user profile. Please try again."

  /** The table both catch blocks use for a thrown error. */
  function ErrorMessage(s: Shape): string {
    match s
    case HasResponse(status, _) =>
      if status == 400 then "Bad request. Please check your inputs."
      else if status == 401 then "Unauthorized. Please check your credentials."
      else if status == 403 then "Forbidden. Access denied."
      else if status == 404 then "Resource not found."
      else if status == 405 then "Method not allowed. Please try again later."
      else if status == 409 then "Conflict. User already exists."
      else if status == 500 then "Internal server error. Please try again later."
      else "An error occurred. Please try again later."
    case RequestOnly => "No response received. Please try again later."
    case NotSent => "An error occurred. Please try again later."
  }

  /** The profile form's table is word for word the sign-up form's, and a resolved non-200
      answer gets a message of its own in each handler. */
  lemma SameTableAsRegister(s: Shape)
    ensures ErrorMessage(s) == Register.ErrorMessage(s)
    ensures ErrorMessage(s) != FetchFailed && ErrorMessage(s) != UpdateFailed
  {
  }

  class EditProfileForm {
    var fullName: string
    var email: string
    var phoneNumber: string
    var error: Option<string>

    constructor ()
      ensures fullName == "" && email == "" && phoneNumber == "" && error == None
    {
      fullName, email, phoneNumber, error := "", "", "", None;
    }

    /** `fetchUserData`: runs only with a token; the lookup is by the profile's e-mail, and reading
        a missing profile throws inside the `try`. A 200 answer fills the three fields. */
    method FetchUserData(auth: AuthProvider, answer: Call<UserRecord>) returns (sent: seq<Request>)
      modifies this
      ensures !HasToken(auth.user) ==>
        sent == [] && fullName == old(fullName) && email == old(email) && phoneNumber == old(phoneNumber) && error == old(error)
      ensures HasToken(auth.user) && auth.userProfile.None? ==>
        sent == [] && fullName == old(fullName) && email == old(email) && phoneNumber == old(phoneNumber) &&
        error == Some(ErrorMessage(Fault.shape))
      ensures HasToken(auth.user) && auth.userProfile.Some? ==>
        sent == [GetUser(auth.userProfile.value.email, auth.user.value.accessToken)]
      ensures HasToken(auth.user) && auth.userProfile.Some? && Succeeded(answer) ==>
        fullName == answer.data.fullName && email == answer.data.email && phoneNumber == answer.data.phone && error == old(error)
      ensures HasToken(auth.user) && auth.userProfile.Some? && !Succeeded(answer) ==>
        fullName == old(fullName) && email == old(email) && phoneNumber == old(phoneNumber) &&
        error == Some(if answer.Ok? then FetchFailed else ErrorMessage(answer.failure.shape))
    {
      sent := [];
      if auth.user.Some? && auth.user.value.accessToken != "" {
        if auth.userProfile.None? {
          error := Some(ErrorMessage(Fault.shape));
          return;
        }
        sent := [GetUser(auth.userProfile.value.email, auth.user.value.accessToken)];
        match answer
        case Ok(status, data) =>
          if status == 200 {
            fullName, email, phoneNumber := data.fullName, data.email, data.phone;
          } else {
            error := Some(FetchFailed);
          }
        case Thrown(f) =>
          error := Some(ErrorMessage(f.shape));
      }
    }

    method HandleFullNameChange(v: string)
      modifies this`fullName
      ensures fullName == v
    {
      fullName := v;
    }

    method HandleEmailChange(v: string)
      modifies this`email
      ensures email == v
    {
      email := v;
    }

    method HandlePhoneNumberChange(v: string)
      modifies this`phoneNumber
      ensures phoneNumber == v
    {
      phoneNumber := v;
    }

    /** `handleSubmit`: a partial update of name, e-mail and phone, addressed by the profile's
        e-mail. A 200 answer replaces both records (the new session has no roles) and clears
        the error; any other outcome only sets the error. */
    method HandleSubmit(auth: AuthProvider, answer: Call<UserRecord>) returns (sent: seq<Request>)
      requires auth.Settled()
      modifies this`error, auth`user, auth`userProfile, auth`store, auth`synced
      ensures auth.Settled()
      ensures old(auth.user).None? || old(auth.userProfile).None? ==> sent == [] && error == Some(ErrorMessage(Fault.shape))
      ensures old(auth.user).Some? && old(auth.userProfile).Some? ==>
        sent == [UpdateUser(old(auth.userProfile).value.email, ProfileFields(fullName, email, phoneNumber), old(auth.user).value.accessToken)]
      ensures old(auth.user).Some? && old(auth.userProfile).Some? && Succeeded(answer) ==>
        error == None && auth.user == Some(SessionOf(answer.data)) && auth.userProfile == Some(ProfileOf(answer.data))
      ensures old(auth.user).Some? && old(auth.userProfile).Some? && !Succeeded(answer) ==>
        error == Some(if answer.Ok? then UpdateFailed else ErrorMessage(answer.failure.shape))
      ensures !(old(auth.user).Some? && old(auth.userProfile).Some? && Succeeded(answer)) ==>
        auth.user == old(auth.user) && auth.userProfile == old(auth.userProfile) && auth.store == old(auth.store)
    {
      if auth.user.None? || auth.userProfile.None? {
        sent := [];
        error := Some(ErrorMessage(Fault.shape));
        return;
      }
      var updatedUser := ProfileFields(fullName, email, phoneNumber);
      sent := [UpdateUser(auth.userProfile.value.email, updatedUser, auth.user.value.accessToken)];
      match answer
      case Ok(status, data) =>
        if status == 200 {
          auth.Commit(Some(SessionOf(data)), Some(ProfileOf(data)));
          error := None;
        } else {
          error := Some(UpdateFailed);
        }
      case Thrown(f) =>
        error := Some(ErrorMessage(f.shape));
    }

    /** `handleCancel` */
    method HandleCancel()
      modifies this
      ensures fullName == "" && email == "" && phoneNumber == "" && error == None
    {
      fullName, email, phoneNumber, error := "", "", "", None;
    }
  }
}
