/** The sign-up form: the password-confirmation guard, the payload and its error table. */
module Register {
  import opened Values
  import opened Records
  import opened Remote
  import opened AuthContext
  import AuthService

  const Mismatch := "Passwords do not match"
  const BadRequest := "Bad request. Please check your inputs."
  const Unauthorized := "Unauthorized. Please check your credentials."
  const Forbidden := "Forbidden. Access denied."
  const NotFound := "Resource not found."
  const MethodNotAllowed := "Method not allowed. Please try again later."
  const Conflict := "Conflict. User already exists."
  const InternalError := "Internal server error. Please try again later."
  const Generic := "An error occurred. Please try again later."
  const NoResponse := "No response received. Please try again later."
  const HomePath := "/"

  /** The message the catch block shows for a thrown error. */
  function ErrorMessage(s: Shape): string {
    match s
    case HasResponse(status, _) =>
      if status == 400 then BadRequest
      else if status == 401 then Unauthorized
      else if status == 403 then Forbidden
      else if status == 404 then NotFound
      else if status == 405 then MethodNotAllowed
      else if status == 409 then Conflict
      else if status == 500 then InternalError
      else Generic
    case RequestOnly => NoResponse
    case NotSent => Generic
  }

  /** Each of the seven listed statuses has its own message; every other status, 503 included,
      shares the generic one with an error thrown before sending. */
  lemma ErrorTable(status: int, body: ErrorBody)
    ensures ErrorMessage(HasResponse(status, body)) == Generic <==> status !in {400, 401, 403, 404, 405, 409, 500}
    ensures ErrorMessage(HasResponse(503, body)) == ErrorMessage(NotSent)
    ensures ErrorMessage(HasResponse(status, body)) != NoResponse
    ensures forall t: int {:trigger ErrorMessage(HasResponse(t, body))} ::
      t in {400, 401, 403, 404, 405, 409, 500} && ErrorMessage(HasResponse(t, body)) == ErrorMessage(HasResponse(status, body)) ==> t == status
  {
  }

  class RegisterForm {
    var email: string
    var password: string
    var confirmPassword: string
    var fullName: string
    var phoneNumber: string
    var error: Option<string>
    var loading: bool

    constructor ()
      ensures email == "" && password == "" && confirmPassword == "" && fullName == "" && phoneNumber == ""
      ensures error == None && !loading
    {
      email, password, confirmPassword, fullName, phoneNumber := "", "", "", "", "";
      error, loading := None, false;
    }

    /** `handleSubmit`. Mismatched passwords stop before any call. */
    method HandleSubmit(auth: AuthProvider, signUp: Call<Session>, contextLookup: Call<UserRecord>, lookup: Call<UserRecord>)
      returns (sent: seq<Request>, navigate: Option<string>)
      requires auth.Settled()
      modifies this`error, this`loading, auth`user, auth`userProfile, auth`store, auth`synced
      ensures auth.Settled()
      ensures password != confirmPassword ==>
        sent == [] && navigate == None && error == Some(Mismatch) && loading == old(loading) &&
        auth.user == old(auth.user) && auth.userProfile == old(auth.userProfile) && auth.store == old(auth.store)
      ensures password == confirmPassword ==>
        !loading && |sent| >= 1 && sent[0] == SignUp(SignUpBody(email, password, fullName, phoneNumber, Some(["USER"])))
      ensures password == confirmPassword && signUp.Thrown? ==>
        sent == [sent[0]] && navigate == None && error == Some(ErrorMessage(signUp.failure.shape)) &&
        auth.user == old(auth.user) && auth.userProfile == old(auth.userProfile) && auth.store == old(auth.store)
      ensures password == confirmPassword && signUp.Ok? ==>
        auth.user == Some(signUp.data) &&
        sent[1..] == (if signUp.status == 200 then [GetUser(email, signUp.data.accessToken)] else [])
                     + [GetUser(email, signUp.data.accessToken)]
      ensures password == confirmPassword && signUp.Ok? && lookup.Thrown? ==>
        navigate == None && error == Some(ErrorMessage(lookup.failure.shape)) &&
        auth.userProfile == (if Succeeded(signUp) && Succeeded(contextLookup) then Some(ProfileOf(contextLookup.data)) else old(auth.userProfile))
      ensures password == confirmPassword && signUp.Ok? && lookup.Ok? ==>
        navigate == Some(HomePath) && error == old(error) && auth.userProfile == Some(ProfileOf(lookup.data))
    {
      if password != confirmPassword {
        error := Some(Mismatch);
        sent, navigate := [], None;
        return;
      }
      sent, navigate := Submit(auth, signUp, contextLookup, lookup);
    }

    /** The `try` block of `handleSubmit`: the form stores the sign-up data whatever its
        status, fetches the profile itself and goes home. */
    method Submit(auth: AuthProvider, signUp: Call<Session>, contextLookup: Call<UserRecord>, lookup: Call<UserRecord>)
      returns (sent: seq<Request>, navigate: Option<string>)
      requires auth.Settled()
      modifies this`error, this`loading, auth`user, auth`userProfile, auth`store, auth`synced
      ensures auth.Settled() && !loading
      ensures |sent| >= 1 && sent[0] == SignUp(SignUpBody(email, password, fullName, phoneNumber, Some(["USER"])))
      ensures signUp.Thrown? ==>
        sent == [sent[0]] && navigate == None && error == Some(ErrorMessage(signUp.failure.shape)) &&
        auth.user == old(auth.user) && auth.userProfile == old(auth.userProfile) && auth.store == old(auth.store)
      ensures signUp.Ok? ==>
        auth.user == Some(signUp.data) &&
        sent[1..] == (if signUp.status == 200 then [GetUser(email, signUp.data.accessToken)] else [])
                     + [GetUser(email, signUp.data.accessToken)]
      ensures signUp.Ok? && lookup.Thrown? ==>
        navigate == None && error == Some(ErrorMessage(lookup.failure.shape)) &&
        auth.userProfile == (if Succeeded(signUp) && Succeeded(contextLookup) then Some(ProfileOf(contextLookup.data)) else old(auth.userProfile))
      ensures signUp.Ok? && lookup.Ok? ==>
        navigate == Some(HomePath) && error == old(error) && auth.userProfile == Some(ProfileOf(lookup.data))
    {
      navigate := None;
      loading := true;
      var response;
      sent, response := SendSignUp(auth, signUp, contextLookup);
      ghost var tail := if Succeeded(signUp) then [GetUser(email, signUp.data.accessToken)] else [];
      if response.Thrown? {
        loading := false;
        error := Some(ErrorMessage(response.failure.shape));
        return;
      }
      sent := sent + [GetUser(email, response.data.accessToken)];
      assert sent[1..] == tail + [GetUser(email, response.data.accessToken)];
      navigate := Complete(auth, response.data, lookup);
    }

    /** Builds the sign-up object from the form's fields and hands it to the provider's
        `register`. */
    method SendSignUp(auth: AuthProvider, signUp: Call<Session>, contextLookup: Call<UserRecord>)
      returns (sent: seq<Request>, response: Call<Session>)
      requires auth.Settled()
      modifies auth`user, auth`userProfile, auth`store, auth`synced
      ensures auth.Settled() && response == signUp
      ensures sent == [SignUp(SignUpBody(email, password, fullName, phoneNumber, Some(["USER"])))] +
        (if Succeeded(signUp) then [GetUser(email, signUp.data.accessToken)] else [])
      ensures Succeeded(signUp) && Succeeded(contextLookup) ==>
        auth.user == Some(signUp.data) && auth.userProfile == Some(ProfileOf(contextLookup.data))
      ensures !(Succeeded(signUp) && Succeeded(contextLookup)) ==>
        auth.user == old(auth.user) && auth.userProfile == old(auth.userProfile) && auth.store == old(auth.store)
    {
      var payload := new AuthService.UserData(email, password, fullName, phoneNumber);
      sent, response := auth.Register(payload, signUp, contextLookup);
    }

    /** The rest of the `try` block once sign-up has answered: store the session, then the
        profile the form looked up itself, then go home. */
    method Complete(auth: AuthProvider, data: Session, lookup: Call<UserRecord>) returns (navigate: Option<string>)
      requires auth.Settled()
      modifies this`error, this`loading, auth`user, auth`userProfile, auth`store, auth`synced
      ensures auth.Settled() && !loading && auth.user == Some(data)
      ensures lookup.Thrown? ==>
        navigate == None && error == Some(ErrorMessage(lookup.failure.shape)) && auth.userProfile == old(auth.userProfile)
      ensures lookup.Ok? ==>
        navigate == Some(HomePath) && error == old(error) && auth.userProfile == Some(ProfileOf(lookup.data))
    {
      if lookup.Thrown? {
        auth.Commit(Some(data), auth.userProfile);
        loading := false;
        error := Some(ErrorMessage(lookup.failure.shape));
        return None;
      }
      auth.Commit(Some(data), Some(ProfileOf(lookup.data)));
      loading := false;
      navigate := Some(HomePath);
    }
  }
}
