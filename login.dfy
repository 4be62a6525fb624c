/** The sign-in form: role-based routing after sign-in and its error table. */
module Login {
  import opened Values
  import opened Records
  import opened Remote
  import opened AuthContext

  const InvalidCredentials := "Invalid email or password."
  const UserNotFound := "User not found"
  const MethodNotAllowed := "Method not allowed. Please try again later."
  const Unavailable := "Service unavailable. Please try again later."
  const Generic := "An error occurred. Please try again later."
  const NoResponse := "No response received. Please try again later."
  const UnknownRole := "Unknown role, cannot navigate"

  /** The message the catch block shows for a thrown error. */
  function ErrorMessage(s: Shape): string {
    match s
    case HasResponse(status, _) =>
      if status == 401 || status == 403 then InvalidCredentials
      else if status == 404 then UserNotFound
      else if status == 405 then MethodNotAllowed
      else if status == 503 then Unavailable
      else Generic
    case RequestOnly => NoResponse
    case NotSent => Generic
  }

  /** 401 and 403 give the same message; 404, 405 and 503 each have their own; every other
      status, and an error thrown before sending, fall back to the generic text. */
  lemma ErrorTable(status: int, body: ErrorBody)
    ensures ErrorMessage(HasResponse(status, body)) == InvalidCredentials <==> status == 401 || status == 403
    ensures ErrorMessage(HasResponse(status, body)) == Generic <==> status !in {401, 403, 404, 405, 503}
    ensures ErrorMessage(HasResponse(status, body)) != NoResponse
    ensures ErrorMessage(NotSent) == Generic && ErrorMessage(RequestOnly) == NoResponse
  {
  }

  datatype Destination = AdminHome | UserHome | NoRoute

  /** `ADMIN` takes precedence over `USER`. */
  function Route(roles: seq<string>): Destination {
    if "ADMIN" in roles then AdminHome
    else if "USER" in roles then UserHome
    else NoRoute
  }

  function Path(d: Destination): Option<string> {
    match d
    case AdminHome => Some("/admin")
    case UserHome => Some("/user")
    case NoRoute => None
  }

  lemma RouteByRole(roles: seq<string>)
    ensures Route(roles) == AdminHome <==> "ADMIN" in roles
    ensures Route(roles) == UserHome <==> "ADMIN" !in roles && "USER" in roles
    ensures Route(roles) == NoRoute <==> Path(Route(roles)) == None
    ensures Path(Route(roles)) == None <==> "ADMIN" !in roles && "USER" !in roles
  {
  }

  class LoginForm {
    var email: string
    var password: string
    var error: Option<string>
    var loading: bool

    constructor ()
      ensures email == "" && password == "" && error == None && !loading
    {
      email, password, error, loading := "", "", None, false;
    }

    method SetEmail(v: string)
      modifies this`email
      ensures email == v
    {
      email := v;
    }

    method SetPassword(v: string)
      modifies this`password
      ensures password == v
    {
      password := v;
    }

    /** `handleSubmit`. After the context's sign-in the form stores the sign-in data again,
        whatever its status, then fetches the profile itself and routes by its roles. */
    method HandleSubmit(auth: AuthProvider, signIn: Call<Session>, contextLookup: Call<UserRecord>, lookup: Call<UserRecord>)
      returns (sent: seq<Request>, navigate: Option<string>)
      requires auth.Settled()
      modifies this`error, this`loading, auth`user, auth`userProfile, auth`store, auth`synced
      ensures auth.Settled() && !loading
      ensures signIn.Thrown? ==>
        sent == [SignIn(email, password)] && navigate == None && error == Some(ErrorMessage(signIn.failure.shape)) &&
        auth.user == old(auth.user) && auth.userProfile == old(auth.userProfile) && auth.store == old(auth.store)
      ensures signIn.Ok? ==>
        auth.user == Some(signIn.data) &&
        sent == [SignIn(email, password)] + (if signIn.status == 200 then [GetUser(email, signIn.data.accessToken)] else [])
                + [GetUser(email, signIn.data.accessToken)]
      ensures signIn.Ok? && lookup.Thrown? ==>
        navigate == None && error == Some(ErrorMessage(lookup.failure.shape)) &&
        auth.userProfile == (if Succeeded(signIn) && Succeeded(contextLookup) then Some(ProfileOf(contextLookup.data)) else old(auth.userProfile))
      ensures signIn.Ok? && lookup.Ok? ==>
        auth.userProfile == Some(ProfileOf(lookup.data)) && navigate == Path(Route(lookup.data.roles)) &&
        error == (if navigate == None then Some(UnknownRole) else old(error))
    {
      loading := true;
      navigate := None;
      var response;
      sent, response := auth.Login(email, password, signIn, contextLookup);
      if response.Thrown? {
        loading := false;
        error := Some(ErrorMessage(response.failure.shape));
        return;
      }
      var accessToken := response.data.accessToken;
      sent := sent + [GetUser(email, accessToken)];
      if lookup.Thrown? {
        auth.Commit(Some(response.data), auth.userProfile);
        loading := false;
        error := Some(ErrorMessage(lookup.failure.shape));
        return;
      }
      var roles := lookup.data.roles;
      auth.Commit(Some(response.data), Some(ProfileOf(lookup.data)));
      loading := false;
      var target := Route(roles);
      navigate := Path(target);
      if target == NoRoute {
        error := Some(UnknownRole);
      }
    }
  }
}
