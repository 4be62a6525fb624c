/** The route guard: a three-state gate driven by the token-validation call. */
module PrivateRoute {
  import opened Values
  import opened Records
  import opened Remote
  import opened AuthContext
  import AuthService

  /** `isAuthenticated`: `null`, `true`, `false`. */
  datatype Gate = Pending | Authenticated | Unauthenticated

  /** What the guard renders. */
  datatype View = Loading | Outlet | Redirect(path: string)

  const SignInPath := "/sign-in"

  function Render(g: Gate): View {
    match g
    case Pending => Loading
    case Authenticated => Outlet
    case Unauthenticated => Redirect(SignInPath)
  }

  /** A pending gate shows the placeholder and never redirects; only a `false` gate redirects,
      and only to the sign-in page; only a `true` gate shows the protected outlet. */
  lemma RenderDecision(g: Gate)
    ensures Render(g) == Loading <==> g == Pending
    ensures Render(g) == Outlet <==> g == Authenticated
    ensures Render(g).Redirect? <==> g == Unauthenticated
    ensures Render(g).Redirect? ==> Render(g).path == "/sign-in"
  {
  }

  class Guard {
    var isAuthenticated: Gate

    constructor ()
      ensures isAuthenticated == Pending
    {
      isAuthenticated := Pending;
    }

    /** `validateUserToken`. Only a thrown error that carries a response clears the session,
        whatever its status; every other non-200 outcome keeps it. */
    method ValidateUserToken(auth: AuthProvider, answer: Call<()>) returns (sent: seq<Request>)
      requires auth.Settled()
      modifies this, auth`user, auth`userProfile, auth`store, auth`synced
      ensures auth.Settled()
      ensures isAuthenticated == if HasToken(old(auth.user)) && Succeeded(answer) then Authenticated else Unauthenticated
      ensures sent == if HasToken(old(auth.user)) then [ValidateToken(old(auth.user).value.accessToken)] else []
      ensures HasToken(old(auth.user)) && answer.Thrown? && answer.failure.shape.HasResponse? ==>
        auth.user == None && auth.userProfile == None && auth.store == Persisted(old(auth.store), None, None)
      ensures !(HasToken(old(auth.user)) && answer.Thrown? && answer.failure.shape.HasResponse?) ==>
        auth.user == old(auth.user) && auth.userProfile == old(auth.userProfile) && auth.store == old(auth.store)
    {
      if auth.user.Some? && auth.user.value.accessToken != "" {
        var call := AuthService.Validate(auth.user.value.accessToken, answer);
        sent := [call.0];
        var response := call.1;
        if response.Ok? {
          isAuthenticated := if response.status == 200 then Authenticated else Unauthenticated;
        } else {
          if response.failure.shape.HasResponse? {
            // the branches on 401, 403, 404, 405, 500 and 503 have empty bodies
            auth.SetUser(None);
            auth.RemoveItem(UserKey);
            auth.SetUserProfile(None);
            auth.RemoveItem(ProfileKey);
            PersistedOverwrites(old(auth.store), None, None);
            auth.Flush();
          }
          isAuthenticated := Unauthenticated;
        }
      } else {
        sent := [];
        isAuthenticated := Unauthenticated;
      }
    }

    /** The effect as React runs it: `validateUserToken`, then once more if that changed `user`.
        The second run finds no user and sends nothing. */
    method Evaluate(auth: AuthProvider, answer: Call<()>) returns (sent: seq<Request>)
      requires auth.Settled()
      modifies this, auth`user, auth`userProfile, auth`store, auth`synced
      ensures auth.Settled()
      ensures isAuthenticated == if HasToken(old(auth.user)) && Succeeded(answer) then Authenticated else Unauthenticated
      ensures sent == if HasToken(old(auth.user)) then [ValidateToken(old(auth.user).value.accessToken)] else []
      ensures Render(isAuthenticated) != Loading
    {
      var before := auth.user;
      sent := ValidateUserToken(auth, answer);
      if auth.user != before {
        var again := ValidateUserToken(auth, answer);
        sent := sent + again;
      }
    }
  }
}
