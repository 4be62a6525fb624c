/** The auth-service client: four posts, each forwarding the response and rethrowing errors. */
module AuthService {
  import opened Values
  import opened Records
  import opened Remote

  const ApiUrl := "http://localhost:8080/auth-service/"
  const ValidatePath := "validate-access-token/"

  /** The sign-up object a caller hands to `register`, which writes its `roles` in place. */
  class UserData {
    var email: string
    var password: string
    var fullName: string
    var phone: string
    var roles: Option<seq<string>>

    /** The literal `{email, password, fullName, phone}`: no roles yet. */
    constructor (email: string, password: string, fullName: string, phone: string)
      ensures this.email == email && this.password == password
      ensures this.fullName == fullName && this.phone == phone && roles == None
    {
      this.email := email;
      this.password := password;
      this.fullName := fullName;
      this.phone := phone;
      roles := None;
    }

    /** The body axios serialises from this object. */
    function Body(): SignUpBody
      reads this
    {
      SignUpBody(email, password, fullName, phone, roles)
    }
  }

  predicate IsAuthRequest(r: Request) {
    r.SignUp? || r.SignIn? || r.LogOut? || r.ValidateToken?
  }

  /** The URL each auth request is posted to. */
  function Url(r: Request): string
    requires IsAuthRequest(r)
  {
    match r
    case SignUp(_) => ApiUrl + "sign-up"
    case SignIn(_, _) => ApiUrl + "sign-in"
    case LogOut(_, _) => ApiUrl + "log-out"
    case ValidateToken(t) => ApiUrl + ValidatePath + t
  }

  /** Every auth URL lies under the base path, and the four kinds of request never share one. */
  lemma UrlsDistinct(a: Request, b: Request)
    requires IsAuthRequest(a) && IsAuthRequest(b)
    ensures ApiUrl <= Url(a)
    ensures Url(a) == Url(b) ==>
      a.SignUp? == b.SignUp? && a.SignIn? == b.SignIn? && a.LogOut? == b.LogOut? && a.ValidateToken? == b.ValidateToken?
  {
    var n := |ApiUrl|;
    assert Url(a)[..n] == ApiUrl;
    if Url(a) == Url(b) {
      assert Url(a)[n] == Url(b)[n];
      if a.SignUp? || a.SignIn? {
        assert Url(a)[n + 5] == Url(b)[n + 5];
      }
    }
  }

  /** The token is the path segment after the validation prefix, so it is recovered from the URL. */
  lemma ValidateUrlToken(t: string)
    ensures ApiUrl + ValidatePath <= Url(ValidateToken(t))
    ensures Url(ValidateToken(t))[|ApiUrl + ValidatePath|..] == t
  {
    assert Url(ValidateToken(t)) == (ApiUrl + ValidatePath) + t;
  }

  /** `register`: overwrites `roles` with `["USER"]` whatever the caller put there, posts the
      object to `sign-up`, and forwards the outcome unchanged. */
  method Register(userData: UserData, answer: Call<Session>) returns (sent: Request, response: Call<Session>)
    modifies userData
    ensures userData.roles == Some(["USER"])
    ensures userData.email == old(userData.email) && userData.password == old(userData.password)
    ensures userData.fullName == old(userData.fullName) && userData.phone == old(userData.phone)
    ensures sent == SignUp(userData.Body()) && Url(sent) == ApiUrl + "sign-up"
    ensures response == answer
  {
    userData.roles := Some(["USER"]);
    sent := SignUp(userData.Body());
    response := answer;
  }

  /** `login`: posts `{email, password}` to `sign-in`; the response or the error as it came. */
  function Login(email: string, password: string, answer: Call<Session>): (r: (Request, Call<Session>))
    ensures r.0 == SignIn(email, password) && Url(r.0) == ApiUrl + "sign-in"
    ensures r.1 == answer
  {
    (SignIn(email, password), answer)
  }

  /** `logout`: posts `{email, accessToken}` to `log-out`; the response or the error as it came. */
  function Logout(email: string, accessToken: string, answer: Call<()>): (r: (Request, Call<()>))
    ensures r.0 == LogOut(email, accessToken) && Url(r.0) == ApiUrl + "log-out"
    ensures r.1 == answer
  {
    (LogOut(email, accessToken), answer)
  }

  /** `validateToken`: posts to the validation path followed by the token. */
  function Validate(accessToken: string, answer: Call<()>): (r: (Request, Call<()>))
    ensures r.0 == ValidateToken(accessToken) && Url(r.0) == ApiUrl + ValidatePath + accessToken
    ensures r.1 == answer
  {
    (ValidateToken(accessToken), answer)
  }
}
