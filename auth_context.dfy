/** The session context: `user` and `userProfile` in memory, mirrored into the browser store. */
module AuthContext {
  import opened Values
  import opened Records
  import opened Remote
  import opened Codec
  import AuthService

  const UserKey := "user"
  const ProfileKey := "userProfile"

  /** The browser's key/value store. */
  type Store = map<string, string>

  /** The `useState` initialiser of `user`: a missing or empty entry gives `null`; any other text is parsed. */
  function HydrateUser(store: Store): Decoded<Option<Session>> {
    if UserKey in store && store[UserKey] != "" then DecodeSession(store[UserKey]) else Decoded(None)
  }

  /** The `useState` initialiser of `userProfile`, alike. */
  function HydrateProfile(store: Store): Decoded<Option<Profile>> {
    if ProfileKey in store && store[ProfileKey] != "" then DecodeProfile(store[ProfileKey]) else Decoded(None)
  }

  /** `JSON.parse(localStorage.getItem("user"))`: a missing entry parses as `null`. */
  function StoredUser(store: Store): Decoded<Option<Session>> {
    if UserKey in store then DecodeSession(store[UserKey]) else Decoded(None)
  }

  /** The access token of the stored user, `None` when parsing fails or gives `null`. */
  function StoredToken(store: Store): Option<string> {
    match StoredUser(store)
    case Decoded(Some(s)) => Some(s.accessToken)
    case _ => None
  }

  /** The store after the persistence effect has written both records. */
  function Persisted(store: Store, u: Option<Session>, p: Option<Profile>): Store {
    store[UserKey := EncodeSession(u)][ProfileKey := EncodeProfile(p)]
  }

  /** Hydrating a store the effect has written gives back the pair it wrote, `null` included. */
  lemma HydratePersisted(store: Store, u: Option<Session>, p: Option<Profile>)
    ensures HydrateUser(Persisted(store, u, p)) == Decoded(u)
    ensures HydrateProfile(Persisted(store, u, p)) == Decoded(p)
    ensures StoredUser(Persisted(store, u, p)) == Decoded(u)
  {
    DecodeEncodeSession(u);
    DecodeEncodeProfile(p);
    assert EncodeSession(u) != "" by { if u.Some? { assert SessionText(u.value)[0] == '{'; } }
    assert EncodeProfile(p) != "" by { if p.Some? { assert ProfileText(p.value)[0] == '{'; } }
  }

  /** Absent keys hydrate to `null`, and each record is read from its own key only. */
  lemma HydrateIndependent(store: Store, key: string, text: string)
    ensures UserKey !in store ==> HydrateUser(store) == Decoded(None)
    ensures ProfileKey !in store ==> HydrateProfile(store) == Decoded(None)
    ensures key != UserKey ==> HydrateUser(store[key := text]) == HydrateUser(store)
    ensures key != ProfileKey ==> HydrateProfile(store[key := text]) == HydrateProfile(store)
  {
  }

  /** The provider's state. */
  class AuthProvider {
    var user: Option<Session>
    var userProfile: Option<Profile>
    var store: Store
    /** The pair the persistence effect last ran with: its dependency list. */
    var synced: (Option<Session>, Option<Profile>)

    /** The store holds the encodings of the pair the effect last ran with. */
    ghost predicate Valid()
      reads this`store, this`synced
    {
      UserKey in store && ProfileKey in store &&
      store[UserKey] == EncodeSession(synced.0) && store[ProfileKey] == EncodeProfile(synced.1)
    }

    /** Between handlers: the effect has caught up with memory. */
    ghost predicate Settled()
      reads this
    {
      Valid() && synced == (user, userProfile)
    }

    /** Hydrate both records, then run the mount effect, which always writes. */
    constructor (initial: Store)
      requires HydrateUser(initial).Decoded? && HydrateProfile(initial).Decoded?
      ensures user == HydrateUser(initial).value && userProfile == HydrateProfile(initial).value
      ensures store == Persisted(initial, user, userProfile)
      ensures Settled()
    {
      user := HydrateUser(initial).value;
      userProfile := HydrateProfile(initial).value;
      store := Persisted(initial, HydrateUser(initial).value, HydrateProfile(initial).value);
      synced := (HydrateUser(initial).value, HydrateProfile(initial).value);
    }

    /** `setUser` */
    method SetUser(v: Option<Session>)
      modifies this`user
      ensures user == v
    {
      user := v;
    }

    /** `setUserProfile` */
    method SetUserProfile(v: Option<Profile>)
      modifies this`userProfile
      ensures userProfile == v
    {
      userProfile := v;
    }

    /** `localStorage.removeItem(key)` */
    method RemoveItem(key: string)
      modifies this`store
      ensures store == old(store) - {key}
    {
      store := store - {key};
    }

    /** The persistence effect, run after the render that follows a handler: it writes both
        records when either differs from the values it last ran with. */
    method Flush()
      modifies this`store, this`synced
      ensures synced == (user, userProfile)
      ensures store == if old(synced) == (user, userProfile) then old(store) else Persisted(old(store), user, userProfile)
      ensures old(Valid()) || old(synced) != (user, userProfile) ==> Settled()
    {
      if synced != (user, userProfile) {
        store := Persisted(store, user, userProfile);
        synced := (user, userProfile);
      }
    }

    /** A handler's `setUser(u)` and `setUserProfile(p)`, followed by the effect run that the
        next render brings. */
    method Commit(u: Option<Session>, p: Option<Profile>)
      requires Settled()
      modifies this`user, this`userProfile, this`store, this`synced
      ensures Settled() && user == u && userProfile == p
      ensures store == if (u, p) == old((user, userProfile)) then old(store) else Persisted(old(store), u, p)
    {
      SetUser(u);
      SetUserProfile(p);
      Flush();
    }

    /** `login`: a 200 sign-in sets `user` first; the profile follows only on a 200 lookup.
        The sign-in response is returned, a sign-in error rethrown; lookup errors are swallowed. */
    method Login(email: string, password: string, signIn: Call<Session>, lookup: Call<UserRecord>)
      returns (sent: seq<Request>, response: Call<Session>)
      requires Settled()
      modifies this`user, this`userProfile, this`store, this`synced
      ensures Settled()
      ensures response == signIn
      ensures sent == [SignIn(email, password)] + (if Succeeded(signIn) then [GetUser(email, signIn.data.accessToken)] else [])
      ensures user == (if Succeeded(signIn) then Some(signIn.data) else old(user))
      ensures userProfile == (if Succeeded(signIn) && Succeeded(lookup) then Some(ProfileOf(lookup.data)) else old(userProfile))
      ensures store == if (user, userProfile) == old((user, userProfile)) then old(store) else Persisted(old(store), user, userProfile)
    {
      var call := AuthService.Login(email, password, signIn);
      sent := [call.0];
      response := call.1;
      if response.Ok? && response.status == 200 {
        SetUser(Some(response.data));
        var accessToken := response.data.accessToken;
        sent := sent + [GetUser(email, accessToken)];
        if lookup.Ok? && lookup.status == 200 {
          SetUserProfile(Some(ProfileOf(lookup.data)));
        }
      }
      Flush();
    }

    /** `register`: the auth service forces the roles; both records are set only when the
        sign-up and the lookup both answer 200. */
    method Register(userData: AuthService.UserData, signUp: Call<Session>, lookup: Call<UserRecord>)
      returns (sent: seq<Request>, response: Call<Session>)
      requires Settled()
      modifies this`user, this`userProfile, this`store, this`synced, userData
      ensures Settled()
      ensures userData.roles == Some(["USER"])
      ensures userData.email == old(userData.email) && userData.password == old(userData.password)
      ensures userData.fullName == old(userData.fullName) && userData.phone == old(userData.phone)
      ensures response == signUp
      ensures sent == [SignUp(userData.Body())] + (if Succeeded(signUp) then [GetUser(userData.email, signUp.data.accessToken)] else [])
      ensures Succeeded(signUp) && Succeeded(lookup) ==>
        user == Some(signUp.data) && userProfile == Some(ProfileOf(lookup.data))
      ensures !(Succeeded(signUp) && Succeeded(lookup)) ==>
        user == old(user) && userProfile == old(userProfile) && store == old(store)
      ensures store == if (user, userProfile) == old((user, userProfile)) then old(store) else Persisted(old(store), user, userProfile)
    {
      var request;
      request, response := AuthService.Register(userData, signUp);
      sent := [request];
      if response.Ok? && response.status == 200 {
        var accessToken := response.data.accessToken;
        sent := sent + [GetUser(userData.email, accessToken)];
        if lookup.Ok? && lookup.status == 200 {
          SetUser(Some(response.data));
          SetUserProfile(Some(ProfileOf(lookup.data)));
        }
      }
      Flush();
    }

    /** `logout`: sends the profile's e-mail and the stored token; clears both records and both
        keys only once the call resolves, after which the effect writes `null` under both keys.
        Reading a missing profile or stored user throws before anything is sent. */
    method Logout(answer: Call<()>) returns (sent: seq<Request>, thrown: Option<Failure>)
      requires Settled()
      modifies this`user, this`userProfile, this`store, this`synced
      ensures Settled()
      ensures old(userProfile).None? || old(user).None? ==>
        sent == [] && thrown == Some(Fault) && user == old(user) && userProfile == old(userProfile) && store == old(store)
      ensures old(userProfile).Some? && old(user).Some? ==>
        sent == [LogOut(old(userProfile).value.email, old(user).value.accessToken)]
      ensures old(userProfile).Some? && old(user).Some? && answer.Thrown? ==>
        thrown == Some(answer.failure) && user == old(user) && userProfile == old(userProfile) && store == old(store)
      ensures old(userProfile).Some? && old(user).Some? && answer.Ok? ==>
        thrown == None && user == None && userProfile == None && store == Persisted(old(store), None, None)
    {
      SettledToken(this);
      var token := StoredToken(store);
      if userProfile.None? || token.None? {
        sent, thrown := [], Some(Fault);
        return;
      }
      var call := AuthService.Logout(userProfile.value.email, token.value, answer);
      sent := [call.0];
      if call.1.Thrown? {
        thrown := Some(call.1.failure);
        return;
      }
      thrown := None;
      SetUser(None);
      SetUserProfile(None);
      RemoveItem(UserKey);
      RemoveItem(ProfileKey);
      PersistedOverwrites(old(store), None, None);
      Flush();
    }
  }

  /** Writing both keys makes earlier removals of them invisible. */
  lemma PersistedOverwrites(store: Store, u: Option<Session>, p: Option<Profile>)
    ensures Persisted(store - {UserKey} - {ProfileKey}, u, p) == Persisted(store, u, p)
  {
  }

  /** Between handlers the stored user parses to the one in memory. */
  lemma SettledToken(a: AuthProvider)
    requires a.Settled()
    ensures StoredToken(a.store) == if a.user.Some? then Some(a.user.value.accessToken) else None
  {
    DecodeEncodeSession(a.user);
  }

  /** Between handlers the store hydrates to exactly the records in memory: a reload reproduces them. */
  lemma SettledMirrors(a: AuthProvider)
    requires a.Settled()
    ensures HydrateUser(a.store) == Decoded(a.user)
    ensures HydrateProfile(a.store) == Decoded(a.userProfile)
  {
    HydratePersisted(a.store, a.user, a.userProfile);
    assert a.store == Persisted(a.store, a.user, a.userProfile);
  }
}
