/** The two records the session keeps, and the user record the user service answers with. */
module Records {
  import opened Values

  /** `user`: the body of a sign-in or sign-up response. `roles` is the role list such a body
      may carry; a session rebuilt from a user record has none. */
  datatype Session = Session(accessToken: string, refreshToken: string, roles: Option<seq<string>>)

  /** `userProfile`: the five fields copied out of a user record. */
  datatype Profile = Profile(id: int, fullName: string, email: string, password: string, roles: seq<string>)

  /** The body of a user-service response (lookup by e-mail, partial update). */
  datatype UserRecord = UserRecord(
    id: int, fullName: string, email: string, password: string, phone: string,
    roles: seq<string>, accessToken: string, refreshToken: string)

  /** The profile literal every handler builds from `userResponse.data`. */
  function ProfileOf(r: UserRecord): Profile {
    Profile(r.id, r.fullName, r.email, r.password, r.roles)
  }

  /** The `{accessToken, refreshToken}` literal that profile and password updates store as `user`. */
  function SessionOf(r: UserRecord): Session {
    Session(r.accessToken, r.refreshToken, None)
  }

  /** `user && user.accessToken` */
  predicate HasToken(u: Option<Session>) {
    u.Some? && u.value.accessToken != ""
  }

  /** The rebuilt profile keeps exactly the identity fields: phone and tokens never reach it,
      and every identity field does. */
  lemma ProfileOfFields(r: UserRecord, s: UserRecord)
    ensures ProfileOf(r) == ProfileOf(s) <==>
      r.id == s.id && r.fullName == s.fullName && r.email == s.email &&
      r.password == s.password && r.roles == s.roles
  {
  }
}
