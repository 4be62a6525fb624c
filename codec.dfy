/** The text the session store holds for `user` and `userProfile`: the JSON that
    `JSON.stringify` gives for these records, and a reader that parses it back. */
module Codec {
  import opened Values
  import opened Records

  /** The result of `JSON.parse`: a value, or the exception it throws. */
  datatype Decoded<+T> = Decoded(value: T) | Malformed

  const NullText := "null"

  // ---------------------------------------------------------------- literals

  /** Strips the literal `p` off the front of `s`. */
  function Lit(p: string, s: string): Option<string> {
    if p <= s then Some(s[|p|..]) else None
  }

  lemma LitPrefix(p: string, rest: string)
    ensures Lit(p, p + rest) == Some(rest)
  {
    assert p <= p + rest;
    assert (p + rest)[|p|..] == rest;
  }

  // ---------------------------------------------------------------- strings

  /** Backslash before every quote and backslash. */
  function Escape(s: string): string {
    if s == [] then [] else (if s[0] == '"' || s[0] == '\\' then ['\\', s[0]] else [s[0]]) + Escape(s[1..])
  }

  function Quote(s: string): string {
    "\"" + Escape(s) + "\""
  }

  /** Reads an escaped body up to its unescaped closing quote: the text and what follows it. */
  function Unescape(s: string): (r: Option<(string, string)>)
    ensures r.Some? ==> |r.value.1| < |s|
    decreases |s|
  {
    if s == [] then None
    else if s[0] == '"' then Some(([], s[1..]))
    else if s[0] == '\\' then
      if |s| < 2 then None
      else
        var p :- Unescape(s[2..]);
        Some(([s[1]] + p.0, p.1))
    else
      var p :- Unescape(s[1..]);
      Some(([s[0]] + p.0, p.1))
  }

  function ReadString(s: string): (r: Option<(string, string)>)
    ensures r.Some? ==> |r.value.1| < |s|
  {
    if |s| > 0 && s[0] == '"' then Unescape(s[1..]) else None
  }

  lemma {:induction false} UnescapeEscape(x: string, rest: string)
    ensures Unescape(Escape(x) + "\"" + rest) == Some((x, rest))
  {
    if x == [] {
      assert Escape(x) + "\"" + rest == "\"" + rest;
      assert ("\"" + rest)[1..] == rest;
    } else {
      UnescapeEscape(x[1..], rest);
      var t := Escape(x[1..]) + "\"" + rest;
      assert [x[0]] + x[1..] == x;
      if x[0] == '"' || x[0] == '\\' {
        assert Escape(x) + "\"" + rest == ['\\', x[0]] + t;
        assert (['\\', x[0]] + t)[2..] == t;
      } else {
        assert Escape(x) + "\"" + rest == [x[0]] + t;
        assert ([x[0]] + t)[1..] == t;
      }
    }
  }

  lemma ReadQuote(x: string, rest: string)
    ensures ReadString(Quote(x) + rest) == Some((x, rest))
  {
    assert Quote(x) + rest == "\"" + (Escape(x) + "\"" + rest);
    assert (Quote(x) + rest)[1..] == Escape(x) + "\"" + rest;
    UnescapeEscape(x, rest);
  }

  // ---------------------------------------------------------------- string arrays

  /** `,"x"` for every element. */
  function More(xs: seq<string>): string {
    if xs == [] then [] else "," + Quote(xs[0]) + More(xs[1..])
  }

  function ListText(xs: seq<string>): string {
    "[" + (if xs == [] then "" else Quote(xs[0]) + More(xs[1..])) + "]"
  }

  /** Reads `,"x"` items up to the closing bracket. */
  function ReadMore(s: string): (r: Option<(seq<string>, string)>)
    ensures r.Some? ==> |r.value.1| < |s|
    decreases |s|
  {
    if |s| > 0 && s[0] == ']' then Some(([], s[1..]))
    else if |s| > 0 && s[0] == ',' then
      var p :- ReadString(s[1..]);
      var q :- ReadMore(p.1);
      Some(([p.0] + q.0, q.1))
    else None
  }

  function ReadList(s: string): Option<(seq<string>, string)> {
    if |s| > 0 && s[0] == '[' then
      var r := s[1..];
      if |r| > 0 && r[0] == ']' then Some(([], r[1..]))
      else
        var p :- ReadString(r);
        var q :- ReadMore(p.1);
        Some(([p.0] + q.0, q.1))
    else None
  }

  lemma {:induction false} ReadMoreRoundTrip(xs: seq<string>, rest: string)
    ensures ReadMore(More(xs) + "]" + rest) == Some((xs, rest))
  {
    if xs == [] {
      assert More(xs) + "]" + rest == "]" + rest;
      assert ("]" + rest)[1..] == rest;
    } else {
      var t := More(xs[1..]) + "]" + rest;
      var s := More(xs) + "]" + rest;
      assert s == "," + (Quote(xs[0]) + t);
      assert s[1..] == Quote(xs[0]) + t;
      ReadQuote(xs[0], t);
      ReadMoreRoundTrip(xs[1..], rest);
      assert [xs[0]] + xs[1..] == xs;
    }
  }

  lemma ReadListRoundTrip(xs: seq<string>, rest: string)
    ensures ReadList(ListText(xs) + rest) == Some((xs, rest))
  {
    var s := ListText(xs) + rest;
    if xs == [] {
      assert s == "[" + ("]" + rest);
      assert s[1..] == "]" + rest;
      assert s[1..][1..] == rest;
    } else {
      var t := More(xs[1..]) + "]" + rest;
      assert s == "[" + (Quote(xs[0]) + t);
      assert s[1..] == Quote(xs[0]) + t;
      ReadQuote(xs[0], t);
      ReadMoreRoundTrip(xs[1..], rest);
      assert [xs[0]] + xs[1..] == xs;
    }
  }

  // ---------------------------------------------------------------- integers

  predicate IsDigit(c: char) {
    '0' <= c <= '9'
  }

  predicate AllDigits(s: string) {
    forall i :: 0 <= i < |s| ==> IsDigit(s[i])
  }

  function DigitChar(d: nat): (c: char)
    requires d < 10
    ensures IsDigit(c) && c as int - '0' as int == d
  {
    ('0' as int + d) as char
  }

  /** Decimal digits of a natural number, no leading zeros. */
  function ShowNat(n: nat): (s: string)
    ensures |s| > 0 && AllDigits(s)
  {
    if n < 10 then [DigitChar(n)] else ShowNat(n / 10) + [DigitChar(n % 10)]
  }

  function DigitsValue(d: string): nat
    requires AllDigits(d)
  {
    if d == [] then 0 else DigitsValue(d[..|d| - 1]) * 10 + (d[|d| - 1] as int - '0' as int)
  }

  lemma {:induction false} DigitsValueShowNat(n: nat)
    ensures DigitsValue(ShowNat(n)) == n
  {
    if n >= 10 {
      DigitsValueShowNat(n / 10);
      var s := ShowNat(n / 10) + [DigitChar(n % 10)];
      assert s[..|s| - 1] == ShowNat(n / 10);
    }
  }

  /** Splits off the longest run of leading digits. */
  function Span(s: string): (r: (string, string))
    ensures AllDigits(r.0) && r.0 + r.1 == s
  {
    if |s| > 0 && IsDigit(s[0]) then
      var p := Span(s[1..]);
      var d := [s[0]] + p.0;
      assert d[0] == s[0] && d[1..] == p.0;
      assert forall i :: 1 <= i < |d| ==> d[i] == p.0[i - 1];
      assert d + p.1 == s by { assert [s[0]] + s[1..] == s; }
      (d, p.1)
    else ([], s)
  }

  lemma {:induction false} SpanDigits(d: string, rest: string)
    requires AllDigits(d)
    requires rest == [] || !IsDigit(rest[0])
    ensures Span(d + rest) == (d, rest)
  {
    if d != [] {
      assert (d + rest)[1..] == d[1..] + rest;
      SpanDigits(d[1..], rest);
      assert [d[0]] + d[1..] == d;
    } else {
      assert d + rest == rest;
    }
  }

  function ShowInt(n: int): string {
    if n < 0 then "-" + ShowNat(-n) else ShowNat(n)
  }

  /** Reads a non-empty run of digits. */
  function ReadNat(s: string): Option<(nat, string)> {
    var p := Span(s);
    if p.0 == [] then None else Some((DigitsValue(p.0), p.1))
  }

  /** Reads an optional minus sign and a run of digits. */
  function ReadInt(s: string): Option<(int, string)> {
    if |s| > 0 && s[0] == '-' then
      var p :- ReadNat(s[1..]);
      Some((-(p.0 as int), p.1))
    else
      var p :- ReadNat(s);
      Some((p.0 as int, p.1))
  }

  /** The digits of a natural number read back as that number when no digit follows them. */
  lemma ReadNatRoundTrip(n: nat, rest: string)
    requires rest == [] || !IsDigit(rest[0])
    ensures ReadNat(ShowNat(n) + rest) == Some((n, rest))
  {
    SpanDigits(ShowNat(n), rest);
    DigitsValueShowNat(n);
  }

  lemma ReadIntRoundTrip(n: int, rest: string)
    requires rest == [] || !IsDigit(rest[0])
    ensures ReadInt(ShowInt(n) + rest) == Some((n, rest))
  {
    if n < 0 {
      ReadSigned(-n, rest);
    } else {
      ReadNatRoundTrip(n, rest);
      var s := ShowNat(n) + rest;
      assert s[0] != '-' by { assert IsDigit(ShowNat(n)[0]); }
      assert ReadInt(s) == Some((n, rest));
    }
  }

  lemma ReadSigned(m: nat, rest: string)
    requires m > 0
    requires rest == [] || !IsDigit(rest[0])
    ensures ReadInt("-" + ShowNat(m) + rest) == Some((-(m as int), rest))
  {
    ReadNatRoundTrip(m, rest);
    var s := "-" + ShowNat(m) + rest;
    assert s[0] == '-' && s[1..] == ShowNat(m) + rest;
  }

  // ---------------------------------------------------------------- JSON values

  /** The JSON values the stored records are made of. */
  datatype Json = JNull | JString(text: string) | JInt(n: int) | JArray(items: seq<Json>) | JObject(members: seq<Member>)

  /** An object member: its key and its value. */
  datatype Member = Member(key: string, value: Json)

  /** `JSON.stringify` without indentation: members in insertion order, strings escaped. */
  function Stringify(j: Json): string {
    match j
    case JNull => NullText
    case JString(x) => Quote(x)
    case JInt(n) => ShowInt(n)
    case JArray(items) => "[" + Items(items, "") + "]"
    case JObject(ms) => "{" + Members(ms, "") + "}"
  }

  /** Array items: `sep` before the first, a comma before each later one. */
  function Items(items: seq<Json>, sep: string): string {
    if items == [] then "" else sep + Stringify(items[0]) + Items(items[1..], ",")
  }

  /** Object members `"key":value`: `sep` before the first, a comma before each later one.
      The records' keys are plain identifiers, which need no escaping. */
  function Members(ms: seq<Member>, sep: string): string {
    if ms == [] then "" else sep + "\"" + ms[0].key + "\":" + Stringify(ms[0].value) + Members(ms[1..], ",")
  }

  /** A string array as a JSON value. */
  function Strings(xs: seq<string>): (j: seq<Json>)
    ensures |j| == |xs| && forall i :: 0 <= i < |xs| ==> j[i] == JString(xs[i])
  {
    seq(|xs|, i requires 0 <= i < |xs| => JString(xs[i]))
  }

  lemma {:induction false} ItemsStrings(xs: seq<string>)
    ensures Items(Strings(xs), ",") == More(xs)
  {
    if xs != [] {
      ItemsStrings(xs[1..]);
      assert Strings(xs)[1..] == Strings(xs[1..]);
    }
  }

  /** `JSON.stringify` of a string array is the list text the reader expects. */
  lemma StringifyStrings(xs: seq<string>)
    ensures Stringify(JArray(Strings(xs))) == ListText(xs)
  {
    if xs != [] {
      ItemsStrings(xs[1..]);
      assert Strings(xs)[1..] == Strings(xs[1..]);
      assert Items(Strings(xs), "") == Quote(xs[0]) + More(xs[1..]);
    }
  }

  // ---------------------------------------------------------------- session

  const AccessKey := "{\"accessToken\":"
  const RefreshKey := ",\"refreshToken\":"
  const RolesKey := ",\"roles\":"
  const Close := "}"

  function RolesText(roles: Option<seq<string>>): string {
    match roles
    case None => ""
    case Some(rs) => RolesKey + ListText(rs)
  }

  function SessionText(s: Session): string {
    AccessKey + (Quote(s.accessToken) + (RefreshKey + (Quote(s.refreshToken) + (RolesText(s.roles) + Close))))
  }

  /** `user` as a JSON value: `null`, or its two tokens followed by its roles when it has them
      (`JSON.stringify` leaves out a member whose value is `undefined`). */
  function SessionValue(u: Option<Session>): Json {
    match u
    case None => JNull
    case Some(s) =>
      JObject([Member("accessToken", JString(s.accessToken)), Member("refreshToken", JString(s.refreshToken))] +
        (if s.roles.Some? then [Member("roles", JArray(Strings(s.roles.value)))] else []))
  }

  /** `JSON.stringify(user)`, `"null"` included. */
  function EncodeSession(u: Option<Session>): string {
    Stringify(SessionValue(u))
  }

  /** The optional roles member is the text the session reader expects after the tokens. */
  lemma RolesStringify(roles: Option<seq<string>>)
    ensures Members(if roles.Some? then [Member("roles", JArray(Strings(roles.value)))] else [], ",") == RolesText(roles)
  {
    if roles.Some? {
      var m := Member("roles", JArray(Strings(roles.value)));
      MembersCons(m, [], ",");
      assert [m] + [] == [m];
      StringifyStrings(roles.value);
      RolesKeyText();
      var k, l := "," + "\"" + "roles" + "\":", ListText(roles.value);
      assert k + l + "" == k + l;
    }
  }

  lemma RolesKeyText()
    ensures "," + "\"" + "roles" + "\":" == RolesKey
  {
  }

  /** The first member of an object, then the rest after a comma. */
  lemma MembersCons(m: Member, ms: seq<Member>, sep: string)
    ensures Members([m] + ms, sep) == sep + "\"" + m.key + "\":" + Stringify(m.value) + Members(ms, ",")
  {
    assert ([m] + ms)[1..] == ms;
  }

  /** The token member keys as the reader expects them. */
  lemma SessionKeys()
    ensures "" + "\"" + "accessToken" + "\":" == AccessKey[1..] && AccessKey == "{" + AccessKey[1..]
    ensures "," + "\"" + "refreshToken" + "\":" == RefreshKey
  {
  }

  /** Regrouping the session text around its braces. */
  lemma SessionLayout(k1: string, a: string, k2: string, r: string, roles: string)
    ensures "{" + (k1 + a + (k2 + r + roles)) + "}" == ("{" + k1) + (a + (k2 + (r + (roles + "}"))))
  {
  }

  /** The stored text of a session is the text the session reader expects. */
  lemma SessionStringify(s: Session)
    ensures EncodeSession(Some(s)) == SessionText(s)
  {
    var rest := if s.roles.Some? then [Member("roles", JArray(Strings(s.roles.value)))] else [];
    var access, refresh := Member("accessToken", JString(s.accessToken)), Member("refreshToken", JString(s.refreshToken));
    assert SessionValue(Some(s)) == JObject([access] + ([refresh] + rest));
    RolesStringify(s.roles);
    MembersCons(refresh, rest, ",");
    MembersCons(access, [refresh] + rest, "");
    SessionKeys();
    SessionLayout(AccessKey[1..], Quote(s.accessToken), RefreshKey, Quote(s.refreshToken), RolesText(s.roles));
  }

  /** Reads `key` followed by a quoted string. */
  function ReadField(key: string, s: string): Option<(string, string)> {
    var r :- Lit(key, s);
    ReadString(r)
  }

  lemma ReadFieldRoundTrip(key: string, x: string, rest: string)
    ensures ReadField(key, key + (Quote(x) + rest)) == Some((x, rest))
  {
    LitPrefix(key, Quote(x) + rest);
    ReadQuote(x, rest);
  }

  /** Reads the optional `,"roles":[...]` member. */
  function ReadRoles(s: string): Option<(Option<seq<string>>, string)> {
    if RolesKey <= s then
      var rs :- ReadList(s[|RolesKey|..]);
      Some((Some(rs.0), rs.1))
    else Some((None, s))
  }

  lemma ReadRolesRoundTrip(roles: Option<seq<string>>)
    ensures ReadRoles(RolesText(roles) + Close) == Some((roles, Close))
  {
    match roles
    case None =>
      assert RolesText(roles) + Close == Close;
      assert !(RolesKey <= Close);
    case Some(rs) =>
      var t := RolesText(roles) + Close;
      assert t == RolesKey + (ListText(rs) + Close);
      assert RolesKey <= t;
      assert t[|RolesKey|..] == ListText(rs) + Close;
      ReadListRoundTrip(rs, Close);
  }

  function ReadSession(s: string): Option<(Session, string)> {
    var a :- ReadField(AccessKey, s);
    var b :- ReadField(RefreshKey, a.1);
    var roles :- ReadRoles(b.1);
    var r :- Lit(Close, roles.1);
    Some((Session(a.0, b.0, roles.0), r))
  }

  /** `JSON.parse` of a stored `user` text. */
  function DecodeSession(text: string): Decoded<Option<Session>> {
    if text == NullText then Decoded(None)
    else
      match ReadSession(text)
      case Some(p) => if p.1 == [] then Decoded(Some(p.0)) else Malformed
      case None => Malformed
  }

  lemma ReadSessionText(s: Session)
    ensures ReadSession(SessionText(s)) == Some((s, []))
  {
    var tail := RolesText(s.roles) + Close;
    var t1 := RefreshKey + (Quote(s.refreshToken) + tail);
    assert SessionText(s) == AccessKey + (Quote(s.accessToken) + t1);
    ReadFieldRoundTrip(AccessKey, s.accessToken, t1);
    ReadFieldRoundTrip(RefreshKey, s.refreshToken, tail);
    ReadRolesRoundTrip(s.roles);
    LitPrefix(Close, []);
    assert Close + [] == Close;
  }

  /** Parsing what was stored gives back the stored value, `null` included. */
  lemma DecodeEncodeSession(u: Option<Session>)
    ensures DecodeSession(EncodeSession(u)) == Decoded(u)
  {
    if u.Some? {
      SessionStringify(u.value);
      ReadSessionText(u.value);
      assert SessionText(u.value)[0] == '{';
    }
  }

  // ---------------------------------------------------------------- profile

  const IdKey := "{\"id\":"
  const FullNameKey := ",\"fullName\":"
  const EmailKey := ",\"email\":"
  const PasswordKey := ",\"password\":"

  /** The three quoted members after the id. */
  function NamesText(p: Profile): string {
    FullNameKey + (Quote(p.fullName) + (EmailKey + (Quote(p.email) + (PasswordKey + Quote(p.password)))))
  }

  function ProfileText(p: Profile): string {
    IdKey + (ShowInt(p.id) + (NamesText(p) + (RolesKey + (ListText(p.roles) + Close))))
  }

  /** `userProfile` as a JSON value: `null`, or its five members in the order the handlers build them. */
  function ProfileValue(p: Option<Profile>): Json {
    match p
    case None => JNull
    case Some(q) =>
      JObject([Member("id", JInt(q.id)), Member("fullName", JString(q.fullName)), Member("email", JString(q.email)),
               Member("password", JString(q.password)), Member("roles", JArray(Strings(q.roles)))])
  }

  /** `JSON.stringify(userProfile)`, `"null"` included. */
  function EncodeProfile(p: Option<Profile>): string {
    Stringify(ProfileValue(p))
  }

  /** The member keys as the reader expects them. */
  lemma ProfileKeys()
    ensures "" + "\"" + "id" + "\":" == IdKey[1..] && IdKey == "{" + IdKey[1..]
    ensures "," + "\"" + "fullName" + "\":" == FullNameKey
    ensures "," + "\"" + "email" + "\":" == EmailKey
    ensures "," + "\"" + "password" + "\":" == PasswordKey
  {
  }

  /** The stored text of a profile is the text the profile reader expects. */
  lemma ProfileStringify(p: Profile)
    ensures EncodeProfile(Some(p)) == ProfileText(p)
  {
    var id, name, email, password, roles :=
      Member("id", JInt(p.id)), Member("fullName", JString(p.fullName)), Member("email", JString(p.email)),
      Member("password", JString(p.password)), Member("roles", JArray(Strings(p.roles)));
    assert ProfileValue(Some(p)) == JObject([id] + ([name] + ([email] + ([password] + ([roles] + [])))));
    ProfileKeys();
    RolesKeyText();
    StringifyStrings(p.roles);
    MembersCons(roles, [], ",");
    var m4 := RolesKey + ListText(p.roles);
    assert Members([roles], ",") == m4;
    MembersCons(password, [roles], ",");
    var m3 := PasswordKey + Quote(p.password) + m4;
    assert Members([password, roles], ",") == m3;
    MembersCons(email, [password, roles], ",");
    var m2 := EmailKey + Quote(p.email) + m3;
    assert Members([email, password, roles], ",") == m2;
    MembersCons(name, [email, password, roles], ",");
    var m1 := FullNameKey + Quote(p.fullName) + m2;
    assert Members([name, email, password, roles], ",") == m1;
    MembersCons(id, [name, email, password, roles], "");
    NamesLayout(FullNameKey, Quote(p.fullName), EmailKey, Quote(p.email), PasswordKey, Quote(p.password), m4);
    assert Members([id, name, email, password, roles], "") == IdKey[1..] + ShowInt(p.id) + m1;
    ProfileLayout(IdKey[1..], ShowInt(p.id), NamesText(p), RolesKey, ListText(p.roles));
  }

  /** Regrouping the three name members. */
  lemma NamesLayout(k1: string, f: string, k2: string, e: string, k3: string, w: string, rest: string)
    ensures k1 + f + (k2 + e + (k3 + w + rest)) == (k1 + (f + (k2 + (e + (k3 + w))))) + rest
  {
  }

  /** Regrouping the whole profile text around its braces. */
  lemma ProfileLayout(key: string, i: string, names: string, k: string, l: string)
    ensures "{" + (key + i + (names + (k + l))) + "}" == ("{" + key) + (i + (names + (k + (l + "}"))))
  {
  }

  /** Reads the three quoted members after the id. */
  function ReadNames(s: string): Option<((string, string, string), string)> {
    var name :- ReadField(FullNameKey, s);
    var email :- ReadField(EmailKey, name.1);
    var password :- ReadField(PasswordKey, email.1);
    Some(((name.0, email.0, password.0), password.1))
  }

  function ReadProfile(s: string): Option<(Profile, string)> {
    var r0 :- Lit(IdKey, s);
    var id :- ReadInt(r0);
    var names :- ReadNames(id.1);
    var r4 :- Lit(RolesKey, names.1);
    var roles :- ReadList(r4);
    var r5 :- Lit(Close, roles.1);
    Some((Profile(id.0, names.0.0, names.0.1, names.0.2, roles.0), r5))
  }

  /** `JSON.parse` of a stored `userProfile` text. */
  function DecodeProfile(text: string): Decoded<Option<Profile>> {
    if text == NullText then Decoded(None)
    else
      match ReadProfile(text)
      case Some(p) => if p.1 == [] then Decoded(Some(p.0)) else Malformed
      case None => Malformed
  }

  lemma ReadNamesText(p: Profile, rest: string)
    ensures ReadNames(NamesText(p) + rest) == Some(((p.fullName, p.email, p.password), rest))
  {
    var t3 := PasswordKey + (Quote(p.password) + rest);
    var t2 := EmailKey + (Quote(p.email) + t3);
    assert NamesText(p) + rest == FullNameKey + (Quote(p.fullName) + t2);
    ReadFieldRoundTrip(FullNameKey, p.fullName, t2);
    ReadFieldRoundTrip(EmailKey, p.email, t3);
    ReadFieldRoundTrip(PasswordKey, p.password, rest);
  }

  lemma ReadProfileText(p: Profile)
    ensures ReadProfile(ProfileText(p)) == Some((p, []))
  {
    var t5 := ListText(p.roles) + Close;
    var t4 := RolesKey + t5;
    var t1 := NamesText(p) + t4;
    LitPrefix(IdKey, ShowInt(p.id) + t1);
    assert NamesText(p)[0] == ',';
    ReadIntRoundTrip(p.id, t1);
    ReadNamesText(p, t4);
    LitPrefix(RolesKey, t5);
    ReadListRoundTrip(p.roles, Close);
    LitPrefix(Close, []);
    assert Close + [] == Close;
  }

  /** Parsing what was stored gives back the stored value, `null` included. */
  lemma DecodeEncodeProfile(p: Option<Profile>)
    ensures DecodeProfile(EncodeProfile(p)) == Decoded(p)
  {
    if p.Some? {
      ProfileStringify(p.value);
      ReadProfileText(p.value);
      assert ProfileText(p.value)[0] == '{';
    }
  }

  /** Two values are stored as the same text only if they are equal. */
  lemma EncodingsInjective(u: Option<Session>, v: Option<Session>, p: Option<Profile>, q: Option<Profile>)
    ensures EncodeSession(u) == EncodeSession(v) ==> u == v
    ensures EncodeProfile(p) == EncodeProfile(q) ==> p == q
  {
    DecodeEncodeSession(u);
    DecodeEncodeSession(v);
    DecodeEncodeProfile(p);
    DecodeEncodeProfile(q);
  }
}
