/** The admin's course list: stores whatever the service returns and renders it in a grid
    whose width depends on the session's roles. Neither panel renders it: both import the
    common course list (src/admin/AdminPanel.jsx:22, src/user/UserPanel.jsx:7). */
module AdminListCourse {
  import opened Values
  import opened Records
  import opened Remote
  import opened Display
  import opened Codec

  const Unavailable := "Service is currently unavailable. Please try again later."
  const NotFound := "Sorry, we couldn't find the course you were looking for. Please contact support for assistance."
  const Generic := "An error occurred while fetching courses. Please try again."
  const NoResponse := "No response from the server. Please check your network connection."
  const Unexpected := "An unexpected error occurred. Please try again."
  const Empty := "No Courses Available !!"

  /** The catch block's table. */
  function ErrorMessage(s: Shape): string {
    match s
    case HasResponse(status, _) =>
      if status == 503 then Unavailable else if status == 404 then NotFound else Generic
    case RequestOnly => NoResponse
    case NotSent => Unexpected
  }

  /** `user?.roles?.includes("ADMIN")`: read from the session, not the profile. */
  predicate IsAdmin(user: Option<Session>) {
    user.Some? && user.value.roles.Some? && "ADMIN" in user.value.roles.value
  }

  /** A session rebuilt from a user record carries no roles, so it never counts as an admin's. */
  lemma RebuiltSessionIsNotAdmin(r: UserRecord)
    ensures !IsAdmin(Some(SessionOf(r)))
  {
  }

  /** The grid lemmas below are arithmetic over widths fixed by the markup of
      src/admin/ListCourseComponent.jsx:54-97 (the column class, the header list and the three
      cells of each row); they rest on that markup, not on any state the component computes. */
  function GridColumns(isAdmin: bool): nat {
    if isAdmin then 3 else 2
  }

  function Headers(isAdmin: bool): seq<string> {
    ["Course Title", "Course Code"] + (if isAdmin then ["Action"] else [])
  }

  /** Every row renders title, code and the two icons, whatever the role. */
  const RowCells: nat := 3

  /** The header row always fills the grid exactly. */
  lemma HeadersFitGrid(isAdmin: bool)
    ensures |Headers(isAdmin)| == GridColumns(isAdmin)
  {
  }

  /** As written, a non-admin grid of two columns shifts from the first row on: the header and
      one row give five cells. */
  lemma RowsOverflowGrid()
    ensures (|Headers(false)| + 1 * RowCells) % GridColumns(false) != 0
    ensures RowCells != GridColumns(false)
  {
  }

  /** Rows as wide as the header row: the icons cell only for an admin. */
  function FittedRowCells(isAdmin: bool): (n: nat)
    ensures n == |Headers(isAdmin)|
  {
    if isAdmin then 3 else 2
  }

  /** With fitted rows, any number of rows completes the grid. */
  lemma {:induction false} FittedRowsAlign(isAdmin: bool, rows: nat)
    ensures (|Headers(isAdmin)| + rows * FittedRowCells(isAdmin)) % GridColumns(isAdmin) == 0
  {
    var g := GridColumns(isAdmin);
    assert |Headers(isAdmin)| + rows * FittedRowCells(isAdmin) == (rows + 1) * g;
  }

  /** The characters `Number(...)` strips from both ends of a string: the white space and line
      terminators of section 7.2 and 7.3 of ECMA-262 (tab, vertical tab, form feed, space,
      no-break space, the byte order mark, the Unicode space separators, line feed, carriage
      return, line and paragraph separator). */
  predicate IsSpace(c: char) {
    c == '\t' || c == '\n' || c == '\U{000B}' || c == '\U{000C}' || c == '\r' || c == ' ' ||
    c == '\U{00A0}' || c == '\U{1680}' || ('\U{2000}' <= c <= '\U{200A}') ||
    c == '\U{2028}' || c == '\U{2029}' || c == '\U{202F}' || c == '\U{205F}' || c == '\U{3000}' ||
    c == '\U{FEFF}'
  }

  predicate AllSpaces(w: string) {
    forall i :: 0 <= i < |w| ==> IsSpace(w[i])
  }

  /** Drops the leading white space; `TrimStartSpec` says what was dropped. */
  function TrimStart(s: string): (t: string)
    ensures |t| <= |s| && t == s[|s| - |t|..]
    ensures t == [] || !IsSpace(t[0])
  {
    if |s| > 0 && IsSpace(s[0]) then TrimStart(s[1..]) else s
  }

  /** Drops the trailing white space; `TrimEndSpec` says what was dropped. */
  function TrimEnd(s: string): (t: string)
    ensures |t| <= |s| && t == s[..|t|]
    ensures t == [] || !IsSpace(t[|t| - 1])
  {
    if |s| > 0 && IsSpace(s[|s| - 1]) then TrimEnd(s[..|s| - 1]) else s
  }

  /** Only white space is dropped from the front, and the rest starts with something else. */
  lemma {:induction false} TrimStartSpec(s: string)
    ensures AllSpaces(s[..|s| - |TrimStart(s)|])
  {
    if |s| > 0 && IsSpace(s[0]) {
      TrimStartSpec(s[1..]);
      var k := |s| - |TrimStart(s)|;
      assert forall i :: 1 <= i < k ==> s[..k][i] == s[1..][..k - 1][i - 1];
    }
  }

  /** Only white space is dropped from the end, and the rest ends with something else. */
  lemma {:induction false} TrimEndSpec(s: string)
    ensures AllSpaces(s[|TrimEnd(s)|..])
  {
    if |s| > 0 && IsSpace(s[|s| - 1]) {
      var init := s[..|s| - 1];
      TrimEndSpec(init);
      var k := |TrimEnd(s)|;
      assert forall i :: k <= i < |s| - 1 ==> s[i] == init[i];
      assert forall i :: 0 <= i < |s| - k ==> s[k..][i] == s[k + i];
    }
  }

  /** The digits of a decimal numeral without its sign: an integer part, then optionally a point
      and a fraction part; `None` when the text is not of that form or has no digit at all. */
  function DecimalDigits(body: string): (r: Option<string>)
    ensures r.Some? ==> |r.value| > 0 && AllDigits(r.value)
  {
    var p := Span(body);
    if p.1 == [] && p.0 != [] then Some(p.0)
    else if |p.1| > 0 && p.1[0] == '.' && AllDigits(p.1[1..]) && |p.0| + |p.1| > 1 then
      var d := p.0 + p.1[1..];
      assert forall i :: |p.0| <= i < |d| ==> d[i] == p.1[1..][i - |p.0|];
      Some(d)
    else None
  }

  predicate NonZeroDigit(c: char) {
    '1' <= c <= '9'
  }

  predicate HasNonZeroDigit(d: string) {
    exists i :: 0 <= i < |d| && NonZeroDigit(d[i])
  }

  /** The text after an optional leading `+` or `-`. */
  function Unsigned(t: string): string {
    if |t| > 0 && (t[0] == '-' || t[0] == '+') then t[1..] else t
  }

  /** `Number(s) > 0` for a string: trimmed, an optional `+` or `-`, then a decimal numeral; it is
      positive when it has no minus sign and some digit is not zero. */
  predicate PositiveNumeral(s: string) {
    PositiveTrimmed(TrimEnd(TrimStart(s)))
  }

  /** The same test on text with no surrounding space. */
  predicate PositiveTrimmed(t: string) {
    !(|t| > 0 && t[0] == '-') && DecimalDigits(Unsigned(t)).Some? && HasNonZeroDigit(DecimalDigits(Unsigned(t)).value)
  }

  /** `courses.length > 0` on a non-array body: `undefined` and `null` are not positive, a number
      compares as itself and a string as the number it reads as. */
  predicate HasPositiveLength(raw: Record) {
    "length" in raw &&
    match raw["length"]
    case Null => false
    case Num(n) => n > 0
    case Text(s) => PositiveNumeral(s)
  }

  /** Digits spell zero exactly when each of them is `0`. */
  lemma {:induction false} DigitsValuePositive(d: string)
    requires AllDigits(d)
    ensures DigitsValue(d) > 0 <==> HasNonZeroDigit(d)
  {
    if d != [] {
      var init := d[..|d| - 1];
      DigitsValuePositive(init);
      assert forall i :: 0 <= i < |init| ==> init[i] == d[i];
      if DigitsValue(init) > 0 {
        var i :| 0 <= i < |init| && NonZeroDigit(init[i]);
        assert NonZeroDigit(d[i]);
      }
      if HasNonZeroDigit(d) {
        var i :| 0 <= i < |d| && NonZeroDigit(d[i]);
        if i < |init| { assert NonZeroDigit(init[i]); }
      }
    }
  }

  /** For a string with no space at either end, reading it is the test on the trimmed text. */
  lemma TrimmedReads(s: string)
    requires |s| > 0 && !IsSpace(s[0]) && !IsSpace(s[|s| - 1])
    ensures PositiveNumeral(s) == PositiveTrimmed(s)
  {
    assert TrimStart(s) == s;
    assert TrimEnd(s) == s;
  }

  /** An unsigned, trimmed numeral is positive exactly when one of its digits is not zero. */
  lemma UnsignedNumeral(s: string, d: string)
    requires |s| > 0 && s[0] != '-' && s[0] != '+'
    requires DecimalDigits(s) == Some(d)
    ensures PositiveTrimmed(s) <==> HasNonZeroDigit(d)
  {
    assert Unsigned(s) == s;
  }

  /** A number's own decimal text compares with zero as the number does. */
  lemma PositiveNumeralShowInt(n: int)
    ensures PositiveNumeral(ShowInt(n)) <==> n > 0
  {
    var s := ShowInt(n);
    if n < 0 {
      var m := ShowNat(-n);
      assert s == "-" + m && s[|s| - 1] == m[|m| - 1];
      TrimmedReads(s);
      MinusTrimmed(s);
    } else {
      var m := ShowNat(n);
      TrimmedReads(m);
      assert IsDigit(m[0]);
      SpanDigits(m, []);
      assert m + [] == m;
      assert DecimalDigits(m) == Some(m);
      DigitsValueShowNat(n);
      DigitsValuePositive(m);
      assert s == m;
      UnsignedNumeral(m, m);
    }
  }

  /** A `length` written as a string of the number's digits decides the same branch as the number. */
  lemma LengthTextLikeNumber(raw: Record, n: int)
    ensures HasPositiveLength(raw["length" := Text(ShowInt(n))]) <==> HasPositiveLength(raw["length" := Num(n)])
  {
    PositiveNumeralShowInt(n);
  }

  /** White space in front is skipped whatever follows it. */
  lemma {:induction false} TrimStartSpaces(w: string, x: string)
    requires AllSpaces(w)
    ensures TrimStart(w + x) == TrimStart(x)
  {
    if w != [] {
      assert (w + x)[0] == w[0] && (w + x)[1..] == w[1..] + x;
      TrimStartSpaces(w[1..], x);
    } else {
      assert w + x == x;
    }
  }

  /** Once something other than white space is reached, the rest is kept as it is. */
  lemma {:induction false} TrimStartAppend(p: string, q: string)
    requires TrimStart(p) != []
    ensures TrimStart(p + q) == TrimStart(p) + q
  {
    assert (p + q)[0] == p[0];
    if IsSpace(p[0]) {
      assert (p + q)[1..] == p[1..] + q;
      TrimStartAppend(p[1..], q);
    }
  }

  /** White space at the end is dropped whatever comes before it. */
  lemma {:induction false} TrimEndSpaces(x: string, w: string)
    requires AllSpaces(w)
    ensures TrimEnd(x + w) == TrimEnd(x)
  {
    if w != [] {
      var v := w[..|w| - 1];
      assert (x + w)[|x + w| - 1] == w[|w| - 1];
      assert (x + w)[..|x + w| - 1] == x + v;
      TrimEndSpaces(x, v);
    } else {
      assert x + w == x;
    }
  }

  /** A string of white space stays blank with more white space after it. */
  lemma BlankAppend(s: string, w: string)
    requires TrimStart(s) == [] && AllSpaces(w)
    ensures TrimStart(s + w) == []
  {
    TrimStartSpec(s);
    assert s[..|s|] == s;
    TrimStartSpaces(s, w);
    TrimStartSpaces(w, []);
    assert w + [] == w;
  }

  /** Trailing white space never survives trimming. */
  lemma TrimAfterSpaces(s: string, w: string)
    requires AllSpaces(w)
    ensures TrimEnd(TrimStart(s + w)) == TrimEnd(TrimStart(s))
  {
    var u := TrimStart(s);
    if u != [] {
      TrimStartAppend(s, w);
      TrimEndSpaces(u, w);
    } else {
      BlankAppend(s, w);
    }
  }

  /** White space around a string never changes what it reads as. */
  lemma SpacesIgnored(w1: string, s: string, w2: string)
    requires AllSpaces(w1) && AllSpaces(w2)
    ensures PositiveNumeral(w1 + s + w2) == PositiveNumeral(s)
  {
    assert w1 + s + w2 == w1 + (s + w2);
    TrimStartSpaces(w1, s + w2);
    TrimAfterSpaces(s, w2);
  }

  lemma SpanZeroPoint(f: string)
    requires |f| > 0 && f[0] == '.'
    ensures Span("0" + f) == ("0", f)
  {
    assert ("0" + f)[0] == '0' && ("0" + f)[1..] == f;
  }

  /** The digits of `0.` followed by digits are the zero and those digits. */
  lemma FractionDigits(d: string)
    requires AllDigits(d)
    ensures DecimalDigits("0." + d) == Some("0" + d)
  {
    var f := "." + d;
    assert "0." + d == "0" + f;
    SpanZeroPoint(f);
    assert f[1..] == d;
  }

  /** A fraction below one is still positive once one of its digits is not zero. */
  lemma FractionPositive(d: string)
    requires AllDigits(d) && HasNonZeroDigit(d)
    ensures PositiveNumeral("0." + d)
  {
    var s := "0." + d;
    assert s[0] == '0' && s[|s| - 1] == d[|d| - 1];
    TrimmedReads(s);
    FractionDigits(d);
    NonZeroAfter("0", d);
    UnsignedNumeral(s, "0" + d);
  }

  lemma NonZeroAfter(p: string, d: string)
    requires HasNonZeroDigit(d)
    ensures HasNonZeroDigit(p + d)
  {
    var i :| 0 <= i < |d| && NonZeroDigit(d[i]);
    assert (p + d)[|p| + i] == d[i];
  }

  /** Whatever follows a minus sign, the string is never positive. */
  lemma MinusNeverPositive(s: string)
    ensures !PositiveNumeral("-" + s)
  {
    var t := "-" + s;
    assert t[0] == '-';
    assert TrimStart(t) == t;
    TrimEndKeepsFirst(t);
    MinusTrimmed(TrimEnd(t));
  }

  /** Trimming the end keeps a first character that is not white space. */
  lemma TrimEndKeepsFirst(t: string)
    requires |t| > 0 && !IsSpace(t[0])
    ensures TrimEnd(t) != [] && TrimEnd(t)[0] == t[0]
  {
    TrimEndSpec(t);
    var r := TrimEnd(t);
    assert r[0] == t[..|r|][0];
  }

  lemma MinusTrimmed(r: string)
    requires |r| > 0 && r[0] == '-'
    ensures !PositiveTrimmed(r)
  {
  }

  /** The table body: an error wins; a non-array with a positive `length` makes `.map` throw. */
  function View(error: Option<string>, courses: Listing): (b: Body)
    ensures Present(error) ==> b == ShowError(error.value)
    ensures !Present(error) && courses.Array? ==> b == if courses.items == [] then ShowEmpty(Empty) else ShowRows(courses.items)
    ensures b == Crash <==> !Present(error) && courses.NotArray? && HasPositiveLength(courses.raw)
  {
    if Present(error) then ShowError(error.value)
    else match courses
      case Array(items) => if |items| > 0 then ShowRows(items) else ShowEmpty(Empty)
      case NotArray(raw) => if HasPositiveLength(raw) then Crash else ShowEmpty(Empty)
  }

  lemma ShowFive()
    ensures ShowInt(5) == "5"
  {
  }

  /** A body such as `{length: "5"}` passes `courses.length > 0` and then has no `map`. */
  lemma NumericTextLengthCrashes()
    ensures View(None, NotArray(map["length" := Text("5")])) == Crash
  {
    var none: Record := map[];
    LengthTextLikeNumber(none, 5);
    ShowFive();
    assert none["length" := Text("5")] == map["length" := Text("5")];
  }

  /** One white-space character in front never changes what a string reads as. */
  lemma SpaceBefore(c: char, s: string)
    requires IsSpace(c)
    ensures PositiveNumeral([c] + s) == PositiveNumeral(s)
  {
    SpacesIgnored([c], s, []);
    assert [c] + s + [] == [c] + s;
  }

  /** A positive numeral stays positive after a form feed, so `{length: "\f5"}` crashes. */
  lemma FormFeedSkipped()
    ensures PositiveNumeral("\U{000C}5")
  {
    PositiveNumeralShowInt(5);
    ShowFive();
    SpaceBefore('\U{000C}', "5");
    assert ['\U{000C}'] + "5" == "\U{000C}5";
  }

  /** The same after a vertical tab. */
  lemma VerticalTabSkipped()
    ensures PositiveNumeral("\U{000B}5")
  {
    PositiveNumeralShowInt(5);
    ShowFive();
    SpaceBefore('\U{000B}', "5");
    assert ['\U{000B}'] + "5" == "\U{000B}5";
  }

  class AdminListCourseComponent {
    var courses: Listing
    var error: Option<string>

    constructor ()
      ensures courses == Array([]) && error == None
    {
      courses, error := Array([]), None;
    }

    /** `fetchCourses`: no token is needed, and the body is stored as it came. */
    method FetchCourses(answer: Fetch<Listing>) returns (sent: seq<Request>)
      modifies this
      ensures sent == [GetAllCourses]
      ensures answer.Got? ==> courses == answer.data && error == old(error)
      ensures answer.Raised? ==> courses == old(courses) && error == Some(ErrorMessage(answer.failure.shape))
    {
      sent := [GetAllCourses];
      match answer {
        case Got(response) =>
          courses := response;
        case Raised(f) =>
          error := Some(ErrorMessage(f.shape));
      }
    }
  }
}
