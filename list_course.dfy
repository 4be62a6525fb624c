/** The shared course list: loads the courses with a token, deletes one and drops it locally. */
module ListCourse {
  import opened Values
  import opened Records
  import opened Remote
  import opened Display
  import opened AuthContext

  const Unavailable := "Service is currently unavailable. Please try again later."
  const NotFound := "Sorry, we couldn't find the courses. Please contact support."
  const Generic := "An error occurred while fetching courses. Please try again."
  const NoResponse := "No response from the server. Please check your network connection."
  const Unexpected := "An unexpected error occurred. Please try again."
  const BadFormat := "Service is currently unavailable !!"
  const Deleted := "Course successfully deleted!"
  const EmptyAdmin := "No courses available. Please create a course."
  const EmptyUser := "No courses available. Please ask an admin or create an admin using the REST API to create a course, then log in again."

  /** `handleError` */
  function ErrorMessage(s: Shape): string {
    match s
    case HasResponse(status, _) =>
      if status == 503 then Unavailable else if status == 404 then NotFound else Generic
    case RequestOnly => NoResponse
    case NotSent => Unexpected
  }

  function CourseKey(course: Record): Option<Field> {
    Prop(Some(course), "id")
  }

  /** `courses.filter((course) => course.id !== courseId)` */
  function Without(courses: seq<Record>, id: Option<Field>): (r: seq<Record>)
    ensures |r| <= |courses|
  {
    if courses == [] then []
    else (if CourseKey(courses[0]) != id then [courses[0]] else []) + Without(courses[1..], id)
  }

  /** Exactly the courses with another id survive, each as often as before, in their order. */
  lemma {:induction false} WithoutSpec(courses: seq<Record>, id: Option<Field>)
    ensures forall c :: c in Without(courses, id) <==> c in courses && CourseKey(c) != id
    ensures forall c :: CourseKey(c) != id ==> multiset(Without(courses, id))[c] == multiset(courses)[c]
    ensures forall c :: multiset(Without(courses, id))[c] > 0 ==> CourseKey(c) != id
  {
    if courses != [] {
      WithoutSpec(courses[1..], id);
      assert courses == [courses[0]] + courses[1..];
    }
  }

  /** Filtering distributes over concatenation, so relative order is kept. */
  lemma {:induction false} WithoutAppend(a: seq<Record>, b: seq<Record>, id: Option<Field>)
    ensures Without(a + b, id) == Without(a, id) + Without(b, id)
  {
    if a == [] {
      assert a + b == b;
    } else {
      assert (a + b)[0] == a[0] && (a + b)[1..] == a[1..] + b;
      WithoutAppend(a[1..], b, id);
      if CourseKey(a[0]) != id {
        assert [a[0]] + (Without(a[1..], id) + Without(b, id)) == ([a[0]] + Without(a[1..], id)) + Without(b, id);
      } else {
        assert [] + Without(a[1..] + b, id) == Without(a[1..] + b, id);
      }
    }
  }

  /** Deleting twice is deleting once; a course list without the id is left alone. */
  lemma {:induction false} WithoutIdempotent(courses: seq<Record>, id: Option<Field>)
    ensures Without(Without(courses, id), id) == Without(courses, id)
    ensures (forall i :: 0 <= i < |courses| ==> CourseKey(courses[i]) != id) ==> Without(courses, id) == courses
  {
    if courses != [] {
      WithoutIdempotent(courses[1..], id);
      if CourseKey(courses[0]) != id {
        var kept := Without(courses, id);
        assert kept == [courses[0]] + Without(courses[1..], id);
        assert kept[0] == courses[0] && kept[1..] == Without(courses[1..], id);
        assert Without(kept, id) == [kept[0]] + Without(kept[1..], id);
      } else {
        assert Without(courses, id) == [] + Without(courses[1..], id) == Without(courses[1..], id);
      }
    }
  }

  /** The column headers: the last one names the per-row control. */
  function Headers(isAdmin: bool): (h: seq<string>)
    ensures |h| == 3 && h[..2] == ["Course Title", "Course Code"]
    ensures h[2] == if isAdmin then "Action" else "View"
  {
    ["Course Title", "Course Code"] + (if isAdmin then ["Action"] else ["View"])
  }

  /** The table body: an error wins, then the rows, then a role-dependent empty message. */
  function View(error: Option<string>, courses: seq<Record>, isAdmin: bool): (b: Body)
    ensures Present(error) ==> b == ShowError(error.value)
    ensures !Present(error) && courses != [] ==> b == ShowRows(courses)
    ensures !Present(error) && courses == [] ==> b == ShowEmpty(if isAdmin then EmptyAdmin else EmptyUser)
  {
    if Present(error) then ShowError(error.value)
    else if |courses| > 0 then ShowRows(courses)
    else ShowEmpty(if isAdmin then EmptyAdmin else EmptyUser)
  }

  /** Only the empty message depends on the role: with an error or with rows, both roles see
      the same body. */
  lemma RoleOnlyChangesEmptyMessage(error: Option<string>, courses: seq<Record>, a: bool, b: bool)
    ensures View(error, courses, a) != View(error, courses, b) <==> !Present(error) && courses == [] && a != b
  {
    assert |EmptyAdmin| != |EmptyUser|;
  }

  /** The list is a fixed `grid-cols-3` grid, whichever the role. */
  const GridColumns: nat := 3

  /** A cell of a course row: a text field, or the controls cell with its icons. */
  datatype Cell = FieldCell(value: Option<Field>) | Controls(search: bool, delete: bool)

  /** The cells one course renders: its title, its code, and one controls cell that always has
      the search icon and has the trash icon only for an administrator. */
  function Row(course: Record, isAdmin: bool): seq<Cell> {
    [FieldCell(Prop(Some(course), "title")), FieldCell(Prop(Some(course), "courseCode")), Controls(true, isAdmin)]
  }

  /** Only an administrator's rows offer deletion, and every row offers the detail view. */
  lemma OnlyAdminDeletes(course: Record, isAdmin: bool)
    ensures forall c :: c in Row(course, isAdmin) && c.Controls? ==> c.search && (c.delete <==> isAdmin)
    ensures exists c :: c in Row(course, isAdmin) && c.Controls?
  {
    assert Row(course, isAdmin)[2].Controls?;
  }

  /** All the cells the rows render, in order. */
  function Cells(courses: seq<Record>, isAdmin: bool): seq<Cell> {
    if courses == [] then [] else Row(courses[0], isAdmin) + Cells(courses[1..], isAdmin)
  }

  /** The headers and the rows fill whole lines of the grid for either role, so every cell sits
      under its header. */
  lemma {:induction false} RowsFillGrid(courses: seq<Record>, isAdmin: bool)
    ensures |Headers(isAdmin)| == GridColumns
    ensures |Cells(courses, isAdmin)| == |courses| * GridColumns
    ensures forall k :: 0 <= k < |courses| ==>
      Cells(courses, isAdmin)[k * GridColumns .. (k + 1) * GridColumns] == Row(courses[k], isAdmin)
  {
    if courses != [] {
      var rest := Cells(courses[1..], isAdmin);
      RowsFillGrid(courses[1..], isAdmin);
      var all := Row(courses[0], isAdmin) + rest;
      assert all[..GridColumns] == Row(courses[0], isAdmin);
      forall k | 1 <= k < |courses|
        ensures all[k * GridColumns .. (k + 1) * GridColumns] == Row(courses[k], isAdmin)
      {
        assert courses[1..][k - 1] == courses[k];
        assert rest[(k - 1) * GridColumns .. k * GridColumns] == Row(courses[k], isAdmin);
        assert all[k * GridColumns .. (k + 1) * GridColumns] == rest[(k - 1) * GridColumns .. k * GridColumns];
      }
    }
  }

  class ListCourseComponent {
    var courses: seq<Record>
    var error: Option<string>
    var isAdmin: bool
    var loading: bool

    constructor ()
      ensures courses == [] && error == None && !isAdmin && !loading
    {
      courses, error, isAdmin, loading := [], None, false, false;
    }

    /** The effect on `userProfile`: a missing profile leaves the flag as it was. */
    method SyncAdmin(userProfile: Option<Profile>)
      modifies this`isAdmin
      ensures isAdmin == if userProfile.Some? then "ADMIN" in userProfile.value.roles else old(isAdmin)
    {
      if userProfile.Some? {
        isAdmin := "ADMIN" in userProfile.value.roles;
      }
    }

    /** `handleError` */
    method HandleError(f: Failure)
      modifies this`error
      ensures error == Some(ErrorMessage(f.shape))
    {
      error := Some(ErrorMessage(f.shape));
    }

    /** `fetchCourses`: runs only with a token. Anything but an array empties the list. */
    method FetchCourses(auth: AuthProvider, answer: Fetch<Listing>) returns (sent: seq<Request>)
      modifies this`courses, this`error, this`loading
      ensures !loading
      ensures !HasToken(auth.user) ==> sent == [] && courses == old(courses) && error == old(error)
      ensures HasToken(auth.user) ==> sent == [GetAllCourses]
      ensures HasToken(auth.user) && answer.Got? && answer.data.Array? ==> courses == answer.data.items && error == old(error)
      ensures HasToken(auth.user) && answer.Got? && answer.data.NotArray? ==> courses == [] && error == Some(BadFormat)
      ensures HasToken(auth.user) && answer.Raised? ==> courses == [] && error == Some(ErrorMessage(answer.failure.shape))
    {
      sent := [];
      if auth.user.Some? && auth.user.value.accessToken != "" {
        loading := true;
        sent := [GetAllCourses];
        match answer {
          case Got(Array(items)) =>
            courses := items;
          case Got(NotArray(_)) =>
            courses := [];
            error := Some(BadFormat);
          case Raised(f) =>
            HandleError(f);
            courses := [];
        }
      }
      loading := false;
    }

    /** `handleDeleteClick`: with a token, deletes on the server and then drops every course
        with that id from the list. */
    method HandleDeleteClick(auth: AuthProvider, courseId: Option<Field>, answer: Fetch<()>)
      returns (sent: seq<Request>, toasts: seq<Toast>)
      modifies this`courses, this`error, this`loading
      ensures !loading
      ensures !HasToken(auth.user) ==> sent == [] && toasts == [] && courses == old(courses) && error == old(error)
      ensures HasToken(auth.user) ==> sent == [DeleteCourse(courseId, auth.user.value.accessToken)]
      ensures HasToken(auth.user) && answer.Got? ==>
        courses == Without(old(courses), courseId) && error == old(error) && toasts == [ToastSuccess(Deleted)]
      ensures HasToken(auth.user) && answer.Raised? ==>
        courses == old(courses) && error == Some(ErrorMessage(answer.failure.shape)) && toasts == []
    {
      sent, toasts := [], [];
      if auth.user.Some? && auth.user.value.accessToken != "" {
        loading := true;
        sent := [DeleteCourse(courseId, auth.user.value.accessToken)];
        match answer {
          case Got(_) =>
            courses := Without(courses, courseId);
            toasts := [ToastSuccess(Deleted)];
          case Raised(f) =>
            HandleError(f);
        }
      }
      loading := false;
    }
  }
}
