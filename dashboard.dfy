/** The dashboard: the course table with a role-dependent empty message. */
module Dashboard {
  import opened Values
  import opened Records
  import opened Remote
  import opened Display
  import opened AuthContext

  const Unavailable := "Service is currently unavailable. Please try again later."
  const NotFound := "Sorry, we couldn't find the courses you were looking for. Please contact support for assistance."
  const Generic := "An error occurred while fetching courses. Please try again."
  const NoResponse := "No response from the server. Please check your network connection."
  const Unexpected := "An unexpected error occurred. Please try again."
  const BadFormat := "Unexpected data format received from the server."
  const EmptyAdmin := "No courses available. Please create courses."
  const EmptyUser := "No courses available. Please ask an admin to create courses, or create an admin using the REST API to create courses, then log in again."
  const Headers := ["Course Title", "Course Code"]

  /** `handleError` */
  function ErrorMessage(s: Shape): string {
    match s
    case HasResponse(status, _) =>
      if status == 503 then Unavailable else if status == 404 then NotFound else Generic
    case RequestOnly => NoResponse
    case NotSent => Unexpected
  }

  /** `userProfile?.roles?.includes("ADMIN")` */
  predicate IsAdmin(userProfile: Option<Profile>) {
    userProfile.Some? && "ADMIN" in userProfile.value.roles
  }

  /** The table body: an error wins, then the rows, then the empty message for the role. */
  function View(error: Option<string>, courses: seq<Record>, userProfile: Option<Profile>): (b: Body)
    ensures Present(error) ==> b == ShowError(error.value)
    ensures !Present(error) && courses != [] ==> b == ShowRows(courses)
    ensures !Present(error) && courses == [] ==> b == ShowEmpty(if IsAdmin(userProfile) then EmptyAdmin else EmptyUser)
  {
    if Present(error) then ShowError(error.value)
    else if |courses| > 0 then ShowRows(courses)
    else ShowEmpty(if IsAdmin(userProfile) then EmptyAdmin else EmptyUser)
  }

  /** Only the empty message depends on the role, and it does: the two profiles see different
      bodies exactly when there is no error, no course, and one of them is an admin. */
  lemma RoleOnlyChangesEmptyMessage(error: Option<string>, courses: seq<Record>, p: Option<Profile>, q: Option<Profile>)
    ensures View(error, courses, p) != View(error, courses, q) <==>
      !Present(error) && courses == [] && IsAdmin(p) != IsAdmin(q)
  {
    assert |EmptyAdmin| != |EmptyUser|;
  }

  class DashboardComponent {
    var courses: seq<Record>
    var error: Option<string>

    constructor ()
      ensures courses == [] && error == None
    {
      courses, error := [], None;
    }

    /** `handleError` */
    method HandleError(f: Failure)
      modifies this`error
      ensures error == Some(ErrorMessage(f.shape))
    {
      error := Some(ErrorMessage(f.shape));
    }

    /** `fetchCourses`: reading the token of a missing user throws inside the `try`. Anything but
        an array empties the table. */
    method FetchCourses(auth: AuthProvider, answer: Fetch<Listing>) returns (sent: seq<Request>)
      modifies this
      ensures auth.user.None? ==> sent == [] && courses == [] && error == Some(ErrorMessage(Fault.shape))
      ensures auth.user.Some? ==> sent == [GetAllCourses]
      ensures auth.user.Some? && answer.Got? && answer.data.Array? ==> courses == answer.data.items && error == old(error)
      ensures auth.user.Some? && answer.Got? && answer.data.NotArray? ==> courses == [] && error == Some(BadFormat)
      ensures auth.user.Some? && answer.Raised? ==> courses == [] && error == Some(ErrorMessage(answer.failure.shape))
    {
      var outcome: Fetch<Listing>;
      if auth.user.None? {
        sent := [];
        outcome := Raised(Fault);
      } else {
        sent := [GetAllCourses];
        outcome := answer;
      }
      match outcome {
        case Got(Array(items)) =>
          courses := items;
        case Got(NotArray(_)) =>
          courses := [];
          error := Some(BadFormat);
        case Raised(f) =>
          HandleError(f);
          courses := [];
      }
    }
  }
}
