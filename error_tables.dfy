/** How the components' error tables relate: each depends only on which listed status, if any,
    an error carries, and the course tables differ from each other only at 404. */
module ErrorTables {
  import opened Remote
  import Login
  import Register
  import EditProfile
  import ListCourseInstance
  import ListCourse
  import AdminListCourse
  import Dashboard
  import Course = CreateCourse
  import Instance = CreateInstance
  import opened Values

  /** A reference classification: a status that some table lists, any other status, no answer,
      or an error raised before sending. */
  datatype Kind = Listed(status: int) | OtherStatus | NoAnswer | Unsent

  const ListedStatuses: set<int> := {400, 401, 403, 404, 405, 409, 500, 503}

  function KindOf(s: Shape): Kind {
    match s
    case HasResponse(status, _) => if status in ListedStatuses then Listed(status) else OtherStatus
    case RequestOnly => NoAnswer
    case NotSent => Unsent
  }

  /** No table looks at the error body, or at an unlisted status's value. */
  lemma TablesFactorThroughKind(s: Shape, t: Shape)
    requires KindOf(s) == KindOf(t)
    ensures Login.ErrorMessage(s) == Login.ErrorMessage(t)
    ensures Register.ErrorMessage(s) == Register.ErrorMessage(t)
    ensures EditProfile.ErrorMessage(s) == EditProfile.ErrorMessage(t)
    ensures ListCourseInstance.ErrorMessage(s) == ListCourseInstance.ErrorMessage(t)
    ensures ListCourse.ErrorMessage(s) == ListCourse.ErrorMessage(t)
    ensures AdminListCourse.ErrorMessage(s) == AdminListCourse.ErrorMessage(t)
    ensures Dashboard.ErrorMessage(s) == Dashboard.ErrorMessage(t)
  {
  }

  /** The three course tables share every message but the 404 one, which is different in each. */
  lemma CourseTablesDifferOnlyAt404(s: Shape)
    ensures KindOf(s) != Listed(404) ==>
      ListCourse.ErrorMessage(s) == AdminListCourse.ErrorMessage(s) == Dashboard.ErrorMessage(s)
    ensures KindOf(s) == Listed(404) ==>
      ListCourse.ErrorMessage(s) != AdminListCourse.ErrorMessage(s) &&
      AdminListCourse.ErrorMessage(s) != Dashboard.ErrorMessage(s) &&
      ListCourse.ErrorMessage(s) != Dashboard.ErrorMessage(s)
  {
  }

  /** The instance table shares only its 503 message with the course tables. */
  lemma InstanceTableSharesOnly503(s: Shape)
    ensures ListCourseInstance.ErrorMessage(s) == ListCourse.ErrorMessage(s) <==> KindOf(s) == Listed(503)
  {
  }

  /** The sign-in and sign-up tables agree on 405, on no answer and on unsent errors, and on
      statuses neither lists; they part on 401, 403, 404 and 503, and on 400, 409 and 500. */
  lemma LoginAgainstRegister(s: Shape)
    ensures Login.ErrorMessage(s) == Register.ErrorMessage(s) <==>
      KindOf(s) in {Listed(405), OtherStatus, NoAnswer, Unsent}
  {
  }

  /** On a 400 whose body has neither a message nor the field entry, the course form still shows
      its own banner while the instance form shows none. */
  lemma BadRequestBanners(b: ErrorBody)
    requires !Present(b.message) && !Present(b.semester)
    ensures Present(Course.SubmitError(HasResponse(400, b)))
    ensures !Present(Instance.SubmitError(HasResponse(400, b)))
  {
  }
}
