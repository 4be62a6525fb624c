/** The create-course form: a record edited field by field and posted whole. */
module CreateCourse {
  import opened Values
  import opened Records
  import opened Remote
  import opened Display
  import opened AuthContext

  const Created := "Course created successfully!"
  const CodeFormatInvalid := "Course Code Format Invalid."

  /** The form's initial and reset value. */
  const EmptyCourse: Record := map["title" := Text(""), "courseCode" := Text(""), "description" := Text("")]

  class CreateCourseForm {
    var course: Record
    var loading: bool
    var error: Option<string>

    constructor ()
      ensures course == EmptyCourse && !loading && error == None
    {
      course, loading, error := EmptyCourse, false, None;
    }

    /** `handleChange`: `{...course, [name]: value}` sets one field and keeps every other. */
    method HandleChange(name: string, value: string)
      modifies this`course
      ensures name in course && course[name] == Text(value)
      ensures course.Keys == old(course).Keys + {name}
      ensures forall k :: k in old(course) && k != name ==> course[k] == old(course)[k]
    {
      course := course + map[name := Text(value)];
    }

    /** `handleSubmit`. A 503 `statusCode` sets the error and toasts first; then an error with a
        response sets the error from its body and toasts again. Every other error reads
        `error.response.data` in the catch block itself and escapes the handler (`faulted`),
        after the `finally` clears `loading`. */
    method HandleSubmit(auth: AuthProvider, answer: Fetch<()>)
      returns (sent: seq<Request>, toasts: seq<Toast>, faulted: bool)
      modifies this
      ensures !loading
      ensures sent == if auth.user.Some? then [CreateCourse(old(course), auth.user.value.accessToken)] else []
      ensures auth.user.Some? && answer.Got? ==>
        course == EmptyCourse && error == None && toasts == [ToastSuccess(Created)] && !faulted
      ensures auth.user.None? || answer.Raised? ==> course == old(course)
      ensures auth.user.None? ==> faulted && toasts == [] && error == old(error)
      ensures auth.user.Some? && answer.Raised? ==>
        var f := answer.failure;
        var first := if f.statusCode == Some(503) then [ToastError(Some(f.message))] else [];
        (faulted <==> !f.shape.HasResponse?) &&
        (f.shape.HasResponse? ==> toasts == first + [ToastError(SubmitToast(f.shape))] && error == SubmitError(f.shape)) &&
        (!f.shape.HasResponse? ==> toasts == first && error == if f.statusCode == Some(503) then Some(f.message) else old(error))
    {
      loading := true;
      toasts, faulted := [], false;
      var outcome: Fetch<()>;
      if auth.user.None? {
        sent := [];
        outcome := Raised(Fault);
      } else {
        sent := [CreateCourse(course, auth.user.value.accessToken)];
        outcome := answer;
      }
      match outcome {
        case Got(_) =>
          toasts := [ToastSuccess(Created)];
          course := EmptyCourse;
          error := None;
        case Raised(f) =>
          if f.statusCode == Some(503) {
            error := Some(f.message);
            toasts := toasts + [ToastError(Some(f.message))];
          }
          if f.shape.HasResponse? {
            error := SubmitError(f.shape);
            toasts := toasts + [ToastError(SubmitToast(f.shape))];
          } else {
            faulted := true;
          }
      }
      loading := false;
    }

    /** `handleCancel` */
    method HandleCancel()
      modifies this`course
      ensures course == EmptyCourse
    {
      course := EmptyCourse;
    }
  }

  /** The error an answered request sets: the body's message, except that a 400 without one
      falls back to a fixed text. */
  function SubmitError(s: Shape): (r: Option<string>)
    requires s.HasResponse?
    ensures s.status != 400 ==> r == s.body.message
    ensures s.status == 400 ==> Present(r) && (Present(s.body.message) ==> r == s.body.message)
  {
    if s.status == 400 && !Present(s.body.message) then Some(CodeFormatInvalid) else s.body.message
  }

  /** The toast an answered request raises: the body's message, except that a 400 without one
      shows the body's `courseCode` field instead. */
  function SubmitToast(s: Shape): (r: Option<string>)
    requires s.HasResponse?
    ensures s.status != 400 || Present(s.body.message) ==> r == s.body.message
    ensures s.status == 400 && !Present(s.body.message) ==> r == s.body.courseCode
  {
    if s.status == 400 && !Present(s.body.message) then s.body.courseCode else s.body.message
  }

  /** On a 400 without a message the error and the toast part ways; otherwise they agree. */
  lemma ErrorAndToast(s: Shape)
    requires s.HasResponse?
    ensures SubmitError(s) == SubmitToast(s) <==> s.status != 400 || Present(s.body.message) || s.body.courseCode == Some(CodeFormatInvalid)
  {
  }
}
