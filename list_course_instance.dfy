/** The course-instance list: loads every instance and merges in its course, or searches by
    year and semester and annotates each instance with its course's code and title. */
module ListCourseInstance {
  import opened Values
  import opened Records
  import opened Remote
  import opened Distinct
  import opened Display
  import opened AuthContext

  const Unavailable := "Service is currently unavailable. Please try again later."
  const NotFound := "Course instances not found. Please contact support."
  const Generic := "An error occurred. Please try again."
  const NoResponse := "No response from the server. Check your network connection."
  const Unexpected := "An unexpected error occurred."
  const MissingFields := "Please enter all required fields."
  const Deleted := "Course successfully deleted!"
  const NoCode: Field := Text("N/A")
  const NoTitle: Field := Text("Unknown Title")

  /** `handleError` */
  function ErrorMessage(s: Shape): string {
    match s
    case HasResponse(status, _) =>
      if status == 503 then Unavailable else if status == 404 then NotFound else Generic
    case RequestOnly => NoResponse
    case NotSent => Unexpected
  }

  /** What `error` holds: `null`, a message, or a non-array body stored as it came. */
  datatype Shown = Message(text: string) | Raw(body: Record)

  /** `(course service) getCourseById`, as a function of the id the backend is asked for. */
  type Backend = Option<Field> -> Fetch<Record>

  function CourseId(instance: Record): Option<Field> {
    Prop(Some(instance), "courseId")
  }

  function CourseIds(instances: seq<Record>): (ids: seq<Option<Field>>)
    ensures |ids| == |instances| && forall i :: 0 <= i < |instances| ==> ids[i] == CourseId(instances[i])
  {
    seq(|instances|, i requires 0 <= i < |instances| => CourseId(instances[i]))
  }

  /** `uniqueCourseIds` */
  function UniqueCourseIds(instances: seq<Record>): seq<Option<Field>> {
    Dedup(CourseIds(instances))
  }

  /** One `getCourseById` request per distinct id, all issued before any is awaited. */
  function CourseRequests(ids: seq<Option<Field>>): (r: seq<Request>)
    ensures |r| == |ids| && forall i :: 0 <= i < |ids| ==> r[i] == GetCourse(ids[i])
  {
    seq(|ids|, i requires 0 <= i < |ids| => GetCourse(ids[i]))
  }

  /** `Promise.all` over the lookups: the courses in id order, or the first rejection in id order. */
  function FetchAll(ids: seq<Option<Field>>, backend: Backend): (r: Fetch<seq<Record>>)
    ensures r.Got? ==> |r.data| == |ids| && forall i :: 0 <= i < |ids| ==> backend(ids[i]) == Got(r.data[i])
    ensures r.Raised? ==> exists i :: 0 <= i < |ids| && backend(ids[i]) == Raised(r.failure) && forall j :: 0 <= j < i ==> backend(ids[j]).Got?
    ensures r.Raised? <==> exists i :: 0 <= i < |ids| && backend(ids[i]).Raised?
  {
    if ids == [] then Got([])
    else match backend(ids[0])
      case Raised(f) => Raised(f)
      case Got(c) =>
        match FetchAll(ids[1..], backend)
        case Raised(f) =>
          assert forall i :: 0 <= i < |ids| - 1 ==> ids[1..][i] == ids[i + 1];
          Raised(f)
        case Got(cs) =>
          assert forall i :: 0 <= i < |ids| - 1 ==> ids[1..][i] == ids[i + 1];
          Got([c] + cs)
  }

  /** `coursesMap` holds, for each id, the course at that id's position. */
  ghost predicate MapsIds(m: map<Option<Field>, Record>, ids: seq<Option<Field>>, cs: seq<Record>)
    requires |ids| == |cs|
  {
    (forall x :: x in m <==> x in ids) && (forall i :: 0 <= i < |ids| ==> ids[i] in m && m[ids[i]] == cs[i])
  }

  /** The `reduce` that builds `coursesMap`: a later entry for an id overwrites an earlier one. */
  method BuildCourseMap(ids: seq<Option<Field>>, cs: seq<Record>) returns (m: map<Option<Field>, Record>)
    requires |ids| == |cs|
    ensures forall x :: x in m <==> x in ids
    ensures forall i :: 0 <= i < |ids| && (forall j :: i < j < |ids| ==> ids[j] != ids[i]) ==> m[ids[i]] == cs[i]
    ensures NoDuplicates(ids) ==> MapsIds(m, ids, cs)
  {
    m := map[];
    var k := 0;
    while k < |ids|
      invariant 0 <= k <= |ids|
      invariant forall x :: x in m <==> x in ids[..k]
      invariant forall i :: 0 <= i < k && (forall j :: i < j < k ==> ids[j] != ids[i]) ==> m[ids[i]] == cs[i]
    {
      m := m[ids[k] := cs[k]];
      k := k + 1;
    }
    assert ids[..k] == ids;
  }

  /** The course found for one instance, or `undefined`. */
  function Lookup(m: map<Option<Field>, Record>, instance: Record): Option<Record> {
    if CourseId(instance) in m then Some(m[CourseId(instance)]) else None
  }

  /** `{...instance, ...coursesMap[instance.courseId]}`: the course's fields win. */
  function Merge(instance: Record, course: Option<Record>): Record {
    if course.Some? then instance + course.value else instance
  }

  /** The search's `{...instance, courseCode: …, courseTitle: …}`, with the two fallbacks. */
  function Annotate(instance: Record, course: Option<Record>): Record {
    instance["courseCode" := OrElse(Prop(course, "courseCode"), NoCode)]["courseTitle" := OrElse(Prop(course, "title"), NoTitle)]
  }

  lemma MergeFields(instance: Record, course: Record)
    ensures Merge(instance, Some(course)).Keys == instance.Keys + course.Keys
    ensures forall k :: k in course ==> Merge(instance, Some(course))[k] == course[k]
    ensures forall k :: k in instance && k !in course ==> Merge(instance, Some(course))[k] == instance[k]
  {
  }

  /** The instance keeps every other field; code and title come from the course when truthy. */
  lemma AnnotateFields(instance: Record, course: Option<Record>)
    ensures Annotate(instance, course).Keys == instance.Keys + {"courseCode", "courseTitle"}
    ensures forall k :: k in instance && k != "courseCode" && k != "courseTitle" ==> Annotate(instance, course)[k] == instance[k]
    ensures Annotate(instance, course)["courseCode"] ==
      if course.Some? && "courseCode" in course.value && Truthy(course.value["courseCode"]) then course.value["courseCode"] else NoCode
    ensures Annotate(instance, course)["courseTitle"] ==
      if course.Some? && "title" in course.value && Truthy(course.value["title"]) then course.value["title"] else NoTitle
  {
  }

  /** The course the backend returns for one instance's own `courseId`, if it returns one. */
  function CourseFor(backend: Backend, instance: Record): Option<Record> {
    if backend(CourseId(instance)).Got? then Some(backend(CourseId(instance)).data) else None
  }

  /** When every lookup succeeds, each instance's entry in `coursesMap` is the course the backend
      returns for that instance's own `courseId`. */
  lemma {:induction false} CourseOfInstance(instances: seq<Record>, backend: Backend, cs: seq<Record>, m: map<Option<Field>, Record>)
    requires FetchAll(UniqueCourseIds(instances), backend) == Got(cs)
    requires |cs| == |UniqueCourseIds(instances)| && MapsIds(m, UniqueCourseIds(instances), cs)
    ensures forall i :: 0 <= i < |instances| ==> CourseFor(backend, instances[i]).Some? && Lookup(m, instances[i]) == CourseFor(backend, instances[i])
  {
    var ids := UniqueCourseIds(instances);
    DedupSpec(CourseIds(instances));
    forall i | 0 <= i < |instances|
      ensures CourseFor(backend, instances[i]).Some? && Lookup(m, instances[i]) == CourseFor(backend, instances[i])
    {
      var x := CourseId(instances[i]);
      assert CourseIds(instances)[i] == x;
      assert x in ids;
      var j :| 0 <= j < |ids| && ids[j] == x;
      assert m[ids[j]] == cs[j];
      assert backend(ids[j]) == Got(cs[j]);
    }
  }

  /** The steps both loaders share: look up every distinct `courseId` at once, await them all,
      and index the answers by id. The map gives each instance the course the backend returns
      for its own `courseId`. */
  method LoadCourses(items: seq<Record>, backend: Backend)
    returns (requests: seq<Request>, coursesMap: Fetch<map<Option<Field>, Record>>)
    ensures requests == CourseRequests(UniqueCourseIds(items))
    ensures coursesMap.Raised? <==> FetchAll(UniqueCourseIds(items), backend).Raised?
    ensures coursesMap.Raised? ==> coursesMap.failure == FetchAll(UniqueCourseIds(items), backend).failure
    ensures coursesMap.Got? ==> forall i :: 0 <= i < |items| ==>
      CourseFor(backend, items[i]).Some? && Lookup(coursesMap.data, items[i]) == CourseFor(backend, items[i])
  {
    var ids := UniqueCourseIds(items);
    requests := CourseRequests(ids);
    var responses := FetchAll(ids, backend);
    if responses.Raised? {
      coursesMap := Raised(responses.failure);
    } else {
      DedupSpec(CourseIds(items));
      var m := BuildCourseMap(ids, responses.data);
      CourseOfInstance(items, backend, responses.data, m);
      coursesMap := Got(m);
    }
  }

  class ListCourseInstanceComponent {
    var courses: seq<Record>
    var filtered: seq<Record>
    var year: string
    var semester: string
    var error: Option<Shown>
    var loading: bool
    var validationError: string
    var searchPerformed: bool

    constructor ()
      ensures courses == [] && filtered == [] && year == "" && semester == "" && error == None
      ensures !loading && validationError == "" && !searchPerformed
    {
      courses, filtered, year, semester, error := [], [], "", "", None;
      loading, validationError, searchPerformed := false, "", false;
    }

    method SetYear(v: string)
      modifies this`year
      ensures year == v
    {
      year := v;
    }

    method SetSemester(v: string)
      modifies this`semester
      ensures semester == v
    {
      semester := v;
    }

    /** `handleError` */
    method HandleError(f: Failure)
      modifies this`error
      ensures error == Some(Message(ErrorMessage(f.shape)))
    {
      error := Some(Message(ErrorMessage(f.shape)));
    }

    /** `fetchCourses`: show every instance at once, then replace `courses` by the instances each
        merged with its course. A non-array body becomes the error; a failed call or lookup
        empties the shown list and leaves `courses` as it was. */
    method FetchCourses(answer: Fetch<Listing>, backend: Backend) returns (sent: seq<Request>)
      modifies this`filtered, this`courses, this`error
      ensures answer.Got? && answer.data.Array? ==>
        sent == [GetAllInstances] + CourseRequests(UniqueCourseIds(answer.data.items))
      ensures !(answer.Got? && answer.data.Array?) ==> sent == [GetAllInstances]
      ensures answer.Raised? ==> filtered == [] && courses == old(courses) && error == Some(Message(ErrorMessage(answer.failure.shape)))
      ensures answer.Got? && answer.data.NotArray? ==> filtered == [] && courses == old(courses) && error == Some(Raw(answer.data.raw))
      ensures answer.Got? && answer.data.Array? && FetchAll(UniqueCourseIds(answer.data.items), backend).Raised? ==>
        filtered == [] && courses == old(courses) &&
        error == Some(Message(ErrorMessage(FetchAll(UniqueCourseIds(answer.data.items), backend).failure.shape)))
      ensures answer.Got? && answer.data.Array? && FetchAll(UniqueCourseIds(answer.data.items), backend).Got? ==>
        var items := answer.data.items;
        filtered == items && error == old(error) && |courses| == |items| &&
        forall i :: 0 <= i < |items| ==> courses[i] == Merge(items[i], CourseFor(backend, items[i]))
    {
      sent := [GetAllInstances];
      match answer {
        case Raised(f) =>
          HandleError(f);
          filtered := [];
        case Got(NotArray(raw)) =>
          filtered := [];
          error := Some(Raw(raw));
        case Got(Array(items)) =>
          filtered := items;
          var requests, coursesMap := LoadCourses(items, backend);
          sent := sent + requests;
          if coursesMap.Raised? {
            HandleError(coursesMap.failure);
            filtered := [];
          } else {
            courses := seq(|items|, i requires 0 <= i < |items| => Merge(items[i], Lookup(coursesMap.data, items[i])));
          }
      }
    }

    /** The part of `handleSearch` after the call: a failure or a non-array body empties both
        lists; an array is merged with its courses, and a failed lookup empties both lists. */
    method ShowSearch(outcome: Fetch<Listing>, backend: Backend) returns (requests: seq<Request>)
      modifies this`filtered, this`courses, this`error
      ensures outcome.Raised? ==>
        requests == [] && filtered == [] && courses == [] && error == Some(Message(ErrorMessage(outcome.failure.shape)))
      ensures outcome.Got? && outcome.data.NotArray? ==>
        requests == [] && filtered == [] && courses == [] && error == Some(Raw(outcome.data.raw))
      ensures outcome.Got? && outcome.data.Array? ==>
        var items := outcome.data.items;
        var all := FetchAll(UniqueCourseIds(items), backend);
        requests == CourseRequests(UniqueCourseIds(items)) &&
        (all.Raised? ==> filtered == [] && courses == [] && error == Some(Message(ErrorMessage(all.failure.shape)))) &&
        (all.Got? ==> error == old(error) && courses == filtered && |filtered| == |items| &&
                      (forall i :: 0 <= i < |items| ==> filtered[i] == Annotate(items[i], CourseFor(backend, items[i]))))
    {
      requests := [];
      match outcome {
        case Raised(f) =>
          HandleError(f);
          filtered, courses := [], [];
        case Got(NotArray(raw)) =>
          filtered, courses := [], [];
          error := Some(Raw(raw));
        case Got(Array(items)) =>
          var coursesMap;
          requests, coursesMap := LoadCourses(items, backend);
          if coursesMap.Raised? {
            HandleError(coursesMap.failure);
            filtered, courses := [], [];
          } else {
            var enriched := seq(|items|, i requires 0 <= i < |items| => Annotate(items[i], Lookup(coursesMap.data, items[i])));
            filtered, courses := enriched, enriched;
          }
      }
    }

    /** `handleSearch`: both fields are required. The shown list and `courses` become the found
        instances each annotated with its course's code and title; any failure empties both. */
    method HandleSearch(auth: AuthProvider, answer: Fetch<Listing>, backend: Backend) returns (sent: seq<Request>)
      modifies this`filtered, this`courses, this`error, this`loading, this`validationError, this`searchPerformed
      ensures year == "" || semester == "" ==>
        sent == [] && validationError == MissingFields && filtered == old(filtered) && courses == old(courses) &&
        error == old(error) && loading == old(loading) && searchPerformed == old(searchPerformed)
      ensures year != "" && semester != "" ==> validationError == "" && searchPerformed && !loading
      ensures year != "" && semester != "" && auth.user.None? ==>
        sent == [] && filtered == [] && courses == [] && error == Some(Message(ErrorMessage(Fault.shape)))
      ensures year != "" && semester != "" && auth.user.Some? ==>
        |sent| >= 1 && sent[0] == GetInstances(year, semester, auth.user.value.accessToken)
      ensures year != "" && semester != "" && auth.user.Some? && answer.Raised? ==>
        filtered == [] && courses == [] && error == Some(Message(ErrorMessage(answer.failure.shape)))
      ensures year != "" && semester != "" && auth.user.Some? && answer.Got? && answer.data.NotArray? ==>
        filtered == [] && courses == [] && error == Some(Raw(answer.data.raw))
      ensures year != "" && semester != "" && auth.user.Some? && answer.Got? && answer.data.Array? ==>
        var items := answer.data.items;
        var all := FetchAll(UniqueCourseIds(items), backend);
        sent[1..] == CourseRequests(UniqueCourseIds(items)) &&
        (all.Raised? ==> filtered == [] && courses == [] && error == Some(Message(ErrorMessage(all.failure.shape)))) &&
        (all.Got? ==> error == Some(Message("")) && courses == filtered && |filtered| == |items| &&
                      (forall i :: 0 <= i < |items| ==> filtered[i] == Annotate(items[i], CourseFor(backend, items[i]))))
    {
      sent := [];
      if year == "" || semester == "" {
        validationError := MissingFields;
        return;
      }
      error := Some(Message(""));
      validationError := "";
      loading := true;
      searchPerformed := true;
      var outcome: Fetch<Listing>;
      if auth.user.None? {
        outcome := Raised(Fault);
      } else {
        sent := [GetInstances(year, semester, auth.user.value.accessToken)];
        outcome := answer;
      }
      var requests := ShowSearch(outcome, backend);
      sent := sent + requests;
      loading := false;
    }

    /** `handleDeleteClick`: with a token, deletes the course and then empties the shown list. */
    method HandleDeleteClick(auth: AuthProvider, courseId: Option<Field>, answer: Fetch<()>)
      returns (sent: seq<Request>, toasts: seq<Toast>)
      modifies this`filtered, this`error, this`loading
      ensures !loading
      ensures !HasToken(auth.user) ==> sent == [] && toasts == [] && filtered == old(filtered) && error == old(error)
      ensures HasToken(auth.user) ==> sent == [DeleteCourse(courseId, auth.user.value.accessToken)]
      ensures HasToken(auth.user) && answer.Got? ==> filtered == [] && error == old(error) && toasts == [ToastSuccess(Deleted)]
      ensures HasToken(auth.user) && answer.Raised? ==>
        filtered == old(filtered) && error == Some(Message(ErrorMessage(answer.failure.shape))) && toasts == []
    {
      sent, toasts := [], [];
      if auth.user.Some? && auth.user.value.accessToken != "" {
        loading := true;
        sent := [DeleteCourse(courseId, auth.user.value.accessToken)];
        match answer {
          case Got(_) =>
            filtered := [];
            toasts := [ToastSuccess(Deleted)];
          case Raised(f) =>
            HandleError(f);
        }
      }
      loading := false;
    }
  }
}
