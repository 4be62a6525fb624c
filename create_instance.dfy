/** The create-instance form: a record edited field by field and posted whole. */
module CreateInstance {
  import opened Values
  import opened Records
  import opened Remote
  import opened Display
  import opened AuthContext

  const Created := "Course instance created successfully!"

  /** The form's initial and reset value. */
  const EmptyInstance: Record := map["year" := Text(""), "semester" := Text(""), "courseId" := Text("")]

  class CreateInstanceForm {
    var instance: Record
    var loading: bool
    var error: Option<string>

    constructor ()
      ensures instance == EmptyInstance && !loading && error == None
    {
      instance, loading, error := EmptyInstance, false, None;
    }

    /** `handleChange`: `{...instance, [name]: value}` sets one field and keeps every other. */
    method HandleChange(name: string, value: string)
      modifies this`instance
      ensures name in instance && instance[name] == Text(value)
      ensures instance.Keys == old(instance).Keys + {name}
      ensures forall k :: k in old(instance) && k != name ==> instance[k] == old(instance)[k]
    {
      instance := instance + map[name := Text(value)];
    }

    /** `handleSubmit`. A 503 `statusCode` sets the error and toasts first; then an error with a
        response sets the error from its body and toasts again. Every other error reads
        `error.response.data` in the catch block itself and escapes the handler (`faulted`),
        after the `finally` clears `loading`. */
    method HandleSubmit(auth: AuthProvider, answer: Fetch<()>)
      returns (sent: seq<Request>, toasts: seq<Toast>, faulted: bool)
      modifies this
      ensures !loading
      ensures sent == if auth.user.Some? then [CreateInstance(old(instance), auth.user.value.accessToken)] else []
      ensures auth.user.Some? && answer.Got? ==>
        instance == EmptyInstance && error == None && toasts == [ToastSuccess(Created)] && !faulted
      ensures auth.user.None? || answer.Raised? ==> instance == old(instance)
      ensures auth.user.None? ==> faulted && toasts == [] && error == old(error)
      ensures auth.user.Some? && answer.Raised? ==>
        var f := answer.failure;
        var first := if f.statusCode == Some(503) then [ToastError(Some(f.message))] else [];
        (faulted <==> !f.shape.HasResponse?) &&
        (f.shape.HasResponse? ==> toasts == first + [ToastError(SubmitError(f.shape))] && error == SubmitError(f.shape)) &&
        (!f.shape.HasResponse? ==> toasts == first && error == if f.statusCode == Some(503) then Some(f.message) else old(error))
    {
      loading := true;
      toasts, faulted := [], false;
      var outcome: Fetch<()>;
      if auth.user.None? {
        sent := [];
        outcome := Raised(Fault);
      } else {
        sent := [CreateInstance(instance, auth.user.value.accessToken)];
        outcome := answer;
      }
      match outcome {
        case Got(_) =>
          toasts := [ToastSuccess(Created)];
          instance := EmptyInstance;
          error := None;
        case Raised(f) =>
          if f.statusCode == Some(503) {
            error := Some(f.message);
            toasts := toasts + [ToastError(Some(f.message))];
          }
          if f.shape.HasResponse? {
            error := SubmitError(f.shape);
            toasts := toasts + [ToastError(SubmitError(f.shape))];
          } else {
            faulted := true;
          }
      }
      loading := false;
    }

    /** `handleCancel` */
    method HandleCancel()
      modifies this`instance
      ensures instance == EmptyInstance
    {
      instance := EmptyInstance;
    }
  }

  /** The error an answered request sets, and the toast it raises (unlike the course form,
      the two always agree): the body's message, except that a 400 without one falls back to
      the body's `semester` field. */
  function SubmitError(s: Shape): (r: Option<string>)
    requires s.HasResponse?
    ensures s.status != 400 || Present(s.body.message) ==> r == s.body.message
    ensures s.status == 400 && !Present(s.body.message) ==> r == s.body.semester
  {
    if s.status == 400 && !Present(s.body.message) then s.body.semester else s.body.message
  }

  /** The status matters only through being 400 or not. */
  lemma SubmitErrorOnlyAt400(s: Shape, t: Shape)
    requires s.HasResponse? && t.HasResponse? && s.body == t.body && (s.status == 400 <==> t.status == 400)
    ensures SubmitError(s) == SubmitError(t)
  {
  }

  /** Unlike the course form, a 400 can set no banner at all: exactly when its body has neither a
      message nor a `semester` entry. */
  lemma SilentBadRequest(s: Shape)
    requires s.HasResponse? && s.status == 400
    ensures !Present(SubmitError(s)) <==> !Present(s.body.message) && !Present(s.body.semester)
  {
  }
}
