/** Remote calls as input values: what a handler sent, and what came back. */
module Remote {
  import opened Values
  import opened Records

  /** `error.response.data` fields the handlers read. */
  datatype ErrorBody = ErrorBody(message: Option<string>, courseCode: Option<string>, semester: Option<string>)

  /** The three shapes of a rejected request: the server answered (`error.response`), the request
      went out without an answer (`error.request` only), or it was never sent (neither). */
  datatype Shape = HasResponse(status: int, body: ErrorBody) | RequestOnly | NotSent

  /** A thrown error: its shape, the non-standard `statusCode` property, and `message`. */
  datatype Failure = Failure(shape: Shape, statusCode: Option<int>, message: string)

  /** A TypeError raised by the handler's own code inside a `try` (a property read on `null`):
      it has neither `response` nor `request`. */
  const Fault: Failure := Failure(NotSent, None, "TypeError")

  /** A call that resolves with the whole response (auth and user services). */
  datatype Call<+T> = Ok(status: int, data: T) | Thrown(failure: Failure)

  /** `response.status === 200` on a resolved call. */
  predicate Succeeded<T>(c: Call<T>) {
    c.Ok? && c.status == 200
  }

  /** A call that resolves with `response.data` only (course and instance services). */
  datatype Fetch<+T> = Got(data: T) | Raised(failure: Failure)

  /** A list body: `Array.isArray` holds of it, or it is some other object. */
  datatype Listing = Array(items: seq<Record>) | NotArray(raw: Record)

  /** The sign-up body after the auth service has forced its roles. */
  datatype SignUpBody = SignUpBody(email: string, password: string, fullName: string, phone: string, roles: Option<seq<string>>)

  /** Bodies of the partial user update. */
  datatype Patch = ProfileFields(fullName: string, email: string, phone: string) | PasswordOnly(password: string)

  /** Every request the core issues, with the values it carries. */
  datatype Request =
    | SignUp(body: SignUpBody)
    | SignIn(email: string, password: string)
    | LogOut(email: string, accessToken: string)
    | ValidateToken(token: string)
    | GetUser(email: string, accessToken: string)
    | UpdateUser(email: string, patch: Patch, accessToken: string)
    | CreateCourse(course: Record, accessToken: string)
    | CreateInstance(instance: Record, accessToken: string)
    | GetAllCourses
    | GetCourse(id: Option<Field>)
    | DeleteCourse(id: Option<Field>, accessToken: string)
    | GetAllInstances
    | GetInstances(year: string, semester: string, accessToken: string)
}
