# Course portal front end — a Dafny model

This project models the session and page logic of a single-page course-management front end.
The front end signs users up and in, and keeps the session (`user`, the token pair) and the
`userProfile` in React state mirrored into the browser's `localStorage`. It guards private
routes by validating the access token. It lets a user edit their profile and change their
password. An administrator can create courses and course instances. Both roles can list
courses and instances; an administrator can also delete them. Two panels (admin and user) dispatch a
sidebar key to the screen it names.

How the model is built:

- **Remote calls are inputs.** Every call to the backend (axios or one of the service
  wrappers) is an input value: the answer the backend gave, or the failure it threw.
  - `Remote.Call` is an axios response with its `status`.
  - `Remote.Fetch` is what a wrapper returns: it hands back only `response.data`.
  - `Remote.Failure` records whether the error carried a `response`, only a `request`, or
    neither. It also records the wrapper's own `statusCode` and `message`.
- **Requests are a log.** Each handler returns the requests it sent, in order, as a
  `seq<Request>`.
- **Components are classes.** Each React component is a class whose fields are its `useState`
  cells. Each handler is a method that updates those fields, and its `ensures` states the
  whole new state.
- **The session provider.** `AuthContext.AuthProvider` holds `user`, `userProfile`, the
  store, and what the persistence effect last wrote. `Settled()` says the store holds the
  JSON encoding of the current pair.
- **JSON.** `Codec` is the JSON text of the two stored records. It is proved to
  round-trip, so reloading the page restores the session.
- **Plain JS objects.** `Values` and `Records` model plain JavaScript objects as maps from
  keys to fields. Object spread is the right-biased map union.
- **Rendering.** Render decisions are functions into `Display.Body`, `PrivateRoute.View` and
  `Screens.PanelView`.

## Model

| member | source | states |
|---|---|---|
| Codec.DecodeEncodeSession | src/context/AuthContext.jsx:8-11 | parsing the text the effect stores for `user` gives back the same session, `null` included |
| Codec.DecodeEncodeProfile | src/context/AuthContext.jsx:13-16 | parsing the stored `userProfile` text gives back the same profile, `null` included |
| Codec.EncodingsInjective | src/context/AuthContext.jsx:17-20 | two different sessions (or profiles) are never stored as the same text |
| Codec.UnescapeEscape | src/context/AuthContext.jsx:17-20 | a string written with quote and backslash escaping reads back unchanged, leaving what follows it alone |
| Codec.ReadIntRoundTrip | src/context/AuthContext.jsx:13-16 | an integer (negative ones too) written in decimal reads back as itself when no digit follows |
| Codec.ReadListRoundTrip | src/context/AuthContext.jsx:13-16 | a list of strings (the roles) written as a JSON array reads back as the same list |
| Codec.ReadNatRoundTrip | src/context/AuthContext.jsx:13-16 | a natural number written in decimal reads back as itself, leaving what follows alone when no digit follows |
| Codec.ReadSigned | src/context/AuthContext.jsx:13-16 | a minus sign followed by a positive number's digits reads back as that number negated |
| Codec.StringifyStrings | src/context/AuthContext.jsx:17-20 | an array of strings is written as the bracketed, comma-separated quoted strings, in order |
| Codec.SessionStringify | src/context/AuthContext.jsx:17-20 | a session is written with its keys in order: `accessToken`, `refreshToken`, then `roles` when the session has roles |
| Codec.ProfileStringify | src/context/AuthContext.jsx:17-20 | a profile is written with its keys in order: `id` as a number, then `fullName`, `email`, `password` and `roles` |
| Records.ProfileOfFields | src/context/AuthContext.jsx:34-40 | two user records give the same profile exactly when id, name, e-mail, password and roles agree; phone and tokens never reach it |
| AuthService.UserData.constructor | src/auth/Register.jsx:30-35 | the sign-up payload holds the form's four fields and no roles yet |
| AuthService.Register | src/apis/AuthService.js:5-18 | sets the payload's roles to `["USER"]` and leaves its other fields alone; posts it to `sign-up`; returns the answer unchanged |
| AuthService.Login | src/apis/AuthService.js:20-30 | posts the credentials to `sign-in` and returns the answer unchanged |
| AuthService.Logout | src/apis/AuthService.js:32-42 | posts the e-mail and token to `log-out` and returns the answer unchanged |
| AuthService.Validate | src/apis/AuthService.js:44-56 | posts to `validate-access-token/` followed by the token, and returns the answer unchanged |
| AuthService.UrlsDistinct | src/apis/AuthService.js:3-56 | every URL is under the service root; two requests share a URL only if they are the same operation, the same token for validation |
| AuthService.ValidateUrlToken | src/apis/AuthService.js:46-48 | the token can be read back from the end of the validation URL |
| AuthContext.HydratePersisted | src/context/AuthContext.jsx:8-20 | hydrating a store the effect has written returns exactly the pair it wrote |
| AuthContext.HydrateIndependent | src/context/AuthContext.jsx:8-16 | a missing key hydrates to `null`, and each record is read only from its own key |
| AuthContext.PersistedOverwrites | src/context/AuthContext.jsx:17-20 | writing both records makes any earlier entries under those keys, or their removal, irrelevant |
| AuthContext.SettledToken | src/context/AuthContext.jsx:99-103 | in a settled provider the token parsed back from the store is the in-memory user's token |
| AuthContext.SettledMirrors | src/context/AuthContext.jsx:8-20 | in a settled provider, a reload would hydrate exactly the in-memory `user` and `userProfile` |
| AuthContext.AuthProvider.constructor | src/context/AuthContext.jsx:8-20 | the initial state is the hydrated pair, and the first effect run writes it back, so the provider starts settled |
| AuthContext.AuthProvider.SetUser | src/context/AuthContext.jsx:118 | replaces `user` and nothing else |
| AuthContext.AuthProvider.SetUserProfile | src/context/AuthContext.jsx:120 | replaces `userProfile` and nothing else |
| AuthContext.AuthProvider.RemoveItem | src/context/AuthContext.jsx:107-108 | removes one key from the store |
| AuthContext.AuthProvider.Flush | src/context/AuthContext.jsx:17-20 | the effect writes both records only when the pair changed since its last run, and afterwards the provider is settled |
| AuthContext.AuthProvider.Commit | src/context/AuthContext.jsx:17-20 | setting both records and then letting the effect run leaves the provider settled on the new pair |
| AuthContext.AuthProvider.Login | src/context/AuthContext.jsx:22-56 | sends sign-in, then the user lookup only after a 200; stores the session on a 200 and the profile only when both answers are 200; returns the sign-in answer |
| AuthContext.AuthProvider.Register | src/context/AuthContext.jsx:58-96 | sends sign-up with roles `["USER"]`, then the lookup after a 200; changes the session and profile only when both answers are 200; returns the sign-up answer |
| AuthContext.AuthProvider.Logout | src/context/AuthContext.jsx:98-109 | without a profile or user it fails with a TypeError before sending; otherwise it sends log-out with the stored token; a thrown answer changes nothing; a success clears both records and both keys and then the effect writes `null`s |
| PrivateRoute.RenderDecision | src/routes/PrivateRoute.jsx:58-62 | spinner exactly while pending, the outlet exactly when authenticated, otherwise a redirect to `/sign-in` |
| PrivateRoute.Guard.constructor | src/routes/PrivateRoute.jsx:8 | the guard starts pending |
| PrivateRoute.Guard.ValidateUserToken | src/routes/PrivateRoute.jsx:10-53 | authenticated exactly when there is a token and the validation answer is a 200; validates only when there is a token; an error with a response clears both records and the effect then stores `null`s; anything else leaves the session alone |
| PrivateRoute.Guard.Evaluate | src/routes/PrivateRoute.jsx:10-56 | the effect, re-run when `user` changes, ends in the same decision as a single validation, and never leaves the spinner up |
| Login.ErrorTable | src/auth/Login.jsx:56-77 | 401 and 403 give the invalid-credentials message; only statuses outside 401, 403, 404, 405 and 503 give the generic one; only a request without a response gives the no-response message |
| Login.RouteByRole | src/auth/Login.jsx:44-53 | an admin goes to `/admin`; a non-admin user goes to `/user`; with neither role there is no navigation |
| Login.LoginForm.constructor | src/auth/Login.jsx:10-13 | empty fields, no error, not loading |
| Login.LoginForm.SetEmail | src/auth/Login.jsx:10 | replaces the e-mail field |
| Login.LoginForm.SetPassword | src/auth/Login.jsx:11 | replaces the password field |
| Login.LoginForm.HandleSubmit | src/auth/Login.jsx:17-79 | a thrown sign-in shows the table's message and navigates nowhere; after any answered sign-in the session is the answer's data; a thrown second lookup shows the table's message; a successful one routes by the looked-up roles; loading always ends |
| Register.ErrorTable | src/auth/Register.jsx:56-83 | statuses outside 400, 401, 403, 404, 405, 409 and 500 give the generic message, so a 503 reads like an unsent request; no answered status gives the no-response message |
| Register.RegisterForm.constructor | src/auth/Register.jsx:10-16 | all fields empty, no error, not loading |
| Register.RegisterForm.HandleSubmit | src/auth/Register.jsx:20-84 | mismatched passwords show the mismatch message and send nothing; otherwise the submission runs, and an earlier error stays until something replaces it |
| Register.RegisterForm.Submit | src/auth/Register.jsx:26-83 | the first request is sign-up with the form's fields and roles `["USER"]`; a thrown answer shows the table's message; after the form's own lookup succeeds the session is the answer and the page goes home |
| Register.RegisterForm.SendSignUp | src/auth/Register.jsx:30-42 | sends the sign-up with roles `["USER"]`, then the user lookup when it is answered; the provider stores both only when both succeed, and otherwise keeps its session, profile and storage |
| Register.RegisterForm.Complete | src/auth/Register.jsx:37-55 | the session becomes the sign-up answer; a thrown lookup shows the table's message and stays on the page, and a good one stores its profile and goes home |
| EditProfile.SameTableAsRegister | src/common/EditProfileComponent.jsx:106-132 | the update's error table equals the sign-up table, and never produces the page's own fetch or update messages |
| EditProfile.EditProfileForm.constructor | src/common/EditProfileComponent.jsx:8-11 | empty fields, no error |
| EditProfile.EditProfileForm.FetchUserData | src/common/EditProfileComponent.jsx:13-60 | without a token nothing happens; with a token but no profile it fails on a TypeError; otherwise it looks the user up by e-mail and fills the three fields on a 200, or sets the fetch-failed or table message |
| EditProfile.EditProfileForm.HandleFullNameChange | src/common/EditProfileComponent.jsx:62-64 | replaces the name field |
| EditProfile.EditProfileForm.HandleEmailChange | src/common/EditProfileComponent.jsx:66-68 | replaces the e-mail field |
| EditProfile.EditProfileForm.HandlePhoneNumberChange | src/common/EditProfileComponent.jsx:70-72 | replaces the phone field |
| EditProfile.EditProfileForm.HandleSubmit | src/common/EditProfileComponent.jsx:74-133 | without a session it sends nothing and shows the TypeError's message; otherwise it sends the partial update; a 200 stores the rebuilt session and profile and clears the error; anything else leaves the session alone and shows the update-failed or table message |
| EditProfile.EditProfileForm.HandleCancel | src/common/EditProfileComponent.jsx:135-141 | clears the three fields and the error |
| ChangePassword.ChangePasswordForm.constructor | src/common/ChangePasswordComponent.jsx:5-7 | empty fields and error |
| ChangePassword.ChangePasswordForm.HandleNewPasswordChange | src/common/ChangePasswordComponent.jsx:11-13 | replaces the new-password field |
| ChangePassword.ChangePasswordForm.HandleConfirmNewPasswordChange | src/common/ChangePasswordComponent.jsx:15-17 | replaces the confirmation field |
| ChangePassword.ChangePasswordForm.HandleSubmit | src/common/ChangePasswordComponent.jsx:19-59 | a mismatch shows the message and sends nothing; a missing session or a thrown answer changes nothing; a 200 stores the rebuilt pair; any answer resets both fields |
| ChangePassword.ChangePasswordForm.HandleCancel | src/common/ChangePasswordComponent.jsx:105-109 | clears both fields and the error |
| CreateCourse.CreateCourseForm.constructor | src/admin/CreateCourseComponent.jsx:9-15 | the empty course, no error, not loading |
| CreateCourse.CreateCourseForm.HandleChange | src/admin/CreateCourseComponent.jsx:19-22 | sets the named field to the value and keeps every other field |
| CreateCourse.CreateCourseForm.HandleSubmit | src/admin/CreateCourseComponent.jsx:24-88 | without a session it sends nothing and fails on a TypeError; success toasts and resets the form; a 503 wrapper error is shown and toasted first; an error with a response is shown and toasted per status; an error without one fails on a TypeError; loading always ends |
| CreateCourse.CreateCourseForm.HandleCancel | src/admin/CreateCourseComponent.jsx:91-97 | resets the form to the empty course |
| CreateCourse.SubmitError | src/admin/CreateCourseComponent.jsx:51-75 | the backend's message, except that a 400 without one shows the format-invalid text |
| CreateCourse.SubmitToast | src/admin/CreateCourseComponent.jsx:51-75 | the backend's message, except that a 400 without one toasts the body's `courseCode` entry |
| CreateCourse.ErrorAndToast | src/admin/CreateCourseComponent.jsx:51-54 | the banner and the toast agree exactly when the status is not 400, a message is present, or the code entry equals the format-invalid text |
| CreateInstance.CreateInstanceForm.constructor | src/admin/CreateInstanceComponent.jsx:9-15 | the empty instance, no error, not loading |
| CreateInstance.CreateInstanceForm.HandleChange | src/admin/CreateInstanceComponent.jsx:19-22 | sets the named field to the value and keeps every other field |
| CreateInstance.CreateInstanceForm.HandleSubmit | src/admin/CreateInstanceComponent.jsx:24-90 | the same shape as creating a course, over the instance fields |
| CreateInstance.CreateInstanceForm.HandleCancel | src/admin/CreateInstanceComponent.jsx:93-99 | resets the form to the empty instance |
| CreateInstance.SubmitError | src/admin/CreateInstanceComponent.jsx:53-77 | the backend's message, except that a 400 without one shows and toasts the body's `semester` entry |
| CreateInstance.SubmitErrorOnlyAt400 | src/admin/CreateInstanceComponent.jsx:52-76 | the status matters only through being 400 or not |
| CreateInstance.SilentBadRequest | src/admin/CreateInstanceComponent.jsx:52-54 | a 400 shows no banner exactly when its body has neither a message nor a `semester` entry |
| Distinct.FirstIndex | src/common/ListCourseInstanceComponent.jsx:33-35 | the position of the first occurrence of a present element |
| Distinct.DedupSpec | src/common/ListCourseInstanceComponent.jsx:33-35 | spreading a `Set` of the ids gives no duplicates, the same elements, in order of first occurrence |
| Distinct.DedupDistinct | src/common/ListCourseInstanceComponent.jsx:112-114 | ids that are already distinct come back unchanged |
| ListCourseInstance.CourseIds | src/common/ListCourseInstanceComponent.jsx:33-35 | the `courseId` of each instance, position by position |
| ListCourseInstance.CourseRequests | src/common/ListCourseInstanceComponent.jsx:37-39 | one course lookup per id, in order |
| ListCourseInstance.FetchAll | src/common/ListCourseInstanceComponent.jsx:37-40 | on success, the i-th course is the backend's answer for the i-th id; it rejects exactly when one lookup rejects, and then with the first rejection in id order |
| ListCourseInstance.BuildCourseMap | src/common/ListCourseInstanceComponent.jsx:41-44 | the map's keys are the ids; each key maps to the course at its last occurrence, so with distinct ids each id maps to its own course |
| ListCourseInstance.MergeFields | src/common/ListCourseInstanceComponent.jsx:46-49 | merging an instance with its course keeps every key of both, and the course's fields win |
| ListCourseInstance.AnnotateFields | src/common/ListCourseInstanceComponent.jsx:129-133 | an annotated instance keeps its own fields and gains the course code and title, or `N/A` and `Unknown Title` when absent |
| ListCourseInstance.CourseOfInstance | src/common/ListCourseInstanceComponent.jsx:112-126 | when every lookup succeeds, each instance finds in the map exactly the course the backend gives for its id |
| ListCourseInstance.LoadCourses | src/common/ListCourseInstanceComponent.jsx:33-44 | sends one lookup per distinct id; fails exactly when the first rejection does; otherwise each instance's map entry is its backend course |
| ListCourseInstance.ListCourseInstanceComponent.constructor | src/common/ListCourseInstanceComponent.jsx:13-22 | empty lists and fields, no error, not loading, no search performed |
| ListCourseInstance.ListCourseInstanceComponent.SetYear | src/common/ListCourseInstanceComponent.jsx:15 | replaces the year |
| ListCourseInstance.ListCourseInstanceComponent.SetSemester | src/common/ListCourseInstanceComponent.jsx:16 | replaces the semester |
| ListCourseInstance.ListCourseInstanceComponent.HandleError | src/common/ListCourseInstanceComponent.jsx:67-81 | the banner is the table's message (503, 404, answered, unanswered) |
| ListCourseInstance.ListCourseInstanceComponent.FetchCourses | src/common/ListCourseInstanceComponent.jsx:26-65 | a non-array listing is shown raw; a failure shows the table's message; otherwise every instance is merged with its own course, position by position |
| ListCourseInstance.ListCourseInstanceComponent.HandleSearch | src/common/ListCourseInstanceComponent.jsx:83-146 | an empty year or semester shows the validation message and sends nothing; otherwise the listing is filtered by year and semester, and every instance found is annotated with its own course |
| ListCourseInstance.ListCourseInstanceComponent.ShowSearch | src/common/ListCourseInstanceComponent.jsx:103-142 | a thrown listing or lookup empties both lists and shows the table's message; a non-array listing empties both and shows itself; otherwise both lists become the instances, each annotated with its own course |
| ListCourseInstance.ListCourseInstanceComponent.HandleDeleteClick | src/common/ListCourseInstanceComponent.jsx:148-162 | without a token nothing happens; otherwise it sends the delete; success empties the filtered list and toasts; a failure shows the table's message, toasts nothing and keeps the list |
| ListCourse.Without | src/common/ListCourseComponent.jsx:80 | filtering never lengthens the list |
| ListCourse.WithoutSpec | src/common/ListCourseComponent.jsx:80 | exactly the courses with a different id remain, each as often as before |
| ListCourse.WithoutAppend | src/common/ListCourseComponent.jsx:80 | filtering distributes over concatenation, so order is kept |
| ListCourse.WithoutIdempotent | src/common/ListCourseComponent.jsx:80 | deleting the same id twice is deleting it once; a list without that id is unchanged |
| ListCourse.Headers | src/common/ListCourseComponent.jsx:99-103 | title, code, then `Action` for an admin or `View` otherwise |
| ListCourse.View | src/common/ListCourseComponent.jsx:126-177 | an error wins; otherwise the rows, or the role's empty message |
| ListCourse.RoleOnlyChangesEmptyMessage | src/common/ListCourseComponent.jsx:126-177 | the two roles see different bodies exactly when there is no error and no course |
| ListCourse.OnlyAdminDeletes | src/common/ListCourseComponent.jsx:137-166 | every row has one controls cell with the search icon; it has the trash icon exactly for an administrator |
| ListCourse.RowsFillGrid | src/common/ListCourseComponent.jsx:99-166 | for either role the three headers fill one line of the `grid-cols-3` grid, and row k of the courses lands on line k + 1, title, code and controls |
| ListCourse.ListCourseComponent.constructor | src/common/ListCourseComponent.jsx:10-15 | empty list, no error, not an admin, not loading |
| ListCourse.ListCourseComponent.SyncAdmin | src/common/ListCourseComponent.jsx:19-24 | with a profile, admin exactly when its roles include `ADMIN`; without one, unchanged |
| ListCourse.ListCourseComponent.HandleError | src/common/ListCourseComponent.jsx:50-68 | the banner is the table's message |
| ListCourse.ListCourseComponent.FetchCourses | src/common/ListCourseComponent.jsx:26-48 | only with a token; an array listing replaces the courses; a non-array clears them with the format message; a failure clears them with the table's message |
| ListCourse.ListCourseComponent.HandleDeleteClick | src/common/ListCourseComponent.jsx:75-88 | only with a token; success removes exactly that id's courses and toasts; a failure shows the table's message, toasts nothing and keeps the list |
| AdminListCourse.RebuiltSessionIsNotAdmin | src/admin/ListCourseComponent.jsx:12 | a session rebuilt after a profile or password update has no roles, so the page no longer sees an admin |
| AdminListCourse.HeadersFitGrid | src/admin/ListCourseComponent.jsx:54-59 | the header row fills the grid exactly, for either role |
| AdminListCourse.RowsOverflowGrid | src/admin/ListCourseComponent.jsx:54-97 | as written, one three-cell row for a non-admin leaves the two-column grid misaligned |
| AdminListCourse.FittedRowCells | src/admin/ListCourseComponent.jsx:54-59 | a row has as many cells as there are headers |
| AdminListCourse.FittedRowsAlign | src/admin/ListCourseComponent.jsx:54-97 | with fitted rows, headers plus any number of rows fill the grid exactly |
| AdminListCourse.View | src/admin/ListCourseComponent.jsx:75-103 | an error wins; an array shows its rows or the empty message; the render crashes exactly when a non-array body has a positive `length` |
| AdminListCourse.PositiveNumeralShowInt | src/admin/ListCourseComponent.jsx:79 | a number's own decimal text compares with zero as the number does, as `"5" > 0` converts the string first |
| AdminListCourse.LengthTextLikeNumber | src/admin/ListCourseComponent.jsx:79 | a `length` given as the digits of a number takes the same branch as the number itself |
| AdminListCourse.NumericTextLengthCrashes | src/admin/ListCourseComponent.jsx:79-80 | a body such as `{length: "5"}` passes the length test and then crashes on `map` |
| AdminListCourse.TrimStartSpec | src/admin/ListCourseComponent.jsx:79 | what the leading trim drops is all whitespace, and what it keeps does not start with whitespace |
| AdminListCourse.TrimEndSpec | src/admin/ListCourseComponent.jsx:79 | what the trailing trim drops is all whitespace, and what it keeps does not end with whitespace |
| AdminListCourse.SpacesIgnored | src/admin/ListCourseComponent.jsx:79 | any whitespace before and after a text leaves the conversion's sign unchanged |
| AdminListCourse.FractionPositive | src/admin/ListCourseComponent.jsx:79 | `"0."` followed by digits that are not all zero is positive |
| AdminListCourse.MinusNeverPositive | src/admin/ListCourseComponent.jsx:79 | no text starting with `-` is positive |
| AdminListCourse.FormFeedSkipped | src/admin/ListCourseComponent.jsx:79 | a form feed before a numeral is whitespace to the conversion |
| AdminListCourse.VerticalTabSkipped | src/admin/ListCourseComponent.jsx:79 | a vertical tab before a numeral is whitespace to the conversion |
| AdminListCourse.AdminListCourseComponent.constructor | src/admin/ListCourseComponent.jsx:8-9 | an empty list, no error |
| AdminListCourse.AdminListCourseComponent.FetchCourses | src/admin/ListCourseComponent.jsx:14-51 | stores the listing as given, array or not; a failure keeps the list and shows the table's message |
| Dashboard.View | src/common/DashboardComponent.jsx:78-99 | an error wins; otherwise the rows, or the role's empty message |
| Dashboard.RoleOnlyChangesEmptyMessage | src/common/DashboardComponent.jsx:78-99 | two profiles give different views exactly when there is no error, no course, and only one of them is an admin |
| Dashboard.DashboardComponent.constructor | src/common/DashboardComponent.jsx:7-8 | an empty list, no error |
| Dashboard.DashboardComponent.HandleError | src/common/DashboardComponent.jsx:36-55 | the banner is the table's message |
| Dashboard.DashboardComponent.FetchCourses | src/common/DashboardComponent.jsx:13-34 | without a session it fails on a TypeError and sends nothing; an array replaces the courses; a non-array or a failure clears them with a message |
| Screens.KeyOfInjective | src/admin/AdminPanel.jsx:63-84 | different screens have different sidebar keys |
| AdminPanel.SelectByKey | src/admin/AdminPanel.jsx:63-84 | every screen but enrollment is reached by its own key and by no other; unknown keys select nothing |
| AdminPanel.AdminPanelComponent.constructor | src/admin/AdminPanel.jsx:27-30 | starts on the dashboard key with the spinner up |
| AdminPanel.AdminPanelComponent.SetSelectedComponent | src/admin/AdminPanel.jsx:27 | replaces the selected key |
| AdminPanel.AdminPanelComponent.ValidateUserToken | src/admin/AdminPanel.jsx:32-61 | the spinner always comes down and the selected screen shows; with a token it looks up the profile's e-mail and keeps the user only on a 200 |
| UserPanel.SelectByKey | src/user/UserPanel.jsx:54-73 | every screen but the two create forms is reached by its own key and by no other |
| UserPanel.PanelsAgree | src/user/UserPanel.jsx:54-73 | the two panels select the same screen for every shared key; they differ exactly on the create keys and enrollment |
| UserPanel.UserPanelComponent.constructor | src/user/UserPanel.jsx:14-18 | starts on the dashboard key, spinner up, sidebar closed |
| UserPanel.UserPanelComponent.ToggleSidebar | src/user/UserPanel.jsx:20-22 | flips the sidebar |
| UserPanel.UserPanelComponent.SetSelectedComponent | src/user/UserPanel.jsx:14 | replaces the selected key |
| UserPanel.UserPanelComponent.ValidateUserToken | src/user/UserPanel.jsx:24-52 | the same as the admin panel's validation |
| ErrorTables.TablesFactorThroughKind | src/common/ListCourseComponent.jsx:50-68 | every page's error table depends only on the kind of failure: a listed status, another status, no answer, or not sent |
| ErrorTables.CourseTablesDifferOnlyAt404 | src/common/DashboardComponent.jsx:36-55 | the dashboard and course-list tables agree everywhere except at 404 |
| ErrorTables.InstanceTableSharesOnly503 | src/common/ListCourseInstanceComponent.jsx:67-81 | the instance list and the course list agree only on the 503 message |
| ErrorTables.BadRequestBanners | src/admin/CreateInstanceComponent.jsx:52-54 | on a 400 with neither a message nor the field entry, the course form shows a banner and the instance form shows none |
| ErrorTables.LoginAgainstRegister | src/auth/Register.jsx:56-83 | where the sign-in and sign-up tables give the same message |

## Left out

- Markup, styling, spinners and icons are not modelled; of the rendering, only the branch each view takes is kept.
- Toasts are not modelled on the pages other than course and instance creation and deletion.
- axios and the backend are not modelled: every answer is an input.
  - The course and instance service wrappers return `response.data` (`Remote.Fetch`) or rethrow; the user service returns the whole response (`Remote.Call`) or rethrows. Their URLs are not modelled; only the authentication service's URLs are.
- Console logging is not modelled.
- Navigation is recorded only as its target path. Router internals are left out, and so is the sign-up page's link to the sign-in page.
- React scheduling is not modelled.
  - The persistence effect runs once after each handler (`Flush`), and the route guard's effect at most twice (`Evaluate`).
  - Batching, unmount and stale closures are left out.
  - Dependency checks compare values, where React compares references.
- AuthContext.AuthProvider.constructor: requires both stored entries to parse. `JSON.parse` of a corrupt entry throws during the first render, which the model leaves out.
- The JSON codec covers only the text the page itself writes: no whitespace, fixed key order, and only quote and backslash escaped in string values. Keys are written as they are, since every key the page stores is a plain identifier.
- `coursesMap` is a map keyed by the id value. JavaScript would convert each key to a string, so `1` and `"1"` would collide there but not here.
- ListCourseInstance.FetchAll: `Promise.all` runs the lookups at once. The model runs them in id order, so it does not capture timing, only which rejection is reported.
- Effects whose dependency reads `user.accessToken` crash the render when `user` is `null`. That crash is not modelled; the admin and course lists state their behaviour for a present session.
- `handleSearchClick` and the detail view of the instance list are not modelled, and neither are the detail components they open.
- AdminListCourse.View: a string `length` is read as `Number` reads plain decimals: an optional sign, digits, an optional fraction, and around them any of the whitespace and line terminators of sections 7.2 and 7.3 of ECMA-262. Exponents, `0x`/`0o`/`0b` prefixes and `Infinity` are read as not a number, so such a string never crashes the render here.
- AdminListCourse.View: a decimal is compared exactly, not as a double. A text such as `"0."` followed by 400 zeros and a `1` underflows to 0 for `Number` and passes no length test in the program, but is positive here.
- AdminListCourse.View: the body is always an array of objects, or an object whose fields are `null`, integers or strings. A `null` or string body, `null` elements in an array, and a boolean, fractional or array `length` cannot be written down, so their branches are not modelled.
- Typed records (`Session`, `Profile`, `UserRecord`) always carry every field. Missing or `undefined` fields in a backend answer are not modelled. An error answer always carries an object body (`Remote.ErrorBody`): a `data` that is `null` or not an object, on which reading `error.response.data.message` (src/admin/CreateCourseComponent.jsx:47) would throw a TypeError, is not modelled.
- The logout page, both sidebars and the enrollment screen are not part of this model; the panels only name the screens they select.

## Findings

| source | as written | input that shows it | evidently intended | confidence | as-written member | corrected member |
|---|---|---|---|---|---|---|
| src/admin/ListCourseComponent.jsx:54-97 | a non-admin grid has two columns and two headers, but every course row renders three cells (title, code, actions) | a non-admin session and one course: 2 headers + 3 cells in a 2-column grid leaves the row split across lines; neither panel imports this component (src/admin/AdminPanel.jsx:22 and src/user/UserPanel.jsx:7 import the common list), so no screen of the app reaches it | each row renders one cell per header, as the actions cell exists only for admins | medium, not executed | AdminListCourse.RowsOverflowGrid | AdminListCourse.FittedRowsAlign |
