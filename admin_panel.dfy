/** The admin panel: a profile check on mount, then a key-selected screen. */
module AdminPanel {
  import opened Values
  import opened Records
  import opened Remote
  import opened Screens
  import opened AuthContext

  /** `renderSelectedComponent`'s `switch`. */
  function Select(key: string): Option<Screen> {
    if key == "dashboard" then Some(Dashboard)
    else if key == "createCourse" then Some(Screen.CreateCourse)
    else if key == "listCourses" then Some(ListCourses)
    else if key == "createInstance" then Some(Screen.CreateInstance)
    else if key == "listInstances" then Some(ListInstances)
    else if key == "editProfile" then Some(EditProfile)
    else if key == "changePassword" then Some(ChangePassword)
    else if key == "logOut" then Some(Screen.LogOut)
    else None
  }

  /** Every screen but enrollment is reached by its own key, and only by that key. */
  lemma SelectByKey(key: string, s: Screen)
    ensures s != Enrollment ==> Select(KeyOf(s)) == Some(s)
    ensures Select(key) == Some(s) ==> key == KeyOf(s) && s != Enrollment
    ensures Select(key).None? <==> key !in {"dashboard", "createCourse", "listCourses", "createInstance",
                                            "listInstances", "editProfile", "changePassword", "logOut"}
  {
  }

  function View(isLoading: bool, selected: string): PanelView {
    if isLoading then Loading else Showing(Select(selected))
  }

  class AdminPanelComponent {
    var selectedComponent: string
    var isLoading: bool
    var foundUser: Option<UserRecord>

    constructor ()
      ensures selectedComponent == "dashboard" && isLoading && foundUser == None
      ensures View(isLoading, selectedComponent) == Loading
    {
      selectedComponent, isLoading, foundUser := "dashboard", true, None;
    }

    /** `setSelectedComponent`, as the sidebar calls it. */
    method SetSelectedComponent(key: string)
      modifies this`selectedComponent
      ensures selectedComponent == key
    {
      selectedComponent := key;
    }

    /** `validateUserToken`: with a token, looks the profile's e-mail up and keeps the record
        only on a 200; reading a missing profile throws inside the `try`. The placeholder is
        always gone afterwards. */
    method ValidateUserToken(auth: AuthProvider, answer: Call<UserRecord>) returns (sent: seq<Request>)
      modifies this`isLoading, this`foundUser
      ensures !isLoading && View(isLoading, selectedComponent) == Showing(Select(selectedComponent))
      ensures !HasToken(auth.user) ==> sent == [] && foundUser == old(foundUser)
      ensures HasToken(auth.user) && auth.userProfile.None? ==> sent == [] && foundUser == None
      ensures HasToken(auth.user) && auth.userProfile.Some? ==>
        sent == [GetUser(auth.userProfile.value.email, auth.user.value.accessToken)] &&
        foundUser == if Succeeded(answer) then Some(answer.data) else None
    {
      sent := [];
      if auth.user.Some? && auth.user.value.accessToken != "" {
        if auth.userProfile.None? {
          foundUser := None;
        } else {
          sent := [GetUser(auth.userProfile.value.email, auth.user.value.accessToken)];
          foundUser := if answer.Ok? && answer.status == 200 then Some(answer.data) else None;
        }
      }
      isLoading := false;
    }
  }
}
