/** The user panel: the admin panel's check, a smaller set of screens and a sidebar toggle. */
module UserPanel {
  import opened Values
  import opened Records
  import opened Remote
  import opened Screens
  import opened AuthContext
  import AdminPanel

  /** `renderSelectedComponent`'s `switch`. */
  function Select(key: string): Option<Screen> {
    if key == "dashboard" then Some(Dashboard)
    else if key == "listCourses" then Some(ListCourses)
    else if key == "listInstances" then Some(ListInstances)
    else if key == "enrollment" then Some(Enrollment)
    else if key == "editProfile" then Some(EditProfile)
    else if key == "changePassword" then Some(ChangePassword)
    else if key == "logOut" then Some(Screen.LogOut)
    else None
  }

  /** The creation screens are not reachable here; every other screen is, by its own key. */
  lemma SelectByKey(key: string, s: Screen)
    ensures s != Screen.CreateCourse && s != Screen.CreateInstance ==> Select(KeyOf(s)) == Some(s)
    ensures Select(key) == Some(s) ==> key == KeyOf(s) && s != Screen.CreateCourse && s != Screen.CreateInstance
  {
  }

  /** The two panels agree on every key both know; they differ exactly on the two creation
      keys and on `enrollment`. */
  lemma PanelsAgree(key: string)
    ensures Select(key).Some? && AdminPanel.Select(key).Some? ==> Select(key) == AdminPanel.Select(key)
    ensures Select(key) != AdminPanel.Select(key) <==> key in {"createCourse", "createInstance", "enrollment"}
  {
  }

  function View(isLoading: bool, selected: string): PanelView {
    if isLoading then Loading else Showing(Select(selected))
  }

  class UserPanelComponent {
    var selectedComponent: string
    var isLoading: bool
    var foundUser: Option<UserRecord>
    var isSidebarOpen: bool

    constructor ()
      ensures selectedComponent == "dashboard" && isLoading && foundUser == None && !isSidebarOpen
      ensures View(isLoading, selectedComponent) == Loading
    {
      selectedComponent, isLoading, foundUser, isSidebarOpen := "dashboard", true, None, false;
    }

    /** `toggleSidebar` */
    method ToggleSidebar()
      modifies this`isSidebarOpen
      ensures isSidebarOpen == !old(isSidebarOpen)
    {
      isSidebarOpen := !isSidebarOpen;
    }

    /** `setSelectedComponent`, as the sidebar calls it. */
    method SetSelectedComponent(key: string)
      modifies this`selectedComponent
      ensures selectedComponent == key
    {
      selectedComponent := key;
    }

    /** `validateUserToken`, the same check as the admin panel's. */
    method ValidateUserToken(auth: AuthProvider, answer: Call<UserRecord>) returns (sent: seq<Request>)
      modifies this`isLoading, this`foundUser
      ensures !isLoading && View(isLoading, selectedComponent) == Showing(Select(selectedComponent))
      ensures !HasToken(auth.user) ==> sent == [] && foundUser == old(foundUser)
      ensures HasToken(auth.user) && auth.userProfile.None? ==> sent == [] && foundUser == None
      ensures HasToken(auth.user) && auth.userProfile.Some? ==>
        sent == [GetUser(auth.userProfile.value.email, auth.user.value.accessToken)] &&
        foundUser == if Succeeded(answer) then Some(answer.data) else None
    {
      sent := [];
      if auth.user.Some? && auth.user.value.accessToken != "" {
        if auth.userProfile.None? {
          foundUser := None;
        } else {
          sent := [GetUser(auth.userProfile.value.email, auth.user.value.accessToken)];
          foundUser := if answer.Ok? && answer.status == 200 then Some(answer.data) else None;
        }
      }
      isLoading := false;
    }
  }
}
