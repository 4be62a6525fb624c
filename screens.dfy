/** The screens a panel can show, and the sidebar key that names each. */
module Screens {
  import opened Values

  datatype Screen = Dashboard | CreateCourse | ListCourses | CreateInstance | ListInstances
                  | Enrollment | EditProfile | ChangePassword | LogOut

  /** The value a sidebar entry passes to `setSelectedComponent`. */
  function KeyOf(s: Screen): string {
    match s
    case Dashboard => "dashboard"
    case CreateCourse => "createCourse"
    case ListCourses => "listCourses"
    case CreateInstance => "createInstance"
    case ListInstances => "listInstances"
    case Enrollment => "enrollment"
    case EditProfile => "editProfile"
    case ChangePassword => "changePassword"
    case LogOut => "logOut"
  }

  /** Distinct screens have distinct keys. */
  lemma KeyOfInjective(s: Screen, t: Screen)
    ensures KeyOf(s) == KeyOf(t) ==> s == t
  {
  }

  /** What a panel renders: the placeholder while its check runs, then the selected screen,
      or nothing for an unknown key. */
  datatype PanelView = Loading | Showing(screen: Option<Screen>)
}
