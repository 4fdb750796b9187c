/** The home screen (`Home`): the role label of the profile card and the
    administration panel, both driven by the user's roles with one leading
    "ROLE_" removed. */
module Home {
  import opened JsValues
  import opened AuthContext
  import opened ProtectedRoute
  import App

  /** `(user?.roles || []).map(strip)`. */
  function Roles(user: Option<Identity>): (names: seq<string>)
    ensures |names| == |UserRoles(user)|
    ensures forall i :: 0 <= i < |names| ==> names[i] == StripRolePrefix(UserRoles(user)[i])
  {
    var roles := UserRoles(user);
    seq(|roles|, i requires 0 <= i < |roles| => StripRolePrefix(roles[i]))
  }

  predicate IsAdmin(user: Option<Identity>) {
    "ADMIN" in Roles(user)
  }

  /** The label of the profile card: "ADMIN" for an administrator, "USER"
      for anyone else, including a user without roles or without identity. */
  function RoleLabel(user: Option<Identity>): (shown: string)
    ensures shown == "ADMIN" || shown == "USER"
    ensures shown == "ADMIN" <==> IsAdmin(user)
  {
    if IsAdmin(user) then "ADMIN" else "USER"
  }

  /** The administration panel, given as the target of its link. */
  function AdminPanel(user: Option<Identity>): (link: Option<string>)
    ensures link.Some? <==> IsAdmin(user)
    ensures link.Some? ==> link.value == "/usuarios"
  {
    if IsAdmin(user) then Some("/usuarios") else None
  }

  /** No roles at all: the label is "USER" and there is no panel. */
  lemma NoRolesMeansUser(user: Option<Identity>)
    requires UserRoles(user) == []
    ensures RoleLabel(user) == "USER" && AdminPanel(user) == None
  {
  }

  /** The home screen and the shell decide "administrator" alike. */
  lemma AgreesWithApp(user: Option<Identity>)
    ensures IsAdmin(user) <==> App.IsAdmin(user)
  {
    App.IsAdminIff(user);
    var roles := UserRoles(user);
    if IsAdmin(user) {
      var i :| 0 <= i < |roles| && Roles(user)[i] == "ADMIN";
      assert roles[i] in roles;
    }
    if r :| r in roles && StripRolePrefix(r) == "ADMIN" {
      var i :| 0 <= i < |roles| && roles[i] == r;
      assert Roles(user)[i] == "ADMIN";
    }
  }

  /** The panel's link leads an authenticated user to the user list, never
      to the forbidden notice. */
  lemma PanelLinkIsAdmitted(user: Option<Identity>)
    requires AdminPanel(user).Some?
    ensures App.Render(AdminPanel(user).value, true, user) == App.UsersScreen
  {
    AgreesWithApp(user);
    App.UsersScreenIffAdmin(user);
  }
}
