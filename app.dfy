/** The application shell (`App`): the navigation bar and the route table.
    Roles are normalised to their bare names (string roles and role
    objects alike), the "Gestionar" link is offered to administrators, and
    each path is mapped to a screen, guarded as the table says. */
module App {
  import opened JsValues
  import opened JsStrings
  import opened AuthContext
  import opened ProtectedRoute

  /** An entry of `user.roles` as the shell accepts it: a string, or an
      object with optional `authority`, `nombre` and `name` fields. */
  datatype RoleEntry = RoleName(role: string) | RoleObject(authority: Option<string>, nombre: Option<string>, name: Option<string>)

  /** A string loses one leading "ROLE_"; an object is first reduced to
      `r.authority || r.nombre || r.name || ""`, then stripped the same way. */
  function NormalizeRole(r: RoleEntry): string {
    match r
    case RoleName(s) => StripRolePrefix(s)
    case RoleObject(authority, nombre, name) => StripRolePrefix(OrElse(authority, OrElse(nombre, OrElse(name, ""))))
  }

  /** Normalisation removes at most one prefix, and only at the start: the
      original is either the result itself or "ROLE_" followed by it. */
  lemma NormalizeRoleAnchored(s: string)
    ensures NormalizeRole(RoleName(s)) == s || RolePrefix + NormalizeRole(RoleName(s)) == s
    ensures !StartsWith(s, RolePrefix) ==> NormalizeRole(RoleName(s)) == s
  {
  }

  /** A role object is named by its first non-empty field among
      `authority`, `nombre`, `name`, in that order; with none it is "". */
  lemma NormalizeRoleObject(authority: Option<string>, nombre: Option<string>, name: Option<string>)
    ensures Truthy(authority) ==> NormalizeRole(RoleObject(authority, nombre, name)) == NormalizeRole(RoleName(authority.value))
    ensures !Truthy(authority) && Truthy(nombre) ==>
      NormalizeRole(RoleObject(authority, nombre, name)) == NormalizeRole(RoleName(nombre.value))
    ensures !Truthy(authority) && !Truthy(nombre) && Truthy(name) ==>
      NormalizeRole(RoleObject(authority, nombre, name)) == NormalizeRole(RoleName(name.value))
    ensures !Truthy(authority) && !Truthy(nombre) && !Truthy(name) ==>
      NormalizeRole(RoleObject(authority, nombre, name)) == ""
  {
    assert !StartsWith("", RolePrefix);
  }

  function NormalizeRoles(roles: seq<RoleEntry>): (names: seq<string>)
    ensures |names| == |roles|
    ensures forall i :: 0 <= i < |roles| ==> names[i] == NormalizeRole(roles[i])
  {
    seq(|roles|, i requires 0 <= i < |roles| => NormalizeRole(roles[i]))
  }

  /** The store's roles as the shell sees them (`user?.roles || []`). */
  function RoleEntries(user: Option<Identity>): (entries: seq<RoleEntry>)
    ensures |entries| == |UserRoles(user)|
    ensures forall i :: 0 <= i < |entries| ==> entries[i] == RoleName(UserRoles(user)[i])
  {
    var roles := UserRoles(user);
    seq(|roles|, i requires 0 <= i < |roles| => RoleName(roles[i]))
  }

  /** `roles.includes("ADMIN")` on the normalised roles. */
  predicate IsAdmin(user: Option<Identity>) {
    "ADMIN" in NormalizeRoles(RoleEntries(user))
  }

  /** Administrator exactly when some role of the user is "ADMIN" once
      stripped; a user that is null is not an administrator. */
  lemma IsAdminIff(user: Option<Identity>)
    ensures IsAdmin(user) <==> exists r :: r in UserRoles(user) && StripRolePrefix(r) == "ADMIN"
    ensures user.None? ==> !IsAdmin(user)
  {
    var roles := UserRoles(user);
    var names := NormalizeRoles(RoleEntries(user));
    if IsAdmin(user) {
      var i :| 0 <= i < |names| && names[i] == "ADMIN";
      assert roles[i] in roles && StripRolePrefix(roles[i]) == "ADMIN";
    }
    if r :| r in roles && StripRolePrefix(r) == "ADMIN" {
      var i :| 0 <= i < |roles| && roles[i] == r;
      assert names[i] == "ADMIN";
    }
  }

  /** The account part of the navigation bar: the user's email and the
      "Salir" button, or the "Ingresar" link. */
  datatype Account = SignedIn(email: Option<string>) | SignInLink

  datatype NavBar = NavBar(manageLink: bool, account: Account)

  /** The navigation bar: "Gestionar" shows for an authenticated
      administrator only; the account part follows `isAuthenticated`. */
  function Nav(isAuthenticated: bool, user: Option<Identity>): (n: NavBar)
    ensures n.manageLink <==> isAuthenticated && IsAdmin(user)
    ensures isAuthenticated <==> n.account.SignedIn?
  {
    NavBar(isAuthenticated && IsAdmin(user),
           if isAuthenticated then SignedIn(if user.Some? then user.value.email else None) else SignInLink)
  }

  /** What the main area shows. */
  datatype Screen = Navigate(to: string) | LoginScreen | HomeScreen | UsersScreen | ForbiddenScreen

  /** A guarded route: the guard's verdict, with the child screen in place
      of the outlet. */
  function Outlet(v: View, child: Screen): Screen {
    match v
    case Redirect(to) => Navigate(to)
    case RenderChild => child
    case Forbidden => ForbiddenScreen
  }

  /** The route table: "/login" sends an authenticated user home, "/" is
      guarded with no required roles, "/usuarios" with ["ADMIN"], and any
      other path goes home or to the login page. */
  function Render(path: string, isAuthenticated: bool, user: Option<Identity>): (s: Screen)
    ensures !isAuthenticated ==> s == LoginScreen || s == Navigate("/login")
    ensures isAuthenticated ==> s != LoginScreen && s != Navigate("/login")
  {
    if path == "/login" then (if isAuthenticated then Navigate("/") else LoginScreen)
    else if path == "/" then Outlet(Guard(isAuthenticated, user, []), HomeScreen)
    else if path == "/usuarios" then Outlet(Guard(isAuthenticated, user, ["ADMIN"]), UsersScreen)
    else Navigate(if isAuthenticated then "/" else "/login")
  }

  /** Every authenticated user reaches the home screen, whatever the roles,
      and even before the identity is known. */
  lemma HomeForEveryAuthenticatedUser(user: Option<Identity>)
    ensures Render("/", true, user) == HomeScreen
  {
  }

  /** The user list is shown to an authenticated user exactly when that
      user is an administrator; everyone else authenticated gets the
      forbidden notice there. */
  lemma UsersScreenIffAdmin(user: Option<Identity>)
    ensures Render("/usuarios", true, user) == (if IsAdmin(user) then UsersScreen else ForbiddenScreen)
  {
    IsAdminIff(user);
  }

  /** The "Gestionar" link is offered exactly to those the "/usuarios"
      route admits. */
  lemma ManageLinkMatchesGuard(isAuthenticated: bool, user: Option<Identity>)
    ensures Nav(isAuthenticated, user).manageLink <==> Render("/usuarios", isAuthenticated, user) == UsersScreen
  {
    UsersScreenIffAdmin(user);
  }

  /** `/login` sends an authenticated user home; any path outside the
      table goes home or to the login page. */
  lemma LoginPageAndFallback(path: string, isAuthenticated: bool, user: Option<Identity>)
    ensures Render("/login", true, user) == Navigate("/")
    ensures Render("/login", false, user) == LoginScreen
    ensures path != "/login" && path != "/" && path != "/usuarios" ==>
      Render(path, isAuthenticated, user) == Navigate(if isAuthenticated then "/" else "/login")
  {
  }

  /** Where a path ends once its redirect, if any, is followed. */
  function Settle(s: Screen, isAuthenticated: bool, user: Option<Identity>): Screen {
    if s.Navigate? then Render(s.to, isAuthenticated, user) else s
  }

  /** The whole route table after one redirect: the login page for anyone
      unauthenticated; for everyone else the user list or the forbidden
      notice on "/usuarios", and the home screen on every other path. */
  lemma RouteTable(path: string, isAuthenticated: bool, user: Option<Identity>)
    ensures Settle(Render(path, isAuthenticated, user), isAuthenticated, user) ==
      if !isAuthenticated then LoginScreen
      else if path == "/usuarios" then (if IsAdmin(user) then UsersScreen else ForbiddenScreen)
      else HomeScreen
  {
    UsersScreenIffAdmin(user);
  }

  /** One redirect is always enough: the screen a redirect leads to is not
      itself a redirect. */
  lemma RedirectSettles(path: string, isAuthenticated: bool, user: Option<Identity>)
    requires Render(path, isAuthenticated, user).Navigate?
    ensures !Render(Render(path, isAuthenticated, user).to, isAuthenticated, user).Navigate?
  {
  }
}
