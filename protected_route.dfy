/** The route guard (`ProtectedRoute`): from the store's `isAuthenticated`
    and `user` and the route's `allowedRoles` it decides between a redirect
    to the login page, rendering the guarded child, and the forbidden
    notice. It holds no state and is evaluated on every render. */
module ProtectedRoute {
  import opened JsValues
  import opened JsStrings
  import opened AuthContext

  const RolePrefix: string := "ROLE_"

  /** `role.startsWith("ROLE_") ? role.slice(5) : role`: one leading
      prefix is removed, and only a leading one. */
  function StripRolePrefix(role: string): (r: string)
    ensures StartsWith(role, RolePrefix) ==> RolePrefix + r == role
    ensures !StartsWith(role, RolePrefix) ==> r == role
  {
    if StartsWith(role, RolePrefix) then role[|RolePrefix|..] else role
  }

  /** Stripping undoes exactly one prefix, so it is not idempotent. */
  lemma StripRemovesOnePrefix(x: string)
    ensures StripRolePrefix(RolePrefix + x) == x
    ensures StripRolePrefix("ROLE_ROLE_X") == "ROLE_X"
    ensures StripRolePrefix(StripRolePrefix("ROLE_ROLE_X")) == "X"
  {
    assert StartsWith(RolePrefix + x, RolePrefix) by {
      assert (RolePrefix + x)[..|RolePrefix|] == RolePrefix;
    }
    assert StartsWith("ROLE_ROLE_X", RolePrefix) by {
      assert "ROLE_ROLE_X"[..5] == RolePrefix;
    }
    assert StartsWith("ROLE_X", RolePrefix) by {
      assert "ROLE_X"[..5] == RolePrefix;
    }
  }

  /** The three things the guard can render. */
  datatype View = Redirect(to: string) | RenderChild | Forbidden

  /** `user?.roles || []`. */
  function UserRoles(user: Option<Identity>): (roles: seq<string>)
    ensures user.None? ==> roles == []
    ensures user.Some? ==> roles == user.value.roles
  {
    if user.Some? then user.value.roles else []
  }

  /** `roles.map(strip).some(r => allowedRoles.includes(r))`, walking the
      user's roles in order. */
  predicate HasAllowedRole(roles: seq<string>, allowedRoles: seq<string>)
    ensures HasAllowedRole(roles, allowedRoles) ==> roles != [] && allowedRoles != []
    decreases |roles|
  {
    |roles| > 0 && (StripRolePrefix(roles[0]) in allowedRoles || HasAllowedRole(roles[1..], allowedRoles))
  }

  lemma {:induction false} HasAllowedRoleIff(roles: seq<string>, allowedRoles: seq<string>)
    ensures HasAllowedRole(roles, allowedRoles) <==>
      exists r :: r in roles && StripRolePrefix(r) in allowedRoles
    decreases |roles|
  {
    if |roles| > 0 {
      HasAllowedRoleIff(roles[1..], allowedRoles);
      assert roles == [roles[0]] + roles[1..];
    }
  }

  /** The guard. Not authenticated: redirect to "/login", whatever the
      roles. Authenticated with no required roles: the child renders, even
      with no identity yet. Otherwise the child renders exactly when some
      role of the user, stripped of its prefix, is listed verbatim in
      `allowedRoles`, and the forbidden notice shows otherwise; there is
      never a redirect. */
  function Guard(isAuthenticated: bool, user: Option<Identity>, allowedRoles: seq<string>): (v: View)
    ensures !isAuthenticated ==> v == Redirect("/login")
    ensures isAuthenticated && allowedRoles == [] ==> v == RenderChild
    ensures isAuthenticated && allowedRoles != [] ==> v == RenderChild || v == Forbidden
    ensures isAuthenticated && allowedRoles != [] ==>
      (v == RenderChild <==> exists r :: r in UserRoles(user) && StripRolePrefix(r) in allowedRoles)
  {
    HasAllowedRoleIff(UserRoles(user), allowedRoles);
    if !isAuthenticated then Redirect("/login")
    else if |allowedRoles| == 0 then RenderChild
    else if HasAllowedRole(UserRoles(user), allowedRoles) then RenderChild
    else Forbidden
  }

  /** Required roles are compared as written: listing "ROLE_ADMIN" keeps
      out a user whose only role is "ROLE_ADMIN", while listing "ADMIN"
      lets that user in. */
  lemma AllowedRolesComparedVerbatim(email: Option<string>)
    ensures Guard(true, Some(Identity(email, ["ROLE_ADMIN"])), ["ROLE_ADMIN"]) == Forbidden
    ensures Guard(true, Some(Identity(email, ["ROLE_ADMIN"])), ["ADMIN"]) == RenderChild
    ensures Guard(true, Some(Identity(email, ["USER"])), ["ADMIN"]) == Forbidden
  {
    StripRemovesOnePrefix("ADMIN");
    assert "ROLE_ADMIN" == RolePrefix + "ADMIN";
    assert !StartsWith("USER", RolePrefix);
  }

  /** Authenticated while the identity is still unknown: any route with
      required roles shows the forbidden notice. */
  lemma GuardWithoutIdentity(allowedRoles: seq<string>)
    requires allowedRoles != []
    ensures Guard(true, None, allowedRoles) == Forbidden
  {
  }

  /** More roles for the user, or more entries in a non-empty list of
      required roles, never turn an allowed render into a denied one.
      (Going from no required roles to some is a different route: it can
      deny.) */
  lemma GuardMonotone(user: Option<Identity>, user': Option<Identity>, allowedRoles: seq<string>, allowedRoles': seq<string>)
    requires forall r :: r in UserRoles(user) ==> r in UserRoles(user')
    requires forall a :: a in allowedRoles ==> a in allowedRoles'
    requires allowedRoles == [] ==> allowedRoles' == []
    requires Guard(true, user, allowedRoles) == RenderChild
    ensures Guard(true, user', allowedRoles') == RenderChild
  {
    if allowedRoles != [] {
      var r :| r in UserRoles(user) && StripRolePrefix(r) in allowedRoles;
      assert allowedRoles' != [] by { assert allowedRoles[0] in allowedRoles'; }
      assert r in UserRoles(user') && StripRolePrefix(r) in allowedRoles';
    }
  }

  /** Neither the order nor repetitions of the roles on either side matter. */
  lemma GuardOrderFree(user: Option<Identity>, user': Option<Identity>, allowedRoles: seq<string>, allowedRoles': seq<string>)
    requires forall r :: r in UserRoles(user) <==> r in UserRoles(user')
    requires forall a :: a in allowedRoles <==> a in allowedRoles'
    ensures Guard(true, user, allowedRoles) == Guard(true, user', allowedRoles')
  {
    if allowedRoles != [] {
      assert allowedRoles[0] in allowedRoles';
    }
    if allowedRoles' != [] {
      assert allowedRoles'[0] in allowedRoles;
    }
  }
}
