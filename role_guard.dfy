/** The route guard that compares the user's role with the roles a handler
    declares, by position in a fixed hierarchy ['Viewer', 'Admin', 'Owner']. */
module RoleGuard {
  import opened Common

  const RoleHierarchy: seq<string> := ["Viewer", "Admin", "Owner"]

  /** Array.prototype.indexOf on strings: the first position of `x`, or -1. */
  function IndexOf(s: seq<string>, x: string): (r: int)
    ensures -1 <= r < |s|
    ensures r >= 0 ==> s[r] == x && forall j :: 0 <= j < r ==> s[j] != x
    ensures r == -1 <==> x !in s
  {
    if |s| == 0 then -1
    else if s[0] == x then 0
    else
      var k := IndexOf(s[1..], x);
      if k == -1 then -1 else k + 1
  }

  /** The position of a role name in the hierarchy; -1 for a name outside it. */
  function Rank(role: string): int {
    IndexOf(RoleHierarchy, role)
  }

  /** The user attached to the request; its `role` property may be missing. */
  datatype RequestUser = RequestUser(role: Option<string>)

  /** The route handler; `roles` is the metadata `@Roles(...)` stored on it, if any. */
  datatype Handler = Handler(roles: Option<seq<string>>)

  /** What the guard sees of the execution context. */
  datatype Context = Context(handler: Option<Handler>, user: Option<RequestUser>)

  /** `canActivate` either returns a boolean or throws an UnauthorizedException. */
  datatype GuardOutcome = Returns(granted: bool) | ThrowsUnauthorized(message: string)

  const NoUserRole: string := "No user role"

  /** `context.getHandler() && Reflect.getMetadata(ROLES_KEY, handler)`: no handler
      gives a falsy value, as does a handler without the metadata. */
  function ReflectRoles(ctx: Context): (r: Option<seq<string>>)
    ensures ctx.handler.None? ==> r.None?
    ensures ctx.handler.Some? ==> r == ctx.handler.value.roles
  {
    match ctx.handler
    case None => None
    case Some(h) => h.roles
  }

  /** JavaScript truthiness of `user.role`: present and not the empty string. */
  predicate HasRole(u: RequestUser) {
    u.role.Some? && u.role.value != ""
  }

  /** `roles.some(role => userRoleIdx >= roleHierarchy.indexOf(role))`. */
  function SomeRankAtMost(roles: seq<string>, userRoleIdx: int): (r: bool)
    ensures r <==> exists i :: 0 <= i < |roles| && Rank(roles[i]) <= userRoleIdx
  {
    if |roles| == 0 then false
    else userRoleIdx >= Rank(roles[0]) || SomeRankAtMost(roles[1..], userRoleIdx)
  }

  function CanActivate(ctx: Context): GuardOutcome {
    var roles := ReflectRoles(ctx);
    if roles.None? || |roles.value| == 0 then Returns(true)
    else if ctx.user.None? || !HasRole(ctx.user.value) then ThrowsUnauthorized(NoUserRole)
    else Returns(SomeRankAtMost(roles.value, Rank(ctx.user.value.role.value)))
  }

  /** A context whose handler declares `roles` and whose user has role `role`. */
  function Ctx(roles: seq<string>, role: string): Context {
    Context(Some(Handler(Some(roles))), Some(RequestUser(Some(role))))
  }

  // ---------------------------------------------------------------------------
  // Properties of the guard

  /** Without declared roles (no metadata or an empty list) the guard grants and
      never looks at the user. */
  lemma GrantsWhenNoRolesDeclared(ctx: Context)
    requires ReflectRoles(ctx).None? || ReflectRoles(ctx) == Some([])
    ensures CanActivate(ctx) == Returns(true)
  {
  }

  /** A null handler makes `reflectRoles` falsy, so the guard grants. */
  lemma GrantsForNullHandler(user: Option<RequestUser>)
    ensures CanActivate(Context(None, user)) == Returns(true)
  {
  }

  /** With roles declared, a missing user or a missing role raises Unauthorized. */
  lemma UnauthorizedWithoutUserRole(ctx: Context)
    requires ReflectRoles(ctx).Some? && ReflectRoles(ctx).value != []
    requires ctx.user.None? || !HasRole(ctx.user.value)
    ensures CanActivate(ctx) == ThrowsUnauthorized("No user role")
  {
  }

  /** Any-of rule: granted iff some declared role ranks no higher than the user. */
  lemma GrantedIffSomeDeclaredRoleAtMostUser(roles: seq<string>, role: string)
    requires roles != [] && role != ""
    ensures CanActivate(Ctx(roles, role)) ==
            Returns(exists i :: 0 <= i < |roles| && Rank(roles[i]) <= Rank(role))
  {
  }

  /** The lowest rank among the declared roles. */
  function MinRank(roles: seq<string>): (m: int)
    requires roles != []
    ensures forall i :: 0 <= i < |roles| ==> m <= Rank(roles[i])
    ensures exists i :: 0 <= i < |roles| && m == Rank(roles[i])
  {
    if |roles| == 1 then Rank(roles[0])
    else
      var rest := MinRank(roles[1..]);
      if Rank(roles[0]) <= rest then Rank(roles[0]) else rest
  }

  /** The threshold is the lowest declared rank, not the highest. */
  lemma {:induction false} ThresholdIsLowestDeclaredRank(roles: seq<string>, userRoleIdx: int)
    requires roles != []
    ensures SomeRankAtMost(roles, userRoleIdx) <==> MinRank(roles) <= userRoleIdx
  {
    if |roles| > 1 {
      ThresholdIsLowestDeclaredRank(roles[1..], userRoleIdx);
    }
  }

  /** `@Roles('Admin', 'Owner')` admits exactly the users `@Roles('Admin')` admits. */
  lemma AdminOwnerActsAsAdmin(user: Option<RequestUser>)
    ensures CanActivate(Context(Some(Handler(Some(["Admin", "Owner"]))), user))
         == CanActivate(Context(Some(Handler(Some(["Admin"]))), user))
  {
    assert Rank("Viewer") == 0 && Rank("Admin") == 1 && Rank("Owner") == 2;
  }

  /** Monotone in rank: what the guard grants to a role it grants to every role
      ranked at least as high. */
  lemma GrantIsMonotoneInRank(roles: seq<string>, lower: string, higher: string)
    requires roles != [] && lower != "" && higher != ""
    requires Rank(lower) <= Rank(higher)
    requires CanActivate(Ctx(roles, lower)) == Returns(true)
    ensures CanActivate(Ctx(roles, higher)) == Returns(true)
  {
  }

  /** The denials the hierarchy implies for single declared roles. */
  lemma HierarchyDenials()
    ensures CanActivate(Ctx(["Owner"], "Admin")) == Returns(false)
    ensures CanActivate(Ctx(["Admin"], "Viewer")) == Returns(false)
    ensures CanActivate(Ctx(["Owner"], "Viewer")) == Returns(false)
    ensures CanActivate(Ctx(["Owner"], "Owner")) == Returns(true)
    ensures CanActivate(Ctx(["Admin"], "Owner")) == Returns(true)
    ensures CanActivate(Ctx(["Viewer"], "Viewer")) == Returns(true)
  {
    assert Rank("Viewer") == 0 && Rank("Admin") == 1 && Rank("Owner") == 2;
  }

  /** A user role outside the hierarchy ranks -1 and is denied whenever every
      declared role is a known one. */
  lemma UnknownUserRoleDenied(roles: seq<string>, role: string)
    requires roles != [] && role != "" && role !in RoleHierarchy
    requires forall i :: 0 <= i < |roles| ==> roles[i] in RoleHierarchy
    ensures CanActivate(Ctx(roles, role)) == Returns(false)
  {
  }

  /** The other side of indexOf's -1: a declared role outside the hierarchy
      admits every user that has a role at all, known or not. */
  lemma UnknownDeclaredRoleAdmitsAnyRole(roles: seq<string>, role: string, k: nat)
    requires k < |roles| && roles[k] !in RoleHierarchy && role != ""
    ensures CanActivate(Ctx(roles, role)) == Returns(true)
  {
  }
}
