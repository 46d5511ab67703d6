/** The pure decisions of the task service: the permission lookup, the two
    task-level gates and the sanitizing projection. */
module TaskRules {
  import opened Common
  import opened Entities

  /** The authenticated claim `{id, role, orgId}` attached to a request. */
  datatype Principal = Principal(id: int, role: string, orgId: int)

  /** `permissions.some(p => p.name === perm)`. */
  function HasNamed(ps: seq<Permission>, name: string): (r: bool)
    ensures r <==> exists i :: 0 <= i < |ps| && ps[i].name == name
  {
    if |ps| == 0 then false
    else ps[0].name == name || HasNamed(ps[1..], name)
  }

  /** `hasPermission`: load the user's role by id with its permissions; a role
      that cannot be found makes `role?.` undefined, which is falsy. */
  function HasPermission(roles: map<int, Role>, user: User, perm: string): bool {
    user.roleId in roles && HasNamed(roles[user.roleId].permissions, perm)
  }

  /** `canEditOrDelete`: with `edit_task` the organization decides, otherwise
      only the assignee may act. */
  function CanEditOrDelete(roles: map<int, Role>, user: User, task: Task): bool {
    if HasPermission(roles, user, EditTaskPerm) then task.organization == user.orgId
    else task.assignedTo == user.id
  }

  /** `canAccessTask`: the coarse gate on the claim's role name. */
  function CanAccessTask(user: Principal, task: Option<Task>): bool {
    if task.None? then false
    else if user.role == "Admin" then true
    else if user.role == "Owner" && user.orgId == task.value.organization then true
    else if user.role == "Viewer" && user.id == task.value.assignedTo then true
    else false
  }

  /** `toOutputDto`. */
  function ToOutputDto(t: Task): TaskOutput {
    TaskOutput(t.id, t.title, t.description, t.category, t.status, t.order)
  }

  // ---------------------------------------------------------------------------
  // Properties of the decisions

  /** Permission membership is exactly the role's permission-name set; a user
      whose role is missing holds nothing. */
  lemma HasPermissionIsMembership(roles: map<int, Role>, user: User, perm: string)
    ensures HasPermission(roles, user, perm) <==>
            user.roleId in roles && perm in PermissionNames(roles[user.roleId])
  {
    if user.roleId in roles && perm in PermissionNames(roles[user.roleId]) {
      var ps := roles[user.roleId].permissions;
      var i :| 0 <= i < |ps| && ps[i].name == perm;
      assert HasNamed(ps, perm);
    }
  }

  /** With `edit_task`, a user may edit or delete exactly the tasks of their
      own organization, whoever the assignee is. */
  lemma EditPermissionMeansSameOrganization(roles: map<int, Role>, user: User, task: Task)
    requires HasPermission(roles, user, EditTaskPerm)
    ensures CanEditOrDelete(roles, user, task) <==> task.organization == user.orgId
  {
  }

  /** Without `edit_task`, a user may edit or delete exactly the tasks
      assigned to them, in any organization. */
  lemma AssigneeFallbackWithoutEditPermission(roles: map<int, Role>, user: User, task: Task)
    requires !HasPermission(roles, user, EditTaskPerm)
    ensures CanEditOrDelete(roles, user, task) <==> task.assignedTo == user.id
  {
  }

  /** A consequence of the two branches: holding `edit_task` takes away the
      assignee fallback for tasks of other organizations. */
  lemma EditPermissionOverridesAssignment(roles: map<int, Role>, user: User, task: Task)
    requires HasPermission(roles, user, EditTaskPerm)
    requires task.assignedTo == user.id && task.organization != user.orgId
    ensures !CanEditOrDelete(roles, user, task)
  {
  }

  /** Every allowed edit or delete is in the user's organization or on a task
      assigned to the user. */
  lemma EditAllowedOnlyInOrgOrAssigned(roles: map<int, Role>, user: User, task: Task)
    requires CanEditOrDelete(roles, user, task)
    ensures task.organization == user.orgId || task.assignedTo == user.id
  {
  }

  /** The decision table of `canAccessTask`. */
  lemma CanAccessTaskTable(user: Principal, task: Option<Task>)
    ensures task.None? ==> !CanAccessTask(user, task)
    ensures task.Some? && user.role == "Admin" ==> CanAccessTask(user, task)
    ensures task.Some? && user.role == "Owner" ==>
              (CanAccessTask(user, task) <==> user.orgId == task.value.organization)
    ensures task.Some? && user.role == "Viewer" ==>
              (CanAccessTask(user, task) <==> user.id == task.value.assignedTo)
    ensures user.role !in {"Admin", "Owner", "Viewer"} ==> !CanAccessTask(user, task)
  {
  }

  /** The output never depends on the assignee or the organization, and keeps
      every other column. */
  lemma OutputHidesRelations(t: Task, assignee: int, org: int)
    ensures ToOutputDto(t.(assignedTo := assignee, organization := org)) == ToOutputDto(t)
    ensures var o := ToOutputDto(t);
            o.id == t.id && o.title == t.title && o.description == t.description &&
            o.category == t.category && o.status == t.status && o.order == t.order
  {
  }
}
