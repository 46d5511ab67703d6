/** The HTTP layer: each route declares roles for the role guard, then its
    handler calls the task service. A route's behaviour is the guard decision
    followed by the handler, stated over the service's store. */
module TaskController {
  import opened Common
  import opened Entities
  import opened RoleGuard
  import opened TaskRules
  import opened TaskQuery
  import opened TaskOrdering
  import opened TaskSpec
  import opened TaskServiceState

  datatype Route =
    | CreateTaskRoute | ListTasksRoute | ListCategoriesRoute | UpdateOrderRoute
    | UpdateStatusRoute | EditTaskRoute | DeleteTaskRoute | AuditLogRoute

  /** The `@Roles(...)` metadata of each handler. */
  function DeclaredRoles(route: Route): seq<string> {
    match route
    case ListTasksRoute => ["Viewer", "Owner", "Admin"]
    case ListCategoriesRoute => ["Viewer", "Owner", "Admin"]
    case _ => ["Owner", "Admin"]
  }

  predicate Mutates(route: Route) {
    route in {CreateTaskRoute, UpdateOrderRoute, UpdateStatusRoute, EditTaskRoute, DeleteTaskRoute}
  }

  /** What the client receives: the handler's value, a guard refusal (false
      becomes 403 Forbidden), the guard's Unauthorized, or a service error. */
  datatype Response<T> =
    | Served(value: T)
    | Refused
    | Unauthorized(message: string)
    | Failed(error: ServiceError)

  datatype Exchange<T> = Exchange(response: Response<T>, store: Store)

  /** The guard decision for a route and the request's claim. */
  function Admission(route: Route, user: Principal): GuardOutcome {
    CanActivate(Ctx(DeclaredRoles(route), user.role))
  }

  /** The pipeline: the handler only runs when the guard grants. */
  function Guarded<T>(route: Route, user: Principal, s: Store, handled: Exchange<T>): Exchange<T> {
    match Admission(route, user)
    case Returns(true) => handled
    case Returns(false) => Exchange(Refused, s)
    case ThrowsUnauthorized(m) => Exchange(Unauthorized(m), s)
  }

  /** A service call's outcome as a response: a thrown error is passed on. */
  function Lift<T>(st: Step<T>): Exchange<T> {
    match st.result
    case Ok(v) => Exchange(Served(v), st.store)
    case Err(e) => Exchange(Failed(e), st.store)
  }

  /** The query string of `GET /tasks`. */
  datatype Query = Query(sort: Option<SortField>, category: Option<string>, status: Option<string>)

  /** `if (status) filter.status = status`: an empty status is ignored. */
  function StatusFilter(q: Query): (f: Option<string>)
    ensures f.Some? <==> q.status.Some? && q.status.value != ""
    ensures f.Some? ==> f == q.status
  {
    if q.status.Some? && q.status.value != "" then q.status else None
  }

  /** Which service reader `GET /tasks` calls, decided by the claim's role name. */
  datatype ListCall = ListAll | ListOrg(orgId: int) | ListForUser(userId: int, options: ListOptions)

  function ListDispatch(user: Principal, q: Query): ListCall {
    if user.role == "Admin" then ListAll
    else if user.role == "Owner" then ListOrg(user.orgId)
    else ListForUser(user.id, ListOptions(q.sort, StatusFilter(q), q.category))
  }

  // ---------------------------------------------------------------------------
  // Handlers, after the guard

  function CreateTaskHandler(s: Store, user: Principal, dto: TaskInput): Exchange<TaskOutput> {
    Lift(CreateTaskSpec(s, user.id, dto))
  }

  function ListTasksHandler(s: Store, user: Principal, q: Query): Exchange<seq<TaskOutput>> {
    match ListDispatch(user, q)
    case ListAll => Exchange(Served(ListAllTasksSpec(s)), s)
    case ListOrg(o) => Exchange(Served(ListOrgTasksSpec(s, o)), s)
    case ListForUser(id, o) => Lift(ListTasksSpec(s, id, o))
  }

  function ListCategoriesHandler(s: Store, user: Principal): Exchange<seq<CategoryList>> {
    match ListCategoriesSpec(s, user.id)
    case Ok(v) => Exchange(Served(v), s)
    case Err(e) => Exchange(Failed(e), s)
  }

  function UpdateOrderHandler(s: Store, user: Principal, id: int, order: int): Exchange<TaskOutput> {
    Lift(UpdateTaskOrderSpec(s, user.id, id, order))
  }

  function UpdateStatusHandler(s: Store, user: Principal, id: int, status: string): Exchange<TaskOutput> {
    Lift(UpdateTaskStatusSpec(s, user.id, id, status))
  }

  /** `getTask`, then `canAccessTask` on the claim (a missing task is refused
      here with Forbidden), then the service's own checks. */
  function EditTaskHandler(s: Store, user: Principal, id: int, dto: TaskEdit): Exchange<TaskOutput> {
    if !CanAccessTask(user, FindTask(s.tasks, id)) then Exchange(Failed(Forbidden), s)
    else Lift(EditTaskSpec(s, user.id, id, dto))
  }

  function DeleteTaskHandler(s: Store, user: Principal, id: int): Exchange<Deleted> {
    if !CanAccessTask(user, FindTask(s.tasks, id)) then Exchange(Failed(Forbidden), s)
    else Lift(DeleteTaskSpec(s, user.id, id))
  }

  function AuditLogHandler(s: Store): Exchange<seq<AuditEntry>> {
    Exchange(Served(s.auditLog), s)
  }

  // ---------------------------------------------------------------------------
  // The controller object

  /** Each method is one route as the framework serves it: the role guard on
      the route's `@Roles`, then the handler on the task service. */
  class TaskController {
    const taskService: TaskService

    constructor(svc: TaskService)
      ensures taskService == svc
    {
      taskService := svc;
    }

    method CreateTask(user: Principal, dto: TaskInput) returns (r: Response<TaskOutput>)
      requires taskService.Valid()
      modifies taskService
      ensures taskService.Valid()
      ensures Exchange(r, taskService.State())
              == Guarded(CreateTaskRoute, user, old(taskService.State()), CreateTaskHandler(old(taskService.State()), user, dto))
    {
      var admitted := Admission(CreateTaskRoute, user);
      if admitted.ThrowsUnauthorized? {
        return Unauthorized(admitted.message);
      } else if !admitted.granted {
        return Refused;
      }
      var out := taskService.CreateTask(user.id, dto);
      r := if out.Ok? then Served(out.value) else Failed(out.error);
    }

    method ListTasks(user: Principal, q: Query) returns (r: Response<seq<TaskOutput>>)
      requires taskService.Valid()
      modifies taskService
      ensures taskService.Valid()
      ensures Exchange(r, taskService.State())
              == Guarded(ListTasksRoute, user, old(taskService.State()), ListTasksHandler(old(taskService.State()), user, q))
    {
      var admitted := Admission(ListTasksRoute, user);
      if admitted.ThrowsUnauthorized? {
        return Unauthorized(admitted.message);
      } else if !admitted.granted {
        return Refused;
      }
      var filter := StatusFilter(q);
      if user.role == "Admin" {
        var ts := taskService.ListAllTasks();
        r := Served(ts);
      } else if user.role == "Owner" {
        var ts := taskService.ListOrgTasks(user.orgId);
        r := Served(ts);
      } else {
        var out := taskService.ListTasks(user.id, ListOptions(q.sort, filter, q.category));
        r := if out.Ok? then Served(out.value) else Failed(out.error);
      }
    }

    method ListCategories(user: Principal) returns (r: Response<seq<CategoryList>>)
      ensures Exchange(r, taskService.State())
              == Guarded(ListCategoriesRoute, user, taskService.State(), ListCategoriesHandler(taskService.State(), user))
    {
      var admitted := Admission(ListCategoriesRoute, user);
      if admitted.ThrowsUnauthorized? {
        return Unauthorized(admitted.message);
      } else if !admitted.granted {
        return Refused;
      }
      var out := taskService.ListCategories(user.id);
      r := if out.Ok? then Served(out.value) else Failed(out.error);
    }

    method UpdateOrder(user: Principal, id: int, order: int) returns (r: Response<TaskOutput>)
      requires taskService.Valid()
      modifies taskService
      ensures taskService.Valid()
      ensures Exchange(r, taskService.State())
              == Guarded(UpdateOrderRoute, user, old(taskService.State()), UpdateOrderHandler(old(taskService.State()), user, id, order))
    {
      var admitted := Admission(UpdateOrderRoute, user);
      if admitted.ThrowsUnauthorized? {
        return Unauthorized(admitted.message);
      } else if !admitted.granted {
        return Refused;
      }
      var out := taskService.UpdateTaskOrder(user.id, id, order);
      r := if out.Ok? then Served(out.value) else Failed(out.error);
    }

    method UpdateStatus(user: Principal, id: int, status: string) returns (r: Response<TaskOutput>)
      requires taskService.Valid()
      modifies taskService
      ensures taskService.Valid()
      ensures Exchange(r, taskService.State())
              == Guarded(UpdateStatusRoute, user, old(taskService.State()), UpdateStatusHandler(old(taskService.State()), user, id, status))
    {
      var admitted := Admission(UpdateStatusRoute, user);
      if admitted.ThrowsUnauthorized? {
        return Unauthorized(admitted.message);
      } else if !admitted.granted {
        return Refused;
      }
      var out := taskService.UpdateTaskStatus(user.id, id, status);
      r := if out.Ok? then Served(out.value) else Failed(out.error);
    }

    method EditTask(user: Principal, id: int, dto: TaskEdit) returns (r: Response<TaskOutput>)
      requires taskService.Valid()
      modifies taskService
      ensures taskService.Valid()
      ensures Exchange(r, taskService.State())
              == Guarded(EditTaskRoute, user, old(taskService.State()), EditTaskHandler(old(taskService.State()), user, id, dto))
    {
      var admitted := Admission(EditTaskRoute, user);
      if admitted.ThrowsUnauthorized? {
        return Unauthorized(admitted.message);
      } else if !admitted.granted {
        return Refused;
      }
      var task := taskService.GetTask(id);
      if !CanAccessTask(user, task) {
        return Failed(Forbidden);
      }
      var out := taskService.EditTask(user.id, id, dto);
      r := if out.Ok? then Served(out.value) else Failed(out.error);
    }

    method DeleteTask(user: Principal, id: int) returns (r: Response<Deleted>)
      requires taskService.Valid()
      modifies taskService
      ensures taskService.Valid()
      ensures Exchange(r, taskService.State())
              == Guarded(DeleteTaskRoute, user, old(taskService.State()), DeleteTaskHandler(old(taskService.State()), user, id))
    {
      var admitted := Admission(DeleteTaskRoute, user);
      if admitted.ThrowsUnauthorized? {
        return Unauthorized(admitted.message);
      } else if !admitted.granted {
        return Refused;
      }
      var task := taskService.GetTask(id);
      if !CanAccessTask(user, task) {
        return Failed(Forbidden);
      }
      var out := taskService.DeleteTask(user.id, id);
      r := if out.Ok? then Served(out.value) else Failed(out.error);
    }

    method GetAuditLog(user: Principal) returns (r: Response<seq<AuditEntry>>)
      ensures Exchange(r, taskService.State())
              == Guarded(AuditLogRoute, user, taskService.State(), AuditLogHandler(taskService.State()))
    {
      var admitted := Admission(AuditLogRoute, user);
      if admitted.ThrowsUnauthorized? {
        return Unauthorized(admitted.message);
      } else if !admitted.granted {
        return Refused;
      }
      var log := taskService.GetAuditLog();
      r := Served(log);
    }
  }

  // ---------------------------------------------------------------------------
  // Properties of the routes

  /** The writers and the audit log admit Owner and Admin and refuse Viewer;
      the readers admit all three; a claim without a role is Unauthorized
      everywhere; a role name outside the hierarchy is refused everywhere. */
  lemma RouteAdmissionTable(route: Route, user: Principal)
    ensures user.role in {"Owner", "Admin"} ==> Admission(route, user) == Returns(true)
    ensures user.role == "Viewer" ==>
              Admission(route, user) == Returns(route in {ListTasksRoute, ListCategoriesRoute})
    ensures user.role == "" ==> Admission(route, user) == ThrowsUnauthorized(NoUserRole)
    ensures user.role != "" && user.role !in RoleHierarchy ==> Admission(route, user) == Returns(false)
  {
    assert Rank("Viewer") == 0 && Rank("Admin") == 1 && Rank("Owner") == 2;
    if user.role != "" && user.role !in RoleHierarchy {
      UnknownUserRoleDenied(DeclaredRoles(route), user.role);
    } else if user.role == "Viewer" {
      match route
      case ListTasksRoute =>
      case ListCategoriesRoute =>
      case _ => assert DeclaredRoles(route) == ["Owner", "Admin"];
    }
  }

  /** A Viewer's call to any writing route, or to the audit log, is refused and
      leaves the store as it was, whatever the handler would have done. */
  lemma ViewerCannotWrite<T>(route: Route, user: Principal, s: Store, handled: Exchange<T>)
    requires user.role == "Viewer" && (Mutates(route) || route == AuditLogRoute)
    ensures Guarded(route, user, s, handled) == Exchange(Refused, s)
  {
    RouteAdmissionTable(route, user);
  }

  /** `GET /tasks` by role name: an Admin claim gets every task of every
      organization and an Owner claim every task of its claimed organization,
      neither logged; any other claim goes through the service's scoped query,
      with the status filter only when the status is non-empty, and is logged. */
  lemma ListTasksByRole(s: Store, user: Principal, q: Query)
    requires ValidStore(s)
    ensures user.role == "Admin" ==>
              ListTasksHandler(s, user, q) == Exchange(Served(Outputs(s.tasks)), s)
    ensures user.role == "Owner" ==>
              ListTasksHandler(s, user, q) ==
              Exchange(Served(Outputs(Keep(s.tasks, (t: Task) => InScope(OrgScope(user.orgId), t)))), s)
    ensures user.role != "Admin" && user.role != "Owner" ==>
              var o := ListOptions(q.sort, if q.status == Some("") then None else q.status, q.category);
              ListTasksHandler(s, user, q) == Lift(ListTasksSpec(s, user.id, o))
  {
  }

  /** The edit and delete routes answer Forbidden, not Not found, for an id
      with no row, and change nothing. */
  lemma MissingTaskIsForbiddenOnEditAndDelete(s: Store, user: Principal, id: int, dto: TaskEdit)
    requires forall t :: t in s.tasks ==> t.id != id
    ensures EditTaskHandler(s, user, id, dto) == Exchange(Failed(Forbidden), s)
    ensures DeleteTaskHandler(s, user, id) == Exchange(Failed(Forbidden), s)
  {
  }

  /** An edit through the route succeeds exactly when the guard grants, the
      claim's role passes `canAccessTask`, and the stored user passes
      `canEditOrDelete`; on success the store is the service's edit. */
  lemma EditRouteSucceedsIff(s: Store, user: Principal, k: nat, dto: TaskEdit)
    requires ValidStore(s) && k < |s.tasks|
    ensures var ex := Guarded(EditTaskRoute, user, s, EditTaskHandler(s, user, s.tasks[k].id, dto));
            ex.response.Served? <==>
              && Admission(EditTaskRoute, user) == Returns(true)
              && CanAccessTask(user, Some(s.tasks[k]))
              && user.id in s.users
              && CanEditOrDelete(s.roles, s.users[user.id], s.tasks[k])
  {
    FindTaskIsTheRowWithId(s.tasks, k);
  }

  /** The same for delete; note that no layer asks for `delete_task`. */
  lemma DeleteRouteSucceedsIff(s: Store, user: Principal, k: nat)
    requires ValidStore(s) && k < |s.tasks|
    ensures var ex := Guarded(DeleteTaskRoute, user, s, DeleteTaskHandler(s, user, s.tasks[k].id));
            ex.response.Served? <==>
              && Admission(DeleteTaskRoute, user) == Returns(true)
              && CanAccessTask(user, Some(s.tasks[k]))
              && user.id in s.users
              && CanEditOrDelete(s.roles, s.users[user.id], s.tasks[k])
  {
    FindTaskIsTheRowWithId(s.tasks, k);
  }

  /** For an Admin claim `canAccessTask` admits every existing task, so only the
      service's organization check stands between it and another
      organization's task. */
  lemma AdminClaimReliesOnServiceCheck(s: Store, user: Principal, k: nat, dto: TaskEdit)
    requires ValidStore(s) && k < |s.tasks| && user.role == "Admin"
    requires user.id in s.users && HasPermission(s.roles, s.users[user.id], EditTaskPerm)
    requires s.tasks[k].organization != s.users[user.id].orgId
    ensures Guarded(EditTaskRoute, user, s, EditTaskHandler(s, user, s.tasks[k].id, dto))
            == Exchange(Failed(Forbidden), s)
  {
    FindTaskIsTheRowWithId(s.tasks, k);
    RouteAdmissionTable(EditTaskRoute, user);
  }

  /** The order route, unlike status and edit, can move any existing task of
      any organization for any stored user that gets past the guard. */
  lemma OrderRouteIgnoresOwnership(s: Store, user: Principal, k: nat, order: int)
    requires ValidStore(s) && k < |s.tasks| && user.id in s.users
    requires user.role in {"Owner", "Admin"}
    ensures Guarded(UpdateOrderRoute, user, s, UpdateOrderHandler(s, user, s.tasks[k].id, order)).response
            == Served(ToOutputDto(s.tasks[k].(order := order)))
  {
    RouteAdmissionTable(UpdateOrderRoute, user);
    UpdateTaskOrderOverwritesOnly(s, user.id, k, order);
  }
}
