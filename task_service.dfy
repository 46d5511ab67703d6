/** The service object: repositories and the audit log are fields that its
    methods update, and each method is proved to follow its TaskSpec function. */
module TaskServiceState {
  import opened Common
  import opened Entities
  import TaskRules
  import opened TaskQuery
  import opened TaskOrdering
  import opened TaskSpec

  class TaskService {
    var tasks: seq<Task>
    var users: map<int, User>
    var roles: map<int, Role>
    var auditLog: seq<AuditEntry>
    var nextTaskId: int

    function State(): Store
      reads this
    {
      Store(tasks, users, roles, auditLog, nextTaskId)
    }

    ghost predicate Valid()
      reads this
    {
      ValidStore(State())
    }

    /** The service starts with an empty audit log over the given repositories. */
    constructor(ts: seq<Task>, us: map<int, User>, rs: map<int, Role>, next: int)
      ensures State() == Store(ts, us, rs, [], next)
    {
      tasks, users, roles, auditLog, nextTaskId := ts, us, rs, [], next;
    }

    /** `logAudit`: append one entry for the acting user. */
    method LogAudit(user: User, action: AuditAction, targetId: Option<int>)
      modifies this`auditLog
      ensures auditLog == old(auditLog) + [AuditEntry(user.id, action, targetId)]
    {
      auditLog := auditLog + [AuditEntry(user.id, action, targetId)];
    }

    /** `hasPermission`: scan the role's permissions until the name is seen. */
    method HasPermission(user: User, perm: string) returns (b: bool)
      ensures b == TaskRules.HasPermission(roles, user, perm)
    {
      if user.roleId !in roles {
        return false;
      }
      var ps := roles[user.roleId].permissions;
      b := false;
      var i := 0;
      while i < |ps| && !b
        invariant 0 <= i <= |ps|
        invariant b <==> exists j :: 0 <= j < i && ps[j].name == perm
      {
        b := ps[i].name == perm;
        i := i + 1;
      }
    }

    /** `canEditOrDelete`. */
    method CanEditOrDelete(user: User, task: Task) returns (b: bool)
      ensures b == TaskRules.CanEditOrDelete(roles, user, task)
    {
      var canEdit := HasPermission(user, EditTaskPerm);
      if canEdit {
        return task.organization == user.orgId;
      }
      return task.assignedTo == user.id;
    }

    /** The `where` of `listTasks` and `listCategories`. */
    method ScopeOf(user: User) returns (scope: Scope)
      ensures scope == VisibleScope(roles, user)
    {
      var canView := HasPermission(user, ViewTaskPerm);
      if canView {
        scope := OrgScope(user.orgId);
      } else {
        scope := AssigneeScope(user.id);
      }
    }

    method CreateTask(userId: int, dto: TaskInput) returns (r: Result<TaskOutput>)
      requires Valid()
      modifies this`tasks, this`nextTaskId, this`auditLog
      ensures Valid()
      ensures Step(r, State()) == CreateTaskSpec(old(State()), userId, dto)
    {
      if userId !in users {
        return Err(Forbidden);
      }
      var user := users[userId];
      var allowed := HasPermission(user, CreateTaskPerm);
      if !allowed {
        return Err(Forbidden);
      }
      CreateTaskKeepsStoreValid(State(), userId, dto);
      tasks := ShiftAsWritten(tasks, user.orgId, dto.category);
      var task := NewTask(nextTaskId, dto, user);
      tasks := tasks + [task];
      nextTaskId := nextTaskId + 1;
      LogAudit(user, CreateTaskAction, Some(task.id));
      r := Ok(TaskRules.ToOutputDto(task));
    }

    method ListTasks(userId: int, o: ListOptions) returns (r: Result<seq<TaskOutput>>)
      requires Valid()
      modifies this`auditLog
      ensures Valid()
      ensures Step(r, State()) == ListTasksSpec(old(State()), userId, o)
    {
      if userId !in users {
        return Err(Forbidden);
      }
      var user := users[userId];
      var scope := ScopeOf(user);
      var rows := Queried(tasks, scope, o);
      LogAudit(user, ListTasksAction, None);
      r := Ok(Outputs(rows));
    }

    method EditTask(userId: int, taskId: int, dto: TaskEdit) returns (r: Result<TaskOutput>)
      requires Valid()
      modifies this`tasks, this`auditLog
      ensures Valid()
      ensures Step(r, State()) == EditTaskSpec(old(State()), userId, taskId, dto)
    {
      var task := FindTask(tasks, taskId);
      if userId !in users || task.None? {
        return Err(NotFound);
      }
      var user := users[userId];
      var allowed := CanEditOrDelete(user, task.value);
      if !allowed {
        return Err(Forbidden);
      }
      var edited := ApplyEdit(task.value, dto);
      ReplaceKeepsValid(State(), edited);
      tasks := ReplaceTask(tasks, edited);
      LogAudit(user, EditTaskAction, Some(taskId));
      r := Ok(TaskRules.ToOutputDto(edited));
    }

    method DeleteTask(userId: int, taskId: int) returns (r: Result<Deleted>)
      requires Valid()
      modifies this`tasks, this`auditLog
      ensures Valid()
      ensures Step(r, State()) == DeleteTaskSpec(old(State()), userId, taskId)
    {
      var task := FindTask(tasks, taskId);
      if userId !in users || task.None? {
        return Err(NotFound);
      }
      var user := users[userId];
      var allowed := CanEditOrDelete(user, task.value);
      if !allowed {
        return Err(Forbidden);
      }
      ghost var s0 := State();
      RemoveKeepsValid(s0, taskId);
      tasks := RemoveTask(tasks, taskId);
      LogAudit(user, DeleteTaskAction, Some(taskId));
      r := Ok(Deleted(true));
      assert State() == Logged(s0.(tasks := RemoveTask(s0.tasks, taskId)), AuditEntry(user.id, DeleteTaskAction, Some(taskId)));
    }

    method UpdateTaskOrder(userId: int, taskId: int, newOrder: int) returns (r: Result<TaskOutput>)
      requires Valid()
      modifies this`tasks, this`auditLog
      ensures Valid()
      ensures Step(r, State()) == UpdateTaskOrderSpec(old(State()), userId, taskId, newOrder)
    {
      var task := FindTask(tasks, taskId);
      if userId !in users || task.None? {
        return Err(NotFound);
      }
      var user := users[userId];
      var moved := task.value.(order := newOrder);
      ReplaceKeepsValid(State(), moved);
      tasks := ReplaceTask(tasks, moved);
      LogAudit(user, UpdateOrderAction, Some(taskId));
      r := Ok(TaskRules.ToOutputDto(moved));
    }

    method UpdateTaskStatus(userId: int, taskId: int, newStatus: string) returns (r: Result<TaskOutput>)
      requires Valid()
      modifies this`tasks, this`auditLog
      ensures Valid()
      ensures Step(r, State()) == UpdateTaskStatusSpec(old(State()), userId, taskId, newStatus)
    {
      var task := FindTask(tasks, taskId);
      if userId !in users || task.None? {
        return Err(NotFound);
      }
      var user := users[userId];
      var allowed := CanEditOrDelete(user, task.value);
      if !allowed {
        return Err(Forbidden);
      }
      var changed := task.value.(status := newStatus);
      ReplaceKeepsValid(State(), changed);
      tasks := ReplaceTask(tasks, changed);
      LogAudit(user, UpdateStatusAction, Some(taskId));
      r := Ok(TaskRules.ToOutputDto(changed));
    }

    /** `getAuditLog`: the entries in the order they were appended. */
    method GetAuditLog() returns (log: seq<AuditEntry>)
      ensures log == auditLog
    {
      log := auditLog;
    }

    method ListAllTasks() returns (r: seq<TaskOutput>)
      ensures r == ListAllTasksSpec(State())
    {
      r := Outputs(tasks);
    }

    method ListOrgTasks(orgId: int) returns (r: seq<TaskOutput>)
      ensures r == ListOrgTasksSpec(State(), orgId)
    {
      r := Outputs(Keep(tasks, (t: Task) => InScope(OrgScope(orgId), t)));
    }

    /** `getTask`: the row with the id, or nothing. */
    method GetTask(taskId: int) returns (r: Option<Task>)
      ensures r.Some? ==> r.value in tasks && r.value.id == taskId
      ensures r.None? ==> forall t :: t in tasks ==> t.id != taskId
      ensures r == FindTask(tasks, taskId)
    {
      r := FindTask(tasks, taskId);
    }

    /** `listCategories`: query the visible rows, then group them. */
    method ListCategories(userId: int) returns (r: Result<seq<CategoryList>>)
      ensures r == ListCategoriesSpec(State(), userId)
    {
      if userId !in users {
        return Err(Forbidden);
      }
      var user := users[userId];
      var scope := ScopeOf(user);
      var rows := Queried(tasks, scope, ListOptions(None, None, None));
      var groups := GroupRows(rows);
      r := Ok(Sanitized(groups));
    }

    /** The grouping pass of `listCategories`: one walk over the rows, opening
        a category's list the first time it is seen. */
    static method GroupRows(rows: seq<Task>) returns (groups: seq<TaskGroup>)
      ensures groups == GroupByCategory(rows)
    {
      groups := [];
      var i := 0;
      while i < |rows|
        invariant 0 <= i <= |rows|
        invariant groups == GroupByCategory(rows[..i])
      {
        var t := rows[i];
        var k := GroupIndex(groups, t.category);
        if k < 0 {
          groups := groups + [TaskGroup(t.category, [t])];
        } else {
          groups := groups[k := groups[k].(tasks := groups[k].tasks + [t])];
        }
        GroupPrefixStep(rows, i);
        i := i + 1;
      }
      assert rows[..i] == rows;
    }
  }
}
