/** The task service's operations as functions from the store before a call
    to its result and the store after it. The class in TaskServiceState is
    proved to follow these, and the lemmas below state what each promises. */
module TaskSpec {
  import opened Common
  import opened Entities
  import opened TaskRules
  import opened TaskQuery
  import opened TaskOrdering

  datatype AuditAction =
    | CreateTaskAction | ListTasksAction | EditTaskAction
    | DeleteTaskAction | UpdateOrderAction | UpdateStatusAction

  function ActionName(a: AuditAction): string {
    match a
    case CreateTaskAction => "CREATE_TASK"
    case ListTasksAction => "LIST_TASKS"
    case EditTaskAction => "EDIT_TASK"
    case DeleteTaskAction => "DELETE_TASK"
    case UpdateOrderAction => "UPDATE_ORDER"
    case UpdateStatusAction => "UPDATE_STATUS"
  }

  /** One audit record; the wall-clock timestamp is not modelled. */
  datatype AuditEntry = AuditEntry(userId: int, action: AuditAction, targetId: Option<int>)

  /** The editable fields of an edit request; `Object.assign` copies the present ones. */
  datatype TaskEdit = TaskEdit(
    title: Option<string>,
    description: Option<string>,
    category: Option<string>,
    status: Option<string>)

  /** The `{ deleted: true }` answer of a delete. */
  datatype Deleted = Deleted(deleted: bool)

  /** One entry of the `listCategories` answer. */
  datatype CategoryList = CategoryList(category: string, tasks: seq<TaskOutput>)

  /** The repositories and the in-memory audit log; `nextTaskId` is the next
      value of the generated primary key. */
  datatype Store = Store(
    tasks: seq<Task>,
    users: map<int, User>,
    roles: map<int, Role>,
    auditLog: seq<AuditEntry>,
    nextTaskId: int)

  /** Primary keys are unique and below the generator; users are keyed by id. */
  ghost predicate ValidStore(s: Store) {
    && UniqueIds(s.tasks)
    && (forall t :: t in s.tasks ==> t.id < s.nextTaskId)
    && (forall k :: k in s.users ==> s.users[k].id == k)
  }

  datatype Step<T> = Step(result: Result<T>, store: Store)

  function Logged(s: Store, e: AuditEntry): Store {
    s.(auditLog := s.auditLog + [e])
  }

  /** `Object.assign(task, dto)`. */
  function ApplyEdit(t: Task, dto: TaskEdit): Task {
    t.(title := if dto.title.Some? then dto.title.value else t.title,
       description := if dto.description.Some? then dto.description else t.description,
       category := if dto.category.Some? then dto.category.value else t.category,
       status := if dto.status.Some? then dto.status.value else t.status)
  }

  /** `taskRepo.save(task)` for a row that exists: the row with its id is overwritten. */
  function ReplaceTask(ts: seq<Task>, t: Task): (r: seq<Task>)
    ensures |r| == |ts|
  {
    seq(|ts|, i requires 0 <= i < |ts| => if ts[i].id == t.id then t else ts[i])
  }

  /** `taskRepo.delete(taskId)`. */
  function RemoveTask(ts: seq<Task>, taskId: int): seq<Task> {
    Keep(ts, (t: Task) => t.id != taskId)
  }

  /** `createTask` with the bulk update keyed by `key`: the permission check,
      the shift, the save under the next id and the CREATE_TASK entry. */
  function CreateWithKey(s: Store, userId: int, dto: TaskInput, key: Option<string>): Step<TaskOutput> {
    if userId !in s.users || !HasPermission(s.roles, s.users[userId], CreateTaskPerm) then
      Step(Err(Forbidden), s)
    else
      var user := s.users[userId];
      var t := NewTask(s.nextTaskId, dto, user);
      var shifted := s.(tasks := ShiftAsWritten(s.tasks, user.orgId, key));
      var saved := shifted.(tasks := shifted.tasks + [t], nextTaskId := s.nextTaskId + 1);
      Step(Ok(ToOutputDto(t)), Logged(saved, AuditEntry(user.id, CreateTaskAction, Some(t.id))))
  }

  /** `createTask` as written: the update is keyed by the request's own
      `category`, so a request without one moves no row. */
  function CreateTaskSpec(s: Store, userId: int, dto: TaskInput): Step<TaskOutput> {
    CreateWithKey(s, userId, dto, dto.category)
  }

  /** `createTask` as evidently intended: the update is keyed by the category
      the new row is saved with. */
  function CorrectedCreateTaskSpec(s: Store, userId: int, dto: TaskInput): Step<TaskOutput> {
    CreateWithKey(s, userId, dto, Some(EffectiveCategory(dto)))
  }

  function ListTasksSpec(s: Store, userId: int, o: ListOptions): Step<seq<TaskOutput>> {
    if userId !in s.users then Step(Err(Forbidden), s)
    else
      var user := s.users[userId];
      var rows := Queried(s.tasks, VisibleScope(s.roles, user), o);
      Step(Ok(Outputs(rows)), Logged(s, AuditEntry(user.id, ListTasksAction, None)))
  }

  function ListAllTasksSpec(s: Store): seq<TaskOutput> {
    Outputs(s.tasks)
  }

  function ListOrgTasksSpec(s: Store, orgId: int): seq<TaskOutput> {
    Outputs(Keep(s.tasks, (t: Task) => InScope(OrgScope(orgId), t)))
  }

  function Sanitized(groups: seq<TaskGroup>): (r: seq<CategoryList>)
    ensures |r| == |groups|
  {
    seq(|groups|, i requires 0 <= i < |groups| => CategoryList(groups[i].category, Outputs(groups[i].tasks)))
  }

  /** The rows `listCategories` queries: the `listTasks` scope, no options. */
  function VisibleRows(s: Store, user: User): seq<Task> {
    Queried(s.tasks, VisibleScope(s.roles, user), ListOptions(None, None, None))
  }

  function ListCategoriesSpec(s: Store, userId: int): Result<seq<CategoryList>> {
    if userId !in s.users then Err(Forbidden)
    else Ok(Sanitized(GroupByCategory(VisibleRows(s, s.users[userId]))))
  }

  function EditTaskSpec(s: Store, userId: int, taskId: int, dto: TaskEdit): Step<TaskOutput> {
    var task := FindTask(s.tasks, taskId);
    if userId !in s.users || task.None? then Step(Err(NotFound), s)
    else if !CanEditOrDelete(s.roles, s.users[userId], task.value) then Step(Err(Forbidden), s)
    else
      var edited := ApplyEdit(task.value, dto);
      var saved := s.(tasks := ReplaceTask(s.tasks, edited));
      Step(Ok(ToOutputDto(edited)), Logged(saved, AuditEntry(s.users[userId].id, EditTaskAction, Some(taskId))))
  }

  function DeleteTaskSpec(s: Store, userId: int, taskId: int): Step<Deleted> {
    var task := FindTask(s.tasks, taskId);
    if userId !in s.users || task.None? then Step(Err(NotFound), s)
    else if !CanEditOrDelete(s.roles, s.users[userId], task.value) then Step(Err(Forbidden), s)
    else
      var removed := s.(tasks := RemoveTask(s.tasks, taskId));
      Step(Ok(Deleted(true)), Logged(removed, AuditEntry(s.users[userId].id, DeleteTaskAction, Some(taskId))))
  }

  function UpdateTaskOrderSpec(s: Store, userId: int, taskId: int, newOrder: int): Step<TaskOutput> {
    var task := FindTask(s.tasks, taskId);
    if userId !in s.users || task.None? then Step(Err(NotFound), s)
    else
      var moved := task.value.(order := newOrder);
      var saved := s.(tasks := ReplaceTask(s.tasks, moved));
      Step(Ok(ToOutputDto(moved)), Logged(saved, AuditEntry(s.users[userId].id, UpdateOrderAction, Some(taskId))))
  }

  function UpdateTaskStatusSpec(s: Store, userId: int, taskId: int, newStatus: string): Step<TaskOutput> {
    var task := FindTask(s.tasks, taskId);
    if userId !in s.users || task.None? then Step(Err(NotFound), s)
    else if !CanEditOrDelete(s.roles, s.users[userId], task.value) then Step(Err(Forbidden), s)
    else
      var changed := task.value.(status := newStatus);
      var saved := s.(tasks := ReplaceTask(s.tasks, changed));
      Step(Ok(ToOutputDto(changed)), Logged(saved, AuditEntry(s.users[userId].id, UpdateStatusAction, Some(taskId))))
  }

  // ---------------------------------------------------------------------------
  // createTask

  /** An unknown user, or one whose role lacks `create_task`, is refused with
      Forbidden: no order moves, nothing is inserted, nothing is logged. */
  lemma CreateTaskForbidden(s: Store, userId: int, dto: TaskInput)
    requires userId !in s.users || !HasPermission(s.roles, s.users[userId], CreateTaskPerm)
    ensures CreateTaskSpec(s, userId, dto) == Step(Err(Forbidden), s)
  {
  }

  /** The rows the as-written update matches: the creator's organization and
      the category the request names; none when it names no category. */
  predicate Moved(dto: TaskInput, t: Task, org: int) {
    dto.category.Some? && InGroup(t, org, dto.category.value)
  }

  /** A permitted create moves every task of the creator's organization whose
      category is the one the request names down by one (none when the
      request names no category), leaves the other rows as they were, appends
      the new row at order 0 for the creator and the creator's organization,
      and logs one CREATE_TASK entry naming the new id. */
  lemma CreateTaskEffects(s: Store, userId: int, dto: TaskInput)
    requires ValidStore(s)
    requires userId in s.users && HasPermission(s.roles, s.users[userId], CreateTaskPerm)
    ensures var st := CreateTaskSpec(s, userId, dto);
            var user := s.users[userId];
            var ts := st.store.tasks;
            var t := ts[|ts| - 1];
            && |ts| == |s.tasks| + 1
            && t.order == 0 && t.assignedTo == userId && t.organization == user.orgId
            && t.category == EffectiveCategory(dto)
            && (forall k :: 0 <= k < |s.tasks| ==> t.id != s.tasks[k].id)
            && (forall k :: 0 <= k < |s.tasks| && Moved(dto, s.tasks[k], user.orgId) ==>
                  ts[k] == s.tasks[k].(order := s.tasks[k].order + 1))
            && (forall k :: 0 <= k < |s.tasks| && !Moved(dto, s.tasks[k], user.orgId) ==>
                  ts[k] == s.tasks[k])
            && st.result == Ok(ToOutputDto(t))
            && st.store.auditLog == s.auditLog + [AuditEntry(userId, CreateTaskAction, Some(t.id))]
            && st.store.users == s.users && st.store.roles == s.roles
  {
    assert forall k :: 0 <= k < |s.tasks| ==> s.tasks[k] in s.tasks;
  }

  /** The ordering invariant holds for a create that names its category: the
      creator's (organization, category) group stays dense from 0. */
  lemma CreateTaskKeepsOrdersDense(s: Store, userId: int, dto: TaskInput)
    requires userId in s.users && HasPermission(s.roles, s.users[userId], CreateTaskPerm)
    requires dto.category.Some?
    requires DenseFromZero(GroupOrders(s.tasks, s.users[userId].orgId, dto.category.value))
    ensures DenseFromZero(GroupOrders(CreateTaskSpec(s, userId, dto).store.tasks,
                                      s.users[userId].orgId, dto.category.value))
  {
    var user := s.users[userId];
    CreateKeepsGroupDense(s.tasks, NewTask(s.nextTaskId, dto, user));
  }

  /** As written, a create without a category next to a task of the creator's
      organization at order 0 of the default category leaves that task where
      it is and puts the new row at order 0 of the same group: two rows of one
      group share order 0, so the group is no longer dense from 0. */
  lemma CreateWithoutCategoryDuplicatesOrderZero(s: Store, userId: int, dto: TaskInput, k: nat)
    requires userId in s.users && HasPermission(s.roles, s.users[userId], CreateTaskPerm)
    requires dto.category.None?
    requires k < |s.tasks| && InGroup(s.tasks[k], s.users[userId].orgId, DefaultCategory) && s.tasks[k].order == 0
    ensures var ts := CreateTaskSpec(s, userId, dto).store.tasks;
            && |ts| == |s.tasks| + 1
            && ts[k] == s.tasks[k]
            && InGroup(ts[|s.tasks|], s.users[userId].orgId, DefaultCategory)
            && ts[|s.tasks|].order == 0
            && !DenseFromZero(GroupOrders(ts, s.users[userId].orgId, DefaultCategory))
  {
    var org := s.users[userId].orgId;
    var t := NewTask(s.nextTaskId, dto, s.users[userId]);
    assert CreateTaskSpec(s, userId, dto).store.tasks == s.tasks + [t];
    GroupOrdersContains(s.tasks, org, DefaultCategory, k);
    GroupOrdersAppend(s.tasks, t, org, DefaultCategory);
    var os := GroupOrders(s.tasks, org, DefaultCategory);
    var i :| 0 <= i < |os| && os[i] == 0;
    assert (os + [0])[i] == (os + [0])[|os|];
  }

  /** The corrected create keeps the creator's group dense from 0 whether or
      not the request names its category. */
  lemma CorrectedCreateKeepsOrdersDense(s: Store, userId: int, dto: TaskInput)
    requires userId in s.users && HasPermission(s.roles, s.users[userId], CreateTaskPerm)
    requires DenseFromZero(GroupOrders(s.tasks, s.users[userId].orgId, EffectiveCategory(dto)))
    ensures DenseFromZero(GroupOrders(CorrectedCreateTaskSpec(s, userId, dto).store.tasks,
                                      s.users[userId].orgId, EffectiveCategory(dto)))
  {
    var user := s.users[userId];
    CreateKeepsGroupDense(s.tasks, NewTask(s.nextTaskId, dto, user));
  }

  // ---------------------------------------------------------------------------
  // listTasks, listAllTasks, listOrgTasks, listCategories

  /** An unknown user is refused with Forbidden; otherwise the answer is the
      sanitized scoped, filtered, sorted rows and one LIST_TASKS entry without
      a target is logged. */
  lemma ListTasksEffects(s: Store, userId: int, o: ListOptions)
    requires ValidStore(s)
    ensures userId !in s.users ==> ListTasksSpec(s, userId, o) == Step(Err(Forbidden), s)
    ensures userId in s.users ==>
              var st := ListTasksSpec(s, userId, o);
              var user := s.users[userId];
              && st.result == Ok(Outputs(Queried(s.tasks, VisibleScope(s.roles, user), o)))
              && st.store == s.(auditLog := s.auditLog + [AuditEntry(userId, ListTasksAction, None)])
  {
  }

  /** With `view_task` the rows are exactly the organization's, otherwise
      exactly those assigned to the user, before the filters. */
  lemma ListTasksScope(s: Store, userId: int, t: Task)
    requires userId in s.users
    ensures var user := s.users[userId];
            var rows := Queried(s.tasks, VisibleScope(s.roles, user), ListOptions(None, None, None));
            (HasPermission(s.roles, user, ViewTaskPerm) ==>
               (t in rows <==> t in s.tasks && t.organization == user.orgId)) &&
            (!HasPermission(s.roles, user, ViewTaskPerm) ==>
               (t in rows <==> t in s.tasks && t.assignedTo == user.id))
  {
    var user := s.users[userId];
    QueriedIsScopedFilteredSorted(s.tasks, VisibleScope(s.roles, user), ListOptions(None, None, None));
  }

  /** `listAllTasks` sanitizes every row of the store, across organizations. */
  lemma ListAllTasksIsEveryTask(s: Store)
    ensures |ListAllTasksSpec(s)| == |s.tasks|
    ensures forall i :: 0 <= i < |s.tasks| ==> ListAllTasksSpec(s)[i] == ToOutputDto(s.tasks[i])
  {
  }

  /** `listOrgTasks(orgId)` sanitizes exactly the rows of that organization. */
  lemma ListOrgTasksIsTheOrganization(s: Store, orgId: int, o: TaskOutput)
    ensures o in ListOrgTasksSpec(s, orgId) <==>
            exists t :: t in s.tasks && t.organization == orgId && o == ToOutputDto(t)
  {
    var rows := Keep(s.tasks, (t: Task) => InScope(OrgScope(orgId), t));
    if o in ListOrgTasksSpec(s, orgId) {
      var i :| 0 <= i < |rows| && ListOrgTasksSpec(s, orgId)[i] == o;
      assert rows[i] in rows;
    }
    if exists t :: t in s.tasks && t.organization == orgId && o == ToOutputDto(t) {
      var t :| t in s.tasks && t.organization == orgId && o == ToOutputDto(t);
      assert t in rows;
      var i :| 0 <= i < |rows| && rows[i] == t;
      assert ListOrgTasksSpec(s, orgId)[i] == o;
    }
  }

  /** `listCategories` refuses an unknown user; otherwise it groups exactly the
      rows `listTasks` would show without options: every visible row in the one
      group of its category, groups distinct, and rows in store order. */
  lemma ListCategoriesGroupsVisibleRows(s: Store, userId: int)
    ensures userId !in s.users ==> ListCategoriesSpec(s, userId) == Err(Forbidden)
    ensures userId in s.users ==>
              var rows := VisibleRows(s, s.users[userId]);
              var g := GroupByCategory(rows);
              && ListCategoriesSpec(s, userId) == Ok(Sanitized(g))
              && (forall t :: t in rows <==> t in s.tasks && InScope(VisibleScope(s.roles, s.users[userId]), t))
              && (forall i, j :: 0 <= i < j < |g| ==> g[i].category != g[j].category)
              && (forall t :: t in rows ==> exists i :: 0 <= i < |g| && g[i].category == t.category && t in g[i].tasks)
              && (forall i :: 0 <= i < |g| ==> g[i].tasks == OfCategory(rows, g[i].category))
  {
    if userId in s.users {
      var rows := VisibleRows(s, s.users[userId]);
      QueriedIsScopedFilteredSorted(s.tasks, VisibleScope(s.roles, s.users[userId]), ListOptions(None, None, None));
      GroupsDistinctAndNonEmpty(rows);
      forall t | t in rows
        ensures exists i :: 0 <= i < |GroupByCategory(rows)| && GroupByCategory(rows)[i].category == t.category && t in GroupByCategory(rows)[i].tasks
      {
        EveryTaskInItsOwnGroup(rows, t);
      }
    }
  }

  // ---------------------------------------------------------------------------
  // editTask, deleteTask, updateTaskStatus, updateTaskOrder

  /** Each writer first answers Not found for a missing user or task, and only
      then Forbidden when `canEditOrDelete` refuses (the order update has no
      such check); a failing writer changes nothing and logs nothing. */
  lemma WritersCheckNotFoundThenForbidden(s: Store, userId: int, taskId: int,
                                          dto: TaskEdit, newOrder: int, newStatus: string)
    ensures userId !in s.users || FindTask(s.tasks, taskId).None? ==>
              && EditTaskSpec(s, userId, taskId, dto) == Step(Err(NotFound), s)
              && DeleteTaskSpec(s, userId, taskId) == Step(Err(NotFound), s)
              && UpdateTaskStatusSpec(s, userId, taskId, newStatus) == Step(Err(NotFound), s)
              && UpdateTaskOrderSpec(s, userId, taskId, newOrder) == Step(Err(NotFound), s)
    ensures userId in s.users && FindTask(s.tasks, taskId).Some? &&
            !CanEditOrDelete(s.roles, s.users[userId], FindTask(s.tasks, taskId).value) ==>
              && EditTaskSpec(s, userId, taskId, dto) == Step(Err(Forbidden), s)
              && DeleteTaskSpec(s, userId, taskId) == Step(Err(Forbidden), s)
              && UpdateTaskStatusSpec(s, userId, taskId, newStatus) == Step(Err(Forbidden), s)
    ensures userId in s.users && FindTask(s.tasks, taskId).Some? ==>
              UpdateTaskOrderSpec(s, userId, taskId, newOrder).result.Ok?
  {
  }

  /** Overwriting one row by id changes that row only. */
  lemma ReplaceTaskOnlyTarget(ts: seq<Task>, k: nat, t: Task)
    requires UniqueIds(ts) && k < |ts| && t.id == ts[k].id
    ensures ReplaceTask(ts, t) == ts[k := t]
  {
  }

  /** A successful edit rewrites only the target row, only in the fields the
      request carries, and logs one EDIT_TASK entry. */
  lemma EditTaskChangesOnlyTarget(s: Store, userId: int, k: nat, dto: TaskEdit)
    requires ValidStore(s) && k < |s.tasks|
    requires userId in s.users && CanEditOrDelete(s.roles, s.users[userId], s.tasks[k])
    ensures var st := EditTaskSpec(s, userId, s.tasks[k].id, dto);
            var e := ApplyEdit(s.tasks[k], dto);
            && st.store.tasks == s.tasks[k := e]
            && e.id == s.tasks[k].id && e.order == s.tasks[k].order
            && e.assignedTo == s.tasks[k].assignedTo && e.organization == s.tasks[k].organization
            && st.result == Ok(ToOutputDto(e))
            && st.store.auditLog == s.auditLog + [AuditEntry(userId, EditTaskAction, Some(s.tasks[k].id))]
  {
    FindTaskIsTheRowWithId(s.tasks, k);
  }

  /** A successful delete removes exactly the row with the id, keeps the
      others in order, answers `{ deleted: true }` and logs one DELETE_TASK. */
  lemma DeleteTaskRemovesExactlyTarget(s: Store, userId: int, k: nat)
    requires ValidStore(s) && k < |s.tasks|
    requires userId in s.users && CanEditOrDelete(s.roles, s.users[userId], s.tasks[k])
    ensures var st := DeleteTaskSpec(s, userId, s.tasks[k].id);
            && st.result == Ok(Deleted(true))
            && st.store.tasks == s.tasks[..k] + s.tasks[k + 1..]
            && st.store.auditLog == s.auditLog + [AuditEntry(userId, DeleteTaskAction, Some(s.tasks[k].id))]
  {
    FindTaskIsTheRowWithId(s.tasks, k);
    RemoveUniqueRow(s.tasks, k);
  }

  lemma RemoveUniqueRow(ts: seq<Task>, k: nat)
    requires UniqueIds(ts) && k < |ts|
    ensures RemoveTask(ts, ts[k].id) == ts[..k] + ts[k + 1..]
  {
    KeepDropsOne(ts, k, (t: Task) => t.id != ts[k].id);
  }

  /** A filter refusing exactly the k-th row drops that row only. */
  lemma {:induction false} KeepDropsOne(ts: seq<Task>, k: nat, p: Task -> bool)
    requires k < |ts| && !p(ts[k])
    requires forall i :: 0 <= i < |ts| && i != k ==> p(ts[i])
    ensures Keep(ts, p) == ts[..k] + ts[k + 1..]
  {
    var n := |ts|;
    var init := ts[..n - 1];
    var last := ts[n - 1];
    SplitLast(ts);
    assert forall i :: 0 <= i < |init| ==> init[i] == ts[i];
    KeepAppend(init, last, p);
    if k == n - 1 {
      KeepAll(init, p);
      assert ts[..k] + ts[k + 1..] == init;
    } else {
      KeepDropsOne(init, k, p);
      DropBeforeLast(init, last, k);
    }
  }

  lemma SplitLast<T>(s: seq<T>)
    requires |s| > 0
    ensures s == s[..|s| - 1] + [s[|s| - 1]]
  {
  }

  /** Dropping position k of `init + [x]` when k is inside `init`. */
  lemma DropBeforeLast<T>(init: seq<T>, x: T, k: nat)
    requires k < |init|
    ensures (init + [x])[..k] + (init + [x])[k + 1..] == init[..k] + init[k + 1..] + [x]
  {
    assert (init + [x])[..k] == init[..k];
    assert (init + [x])[k + 1..] == init[k + 1..] + [x];
  }

  lemma {:induction false} KeepAll(ts: seq<Task>, p: Task -> bool)
    requires forall i :: 0 <= i < |ts| ==> p(ts[i])
    ensures Keep(ts, p) == ts
  {
    if |ts| > 0 {
      KeepAll(ts[..|ts| - 1], p);
    }
  }

  /** The order update overwrites the target's order with no permission check
      and moves no sibling, so duplicates and gaps can appear. */
  lemma UpdateTaskOrderOverwritesOnly(s: Store, userId: int, k: nat, newOrder: int)
    requires ValidStore(s) && k < |s.tasks| && userId in s.users
    ensures var st := UpdateTaskOrderSpec(s, userId, s.tasks[k].id, newOrder);
            && st.store.tasks == s.tasks[k := s.tasks[k].(order := newOrder)]
            && st.result == Ok(ToOutputDto(s.tasks[k].(order := newOrder)))
            && st.store.auditLog == s.auditLog + [AuditEntry(userId, UpdateOrderAction, Some(s.tasks[k].id))]
  {
    FindTaskIsTheRowWithId(s.tasks, k);
  }

  /** A successful status update changes the target's status and nothing else. */
  lemma UpdateTaskStatusOnlyStatus(s: Store, userId: int, k: nat, newStatus: string)
    requires ValidStore(s) && k < |s.tasks|
    requires userId in s.users && CanEditOrDelete(s.roles, s.users[userId], s.tasks[k])
    ensures var st := UpdateTaskStatusSpec(s, userId, s.tasks[k].id, newStatus);
            && st.store.tasks == s.tasks[k := s.tasks[k].(status := newStatus)]
            && st.result == Ok(ToOutputDto(s.tasks[k].(status := newStatus)))
            && st.store.auditLog == s.auditLog + [AuditEntry(userId, UpdateStatusAction, Some(s.tasks[k].id))]
  {
    FindTaskIsTheRowWithId(s.tasks, k);
  }

  /** `delete_task` is never consulted: holding `edit_task` in the task's
      organization is enough to delete it. */
  lemma DeleteNeedsOnlyEditPermission(s: Store, userId: int, k: nat)
    requires ValidStore(s) && k < |s.tasks| && userId in s.users
    requires HasPermission(s.roles, s.users[userId], EditTaskPerm)
    requires !HasPermission(s.roles, s.users[userId], DeleteTaskPerm)
    requires s.tasks[k].organization == s.users[userId].orgId
    ensures DeleteTaskSpec(s, userId, s.tasks[k].id).result == Ok(Deleted(true))
  {
    FindTaskIsTheRowWithId(s.tasks, k);
  }

  // ---------------------------------------------------------------------------
  // The store invariant

  lemma {:induction false} KeepUnique(ts: seq<Task>, p: Task -> bool)
    requires UniqueIds(ts)
    ensures UniqueIds(Keep(ts, p))
  {
    if |ts| > 0 {
      var init := ts[..|ts| - 1];
      KeepUnique(init, p);
      var r := Keep(ts, p);
      forall i, j | 0 <= i < j < |r| ensures r[i].id != r[j].id {
        if j == |r| - 1 && p(ts[|ts| - 1]) {
          assert r[i] in Keep(init, p);
          var a :| 0 <= a < |init| && init[a] == r[i];
        }
      }
    }
  }

  /** Overwriting by id never changes which ids the rows carry. */
  lemma ReplaceKeepsValid(s: Store, t: Task)
    requires ValidStore(s)
    ensures ValidStore(s.(tasks := ReplaceTask(s.tasks, t)))
  {
    var r := ReplaceTask(s.tasks, t);
    assert forall i :: 0 <= i < |r| ==> r[i].id == s.tasks[i].id;
    forall x | x in r ensures x.id < s.nextTaskId {
      var i :| 0 <= i < |r| && r[i] == x;
      assert s.tasks[i] in s.tasks;
    }
  }

  lemma RemoveKeepsValid(s: Store, taskId: int)
    requires ValidStore(s)
    ensures ValidStore(s.(tasks := RemoveTask(s.tasks, taskId)))
  {
    KeepUnique(s.tasks, (t: Task) => t.id != taskId);
  }

  lemma CreateTaskKeepsStoreValid(s: Store, userId: int, dto: TaskInput)
    requires ValidStore(s)
    ensures ValidStore(CreateTaskSpec(s, userId, dto).store)
  {
    CreateWithKeyKeepsStoreValid(s, userId, dto, dto.category);
  }

  /** Whatever the update's key, the new id is fresh and the ids stay unique. */
  lemma CreateWithKeyKeepsStoreValid(s: Store, userId: int, dto: TaskInput, key: Option<string>)
    requires ValidStore(s)
    ensures ValidStore(CreateWithKey(s, userId, dto, key).store)
  {
    if userId in s.users && HasPermission(s.roles, s.users[userId], CreateTaskPerm) {
      var user := s.users[userId];
      var t := NewTask(s.nextTaskId, dto, user);
      var sh := ShiftAsWritten(s.tasks, user.orgId, key);
      var ts := sh + [t];
      assert ts == CreateWithKey(s, userId, dto, key).store.tasks;
      assert forall k :: 0 <= k < |sh| ==> sh[k].id == s.tasks[k].id;
      forall k | 0 <= k < |sh| ensures sh[k].id < s.nextTaskId {
        assert s.tasks[k] in s.tasks;
      }
      forall x | x in ts ensures x.id < s.nextTaskId + 1 {
        if x != t {
          var k :| 0 <= k < |sh| && sh[k] == x;
        }
      }
      assert UniqueIds(ts);
    }
  }

  /** Creating, deleting and listing keep the primary keys unique and below
      the generator. */
  lemma WritersKeepStoreValid(s: Store, userId: int, taskId: int, dto: TaskInput)
    requires ValidStore(s)
    ensures ValidStore(CreateTaskSpec(s, userId, dto).store)
    ensures ValidStore(DeleteTaskSpec(s, userId, taskId).store)
    ensures ValidStore(ListTasksSpec(s, userId, ListOptions(None, None, None)).store)
  {
    CreateTaskKeepsStoreValid(s, userId, dto);
    RemoveKeepsValid(s, taskId);
  }

  /** The three in-place updates keep the primary keys unique and below the
      generator. */
  lemma UpdatersKeepStoreValid(s: Store, userId: int, taskId: int, edit: TaskEdit,
                               newOrder: int, newStatus: string)
    requires ValidStore(s)
    ensures ValidStore(EditTaskSpec(s, userId, taskId, edit).store)
    ensures ValidStore(UpdateTaskOrderSpec(s, userId, taskId, newOrder).store)
    ensures ValidStore(UpdateTaskStatusSpec(s, userId, taskId, newStatus).store)
  {
    var task := FindTask(s.tasks, taskId);
    if task.Some? {
      ReplaceKeepsValid(s, ApplyEdit(task.value, edit));
      ReplaceKeepsValid(s, task.value.(order := newOrder));
      ReplaceKeepsValid(s, task.value.(status := newStatus));
    }
  }
}
