# Secure task management: a verified model of the task API core

This project models the core of a multi-tenant task-management API:

- the **task service**, which creates, lists, edits, reorders, re-statuses and
  deletes tasks and keeps an in-memory audit log. Its permission checks go
  through a role's named permissions (`create_task`, `edit_task`,
  `delete_task`, `view_task`);
- the **role guard**, which admits a request when some role declared on the
  route ranks no higher than the caller's role in the hierarchy
  Viewer < Admin < Owner;
- the **task controller**, which puts the guard in front of each route,
  picks a service reader by the role name in the caller's claim, and calls
  `canAccessTask` before an edit or a delete;
- the **seeder**, which find-or-creates two organizations, three roles, four
  permissions, the role grants, three users and three sample tasks.

## Modules

| module | file | what it holds |
|---|---|---|
| `Common` | `common.dfy` | `Option`, `Result` and the service's error kinds. |
| `Entities` | `entities.dfy` | Organization, Role, Permission, User, Task and the output record. |
| `RoleGuard` | `role_guard.dfy` | `canActivate` and its properties. |
| `TaskRules` | `task_rules.dfy` | `hasPermission`, `canEditOrDelete`, `canAccessTask`, `toOutputDto`. |
| `TaskQuery` | `task_query.dfy` | The read side as functions: lookup by id, visibility scope, filters, a one-column ascending sort (insertion sort), grouping by category. |
| `TaskOrdering` | `task_ordering.dfy` | The order shift done by `createTask`, and the ordering invariant. |
| `TaskSpec` | `task_spec.dfy` | Each service operation as a function from the store to a result and a new store, with its properties. |
| `TaskServiceState` | `task_service.dfy` | The `TaskService` class. Its fields are the tables, the audit log and the id generator. Each method is proved to follow its `TaskSpec` function. |
| `TaskController` | `task_controller.dfy` | Route roles, guard plus handler per route, and the `TaskController` class driving a `TaskService`. |
| `FindOrCreate` | `find_or_create.dfy` | The seeder's "`findOne` by key, else `save`" step and loop, generic over the table. |
| `Seeder` | `seeder.dfy` | `seed()` as a function of the database, its properties (including idempotence), and the `SeederService` class whose methods run the stages in place. |

The database is a record of tables in insertion order, plus an id
generator. Each relation is stored as the related row's id. Each
asynchronous repository call becomes one step on these tables.

The model follows the code wherever the code and the comments beside it
disagree, and `createTask` is modelled as written (see Findings), with the
corrected create stated beside it. For example, the comment in `canEditOrDelete` says that an Admin
cannot delete, but no layer ever consults `delete_task`; that is
`TaskSpec.DeleteNeedsOnlyEditPermission`.

## Model

| member | source | states |
|---|---|---|
| RoleGuard.IndexOf | libs/auth/src/lib/guards/role.guard.ts:16 | `indexOf`: the first position holding the name, with no earlier match; -1 exactly when the name is absent. |
| RoleGuard.SomeRankAtMost | libs/auth/src/lib/guards/role.guard.ts:17 | `some` holds exactly when one declared role's rank is at most the user's rank. |
| RoleGuard.GrantsWhenNoRolesDeclared | libs/auth/src/lib/guards/role.guard.ts:10-11 | With no metadata, or an empty role list, the guard returns true whoever the user is. |
| RoleGuard.GrantsForNullHandler | libs/auth/src/lib/guards/role.guard.ts:19-21 | A missing handler makes the metadata falsy, so access is granted. |
| RoleGuard.UnauthorizedWithoutUserRole | libs/auth/src/lib/guards/role.guard.ts:12-14 | When roles are declared, a missing user or an empty role throws Unauthorized with "No user role". |
| RoleGuard.GrantedIffSomeDeclaredRoleAtMostUser | libs/auth/src/lib/guards/role.guard.ts:15-17 | The verdict is true exactly when some declared role ranks no higher than the user's role. |
| RoleGuard.MinRank | libs/auth/src/lib/guards/role.guard.ts:17 | The lowest rank among the declared roles. It is attained, and no declared rank is below it. |
| RoleGuard.ThresholdIsLowestDeclaredRank | libs/auth/src/lib/guards/role.guard.ts:17 | The any-of check equals "the user's rank is at least the lowest declared rank". |
| RoleGuard.AdminOwnerActsAsAdmin | libs/auth/src/lib/guards/role.guard.ts:15-17 | `@Roles('Admin','Owner')` gives the same outcome as `@Roles('Admin')` for every request user. |
| RoleGuard.GrantIsMonotoneInRank | libs/auth/src/lib/guards/role.guard.ts:15-17 | A role admitted to a route admits every role ranked at least as high. |
| RoleGuard.HierarchyDenials | libs/auth/src/lib/guards/role.guard.ts:15-17 | Admin is refused an Owner-only route, Viewer is refused Admin and Owner routes, and each role is admitted to its own level. |
| RoleGuard.UnknownUserRoleDenied | libs/auth/src/lib/guards/role.guard.ts:16-17 | A user role outside the hierarchy ranks -1 and is denied when every declared role is known. |
| RoleGuard.UnknownDeclaredRoleAdmitsAnyRole | libs/auth/src/lib/guards/role.guard.ts:17 | A declared role outside the hierarchy ranks -1 and admits any user with a non-empty role. |
| TaskRules.HasNamed | apps/api/src/app/services/task.service.ts:170 | `permissions.some(p => p.name === perm)` holds exactly when some permission has that name. |
| TaskRules.HasPermissionIsMembership | apps/api/src/app/services/task.service.ts:168-171 | A user holds a permission exactly when their role exists and its permission names include it. A missing role holds nothing. |
| TaskRules.EditPermissionMeansSameOrganization | apps/api/src/app/services/task.service.ts:177-178 | With `edit_task`, edit or delete is allowed exactly for tasks of the user's organization. |
| TaskRules.AssigneeFallbackWithoutEditPermission | apps/api/src/app/services/task.service.ts:180 | Without `edit_task`, edit or delete is allowed exactly for tasks assigned to the user. |
| TaskRules.EditPermissionOverridesAssignment | apps/api/src/app/services/task.service.ts:173-181 | With `edit_task`, a task assigned to the user but in another organization is refused. |
| TaskRules.EditAllowedOnlyInOrgOrAssigned | apps/api/src/app/services/task.service.ts:173-181 | Every allowed edit or delete is in the user's organization or on a task assigned to the user. |
| TaskRules.CanAccessTaskTable | apps/api/src/app/services/task.service.ts:192-198 | No task: false. Admin: true. Owner: true iff same organization. Viewer: true iff assignee. Any other role: false. |
| TaskRules.OutputHidesRelations | apps/api/src/app/services/task.service.ts:20-29 | The output keeps id, title, description, category, status and order, and does not depend on the assignee or the organization. |
| TaskQuery.Keep | apps/api/src/app/services/task.service.ts:53-60 | A filtered table holds exactly the rows that satisfy the condition, and no more rows than the input. |
| TaskQuery.KeepSubMultiset | apps/api/src/app/services/task.service.ts:65 | A filtered result is a sub-multiset of the table. |
| TaskQuery.FindTask | apps/api/src/app/services/task.service.ts:110-117 | `findOne` by id returns a stored row with that id, or nothing exactly when no row has it. |
| TaskQuery.FindTaskIsTheRowWithId | apps/api/src/app/services/task.service.ts:110-117 | With unique ids, looking up row k's id returns row k. |
| TaskQuery.Outputs | apps/api/src/app/services/task.service.ts:67 | `map(toOutputDto)` keeps length and position. |
| TaskQuery.Insert | apps/api/src/app/services/task.service.ts:62-65 | Inserting one row adds exactly that row to the multiset. |
| TaskQuery.InsertKeepsSorted | apps/api/src/app/services/task.service.ts:62-65 | Inserting into a sequence already ascending by the column leaves it ascending. |
| TaskQuery.SortBy | apps/api/src/app/services/task.service.ts:62-65 | The ascending sort is a permutation of its input. |
| TaskQuery.SortBySorted | apps/api/src/app/services/task.service.ts:62-65 | The ascending sort's result is ordered by the column (NULL descriptions first, strings by character code). |
| TaskQuery.QueriedIsScopedFilteredSorted | apps/api/src/app/services/task.service.ts:53-65 | The `find` answers exactly the rows in scope that match the category and status filters. They are sorted when a sort is given and in store order otherwise. |
| TaskQuery.WithoutViewOnlyAssigned | apps/api/src/app/services/task.service.ts:54-58 | A user without `view_task` only ever sees tasks assigned to them. |
| TaskQuery.Categories | apps/api/src/app/services/task.service.ts:134-138 | The distinct categories of the rows, each once, exactly those some row carries. |
| TaskQuery.GroupByCategory | apps/api/src/app/services/task.service.ts:134-143 | One group per distinct category. |
| TaskQuery.GroupIndex | apps/api/src/app/services/task.service.ts:136 | The lookup `result[t.category]`: the position of the group with that category, or -1 exactly when there is none. |
| TaskQuery.GroupIndexOfCategories | apps/api/src/app/services/task.service.ts:134-140 | Group positions follow first-seen category order. |
| TaskQuery.GroupByCategoryStep | apps/api/src/app/services/task.service.ts:135-138 | One loop step, which opens a group or appends to one, agrees with the reference grouping of the longer prefix. |
| TaskQuery.EveryTaskInItsOwnGroup | apps/api/src/app/services/task.service.ts:135-138 | Every row appears in the group of its own category. |
| TaskQuery.GroupsDistinctAndNonEmpty | apps/api/src/app/services/task.service.ts:134-143 | Groups carry distinct categories, each group is non-empty, and each holds exactly its category's rows in store order. |
| TaskQuery.CategoriesOfPrefix | apps/api/src/app/services/task.service.ts:140 | The categories of any prefix of the rows are a prefix of the category list (insertion order of the keys). |
| TaskOrdering.Shift | apps/api/src/app/services/task.service.ts:36-41 | The bulk update keeps the table's length. |
| TaskOrdering.ShiftTouchesOnlyTheGroup | apps/api/src/app/services/task.service.ts:36-41 | Rows outside the (organization, category) group are untouched. Rows inside it move down by one and keep every other column. |
| TaskOrdering.ShiftIncrementsGroup | apps/api/src/app/services/task.service.ts:36-41 | The group's orders after the shift are its old orders plus one. |
| TaskOrdering.CreateKeepsGroupDense | apps/api/src/app/services/task.service.ts:35-45 | If a group's orders are 0..n-1 before a create into it, they are 0..n after it. |
| TaskOrdering.AsWrittenAgreesWhenCategoryGiven | apps/api/src/app/services/task.service.ts:40-44 | With a category in the request, the as-written shift and the corrected shift agree. |
| TaskOrdering.AsWrittenMissingCategoryCollides | apps/api/src/app/services/task.service.ts:40-44 | As written, a create without a category puts a second 'Work' task at order 0 next to an existing one. |
| TaskSpec.CreateTaskForbidden | apps/api/src/app/services/task.service.ts:32-33 | An unknown user, or one without `create_task`, gets Forbidden. Nothing moves and nothing is logged. |
| TaskSpec.CreateTaskEffects | apps/api/src/app/services/task.service.ts:31-48 | A permitted create moves down by one exactly the rows of the creator's organization in the category the request names (no row when it names none) and leaves every other row. It appends a fresh-id row at order 0 for the creator, with the request's category or 'Work', and logs CREATE_TASK with the new id. |
| TaskSpec.CreateTaskKeepsOrdersDense | apps/api/src/app/services/task.service.ts:35-45 | For a create that names its category, the group's orders stay dense from 0. |
| TaskSpec.CreateWithoutCategoryDuplicatesOrderZero | apps/api/src/app/services/task.service.ts:40-44 | For every store and every create without a category: if a 'Work' task of the creator's organization is at order 0, it stays there, the new row also gets order 0 in 'Work', and the group is no longer dense from 0. |
| TaskSpec.CorrectedCreateKeepsOrdersDense | apps/api/src/app/services/task.service.ts:35-45 | With the update keyed by the saved row's category, the group stays dense from 0 for every request. |
| TaskSpec.CreateWithKeyKeepsStoreValid | apps/api/src/app/services/task.service.ts:44-45 | Whatever key the bulk update uses, a create keeps task ids unique and below the generator. |
| TaskSpec.ListTasksEffects | apps/api/src/app/services/task.service.ts:50-68 | An unknown user gets Forbidden. Otherwise the answer is the sanitized scoped, filtered, sorted rows, and only a LIST_TASKS entry is added. |
| TaskSpec.ListTasksScope | apps/api/src/app/services/task.service.ts:54-58 | With `view_task` the rows are exactly the organization's. Without it they are exactly those assigned to the user. |
| TaskSpec.ListAllTasksIsEveryTask | apps/api/src/app/services/task.service.ts:95-99 | Every stored row is answered, across organizations, in store order. |
| TaskSpec.ListOrgTasksIsTheOrganization | apps/api/src/app/services/task.service.ts:101-108 | Exactly the sanitized rows of the given organization are answered. |
| TaskSpec.ListCategoriesGroupsVisibleRows | apps/api/src/app/services/task.service.ts:119-144 | An unknown user gets Forbidden. Otherwise the visible rows are grouped: distinct categories, each row in its category's group, rows in store order. |
| TaskSpec.WritersCheckNotFoundThenForbidden | apps/api/src/app/services/task.service.ts:146-166 | A missing user or task gives Not found before Forbidden. Edit, delete and status give Forbidden when `canEditOrDelete` refuses, but the order update does not. A failing call changes nothing. |
| TaskSpec.ReplaceTaskOnlyTarget | apps/api/src/app/services/task.service.ts:76 | Saving a row by id replaces that row of the table only. |
| TaskSpec.EditTaskChangesOnlyTarget | apps/api/src/app/services/task.service.ts:70-79 | A successful edit rewrites only the target row, only in the request's fields, keeping id, order and relations, and logs EDIT_TASK. |
| TaskSpec.DeleteTaskRemovesExactlyTarget | apps/api/src/app/services/task.service.ts:81-89 | A successful delete removes exactly the target row, keeps the rest in order, answers `{deleted: true}` and logs DELETE_TASK. |
| TaskSpec.RemoveUniqueRow | apps/api/src/app/services/task.service.ts:86 | Deleting by a unique id drops exactly that position. |
| TaskSpec.KeepDropsOne | apps/api/src/app/services/task.service.ts:86 | A filter that refuses exactly one row drops that row only. |
| TaskSpec.UpdateTaskOrderOverwritesOnly | apps/api/src/app/services/task.service.ts:146-155 | The order update overwrites the target's order, moves no sibling, has no permission check, and logs UPDATE_ORDER. |
| TaskSpec.UpdateTaskStatusOnlyStatus | apps/api/src/app/services/task.service.ts:157-166 | A permitted status update changes the target's status only and logs UPDATE_STATUS. |
| TaskSpec.DeleteNeedsOnlyEditPermission | apps/api/src/app/services/task.service.ts:81-89 | A user with `edit_task` but not `delete_task` still deletes tasks of their own organization. |
| TaskSpec.KeepUnique | apps/api/src/app/services/task.service.ts:65 | Filtering keeps ids unique. |
| TaskSpec.ReplaceKeepsValid | apps/api/src/app/services/task.service.ts:76 | Saving an existing row keeps the store invariant: unique task ids below the generator, users keyed by their id. |
| TaskSpec.RemoveKeepsValid | apps/api/src/app/services/task.service.ts:86 | Deleting keeps the store invariant. |
| TaskSpec.CreateTaskKeepsStoreValid | apps/api/src/app/services/task.service.ts:44-45 | Creating keeps the store invariant: the new id is fresh. |
| TaskSpec.WritersKeepStoreValid | apps/api/src/app/services/task.service.ts:31-89 | Create, delete and list keep the store invariant on every outcome. |
| TaskSpec.UpdatersKeepStoreValid | apps/api/src/app/services/task.service.ts:70-79 | Edit, order and status updates keep the store invariant on every outcome. |
| TaskServiceState.TaskService.constructor | apps/api/src/app/services/task.service.ts:11-18 | The service starts on the given tables with an empty audit log. |
| TaskServiceState.TaskService.LogAudit | apps/api/src/app/services/task.service.ts:183-190 | One entry (user id, action, target) is appended to the log; nothing else changes. |
| TaskServiceState.TaskService.HasPermission | apps/api/src/app/services/task.service.ts:168-171 | Returns the permission decision on the current roles table. |
| TaskServiceState.TaskService.CanEditOrDelete | apps/api/src/app/services/task.service.ts:173-181 | Returns the edit/delete decision on the current roles table. |
| TaskServiceState.TaskService.ScopeOf | apps/api/src/app/services/task.service.ts:54-58 | The visibility scope: organization with `view_task`, assignee without. |
| TaskServiceState.TaskService.CreateTask | apps/api/src/app/services/task.service.ts:31-48 | Result and new state are those of the as-written create specification (the update keyed by the request's category), and the store invariant is kept. |
| TaskServiceState.TaskService.ListTasks | apps/api/src/app/services/task.service.ts:50-68 | Result and new state are those of the list specification. |
| TaskServiceState.TaskService.EditTask | apps/api/src/app/services/task.service.ts:70-79 | Result and new state are those of the edit specification. |
| TaskServiceState.TaskService.DeleteTask | apps/api/src/app/services/task.service.ts:81-89 | Result and new state are those of the delete specification. |
| TaskServiceState.TaskService.GetAuditLog | apps/api/src/app/services/task.service.ts:91-93 | Returns the whole log. |
| TaskServiceState.TaskService.ListAllTasks | apps/api/src/app/services/task.service.ts:95-99 | Returns every row sanitized. |
| TaskServiceState.TaskService.ListOrgTasks | apps/api/src/app/services/task.service.ts:101-108 | Returns the organization's rows sanitized. |
| TaskServiceState.TaskService.GetTask | apps/api/src/app/services/task.service.ts:110-117 | Returns the stored row with the id, or nothing exactly when none has it. |
| TaskServiceState.TaskService.ListCategories | apps/api/src/app/services/task.service.ts:119-144 | Returns the grouping specification of the visible rows. |
| TaskServiceState.TaskService.GroupRows | apps/api/src/app/services/task.service.ts:134-138 | The grouping loop computes the reference grouping. |
| TaskServiceState.TaskService.UpdateTaskOrder | apps/api/src/app/services/task.service.ts:146-155 | Result and new state are those of the order-update specification. |
| TaskServiceState.TaskService.UpdateTaskStatus | apps/api/src/app/services/task.service.ts:157-166 | Result and new state are those of the status-update specification. |
| TaskController.RouteAdmissionTable | apps/api/src/app/controllers/task.controller.ts:12-80 | Owner and Admin pass every route. Viewer passes only the two readers. An empty role is Unauthorized, and an unknown role is refused. |
| TaskController.ViewerCannotWrite | apps/api/src/app/controllers/task.controller.ts:16-80 | A Viewer's call to a writing route or to the audit log is refused and leaves the store unchanged. |
| TaskController.ListTasksByRole | apps/api/src/app/controllers/task.controller.ts:22-38 | An Admin claim gets every task and an Owner claim its organization, both unlogged. Any other claim gets the scoped service query, with the status filter only for a non-empty status, logged. |
| TaskController.MissingTaskIsForbiddenOnEditAndDelete | apps/api/src/app/controllers/task.controller.ts:60-74 | For an id with no row, edit and delete answer Forbidden, not Not found, and change nothing. |
| TaskController.EditRouteSucceedsIff | apps/api/src/app/controllers/task.controller.ts:60-66 | An edit succeeds exactly when the guard, `canAccessTask` on the claim and `canEditOrDelete` on the stored user all agree. |
| TaskController.DeleteRouteSucceedsIff | apps/api/src/app/controllers/task.controller.ts:68-74 | The same for delete; no layer asks for `delete_task`. |
| TaskController.AdminClaimReliesOnServiceCheck | apps/api/src/app/controllers/task.controller.ts:60-66 | An Admin claim editing another organization's task passes `canAccessTask` and is stopped only by the service's organization check. |
| TaskController.OrderRouteIgnoresOwnership | apps/api/src/app/controllers/task.controller.ts:46-51 | Owner and Admin claims can reorder any existing task of any organization. |
| TaskController.TaskController.constructor | apps/api/src/app/controllers/task.controller.ts:14 | The controller holds the given service. |
| TaskController.TaskController.CreateTask | apps/api/src/app/controllers/task.controller.ts:12-20 | The response and new store are the role guard's decision on the route's `@Roles` (Unauthorized or Refused, store unchanged) or, when it grants, the service's create. |
| TaskController.TaskController.ListTasks | apps/api/src/app/controllers/task.controller.ts:22-38 | The response and new store are the guard's decision or, when it grants, the role-dispatched reader. |
| TaskController.TaskController.ListCategories | apps/api/src/app/controllers/task.controller.ts:40-44 | The response is the guard's decision or, when it grants, the grouping. |
| TaskController.TaskController.UpdateOrder | apps/api/src/app/controllers/task.controller.ts:46-51 | The response and new store are the guard's decision or, when it grants, the order update. |
| TaskController.TaskController.UpdateStatus | apps/api/src/app/controllers/task.controller.ts:53-58 | The response and new store are the guard's decision or, when it grants, the status update. |
| TaskController.TaskController.EditTask | apps/api/src/app/controllers/task.controller.ts:60-66 | The response and new store are the guard's decision or, when it grants, `canAccessTask` and then the edit. |
| TaskController.TaskController.DeleteTask | apps/api/src/app/controllers/task.controller.ts:68-74 | The response and new store are the guard's decision or, when it grants, `canAccessTask` and then the delete. |
| TaskController.TaskController.GetAuditLog | apps/api/src/app/controllers/task.controller.ts:76-80 | The response is the guard's decision or, when it grants, the whole log. |
| FindOrCreate.FirstIndex | apps/api/src/app/services/seeder.service.ts:35 | `findOne` by key: the first row with the key, or -1 exactly when no row has it. |
| FindOrCreate.FindFirst | apps/api/src/app/services/seeder.service.ts:35 | The row `findOne` returns has the key, and nothing is returned exactly when no row has it. |
| FindOrCreate.FindFirstExtend | apps/api/src/app/services/seeder.service.ts:35-38 | Appending rows does not change a lookup that already succeeded. A failed lookup continues into the new rows. |
| FindOrCreate.FindOrCreateOneFinds | apps/api/src/app/services/seeder.service.ts:35-38 | After the step the seed's key is found as the returned row, and other lookups that succeeded are unchanged. |
| FindOrCreate.FindOrCreateOneAbsent | apps/api/src/app/services/seeder.service.ts:36-37 | An absent key saves a row built from the seed under the next id. |
| FindOrCreate.FindOrCreateAll | apps/api/src/app/services/seeder.service.ts:34-40 | The loop yields one row per seed, only appends to the table, and advances the generator by the number of saves. |
| FindOrCreate.FindOrCreateAllSnoc | apps/api/src/app/services/seeder.service.ts:34-40 | One more iteration is one more find-or-create step. |
| FindOrCreate.FindOrCreateAllFinds | apps/api/src/app/services/seeder.service.ts:34-40 | After the loop, every seed's key is found as the row the loop yielded for it. |
| FindOrCreate.FindOrCreateAllKeepsFound | apps/api/src/app/services/seeder.service.ts:35-39 | A seed whose key existed yields the pre-existing row. |
| FindOrCreate.FindOrCreateAllIdle | apps/api/src/app/services/seeder.service.ts:34-40 | When every key exists, the loop saves nothing. |
| FindOrCreate.FindOrCreateAllNewRows | apps/api/src/app/services/seeder.service.ts:36-37 | Every appended row is built from some seed under consecutive ids. |
| FindOrCreate.AbsentKeyStaysAbsent | apps/api/src/app/services/seeder.service.ts:34-40 | A key no seed carries remains absent. |
| FindOrCreate.NewSeedYieldsItsOwnRow | apps/api/src/app/services/seeder.service.ts:36-37 | A seed whose key was absent, with distinct seed keys, yields a row built from that seed. |
| FindOrCreate.FindOrCreateAllKeepsIdsFresh | apps/api/src/app/services/seeder.service.ts:37 | Saved rows keep ids unique and below the generator. |
| FindOrCreate.FindOrCreateAllFresh | apps/api/src/app/services/seeder.service.ts:34-40 | From an empty table with distinct keys, the loop saves every seed in order under consecutive ids. |
| Seeder.PermsWhere | apps/api/src/app/services/seeder.service.ts:60-64 | `filter` keeps exactly the permissions satisfying the predicate. |
| Seeder.SaveRole | apps/api/src/app/services/seeder.service.ts:54-65 | Saving a role whose id exists does not add a row. |
| Seeder.SaveRoleAt | apps/api/src/app/services/seeder.service.ts:54-65 | Saving a role over the row with its id replaces that row and keeps ids and names. |
| Seeder.AssignPermissionsShape | apps/api/src/app/services/seeder.service.ts:53-65 | The three grants keep the roles table's ids and names aligned. |
| Seeder.AssignedRoleFound | apps/api/src/app/services/seeder.service.ts:53-65 | After the grants, each seeded role name finds its granted row. |
| Seeder.GrantNames | apps/api/src/app/services/seeder.service.ts:53-65 | Owner gets all four permissions, Admin all but `delete_task`, Viewer only `view_task`. |
| Seeder.SeedOrganizations | apps/api/src/app/services/seeder.service.ts:21-29 | After `seed`, both organizations exist, and any organization found before is kept as it was. |
| Seeder.SeedNewOrganizations | apps/api/src/app/services/seeder.service.ts:23-28 | A newly saved ParentOrg has no parent. A newly saved ChildOrg has ParentOrg as parent. |
| Seeder.SeedPermissionCatalog | apps/api/src/app/services/seeder.service.ts:31-65 | After `seed`, each role name is found with exactly its granted permission names. |
| Seeder.SeedUsersByEmail | apps/api/src/app/services/seeder.service.ts:67-78 | After `seed`, each seed email exists, and a user found before is kept. |
| Seeder.SeedNewUserFields | apps/api/src/app/services/seeder.service.ts:68-77 | A user saved by `seed` has the seed password, its role, and its organization (owner in ParentOrg, admin and viewer in ChildOrg). |
| Seeder.AdminFoundAfterUsers | apps/api/src/app/services/seeder.service.ts:81-82 | The admin lookup before the tasks always succeeds. |
| Seeder.SeedTasksByTitle | apps/api/src/app/services/seeder.service.ts:80-119 | After `seed`, each task title exists and a task found by title is kept. A new one has order k+1, the admin as assignee, ChildOrg as organization and its category. |
| Seeder.TaskStageFresh | apps/api/src/app/services/seeder.service.ts:84-118 | From an empty task table the three templates are saved in order under consecutive ids. |
| Seeder.SeededWorkOrdersNotDense | apps/api/src/app/services/seeder.service.ts:84-112 | From an empty task table, ChildOrg's Work group holds orders 1 and 3. This is not the dense-from-0 order `createTask` keeps. |
| Seeder.SettledIsFixed | apps/api/src/app/services/seeder.service.ts:20-120 | On a database where every lookup of `seed` succeeds, role ids are unique and every seeded role already holds its grant, `seed` changes nothing, whatever other rows exist. |
| Seeder.SeedSettles | apps/api/src/app/services/seeder.service.ts:20-120 | After one `seed` the database is settled. |
| Seeder.SeedIsIdempotent | apps/api/src/app/services/seeder.service.ts:20-120 | Running `seed` twice gives the same database as running it once. |
| Seeder.StepsAreSeed | apps/api/src/app/services/seeder.service.ts:20-120 | The stage-by-stage composition the class runs equals the specification of `seed`. |
| Seeder.SeederService.constructor | apps/api/src/app/services/seeder.service.ts:10-18 | The seeder starts on the given tables. |
| Seeder.SeederService.FindOrSaveOrg | apps/api/src/app/services/seeder.service.ts:22-29 | One organization found or saved, as the organization stage specifies. |
| Seeder.SeederService.SeedRoleRows | apps/api/src/app/services/seeder.service.ts:32-40 | The roles loop follows the find-or-create specification, iteration by iteration. |
| Seeder.SeederService.SeedPermRows | apps/api/src/app/services/seeder.service.ts:43-51 | The permissions loop follows the find-or-create specification. |
| Seeder.SeederService.AssignGrants | apps/api/src/app/services/seeder.service.ts:53-65 | The three role saves follow the grant stage. |
| Seeder.SeederService.SeedUserRows | apps/api/src/app/services/seeder.service.ts:68-78 | The users loop follows the find-or-create specification. |
| Seeder.SeederService.SeedTaskLoop | apps/api/src/app/services/seeder.service.ts:113-118 | The tasks loop follows the find-or-create specification. |
| Seeder.SeederService.SeedTaskRows | apps/api/src/app/services/seeder.service.ts:81-119 | The admin lookup, then the tasks loop; nothing is seeded without the admin. |
| Seeder.SeederService.Seed | apps/api/src/app/services/seeder.service.ts:20-120 | The new state is the `seed` specification of the old state, so every property above and idempotence hold of the method. |

## Left out

- Authentication: JWT validation, the user service and the login flow are not part of this model. The claim `{id, role, orgId}` is an input.
- The dashboard front end and the shared data library's DTO validation are not part of this model.
- Audit timestamps (`new Date().toISOString()`) come from a clock and are left out of the audit entry.
- Concurrency: every `await` becomes one atomic step, and requests do not interleave.
- `listTasks` `options.filter`: the controller only ever passes `{status}`, so the model takes a status filter. Arbitrary filter keys merged into `where` are left out.
- `listTasks` `options.sort`: only the known columns (id, title, description, category, status, order) are modelled. A sort on an unknown column name, which the database would reject, is left out.
- `Object.entries` order in `listCategories` is modelled as first-seen insertion order. JavaScript moves integer-like keys to the front; that case is left out.
- Task categories named after members of `Object.prototype` (`constructor`, `toString`, `__proto__` and the like): `listCategories` groups into a plain `{}`, so for such a category the lookup `result[t.category]` finds the inherited member and the `push` throws. The model's grouping treats every category name alike.
- Null relations: a task whose assignee or organization is null makes `canAccessTask` throw (it reads `.id` without `?.`), and a user without a role makes `hasPermission` throw on `user.role.id`. The model stores these relations as ids that are always present, so these throws are not modelled.
- The bulk update's raw `order + 1` fragment: `order` is a reserved word in SQL, and whether the unquoted column name is accepted depends on the database. The model assumes the update runs; if the database rejects it, every permitted create fails after the permission check and before the save.
- TypeORM internals (relation loading, cascade options, SQL generation) are abstracted. Each relation is a stored id, and `save` of an existing id overwrites the row.
- Ids come from one generator per service or seeder. The database's per-table auto-increment is modelled as a counter shared by the seeder's tables.
- Error messages are modelled as error kinds (Forbidden, Not found), not strings.
- Seeder.SeedPermissionCatalog, Seeder.SeedNewUserFields, Seeder.SeedSettles and Seeder.SeedIsIdempotent: they assume the existing roles table has unique ids below the generator (what an auto-increment table gives). Databases that break this are not covered.
- Integer width: ids and orders are unbounded integers. The database's 32-bit columns and overflow are not modelled.

## Findings

| source | as written | input that shows it | evidently intended | confidence | as-written member | corrected member |
|---|---|---|---|---|---|---|
| apps/api/src/app/services/task.service.ts:38-44 | The shift's `category = :category` binds the request's `dto.category`, while the saved row takes the column default 'Work' when that is absent | A create with no category in an organization whose 'Work' group holds a task at order 0: nothing shifts, and the new task also gets order 0 in 'Work' | Key the shift on the category the row is saved with, so the group stays dense from 0 | low: depends on the query builder binding an undefined parameter as NULL, and on the raw `order + 1` at line 38 being accepted by the database (if it is rejected, every permitted create fails instead); not executed | TaskSpec.CreateTaskSpec, TaskSpec.CreateWithoutCategoryDuplicatesOrderZero, TaskOrdering.AsWrittenMissingCategoryCollides | TaskSpec.CorrectedCreateTaskSpec, TaskSpec.CorrectedCreateKeepsOrdersDense, TaskOrdering.CreateKeepsGroupDense |
