/** The persisted entities the core reads and writes: tasks, users, roles,
    permissions and organizations, with the column defaults of the task entity. */
module Entities {
  import opened Common

  /** The four capability names the permission catalog knows. */
  const CreateTaskPerm: string := "create_task"
  const EditTaskPerm: string := "edit_task"
  const DeleteTaskPerm: string := "delete_task"
  const ViewTaskPerm: string := "view_task"

  /** Column defaults of the task entity. */
  const DefaultCategory: string := "Work"
  const DefaultStatus: string := "Todo"
  const DefaultOrder: int := 0

  datatype Permission = Permission(id: int, name: string)

  datatype Role = Role(id: int, name: string, permissions: seq<Permission>)

  datatype Organization = Organization(id: int, name: string, parent: Option<int>)

  /** A user row with its role and organization relations reduced to their ids. */
  datatype User = User(id: int, email: string, password: string, roleId: int, orgId: int)

  /** A task row; `assignedTo` and `organization` are the ids of the related rows. */
  datatype Task = Task(
    id: int,
    title: string,
    description: Option<string>,
    category: string,
    status: string,
    order: int,
    assignedTo: int,
    organization: int)

  /** The sanitized task shape handed to callers: no assignee, no organization. */
  datatype TaskOutput = TaskOutput(
    id: int,
    title: string,
    description: Option<string>,
    category: string,
    status: string,
    order: int)

  /** The set of permission names a role holds. */
  function PermissionNames(role: Role): set<string> {
    set i | 0 <= i < |role.permissions| :: role.permissions[i].name
  }
}
