/** The bootstrap seeder: find-or-create of two organizations, three roles,
    four permissions, three users and three tasks, and the permission sets
    each role is given. */
module Seeder {
  import opened Common
  import opened Entities
  import opened FindOrCreate
  import TaskOrdering

  /** Every table of the database, with one id generator for all of them. */
  datatype Db = Db(
    orgs: seq<Organization>,
    roles: seq<Role>,
    perms: seq<Permission>,
    users: seq<User>,
    tasks: seq<Task>,
    nextId: int)

  const ParentOrgName: string := "ParentOrg"
  const ChildOrgName: string := "ChildOrg"
  const RoleNames: seq<string> := ["Owner", "Admin", "Viewer"]
  const PermNames: seq<string> := [CreateTaskPerm, EditTaskPerm, DeleteTaskPerm, ViewTaskPerm]
  const OwnerEmail: string := "owner@org.com"
  const AdminEmail: string := "admin@org.com"
  const ViewerEmail: string := "viewer@org.com"
  const SeedPassword: string := "pass"

  // ---------------------------------------------------------------------------
  // Columns and constructors of the saved rows

  datatype OrgSeed = OrgSeed(name: string, parent: Option<int>)
  datatype UserSeed = UserSeed(email: string, password: string, orgId: int, roleId: int)
  datatype TaskSeed = TaskSeed(title: string, description: string, category: string, status: string,
                               order: int, assignedTo: int, organization: int)

  function OrgName(o: Organization): string { o.name }
  function OrgSeedName(s: OrgSeed): string { s.name }
  function NewOrg(id: int, s: OrgSeed): Organization { Organization(id, s.name, s.parent) }

  function RoleName(r: Role): string { r.name }
  function RoleId(r: Role): int { r.id }
  function SameName(name: string): string { name }
  /** `roleRepo.save({ name })`: a role with no permissions yet. */
  function NewRole(id: int, name: string): Role { Role(id, name, []) }

  function PermName(p: Permission): string { p.name }
  function NewPerm(id: int, name: string): Permission { Permission(id, name) }

  function UserEmail(u: User): string { u.email }
  function SeedEmail(u: UserSeed): string { u.email }
  function NewUser(id: int, u: UserSeed): User { User(id, u.email, u.password, u.roleId, u.orgId) }

  function TaskTitle(t: Task): string { t.title }
  function SeedTitle(t: TaskSeed): string { t.title }
  function NewSeedTask(id: int, t: TaskSeed): Task {
    Task(id, t.title, Some(t.description), t.category, t.status, t.order, t.assignedTo, t.organization)
  }

  // ---------------------------------------------------------------------------
  // The seed data

  /** The three users: the owner in the parent, admin and viewer in the child. */
  function UserSeeds(parent: Organization, child: Organization, roles: seq<Role>): seq<UserSeed>
    requires |roles| == 3
  {
    [UserSeed(OwnerEmail, SeedPassword, parent.id, roles[0].id),
     UserSeed(AdminEmail, SeedPassword, child.id, roles[1].id),
     UserSeed(ViewerEmail, SeedPassword, child.id, roles[2].id)]
  }

  /** The three tasks, all assigned to the admin user and placed in the child. */
  function TaskSeeds(assignee: int, org: int): seq<TaskSeed> {
    [TaskSeed("Sample Task", "This is a seeded task.", "Work", "Todo", 1, assignee, org),
     TaskSeed("Personal Errand", "Buy groceries.", "Personal", "InProgress", 2, assignee, org),
     TaskSeed("Finish Report", "Complete the quarterly report.", "Work", "Done", 3, assignee, org)]
  }

  // ---------------------------------------------------------------------------
  // Permission assignment

  /** `permissions.filter(...)`. */
  function PermsWhere(ps: seq<Permission>, keep: Permission -> bool): (r: seq<Permission>)
    ensures forall x :: x in r <==> x in ps && keep(x)
  {
    if |ps| == 0 then []
    else PermsWhere(ps[..|ps| - 1], keep) + (if keep(ps[|ps| - 1]) then [ps[|ps| - 1]] else [])
  }

  predicate NotDelete(p: Permission) { p.name != DeleteTaskPerm }
  predicate IsView(p: Permission) { p.name == ViewTaskPerm }

  /** `roleRepo.save(role)`: overwrite the rows with its id, or insert it. */
  function SaveRole(roles: seq<Role>, r: Role): (out: seq<Role>)
    ensures (exists i :: 0 <= i < |roles| && roles[i].id == r.id) ==> |out| == |roles|
  {
    if exists i :: 0 <= i < |roles| && roles[i].id == r.id then
      seq(|roles|, i requires 0 <= i < |roles| => if roles[i].id == r.id then r else roles[i])
    else roles + [r]
  }

  /** The permission set each seeded role receives: Owner (k = 0) every
      permission, Admin (k = 1) all but `delete_task`, Viewer (k = 2)
      `view_task` only. */
  function GrantFor(k: nat, ps: seq<Permission>): seq<Permission> {
    if k == 0 then ps else if k == 1 then PermsWhere(ps, NotDelete) else PermsWhere(ps, IsView)
  }

  function Granted(seeded: seq<Role>, k: nat, ps: seq<Permission>): Role
    requires k < |seeded|
  {
    seeded[k].(permissions := GrantFor(k, ps))
  }

  /** The three `roleRepo.save` calls that attach the permissions. */
  function AssignPermissions(roles: seq<Role>, seeded: seq<Role>, ps: seq<Permission>): seq<Role>
    requires |seeded| == 3
  {
    SaveRole(SaveRole(SaveRole(roles, Granted(seeded, 0, ps)), Granted(seeded, 1, ps)), Granted(seeded, 2, ps))
  }

  // ---------------------------------------------------------------------------
  // The stages of `seed`

  function SeedParent(db: Db): Saved<Organization> {
    FindOrCreateOne(db.orgs, db.nextId, OrgName, OrgSeedName, NewOrg, OrgSeed(ParentOrgName, None))
  }

  function SeedChild(db: Db, parent: Saved<Organization>): Saved<Organization> {
    FindOrCreateOne(parent.table, parent.next, OrgName, OrgSeedName, NewOrg,
                    OrgSeed(ChildOrgName, Some(parent.row.id)))
  }

  function SeedRoles(db: Db, next: int): (b: Batch<Role>)
    ensures |b.rows| == 3
  {
    FindOrCreateAll(db.roles, next, RoleName, SameName, NewRole, RoleNames)
  }

  function SeedPerms(db: Db, next: int): (b: Batch<Permission>)
    ensures |b.rows| == 4
  {
    FindOrCreateAll(db.perms, next, PermName, SameName, NewPerm, PermNames)
  }

  function SeedUsers(db: Db, next: int, parent: Organization, child: Organization, roles: seq<Role>): Batch<User>
    requires |roles| == 3
  {
    FindOrCreateAll(db.users, next, UserEmail, SeedEmail, NewUser, UserSeeds(parent, child, roles))
  }

  /** `if (assignedUser)`: the tasks are seeded only when the admin is found. */
  function SeedTasks(db: Db, next: int, users: seq<User>, child: Organization): Batch<Task> {
    match FindFirst(users, UserEmail, AdminEmail)
    case None => Batch(db.tasks, next, [])
    case Some(admin) =>
      FindOrCreateAll(db.tasks, next, TaskTitle, SeedTitle, NewSeedTask, TaskSeeds(admin.id, child.id))
  }

  /** What each stage of `seed` saw and yielded. */
  datatype Run = Run(parent: Saved<Organization>, child: Saved<Organization>, roles: Batch<Role>,
                     perms: Batch<Permission>, users: Batch<User>, tasks: Batch<Task>)

  /** The stages of `seed`, in order, each drawing ids from where the last
      one left the generator. */
  function SeedRun(db: Db): Run {
    var parent := SeedParent(db);
    var child := SeedChild(db, parent);
    var roles := SeedRoles(db, child.next);
    var perms := SeedPerms(db, roles.next);
    var users := SeedUsers(db, perms.next, parent.row, child.row, roles.rows);
    var tasks := SeedTasks(db, users.next, users.table, child.row);
    Run(parent, child, roles, perms, users, tasks)
  }

  /** The whole of `seed`: the tables its stages leave, with the role saves
      applied to the role table. */
  function SeedSpec(db: Db): Db {
    var r := SeedRun(db);
    Db(r.child.table, AssignPermissions(r.roles.table, r.roles.rows, r.perms.rows), r.perms.table,
       r.users.table, r.tasks.table, r.tasks.next)
  }

  /** What the seeder relies on of the role table: ids unique and below the generator. */
  ghost predicate RolesFresh(db: Db) {
    IdsFresh(db.roles, RoleId, db.nextId)
  }

  // ---------------------------------------------------------------------------
  // Organizations

  /** Both organizations exist afterwards, and each one found before is
      kept as it was. */
  lemma SeedOrganizations(db: Db)
    ensures var s := SeedSpec(db);
            FindFirst(s.orgs, OrgName, ParentOrgName).Some? && FindFirst(s.orgs, OrgName, ChildOrgName).Some?
    ensures var s := SeedSpec(db);
            var before := FindFirst(db.orgs, OrgName, ParentOrgName);
            before.Some? ==> FindFirst(s.orgs, OrgName, ParentOrgName) == before
    ensures var s := SeedSpec(db);
            var before := FindFirst(db.orgs, OrgName, ChildOrgName);
            before.Some? ==> FindFirst(s.orgs, OrgName, ChildOrgName) == before
  {
    var r := SeedRun(db);
    RunOrgsFound(db);
    FindOrCreateOneFinds(db.orgs, db.nextId, OrgName, OrgSeedName, NewOrg, OrgSeed(ParentOrgName, None), ChildOrgName);
  }

  /** An organization is saved only when no organization has its name: a
      newly saved ParentOrg has no parent, and a newly saved ChildOrg has
      ParentOrg as its parent. */
  lemma SeedNewOrganizations(db: Db)
    ensures var s := SeedSpec(db);
            var parent := FindFirst(s.orgs, OrgName, ParentOrgName);
            FindFirst(db.orgs, OrgName, ParentOrgName).None? ==> parent.Some? && parent.value.parent == None
    ensures var s := SeedSpec(db);
            var parent := FindFirst(s.orgs, OrgName, ParentOrgName);
            var child := FindFirst(s.orgs, OrgName, ChildOrgName);
            FindFirst(db.orgs, OrgName, ChildOrgName).None? ==>
              parent.Some? && child.Some? && child.value.parent == Some(parent.value.id)
  {
    var r := SeedRun(db);
    RunOrgsFound(db);
    if FindFirst(db.orgs, OrgName, ChildOrgName).None? {
      FindFirstExtend(db.orgs, r.parent.table[|db.orgs|..], OrgName, ChildOrgName);
      assert db.orgs + r.parent.table[|db.orgs|..] == r.parent.table;
      assert FindFirst(r.parent.table, OrgName, ChildOrgName).None?;
    }
  }

  lemma OrgsFound(db: Db)
    ensures var p := SeedParent(db);
            var c := SeedChild(db, p);
            FindFirst(c.table, OrgName, ParentOrgName) == Some(p.row) &&
            FindFirst(c.table, OrgName, ChildOrgName) == Some(c.row)
  {
    var p := SeedParent(db);
    FindOrCreateOneFinds(db.orgs, db.nextId, OrgName, OrgSeedName, NewOrg, OrgSeed(ParentOrgName, None), ParentOrgName);
    FindOrCreateOneFinds(p.table, p.next, OrgName, OrgSeedName, NewOrg, OrgSeed(ChildOrgName, Some(p.row.id)), ParentOrgName);
    FindOrCreateOneFinds(p.table, p.next, OrgName, OrgSeedName, NewOrg, OrgSeed(ChildOrgName, Some(p.row.id)), ChildOrgName);
  }

  // ---------------------------------------------------------------------------
  // Roles and the permission catalog

  ghost predicate UniqueRoleIds(rs: seq<Role>) {
    forall i, j :: 0 <= i < j < |rs| ==> rs[i].id != rs[j].id
  }

  /** Two role tables that agree on every row's id and name. */
  ghost predicate SameIdsNames(a: seq<Role>, b: seq<Role>) {
    |a| == |b| && forall i :: 0 <= i < |a| ==> a[i].id == b[i].id && a[i].name == b[i].name
  }

  lemma SameIdsNamesTrans(a: seq<Role>, b: seq<Role>, c: seq<Role>)
    requires SameIdsNames(a, b) && SameIdsNames(b, c)
    ensures SameIdsNames(a, c)
  {
  }

  /** Saving a role whose id is at position p overwrites that position only. */
  lemma SaveRoleAt(roles: seq<Role>, p: nat, r: Role)
    requires UniqueRoleIds(roles) && p < |roles| && r.id == roles[p].id && r.name == roles[p].name
    ensures SaveRole(roles, r) == roles[p := r]
    ensures UniqueRoleIds(roles[p := r]) && SameIdsNames(roles[p := r], roles)
  {
  }

  /** Saving a row as it already is changes nothing. */
  lemma SaveRoleIdle(roles: seq<Role>, p: nat)
    requires UniqueRoleIds(roles) && p < |roles|
    ensures SaveRole(roles, roles[p]) == roles
  {
    SaveRoleAt(roles, p, roles[p]);
    assert roles[p := roles[p]] == roles;
  }

  lemma RoleNamesDistinct()
    ensures RoleNames[0] != RoleNames[1] && RoleNames[0] != RoleNames[2] && RoleNames[1] != RoleNames[2]
  {
    assert RoleNames[0][0] == 'O' && RoleNames[1][0] == 'A' && |RoleNames[2]| == 6;
  }

  /** The position `findOne` reports for a role name. */
  lemma FoundAt(x: seq<Role>, k: nat, r: Role) returns (p: nat)
    requires k < 3 && FindFirst(x, RoleName, RoleNames[k]) == Some(r)
    ensures p < |x| && x[p] == r && p == FirstIndex(x, RoleName, RoleNames[k]) && r.name == RoleNames[k]
  {
    p := FirstIndex(x, RoleName, RoleNames[k]);
  }

  /** The three role saves overwrite the three seeded rows in place. */
  lemma AssignPermissionsShape(x: seq<Role>, rs: seq<Role>, ps: seq<Permission>)
    requires UniqueRoleIds(x) && |rs| == 3
    requires forall k :: 0 <= k < 3 ==> FindFirst(x, RoleName, RoleNames[k]) == Some(rs[k])
    ensures var a := AssignPermissions(x, rs, ps);
            UniqueRoleIds(a) && SameIdsNames(a, x)
    ensures var a := AssignPermissions(x, rs, ps);
            forall k :: 0 <= k < 3 ==>
              0 <= FirstIndex(x, RoleName, RoleNames[k]) && a[FirstIndex(x, RoleName, RoleNames[k])] == Granted(rs, k, ps)
  {
    var p0 := FoundAt(x, 0, rs[0]);
    var p1 := FoundAt(x, 1, rs[1]);
    var p2 := FoundAt(x, 2, rs[2]);
    RoleNamesDistinct();
    assert p0 != p1 && p0 != p2 && p1 != p2;
    var g0 := Granted(rs, 0, ps);
    var g1 := Granted(rs, 1, ps);
    var g2 := Granted(rs, 2, ps);
    SaveRoleAt(x, p0, g0);
    var x0 := x[p0 := g0];
    SaveRoleAt(x0, p1, g1);
    var x1 := x0[p1 := g1];
    SaveRoleAt(x1, p2, g2);
    var a := x1[p2 := g2];
    SameIdsNamesTrans(x1, x0, x);
    SameIdsNamesTrans(a, x1, x);
    assert a[p0] == g0 && a[p1] == g1 && a[p2] == g2;
    forall k | 0 <= k < 3
      ensures 0 <= FirstIndex(x, RoleName, RoleNames[k]) && a[FirstIndex(x, RoleName, RoleNames[k])] == Granted(rs, k, ps)
    {
      if k == 0 { assert FirstIndex(x, RoleName, RoleNames[k]) == p0; }
      else if k == 1 { assert FirstIndex(x, RoleName, RoleNames[k]) == p1; }
      else { assert FirstIndex(x, RoleName, RoleNames[k]) == p2; }
    }
  }

  /** After the saves, each role name is found as its seeded row with its new grant. */
  lemma AssignedRoleFound(x: seq<Role>, rs: seq<Role>, ps: seq<Permission>, k: nat)
    requires UniqueRoleIds(x) && |rs| == 3 && k < 3
    requires forall k :: 0 <= k < 3 ==> FindFirst(x, RoleName, RoleNames[k]) == Some(rs[k])
    ensures FindFirst(AssignPermissions(x, rs, ps), RoleName, RoleNames[k]) == Some(Granted(rs, k, ps))
  {
    AssignPermissionsShape(x, rs, ps);
    var a := AssignPermissions(x, rs, ps);
    var p := FoundAt(x, k, rs[k]);
    assert forall i :: 0 <= i < |a| ==> RoleName(a[i]) == RoleName(x[i]) by {
      assert SameIdsNames(a, x);
    }
    FoundAfterSameKeys(a, x, RoleName, RoleNames[k], p);
  }
  /** The rows the roles loop yields, found in the table it leaves, with ids
      still unique. */
  lemma SeededRoles(db: Db, next: int)
    requires IdsFresh(db.roles, RoleId, next)
    ensures var b := SeedRoles(db, next);
            && UniqueRoleIds(b.table)
            && (forall k :: 0 <= k < 3 ==> FindFirst(b.table, RoleName, RoleNames[k]) == Some(b.rows[k]))
            && (forall k :: 0 <= k < 3 ==> b.rows[k].name == RoleNames[k])
  {
    var b := SeedRoles(db, next);
    FindOrCreateAllFinds(db.roles, next, RoleName, SameName, NewRole, RoleNames);
    forall k | 0 <= k < 3
      ensures FindFirst(b.table, RoleName, RoleNames[k]) == Some(b.rows[k]) && b.rows[k].name == RoleNames[k]
    {
      assert SameName(RoleNames[k]) == RoleNames[k];
    }
    FindOrCreateAllKeepsIdsFresh(db.roles, next, RoleName, SameName, NewRole, RoleNames, RoleId);
    assert UniqueRoleIds(b.table) by {
      assert IdsFresh(b.table, RoleId, b.next);
    }
  }

  /** The permission rows the loop yields carry the catalog names, in order. */
  lemma SeededPerms(db: Db, next: int)
    ensures var b := SeedPerms(db, next);
            && (forall i :: 0 <= i < 4 ==> FindFirst(b.table, PermName, PermNames[i]) == Some(b.rows[i]))
            && (forall i :: 0 <= i < 4 ==> b.rows[i].name == PermNames[i])
  {
    FindOrCreateAllFinds(db.perms, next, PermName, SameName, NewPerm, PermNames);
  }

  /** The names of the three grants, given rows named after the catalog. */
  lemma GrantNames(ps: seq<Permission>)
    requires |ps| == 4 && forall i :: 0 <= i < 4 ==> ps[i].name == PermNames[i]
    ensures PermissionNames(Role(0, "", GrantFor(0, ps))) == {CreateTaskPerm, EditTaskPerm, DeleteTaskPerm, ViewTaskPerm}
    ensures PermissionNames(Role(0, "", GrantFor(1, ps))) == {CreateTaskPerm, EditTaskPerm, ViewTaskPerm}
    ensures PermissionNames(Role(0, "", GrantFor(2, ps))) == {ViewTaskPerm}
  {
    var w := PermsWhere(ps, NotDelete);
    var v := PermsWhere(ps, IsView);
    assert ps[0] in ps && ps[1] in ps && ps[2] in ps && ps[3] in ps;
    forall x | x in ps ensures x == ps[0] || x == ps[1] || x == ps[2] || x == ps[3] {
      var i :| 0 <= i < 4 && ps[i] == x;
    }
    var j0 :| 0 <= j0 < |w| && w[j0] == ps[0];
    var j1 :| 0 <= j1 < |w| && w[j1] == ps[1];
    var j3 :| 0 <= j3 < |w| && w[j3] == ps[3];
    var k3 :| 0 <= k3 < |v| && v[k3] == ps[3];
    assert w[j0].name == CreateTaskPerm && w[j1].name == EditTaskPerm && w[j3].name == ViewTaskPerm;
    forall i | 0 <= i < |w| ensures w[i].name in {CreateTaskPerm, EditTaskPerm, ViewTaskPerm} {
      assert w[i] in ps;
    }
    forall i | 0 <= i < |v| ensures v[i].name == ViewTaskPerm {
      assert v[i] in v;
    }
    assert ps[3].name == ViewTaskPerm;
  }

  /** The permission names each seeded role ends up with: Owner every
      permission, Admin every one but `delete_task`, Viewer `view_task` only. */
  const GrantedNames: seq<set<string>> :=
    [{CreateTaskPerm, EditTaskPerm, DeleteTaskPerm, ViewTaskPerm},
     {CreateTaskPerm, EditTaskPerm, ViewTaskPerm},
     {ViewTaskPerm}]

  /** The roles, permissions and role saves, from any id: role k is found
      with the names of its grant. */
  lemma CatalogStage(db: Db, n: int, k: nat)
    requires IdsFresh(db.roles, RoleId, n) && k < 3
    ensures var roles := SeedRoles(db, n);
            var perms := SeedPerms(db, roles.next);
            var r := FindFirst(AssignPermissions(roles.table, roles.rows, perms.rows), RoleName, RoleNames[k]);
            r.Some? && PermissionNames(r.value) == GrantedNames[k]
  {
    var roles := SeedRoles(db, n);
    var perms := SeedPerms(db, roles.next);
    GrantStage(db, n);
    SeededPerms(db, roles.next);
    GrantNames(perms.rows);
    assert PermissionNames(Granted(roles.rows, k, perms.rows)) == PermissionNames(Role(0, "", GrantFor(k, perms.rows)));
  }

  /** After `seed`, each of Owner, Admin and Viewer exists and holds the
      permission names `GrantedNames` lists for it. */
  lemma SeedPermissionCatalog(db: Db, k: nat)
    requires RolesFresh(db) && k < 3
    ensures var r := FindFirst(SeedSpec(db).roles, RoleName, RoleNames[k]);
            r.Some? && PermissionNames(r.value) == GrantedNames[k]
  {
    var parent := SeedParent(db);
    var child := SeedChild(db, parent);
    var roles := SeedRoles(db, child.next);
    var perms := SeedPerms(db, roles.next);
    assert SeedSpec(db).roles == AssignPermissions(roles.table, roles.rows, perms.rows);
    CatalogStage(db, child.next, k);
  }

  // ---------------------------------------------------------------------------
  // Users and tasks

  lemma UserSeedsDistinct(parent: Organization, child: Organization, roles: seq<Role>)
    requires |roles| == 3
    ensures var us := UserSeeds(parent, child, roles);
            forall i, j :: 0 <= i < j < |us| ==> SeedEmail(us[i]) != SeedEmail(us[j])
  {
  }

  const UserEmails: seq<string> := [OwnerEmail, AdminEmail, ViewerEmail]

  /** The k-th user template. */
  lemma UserSeedAt(parent: Organization, child: Organization, roles: seq<Role>, k: nat)
    requires |roles| == 3 && k < 3
    ensures var u := UserSeeds(parent, child, roles)[k];
            && SeedEmail(u) == UserEmails[k] && u.password == SeedPassword
            && u.orgId == (if k == 0 then parent.id else child.id) && u.roleId == roles[k].id
  {
  }

  /** The users loop, from any table: user k is found afterwards; one found
      before is kept, and an absent one is saved from its template. */
  lemma UsersStage(users: seq<User>, next: int, parent: Organization, child: Organization, roles: seq<Role>, k: nat)
    requires |roles| == 3 && k < 3
    ensures var b := FindOrCreateAll(users, next, UserEmail, SeedEmail, NewUser, UserSeeds(parent, child, roles));
            var u := FindFirst(b.table, UserEmail, UserEmails[k]);
            var before := FindFirst(users, UserEmail, UserEmails[k]);
            && u.Some?
            && (before.Some? ==> u == before)
            && (before.None? ==>
                  && u.value.password == SeedPassword
                  && u.value.orgId == (if k == 0 then parent.id else child.id)
                  && u.value.roleId == roles[k].id)
  {
    var seeds := UserSeeds(parent, child, roles);
    FindOrCreateAllFinds(users, next, UserEmail, SeedEmail, NewUser, seeds);
    UserSeedAt(parent, child, roles, k);
    if FindFirst(users, UserEmail, UserEmails[k]).None? {
      UserSeedsDistinct(parent, child, roles);
      NewSeedYieldsItsOwnRow(users, next, UserEmail, SeedEmail, NewUser, seeds, k);
    } else {
      FindOrCreateAllKeepsFound(users, next, UserEmail, SeedEmail, NewUser, seeds);
    }
  }

  /** Each seed user exists afterwards and is looked up by email only: a user
      found before is kept as it was (its password is not reset). */
  lemma SeedUsersByEmail(db: Db, k: nat)
    requires k < 3
    ensures var s := SeedSpec(db);
            FindFirst(s.users, UserEmail, UserEmails[k]).Some?
    ensures var s := SeedSpec(db);
            FindFirst(db.users, UserEmail, UserEmails[k]).Some? ==>
              FindFirst(s.users, UserEmail, UserEmails[k]) == FindFirst(db.users, UserEmail, UserEmails[k])
  {
    var parent := SeedParent(db);
    var child := SeedChild(db, parent);
    var roles := SeedRoles(db, child.next);
    var perms := SeedPerms(db, roles.next);
    assert SeedSpec(db).users == SeedUsers(db, perms.next, parent.row, child.row, roles.rows).table;
    UsersStage(db.users, perms.next, parent.row, child.row, roles.rows, k);
  }

  /** After `seed` both organizations are found as the rows their stages yielded. */
  lemma RunOrgsFound(db: Db)
    ensures var r := SeedRun(db);
            && FindFirst(SeedSpec(db).orgs, OrgName, ParentOrgName) == Some(r.parent.row)
            && FindFirst(SeedSpec(db).orgs, OrgName, ChildOrgName) == Some(r.child.row)
  {
    OrgsFound(db);
  }

  /** After `seed` each role is found as its seeded row with its grant. */
  lemma RunRoleFound(db: Db, k: nat)
    requires RolesFresh(db) && k < 3
    ensures var r := SeedRun(db);
            FindFirst(SeedSpec(db).roles, RoleName, RoleNames[k]) == Some(Granted(r.roles.rows, k, r.perms.rows))
  {
    var r := SeedRun(db);
    IdsFreshUp(db.roles, RoleId, db.nextId, r.child.next);
    SeededRoles(db, r.child.next);
    AssignedRoleFound(r.roles.table, r.roles.rows, r.perms.rows, k);
  }

  /** An email that was absent gets the seeded password, the seeded role and
      the seeded organization: the owner ParentOrg, admin and viewer ChildOrg. */
  lemma SeedNewUserFields(db: Db, k: nat)
    requires RolesFresh(db) && k < 3
    requires FindFirst(db.users, UserEmail, UserEmails[k]).None?
    ensures var s := SeedSpec(db);
            var u := FindFirst(s.users, UserEmail, UserEmails[k]);
            var org := FindFirst(s.orgs, OrgName, if k == 0 then ParentOrgName else ChildOrgName);
            var role := FindFirst(s.roles, RoleName, RoleNames[k]);
            && u.Some? && org.Some? && role.Some?
            && u.value.password == SeedPassword
            && u.value.orgId == org.value.id
            && u.value.roleId == role.value.id
  {
    var r := SeedRun(db);
    UsersStage(db.users, r.perms.next, r.parent.row, r.child.row, r.roles.rows, k);
    RunOrgsFound(db);
    RunRoleFound(db, k);
  }

  /** The admin lookup before the tasks always succeeds inside `seed`, since
      the users loop has just ensured that email. */
  lemma AdminFoundAfterUsers(db: Db)
    ensures FindFirst(SeedRun(db).users.table, UserEmail, AdminEmail).Some?
  {
    var r := SeedRun(db);
    var seeds := UserSeeds(r.parent.row, r.child.row, r.roles.rows);
    FindOrCreateAllFinds(db.users, r.perms.next, UserEmail, SeedEmail, NewUser, seeds);
    assert SeedEmail(seeds[1]) == AdminEmail;
  }

  const SeedTitles: seq<string> := ["Sample Task", "Personal Errand", "Finish Report"]

  lemma TaskSeedsDistinct(assignee: int, org: int)
    ensures var ts := TaskSeeds(assignee, org);
            forall i, j :: 0 <= i < j < |ts| ==> SeedTitle(ts[i]) != SeedTitle(ts[j])
  {
    var ts := TaskSeeds(assignee, org);
    assert |SeedTitle(ts[0])| == 11 && |SeedTitle(ts[1])| == 15 && |SeedTitle(ts[2])| == 13;
  }

  /** The k-th task template. */
  lemma TaskSeedAt(assignee: int, org: int, k: nat)
    requires k < 3
    ensures var t := TaskSeeds(assignee, org)[k];
            && SeedTitle(t) == SeedTitles[k] && t.order == k + 1 && t.assignedTo == assignee
            && t.organization == org && t.category == (if k == 1 then "Personal" else "Work")
  {
  }

  /** The tasks stage, given the admin: each title is found afterwards, and
      an absent title is saved from its template. */
  lemma TaskStageFinds(db: Db, next: int, users: seq<User>, child: Organization, k: nat)
    requires k < 3 && FindFirst(users, UserEmail, AdminEmail).Some?
    ensures var b := SeedTasks(db, next, users, child);
            var t := FindFirst(b.table, TaskTitle, SeedTitles[k]);
            var admin := FindFirst(users, UserEmail, AdminEmail).value;
            && t.Some?
            && (FindFirst(db.tasks, TaskTitle, SeedTitles[k]).Some? ==> t == FindFirst(db.tasks, TaskTitle, SeedTitles[k]))
            && (FindFirst(db.tasks, TaskTitle, SeedTitles[k]).None? ==>
                  && t.value.order == k + 1
                  && t.value.assignedTo == admin.id
                  && t.value.organization == child.id
                  && t.value.category == (if k == 1 then "Personal" else "Work"))
  {
    var admin := FindFirst(users, UserEmail, AdminEmail).value;
    var seeds := TaskSeeds(admin.id, child.id);
    var b := FindOrCreateAll(db.tasks, next, TaskTitle, SeedTitle, NewSeedTask, seeds);
    assert SeedTasks(db, next, users, child) == b;
    FindOrCreateAllFinds(db.tasks, next, TaskTitle, SeedTitle, NewSeedTask, seeds);
    TaskSeedAt(admin.id, child.id, k);
    if FindFirst(db.tasks, TaskTitle, SeedTitles[k]).None? {
      TaskSeedsDistinct(admin.id, child.id);
      NewSeedYieldsItsOwnRow(db.tasks, next, TaskTitle, SeedTitle, NewSeedTask, seeds, k);
    } else {
      FindOrCreateAllKeepsFound(db.tasks, next, TaskTitle, SeedTitle, NewSeedTask, seeds);
    }
  }

  /** Each seed task exists afterwards, looked up by title only: one found
      before is kept, and a title that was absent gets order k + 1, the admin
      user as assignee and ChildOrg as its organization. */
  lemma SeedTasksByTitle(db: Db, k: nat)
    requires k < 3
    ensures var s := SeedSpec(db);
            var t := FindFirst(s.tasks, TaskTitle, SeedTitles[k]);
            var admin := FindFirst(s.users, UserEmail, AdminEmail);
            var child := FindFirst(s.orgs, OrgName, ChildOrgName);
            && t.Some? && admin.Some? && child.Some?
            && (FindFirst(db.tasks, TaskTitle, SeedTitles[k]).Some? ==> t == FindFirst(db.tasks, TaskTitle, SeedTitles[k]))
            && (FindFirst(db.tasks, TaskTitle, SeedTitles[k]).None? ==>
                  && t.value.order == k + 1
                  && t.value.assignedTo == admin.value.id
                  && t.value.organization == child.value.id
                  && t.value.category == (if k == 1 then "Personal" else "Work"))
  {
    var r := SeedRun(db);
    AdminFoundAfterUsers(db);
    RunOrgsFound(db);
    TaskStageFinds(db, r.users.next, r.users.table, r.child.row, k);
  }

  /** From an empty task table the stage saves the three templates in order. */
  lemma TaskStageFresh(db: Db, next: int, users: seq<User>, child: Organization)
    requires db.tasks == [] && FindFirst(users, UserEmail, AdminEmail).Some?
    ensures var b := SeedTasks(db, next, users, child);
            var admin := FindFirst(users, UserEmail, AdminEmail).value;
            var seeds := TaskSeeds(admin.id, child.id);
            b.table == [NewSeedTask(next, seeds[0]), NewSeedTask(next + 1, seeds[1]), NewSeedTask(next + 2, seeds[2])]
  {
    var admin := FindFirst(users, UserEmail, AdminEmail).value;
    var seeds := TaskSeeds(admin.id, child.id);
    var b := FindOrCreateAll(db.tasks, next, TaskTitle, SeedTitle, NewSeedTask, seeds);
    assert SeedTasks(db, next, users, child) == b;
    TaskSeedsDistinct(admin.id, child.id);
    FindOrCreateAllFresh(db.tasks, next, TaskTitle, SeedTitle, NewSeedTask, seeds);
    assert |b.table| == 3 && b.table[0] == NewSeedTask(next, seeds[0]);
    assert b.table[1] == NewSeedTask(next + 1, seeds[1]) && b.table[2] == NewSeedTask(next + 2, seeds[2]);
  }

  lemma GroupOrdersOfThree(a: Task, b: Task, c: Task, org: int, category: string)
    ensures TaskOrdering.GroupOrders([a, b, c], org, category)
            == (if TaskOrdering.InGroup(a, org, category) then [a.order] else [])
             + (if TaskOrdering.InGroup(b, org, category) then [b.order] else [])
             + (if TaskOrdering.InGroup(c, org, category) then [c.order] else [])
  {
    assert [a, b, c][..2] == [a, b];
    assert [a, b][..1] == [a];
    assert [a][..0] == [];
    assert TaskOrdering.GroupOrders([a], org, category)
           == (if TaskOrdering.InGroup(a, org, category) then [a.order] else []);
    assert TaskOrdering.GroupOrders([a, b], org, category)
           == TaskOrdering.GroupOrders([a], org, category)
            + (if TaskOrdering.InGroup(b, org, category) then [b.order] else []);
  }

  lemma FreshStageWorkOrders(db: Db, next: int, users: seq<User>, child: Organization)
    requires db.tasks == [] && FindFirst(users, UserEmail, AdminEmail).Some?
    ensures TaskOrdering.GroupOrders(SeedTasks(db, next, users, child).table, child.id, "Work") == [1, 3]
  {
    TaskStageFresh(db, next, users, child);
    var admin := FindFirst(users, UserEmail, AdminEmail).value;
    var seeds := TaskSeeds(admin.id, child.id);
    GroupOrdersOfThree(NewSeedTask(next, seeds[0]), NewSeedTask(next + 1, seeds[1]),
                       NewSeedTask(next + 2, seeds[2]), child.id, "Work");
  }

  /** From an empty task table, the Work group of ChildOrg holds orders 1
      and 3: the seeded data does not start at 0 and has a gap, unlike the
      orders `createTask` maintains. */
  lemma SeededWorkOrdersNotDense(db: Db)
    requires db.tasks == []
    ensures var s := SeedSpec(db);
            var child := FindFirst(s.orgs, OrgName, ChildOrgName);
            && child.Some?
            && TaskOrdering.GroupOrders(s.tasks, child.value.id, "Work") == [1, 3]
            && !TaskOrdering.DenseFromZero(TaskOrdering.GroupOrders(s.tasks, child.value.id, "Work"))
  {
    var parent := SeedParent(db);
    var child := SeedChild(db, parent);
    var roles := SeedRoles(db, child.next);
    var perms := SeedPerms(db, roles.next);
    var users := SeedUsers(db, perms.next, parent.row, child.row, roles.rows);
    var st := SeedSpec(db);
    assert st.orgs == child.table;
    assert st.tasks == SeedTasks(db, users.next, users.table, child.row).table;
    AdminFoundAfterUsers(db);
    OrgsFound(db);
    FreshStageWorkOrders(db, users.next, users.table, child.row);
    var os: seq<int> := [1, 3];
    assert os[1] >= |os|;
  }

  // ---------------------------------------------------------------------------
  // Running the seeder twice

  /** Every catalog permission has a row. */
  ghost predicate PermsFound(perms: seq<Permission>) {
    forall i :: 0 <= i < 4 ==> FindFirst(perms, PermName, PermNames[i]).Some?
  }

  /** The permission rows found by name, in catalog order. */
  function FoundPerms(perms: seq<Permission>): (ps: seq<Permission>)
    requires PermsFound(perms)
    ensures |ps| == 4
  {
    assert PermNames[0] == CreateTaskPerm && PermNames[1] == EditTaskPerm;
    assert PermNames[2] == DeleteTaskPerm && PermNames[3] == ViewTaskPerm;
    [FindFirst(perms, PermName, CreateTaskPerm).value, FindFirst(perms, PermName, EditTaskPerm).value,
     FindFirst(perms, PermName, DeleteTaskPerm).value, FindFirst(perms, PermName, ViewTaskPerm).value]
  }

  /** Rows found by the catalog names, in order, are the found permissions. */
  lemma FoundPermsAre(perms: seq<Permission>, rows: seq<Permission>)
    requires |rows| == 4 && forall i :: 0 <= i < 4 ==> FindFirst(perms, PermName, PermNames[i]) == Some(rows[i])
    ensures PermsFound(perms) && FoundPerms(perms) == rows
  {
    assert FindFirst(perms, PermName, PermNames[0]) == Some(rows[0]);
    assert FindFirst(perms, PermName, PermNames[1]) == Some(rows[1]);
    assert FindFirst(perms, PermName, PermNames[2]) == Some(rows[2]);
    assert FindFirst(perms, PermName, PermNames[3]) == Some(rows[3]);
  }

  /** A database in which every lookup of `seed` succeeds and every role
      already holds its grant. */
  ghost predicate Settled(s: Db) {
    && FindFirst(s.orgs, OrgName, ParentOrgName).Some?
    && FindFirst(s.orgs, OrgName, ChildOrgName).Some?
    && UniqueRoleIds(s.roles)
    && PermsFound(s.perms)
    && (forall k :: 0 <= k < 3 ==> FindFirst(s.roles, RoleName, RoleNames[k]).Some?)
    && (forall k :: 0 <= k < 3 ==>
          FindFirst(s.roles, RoleName, RoleNames[k]).value.permissions == GrantFor(k, FoundPerms(s.perms)))
    && (forall k :: 0 <= k < 3 ==> FindFirst(s.users, UserEmail, UserEmails[k]).Some?)
    && (forall k :: 0 <= k < 3 ==> FindFirst(s.tasks, TaskTitle, SeedTitles[k]).Some?)
  }

  /** Saves that write back what each row already holds change nothing. */
  lemma AssignPermissionsIdle(x: seq<Role>, rs: seq<Role>, ps: seq<Permission>)
    requires UniqueRoleIds(x) && |rs| == 3
    requires forall k :: 0 <= k < 3 ==> FindFirst(x, RoleName, RoleNames[k]) == Some(rs[k])
    requires forall k :: 0 <= k < 3 ==> rs[k].permissions == GrantFor(k, ps)
    ensures AssignPermissions(x, rs, ps) == x
  {
    var p0 := FoundAt(x, 0, rs[0]);
    var p1 := FoundAt(x, 1, rs[1]);
    var p2 := FoundAt(x, 2, rs[2]);
    assert Granted(rs, 0, ps) == x[p0] && Granted(rs, 1, ps) == x[p1] && Granted(rs, 2, ps) == x[p2];
    SaveRoleIdle(x, p0);
    SaveRoleIdle(x, p1);
    SaveRoleIdle(x, p2);
  }

  /** The roles stage, on a settled database: it finds every role. */
  lemma SettledRoles(s: Db)
    requires Settled(s)
    ensures var roles := SeedRoles(s, s.nextId);
            && roles.table == s.roles && roles.next == s.nextId
            && (forall k :: 0 <= k < 3 ==> FindFirst(s.roles, RoleName, RoleNames[k]) == Some(roles.rows[k]))
  {
    assert forall k :: 0 <= k < 3 ==> SameName(RoleNames[k]) == RoleNames[k];
    FindOrCreateAllIdle(s.roles, s.nextId, RoleName, SameName, NewRole, RoleNames);
    FindOrCreateAllFinds(s.roles, s.nextId, RoleName, SameName, NewRole, RoleNames);
  }

  /** The permissions stage, on a settled database: it finds every permission. */
  lemma SettledPerms(s: Db)
    requires Settled(s)
    ensures var perms := SeedPerms(s, s.nextId);
            && perms.table == s.perms && perms.next == s.nextId
            && perms.rows == FoundPerms(s.perms)
  {
    var perms := SeedPerms(s, s.nextId);
    FindOrCreateAllIdle(s.perms, s.nextId, PermName, SameName, NewPerm, PermNames);
    FindOrCreateAllFinds(s.perms, s.nextId, PermName, SameName, NewPerm, PermNames);
    FoundPermsAre(s.perms, perms.rows);
  }

  /** The role saves, on a settled database, write back what is there. */
  lemma SettledAssign(s: Db)
    requires Settled(s)
    ensures var roles := SeedRoles(s, s.nextId);
            var perms := SeedPerms(s, s.nextId);
            AssignPermissions(roles.table, roles.rows, perms.rows) == s.roles
  {
    var roles := SeedRoles(s, s.nextId);
    var perms := SeedPerms(s, s.nextId);
    SettledRoles(s);
    SettledPerms(s);
    assert forall k :: 0 <= k < 3 ==> roles.rows[k].permissions == GrantFor(k, perms.rows);
    AssignPermissionsIdle(s.roles, roles.rows, perms.rows);
  }

  /** The users stage, on a settled database, saves nothing. */
  lemma SettledUsers(s: Db, parent: Organization, child: Organization, roles: seq<Role>)
    requires Settled(s) && |roles| == 3
    ensures var users := SeedUsers(s, s.nextId, parent, child, roles);
            users.table == s.users && users.next == s.nextId
  {
    var seeds := UserSeeds(parent, child, roles);
    forall k | 0 <= k < 3 ensures FindFirst(s.users, UserEmail, SeedEmail(seeds[k])).Some? {
      UserSeedAt(parent, child, roles, k);
    }
    FindOrCreateAllIdle(s.users, s.nextId, UserEmail, SeedEmail, NewUser, seeds);
  }

  /** The tasks stage, on a settled database, saves nothing. */
  lemma SettledTasks(s: Db, child: Organization)
    requires Settled(s)
    ensures var tasks := SeedTasks(s, s.nextId, s.users, child);
            tasks.table == s.tasks && tasks.next == s.nextId
  {
    assert FindFirst(s.users, UserEmail, UserEmails[1]).Some?;
    var admin := FindFirst(s.users, UserEmail, AdminEmail).value;
    var ts := TaskSeeds(admin.id, child.id);
    forall k | 0 <= k < 3 ensures FindFirst(s.tasks, TaskTitle, SeedTitle(ts[k])).Some? {
      TaskSeedAt(admin.id, child.id, k);
    }
    FindOrCreateAllIdle(s.tasks, s.nextId, TaskTitle, SeedTitle, NewSeedTask, ts);
  }

  /** `seed` leaves a settled database as it is. */
  lemma SettledIsFixed(s: Db)
    requires Settled(s)
    ensures SeedSpec(s) == s
  {
    var parent := SeedParent(s);
    var child := SeedChild(s, parent);
    assert parent.table == s.orgs && parent.next == s.nextId;
    assert child.table == s.orgs && child.next == s.nextId;
    SettledRoles(s);
    SettledPerms(s);
    SettledAssign(s);
    var roles := SeedRoles(s, s.nextId);
    SettledUsers(s, parent.row, child.row, roles.rows);
    SettledTasks(s, child.row);
  }

  /** The roles, permissions and role saves of a first run, from any id. */
  lemma GrantStage(db: Db, n: int)
    requires IdsFresh(db.roles, RoleId, n)
    ensures var roles := SeedRoles(db, n);
            var perms := SeedPerms(db, roles.next);
            var a := AssignPermissions(roles.table, roles.rows, perms.rows);
            && UniqueRoleIds(a)
            && (forall k :: 0 <= k < 3 ==> FindFirst(a, RoleName, RoleNames[k]) == Some(Granted(roles.rows, k, perms.rows)))
            && (forall i :: 0 <= i < 4 ==> FindFirst(perms.table, PermName, PermNames[i]) == Some(perms.rows[i]))
  {
    var roles := SeedRoles(db, n);
    var perms := SeedPerms(db, roles.next);
    SeededRoles(db, n);
    SeededPerms(db, roles.next);
    AssignPermissionsShape(roles.table, roles.rows, perms.rows);
    forall k | 0 <= k < 3
      ensures FindFirst(AssignPermissions(roles.table, roles.rows, perms.rows), RoleName, RoleNames[k])
              == Some(Granted(roles.rows, k, perms.rows))
    {
      AssignedRoleFound(roles.table, roles.rows, perms.rows, k);
    }
  }

  /** The roles and permissions a first run leaves are settled. */
  lemma SeedSettlesRoles(db: Db)
    requires RolesFresh(db)
    ensures var s := SeedSpec(db);
            && UniqueRoleIds(s.roles)
            && PermsFound(s.perms)
            && (forall k :: 0 <= k < 3 ==> FindFirst(s.roles, RoleName, RoleNames[k]).Some?)
            && (forall k :: 0 <= k < 3 ==>
                  FindFirst(s.roles, RoleName, RoleNames[k]).value.permissions == GrantFor(k, FoundPerms(s.perms)))
  {
    var r := SeedRun(db);
    IdsFreshUp(db.roles, RoleId, db.nextId, r.child.next);
    GrantStage(db, r.child.next);
    FoundPermsAre(r.perms.table, r.perms.rows);
  }

  /** One run of `seed` leaves a settled database. */
  lemma SeedSettles(db: Db)
    requires RolesFresh(db)
    ensures Settled(SeedSpec(db))
  {
    SeedOrganizations(db);
    SeedSettlesRoles(db);
    forall k | 0 <= k < 3
      ensures FindFirst(SeedSpec(db).users, UserEmail, UserEmails[k]).Some?
      ensures FindFirst(SeedSpec(db).tasks, TaskTitle, SeedTitles[k]).Some?
    {
      SeedUsersByEmail(db, k);
      SeedTasksByTitle(db, k);
    }
  }

  /** Re-running `seed` changes nothing: every find-or-create finds its row
      and every role save writes back the grant the role already holds. */
  lemma SeedIsIdempotent(db: Db)
    requires RolesFresh(db)
    ensures SeedSpec(SeedSpec(db)) == SeedSpec(db)
  {
    SeedSettles(db);
    SettledIsFixed(SeedSpec(db));
  }

  // ---------------------------------------------------------------------------
  // `seed` as steps on the whole database

  /** One organization find-or-create, on the database. */
  function OrgStep(db: Db, seed: OrgSeed): (Db, Organization) {
    var s := FindOrCreateOne(db.orgs, db.nextId, OrgName, OrgSeedName, NewOrg, seed);
    (db.(orgs := s.table, nextId := s.next), s.row)
  }

  /** The roles loop, on the database. */
  function RoleStep(db: Db, names: seq<string>): (Db, seq<Role>) {
    var b := FindOrCreateAll(db.roles, db.nextId, RoleName, SameName, NewRole, names);
    (db.(roles := b.table, nextId := b.next), b.rows)
  }

  /** The permissions loop, on the database. */
  function PermStep(db: Db, names: seq<string>): (Db, seq<Permission>) {
    var b := FindOrCreateAll(db.perms, db.nextId, PermName, SameName, NewPerm, names);
    (db.(perms := b.table, nextId := b.next), b.rows)
  }

  /** The three role saves, on the database. */
  function GrantStep(db: Db, seeded: seq<Role>, ps: seq<Permission>): Db
    requires |seeded| == 3
  {
    db.(roles := AssignPermissions(db.roles, seeded, ps))
  }

  /** The users loop, on the database. */
  function UserStep(db: Db, seeds: seq<UserSeed>): Db {
    var b := FindOrCreateAll(db.users, db.nextId, UserEmail, SeedEmail, NewUser, seeds);
    db.(users := b.table, nextId := b.next)
  }

  /** The tasks loop, on the database. */
  function TaskLoopStep(db: Db, seeds: seq<TaskSeed>): Db {
    var b := FindOrCreateAll(db.tasks, db.nextId, TaskTitle, SeedTitle, NewSeedTask, seeds);
    db.(tasks := b.table, nextId := b.next)
  }

  /** The admin lookup and the tasks loop, on the database. */
  function TaskStep(db: Db, child: Organization): Db {
    match FindFirst(db.users, UserEmail, AdminEmail)
    case None => db
    case Some(admin) => TaskLoopStep(db, TaskSeeds(admin.id, child.id))
  }

  /** The steps of `seed`, in order. */
  function SeedSteps(db: Db): Db {
    var (d1, parent) := OrgStep(db, OrgSeed(ParentOrgName, None));
    var (d2, child) := OrgStep(d1, OrgSeed(ChildOrgName, Some(parent.id)));
    var (d3, roles) := RoleStep(d2, RoleNames);
    var (d4, perms) := PermStep(d3, PermNames);
    var d5 := GrantStep(d4, roles, perms);
    var d6 := UserStep(d5, UserSeeds(parent, child, roles));
    TaskStep(d6, child)
  }

  /** The steps compose to `seed`. */
  lemma StepsAreSeed(db: Db)
    ensures SeedSteps(db) == SeedSpec(db)
  {
  }

  // ---------------------------------------------------------------------------
  // The service

  /** `SeederService`: the five repositories it writes, held as tables, and
      the id generator the saves draw from. */
  class SeederService {
    var orgs: seq<Organization>
    var roles: seq<Role>
    var perms: seq<Permission>
    var users: seq<User>
    var tasks: seq<Task>
    var nextId: int

    function State(): Db
      reads this
    {
      Db(orgs, roles, perms, users, tasks, nextId)
    }

    constructor(db: Db)
      ensures State() == db
    {
      orgs, roles, perms, users, tasks, nextId := db.orgs, db.roles, db.perms, db.users, db.tasks, db.nextId;
    }

    /** `findOne` by name, else `save`, for one organization. */
    method FindOrSaveOrg(seed: OrgSeed) returns (org: Organization)
      modifies this`orgs, this`nextId
      ensures (State(), org) == OrgStep(old(State()), seed)
    {
      var found := FindFirst(orgs, OrgName, seed.name);
      if found.None? {
        org := NewOrg(nextId, seed);
        orgs, nextId := orgs + [org], nextId + 1;
      } else {
        org := found.value;
      }
    }

    /** The roles loop, over `names`. */
    method SeedRoleRows(names: seq<string>) returns (rows: seq<Role>)
      modifies this`roles, this`nextId
      ensures (State(), rows) == RoleStep(old(State()), names)
    {
      rows := [];
      for i := 0 to |names|
        invariant Batch(roles, nextId, rows)
                  == FindOrCreateAll(old(roles), old(nextId), RoleName, SameName, NewRole, names[..i])
      {
        var name := names[i];
        var role: Role;
        var found := FindFirst(roles, RoleName, name);
        if found.None? {
          role := NewRole(nextId, name);
          roles, nextId := roles + [role], nextId + 1;
        } else {
          role := found.value;
        }
        rows := rows + [role];
        FindOrCreateAllSnoc(old(roles), old(nextId), RoleName, SameName, NewRole, names, i);
      }
      assert names[..|names|] == names;
    }

    /** The permissions loop, over `names`. */
    method SeedPermRows(names: seq<string>) returns (rows: seq<Permission>)
      modifies this`perms, this`nextId
      ensures (State(), rows) == PermStep(old(State()), names)
    {
      rows := [];
      for i := 0 to |names|
        invariant Batch(perms, nextId, rows)
                  == FindOrCreateAll(old(perms), old(nextId), PermName, SameName, NewPerm, names[..i])
      {
        var name := names[i];
        var perm: Permission;
        var found := FindFirst(perms, PermName, name);
        if found.None? {
          perm := NewPerm(nextId, name);
          perms, nextId := perms + [perm], nextId + 1;
        } else {
          perm := found.value;
        }
        rows := rows + [perm];
        FindOrCreateAllSnoc(old(perms), old(nextId), PermName, SameName, NewPerm, names, i);
      }
      assert names[..|names|] == names;
    }

    /** The three `roleRepo.save` calls that attach the permissions. */
    method AssignGrants(seeded: seq<Role>, ps: seq<Permission>)
      requires |seeded| == 3
      modifies this`roles
      ensures State() == GrantStep(old(State()), seeded, ps)
    {
      roles := SaveRole(roles, Granted(seeded, 0, ps));
      roles := SaveRole(roles, Granted(seeded, 1, ps));
      roles := SaveRole(roles, Granted(seeded, 2, ps));
    }

    /** The users loop: a user whose email is taken is skipped. */
    method SeedUserRows(seeds: seq<UserSeed>)
      modifies this`users, this`nextId
      ensures State() == UserStep(old(State()), seeds)
    {
      ghost var rows: seq<User> := [];
      for i := 0 to |seeds|
        invariant Batch(users, nextId, rows)
                  == FindOrCreateAll(old(users), old(nextId), UserEmail, SeedEmail, NewUser, seeds[..i])
      {
        var u := seeds[i];
        var found := FindFirst(users, UserEmail, u.email);
        if found.None? {
          var user := NewUser(nextId, u);
          users, nextId := users + [user], nextId + 1;
          rows := rows + [user];
        } else {
          rows := rows + [found.value];
        }
        FindOrCreateAllSnoc(old(users), old(nextId), UserEmail, SeedEmail, NewUser, seeds, i);
      }
      assert seeds[..|seeds|] == seeds;
    }

    /** The tasks loop: a task whose title is taken is skipped. */
    method SeedTaskLoop(seeds: seq<TaskSeed>)
      modifies this`tasks, this`nextId
      ensures State() == TaskLoopStep(old(State()), seeds)
    {
      ghost var rows: seq<Task> := [];
      for i := 0 to |seeds|
        invariant Batch(tasks, nextId, rows)
                  == FindOrCreateAll(old(tasks), old(nextId), TaskTitle, SeedTitle, NewSeedTask, seeds[..i])
      {
        var t := seeds[i];
        var found := FindFirst(tasks, TaskTitle, t.title);
        if found.None? {
          var task := NewSeedTask(nextId, t);
          tasks, nextId := tasks + [task], nextId + 1;
          rows := rows + [task];
        } else {
          rows := rows + [found.value];
        }
        FindOrCreateAllSnoc(old(tasks), old(nextId), TaskTitle, SeedTitle, NewSeedTask, seeds, i);
      }
      assert seeds[..|seeds|] == seeds;
    }

    /** The admin lookup, then the tasks loop; nothing is seeded without the admin. */
    method SeedTaskRows(childOrg: Organization)
      modifies this`tasks, this`nextId
      ensures State() == TaskStep(old(State()), childOrg)
    {
      var assignedUser := FindFirst(users, UserEmail, AdminEmail);
      if assignedUser.Some? {
        SeedTaskLoop(TaskSeeds(assignedUser.value.id, childOrg.id));
      }
    }

    /** `seed()`: every stage in order, on the tables in place. */
    method Seed()
      modifies this
      ensures State() == SeedSpec(old(State()))
    {
      ghost var db := State();
      var parentOrg := FindOrSaveOrg(OrgSeed(ParentOrgName, None));
      ghost var d1 := State();
      var childOrg := FindOrSaveOrg(OrgSeed(ChildOrgName, Some(parentOrg.id)));
      ghost var d2 := State();
      var roleRows := SeedRoleRows(RoleNames);
      ghost var d3 := State();
      var permRows := SeedPermRows(PermNames);
      ghost var d4 := State();
      AssignGrants(roleRows, permRows);
      ghost var d5 := State();
      SeedUserRows(UserSeeds(parentOrg, childOrg, roleRows));
      ghost var d6 := State();
      SeedTaskRows(childOrg);
      assert State() == TaskStep(d6, childOrg);
      StepsAreSeed(db);
    }
  }
}
