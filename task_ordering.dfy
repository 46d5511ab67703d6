/** The ordering maintained by `createTask`: every task already in the new
    task's (organization, category) moves down one place and the new task
    takes order 0. */
module TaskOrdering {
  import opened Common
  import opened Entities
  import opened TaskRules

  /** The body of a create request; absent fields take the column defaults. */
  datatype TaskInput = TaskInput(
    title: string,
    description: Option<string>,
    category: Option<string>,
    status: Option<string>)

  /** The category the saved row gets: the request's, or the column default. */
  function EffectiveCategory(dto: TaskInput): (c: string)
    ensures dto.category.Some? ==> c == dto.category.value
    ensures dto.category.None? ==> c == DefaultCategory
  {
    match dto.category
    case Some(c) => c
    case None => DefaultCategory
  }

  /** `taskRepo.create({ ...dto, assignedTo: user, organization: user.organization, order: 0 })`
      saved under the next generated id. */
  function NewTask(id: int, dto: TaskInput, user: User): (t: Task)
    ensures t.id == id && t.order == 0
    ensures t.assignedTo == user.id && t.organization == user.orgId
    ensures t.category == EffectiveCategory(dto)
    ensures t.status == (if dto.status.Some? then dto.status.value else DefaultStatus)
    ensures t.title == dto.title && t.description == dto.description
  {
    Task(id, dto.title, dto.description, EffectiveCategory(dto),
         if dto.status.Some? then dto.status.value else DefaultStatus,
         DefaultOrder, user.id, user.orgId)
  }

  predicate InGroup(t: Task, org: int, category: string) {
    t.organization == org && t.category == category
  }

  /** `order + 1` on one row of the bulk update. */
  function Bump(t: Task, org: int, category: string): Task {
    if InGroup(t, org, category) then t.(order := t.order + 1) else t
  }

  /** The bulk update `SET order = order + 1 WHERE organizationId = :orgId AND
      category = :category`, keyed by the category the new row will have. */
  function Shift(ts: seq<Task>, org: int, category: string): (r: seq<Task>)
    ensures |r| == |ts|
  {
    seq(|ts|, i requires 0 <= i < |ts| => Bump(ts[i], org, category))
  }

  /** The same update keyed, as written, by `dto.category`: when the request has
      no category the parameter is NULL and `category = NULL` matches no row. */
  function ShiftAsWritten(ts: seq<Task>, org: int, key: Option<string>): (r: seq<Task>)
    ensures key.Some? ==> r == Shift(ts, org, key.value)
    ensures key.None? ==> r == ts
  {
    match key
    case Some(c) => Shift(ts, org, c)
    case None => ts
  }

  /** The orders of one (organization, category) group, in store order. */
  function GroupOrders(ts: seq<Task>, org: int, category: string): seq<int> {
    if |ts| == 0 then []
    else
      var last := ts[|ts| - 1];
      GroupOrders(ts[..|ts| - 1], org, category) + (if InGroup(last, org, category) then [last.order] else [])
  }

  /** The orders are 0, 1, ..., n-1 in some order: distinct and below n. */
  ghost predicate DenseFromZero(os: seq<int>) {
    && (forall i, j :: 0 <= i < j < |os| ==> os[i] != os[j])
    && (forall i :: 0 <= i < |os| ==> 0 <= os[i] < |os|)
  }

  function Incremented(os: seq<int>): (r: seq<int>)
    ensures |r| == |os| && forall i :: 0 <= i < |os| ==> r[i] == os[i] + 1
  {
    seq(|os|, i requires 0 <= i < |os| => os[i] + 1)
  }

  /** The shift adds one to every order of the group and keeps the group's rows. */
  lemma {:induction false} ShiftIncrementsGroup(ts: seq<Task>, org: int, category: string)
    ensures GroupOrders(Shift(ts, org, category), org, category) == Incremented(GroupOrders(ts, org, category))
  {
    if |ts| > 0 {
      var init := ts[..|ts| - 1];
      var sh := Shift(ts, org, category);
      assert sh[..|sh| - 1] == Shift(init, org, category);
      ShiftIncrementsGroup(init, org, category);
    }
  }

  lemma GroupOrdersAppend(ts: seq<Task>, t: Task, org: int, category: string)
    ensures GroupOrders(ts + [t], org, category) ==
            GroupOrders(ts, org, category) + (if InGroup(t, org, category) then [t.order] else [])
  {
    assert (ts + [t])[..|ts|] == ts;
  }

  /** Every row of the group contributes its order to the group's orders. */
  lemma {:induction false} GroupOrdersContains(ts: seq<Task>, org: int, category: string, k: nat)
    requires k < |ts| && InGroup(ts[k], org, category)
    ensures ts[k].order in GroupOrders(ts, org, category)
  {
    var init := ts[..|ts| - 1];
    if k < |ts| - 1 {
      assert init[k] == ts[k];
      GroupOrdersContains(init, org, category, k);
    }
  }

  /** The ordering invariant: if a group's orders are dense from 0 before a
      create into it, they are dense from 0 afterwards, the new row at 0. */
  lemma CreateKeepsGroupDense(ts: seq<Task>, t: Task)
    requires t.order == 0
    requires DenseFromZero(GroupOrders(ts, t.organization, t.category))
    ensures DenseFromZero(GroupOrders(Shift(ts, t.organization, t.category) + [t], t.organization, t.category))
  {
    var os := GroupOrders(ts, t.organization, t.category);
    ShiftIncrementsGroup(ts, t.organization, t.category);
    GroupOrdersAppend(Shift(ts, t.organization, t.category), t, t.organization, t.category);
    var os' := Incremented(os) + [0];
    assert GroupOrders(Shift(ts, t.organization, t.category) + [t], t.organization, t.category) == os';
    forall i, j | 0 <= i < j < |os'| ensures os'[i] != os'[j] {
      if j < |os| {
        assert os[i] != os[j];
      }
    }
  }

  /** Rows outside the group are untouched; rows inside move down by one and
      keep every other column. */
  lemma ShiftTouchesOnlyTheGroup(ts: seq<Task>, org: int, category: string, i: nat)
    requires i < |ts|
    ensures !InGroup(ts[i], org, category) ==> Shift(ts, org, category)[i] == ts[i]
    ensures InGroup(ts[i], org, category) ==>
              Shift(ts, org, category)[i] == ts[i].(order := ts[i].order + 1)
  {
  }

  /** The two keys agree whenever the request names its category. */
  lemma AsWrittenAgreesWhenCategoryGiven(ts: seq<Task>, dto: TaskInput, user: User)
    requires dto.category.Some?
    ensures ShiftAsWritten(ts, user.orgId, dto.category) == Shift(ts, user.orgId, EffectiveCategory(dto))
  {
  }

  /** As written, a create without a category lands at order 0 of 'Work' next
      to the 'Work' task already at order 0. */
  lemma AsWrittenMissingCategoryCollides()
    ensures var user := User(1, "u", "p", 1, 1);
            var existing := Task(1, "a", None, DefaultCategory, DefaultStatus, 0, 1, 1);
            var dto := TaskInput("b", None, None, None);
            var t := NewTask(2, dto, user);
            var after := ShiftAsWritten([existing], user.orgId, dto.category) + [t];
            DenseFromZero(GroupOrders([existing], 1, DefaultCategory)) &&
            after[0].order == 0 && after[1].order == 0 &&
            InGroup(after[0], 1, DefaultCategory) && InGroup(after[1], 1, DefaultCategory) &&
            !DenseFromZero(GroupOrders(after, 1, DefaultCategory))
  {
    var user := User(1, "u", "p", 1, 1);
    var existing := Task(1, "a", None, DefaultCategory, DefaultStatus, 0, 1, 1);
    var dto := TaskInput("b", None, None, None);
    var t := NewTask(2, dto, user);
    var after := ShiftAsWritten([existing], user.orgId, dto.category) + [t];
    assert GroupOrders([existing], 1, DefaultCategory) == [0];
    assert after == [existing] + [t];
    GroupOrdersAppend([existing], t, 1, DefaultCategory);
    var os := GroupOrders(after, 1, DefaultCategory);
    assert os == [0, 0];
    assert os[0] == os[1];
  }
}
