/** The read side of the task service as pure functions over the task store:
    the id lookup, the visibility scope, the equality filters, the single-field
    ascending sort and the grouping by category. The store is the repository's
    rows in their natural (insertion) order. */
module TaskQuery {
  import opened Common
  import opened Entities
  import opened TaskRules

  /** The rows a `where` object selects, in store order. */
  function Keep(ts: seq<Task>, p: Task -> bool): (r: seq<Task>)
    ensures |r| <= |ts|
    ensures forall t :: t in r <==> t in ts && p(t)
    ensures forall i :: 0 <= i < |r| ==> p(r[i])
  {
    if |ts| == 0 then []
    else
      var init := Keep(ts[..|ts| - 1], p);
      assert ts == ts[..|ts| - 1] + [ts[|ts| - 1]];
      if p(ts[|ts| - 1]) then init + [ts[|ts| - 1]] else init
  }

  /** A filter never duplicates a row. */
  lemma {:induction false} KeepSubMultiset(ts: seq<Task>, p: Task -> bool)
    ensures multiset(Keep(ts, p)) <= multiset(ts)
  {
    if |ts| > 0 {
      var init := ts[..|ts| - 1];
      KeepSubMultiset(init, p);
      assert ts == init + [ts[|ts| - 1]];
    }
  }

  lemma KeepAppend(ts: seq<Task>, x: Task, p: Task -> bool)
    ensures Keep(ts + [x], p) == Keep(ts, p) + (if p(x) then [x] else [])
  {
    assert (ts + [x])[..|ts|] == ts;
  }

  lemma KeepNone(ts: seq<Task>, p: Task -> bool)
    requires forall t :: t in ts ==> !p(t)
    ensures Keep(ts, p) == []
  {
  }

  /** Task ids are the primary key: no two rows share one. */
  ghost predicate UniqueIds(ts: seq<Task>) {
    forall i, j :: 0 <= i < j < |ts| ==> ts[i].id != ts[j].id
  }

  /** `findOne({ where: { id } })`: the first row with that id, if any. */
  function FindTask(ts: seq<Task>, id: int): (r: Option<Task>)
    ensures r.Some? ==> r.value in ts && r.value.id == id
    ensures r.None? <==> forall t :: t in ts ==> t.id != id
  {
    if |ts| == 0 then None
    else if ts[0].id == id then Some(ts[0])
    else
      assert forall t :: t in ts ==> t == ts[0] || t in ts[1..];
      FindTask(ts[1..], id)
  }

  /** With unique ids the lookup returns the one row carrying the id. */
  lemma {:induction false} FindTaskIsTheRowWithId(ts: seq<Task>, k: nat)
    requires UniqueIds(ts) && k < |ts|
    ensures FindTask(ts, ts[k].id) == Some(ts[k])
  {
    if k > 0 {
      assert ts[1..][k - 1] == ts[k];
      FindTaskIsTheRowWithId(ts[1..], k - 1);
    }
  }

  /** The sanitized form of a list of rows, in the same order. */
  function Outputs(ts: seq<Task>): (r: seq<TaskOutput>)
    ensures |r| == |ts|
  {
    seq(|ts|, i requires 0 <= i < |ts| => ToOutputDto(ts[i]))
  }

  // ---------------------------------------------------------------------------
  // Visibility and filters of listTasks

  /** The scope key `listTasks` puts in its `where`. */
  datatype Scope = OrgScope(orgId: int) | AssigneeScope(userId: int)

  predicate InScope(s: Scope, t: Task) {
    match s
    case OrgScope(o) => t.organization == o
    case AssigneeScope(u) => t.assignedTo == u
  }

  /** Organization-wide with `view_task`, otherwise the tasks assigned to the user. */
  function VisibleScope(roles: map<int, Role>, user: User): Scope {
    if HasPermission(roles, user, ViewTaskPerm) then OrgScope(user.orgId)
    else AssigneeScope(user.id)
  }

  /** The task columns a caller may sort by. */
  datatype SortField = ById | ByTitle | ByDescription | ByCategory | ByStatus | ByOrder

  /** The options `listTasks` honours: `sort`, `filter.status` and `category`. */
  datatype ListOptions = ListOptions(sort: Option<SortField>, status: Option<string>, category: Option<string>)

  /** `if (options?.category) where.category = ...` (the empty string is falsy);
      `Object.assign(where, options.filter)` with a filter holding only `status`. */
  predicate MatchesOptions(o: ListOptions, t: Task) {
    && (o.category.Some? && o.category.value != "" ==> t.category == o.category.value)
    && (o.status.Some? ==> t.status == o.status.value)
  }

  // ---------------------------------------------------------------------------
  // Ascending order on one column

  /** A column value; a NULL description sorts before every string. */
  datatype Key = NullKey | IntKey(i: int) | StrKey(s: string)

  function KeyOf(t: Task, f: SortField): Key {
    match f
    case ById => IntKey(t.id)
    case ByTitle => StrKey(t.title)
    case ByDescription => if t.description.Some? then StrKey(t.description.value) else NullKey
    case ByCategory => StrKey(t.category)
    case ByStatus => StrKey(t.status)
    case ByOrder => IntKey(t.order)
  }

  /** Lexicographic order on strings by character code. */
  predicate StrLe(a: string, b: string) {
    if |a| == 0 then true
    else if |b| == 0 then false
    else if a[0] < b[0] then true
    else if a[0] == b[0] then StrLe(a[1..], b[1..])
    else false
  }

  predicate KeyLe(a: Key, b: Key) {
    match (a, b)
    case (NullKey, _) => true
    case (IntKey(x), IntKey(y)) => x <= y
    case (IntKey(_), StrKey(_)) => true
    case (StrKey(x), StrKey(y)) => StrLe(x, y)
    case _ => false
  }

  lemma {:induction false} StrLeTotal(a: string, b: string)
    ensures StrLe(a, b) || StrLe(b, a)
  {
    if |a| > 0 && |b| > 0 && a[0] == b[0] {
      StrLeTotal(a[1..], b[1..]);
    }
  }

  lemma {:induction false} StrLeTransitive(a: string, b: string, c: string)
    requires StrLe(a, b) && StrLe(b, c)
    ensures StrLe(a, c)
  {
    if |a| > 0 && |b| > 0 && |c| > 0 && a[0] == b[0] && b[0] == c[0] {
      StrLeTransitive(a[1..], b[1..], c[1..]);
    }
  }

  lemma KeyLeTotal(a: Key, b: Key)
    ensures KeyLe(a, b) || KeyLe(b, a)
  {
    if a.StrKey? && b.StrKey? {
      StrLeTotal(a.s, b.s);
    }
  }

  lemma KeyLeTransitive(a: Key, b: Key, c: Key)
    requires KeyLe(a, b) && KeyLe(b, c)
    ensures KeyLe(a, c)
  {
    if a.StrKey? && b.StrKey? && c.StrKey? {
      StrLeTransitive(a.s, b.s, c.s);
    }
  }

  ghost predicate SortedBy(s: seq<Task>, f: SortField) {
    forall i, j :: 0 <= i < j < |s| ==> KeyLe(KeyOf(s[i], f), KeyOf(s[j], f))
  }

  function Insert(x: Task, s: seq<Task>, f: SortField): (r: seq<Task>)
    ensures multiset(r) == multiset(s) + multiset{x}
  {
    if |s| == 0 then [x]
    else if KeyLe(KeyOf(x, f), KeyOf(s[0], f)) then [x] + s
    else
      assert s == [s[0]] + s[1..];
      [s[0]] + Insert(x, s[1..], f)
  }

  /** Inserting keeps every key at or above a common lower bound. */
  lemma {:induction false} InsertLowerBound(x: Task, s: seq<Task>, f: SortField, lo: Key)
    requires KeyLe(lo, KeyOf(x, f)) && forall i :: 0 <= i < |s| ==> KeyLe(lo, KeyOf(s[i], f))
    ensures forall i :: 0 <= i < |Insert(x, s, f)| ==> KeyLe(lo, KeyOf(Insert(x, s, f)[i], f))
  {
    if |s| == 0 {
    } else if KeyLe(KeyOf(x, f), KeyOf(s[0], f)) {
      var r := [x] + s;
      forall i | 0 <= i < |r| ensures KeyLe(lo, KeyOf(r[i], f)) {
        if i > 0 { assert r[i] == s[i - 1]; }
      }
    } else {
      var tail := Insert(x, s[1..], f);
      InsertLowerBound(x, s[1..], f, lo);
      var r := [s[0]] + tail;
      forall i | 0 <= i < |r| ensures KeyLe(lo, KeyOf(r[i], f)) {
        if i > 0 { assert r[i] == tail[i - 1]; }
      }
    }
  }

  lemma {:induction false} InsertKeepsSorted(x: Task, s: seq<Task>, f: SortField)
    requires SortedBy(s, f)
    ensures SortedBy(Insert(x, s, f), f)
  {
    if |s| == 0 {
    } else if KeyLe(KeyOf(x, f), KeyOf(s[0], f)) {
      var r := [x] + s;
      forall i, j | 0 <= i < j < |r| ensures KeyLe(KeyOf(r[i], f), KeyOf(r[j], f)) {
        if i == 0 && j > 1 {
          KeyLeTransitive(KeyOf(x, f), KeyOf(s[0], f), KeyOf(s[j - 1], f));
        }
      }
    } else {
      KeyLeTotal(KeyOf(x, f), KeyOf(s[0], f));
      var tail := Insert(x, s[1..], f);
      InsertKeepsSorted(x, s[1..], f);
      InsertLowerBound(x, s[1..], f, KeyOf(s[0], f));
      var r := [s[0]] + tail;
      forall i, j | 0 <= i < j < |r| ensures KeyLe(KeyOf(r[i], f), KeyOf(r[j], f)) {
        assert r[j] == tail[j - 1];
        if i > 0 { assert r[i] == tail[i - 1]; }
      }
    }
  }

  /** The ascending order the database applies; ties may come in any order, so
      only sortedness and the permutation are promised. */
  function SortBy(ts: seq<Task>, f: SortField): (r: seq<Task>)
    ensures multiset(r) == multiset(ts)
  {
    if |ts| == 0 then []
    else
      assert ts == [ts[0]] + ts[1..];
      Insert(ts[0], SortBy(ts[1..], f), f)
  }

  lemma {:induction false} SortBySorted(ts: seq<Task>, f: SortField)
    ensures SortedBy(SortBy(ts, f), f)
  {
    if |ts| > 0 {
      SortBySorted(ts[1..], f);
      InsertKeepsSorted(ts[0], SortBy(ts[1..], f), f);
    }
  }

  /** The rows `taskRepo.find({ where, order })` returns for a scope and options. */
  function Queried(ts: seq<Task>, s: Scope, o: ListOptions): seq<Task> {
    var selected := Keep(ts, t => InScope(s, t) && MatchesOptions(o, t));
    match o.sort
    case None => selected
    case Some(f) => SortBy(selected, f)
  }

  /** `listTasks` returns exactly the rows in scope that pass every given
      filter, each once; ascending by the sort column when one is given, in
      store order otherwise. */
  lemma QueriedIsScopedFilteredSorted(ts: seq<Task>, s: Scope, o: ListOptions)
    ensures forall t :: t in Queried(ts, s, o) <==> t in ts && InScope(s, t) && MatchesOptions(o, t)
    ensures multiset(Queried(ts, s, o)) == multiset(Keep(ts, t => InScope(s, t) && MatchesOptions(o, t)))
    ensures o.sort.Some? ==> SortedBy(Queried(ts, s, o), o.sort.value)
    ensures o.sort.None? ==> Queried(ts, s, o) == Keep(ts, t => InScope(s, t) && MatchesOptions(o, t))
  {
    var selected := Keep(ts, t => InScope(s, t) && MatchesOptions(o, t));
    if o.sort.Some? {
      SortBySorted(selected, o.sort.value);
      assert forall t :: t in Queried(ts, s, o) <==> t in multiset(selected);
    }
  }

  /** A user without `view_task` only ever sees tasks assigned to them. */
  lemma WithoutViewOnlyAssigned(roles: map<int, Role>, user: User, ts: seq<Task>, o: ListOptions, t: Task)
    requires !HasPermission(roles, user, ViewTaskPerm)
    requires t in Queried(ts, VisibleScope(roles, user), o)
    ensures t.assignedTo == user.id
  {
    QueriedIsScopedFilteredSorted(ts, VisibleScope(roles, user), o);
  }

  // ---------------------------------------------------------------------------
  // Grouping of listCategories

  /** The distinct categories of `ts` in the order they are first seen. */
  function Categories(ts: seq<Task>): (cs: seq<string>)
    ensures forall c :: c in cs <==> exists t :: t in ts && t.category == c
    ensures forall i, j :: 0 <= i < j < |cs| ==> cs[i] != cs[j]
  {
    if |ts| == 0 then []
    else
      var prev := Categories(ts[..|ts| - 1]);
      assert ts == ts[..|ts| - 1] + [ts[|ts| - 1]];
      var c := ts[|ts| - 1].category;
      if c in prev then prev else prev + [c]
  }

  /** The rows of one category, in store order. */
  function OfCategory(ts: seq<Task>, c: string): seq<Task> {
    Keep(ts, (t: Task) => t.category == c)
  }

  datatype TaskGroup = TaskGroup(category: string, tasks: seq<Task>)

  /** The reference grouping: one group per first-seen category, holding the
      rows of that category in store order. */
  function GroupByCategory(ts: seq<Task>): (g: seq<TaskGroup>)
    ensures |g| == |Categories(ts)|
  {
    var cs := Categories(ts);
    seq(|cs|, i requires 0 <= i < |cs| => TaskGroup(cs[i], OfCategory(ts, cs[i])))
  }

  /** `result[t.category]`: the position of the group of a category, or -1. */
  function GroupIndex(groups: seq<TaskGroup>, c: string): (k: int)
    ensures -1 <= k < |groups|
    ensures k >= 0 ==> groups[k].category == c
    ensures k == -1 <==> forall i :: 0 <= i < |groups| ==> groups[i].category != c
  {
    if |groups| == 0 then -1
    else if groups[|groups| - 1].category == c then |groups| - 1
    else GroupIndex(groups[..|groups| - 1], c)
  }

  /** One step of the grouping loop: push `t` onto its category's group,
      opening the group at the end when the category is new. */
  function AddToGroups(groups: seq<TaskGroup>, t: Task): seq<TaskGroup> {
    var k := GroupIndex(groups, t.category);
    if k < 0 then groups + [TaskGroup(t.category, [t])]
    else groups[k := groups[k].(tasks := groups[k].tasks + [t])]
  }

  lemma OfCategoryAppend(ts: seq<Task>, t: Task, c: string)
    ensures OfCategory(ts + [t], c) == OfCategory(ts, c) + (if t.category == c then [t] else [])
  {
    KeepAppend(ts, t, (u: Task) => u.category == c);
  }

  /** The group positions follow the category list. */
  lemma GroupIndexOfCategories(ts: seq<Task>, c: string)
    ensures var k := GroupIndex(GroupByCategory(ts), c);
            (k == -1 <==> c !in Categories(ts)) &&
            (k >= 0 ==> Categories(ts)[k] == c)
  {
    var g := GroupByCategory(ts);
    var cs := Categories(ts);
    assert forall i :: 0 <= i < |g| ==> g[i].category == cs[i];
  }

  /** The loop step agrees with the reference grouping. */
  lemma GroupByCategoryStep(ts: seq<Task>, t: Task)
    ensures GroupByCategory(ts + [t]) == AddToGroups(GroupByCategory(ts), t)
  {
    var g := GroupByCategory(ts);
    var cs := Categories(ts);
    var c := t.category;
    assert (ts + [t])[..|ts|] == ts;
    var cs' := Categories(ts + [t]);
    var g' := GroupByCategory(ts + [t]);
    var a := AddToGroups(g, t);
    var k := GroupIndex(g, c);
    GroupIndexOfCategories(ts, c);
    if k < 0 {
      assert cs' == cs + [c];
      assert a == g + [TaskGroup(c, [t])];
      assert |g'| == |a|;
      forall i | 0 <= i < |g'| ensures g'[i] == a[i] {
        OfCategoryAppend(ts, t, cs'[i]);
        if i == |cs| {
          KeepNone(ts, (u: Task) => u.category == c);
        }
      }
    } else {
      assert cs' == cs;
      assert |g'| == |a|;
      forall i | 0 <= i < |g'| ensures g'[i] == a[i] {
        OfCategoryAppend(ts, t, cs[i]);
      }
    }
  }

  /** The loop step over a prefix of the rows. */
  lemma GroupPrefixStep(ts: seq<Task>, i: nat)
    requires i < |ts|
    ensures GroupByCategory(ts[..i + 1]) == AddToGroups(GroupByCategory(ts[..i]), ts[i])
  {
    assert ts[..i + 1] == ts[..i] + [ts[i]];
    GroupByCategoryStep(ts[..i], ts[i]);
  }

  /** Every row lands in exactly one group: the group of its own category. */
  lemma EveryTaskInItsOwnGroup(ts: seq<Task>, t: Task)
    requires t in ts
    ensures var g := GroupByCategory(ts);
            (exists i :: 0 <= i < |g| && g[i].category == t.category) &&
            forall i :: 0 <= i < |g| ==> (t in g[i].tasks <==> g[i].category == t.category)
  {
    var g := GroupByCategory(ts);
    var cs := Categories(ts);
    assert t.category in cs;
    var i :| 0 <= i < |cs| && cs[i] == t.category;
    assert g[i].category == t.category;
  }

  /** Groups carry distinct categories, and every group is non-empty. */
  lemma GroupsDistinctAndNonEmpty(ts: seq<Task>)
    ensures var g := GroupByCategory(ts);
            (forall i, j :: 0 <= i < j < |g| ==> g[i].category != g[j].category) &&
            forall i :: 0 <= i < |g| ==> g[i].tasks != []
  {
    var g := GroupByCategory(ts);
    var cs := Categories(ts);
    forall i | 0 <= i < |g| ensures g[i].tasks != [] {
      assert cs[i] in cs;
      var t :| t in ts && t.category == cs[i];
      assert t in g[i].tasks;
    }
  }

  /** First-seen order: the categories of any prefix of the rows come first,
      in the same order, so a category seen earlier is listed earlier. */
  lemma {:induction false} CategoriesOfPrefix(ts: seq<Task>, k: nat)
    requires k <= |ts|
    ensures Categories(ts[..k]) <= Categories(ts)
  {
    if k < |ts| {
      var init := ts[..|ts| - 1];
      assert init[..k] == ts[..k];
      CategoriesOfPrefix(init, k);
    } else {
      assert ts[..k] == ts;
    }
  }
}
