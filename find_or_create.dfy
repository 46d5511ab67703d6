/** The repository idiom the seeder repeats for every table: `findOne` by a
    unique-looking column, and `save` a fresh row when nothing is found. */
module FindOrCreate {
  import opened Common

  /** `findOne({ where: { column: k } })`: the position of the first row whose
      column is `k`, or -1. */
  function FirstIndex<T>(rows: seq<T>, key: T -> string, k: string): (i: int)
    ensures -1 <= i < |rows|
    ensures i >= 0 ==> key(rows[i]) == k && forall j :: 0 <= j < i ==> key(rows[j]) != k
    ensures i == -1 ==> forall j :: 0 <= j < |rows| ==> key(rows[j]) != k
  {
    if |rows| == 0 then -1
    else if key(rows[0]) == k then 0
    else
      var i := FirstIndex(rows[1..], key, k);
      if i < 0 then -1 else i + 1
  }

  function FindFirst<T>(rows: seq<T>, key: T -> string, k: string): (r: Option<T>)
    ensures r.Some? ==> r.value in rows && key(r.value) == k
    ensures r.None? <==> forall j :: 0 <= j < |rows| ==> key(rows[j]) != k
  {
    var i := FirstIndex(rows, key, k);
    if i < 0 then None else Some(rows[i])
  }

  /** Rows appended after a match do not change what `findOne` returns, and a
      key that was absent is found in the appended rows, if anywhere. */
  lemma FindFirstExtend<T>(rows: seq<T>, more: seq<T>, key: T -> string, k: string)
    ensures FindFirst(rows, key, k).Some? ==> FindFirst(rows + more, key, k) == FindFirst(rows, key, k)
    ensures FindFirst(rows, key, k).None? ==> FindFirst(rows + more, key, k) == FindFirst(more, key, k)
  {
    var i := FirstIndex(rows, key, k);
    var j := FirstIndex(rows + more, key, k);
    if i >= 0 {
      assert (rows + more)[i] == rows[i];
    } else {
      forall t | 0 <= t < |rows| ensures key((rows + more)[t]) != k {
        assert (rows + more)[t] == rows[t];
      }
      var m := FirstIndex(more, key, k);
      if m >= 0 { assert (rows + more)[|rows| + m] == more[m]; }
      if j >= 0 { assert more[j - |rows|] == (rows + more)[j]; }
    }
  }

  /** Rewriting rows without touching their keys does not move the first match. */
  lemma FirstIndexSameKeys<T>(a: seq<T>, b: seq<T>, key: T -> string, k: string)
    requires |a| == |b| && forall i :: 0 <= i < |a| ==> key(a[i]) == key(b[i])
    ensures FirstIndex(a, key, k) == FirstIndex(b, key, k)
  {
    var i := FirstIndex(a, key, k);
    var j := FirstIndex(b, key, k);
    if i >= 0 { assert key(b[i]) == key(a[i]); }
    if j >= 0 { assert key(a[j]) == key(b[j]); }
  }

  /** Rows that keep their keys keep the position `findOne` reports. */
  lemma FoundAfterSameKeys<T>(a: seq<T>, b: seq<T>, key: T -> string, k: string, p: int)
    requires |a| == |b| && forall i :: 0 <= i < |a| ==> key(a[i]) == key(b[i])
    requires p == FirstIndex(b, key, k) && 0 <= p
    ensures FindFirst(a, key, k) == Some(a[p])
  {
    FirstIndexSameKeys(a, b, key, k);
  }
  /** The table after a step, the id generator, and the rows the step yields. */
  datatype Saved<T> = Saved(table: seq<T>, next: int, row: T)
  datatype Batch<T> = Batch(table: seq<T>, next: int, rows: seq<T>)

  /** One find-or-create: keep the found row, or save `make(next, seed)`. */
  function FindOrCreateOne<T, U>(table: seq<T>, next: int, key: T -> string, seedKey: U -> string,
                                 make: (int, U) -> T, seed: U): (s: Saved<T>)
    ensures s.table == table || s.table == table + [s.row]
    ensures s.table == table ==> s.next == next
    ensures s.table != table ==> s.next == next + 1 && s.row == make(next, seed)
    ensures FindFirst(table, key, seedKey(seed)).Some? ==> s == Saved(table, next, FindFirst(table, key, seedKey(seed)).value)
    ensures FindFirst(table, key, seedKey(seed)).None? ==> s == Saved(table + [make(next, seed)], next + 1, make(next, seed))
  {
    match FindFirst(table, key, seedKey(seed))
    case Some(row) => Saved(table, next, row)
    case None =>
      var row := make(next, seed);
      Saved(table + [row], next + 1, row)
  }

  /** The seeder's `for` loops: find-or-create every seed in turn. */
  function FindOrCreateAll<T, U>(table: seq<T>, next: int, key: T -> string, seedKey: U -> string,
                                 make: (int, U) -> T, seeds: seq<U>): (b: Batch<T>)
    ensures |b.rows| == |seeds|
    ensures |table| <= |b.table| && b.table[..|table|] == table
    ensures b.next == next + (|b.table| - |table|)
  {
    if |seeds| == 0 then Batch(table, next, [])
    else
      var b := FindOrCreateAll(table, next, key, seedKey, make, seeds[..|seeds| - 1]);
      var s := FindOrCreateOne(b.table, b.next, key, seedKey, make, seeds[|seeds| - 1]);
      Batch(s.table, s.next, b.rows + [s.row])
  }

  /** One more turn of the loop. */
  lemma FindOrCreateAllSnoc<T, U>(table: seq<T>, next: int, key: T -> string, seedKey: U -> string,
                                  make: (int, U) -> T, seeds: seq<U>, i: nat)
    requires i < |seeds|
    ensures var b := FindOrCreateAll(table, next, key, seedKey, make, seeds[..i]);
            var s := FindOrCreateOne(b.table, b.next, key, seedKey, make, seeds[i]);
            FindOrCreateAll(table, next, key, seedKey, make, seeds[..i + 1]) == Batch(s.table, s.next, b.rows + [s.row])
  {
    assert seeds[..i + 1][..i] == seeds[..i];
  }

  // ---------------------------------------------------------------------------
  // Properties of find-or-create

  /** After the loop every seed is found, and it is found as the row the loop
      yielded for it. */
  lemma {:induction false} FindOrCreateAllFinds<T, U>(table: seq<T>, next: int, key: T -> string,
                                                     seedKey: U -> string, make: (int, U) -> T, seeds: seq<U>)
    requires forall n, u :: key(make(n, u)) == seedKey(u)
    ensures var b := FindOrCreateAll(table, next, key, seedKey, make, seeds);
            forall i :: 0 <= i < |seeds| ==> FindFirst(b.table, key, seedKey(seeds[i])) == Some(b.rows[i])
  {
    if |seeds| > 0 {
      var init := seeds[..|seeds| - 1];
      var a := FindOrCreateAll(table, next, key, seedKey, make, init);
      FindOrCreateAllFinds(table, next, key, seedKey, make, init);
      var s := FindOrCreateOne(a.table, a.next, key, seedKey, make, seeds[|seeds| - 1]);
      forall i | 0 <= i < |seeds|
        ensures FindFirst(s.table, key, seedKey(seeds[i])) == Some((a.rows + [s.row])[i])
      {
        FindOneStep(a, s, key, seedKey(seeds[i]));
        if i < |seeds| - 1 {
          assert seeds[i] == init[i];
        }
      }
    }
  }

  /** One step of the loop: what was found stays found, and the new seed is found. */
  lemma FindOneStep<T>(a: Batch<T>, s: Saved<T>, key: T -> string, k: string)
    requires s.table == a.table || s.table == a.table + [s.row]
    ensures FindFirst(a.table, key, k).Some? ==> FindFirst(s.table, key, k) == FindFirst(a.table, key, k)
    ensures FindFirst(a.table, key, k).None? && s.table != a.table ==> FindFirst(s.table, key, k) == FindFirst([s.row], key, k)
  {
    FindFirstExtend(a.table, s.table[|a.table|..], key, k);
    assert a.table + s.table[|a.table|..] == s.table;
  }

  /** A seed that already had a row yields that row. */
  lemma FindOrCreateAllKeepsFound<T, U>(table: seq<T>, next: int, key: T -> string,
                                        seedKey: U -> string, make: (int, U) -> T, seeds: seq<U>)
    requires forall n, u :: key(make(n, u)) == seedKey(u)
    ensures var b := FindOrCreateAll(table, next, key, seedKey, make, seeds);
            forall i :: 0 <= i < |seeds| && FindFirst(table, key, seedKey(seeds[i])).Some? ==>
              b.rows[i] == FindFirst(table, key, seedKey(seeds[i])).value
  {
    var b := FindOrCreateAll(table, next, key, seedKey, make, seeds);
    FindOrCreateAllFinds(table, next, key, seedKey, make, seeds);
    forall i | 0 <= i < |seeds| && FindFirst(table, key, seedKey(seeds[i])).Some?
      ensures b.rows[i] == FindFirst(table, key, seedKey(seeds[i])).value
    {
      FindFirstExtend(table, b.table[|table|..], key, seedKey(seeds[i]));
      assert table + b.table[|table|..] == b.table;
    }
  }

  /** When every seed already has a row the loop saves nothing. */
  lemma {:induction false} FindOrCreateAllIdle<T, U>(table: seq<T>, next: int, key: T -> string,
                                                    seedKey: U -> string, make: (int, U) -> T, seeds: seq<U>)
    requires forall i :: 0 <= i < |seeds| ==> FindFirst(table, key, seedKey(seeds[i])).Some?
    ensures var b := FindOrCreateAll(table, next, key, seedKey, make, seeds);
            b.table == table && b.next == next
  {
    if |seeds| > 0 {
      var init := seeds[..|seeds| - 1];
      assert forall i :: 0 <= i < |init| ==> init[i] == seeds[i];
      FindOrCreateAllIdle(table, next, key, seedKey, make, init);
    }
  }

  /** Every row the loop saves is made from one of the seeds with an id taken
      from the generator. */
  lemma {:induction false} FindOrCreateAllNewRows<T, U>(table: seq<T>, next: int, key: T -> string,
                                                       seedKey: U -> string, make: (int, U) -> T, seeds: seq<U>)
    ensures var b := FindOrCreateAll(table, next, key, seedKey, make, seeds);
            forall j :: |table| <= j < |b.table| ==>
              exists i :: 0 <= i < |seeds| && b.table[j] == make(next + (j - |table|), seeds[i])
  {
    var b := FindOrCreateAll(table, next, key, seedKey, make, seeds);
    if |seeds| > 0 {
      var init := seeds[..|seeds| - 1];
      var a := FindOrCreateAll(table, next, key, seedKey, make, init);
      FindOrCreateAllNewRows(table, next, key, seedKey, make, init);
      var s := FindOrCreateOne(a.table, a.next, key, seedKey, make, seeds[|seeds| - 1]);
      forall j | |table| <= j < |b.table|
        ensures exists i :: 0 <= i < |seeds| && b.table[j] == make(next + (j - |table|), seeds[i])
      {
        if j < |a.table| {
          var i :| 0 <= i < |init| && a.table[j] == make(next + (j - |table|), init[i]);
          assert b.table[j] == a.table[j] && init[i] == seeds[i];
        } else {
          assert b.table[j] == make(next + (j - |table|), seeds[|seeds| - 1]);
        }
      }
    }
  }

  /** A key that was absent and that no seed has stays absent through the loop. */
  lemma {:induction false} AbsentKeyStaysAbsent<T, U>(table: seq<T>, next: int, key: T -> string,
                                                     seedKey: U -> string, make: (int, U) -> T,
                                                     seeds: seq<U>, k: string)
    requires forall n, u :: key(make(n, u)) == seedKey(u)
    requires FindFirst(table, key, k).None?
    requires forall i :: 0 <= i < |seeds| ==> seedKey(seeds[i]) != k
    ensures FindFirst(FindOrCreateAll(table, next, key, seedKey, make, seeds).table, key, k).None?
  {
    if |seeds| > 0 {
      var init := seeds[..|seeds| - 1];
      var last := seeds[|seeds| - 1];
      assert forall i :: 0 <= i < |init| ==> init[i] == seeds[i];
      AbsentKeyStaysAbsent(table, next, key, seedKey, make, init, k);
      var a := FindOrCreateAll(table, next, key, seedKey, make, init);
      FindFirstExtend(a.table, [make(a.next, last)], key, k);
    }
  }

  /** A seed whose key was absent, with keys distinct among the seeds, yields
      a row made from that very seed. */
  lemma {:induction false} NewSeedYieldsItsOwnRow<T, U>(table: seq<T>, next: int, key: T -> string,
                                                       seedKey: U -> string, make: (int, U) -> T,
                                                       seeds: seq<U>, k: nat)
    requires forall n, u :: key(make(n, u)) == seedKey(u)
    requires forall i, j :: 0 <= i < j < |seeds| ==> seedKey(seeds[i]) != seedKey(seeds[j])
    requires k < |seeds| && FindFirst(table, key, seedKey(seeds[k])).None?
    ensures var b := FindOrCreateAll(table, next, key, seedKey, make, seeds);
            exists n :: next <= n && b.rows[k] == make(n, seeds[k])
  {
    var init := seeds[..|seeds| - 1];
    var last := seeds[|seeds| - 1];
    assert forall i :: 0 <= i < |init| ==> init[i] == seeds[i];
    var a := FindOrCreateAll(table, next, key, seedKey, make, init);
    if k < |init| {
      NewSeedYieldsItsOwnRow(table, next, key, seedKey, make, init, k);
      var n :| next <= n && a.rows[k] == make(n, init[k]);
      assert FindOrCreateAll(table, next, key, seedKey, make, seeds).rows[k] == a.rows[k];
    } else {
      AbsentKeyStaysAbsent(table, next, key, seedKey, make, init, seedKey(last));
      assert FindOrCreateAll(table, next, key, seedKey, make, seeds).rows[k] == make(a.next, last);
    }
  }

  /** Ids from the generator stay unique and below it. */
  ghost predicate IdsFresh<T>(rows: seq<T>, id: T -> int, next: int) {
    && (forall i, j :: 0 <= i < j < |rows| ==> id(rows[i]) != id(rows[j]))
    && (forall i :: 0 <= i < |rows| ==> id(rows[i]) < next)
  }

  /** A bound on the ids stays a bound when the generator has moved on. */
  lemma IdsFreshUp<T>(rows: seq<T>, id: T -> int, next: int, later: int)
    requires IdsFresh(rows, id, next) && next <= later
    ensures IdsFresh(rows, id, later)
  {
  }

  lemma {:induction false} FindOrCreateAllKeepsIdsFresh<T, U>(table: seq<T>, next: int, key: T -> string,
                                                             seedKey: U -> string, make: (int, U) -> T,
                                                             seeds: seq<U>, id: T -> int)
    requires IdsFresh(table, id, next)
    requires forall n, u :: id(make(n, u)) == n
    ensures var b := FindOrCreateAll(table, next, key, seedKey, make, seeds);
            IdsFresh(b.table, id, b.next)
  {
    if |seeds| > 0 {
      var init := seeds[..|seeds| - 1];
      FindOrCreateAllKeepsIdsFresh(table, next, key, seedKey, make, init, id);
    }
  }

  /** A single find-or-create: the seed is found afterwards as the row it
      yielded, and every key found before is found as before. */
  lemma FindOrCreateOneFinds<T, U>(table: seq<T>, next: int, key: T -> string, seedKey: U -> string,
                                   make: (int, U) -> T, seed: U, k: string)
    requires key(make(next, seed)) == seedKey(seed)
    ensures var s := FindOrCreateOne(table, next, key, seedKey, make, seed);
            FindFirst(s.table, key, seedKey(seed)) == Some(s.row)
    ensures var s := FindOrCreateOne(table, next, key, seedKey, make, seed);
            FindFirst(table, key, k).Some? ==> FindFirst(s.table, key, k) == FindFirst(table, key, k)
  {
    var s := FindOrCreateOne(table, next, key, seedKey, make, seed);
    FindFirstExtend(table, s.table[|table|..], key, k);
    FindFirstExtend(table, s.table[|table|..], key, seedKey(seed));
    assert table + s.table[|table|..] == s.table;
  }

  /** When none of its seeds is found, the loop saves one row per seed, in
      seed order, with consecutive ids, and yields them. */
  lemma {:induction false} FindOrCreateAllFresh<T, U>(table: seq<T>, next: int, key: T -> string,
                                                     seedKey: U -> string, make: (int, U) -> T, seeds: seq<U>)
    requires forall n, u :: key(make(n, u)) == seedKey(u)
    requires forall i, j :: 0 <= i < j < |seeds| ==> seedKey(seeds[i]) != seedKey(seeds[j])
    requires forall i :: 0 <= i < |seeds| ==> FindFirst(table, key, seedKey(seeds[i])).None?
    ensures var b := FindOrCreateAll(table, next, key, seedKey, make, seeds);
            && |b.table| == |table| + |seeds|
            && (forall j :: 0 <= j < |seeds| ==> b.table[|table| + j] == make(next + j, seeds[j]))
            && (forall j :: 0 <= j < |seeds| ==> b.rows[j] == make(next + j, seeds[j]))
  {
    if |seeds| > 0 {
      var init := seeds[..|seeds| - 1];
      var last := seeds[|seeds| - 1];
      assert forall i :: 0 <= i < |init| ==> init[i] == seeds[i];
      FindOrCreateAllFresh(table, next, key, seedKey, make, init);
      var a := FindOrCreateAll(table, next, key, seedKey, make, init);
      AbsentKeyStaysAbsent(table, next, key, seedKey, make, init, seedKey(last));
      FindOrCreateOneAbsent(a.table, a.next, key, seedKey, make, last);
      var b := FindOrCreateAll(table, next, key, seedKey, make, seeds);
      assert b.table == a.table + [make(a.next, last)] && b.rows == a.rows + [make(a.next, last)];
    }
  }

  lemma FindOrCreateOneAbsent<T, U>(table: seq<T>, next: int, key: T -> string, seedKey: U -> string,
                                    make: (int, U) -> T, seed: U)
    requires FindFirst(table, key, seedKey(seed)).None?
    ensures FindOrCreateOne(table, next, key, seedKey, make, seed)
            == Saved(table + [make(next, seed)], next + 1, make(next, seed))
  {
  }
}
