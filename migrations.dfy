/** `MigrationManager` of `render-deploy/migrations.js`: loaded migrations in
    file-name order, the `database_migrations` table as the applied names in
    the order they were recorded, and the runner that applies the pending
    ones and stops at the first failure. Whether a migration's SQL succeeds
    is the database's business, so it comes in as a parameter. */
module Migrations {
  import opened Wrappers
  import opened Seqs

  datatype Migration = Migration(name: string, fileName: string, up: string, down: string)

  /** A row of `database_migrations`; the checksum and execution time are
      not modelled. */
  datatype AppliedRow = AppliedRow(name: string, appliedAt: int)

  /** `appliedMigrations.map(m => m.migration_name)`. */
  function Names(rows: seq<AppliedRow>): (r: seq<string>)
    ensures |r| == |rows|
    ensures forall i :: 0 <= i < |rows| ==> r[i] == rows[i].name
  {
    seq(|rows|, i requires 0 <= i < |rows| => rows[i].name)
  }

  /** `migration_name` is `UNIQUE` in the table. */
  ghost predicate UniqueNames(rows: seq<AppliedRow>) {
    forall i, j :: 0 <= i < j < |rows| ==> rows[i].name != rows[j].name
  }

  /** `!appliedNames.includes(m.name)`. */
  function NotIn(names: seq<string>): Migration -> bool {
    (m: Migration) => m.name !in names
  }

  /** The migrations `migrate` will try: those whose name is not recorded,
      in file-name order. */
  function Pending(migrations: seq<Migration>, rows: seq<AppliedRow>): (r: seq<Migration>)
    ensures forall m :: m in r <==> m in migrations && m.name !in Names(rows)
    ensures SubsequenceOf(r, migrations)
  {
    FilterExactly(migrations, NotIn(Names(rows)));
    FilterIsSubsequence(migrations, NotIn(Names(rows)));
    Filter(migrations, NotIn(Names(rows)))
  }

  /** What `migrate`'s loop does to the recorded names, and how many it
      counts: a migration already recorded is skipped, one whose `up` fails
      ends the run, any other is recorded and counted. */
  function RunPending(pending: seq<Migration>, names: seq<string>, succeeds: Migration -> bool): (seq<string>, nat)
  {
    if pending == [] then (names, 0)
    else if pending[0].name in names then RunPending(pending[1..], names, succeeds)
    else if !succeeds(pending[0]) then (names, 0)
    else
      var (after, count) := RunPending(pending[1..], names + [pending[0].name], succeeds);
      (after, count + 1)
  }

  /** The run only appends names, one per counted migration, each the name
      of a pending migration not recorded before; the names stay unique. */
  lemma {:induction false} RunPendingAppends(pending: seq<Migration>, names: seq<string>, succeeds: Migration -> bool)
    ensures var (after, count) := RunPending(pending, names, succeeds);
      |after| == |names| + count && after[..|names|] == names
      && forall i :: |names| <= i < |after| ==>
           after[i] !in names && exists m :: m in pending && m.name == after[i]
    ensures var (after, count) := RunPending(pending, names, succeeds);
      (forall i, j :: 0 <= i < j < |names| ==> names[i] != names[j]) ==>
      forall i, j :: 0 <= i < j < |after| ==> after[i] != after[j]
  {
    if pending != [] && pending[0].name !in names && succeeds(pending[0]) {
      var next := names + [pending[0].name];
      RunPendingAppends(pending[1..], next, succeeds);
      var (after, count) := RunPending(pending[1..], next, succeeds);
      assert after[..|names|] == next[..|names|] == names;
      forall i | |names| <= i < |after|
        ensures after[i] !in names && exists m :: m in pending && m.name == after[i]
      {
        if i == |names| {
          assert after[i] == next[i] == pending[0].name;
        } else {
          assert after[i] !in next;
          var m :| m in pending[1..] && m.name == after[i];
          assert m in pending;
        }
      }
    } else if pending != [] && pending[0].name in names {
      RunPendingAppends(pending[1..], names, succeeds);
      var (after, count) := RunPending(pending[1..], names, succeeds);
      forall i | |names| <= i < |after|
        ensures exists m :: m in pending && m.name == after[i]
      {
        var m :| m in pending[1..] && m.name == after[i];
        assert m in pending;
      }
    }
  }

  /** Stop on the first failure: when the migration at `j` is new (neither
      recorded nor named like an earlier one) and its `up` fails, nothing
      after it is recorded — every new name belongs to a migration before
      `j`. */
  lemma {:induction false} RunStopsAtFailure(pending: seq<Migration>, names: seq<string>,
                                            succeeds: Migration -> bool, j: nat)
    requires j < |pending| && !succeeds(pending[j]) && pending[j].name !in names
    requires forall k :: 0 <= k < j ==> pending[k].name != pending[j].name
    ensures var (after, count) := RunPending(pending, names, succeeds);
      forall i :: |names| <= i < |after| ==> exists k :: 0 <= k < j && pending[k].name == after[i]
  {
    RunPendingAppends(pending, names, succeeds);
    var (after, count) := RunPending(pending, names, succeeds);
    if j == 0 {
      assert after == names;
    } else if pending[0].name in names {
      RunStopsAtFailure(pending[1..], names, succeeds, j - 1);
      assert RunPending(pending, names, succeeds) == RunPending(pending[1..], names, succeeds);
      forall i | |names| <= i < |after| ensures exists k :: 0 <= k < j && pending[k].name == after[i] {
        var k :| 0 <= k < j - 1 && pending[1..][k].name == after[i];
        assert pending[k + 1].name == after[i];
      }
    } else if !succeeds(pending[0]) {
      assert after == names;
    } else {
      var next := names + [pending[0].name];
      assert pending[j].name != pending[0].name;
      RunStopsAtFailure(pending[1..], next, succeeds, j - 1);
      RunPendingAppends(pending[1..], next, succeeds);
      forall i | |names| <= i < |after| ensures exists k :: 0 <= k < j && pending[k].name == after[i] {
        if i == |names| {
          assert after[i] == next[i] == pending[0].name;
        } else {
          var k :| 0 <= k < j - 1 && pending[1..][k].name == after[i];
          assert pending[k + 1].name == after[i];
        }
      }
    }
  }

  datatype ApplyResult = Applied | Skipped | ApplyFailed

  datatype MigrateResult = MigrateResult(success: bool, applied: nat)

  datatype RollbackError = NotFound | NotApplied | DownFailed

  datatype RollbackResult = RollbackResult(success: bool, rolledBack: nat)

  /** One row of `getStatus`. */
  datatype MigrationStatus = MigrationStatus(name: string, fileName: string, applied: bool, appliedAt: Option<int>)

  /** `appliedMigrations.find(m => m.migration_name === name)?.applied_at`. */
  function AppliedAt(rows: seq<AppliedRow>, name: string): (r: Option<int>)
    ensures r.Some? <==> name in Names(rows)
    ensures r.Some? ==> AppliedRow(name, r.value) in rows
  {
    if rows == [] then None
    else if rows[0].name == name then Some(rows[0].appliedAt)
    else
      var r := AppliedAt(rows[1..], name);
      assert Names(rows) == [rows[0].name] + Names(rows[1..]);
      assert r.Some? ==> AppliedRow(name, r.value) in rows[1..];
      r
  }

  /** `getStatus`: each loaded migration with whether its name is recorded,
      and when. */
  function Status(migrations: seq<Migration>, rows: seq<AppliedRow>): (r: seq<MigrationStatus>)
    ensures |r| == |migrations|
    ensures forall i :: 0 <= i < |r| ==>
      r[i].name == migrations[i].name && r[i].fileName == migrations[i].fileName
      && (r[i].applied <==> migrations[i].name in Names(rows))
      && (r[i].applied <==> r[i].appliedAt.Some?)
  {
    var names := Names(rows);
    seq(|migrations|, i requires 0 <= i < |migrations| =>
      MigrationStatus(migrations[i].name, migrations[i].fileName, migrations[i].name in names,
                      AppliedAt(rows, migrations[i].name)))
  }

  /** `file.endsWith('.js')`. */
  function IsScript(m: Migration): bool {
    |m.fileName| >= 3 && m.fileName[|m.fileName| - 3..] == ".js"
  }

  /** `rows` without the rows named `name`. */
  function Without(rows: seq<AppliedRow>, name: string): AppliedRow -> bool {
    (r: AppliedRow) => r.name != name
  }

  class MigrationManager {
    /** Loaded, in file-name order. */
    var migrations: seq<Migration>
    /** The `database_migrations` table, in `applied_at` order. */
    var applied: seq<AppliedRow>

    ghost predicate Valid()
      reads this
    {
      UniqueNames(applied)
    }

    constructor (rows: seq<AppliedRow>)
      requires UniqueNames(rows)
      ensures Valid()
      ensures migrations == [] && applied == rows
    {
      migrations := [];
      applied := rows;
    }

    /** `loadMigrations`: the `.js` files of the directory listing, which
        comes in file-name order. */
    method LoadMigrations(listing: seq<Migration>)
      modifies this
      ensures migrations == Filter(listing, IsScript)
      ensures forall m :: m in migrations <==> m in listing && IsScript(m)
      ensures applied == old(applied)
    {
      FilterExactly(listing, IsScript);
      migrations := Filter(listing, IsScript);
    }

    /** `applyMigration`: a recorded name is skipped without running `up`; a
        failing `up` records nothing; otherwise the name is recorded last. */
    method ApplyMigration(m: Migration, upSucceeds: bool, now: int) returns (r: ApplyResult)
      requires Valid()
      modifies this
      ensures Valid()
      ensures m.name in Names(old(applied)) ==> r == Skipped && applied == old(applied)
      ensures m.name !in Names(old(applied)) && !upSucceeds ==> r == ApplyFailed && applied == old(applied)
      ensures m.name !in Names(old(applied)) && upSucceeds ==>
        r == Applied && applied == old(applied) + [AppliedRow(m.name, now)]
      ensures migrations == old(migrations)
    {
      var existing := AppliedAt(applied, m.name);
      if existing.Some? {
        return Skipped;
      }
      if !upSucceeds {
        return ApplyFailed;
      }
      assert forall i :: 0 <= i < |applied| ==> applied[i].name in Names(applied);
      applied := applied + [AppliedRow(m.name, now)];
      return Applied;
    }

    /** `migrate`: tries the pending migrations in order, counting the ones
        it records and stopping at the first failure; the result reports
        success either way. `now` stands for the time of each insertion. */
    method Migrate(succeeds: Migration -> bool, now: int) returns (r: MigrateResult)
      requires Valid()
      modifies this
      ensures Valid()
      ensures var (after, count) := RunPending(Pending(migrations, old(applied)), Names(old(applied)), succeeds);
        Names(applied) == after && r == MigrateResult(true, count)
      ensures Pending(migrations, old(applied)) == [] ==> r.applied == 0 && applied == old(applied)
      ensures migrations == old(migrations)
    {
      var pending := Pending(migrations, applied);
      if |pending| == 0 {
        return MigrateResult(true, 0);
      }
      ghost var target := RunPending(pending, Names(applied), succeeds);
      var appliedCount := 0;
      var i := 0;
      while i < |pending|
        invariant 0 <= i <= |pending|
        invariant Valid() && migrations == old(migrations)
        invariant RunPending(pending[i..], Names(applied), succeeds).0 == target.0
        invariant RunPending(pending[i..], Names(applied), succeeds).1 + appliedCount == target.1
      {
        ghost var before := applied;
        var result := ApplyMigration(pending[i], succeeds(pending[i]), now);
        assert pending[i..][1..] == pending[i + 1..];
        if result == Applied {
          assert Names(applied) == Names(before) + [pending[i].name];
          appliedCount := appliedCount + 1;
        } else if result == ApplyFailed {
          break;
        }
        i := i + 1;
      }
      return MigrateResult(true, appliedCount);
    }

    /** `rollbackMigration(name)`: an unknown migration or an unrecorded
        name fails with nothing changed, as does a failing `down`; otherwise
        the name's row is deleted and the other rows keep their order. */
    method RollbackMigration(name: string, downSucceeds: bool) returns (r: Result<(), RollbackError>)
      requires Valid()
      modifies this
      ensures Valid()
      ensures (forall m :: m in migrations ==> m.name != name) ==> r == Failure(NotFound)
      ensures (exists m :: m in migrations && m.name == name) && name !in Names(old(applied)) ==>
        r == Failure(NotApplied)
      ensures r.Failure? ==> applied == old(applied)
      ensures r.Success? <==>
        (exists m :: m in migrations && m.name == name) && name in Names(old(applied)) && downSucceeds
      ensures r.Success? ==> applied == Filter(old(applied), Without(old(applied), name)) && name !in Names(applied)
      ensures forall n :: n != name ==> (n in Names(applied) <==> n in Names(old(applied)))
      ensures migrations == old(migrations)
    {
      var k := FindByName(migrations, name);
      if k.None? {
        return Failure(NotFound);
      }
      var at := AppliedAt(applied, name);
      if at.None? {
        return Failure(NotApplied);
      }
      if !downSucceeds {
        return Failure(DownFailed);
      }
      var keep := Without(applied, name);
      FilterExactly(applied, keep);
      FilterIsSubsequence(applied, keep);
      var rest := Filter(applied, keep);
      SubsequenceUnique(rest, applied);
      NamesMembership(rest);
      NamesMembership(applied);
      applied := rest;
      return Success(());
    }

    /** `rollback`: with nothing recorded, nothing to do; otherwise the
        migration recorded last is rolled back. */
    method Rollback(downSucceeds: bool) returns (r: RollbackResult)
      requires Valid()
      modifies this
      ensures Valid()
      ensures old(applied) == [] ==> r == RollbackResult(true, 0) && applied == []
      ensures old(applied) != [] ==>
        var last := old(applied)[|old(applied)| - 1].name;
        (r.success <==> (exists m :: m in migrations && m.name == last) && downSucceeds)
        && r.rolledBack == (if r.success then 1 else 0)
        && (r.success ==> last !in Names(applied) && applied == old(applied)[..|old(applied)| - 1])
        && (!r.success ==> applied == old(applied))
      ensures migrations == old(migrations)
    {
      if |applied| == 0 {
        return RollbackResult(true, 0);
      }
      var last := applied[|applied| - 1].name;
      assert Names(applied)[|applied| - 1] == last;
      var result := RollbackMigration(last, downSucceeds);
      DropLast(old(applied));
      return RollbackResult(result.Success?, if result.Success? then 1 else 0);
    }
  }

  /** With unique names, deleting the row of the last applied migration
      drops exactly the last row. */
  lemma DropLast(rows: seq<AppliedRow>)
    requires UniqueNames(rows) && rows != []
    ensures Filter(rows, Without(rows, rows[|rows| - 1].name)) == rows[..|rows| - 1]
  {
    var last := rows[|rows| - 1];
    var p := Without(rows, last.name);
    assert rows == rows[..|rows| - 1] + [last];
    FilterAppend(rows[..|rows| - 1], [last], p);
    FilterKeepsAll(rows[..|rows| - 1], p);
  }

  /** `migrations.find(m => m.name === name)`, as the index found. */
  method FindByName(migrations: seq<Migration>, name: string) returns (r: Option<nat>)
    ensures r.None? <==> forall m :: m in migrations ==> m.name != name
    ensures r.Some? ==> (r.value < |migrations| && migrations[r.value].name == name
                         && forall k :: 0 <= k < r.value ==> migrations[k].name != name)
  {
    var i := 0;
    while i < |migrations|
      invariant 0 <= i <= |migrations|
      invariant forall k :: 0 <= k < i ==> migrations[k].name != name
    {
      if migrations[i].name == name {
        return Some(i);
      }
      i := i + 1;
    }
    return None;
  }

  lemma NamesMembership(rows: seq<AppliedRow>)
    ensures forall n :: n in Names(rows) <==> exists r :: r in rows && r.name == n
  {
    forall n | n in Names(rows) ensures exists r :: r in rows && r.name == n {
      var i :| 0 <= i < |rows| && Names(rows)[i] == n;
      assert rows[i] in rows;
    }
    forall n | exists r :: r in rows && r.name == n ensures n in Names(rows) {
      var r :| r in rows && r.name == n;
      var i :| 0 <= i < |rows| && rows[i] == r;
      assert Names(rows)[i] == n;
    }
  }

  /** Deleting rows keeps the names unique. */
  lemma {:induction false} SubsequenceUnique(a: seq<AppliedRow>, b: seq<AppliedRow>)
    requires SubsequenceOf(a, b) && UniqueNames(b)
    ensures UniqueNames(a)
    decreases |b|
  {
    if a != [] && b != [] {
      assert UniqueNames(b[1..]) by {
        forall i, j | 0 <= i < j < |b[1..]| ensures b[1..][i].name != b[1..][j].name {
          assert b[1..][i] == b[i + 1] && b[1..][j] == b[j + 1];
        }
      }
      if a[0] == b[0] {
        SubsequenceUnique(a[1..], b[1..]);
        SubsequenceMembers(a[1..], b[1..]);
        forall j | 0 < j < |a| ensures a[0].name != a[j].name {
          assert a[j] == a[1..][j - 1];
          assert a[j] in b[1..];
          var k :| 0 <= k < |b[1..]| && b[1..][k] == a[j];
          assert b[k + 1] == a[j];
        }
      } else {
        SubsequenceUnique(a, b[1..]);
      }
    }
  }

  lemma {:induction false} SubsequenceMembers<T>(a: seq<T>, b: seq<T>)
    requires SubsequenceOf(a, b)
    ensures forall x :: x in a ==> x in b
    decreases |b|
  {
    if a != [] && b != [] {
      if a[0] == b[0] {
        SubsequenceMembers(a[1..], b[1..]);
        assert a == [a[0]] + a[1..];
      } else {
        SubsequenceMembers(a, b[1..]);
      }
    }
  }
}
