/** `BackupManager` of `backup.js`: which files count as backups, the
    retention that deletes the oldest beyond ten, the newest-first listing,
    and restoring that first backs up the current database. The backup
    directory and the database file are fields; whether a copy, an unlink,
    or reading the directory or a file's status succeeds is the file
    system's business and comes in as a parameter. */
module Backups {
  import opened Wrappers
  import opened Seqs
  import opened Text

  datatype FileEntry = FileEntry(name: string, mtime: int, content: string)

  /** `maxBackups`. */
  const MaxBackups := 10

  /** `file.startsWith('database_backup_') || file.startsWith('full_backup_')`. */
  predicate IsBackupName(name: string) {
    StartsWith(name, "database_backup_") || StartsWith(name, "full_backup_")
  }

  function IsBackup(f: FileEntry): bool {
    IsBackupName(f.name)
  }

  function Modified(f: FileEntry): real {
    f.mtime as real
  }

  function NegatedModified(f: FileEntry): real {
    -(f.mtime as real)
  }

  /** The backup files of a listing, in listing order. */
  function BackupFiles(files: seq<FileEntry>): (r: seq<FileEntry>)
    ensures forall f :: f in r <==> f in files && IsBackupName(f.name)
  {
    FilterExactly(files, IsBackup);
    Filter(files, IsBackup)
  }

  /** `getBackupList`: the backup files, newest modification first, or
      none when reading the directory or a file's status fails (`readable`
      says whether all of them succeed). */
  function BackupList(files: seq<FileEntry>, readable: bool): (r: seq<FileEntry>)
    ensures !readable ==> r == []
    ensures readable ==> multiset(r) == multiset(BackupFiles(files))
    ensures SortedDesc(r, Modified)
    ensures forall f :: f in r <==> readable && f in files && IsBackupName(f.name)
  {
    if !readable then []
    else
      SortDescSorted(BackupFiles(files), Modified);
      var r := SortDesc(BackupFiles(files), Modified);
      assert forall f :: f in r <==> f in multiset(BackupFiles(files));
      r
  }

  /** The files `cleanupOldBackups` sets out to delete: none while there are
      at most ten backups, otherwise the `count - 10` oldest by modification
      time. */
  function ToDelete(files: seq<FileEntry>): (r: seq<FileEntry>)
    ensures |BackupFiles(files)| <= MaxBackups ==> r == []
    ensures |BackupFiles(files)| > MaxBackups ==> |r| == |BackupFiles(files)| - MaxBackups
    ensures forall f :: f in r ==> f in files && IsBackupName(f.name)
  {
    var backups := BackupFiles(files);
    if |backups| <= MaxBackups then []
    else
      var byAge := SortDesc(backups, NegatedModified);
      var r := byAge[..|backups| - MaxBackups];
      assert forall f :: f in r ==> f in multiset(backups);
      r
  }

  /** The selection is the oldest: the backups sorted oldest first split
      into the selected prefix and the kept rest, and nothing kept is older
      than anything selected. */
  lemma OldestSelected(files: seq<FileEntry>)
    requires |BackupFiles(files)| > MaxBackups
    ensures var byAge := SortDesc(BackupFiles(files), NegatedModified);
      multiset(byAge) == multiset(BackupFiles(files))
      && ToDelete(files) == byAge[..|byAge| - MaxBackups]
      && forall i, j :: 0 <= i < |byAge| - MaxBackups <= j < |byAge| ==> byAge[i].mtime <= byAge[j].mtime
  {
    var backups := BackupFiles(files);
    var byAge := SortDesc(backups, NegatedModified);
    SortDescSorted(backups, NegatedModified);
    PrefixNotNewer(byAge, |byAge| - MaxBackups);
  }

  /** In a list sorted oldest first, nothing after position `n` is older
      than anything before it. */
  lemma PrefixNotNewer(byAge: seq<FileEntry>, n: int)
    requires SortedDesc(byAge, NegatedModified) && 0 <= n <= |byAge|
    ensures forall i, j :: 0 <= i < n <= j < |byAge| ==> byAge[i].mtime <= byAge[j].mtime
  {
    forall i, j | 0 <= i < n <= j < |byAge|
      ensures byAge[i].mtime <= byAge[j].mtime
    {
      assert NegatedModified(byAge[i]) >= NegatedModified(byAge[j]);
    }
  }

  /** The files an unlink loop leaves when the deletions of `selected` that
      succeed take effect. */
  function Survives(selected: seq<FileEntry>, unlinks: string -> bool): FileEntry -> bool {
    (f: FileEntry) => !(f in selected && unlinks(f.name))
  }

  function Unlinked(unlinks: string -> bool): FileEntry -> bool {
    (f: FileEntry) => unlinks(f.name)
  }

  function Other(f: FileEntry): FileEntry -> bool {
    (g: FileEntry) => g != f
  }

  /** A successful unlink of `f` removes it from what survives. */
  lemma UnlinkStep(files: seq<FileEntry>, done: seq<FileEntry>, f: FileEntry, unlinks: string -> bool)
    requires unlinks(f.name)
    ensures Filter(Filter(files, Survives(done, unlinks)), Other(f)) == Filter(files, Survives(done + [f], unlinks))
  {
    FilterThenFilter(files, Survives(done, unlinks), Other(f), Survives(done + [f], unlinks));
  }

  /** A failed unlink of `f` changes nothing. */
  lemma FailedUnlinkStep(files: seq<FileEntry>, done: seq<FileEntry>, f: FileEntry, unlinks: string -> bool)
    requires !unlinks(f.name)
    ensures Filter(files, Survives(done, unlinks)) == Filter(files, Survives(done + [f], unlinks))
  {
    var kept := Filter(files, Survives(done, unlinks));
    FilterThenFilter(files, Survives(done, unlinks), (g: FileEntry) => true, Survives(done + [f], unlinks));
    FilterKeepsAll(kept, (g: FileEntry) => true);
  }

  datatype CleanupResult = CleanupResult(success: bool, deleted: nat)

  datatype RestoreError = NoSuchBackup | CopyFailed

  /** The backup directory and `./crypto_data.db`. */
  class BackupManager {
    var files: seq<FileEntry>
    var database: string

    constructor (files: seq<FileEntry>, database: string)
      ensures this.files == files && this.database == database
    {
      this.files := files;
      this.database := database;
    }

    /** `cleanupOldBackups`: unlinks the selected oldest backups one by one
        and counts only the unlinks that succeed. It fails, deleting
        nothing, when the directory cannot be read (`listable`) or, with more
        than ten backups, when a file's status cannot be read (`statable`). */
    method CleanupOldBackups(listable: bool, statable: bool, unlinks: string -> bool) returns (r: CleanupResult)
      modifies this
      ensures r.success <==> listable && (|BackupFiles(old(files))| <= MaxBackups || statable)
      ensures !r.success ==> r.deleted == 0 && files == old(files)
      ensures r.success ==> r.deleted == Count(ToDelete(old(files)), Unlinked(unlinks))
      ensures r.success ==> files == Filter(old(files), Survives(ToDelete(old(files)), unlinks))
      ensures |BackupFiles(old(files))| <= MaxBackups ==> r.deleted == 0 && files == old(files)
      ensures database == old(database)
    {
      if !listable {
        return CleanupResult(false, 0);
      }
      var backupFiles := BackupFiles(files);
      if |backupFiles| <= MaxBackups {
        FilterKeepsAll(files, Survives([], unlinks));
        return CleanupResult(true, 0);
      }
      if !statable {
        return CleanupResult(false, 0);
      }
      var filesToDelete := ToDelete(files);
      var deletedCount := UnlinkEach(filesToDelete, unlinks);
      return CleanupResult(true, deletedCount);
    }

    /** The loop of `cleanupOldBackups` over the selected files. */
    method UnlinkEach(filesToDelete: seq<FileEntry>, unlinks: string -> bool) returns (deletedCount: nat)
      modifies this
      ensures deletedCount == Count(filesToDelete, Unlinked(unlinks))
      ensures files == Filter(old(files), Survives(filesToDelete, unlinks))
      ensures database == old(database)
    {
      FilterKeepsAll(files, Survives([], unlinks));
      deletedCount := 0;
      var i := 0;
      while i < |filesToDelete|
        invariant 0 <= i <= |filesToDelete|
        invariant files == Filter(old(files), Survives(filesToDelete[..i], unlinks))
        invariant deletedCount == Count(filesToDelete[..i], Unlinked(unlinks))
        invariant database == old(database)
      {
        var fileInfo := filesToDelete[i];
        CountSnoc(filesToDelete[..i], fileInfo, Unlinked(unlinks));
        assert filesToDelete[..i + 1] == filesToDelete[..i] + [fileInfo];
        if unlinks(fileInfo.name) {
          UnlinkStep(old(files), filesToDelete[..i], fileInfo, unlinks);
          files := Filter(files, Other(fileInfo));
          deletedCount := deletedCount + 1;
        } else {
          FailedUnlinkStep(old(files), filesToDelete[..i], fileInfo, unlinks);
        }
        i := i + 1;
      }
      assert filesToDelete[..i] == filesToDelete;
    }

    /** `createDatabaseBackup`: a copy of the database under
        `database_backup_<stamp>.db`, when the copy succeeds. */
    method CreateDatabaseBackup(stamp: string, now: int, copies: bool) returns (r: Result<string, ()>)
      modifies this
      ensures copies ==> (r == Success("database_backup_" + stamp + ".db")
                          && files == old(files) + [FileEntry(r.value, now, old(database))])
      ensures !copies ==> r.Failure? && files == old(files)
      ensures database == old(database)
    {
      if !copies {
        return Failure(());
      }
      var name := "database_backup_" + stamp + ".db";
      files := files + [FileEntry(name, now, database)];
      return Success(name);
    }

    /** `restoreFromBackup(backupPath)`: fails when there is no such file;
        otherwise the current database is first backed up (when that copy,
        `copies`, succeeds) and then replaced by the backup's content (when
        that copy, `restores`, succeeds). */
    method RestoreFromBackup(name: string, stamp: string, now: int, copies: bool, restores: bool)
      returns (r: Result<(), RestoreError>)
      modifies this
      ensures (forall f :: f in old(files) ==> f.name != name) ==>
        r == Failure(NoSuchBackup) && files == old(files) && database == old(database)
      ensures r.Success? ==> exists f :: f in old(files) && f.name == name && database == f.content
      ensures r != Failure(NoSuchBackup) && copies ==>
        files == old(files) + [FileEntry("database_backup_" + stamp + ".db", now, old(database))]
      ensures r != Failure(NoSuchBackup) && !copies ==> files == old(files)
      ensures r == Failure(CopyFailed) ==> database == old(database)
      ensures r.Success? <==> (exists f :: f in old(files) && f.name == name) && restores
      ensures r == Failure(CopyFailed) <==> (exists f :: f in old(files) && f.name == name) && !restores
    {
      var k := FindFile(files, name);
      if k.None? {
        return Failure(NoSuchBackup);
      }
      var source := files[k.value];
      var _ := CreateDatabaseBackup(stamp, now, copies);
      if !restores {
        return Failure(CopyFailed);
      }
      database := source.content;
      return Success(());
    }
  }

  /** `fs.access(path)`, as the index of the file. */
  method FindFile(files: seq<FileEntry>, name: string) returns (r: Option<nat>)
    ensures r.None? <==> forall f :: f in files ==> f.name != name
    ensures r.Some? ==> r.value < |files| && files[r.value].name == name
  {
    var i := 0;
    while i < |files|
      invariant 0 <= i <= |files|
      invariant forall k :: 0 <= k < i ==> files[k].name != name
    {
      if files[i].name == name {
        return Some(i);
      }
      i := i + 1;
    }
    return None;
  }
}
