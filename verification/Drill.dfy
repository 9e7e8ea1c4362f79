/** The disaster-recovery drill (dr_phase10_runner.py): what its verdict means on a system where nothing else runs. */
module Drill {
  import opened Archiver
  import opened Snapshot
  import opened SnapshotRuns
  import opened Wrappers

  // ---------------------------------------------------------------- the worker's share

  /** The worker takes up restore r; the clone's health check says `healthy`. */
  function WorkRestore(w: World, r: nat, healthy: bool): World {
    FinishRestore(ExtractFiles(LoadDatabase(BeginRestore(ClaimRestore(w, r), r), r), r), r, healthy)
  }

  /** Nothing queued or running. */
  predicate Idle(w: World) {
    && (forall b | 0 <= b < |w.backups| :: !Pending(w.backups[b].status))
    && (forall r | 0 <= r < |w.restores| :: !Pending(w.restores[r].status))
  }

  lemma QueuedBackup(w: World, s: nat, given: string)
    requires Idle(w) && s < |w.tenants| && w.tenants[s].status == Active
    requires Stripped(given) != "" && FindBackup(w.backups, Stripped(given)).None?
    ensures var row := Backup(s, Stripped(given), Queued, None, NotYet, Empty);
            QueueBackup(w, s, given) == (w.(backups := w.backups + [row]), Got(|w.backups|))
            && ClaimBackup(w.(backups := w.backups + [row]), |w.backups|)
               == w.(backups := w.backups + [row.(status := Running)])
  {
    var row := Backup(s, Stripped(given), Queued, None, NotYet, Empty);
    var queued := w.(backups := w.backups + [row]);
    assert !Busy(w, s);
    assert FirstQueuedBackup(queued, |w.backups|);
    assert queued.backups[|w.backups| := row.(status := Running)] == w.backups + [row.(status := Running)];
  }

  /** What an archive of these files holds, if nobody writes. */
  function Archived(files: Files): Files {
    map path | path in files && View(files, path).Some? :: files[path]
  }

  /** A folder with all that its tenant's policy asks for. */
  predicate Holds(f: Folder, t: Tenant) {
    f == FolderOf(Backup(0, "", Succeeded, Some(t.db), if t.fsBackup then Taken(Archived(t.files)) else Skipped, Empty))
  }

  /** The archiver has all that it has passed. */
  ghost predicate Agrees(todo: set<Path>, got: Files, files: Files) {
    && Sane(todo, got)
    && (forall path | path in todo :: path in files && Reachable(files, path))
    && (forall path | !Waits(todo, path) :: View(got, path) == View(files, path))
  }

  lemma ListingAgrees(files: Files)
    ensures Agrees(Children(files, []), map[], files)
  {
    forall path | !Waits(Children(files, []), path) ensures View(map[], path) == View(files, path) {
      UnlistedIsAbsent(files, path);
    }
  }

  lemma LookAgrees(todo: set<Path>, got: Files, files: Files, path: Path)
    requires Agrees(todo, got, files) && path in todo
    ensures var next := AfterRead(todo, got, files, path); Agrees(next.todo, next.got, files)
  {
    var next := AfterRead(todo, got, files, path);
    StaysSane(todo, got, files, path);
    forall other | other in next.todo ensures other in files && Reachable(files, other) {
      if other !in todo {
        assert forall i | 0 < i < |other| :: other[..i] == if i < |path| then path[..i] else path;
      }
    }
    forall other | !Waits(next.todo, other) ensures View(next.got, other) == View(files, other) {
      if Waits(todo, other) {
        LookedAt(todo, got, files, path, other);
      } else {
        PassedStays(todo, got, files, path, other);
      }
    }
  }

  lemma AllPassed(got: Files, files: Files)
    requires Agrees({}, got, files)
    ensures got == Archived(files)
  {
    forall path | path in got || path in Archived(files)
      ensures View(got, path) == View(files, path) && (path in got ==> View(got, path) == Some(got[path]))
    {
      assert !Waits({}, path);
    }
    assert forall path | path in got :: path in Archived(files) && Archived(files)[path] == got[path];
  }

  /** What is still to be come to. */
  function Ahead(files: Files, todo: set<Path>): set<Path> { set path | path in files && Waits(todo, path) }

  lemma LookGoesAhead(todo: set<Path>, got: Files, files: Files, path: Path)
    requires Agrees(todo, got, files) && path in todo
    ensures Ahead(files, AfterRead(todo, got, files, path).todo) < Ahead(files, todo)
  {
    var next := AfterRead(todo, got, files, path);
    LookedAtIsPassed(todo, got, files, path);
    LookedAtWaits(todo, path);
    assert path in Ahead(files, todo) && path !in Ahead(files, next.todo);
    forall other | other in Ahead(files, next.todo) ensures other in Ahead(files, todo) {
      StillWaits(todo, got, files, path, other);
    }
  }

  /** _tar_filestore, while nobody writes: all entries, in some order. */
  method ArchiveEntries(w: World, b: nat) returns (done: World)
    requires BackupRuns(w, b) && w.backups[b].dump.Some? && w.backups[b].archive == NotYet
    ensures var t := w.tenants[w.backups[b].tenant];
            var stage := if t.fsBackup then Taken(Archived(t.files)) else Skipped;
            done == SetBackup(w, b, w.backups[b].(archive := stage))
  {
    done := BeginArchive(w, b);
    var t := w.tenants[w.backups[b].tenant];
    if t.fsBackup {
      var todo, got: Files := Children(t.files, []), map[];
      ListingAgrees(t.files);
      while todo != {}
        invariant Agrees(todo, got, t.files)
        invariant done == SetBackup(w, b, w.backups[b].(archive := Reading(todo, got)))
        decreases Ahead(t.files, todo)
      {
        var path :| path in todo;
        LookAgrees(todo, got, t.files, path);
        LookGoesAhead(todo, got, t.files, path);
        done := ReadEntry(done, b, path);
        var stage := AfterRead(todo, got, t.files, path);
        todo, got := stage.todo, stage.got;
      }
      AllPassed(got, t.files);
      done := EndArchive(done, b);
    }
  }

  /** The backup worker takes up the job just queued and finishes it: a true folder, and the row to match. */
  method WorkBackup(w: World, s: nat, given: string) returns (done: World)
    requires Idle(w) && s < |w.tenants| && w.tenants[s].status == Active
    requires Stripped(given) != "" && FindBackup(w.backups, Stripped(given)).None?
    ensures QueueBackup(w, s, given).1 == Got(|w.backups|) && done.tenants == w.tenants && done.restores == w.restores
    ensures |done.backups| == |w.backups| + 1 && done.backups[..|w.backups|] == w.backups
    ensures done.backups[|w.backups|].tenant == s && done.backups[|w.backups|].key == Stripped(given)
    ensures w.tenants[s].dbBackup ==>
              && done.backups[|w.backups|].status == Succeeded && |w.backups| in done.folders
              && Holds(done.folders[|w.backups|], w.tenants[s])
    ensures !w.tenants[s].dbBackup ==> done.backups[|w.backups|].status == Broken
  {
    var b := |w.backups|;
    QueuedBackup(w, s, given);
    done := DumpDatabase(ClaimBackup(QueueBackup(w, s, given).0, b), b);
    if done.backups[b].status == Running {
      done := ArchiveEntries(done, b);
      done := Publish(done, b);
    }
  }

  lemma QueuedRestore(w: World, b: nat, given: string)
    requires Idle(w) && b < |w.backups| && w.backups[b].status == Succeeded
    requires Stripped(given) != "" && FindRestore(w.restores, Stripped(given)).None?
    ensures var row := Restore(b, Stripped(given), Queued, None, None, None);
            QueueRestore(w, b, given) == (w.(restores := w.restores + [row]), Got(|w.restores|))
            && ClaimRestore(w.(restores := w.restores + [row]), |w.restores|)
               == w.(restores := w.restores + [row.(status := Running)])
  {
    var row := Restore(b, Stripped(given), Queued, None, None, None);
    var queued := w.(restores := w.restores + [row]);
    assert !Busy(w, w.backups[b].tenant);
    assert FirstQueuedRestore(queued, |w.restores|);
    assert queued.restores[|w.restores| := row.(status := Running)] == w.restores + [row.(status := Running)];
  }

  /** Both artifacts are there, and are what their names say. */
  predicate Complete(f: Folder) {
    DumpName in f.files && f.files[DumpName].Dump? && ArchiveName in f.files && f.files[ArchiveName].Archive?
  }

  lemma HoldsMeans(f: Folder, t: Tenant)
    requires Holds(f, t)
    ensures VerifiedFolder(f) <==> t.fsBackup
    ensures t.fsBackup ==>
              Complete(f) && f.files[DumpName].db == t.db && f.files[ArchiveName].files == Archived(t.files)
    ensures !VerifiedFolder(Spoilt(f))
  {
    var stage := if t.fsBackup then Taken(Archived(t.files)) else Skipped;
    VerifiedMeansTaken(Backup(0, "", Succeeded, Some(t.db), stage, Empty));
    assert DatabaseKey in Spoilt(f).manifest.value && !Matches(f.files, Spoilt(f).manifest.value[DatabaseKey]);
  }

  /** The manifest with another checksum for the database. */
  function Spoilt(f: Folder): Folder
    requires f.manifest.Some?
  {
    f.(manifest := Some(f.manifest.value[DatabaseKey := Entry(Some(DumpName), OtherText("0"))]))
  }

  predicate Restorable(w: World, b: nat) {
    && Verified(w.folders, b) && ArchiveName in w.folders[b].files && w.folders[b].files[ArchiveName].Archive?
    && !Unsafe(w.folders[b].files[ArchiveName].files)
  }

  /** The world with one more tenant and one more restore. */
  function Plus(w: World, tenant: Tenant, row: Restore): World {
    w.(tenants := w.tenants + [tenant], restores := w.restores + [row])
  }

  lemma LoadWorks(w: World, b: nat, key: string)
    requires Verified(w.folders, b) && Complete(w.folders[b])
    ensures var r, t, db := |w.restores|, |w.tenants|, w.folders[b].files[DumpName].db;
            var claimed := w.(restores := w.restores + [Restore(b, key, Running, None, None, None)]);
            LoadDatabase(BeginRestore(claimed, r), r)
            == Plus(w, Tenant(Provisioning, db, map[], true, true),
                    Restore(b, key, Running, Some(t), Some(db), None))
  {
    var r, t := |w.restores|, |w.tenants|;
    var claimed := w.(restores := w.restores + [Restore(b, key, Running, None, None, None)]);
    assert RestoreRuns(claimed, r) && claimed.restores[r].backup == b;
    assert BeginRestore(claimed, r) == Plus(w, Tenant(Provisioning, map[], map[], true, true),
                                            Restore(b, key, Running, Some(t), None, None));
  }

  lemma ExtractWorks(w: World, b: nat, key: string, healthy: bool)
    requires Verified(w.folders, b) && Complete(w.folders[b])
    ensures var r, t, db := |w.restores|, |w.tenants|, w.folders[b].files[DumpName].db;
            var files := w.folders[b].files[ArchiveName].files;
            var loaded := Plus(w, Tenant(Provisioning, db, map[], true, true),
                               Restore(b, key, Running, Some(t), Some(db), None));
            FinishRestore(ExtractFiles(loaded, r), r, healthy)
            == if Unsafe(files)
               then Plus(w, Tenant(Failed, map[], map[], true, true), Restore(b, key, Broken, Some(t), Some(db), None))
               else if !healthy
               then Plus(w, Tenant(Failed, map[], map[], true, true),
                         Restore(b, key, Broken, Some(t), Some(db), Some(files)))
               else Plus(w, Tenant(Active, db, files, true, true),
                         Restore(b, key, Succeeded, Some(t), Some(db), Some(files)))
  {
    var r, t, db := |w.restores|, |w.tenants|, w.folders[b].files[DumpName].db;
    var files := w.folders[b].files[ArchiveName].files;
    var loaded := Plus(w, Tenant(Provisioning, db, map[], true, true),
                       Restore(b, key, Running, Some(t), Some(db), None));
    assert Building(loaded, r);
    if Unsafe(files) {
      assert ExtractFiles(loaded, r) == RollBack(loaded, r);
    } else {
      assert ExtractFiles(loaded, r) == Plus(w, Tenant(Provisioning, db, files, true, true),
                                             Restore(b, key, Running, Some(t), Some(db), Some(files)));
    }
  }

  /** A restore on an idle system: a new tenant with the folder's contents, or a failed job. */
  lemma RestoreWorks(w: World, b: nat, given: string, healthy: bool)
    requires Idle(w) && b < |w.backups| && w.backups[b].status == Succeeded
    requires Stripped(given) != "" && FindRestore(w.restores, Stripped(given)).None?
    requires Verified(w.folders, b) ==> Complete(w.folders[b])
    ensures var r := |w.restores|;
            var done := WorkRestore(QueueRestore(w, b, given).0, r, healthy);
            QueueRestore(w, b, given).1 == Got(r) && done.backups == w.backups && done.folders == w.folders
            && |done.restores| == r + 1 && done.restores[..r] == w.restores && done.restores[r].key == Stripped(given)
            && |w.tenants| <= |done.tenants| && done.tenants[..|w.tenants|] == w.tenants
            && (Restorable(w, b) && healthy ==>
                  && done.restores[r].status == Succeeded && done.restores[r].target == Some(|w.tenants|)
                  && |done.tenants| == |w.tenants| + 1
                  && var f := w.folders[b];
                     done.tenants[|w.tenants|]
                     == Tenant(Active, f.files[DumpName].db, f.files[ArchiveName].files, true, true))
            && (!(Restorable(w, b) && healthy) ==> done.restores[r].status == Broken)
  {
    var r, t := |w.restores|, |w.tenants|;
    QueuedRestore(w, b, given);
    var claimed := w.(restores := w.restores + [Restore(b, Stripped(given), Running, None, None, None)]);
    assert claimed.restores[r].status == Running && RestoreRuns(claimed, r);
    if Verified(w.folders, b) {
      LoadWorks(w, b, Stripped(given));
      ExtractWorks(w, b, Stripped(given), healthy);
    }
  }

  // ---------------------------------------------------------------- the drill

  const ORIGINAL := "DR_ORIGINAL"
  const MUTATED := "DR_MUTATED"

  function Marked(w: World, s: nat, marker: string, file: string, text: string): World {
    Step(Step(w, WriteDb(s, marker, text)), WriteFile(s, [file], File(text)))
  }

  lemma MarkedTenant(w: World, s: nat, marker: string, file: string, text: string)
    requires s < |w.tenants| && w.tenants[s].status == Active
    ensures var t := w.tenants[s];
            Marked(w, s, marker, file, text)
            == w.(tenants := w.tenants[s := t.(db := t.db[marker := text], files := t.files[[file] := File(text)])])
  {
  }

  predicate Shows(t: Tenant, marker: string, file: string, text: string) {
    && marker in t.db && t.db[marker] == text
    && [file] in t.files && t.files[[file]] == File(text)
  }

  /** The tenant with both markers set. */
  function WithMarkers(t: Tenant, marker: string, file: string, text: string): Tenant {
    t.(db := t.db[marker := text], files := t.files[[file] := File(text)])
  }

  /** Markers, backup, and the manifest check. */
  method TakeBackup(start: World, s: nat, marker: string, file: string, given: string)
    returns (ok: bool, w: World, manifestValid: bool)
    requires Idle(start) && s < |start.tenants| && start.tenants[s].status == Active
    requires Stripped(given) != "" && FindBackup(start.backups, Stripped(given)).None?
    ensures ok == start.tenants[s].dbBackup && Idle(w) && w.restores == start.restores
    ensures w.tenants == start.tenants[s := WithMarkers(start.tenants[s], marker, file, ORIGINAL)]
    ensures ok ==> |w.backups| == |start.backups| + 1 && w.backups[|start.backups|].status == Succeeded
                   && |start.backups| in w.folders && Holds(w.folders[|start.backups|], w.tenants[s])
    ensures ok ==> manifestValid == start.tenants[s].fsBackup == Verified(w.folders, |start.backups|)
  {
    w := Marked(start, s, marker, file, ORIGINAL);
    MarkedTenant(start, s, marker, file, ORIGINAL);
    var b := |w.backups|;
    w := WorkBackup(w, s, given);
    OnlyLastIsNew(start, w, b);
    ok := w.backups[b].status == Succeeded;
    manifestValid := false;
    if ok {
      HoldsMeans(w.folders[b], w.tenants[s]);
      manifestValid := VerifyManifest(w.folders[b]);
    }
  }

  /** The source is changed, and the backup restored into a clone; both are read. */
  method RestoreClone(start: World, s: nat, b: nat, marker: string, file: string, given: string, healthy: bool)
    returns (ok: bool, w: World, cloneReads: bool, sourceReads: bool)
    requires Idle(start) && s < |start.tenants| && start.tenants[s].status == Active
    requires b < |start.backups| && start.backups[b].status == Succeeded && b in start.folders
    requires Holds(start.folders[b], start.tenants[s]) && Shows(start.tenants[s], marker, file, ORIGINAL)
    requires Stripped(given) != "" && FindRestore(start.restores, Stripped(given)).None?
    ensures ok == (start.tenants[s].fsBackup && !Unsafe(Archived(start.tenants[s].files)) && healthy) && Idle(w)
    ensures w.backups == start.backups && w.folders == start.folders
    ensures |w.restores| == |start.restores| + 1 && w.restores[..|start.restores|] == start.restores
    ensures w.restores[|start.restores|].key == Stripped(given)
    ensures ok ==> cloneReads && sourceReads && |w.tenants| == |start.tenants| + 1
    ensures |start.tenants| <= |w.tenants|
    ensures w.tenants[..|start.tenants|] == start.tenants[s := WithMarkers(start.tenants[s], marker, file, MUTATED)]
  {
    MarkedTenant(start, s, marker, file, MUTATED);
    w := Marked(start, s, marker, file, MUTATED);
    ghost var marked := w;
    var r := |w.restores|;
    HoldsMeans(start.folders[b], start.tenants[s]);
    RestoreWorks(w, b, given, healthy);
    w := WorkRestore(QueueRestore(w, b, given).0, r, healthy);
    OnlyLastRestoreIsNew(marked, w, r);
    ok := w.restores[r].status == Succeeded;
    cloneReads, sourceReads := false, false;
    if ok {
      var clone := w.restores[r].target.value;
      assert [file] in Archived(start.tenants[s].files);
      assert w.tenants[s] == w.tenants[..|start.tenants|][s];
      cloneReads := Shows(w.tenants[clone], marker, file, ORIGINAL);
      sourceReads := Shows(w.tenants[s], marker, file, MUTATED);
    }
  }

  /** The manifest is spoilt, a restore tried, and the manifest put back. */
  method FailControlled(start: World, b: nat, given: string, healthy: bool) returns (failed: bool, w: World)
    requires Idle(start) && b < |start.backups| && start.backups[b].status == Succeeded && b in start.folders
    requires start.folders[b].manifest.Some?
    requires Stripped(given) != "" && FindRestore(start.restores, Stripped(given)).None?
    ensures failed && Idle(w) && w.tenants == start.tenants && w.folders == start.folders
  {
    var folder := start.folders[b];
    w := Step(start, Tamper(b, Spoilt(folder)));
    ghost var spoilt := w;
    assert DatabaseKey in Spoilt(folder).manifest.value;
    assert !Verified(w.folders, b);
    var f := |w.restores|;
    RestoreWorks(w, b, given, healthy);
    TamperedStart(w, b, given, healthy);
    w := WorkRestore(QueueRestore(w, b, given).0, f, healthy);
    OnlyLastRestoreIsNew(spoilt, w, f);
    failed := w.restores[f].status == Broken;
    w := Step(w, Tamper(b, folder));
    assert w.folders == start.folders;
  }

  /** main, from the provisioned source tenant on: the verdict is positive exactly if the source's policy backs up both
      database and filestore, the clone comes up healthy, and it is still healthy when the drill asks for itself. Other
      tenants are as before. */
  method RunDrill(
    start: World, s: nat, marker: string, file: string, backupKey: string, restoreKey: string, failKey: string,
        healthy: bool, stillHealthy: bool)
    returns (passed: bool, w: World)
    requires Idle(start) && s < |start.tenants| && start.tenants[s].status == Active
    requires Stripped(backupKey) != "" && FindBackup(start.backups, Stripped(backupKey)).None?
    requires Stripped(restoreKey) != "" && Stripped(failKey) != "" && Stripped(restoreKey) != Stripped(failKey)
    requires FindRestore(start.restores, Stripped(restoreKey)).None?
    requires FindRestore(start.restores, Stripped(failKey)).None?
    ensures passed <==>
              && start.tenants[s].dbBackup && start.tenants[s].fsBackup && healthy && stillHealthy
              && !Unsafe(Archived(WithMarkers(start.tenants[s], marker, file, ORIGINAL).files))
    ensures passed ==> |w.tenants| == |start.tenants| + 1 && Idle(w)
    ensures forall t | 0 <= t < |start.tenants| && t != s :: t < |w.tenants| && w.tenants[t] == start.tenants[t]
  {
    passed := false;
    var b, r := |start.backups|, |start.restores|;
    var ok, manifestValid, cloneReads, sourceReads, failed;
    ok, w, manifestValid := TakeBackup(start, s, marker, file, backupKey);
    if !ok {
      return;
    }
    ok, w, cloneReads, sourceReads := RestoreClone(w, s, b, marker, file, restoreKey, healthy);
    assert forall t | 0 <= t < |start.tenants| && t != s :: w.tenants[t] == w.tenants[..|start.tenants|][t];
    if !ok {
      return;
    }
    FoundAgain(w.restores, r, Stripped(restoreKey));
    var (afterReplay, replay) := QueueRestore(w, b, restoreKey);
    var sameJob := replay == Got(r);
    var noDuplicates := |afterReplay.tenants| == |w.tenants|;
    w := afterReplay;
    NotFoundYet(start.restores, w.restores, Stripped(failKey));
    failed, w := FailControlled(w, b, failKey, healthy);
    var sourceActive := w.tenants[s].status == Active;
    assert w.tenants[s] == w.tenants[..|start.tenants|][s];
    passed :=
      cloneReads && sourceReads && manifestValid && stillHealthy && sameJob && noDuplicates && failed && sourceActive;
  }

  lemma OnlyLastIsNew(before: World, after: World, b: nat)
    requires Idle(before) && b == |before.backups| && after.restores == before.restores
    requires |after.backups| == b + 1 && after.backups[..b] == before.backups && !Pending(after.backups[b].status)
    ensures Idle(after)
  {
    forall i | 0 <= i < |after.backups| ensures !Pending(after.backups[i].status) {
      assert i < b ==> after.backups[i] == after.backups[..b][i];
    }
  }

  lemma OnlyLastRestoreIsNew(before: World, after: World, r: nat)
    requires Idle(before) && r == |before.restores| && after.backups == before.backups
    requires |after.restores| == r + 1 && after.restores[..r] == before.restores && !Pending(after.restores[r].status)
    ensures Idle(after)
  {
    forall i | 0 <= i < |after.restores| ensures !Pending(after.restores[i].status) {
      assert i < r ==> after.restores[i] == after.restores[..r][i];
    }
  }

  lemma FoundAgain(restores: seq<Restore>, r: nat, key: string)
    requires r == |restores| - 1 && restores[r].key == key
    ensures FindRestore(restores, key) == Some(r)
  {
  }

  lemma NotFoundYet(before: seq<Restore>, after: seq<Restore>, key: string)
    requires FindRestore(before, key).None? && |after| == |before| + 1 && after[..|before|] == before
    requires after[|before|].key != key
    ensures FindRestore(after, key).None?
  {
  }

  /** A restore that does not verify makes no tenant. */
  lemma TamperedStart(w: World, b: nat, given: string, healthy: bool)
    requires Idle(w) && b < |w.backups| && w.backups[b].status == Succeeded && !Verified(w.folders, b)
    requires Stripped(given) != "" && FindRestore(w.restores, Stripped(given)).None?
    ensures WorkRestore(QueueRestore(w, b, given).0, |w.restores|, healthy).tenants == w.tenants
  {
    var r := |w.restores|;
    QueuedRestore(w, b, given);
    var claimed := w.(restores := w.restores + [Restore(b, Stripped(given), Running, None, None, None)]);
    UnverifiedRestoreTouchesNothing(claimed, r, []);
    var begun := BeginRestore(claimed, r);
    assert begun.restores[r].status == Broken;
  }
}
