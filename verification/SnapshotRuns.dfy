/** What backups and restores promise in every run. */
module SnapshotRuns {
  import opened Snapshot
  import opened Wrappers

  // ---------------------------------------------------------------- restores touch their own tenant only

  predicate RestoreStep(op: Op) {
    op.DoQueueRestore? || op.DoClaimRestore? || op.DoBegin? || op.DoLoad? || op.DoExtract? || op.DoFinish?
        || op.DoRollBack?
  }

  /** A running restore owns its target, which is not active yet; nobody else has it as a target. */
  ghost predicate TargetsOwned(tenants: seq<Tenant>, restores: seq<Restore>) {
    && (forall r | 0 <= r < |restores| && restores[r].target.Some? :: restores[r].target.value < |tenants|)
    && (forall r | 0 <= r < |restores| && restores[r].target.Some? && restores[r].status == Running ::
          tenants[restores[r].target.value].status == Provisioning)
    && (forall q, r | 0 <= q < r < |restores| && restores[q].target.Some? && restores[r].target.Some? ::
          restores[q].target != restores[r].target)
    && (forall r | 0 <= r < |restores| && restores[r].target.Some? :: restores[r].status != Queued)
  }

  lemma TargetsBegin(w: World, r: nat)
    requires TargetsOwned(w.tenants, w.restores)
    ensures TargetsOwned(BeginRestore(w, r).tenants, BeginRestore(w, r).restores)
  {
  }

  /** A step of one restore that keeps its target and, while it runs, the target's status. */
  lemma TargetsUpdate(w: World, r: nat, tenant: Tenant, row: Restore)
    requires TargetsOwned(w.tenants, w.restores) && Building(w, r)
    requires row.target == w.restores[r].target && row.status != Queued
    requires row.status == Running ==> tenant.status == Provisioning
    ensures TargetsOwned(w.tenants[w.restores[r].target.value := tenant], w.restores[r := row])
  {
  }

  lemma TargetsWork(w: World, op: Op)
    requires TargetsOwned(w.tenants, w.restores)
    requires op.DoLoad? || op.DoExtract? || op.DoFinish? || op.DoRollBack?
    ensures TargetsOwned(Step(w, op).tenants, Step(w, op).restores)
  {
    var after := Step(w, op);
    if Building(w, op.r) && after != w {
      var t := w.restores[op.r].target.value;
      TargetsUpdate(w, op.r, after.tenants[t], after.restores[op.r]);
    }
  }

  lemma TargetsStep(w: World, op: Op)
    requires TargetsOwned(w.tenants, w.restores)
    ensures TargetsOwned(Step(w, op).tenants, Step(w, op).restores)
  {
    if op.DoBegin? {
      TargetsBegin(w, op.r);
    } else if op.DoLoad? || op.DoExtract? || op.DoFinish? || op.DoRollBack? {
      TargetsWork(w, op);
    } else if op.DoQueueRestore? || op.DoClaimRestore? {
      assert Step(w, op).tenants == w.tenants;
    } else {
      OthersKeepTargets(w, op);
    }
  }

  lemma OthersKeepTargets(w: World, op: Op)
    requires TargetsOwned(w.tenants, w.restores) && !RestoreStep(op)
    ensures TargetsOwned(Step(w, op).tenants, Step(w, op).restores)
  {
    assert Step(w, op).restores == w.restores;
    TenantsKeepStatus(w, op);
  }

  lemma TenantsKeepStatus(w: World, op: Op)
    requires !RestoreStep(op)
    ensures |w.tenants| <= |Step(w, op).tenants|
    ensures forall t | 0 <= t < |w.tenants| :: Step(w, op).tenants[t].status == w.tenants[t].status
    ensures forall t | 0 <= t < |w.tenants| && w.tenants[t].status != Active :: Step(w, op).tenants[t] == w.tenants[t]
  {
  }

  lemma {:induction false} TargetsStayOwned(ops: seq<Op>)
    ensures TargetsOwned(Run(ops).tenants, Run(ops).restores)
  {
    if ops != [] {
      TargetsStayOwned(ops[..|ops| - 1]);
      TargetsStep(Run(ops[..|ops| - 1]), ops[|ops| - 1]);
    }
  }

  /** No step of any restore, successful or not, changes a tenant that is active: not the source, whatever it has
      written since, and not an earlier clone. */
  lemma RestoresLeaveActiveTenantsAlone(ops: seq<Op>, op: Op, t: nat)
    requires RestoreStep(op) && t < |Run(ops).tenants| && Run(ops).tenants[t].status == Active
    ensures t < |Step(Run(ops), op).tenants| && Step(Run(ops), op).tenants[t] == Run(ops).tenants[t]
  {
    TargetsStayOwned(ops);
    ActiveIsNoTarget(Run(ops), op, t);
  }

  lemma ActiveIsNoTarget(w: World, op: Op, t: nat)
    requires TargetsOwned(w.tenants, w.restores)
    requires RestoreStep(op) && t < |w.tenants| && w.tenants[t].status == Active
    ensures t < |Step(w, op).tenants| && Step(w, op).tenants[t] == w.tenants[t]
  {
  }

  /** A restore that is over is never written again, and none of its steps does anything. */
  lemma EndedRestoreStays(w: World, op: Op, r: nat)
    requires r < |w.restores| && !Pending(w.restores[r].status)
    ensures r < |Step(w, op).restores| && Step(w, op).restores[r] == w.restores[r]
    ensures RestoreStep(op) && !op.DoQueueRestore? && op.r == r ==> Step(w, op) == w
  {
  }

  /** A restore whose backup does not verify when it begins makes and changes no tenant, then and in every
      continuation: its row stays failed without a target, and none of its steps does anything. */
  lemma {:induction false} UnverifiedRestoreTouchesNothing(w: World, r: nat, ops: seq<Op>)
    requires RestoreRuns(w, r) && w.restores[r].target.None? && !Verified(w.folders, w.restores[r].backup)
    ensures var begun := BeginRestore(w, r);
            var later := RunFrom(begun, ops);
            && begun.tenants == w.tenants && begun.folders == w.folders && begun.backups == w.backups
            && r < |later.restores| && later.restores[r] == w.restores[r].(status := Broken)
            && later.restores[r].target.None?
            && (forall op | RestoreStep(op) && !op.DoQueueRestore? && op.r == r :: Step(later, op) == later)
  {
    var begun := BeginRestore(w, r);
    var later := RunFrom(begun, ops);
    if ops != [] {
      UnverifiedRestoreTouchesNothing(w, r, ops[..|ops| - 1]);
      EndedRestoreStays(RunFrom(begun, ops[..|ops| - 1]), ops[|ops| - 1], r);
    }
    forall op | RestoreStep(op) && !op.DoQueueRestore? && op.r == r ensures Step(later, op) == later {
      EndedRestoreStays(later, op, r);
    }
  }

  // ---------------------------------------------------------------- what a clone contains

  predicate NoTampering(ops: seq<Op>) { forall i | 0 <= i < |ops| :: !ops[i].Tamper? }

  /** Published folders are what their backups wrote. */
  ghost predicate FoldersTrue(backups: seq<Backup>, folders: map<nat, Folder>) {
    forall b | b in folders ::
      b < |backups| && backups[b].status == Succeeded && backups[b].dump.Some? && folders[b] == FolderOf(backups[b])
  }

  /** What a restore has put into its target is what its backup read. */
  ghost predicate RestoreTrue(restore: Restore, tenants: seq<Tenant>, backups: seq<Backup>) {
    && (restore.loaded.Some? ==> restore.backup < |backups| && restore.loaded == backups[restore.backup].dump
                                 && backups[restore.backup].status == Succeeded)
    && (restore.extracted.Some? ==> restore.loaded.Some? && restore.extracted == Kept(backups[restore.backup].archive))
    && (restore.status == Succeeded ==> restore.loaded.Some? && restore.extracted.Some? && restore.target.Some?)
    && (restore.loaded.Some? || restore.extracted.Some? ==> restore.target.Some?)
    && (restore.target.Some? ==> restore.backup < |backups| && backups[restore.backup].status == Succeeded
                                 && backups[restore.backup].archive.Taken?)
    && (restore.target.Some? && restore.status == Running && restore.target.value < |tenants| ==>
          var clone := tenants[restore.target.value];
          && clone.db == (if restore.loaded.Some? then restore.loaded.value else map[])
          && clone.files == (if restore.extracted.Some? then restore.extracted.value else map[]))
  }

  ghost predicate Faithful(w: World) {
    && TargetsOwned(w.tenants, w.restores)
    && FoldersTrue(w.backups, w.folders)
    && (forall r | 0 <= r < |w.restores| :: RestoreTrue(w.restores[r], w.tenants, w.backups))
  }

  lemma FoldersStep(w: World, op: Op)
    requires FoldersTrue(w.backups, w.folders) && !op.Tamper?
    ensures FoldersTrue(Step(w, op).backups, Step(w, op).folders)
  {
    if RestoreStep(op) {
      assert Step(w, op).folders == w.folders && Step(w, op).backups == w.backups;
    } else if op.DoPublish? || op.DoFailBackup? || op.DoReadEntry? || op.DoDump? {
      FoldersOfBackup(w, op);
    } else if op.DoQueueBackup? || op.DoClaimBackup? || op.DoBeginArchive? || op.DoEndArchive? {
      assert Step(w, op).folders == w.folders;
      FoldersOfRows(w, op);
    } else {
      assert Step(w, op).backups == w.backups && Step(w, op).folders.Keys <= w.folders.Keys;
    }
  }

  lemma FoldersOfBackup(w: World, op: Op)
    requires FoldersTrue(w.backups, w.folders)
    requires op.DoPublish? || op.DoFailBackup? || op.DoReadEntry? || op.DoDump?
    ensures FoldersTrue(Step(w, op).backups, Step(w, op).folders)
  {
  }

  lemma FoldersOfRows(w: World, op: Op)
    requires FoldersTrue(w.backups, w.folders)
    requires op.DoQueueBackup? || op.DoClaimBackup? || op.DoBeginArchive? || op.DoEndArchive?
    ensures FoldersTrue(Step(w, op).backups, w.folders)
  {
  }

  /** A backup that has succeeded is never written again. */
  lemma SucceededBackupsStay(w: World, op: Op, b: nat)
    requires b < |w.backups| && w.backups[b].status == Succeeded
    ensures b < |Step(w, op).backups| && Step(w, op).backups[b] == w.backups[b]
  {
  }

  /** Another step leaves a restore's truth alone if it keeps its row, its target and its backup. */
  lemma TruthIsLocal(w: World, op: Op, r: nat)
    requires TargetsOwned(w.tenants, w.restores) && r < |w.restores| && RestoreTrue(w.restores[r], w.tenants, w.backups)
    requires r < |Step(w, op).restores| && Step(w, op).restores[r] == w.restores[r]
    requires w.restores[r].target.Some? && w.restores[r].status == Running ==>
               var t := w.restores[r].target.value; t < |Step(w, op).tenants| && Step(w, op).tenants[t] == w.tenants[t]
    ensures RestoreTrue(Step(w, op).restores[r], Step(w, op).tenants, Step(w, op).backups)
  {
    if w.restores[r].loaded.Some? || w.restores[r].target.Some? {
      SucceededBackupsStay(w, op, w.restores[r].backup);
    }
  }

  lemma BeginStaysTrue(w: World, r: nat)
    requires Faithful(w) && r < |w.restores|
    ensures RestoreTrue(BeginRestore(w, r).restores[r], BeginRestore(w, r).tenants, BeginRestore(w, r).backups)
  {
    assert RestoreTrue(w.restores[r], w.tenants, w.backups);
    if Verified(w.folders, w.restores[r].backup) {
      VerifiedMeansTaken(w.backups[w.restores[r].backup]);
    }
  }

  lemma LoadStaysTrue(w: World, r: nat)
    requires Faithful(w) && r < |w.restores|
    ensures RestoreTrue(LoadDatabase(w, r).restores[r], LoadDatabase(w, r).tenants, LoadDatabase(w, r).backups)
  {
    assert RestoreTrue(w.restores[r], w.tenants, w.backups);
  }

  lemma ExtractStaysTrue(w: World, r: nat)
    requires Faithful(w) && r < |w.restores|
    ensures RestoreTrue(ExtractFiles(w, r).restores[r], ExtractFiles(w, r).tenants, ExtractFiles(w, r).backups)
  {
    assert RestoreTrue(w.restores[r], w.tenants, w.backups);
  }

  lemma EndStaysTrue(w: World, r: nat, healthy: bool)
    requires Faithful(w) && r < |w.restores|
    ensures var after := FinishRestore(w, r, healthy);
            RestoreTrue(after.restores[r], after.tenants, after.backups)
    ensures RestoreTrue(RollBack(w, r).restores[r], RollBack(w, r).tenants, RollBack(w, r).backups)
  {
    assert RestoreTrue(w.restores[r], w.tenants, w.backups);
  }

  lemma WorkStaysTrue(w: World, op: Op, r: nat)
    requires Faithful(w) && r < |w.restores|
    requires op.DoBegin? || op.DoLoad? || op.DoExtract? || op.DoFinish? || op.DoRollBack?
    requires op.r == r
    ensures RestoreTrue(Step(w, op).restores[r], Step(w, op).tenants, Step(w, op).backups)
  {
    if op.DoBegin? {
      BeginStaysTrue(w, r);
    } else if op.DoLoad? {
      LoadStaysTrue(w, r);
    } else if op.DoExtract? {
      ExtractStaysTrue(w, r);
    } else if op.DoFinish? {
      EndStaysTrue(w, r, op.healthy);
    } else {
      EndStaysTrue(w, r, true);
    }
  }

  lemma VerifiedMeansTaken(row: Backup)
    requires row.dump.Some?
    ensures VerifiedFolder(FolderOf(row)) <==> row.archive.Taken?
  {
    var f := FolderOf(row);
    assert DatabaseKey in f.manifest.value && FilestoreKey in f.manifest.value;
    assert f.manifest.value[FilestoreKey].digest == Empty <==> !row.archive.Taken?;
  }

  /** The work on one restore does not touch another, nor its target. */
  lemma OtherWorkIsApart(w: World, op: Op, r: nat)
    requires TargetsOwned(w.tenants, w.restores) && r < |w.restores|
    requires op.DoBegin? || op.DoLoad? || op.DoExtract? || op.DoFinish? || op.DoRollBack?
    requires op.r != r
    ensures r < |Step(w, op).restores| && Step(w, op).restores[r] == w.restores[r]
    ensures w.restores[r].target.Some? ==>
              var t := w.restores[r].target.value; t < |Step(w, op).tenants| && Step(w, op).tenants[t] == w.tenants[t]
  {
  }

  lemma OtherWorkStaysTrue(w: World, op: Op, r: nat)
    requires Faithful(w) && r < |w.restores|
    requires op.DoBegin? || op.DoLoad? || op.DoExtract? || op.DoFinish? || op.DoRollBack?
    requires op.r != r
    ensures RestoreTrue(Step(w, op).restores[r], Step(w, op).tenants, Step(w, op).backups)
  {
    OtherWorkIsApart(w, op, r);
    TruthIsLocal(w, op, r);
  }

  lemma QueueStaysTrue(w: World, op: Op, r: nat)
    requires Faithful(w) && r < |Step(w, op).restores| && (op.DoQueueRestore? || op.DoClaimRestore?)
    ensures RestoreTrue(Step(w, op).restores[r], Step(w, op).tenants, Step(w, op).backups)
  {
    assert Step(w, op).tenants == w.tenants && Step(w, op).backups == w.backups;
    assert r < |w.restores| ==> RestoreTrue(w.restores[r], w.tenants, w.backups);
  }

  lemma OthersStayTrue(w: World, op: Op, r: nat)
    requires Faithful(w) && r < |w.restores| && !RestoreStep(op)
    ensures RestoreTrue(Step(w, op).restores[r], Step(w, op).tenants, Step(w, op).backups)
  {
    assert Step(w, op).restores == w.restores && RestoreTrue(w.restores[r], w.tenants, w.backups);
    TenantsKeepStatus(w, op);
    TruthIsLocal(w, op, r);
  }

  lemma RestoreTrueStep(w: World, op: Op, r: nat)
    requires Faithful(w) && r < |Step(w, op).restores| && !op.Tamper?
    ensures RestoreTrue(Step(w, op).restores[r], Step(w, op).tenants, Step(w, op).backups)
  {
    if op.DoQueueRestore? || op.DoClaimRestore? {
      QueueStaysTrue(w, op, r);
    } else if !RestoreStep(op) {
      OthersStayTrue(w, op, r);
    } else if op.r == r {
      WorkStaysTrue(w, op, r);
    } else {
      OtherWorkStaysTrue(w, op, r);
    }
  }

  lemma {:induction false} RunsAreFaithful(ops: seq<Op>)
    requires NoTampering(ops)
    ensures Faithful(Run(ops))
  {
    if ops != [] {
      var last := |ops| - 1;
      var w := Run(ops[..last]);
      RunsAreFaithful(ops[..last]);
      TargetsStep(w, ops[last]);
      FoldersStep(w, ops[last]);
      forall r | 0 <= r < |Run(ops).restores|
        ensures RestoreTrue(Run(ops).restores[r], Run(ops).tenants, Run(ops).backups)
      {
        RestoreTrueStep(w, ops[last], r);
      }
    }
  }

  /** The moment a clone becomes active it holds exactly what its backup read, database and files. */
  lemma CloneIsTheBackup(ops: seq<Op>, r: nat)
    requires NoTampering(ops) && r < |Run(ops).restores|
    requires Run(ops).restores[r].status == Running && FinishRestore(Run(ops), r, true) != Run(ops)
    ensures var before, after := Run(ops), FinishRestore(Run(ops), r, true);
            var row := before.restores[r];
            && row.target.Some? && row.target.value < |after.tenants| && row.backup < |before.backups|
            && after.tenants[row.target.value].status == Active
            && Some(after.tenants[row.target.value].db) == before.backups[row.backup].dump
            && before.backups[row.backup].archive == Taken(after.tenants[row.target.value].files)
  {
    RunsAreFaithful(ops);
    assert RestoreTrue(Run(ops).restores[r], Run(ops).tenants, Run(ops).backups);
  }

  // ---------------------------------------------------------------- what can be restored

  /** A succeeded backup verifies exactly if its policy included the filestore: without, the manifest has an empty
      entry. */
  lemma PublishedVerifiesIffArchived(w: World, b: nat)
    requires BackupRuns(w, b) && Publish(w, b) != w
    ensures Publish(w, b).backups[b].status == Succeeded
    ensures Verified(Publish(w, b).folders, b) <==> w.backups[b].archive.Taken?
  {
    assert Publish(w, b).folders[b] == FolderOf(w.backups[b]);
    VerifiedMeansTaken(w.backups[b]);
  }

  /** Without tampering, a restore that begins gets its tenant exactly if the backup's folder is still there and the
      backup archived the filestore. */
  lemma RestorableIffArchived(ops: seq<Op>, r: nat)
    requires NoTampering(ops) && RestoreRuns(Run(ops), r) && Run(ops).restores[r].target.None?
    ensures var w, b := Run(ops), Run(ops).restores[r].backup;
            && (b in w.folders ==> b < |w.backups| && w.backups[b].status == Succeeded)
            && (BeginRestore(w, r).restores[r].target.Some? <==> b in w.folders && w.backups[b].archive.Taken?)
            && (BeginRestore(w, r).restores[r].target.None? ==> BeginRestore(w, r).restores[r].status == Broken)
  {
    RunsAreFaithful(ops);
    var w, b := Run(ops), Run(ops).restores[r].backup;
    if b in w.folders {
      VerifiedMeansTaken(w.backups[b]);
      assert DumpName in FolderOf(w.backups[b]).files;
    }
  }

  /** In no run without tampering does a restore of a backup without archive get a tenant, let alone succeed. */
  lemma OnlyArchivedBackupsAreRestored(ops: seq<Op>, r: nat)
    requires NoTampering(ops) && r < |Run(ops).restores|
    ensures var w, row := Run(ops), Run(ops).restores[r];
            row.target.Some? || row.status == Succeeded ==>
              row.backup < |w.backups| && w.backups[row.backup].status == Succeeded
              && w.backups[row.backup].archive.Taken?
  {
    RunsAreFaithful(ops);
    assert RestoreTrue(Run(ops).restores[r], Run(ops).tenants, Run(ops).backups);
  }

  // ---------------------------------------------------------------- tampering

  predicate SameArtifact(files: map<Name, Artifact>, changed: map<Name, Artifact>, name: Name) {
    && (name in files <==> name in changed)
    && (name in files && name in changed ==> files[name] == changed[name])
  }

  /** Changing, removing or adding artifacts of a folder that verified is found exactly if the manifest lists one of
      them. */
  lemma ArtifactChangesFoundIffListed(f: Folder, changed: map<Name, Artifact>)
    requires VerifiedFolder(f)
    ensures VerifiedFolder(f.(files := changed))
            <==> forall key | key in f.manifest.value ::
                   SameArtifact(f.files, changed, f.manifest.value[key].filename.value)
  {
    forall key | key in f.manifest.value
      ensures Matches(changed, f.manifest.value[key])
              <==> SameArtifact(f.files, changed, f.manifest.value[key].filename.value)
    {
      assert Matches(f.files, f.manifest.value[key]);
    }
  }

  /** A changed manifest is found exactly if it lists nothing any more, or an entry that is new or different does not
      match the artifact it names; an entry that is gone is not missed. */
  lemma ManifestChangesFoundIff(f: Folder, changed: map<Key, Entry>)
    requires VerifiedFolder(f)
    ensures !VerifiedFolder(f.(manifest := Some(changed)))
            <==> || changed == map[]
                 || exists key | key in changed ::
                      && (key !in f.manifest.value || f.manifest.value[key] != changed[key])
                      && !Matches(f.files, changed[key])
  {
    forall key | key in changed && key in f.manifest.value && f.manifest.value[key] == changed[key]
      ensures Matches(f.files, changed[key])
    {
      assert Matches(f.files, f.manifest.value[key]);
    }
  }

  /** The manifest of a true folder without its filestore entry. */
  function Unlisted(f: Folder): Folder
    requires f.manifest.Some?
  {
    f.(manifest := Some(f.manifest.value - {FilestoreKey}))
  }

  lemma UnlistedVerifies(row: Backup, files: Files)
    requires row.dump.Some? && row.archive.Taken?
    ensures var f := Unlisted(FolderOf(row));
            VerifiedFolder(f) && VerifiedFolder(f.(files := f.files[ArchiveName := Archive(files)]))
  {
    var f := Unlisted(FolderOf(row));
    assert f.manifest.value == map[DatabaseKey := Entry(Some(DumpName), Of(Dump(row.dump.value)))];
    assert DatabaseKey in f.manifest.value;
  }

  /** A restore of a folder that verifies, up to the extraction. */
  lemma FolderIsExtracted(w: World, r: nat)
    requires RestoreRuns(w, r) && w.restores[r].target.None? && w.restores[r].loaded.None?
    requires w.restores[r].extracted.None? && Verified(w.folders, w.restores[r].backup)
    requires var f := w.folders[w.restores[r].backup];
             && DumpName in f.files && f.files[DumpName].Dump?
             && ArchiveName in f.files && f.files[ArchiveName].Archive? && !Unsafe(f.files[ArchiveName].files)
    ensures var f := w.folders[w.restores[r].backup];
            ExtractFiles(LoadDatabase(BeginRestore(w, r), r), r).tenants
            == w.tenants + [Tenant(Provisioning, f.files[DumpName].db, f.files[ArchiveName].files, true, true)]
  {
    var f, t := w.folders[w.restores[r].backup], |w.tenants|;
    var begun := BeginRestore(w, r);
    assert begun.restores[r].target == Some(t) && begun.folders == w.folders && Building(begun, r);
    var loaded := LoadDatabase(begun, r);
    assert loaded.tenants == w.tenants + [Tenant(Provisioning, f.files[DumpName].db, map[], true, true)];
    assert Building(loaded, r) && loaded.folders == w.folders;
  }

  /** With the filestore entry taken out, a published backup verifies with any archive in place of its own, and that is
      what the restore extracts, if only extraction accepts its names and links. */
  lemma UnlistedArchiveIsExtracted(w: World, r: nat, row: Backup, files: Files)
    requires !Unsafe(files)
    requires RestoreRuns(w, r) && w.restores[r].target.None? && w.restores[r].loaded.None?
    requires w.restores[r].extracted.None? && w.restores[r].backup in w.folders
    requires row.dump.Some? && row.archive.Taken? && w.folders[w.restores[r].backup] == FolderOf(row)
    ensures var b, f := w.restores[r].backup, Unlisted(FolderOf(row));
            var swapped := Step(w, Tamper(b, f.(files := f.files[ArchiveName := Archive(files)])));
            var done := ExtractFiles(LoadDatabase(BeginRestore(swapped, r), r), r);
            && VerifiedFolder(f) && Verified(swapped.folders, b)
            && done.tenants == w.tenants + [Tenant(Provisioning, row.dump.value, files, true, true)]
  {
    var b, f := w.restores[r].backup, Unlisted(FolderOf(row));
    UnlistedVerifies(row, files);
    FolderIsExtracted(Step(w, Tamper(b, f.(files := f.files[ArchiveName := Archive(files)]))), r);
  }

  /** An artifact replaced together with its manifest entry passes, too. The checksum in the backup row would tell,
      exactly when the database was changed. */
  lemma ConsistentTamperingPasses(row: Backup, changed: Backup)
    requires row.dump.Some? && row.checksum == Of(Dump(row.dump.value))
    requires changed.dump.Some? && changed.archive.Taken?
    ensures VerifiedFolder(FolderOf(changed))
    ensures row.checksum == FolderOf(changed).manifest.value[DatabaseKey].digest <==> changed.dump == row.dump
  {
    VerifiedMeansTaken(changed);
  }

  // ---------------------------------------------------------------- idempotency keys

  lemma KeysStep(w: World, op: Op, r: nat)
    requires r < |w.restores|
    ensures r < |Step(w, op).restores| && Step(w, op).restores[r].key == w.restores[r].key
    ensures Step(w, op).restores[r].backup == w.restores[r].backup
  {
  }

  ghost predicate KeysUnique(restores: seq<Restore>) {
    forall q, r | 0 <= q < r < |restores| :: restores[q].key != restores[r].key
  }

  lemma {:induction false} KeysStayUnique(ops: seq<Op>)
    ensures KeysUnique(Run(ops).restores)
    ensures forall r | 0 <= r < |Run(ops).restores| :: Run(ops).restores[r].key != ""
  {
    if ops != [] {
      var last := |ops| - 1;
      var w := Run(ops[..last]);
      KeysStayUnique(ops[..last]);
      forall r | 0 <= r < |w.restores|
        ensures r < |Run(ops).restores| && Run(ops).restores[r].key == w.restores[r].key
      {
        KeysStep(w, ops[last], r);
      }
      NewRestoreIsLast(w, ops[last]);
    }
  }

  lemma NewRestoreIsLast(w: World, op: Op)
    ensures |Step(w, op).restores| == |w.restores|
            || (|Step(w, op).restores| == |w.restores| + 1 && op.DoQueueRestore?
                && Step(w, op).restores[|w.restores|].key == Stripped(op.key) && Stripped(op.key) != ""
                && forall r | 0 <= r < |w.restores| :: w.restores[r].key != Stripped(op.key))
  {
  }

  /** A key stays with its job for ever: asking again, whenever, for whichever backup and with whatever white space
      about the key, gives the same job, and no new job or tenant. */
  lemma ReplayedKeyCreatesNothing(ops: seq<Op>, r: nat, b: nat, given: string)
    requires r < |Run(ops).restores| && Stripped(given) == Run(ops).restores[r].key
    ensures QueueRestore(Run(ops), b, given) == (Run(ops), Got(r))
  {
    KeysStayUnique(ops);
    var found := FindRestore(Run(ops).restores, Run(ops).restores[r].key);
    assert found == Some(r);
  }
}
