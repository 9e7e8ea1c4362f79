/** Backups and clone restores as steps of one system (backup_service.py, restore_service.py, restore_rollback.py):
    tenants write at any time, a backup reads the database at one instant and the filestore entry by entry, a
    restore builds a new tenant from the published artifacts. */
module Snapshot {
  import opened Wrappers

  type Database = map<string, string>

  /** The names on the way from the top of a filestore. */
  type Path = seq<string>

  /** `inside` tells whether a link points into its filestore. */
  datatype Item = File(text: string) | Link(target: string, inside: bool) | Dir

  type Files = map<Path, Item>

  /** Everything above a path is a directory. */
  predicate Reachable(files: Files, path: Path) {
    path != [] && forall i | 0 < i < |path| :: path[..i] in files && files[path[..i]].Dir?
  }

  function Children(files: Files, dir: Path): set<Path> {
    set path | path in files && |path| == |dir| + 1 && path[..|dir|] == dir
  }

  /** What an archive of these files holds under a path; links at the top are left out. */
  function View(files: Files, path: Path): Option<Item> {
    if Reachable(files, path) && path in files && !(|path| == 1 && files[path].Link?) then Some(files[path]) else None
  }

  /** Checksums are taken to be injective: a digest names what was hashed, or is some other text, or is empty. */
  datatype Artifact = Dump(db: Database) | Archive(files: Files)

  datatype Digest = Empty | Of(artifact: Artifact) | OtherText(text: string)

  /** File names of a backup directory and keys of its manifest, as far as the code names them. */
  datatype Name = DumpName | ArchiveName | OtherName(text: string)

  datatype Key = DatabaseKey | FilestoreKey | OtherKey(text: string)

  /** One entry of the manifest's artifacts; either part may be missing from the JSON. */
  datatype Entry = Entry(filename: Option<Name>, digest: Digest)

  /** A published backup directory; a manifest that is not there is None. */
  datatype Folder = Folder(files: map<Name, Artifact>, manifest: Option<map<Key, Entry>>)

  datatype TenantStatus = Provisioning | Active | Failed

  /** `dbBackup` and `fsBackup` are the backup policy, the latter together with a filestore path. */
  datatype Tenant = Tenant(status: TenantStatus, db: Database, files: Files, dbBackup: bool, fsBackup: bool)

  datatype JobStatus = Queued | Running | Succeeded | Broken

  /** The filestore of a backup: not reached, left out by policy, being read entry by entry, or archived. */
  datatype Stage = NotYet | Skipped | Reading(todo: set<Path>, got: Files) | Taken(files: Files)

  /** A backup row with what its run has read so far. */
  datatype Backup = Backup(
    tenant: nat, key: string, status: JobStatus, dump: Option<Database>, archive: Stage, checksum: Digest)

  /** A restore row with what its run has put into its target so far. */
  datatype Restore = Restore(
    backup: nat, key: string, status: JobStatus, target: Option<nat>, loaded: Option<Database>,
        extracted: Option<Files>)

  datatype World = World(tenants: seq<Tenant>, backups: seq<Backup>, restores: seq<Restore>, folders: map<nat, Folder>)

  predicate Pending(s: JobStatus) { s == Queued || s == Running }

  /** _tenant_busy, provisioning aside. */
  predicate Busy(w: World, t: nat) {
    || (exists b | 0 <= b < |w.backups| :: w.backups[b].tenant == t && Pending(w.backups[b].status))
    || (exists r | 0 <= r < |w.restores| :: w.restores[r].target == Some(t) && Pending(w.restores[r].status))
  }

  function FindBackup(backups: seq<Backup>, key: string): (r: Option<nat>)
    ensures r.Some? ==> r.value < |backups| && backups[r.value].key == key
    ensures r.None? ==> forall b | 0 <= b < |backups| :: backups[b].key != key
  {
    if backups == [] then None
    else if backups[|backups| - 1].key == key then Some(|backups| - 1)
    else FindBackup(backups[..|backups| - 1], key)
  }

  function FindRestore(restores: seq<Restore>, key: string): (r: Option<nat>)
    ensures r.Some? ==> r.value < |restores| && restores[r.value].key == key
    ensures r.None? ==> forall i | 0 <= i < |restores| :: restores[i].key != key
  {
    if restores == [] then None
    else if restores[|restores| - 1].key == key then Some(|restores| - 1)
    else FindRestore(restores[..|restores| - 1], key)
  }

  // ---------------------------------------------------------------- backups

  datatype Answer = Got(id: nat) | Refused(code: string)

  /** Python's white space. */
  predicate Space(c: char) {
    || '\U{9}' <= c <= '\U{D}' || '\U{1C}' <= c <= ' ' || c == '\U{85}' || c == '\U{A0}' || c == '\U{1680}'
    || '\U{2000}' <= c <= '\U{200A}' || c == '\U{2028}' || c == '\U{2029}' || c == '\U{202F}' || c == '\U{205F}'
    || c == '\U{3000}'
  }

  /** .strip() */
  function Stripped(s: string): string {
    if s != "" && Space(s[0]) then Stripped(s[1..])
    else if s != "" && Space(s[|s| - 1]) then Stripped(s[..|s| - 1])
    else s
  }

  /** queue_backup, quota aside. */
  function QueueBackup(w: World, t: nat, given: string): (World, Answer) {
    var key := Stripped(given);
    if key == "" then (w, Refused("missing_idempotency"))
    else if FindBackup(w.backups, key).Some? then (w, Got(FindBackup(w.backups, key).value))
    else if t >= |w.tenants| || w.tenants[t].status != Active then (w, Refused("tenant_not_active"))
    else if Busy(w, t) then (w, Refused("tenant_busy"))
    else (w.(backups := w.backups + [Backup(t, key, Queued, None, NotYet, Empty)]), Got(|w.backups|))
  }

  /** claim_next_backup_job takes the first queued row; the run-time steps name the row they belong to. */
  predicate FirstQueuedBackup(w: World, b: nat) {
    b < |w.backups| && w.backups[b].status == Queued && forall i | 0 <= i < b :: w.backups[i].status != Queued
  }

  function SetBackup(w: World, b: nat, row: Backup): World
    requires b < |w.backups|
  {
    w.(backups := w.backups[b := row])
  }

  function ClaimBackup(w: World, b: nat): World {
    if FirstQueuedBackup(w, b) then SetBackup(w, b, w.backups[b].(status := Running)) else w
  }

  predicate BackupRuns(w: World, b: nat) {
    b < |w.backups| && w.backups[b].status == Running && w.backups[b].tenant < |w.tenants|
  }

  /** pg_dump: one instant of the database. */
  function DumpDatabase(w: World, b: nat): World {
    if !BackupRuns(w, b) || w.backups[b].dump.Some? then w
    else if !w.tenants[w.backups[b].tenant].dbBackup then FailBackup(w, b)
    else SetBackup(w, b, w.backups[b].(dump := Some(w.tenants[w.backups[b].tenant].db)))
  }

  /** _tar_filestore: the names at the top are listed at one instant ... */
  function BeginArchive(w: World, b: nat): World {
    if !BackupRuns(w, b) || w.backups[b].dump.None? || w.backups[b].archive != NotYet then w
    else
      var t := w.tenants[w.backups[b].tenant];
      SetBackup(w, b, w.backups[b].(archive := if t.fsBackup then Reading(Children(t.files, []), map[]) else Skipped))
  }

  /** A file or link is copied; a directory is noted, and what is in it is listed. */
  function AfterRead(todo: set<Path>, got: Files, files: Files, path: Path): Stage
    requires path in files
  {
    Reading(todo - {path} + (if files[path].Dir? then Children(files, path) else {}),
            if |path| == 1 && files[path].Link? then got else got[path := files[path]])
  }

  /** ... and every entry is looked at at an instant of its own, in any order; one that is gone by then makes the
      archiver fail. */
  function ReadEntry(w: World, b: nat, path: Path): World {
    if !BackupRuns(w, b) || !w.backups[b].archive.Reading? || path !in w.backups[b].archive.todo then w
    else
      var files, stage := w.tenants[w.backups[b].tenant].files, w.backups[b].archive;
      if !Reachable(files, path) || path !in files then FailBackup(w, b)
      else SetBackup(w, b, w.backups[b].(archive := AfterRead(stage.todo, stage.got, files, path)))
  }

  function EndArchive(w: World, b: nat): World {
    if !BackupRuns(w, b) || !w.backups[b].archive.Reading? || w.backups[b].archive.todo != {} then w
    else SetBackup(w, b, w.backups[b].(archive := Taken(w.backups[b].archive.got)))
  }

  /** The artifacts that exist, and a manifest that lists both of them in any case. */
  function FolderOf(row: Backup): Folder
    requires row.dump.Some?
  {
    var digest := if row.archive.Taken? then Of(Archive(row.archive.files)) else Empty;
    Folder(
      if row.archive.Taken? then map[DumpName := Dump(row.dump.value), ArchiveName := Archive(row.archive.files)]
      else map[DumpName := Dump(row.dump.value)],
      Some(map[DatabaseKey := Entry(Some(DumpName), Of(Dump(row.dump.value))),
               FilestoreKey := Entry(Some(ArchiveName), digest)]))
  }

  function Kept(stage: Stage): Option<Files> { if stage.Taken? then Some(stage.files) else None }

  /** Manifest, publication and the final row; the database checksum goes into the row, too. */
  function Publish(w: World, b: nat): World {
    if !BackupRuns(w, b) || w.backups[b].dump.None? || w.backups[b].archive == NotYet || w.backups[b].archive.Reading?
    then w
    else SetBackup(w, b, w.backups[b].(status := Succeeded, checksum := Of(Dump(w.backups[b].dump.value)))).(
           folders := w.folders[b := FolderOf(w.backups[b])])
  }

  function FailBackup(w: World, b: nat): World {
    if !BackupRuns(w, b) then w
    else SetBackup(w, b, w.backups[b].(status := Broken)).(folders := w.folders - {b})
  }

  // ---------------------------------------------------------------- restores

  /** queue_restore in clone mode. */
  function QueueRestore(w: World, b: nat, given: string): (World, Answer) {
    var key := Stripped(given);
    if key == "" then (w, Refused("missing_idempotency"))
    else if FindRestore(w.restores, key).Some? then (w, Got(FindRestore(w.restores, key).value))
    else if b >= |w.backups| || w.backups[b].status != Succeeded then (w, Refused("backup_not_ready"))
    else if Busy(w, w.backups[b].tenant) then (w, Refused("tenant_busy"))
    else if exists r | 0 <= r < |w.restores| :: w.restores[r].backup == b && Pending(w.restores[r].status)
    then (w, Refused("duplicate_restore"))
    else (w.(restores := w.restores + [Restore(b, key, Queued, None, None, None)]), Got(|w.restores|))
  }

  predicate FirstQueuedRestore(w: World, r: nat) {
    r < |w.restores| && w.restores[r].status == Queued && forall i | 0 <= i < r :: w.restores[i].status != Queued
  }

  function SetRestore(w: World, r: nat, row: Restore): World
    requires r < |w.restores|
  {
    w.(restores := w.restores[r := row])
  }

  function ClaimRestore(w: World, r: nat): World {
    if FirstQueuedRestore(w, r) then SetRestore(w, r, w.restores[r].(status := Running)) else w
  }

  /** What verify_backup_manifest asks of one listed entry. */
  predicate Matches(files: map<Name, Artifact>, entry: Entry) {
    && entry.filename.Some? && entry.digest != Empty
    && entry.filename.value in files && Of(files[entry.filename.value]) == entry.digest
  }

  /** verify_backup_manifest: something is listed, and all that is listed matches. Which artifacts are listed is not
      asked, nor the checksum kept in the backup row. */
  predicate VerifiedFolder(f: Folder) {
    && f.manifest.Some? && f.manifest.value != map[]
    && forall key | key in f.manifest.value :: Matches(f.files, f.manifest.value[key])
  }

  predicate Verified(folders: map<nat, Folder>, b: nat) { b in folders && VerifiedFolder(folders[b]) }

  /** The loop of verify_backup_manifest, over the entries in any order. */
  method VerifyManifest(f: Folder) returns (ok: bool)
    ensures ok == VerifiedFolder(f)
  {
    if f.manifest.None? {
      return false;
    }
    var left := f.manifest.value.Keys;
    while left != {}
      invariant left <= f.manifest.value.Keys
      invariant forall key | key in f.manifest.value && key !in left :: Matches(f.files, f.manifest.value[key])
      decreases left
    {
      var key :| key in left;
      var entry := f.manifest.value[key];
      if entry.filename.None? || entry.digest == Empty {
        return false;
      }
      if entry.filename.value !in f.files {
        return false;
      }
      if Of(f.files[entry.filename.value]) != entry.digest {
        return false;
      }
      left := left - {key};
    }
    ok := f.manifest.value != map[];
  }

  predicate RestoreRuns(w: World, r: nat) { r < |w.restores| && w.restores[r].status == Running }

  /** The start of execute_clone_restore: verification, then a new tenant and its row in the job. */
  function BeginRestore(w: World, r: nat): World {
    if !RestoreRuns(w, r) || w.restores[r].target.Some? then w
    else if !Verified(w.folders, w.restores[r].backup) || DumpName !in w.folders[w.restores[r].backup].files
    then SetRestore(w, r, w.restores[r].(status := Broken))
    else
      SetRestore(w, r, w.restores[r].(target := Some(|w.tenants|))).(
        tenants := w.tenants + [Tenant(Provisioning, map[], map[], true, true)])
  }

  predicate Building(w: World, r: nat) {
    RestoreRuns(w, r) && w.restores[r].target.Some? && w.restores[r].target.value < |w.tenants|
  }

  function SetTenant(w: World, t: nat, row: Tenant): World
    requires t < |w.tenants|
  {
    w.(tenants := w.tenants[t := row])
  }

  /** pg_restore of whatever lies in the folder under the dump's name now. */
  function LoadDatabase(w: World, r: nat): World {
    if !Building(w, r) || w.restores[r].loaded.Some? then w
    else
      var b, t := w.restores[r].backup, w.restores[r].target.value;
      if b !in w.folders || DumpName !in w.folders[b].files || !w.folders[b].files[DumpName].Dump? then RollBack(w, r)
      else
        var db := w.folders[b].files[DumpName].db;
        SetRestore(SetTenant(w, t, w.tenants[t].(db := db)), r, w.restores[r].(loaded := Some(db)))
  }

  predicate HasDots(name: string) { exists i | 0 <= i < |name| - 1 :: name[i] == '.' && name[i + 1] == '.' }

  /** Archives that extraction refuses: a name with two dots in it, or a link that leads out. */
  predicate Unsafe(files: Files) {
    exists path | path in files ::
      (exists i | 0 <= i < |path| :: HasDots(path[i])) || (files[path].Link? && !files[path].inside)
  }

  /** The archive is taken by its fixed name, listed in the manifest or not. */
  function ExtractFiles(w: World, r: nat): World {
    if !Building(w, r) || w.restores[r].loaded.None? || w.restores[r].extracted.Some? then w
    else
      var b, t := w.restores[r].backup, w.restores[r].target.value;
      if b !in w.folders || ArchiveName !in w.folders[b].files || !w.folders[b].files[ArchiveName].Archive?
        || Unsafe(w.folders[b].files[ArchiveName].files)
      then RollBack(w, r)
      else
        var files := w.folders[b].files[ArchiveName].files;
        SetRestore(SetTenant(w, t, w.tenants[t].(files := files)), r, w.restores[r].(extracted := Some(files)))
  }

  /** The health check decides. */
  function FinishRestore(w: World, r: nat, healthy: bool): World {
    if !Building(w, r) || w.restores[r].loaded.None? || w.restores[r].extracted.None? then w
    else if !healthy then RollBack(w, r)
    else
      var t := w.restores[r].target.value;
      SetRestore(SetTenant(w, t, w.tenants[t].(status := Active)), r, w.restores[r].(status := Succeeded))
  }

  /** rollback_clone_restore: what was made for the target goes, nothing else does. */
  function RollBack(w: World, r: nat): World {
    if !Building(w, r) then w
    else
      var t := w.restores[r].target.value;
      SetRestore(SetTenant(w, t, Tenant(Failed, map[], map[], true, true)), r, w.restores[r].(status := Broken))
  }

  // ---------------------------------------------------------------- runs

  datatype Op =
    | NewTenant(db: Database, files: Files, dbBackup: bool, fsBackup: bool)
    | WriteDb(t: nat, name: string, text: string)
    | WriteFile(t: nat, path: Path, item: Item)
    | Rewrite(t: nat, files: Files)  // a removal, a rename of a whole directory, anything done at once
    | DoQueueBackup(t: nat, key: string)
    | DoClaimBackup(b: nat)
    | DoDump(b: nat)
    | DoBeginArchive(b: nat)
    | DoReadEntry(b: nat, path: Path)
    | DoEndArchive(b: nat)
    | DoPublish(b: nat)
    | DoFailBackup(b: nat)
    | Retire(b: nat)
    | Tamper(b: nat, folder: Folder)
    | DoQueueRestore(b: nat, key: string)
    | DoClaimRestore(r: nat)
    | DoBegin(r: nat)
    | DoLoad(r: nat)
    | DoExtract(r: nat)
    | DoFinish(r: nat, healthy: bool)
    | DoRollBack(r: nat)

  /** Tenants write once they are active. */
  function Write(w: World, t: nat, row: Tenant): World {
    if t < |w.tenants| && w.tenants[t].status == Active then SetTenant(w, t, row) else w
  }

  function Step(w: World, op: Op): World {
    match op
    case NewTenant(db, files, dbBackup, fsBackup) =>
      w.(tenants := w.tenants + [Tenant(Active, db, files, dbBackup, fsBackup)])
    case WriteDb(t, name, text) =>
      if t < |w.tenants| then Write(w, t, w.tenants[t].(db := w.tenants[t].db[name := text])) else w
    case WriteFile(t, path, item) =>
      if t < |w.tenants| then Write(w, t, w.tenants[t].(files := w.tenants[t].files[path := item])) else w
    case Rewrite(t, files) => if t < |w.tenants| then Write(w, t, w.tenants[t].(files := files)) else w
    case DoQueueBackup(t, key) => QueueBackup(w, t, key).0
    case DoClaimBackup(b) => ClaimBackup(w, b)
    case DoDump(b) => DumpDatabase(w, b)
    case DoBeginArchive(b) => BeginArchive(w, b)
    case DoReadEntry(b, path) => ReadEntry(w, b, path)
    case DoEndArchive(b) => EndArchive(w, b)
    case DoPublish(b) => Publish(w, b)
    case DoFailBackup(b) => FailBackup(w, b)
    case Retire(b) => w.(folders := w.folders - {b})
    case Tamper(b, folder) => if b in w.folders then w.(folders := w.folders[b := folder]) else w
    case DoQueueRestore(b, key) => QueueRestore(w, b, key).0
    case DoClaimRestore(r) => ClaimRestore(w, r)
    case DoBegin(r) => BeginRestore(w, r)
    case DoLoad(r) => LoadDatabase(w, r)
    case DoExtract(r) => ExtractFiles(w, r)
    case DoFinish(r, healthy) => FinishRestore(w, r, healthy)
    case DoRollBack(r) => RollBack(w, r)
  }

  function RunFrom(w: World, ops: seq<Op>): World {
    if ops == [] then w else Step(RunFrom(w, ops[..|ops| - 1]), ops[|ops| - 1])
  }

  function Run(ops: seq<Op>): World { RunFrom(World([], [], [], map[]), ops) }
}
