/** When a backup of a run read what it holds. */
module ArchiveRuns {
  import opened Archiver
  import opened Snapshot
  import opened SnapshotRuns
  import opened Wrappers

  // ---------------------------------------------------------------- instants of a run

  lemma RunStep(ops: seq<Op>, k: nat)
    requires k < |ops|
    ensures Run(ops[..k + 1]) == Step(Run(ops[..k]), ops[k])
  {
    assert ops[..k + 1][..k] == ops[..k];
  }

  predicate HasDump(w: World, b: nat) { b < |w.backups| && w.backups[b].dump.Some? }

  /** A backup keeps its tenant, and its dump once it has one. */
  predicate Keeps(w: World, after: World, b: nat) {
    && (b < |w.backups| ==> b < |after.backups| && after.backups[b].tenant == w.backups[b].tenant)
    && (HasDump(w, b) ==> HasDump(after, b) && after.backups[b].dump == w.backups[b].dump)
  }

  /** A new dump is the tenant's database. */
  lemma DumpStep(w: World, op: Op, b: nat)
    ensures Keeps(w, Step(w, op), b)
    ensures !HasDump(w, b) && HasDump(Step(w, op), b) ==>
              BackupRuns(w, b) && Step(w, op).backups[b].dump == Some(w.tenants[w.backups[b].tenant].db)
  {
  }

  lemma KeepsTwice(w: World, mid: World, after: World, b: nat)
    requires Keeps(w, mid, b) && Keeps(mid, after, b)
    ensures Keeps(w, after, b)
  {
  }

  /** The same, seen from the run. */
  lemma RunKeeps(ops: seq<Op>, k: nat, b: nat)
    requires k < |ops|
    ensures var w, after := Run(ops[..k]), Run(ops[..k + 1]);
            && Keeps(w, after, b)
            && (!HasDump(w, b) && HasDump(after, b) ==>
                  BackupRuns(w, b) && after.backups[b].dump == Some(w.tenants[w.backups[b].tenant].db))
  {
    RunStep(ops, k);
    DumpStep(Run(ops[..k]), ops[k], b);
  }

  lemma {:induction false} KeepsLong(worlds: seq<World>, i: nat, k: nat, b: nat)
    requires i <= k < |worlds| && forall j | i <= j < k :: Keeps(worlds[j], worlds[j + 1], b)
    ensures Keeps(worlds[i], worlds[k], b)
    decreases k
  {
    if i < k {
      KeepsLong(worlds, i, k - 1, b);
      KeepsTwice(worlds[i], worlds[k - 1], worlds[k], b);
    }
  }

  lemma BackupStays(ops: seq<Op>, i: nat, k: nat, b: nat)
    requires i <= k <= |ops|
    ensures Keeps(Run(ops[..i]), Run(ops[..k]), b)
  {
    var worlds := seq(|ops| + 1, j requires 0 <= j <= |ops| => Run(ops[..j]));
    forall j | i <= j < k ensures Keeps(worlds[j], worlds[j + 1], b) {
      RunKeeps(ops, j, b);
    }
    KeepsLong(worlds, i, k, b);
  }

  /** The run up to `at` is a moment when the backup was running and its tenant's database was the dump. */
  ghost predicate DumpedAt(ops: seq<Op>, b: nat, dump: Database, at: nat) {
    at <= |ops| && BackupRuns(Run(ops[..at]), b)
    && Run(ops[..at]).tenants[Run(ops[..at]).backups[b].tenant].db == dump
  }

  /** A backup holds the database of one instant of its run. */
  lemma {:induction false} DumpIsASnapshot(ops: seq<Op>, k: nat, b: nat) returns (at: nat)
    requires k <= |ops| && HasDump(Run(ops[..k]), b)
    ensures at < k && DumpedAt(ops, b, Run(ops[..k]).backups[b].dump.value, at)
    decreases k
  {
    if k > 0 {
      RunKeeps(ops, k - 1, b);
      if HasDump(Run(ops[..k - 1]), b) {
        at := DumpIsASnapshot(ops, k - 1, b);
      } else {
        at := k - 1;
      }
    }
  }

  // ---------------------------------------------------------------- the reading of a run

  function StageOf(w: World, b: nat): Stage { if b < |w.backups| then w.backups[b].archive else NotYet }

  /** The filestore of a tenant; empty before there is one. */
  function FilesOf(w: World, t: nat): Files { if t < |w.tenants| then w.tenants[t].files else map[] }

  /** The archiver of backup b and the filestore of tenant t, instant by instant. */
  function HistoryOf(ops: seq<Op>, b: nat, t: nat): (h: History)
    ensures |h.stages| == |h.files| == |ops| + 1
  {
    History(seq(|ops| + 1, k requires 0 <= k <= |ops| => StageOf(Run(ops[..k]), b)),
            seq(|ops| + 1, k requires 0 <= k <= |ops| => FilesOf(Run(ops[..k]), t)))
  }

  predicate IsBackupOf(w: World, b: nat, t: nat) { b < |w.backups| && w.backups[b].tenant == t }

  /** An archive is begun, read entry by entry and ended; nothing else touches it. */
  lemma StageStep(w: World, op: Op, b: nat)
    ensures var s, next := StageOf(w, b), StageOf(Step(w, op), b);
            || next == s
            || (s == NotYet && op == DoBeginArchive(b) && (next == Skipped || next.Reading?))
            || (s.Reading? && op.DoReadEntry? && op.b == b && next.Reading?)
            || (s.Reading? && op == DoEndArchive(b) && s.todo == {} && next == Taken(s.got))
  {
  }

  lemma ListingStep(w: World, op: Op, b: nat, t: nat)
    requires StageOf(w, b) == NotYet && StageOf(Step(w, op), b).Reading? && IsBackupOf(Step(w, op), b, t)
    ensures op == DoBeginArchive(b) && BackupRuns(w, b) && HasDump(w, b)
    ensures StageOf(Step(w, op), b) == Reading(Children(FilesOf(w, t), []), map[])
    ensures FilesOf(Step(w, op), t) == FilesOf(w, t)
  {
    StageStep(w, op, b);
  }

  lemma ReadingStep(w: World, op: Op, b: nat, t: nat)
    requires StageOf(w, b).Reading? && StageOf(Step(w, op), b).Reading? && IsBackupOf(w, b, t)
    ensures StageOf(Step(w, op), b) == StageOf(w, b)
            || (FilesOf(Step(w, op), t) == FilesOf(w, t)
                && ReadsOne(StageOf(w, b), StageOf(Step(w, op), b), FilesOf(w, t)))
  {
    StageStep(w, op, b);
    if StageOf(Step(w, op), b) != StageOf(w, b) {
      assert ReadsPath(StageOf(w, b), StageOf(Step(w, op), b), FilesOf(w, t), op.path);
    }
  }

  /** The step that lists the names. */
  ghost predicate BegunAt(ops: seq<Op>, b: nat, lo: nat) {
    lo < |ops| && ops[lo] == DoBeginArchive(b) && BackupRuns(Run(ops[..lo]), b) && HasDump(Run(ops[..lo]), b)
  }

  lemma {:induction false} ReadingSince(ops: seq<Op>, k: nat, b: nat, t: nat) returns (lo: nat)
    requires k <= |ops| && StageOf(Run(ops[..k]), b).Reading? && IsBackupOf(Run(ops[..k]), b, t)
    ensures BegunAt(ops, b, lo) && Window(HistoryOf(ops, b, t), lo, k)
    decreases k
  {
    if k > 0 {
      var before := Run(ops[..k - 1]);
      RunStep(ops, k - 1);
      StageStep(before, ops[k - 1], b);
      DumpStep(before, ops[k - 1], b);
      if StageOf(before, b).Reading? {
        lo := ReadingSince(ops, k - 1, b, t);
        ReadingGoesOn(ops, lo, k - 1, b, t);
      } else {
        lo := k - 1;
        ListingStep(before, ops[k - 1], b, t);
        ReadingBegins(ops, lo, b, t);
      }
    }
  }

  lemma ReadingGoesOn(ops: seq<Op>, lo: nat, k: nat, b: nat, t: nat)
    requires k < |ops| && StageOf(Run(ops[..k + 1]), b).Reading? && IsBackupOf(Run(ops[..k]), b, t)
    requires Window(HistoryOf(ops, b, t), lo, k)
    ensures Window(HistoryOf(ops, b, t), lo, k + 1)
  {
    var h := HistoryOf(ops, b, t);
    RunStep(ops, k);
    assert h.stages[k] == StageOf(Run(ops[..k]), b) && h.stages[k + 1] == StageOf(Run(ops[..k + 1]), b);
    ReadingStep(Run(ops[..k]), ops[k], b, t);
    WindowGrows(h, lo, k);
  }

  lemma ReadingBegins(ops: seq<Op>, lo: nat, b: nat, t: nat)
    requires lo < |ops|
    requires var w, after := Run(ops[..lo]), Run(ops[..lo + 1]);
             StageOf(after, b) == Reading(Children(FilesOf(w, t), []), map[]) && FilesOf(after, t) == FilesOf(w, t)
    ensures Window(HistoryOf(ops, b, t), lo, lo + 1)
  {
  }

  lemma WindowGrows(h: History, lo: nat, k: nat)
    requires Window(h, lo, k) && k + 1 < |h.stages| && h.stages[k + 1].Reading? && Advances(h, k)
    ensures Window(h, lo, k + 1)
  {
  }

  lemma {:induction false} TakenSince(ops: seq<Op>, k: nat, b: nat, t: nat) returns (lo: nat, hi: nat)
    requires k <= |ops| && StageOf(Run(ops[..k]), b).Taken? && IsBackupOf(Run(ops[..k]), b, t)
    ensures BegunAt(ops, b, lo) && ReadAll(HistoryOf(ops, b, t), lo, hi) && hi < k
    ensures StageOf(Run(ops[..k]), b) == Taken(HistoryOf(ops, b, t).stages[hi].got)
    decreases k
  {
    if k > 0 {
      var before := Run(ops[..k - 1]);
      RunStep(ops, k - 1);
      StageStep(before, ops[k - 1], b);
      DumpStep(before, ops[k - 1], b);
      if StageOf(before, b).Taken? {
        lo, hi := TakenSince(ops, k - 1, b, t);
      } else {
        hi := k - 1;
        lo := ReadingSince(ops, hi, b, t);
      }
    }
  }

  /** The archive of a backup, seen from its end: whose it is, when it was read, and what was read. */
  ghost predicate ArchiveOf(ops: seq<Op>, b: nat, t: nat, lo: nat, hi: nat, files: Files) {
    && IsBackupOf(Run(ops), b, t) && Run(ops).backups[b].archive == Taken(files)
    && BegunAt(ops, b, lo) && ReadAll(HistoryOf(ops, b, t), lo, hi) && HistoryOf(ops, b, t).stages[hi].got == files
  }

  lemma ArchiveHasWindow(ops: seq<Op>, b: nat) returns (lo: nat, hi: nat)
    requires b < |Run(ops).backups| && Run(ops).backups[b].archive.Taken?
    ensures ArchiveOf(ops, b, Run(ops).backups[b].tenant, lo, hi, Run(ops).backups[b].archive.files)
  {
    assert ops[..|ops|] == ops;
    lo, hi := TakenSince(ops, |ops|, b, Run(ops).backups[b].tenant);
  }

  // ---------------------------------------------------------------- (iii) a torn archive

  /** A file of a directory is read, then it and another one are written, then the other is read. */
  function TornOps(b: nat, t: nat, x: Path, y: Path, p: string, q: string): seq<Op> {
    [DoReadEntry(b, x), WriteFile(t, x, File(p)), WriteFile(t, y, File(q)), DoReadEntry(b, y), DoEndArchive(b)]
  }

  lemma RunFromStep(w: World, ops: seq<Op>, k: nat)
    requires k < |ops|
    ensures RunFrom(w, ops[..k + 1]) == Step(RunFrom(w, ops[..k]), ops[k])
  {
    assert ops[..k + 1][..k] == ops[..k];
  }

  /** Two files of one directory at the top. */
  predicate Siblings(d: Path, x: Path, y: Path) {
    |d| == 1 && |x| == |y| == 2 && x[..1] == d == y[..1] && x != y
  }

  predicate SamePair(files: Files, archive: Files, x: Path, y: Path) {
    View(files, x) == View(archive, x) && View(files, y) == View(archive, y)
  }

  /** The archiver has listed the directory, and its two files are about to be written. */
  predicate AboutToTear(w: World, b: nat, t: nat, d: Path, x: Path, y: Path, p: string, q: string) {
    && BackupRuns(w, b) && w.backups[b].tenant == t && w.backups[b].dump.Some?
    && w.backups[b].archive == Reading({x, y}, map[d := Dir]) && Siblings(d, x, y)
    && w.tenants[t].status == Active
    && d in w.tenants[t].files && x in w.tenants[t].files && y in w.tenants[t].files && w.tenants[t].files[d].Dir?
    && w.tenants[t].files[x].File? && w.tenants[t].files[x].text != p
    && w.tenants[t].files[y].File? && w.tenants[t].files[y].text != q
  }

  /** The world with another filestore of tenant t and another stage of backup b. */
  function With(w: World, b: nat, t: nat, stage: Stage, files: Files): World
    requires b < |w.backups| && t < |w.tenants|
  {
    SetBackup(SetTenant(w, t, w.tenants[t].(files := files)), b, w.backups[b].(archive := stage))
  }

  lemma WithRead(w: World, b: nat, t: nat, todo: set<Path>, got: Files, files: Files, path: Path)
    requires BackupRuns(w, b) && w.backups[b].tenant == t && path in todo && path in files && Reachable(files, path)
    ensures Step(With(w, b, t, Reading(todo, got), files), DoReadEntry(b, path))
            == With(w, b, t, AfterRead(todo, got, files, path), files)
  {
  }

  lemma WithWrite(w: World, b: nat, t: nat, stage: Stage, files: Files, path: Path, item: Item)
    requires b < |w.backups| && t < |w.tenants| && w.tenants[t].status == Active
    ensures Step(With(w, b, t, stage, files), WriteFile(t, path, item)) == With(w, b, t, stage, files[path := item])
  {
  }

  lemma WithEnd(w: World, b: nat, t: nat, got: Files, files: Files)
    requires BackupRuns(w, b) && w.backups[b].tenant == t
    ensures Step(With(w, b, t, Reading({}, got), files), DoEndArchive(b)) == With(w, b, t, Taken(got), files)
  {
  }

  /** One more step of a run, from a state that is known to one that is. */
  lemma OneStep(w: World, ops: seq<Op>, k: nat, before: World, after: World)
    requires k < |ops| && RunFrom(w, ops[..k]) == before && Step(before, ops[k]) == after
    ensures RunFrom(w, ops[..k + 1]) == after
  {
    RunFromStep(w, ops, k);
  }

  lemma FirstRead(w: World, b: nat, t: nat, d: Path, x: Path, y: Path, p: string, q: string)
    requires AboutToTear(w, b, t, d, x, y, p, q)
    ensures var ops, files := TornOps(b, t, x, y, p, q), w.tenants[t].files;
            RunFrom(w, ops[..0]) == w
            && RunFrom(w, ops[..1]) == With(w, b, t, Reading({y}, map[d := Dir, x := files[x]]), files)
  {
    var ops, files := TornOps(b, t, x, y, p, q), w.tenants[t].files;
    var stage := Reading({y}, map[d := Dir, x := files[x]]);
    assert AfterRead({x, y}, map[d := Dir], files, x) == stage;
    assert w == With(w, b, t, Reading({x, y}, map[d := Dir]), files);
    WithRead(w, b, t, {x, y}, map[d := Dir], files, x);
    OneStep(w, ops, 0, w, With(w, b, t, stage, files));
  }

  lemma ThreeSteps(w: World, b: nat, t: nat, d: Path, x: Path, y: Path, p: string, q: string)
    requires AboutToTear(w, b, t, d, x, y, p, q)
    ensures var ops, files := TornOps(b, t, x, y, p, q), w.tenants[t].files;
            var stage := Reading({y}, map[d := Dir, x := files[x]]);
            && RunFrom(w, ops[..0]) == w && RunFrom(w, ops[..1]) == With(w, b, t, stage, files)
            && RunFrom(w, ops[..2]) == With(w, b, t, stage, files[x := File(p)])
            && RunFrom(w, ops[..3]) == With(w, b, t, stage, files[x := File(p)][y := File(q)])
  {
    var ops, files := TornOps(b, t, x, y, p, q), w.tenants[t].files;
    var stage := Reading({y}, map[d := Dir, x := files[x]]);
    FirstRead(w, b, t, d, x, y, p, q);
    WithWrite(w, b, t, stage, files, x, File(p));
    OneStep(w, ops, 1, With(w, b, t, stage, files), With(w, b, t, stage, files[x := File(p)]));
    WithWrite(w, b, t, stage, files[x := File(p)], y, File(q));
    OneStep(w, ops, 2, With(w, b, t, stage, files[x := File(p)]),
            With(w, b, t, stage, files[x := File(p)][y := File(q)]));
  }

  /** The old text of one file, and the new text of the other. */
  function TornFiles(files: Files, d: Path, x: Path, y: Path, q: string): Files
    requires x in files
  {
    map[d := Dir, x := files[x], y := File(q)]
  }

  lemma LastRead(files: Files, got: Files, d: Path, x: Path, y: Path, q: string)
    requires Siblings(d, x, y) && d in files && files[d].Dir? && y in files && files[y] == File(q)
    ensures Reachable(files, y) && AfterRead({y}, got, files, y) == Reading({}, got[y := File(q)])
  {
    assert {y} - {y} + {} == {};
  }

  lemma FourSteps(w: World, b: nat, t: nat, d: Path, x: Path, y: Path, p: string, q: string)
    requires AboutToTear(w, b, t, d, x, y, p, q)
    ensures var files := w.tenants[t].files[x := File(p)][y := File(q)];
            RunFrom(w, TornOps(b, t, x, y, p, q)[..4])
            == With(w, b, t, Reading({}, TornFiles(w.tenants[t].files, d, x, y, q)), files)
  {
    var ops, files := TornOps(b, t, x, y, p, q), w.tenants[t].files[x := File(p)][y := File(q)];
    var got := map[d := Dir, x := w.tenants[t].files[x]];
    var archive := TornFiles(w.tenants[t].files, d, x, y, q);
    ThreeSteps(w, b, t, d, x, y, p, q);
    LastRead(files, got, d, x, y, q);
    WithRead(w, b, t, {y}, got, files, y);
    OneStep(w, ops, 3, With(w, b, t, Reading({y}, got), files), With(w, b, t, Reading({}, archive), files));
  }

  lemma FiveSteps(w: World, b: nat, t: nat, d: Path, x: Path, y: Path, p: string, q: string)
    requires AboutToTear(w, b, t, d, x, y, p, q)
    ensures var files := w.tenants[t].files[x := File(p)][y := File(q)];
            RunFrom(w, TornOps(b, t, x, y, p, q)[..5])
            == With(w, b, t, Taken(TornFiles(w.tenants[t].files, d, x, y, q)), files)
  {
    var files := w.tenants[t].files[x := File(p)][y := File(q)];
    var archive := TornFiles(w.tenants[t].files, d, x, y, q);
    FourSteps(w, b, t, d, x, y, p, q);
    WithEnd(w, b, t, archive, files);
    OneStep(w, TornOps(b, t, x, y, p, q), 4, With(w, b, t, Reading({}, archive), files),
            With(w, b, t, Taken(archive), files));
  }

  /** At every instant one of the two texts is not the archived one. */
  lemma NoInstantHasBoth(w: World, b: nat, t: nat, d: Path, x: Path, y: Path, p: string, q: string, k: nat)
    requires AboutToTear(w, b, t, d, x, y, p, q) && k <= 5
    ensures var now := RunFrom(w, TornOps(b, t, x, y, p, q)[..k]);
            t < |now.tenants| && !SamePair(now.tenants[t].files, TornFiles(w.tenants[t].files, d, x, y, q), x, y)
  {
    ThreeSteps(w, b, t, d, x, y, p, q);
    FourSteps(w, b, t, d, x, y, p, q);
    FiveSteps(w, b, t, d, x, y, p, q);
    assert k == 0 || k == 1 || k == 2 || k == 3 || k == 4 || k == 5;
    var now := RunFrom(w, TornOps(b, t, x, y, p, q)[..k]);
    PairViews(now.tenants[t].files, d, x, y);
    PairViews(TornFiles(w.tenants[t].files, d, x, y, q), d, x, y);
  }

  lemma PairViews(files: Files, d: Path, x: Path, y: Path)
    requires Siblings(d, x, y) && d in files && files[d].Dir? && x in files && y in files
    ensures View(files, x) == Some(files[x]) && View(files, y) == Some(files[y])
  {
  }

  lemma TakenPublishes(w: World, b: nat)
    requires BackupRuns(w, b) && w.backups[b].dump.Some? && w.backups[b].archive.Taken?
    ensures Publish(w, b).backups[b].status == Succeeded && Verified(Publish(w, b).folders, b)
  {
    PublishedVerifiesIffArchived(w, b);
  }

  lemma TornEnd(w: World, b: nat, t: nat, d: Path, x: Path, y: Path, p: string, q: string)
    requires AboutToTear(w, b, t, d, x, y, p, q)
    ensures var done := RunFrom(w, TornOps(b, t, x, y, p, q));
            && BackupRuns(done, b) && done.backups[b].dump.Some?
            && done.backups[b].archive == Taken(TornFiles(w.tenants[t].files, d, x, y, q))
  {
    FiveSteps(w, b, t, d, x, y, p, q);
    assert TornOps(b, t, x, y, p, q)[..5] == TornOps(b, t, x, y, p, q);
  }

  /** Within one directory, the archive has the old text of one file and the new text of another, as the filestore had
      at no instant; the backup succeeds all the same, and verifies. */
  lemma TornArchive(w: World, b: nat, t: nat, d: Path, x: Path, y: Path, p: string, q: string)
    requires AboutToTear(w, b, t, d, x, y, p, q)
    ensures var ops := TornOps(b, t, x, y, p, q);
            var archive := TornFiles(w.tenants[t].files, d, x, y, q);
            var done := RunFrom(w, ops);
            && b < |done.backups| && done.backups[b].archive == Taken(archive)
            && (forall k | 0 <= k <= |ops| ::
                  t < |RunFrom(w, ops[..k]).tenants| && !SamePair(RunFrom(w, ops[..k]).tenants[t].files, archive, x, y))
            && Publish(done, b).backups[b].status == Succeeded && Verified(Publish(done, b).folders, b)
  {
    var ops := TornOps(b, t, x, y, p, q);
    forall k | 0 <= k <= |ops|
      ensures t < |RunFrom(w, ops[..k]).tenants|
      ensures !SamePair(RunFrom(w, ops[..k]).tenants[t].files, TornFiles(w.tenants[t].files, d, x, y, q), x, y)
    {
      NoInstantHasBoth(w, b, t, d, x, y, p, q, k);
    }
    TornEnd(w, b, t, d, x, y, p, q);
    TakenPublishes(RunFrom(w, ops), b);
  }

  /** A new tenant is backed up, and its archiver comes as far as the directory. */
  function TearingStart(files: Files, d: Path): seq<Op> {
    [NewTenant(map[], files, true, true), DoQueueBackup(0, "daily"), DoClaimBackup(0), DoDump(0), DoBeginArchive(0),
     DoReadEntry(0, d)]
  }

  /** The world with one tenant and one backup of it. */
  function Alone(files: Files, row: Backup): World {
    World([Tenant(Active, map[], files, true, true)], [row], [], map[])
  }

  function DailyRow(status: JobStatus, dump: Option<Database>, stage: Stage): Backup {
    Backup(0, "daily", status, dump, stage, Empty)
  }

  lemma DailyIsQueued(files: Files)
    ensures var w := World([Tenant(Active, map[], files, true, true)], [], [], map[]);
            Step(w, DoQueueBackup(0, "daily")) == Alone(files, DailyRow(Queued, None, NotYet))
  {
    assert Stripped("daily") == "daily";
  }

  lemma DailyIsClaimed(files: Files)
    ensures Step(Alone(files, DailyRow(Queued, None, NotYet)), DoClaimBackup(0))
            == Alone(files, DailyRow(Running, None, NotYet))
  {
  }

  lemma DailyIsDumped(files: Files)
    ensures Step(Alone(files, DailyRow(Running, None, NotYet)), DoDump(0))
            == Alone(files, DailyRow(Running, Some(map[]), NotYet))
  {
  }

  lemma DailyIsBegun(files: Files, d: Path)
    requires d in files && files[d].Dir? && Children(files, []) == {d}
    ensures Step(Alone(files, DailyRow(Running, Some(map[]), NotYet)), DoBeginArchive(0))
            == Alone(files, DailyRow(Running, Some(map[]), Reading({d}, map[])))
  {
  }

  lemma DailyIsListed(files: Files, d: Path)
    requires |d| == 1 && d in files && files[d].Dir?
    ensures Step(Alone(files, DailyRow(Running, Some(map[]), Reading({d}, map[]))), DoReadEntry(0, d))
            == Alone(files, DailyRow(Running, Some(map[]), Reading(Children(files, d), map[d := Dir])))
  {
    assert AfterRead({d}, map[], files, d) == Reading(Children(files, d), map[d := Dir]);
  }

  lemma QueuedSteps(files: Files, d: Path)
    ensures Run(TearingStart(files, d)[..2]) == Alone(files, DailyRow(Queued, None, NotYet))
  {
    var ops, w := TearingStart(files, d), World([], [], [], map[]);
    var w1 := World([Tenant(Active, map[], files, true, true)], [], [], map[]);
    OneStep(w, ops, 0, w, w1);
    DailyIsQueued(files);
    OneStep(w, ops, 1, w1, Alone(files, DailyRow(Queued, None, NotYet)));
  }

  lemma DumpedSteps(files: Files, d: Path)
    ensures Run(TearingStart(files, d)[..4]) == Alone(files, DailyRow(Running, Some(map[]), NotYet))
  {
    var ops, w := TearingStart(files, d), World([], [], [], map[]);
    QueuedSteps(files, d);
    DailyIsClaimed(files);
    OneStep(w, ops, 2, Alone(files, DailyRow(Queued, None, NotYet)), Alone(files, DailyRow(Running, None, NotYet)));
    DailyIsDumped(files);
    OneStep(w, ops, 3, Alone(files, DailyRow(Running, None, NotYet)),
            Alone(files, DailyRow(Running, Some(map[]), NotYet)));
  }

  lemma StartSteps(files: Files, d: Path)
    requires |d| == 1 && d in files && files[d].Dir? && Children(files, []) == {d}
    ensures Run(TearingStart(files, d))
            == Alone(files, DailyRow(Running, Some(map[]), Reading(Children(files, d), map[d := Dir])))
  {
    var ops, w := TearingStart(files, d), World([], [], [], map[]);
    DumpedSteps(files, d);
    DailyIsBegun(files, d);
    var begun := Alone(files, DailyRow(Running, Some(map[]), Reading({d}, map[])));
    OneStep(w, ops, 4, Alone(files, DailyRow(Running, Some(map[]), NotYet)), begun);
    DailyIsListed(files, d);
    OneStep(w, ops, 5, begun,
            Alone(files, DailyRow(Running, Some(map[]), Reading(Children(files, d), map[d := Dir]))));
    assert ops[..6] == ops;
  }

  /** ... from nothing: the torn archive is one of a run of the system. */
  lemma TearIsReached(d: Path, x: Path, y: Path, before: (string, string), p: string, q: string)
    requires Siblings(d, x, y) && p != before.0 && q != before.1
    ensures var files := map[d := Dir, x := File(before.0), y := File(before.1)];
            AboutToTear(Run(TearingStart(files, d)), 0, 0, d, x, y, p, q)
  {
    var files := map[d := Dir, x := File(before.0), y := File(before.1)];
    assert Children(files, []) == {d} && Children(files, d) == {x, y};
    StartSteps(files, d);
  }

  // ---------------------------------------------------------------- clones

  predicate IsOfAnInstant(files: seq<Files>, archive: Files, lo: nat, hi: nat, path: Path)
    requires lo <= hi <= |files|
  {
    exists at: nat | lo <= at < hi :: View(archive, path) == View(files[at], path)
  }

  predicate AllInReach(files: Files) { forall path | path in files :: View(files, path) == Some(files[path]) }

  lemma AllOfInstants(h: History, lo: nat, hi: nat)
    requires ReadAll(h, lo, hi)
    ensures forall path :: IsOfAnInstant(h.files, h.stages[hi].got, lo, hi, path)
    ensures AllInReach(h.stages[hi].got)
    ensures !Torn(h, lo, hi) ==> exists m: nat | lo < m <= hi :: IsInstant(h.files, h.stages[hi].got, m)
  {
    forall path ensures IsOfAnInstant(h.files, h.stages[hi].got, lo, hi, path) {
      var at := EntryIsOfAnInstant(h, lo, hi, path);
    }
    forall path | path in h.stages[hi].got
      ensures View(h.stages[hi].got, path) == Some(h.stages[hi].got[path])
    {
      var at := EntryIsOfAnInstant(h, lo, hi, path);
    }
    if !Torn(h, lo, hi) {
      var m := UntornIsOneInstant(h, lo, hi);
    }
  }

  /** The main result: without tampering, a clone that becomes active has the source's database of one instant of the
      backup's run, and every file as the source had it at an instant of the reading, which is later; all files of the
      same instant, if the reading is not torn. What the source wrote afterwards is not in the clone and is not lost. */
  lemma CloneIsTheSource(ops: seq<Op>, r: nat) returns (i: nat, lo: nat, hi: nat)
    requires NoTampering(ops) && r < |Run(ops).restores|
    requires Run(ops).restores[r].status == Running && FinishRestore(Run(ops), r, true) != Run(ops)
    ensures var after := FinishRestore(Run(ops), r, true);
            var row := Run(ops).restores[r];
            && row.target.Some? && row.target.value < |after.tenants| && row.backup < |Run(ops).backups|
            && var clone, source := after.tenants[row.target.value], Run(ops).backups[row.backup].tenant;
               var h := HistoryOf(ops, row.backup, source);
            && clone.status == Active
            && DumpedAt(ops, row.backup, clone.db, i) && i < lo
            && ArchiveOf(ops, row.backup, source, lo, hi, clone.files)
            && (forall path :: IsOfAnInstant(h.files, clone.files, lo, hi, path)) && AllInReach(clone.files)
            && (!Torn(h, lo, hi) ==> exists m: nat | lo < m <= hi :: IsInstant(h.files, clone.files, m))
            && (forall t | 0 <= t < |Run(ops).tenants| && Run(ops).tenants[t].status == Active ::
                  t < |after.tenants| && after.tenants[t] == Run(ops).tenants[t])
  {
    CloneIsTheBackup(ops, r);
    var b := Run(ops).restores[r].backup;
    lo, hi := ArchiveHasWindow(ops, b);
    i := DumpIsASnapshot(ops, lo, b);
    BackupStays(ops, lo, |ops|, b);
    assert ops[..|ops|] == ops;
    AllOfInstants(HistoryOf(ops, b, Run(ops).backups[b].tenant), lo, hi);
    OthersAreLeft(ops, r);
  }

  lemma OthersAreLeft(ops: seq<Op>, r: nat)
    ensures forall t | 0 <= t < |Run(ops).tenants| && Run(ops).tenants[t].status == Active ::
              t < |FinishRestore(Run(ops), r, true).tenants|
              && FinishRestore(Run(ops), r, true).tenants[t] == Run(ops).tenants[t]
  {
    forall t | 0 <= t < |Run(ops).tenants| && Run(ops).tenants[t].status == Active
      ensures t < |FinishRestore(Run(ops), r, true).tenants|
              && FinishRestore(Run(ops), r, true).tenants[t] == Run(ops).tenants[t]
    {
      RestoresLeaveActiveTenantsAlone(ops, DoFinish(r, true), t);
    }
  }
}
