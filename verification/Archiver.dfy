/** Reading a filestore directory by directory and file by file while its tenant writes (_tar_filestore): which archives
    that can give. */
module Archiver {
  import opened Snapshot
  import opened Wrappers

  /** How far the archiver is, and the filestore, at the instants 0, 1, ... of a run. */
  datatype History = History(stages: seq<Stage>, files: seq<Files>)

  /** The path, or something above it, has been listed and is yet to be looked at. */
  predicate Waits(todo: set<Path>, path: Path) {
    exists i | 0 < i <= |path| :: path[..i] in todo
  }

  /** One entry is looked at, as it is. */
  ghost predicate ReadsOne(s: Stage, next: Stage, files: Files)
    requires s.Reading?
  {
    exists path :: ReadsPath(s, next, files, path)
  }

  predicate ReadsPath(s: Stage, next: Stage, files: Files, path: Path)
    requires s.Reading?
  {
    path in s.todo && path in files && Reachable(files, path) && next == AfterRead(s.todo, s.got, files, path)
  }

  /** Between two instants the archiver looks at one entry, or others do whatever they do. */
  ghost predicate Advances(h: History, j: nat)
    requires j + 1 < |h.stages| == |h.files| && h.stages[j].Reading? && h.stages[j + 1].Reading?
  {
    h.stages[j + 1] == h.stages[j]
    || (h.files[j + 1] == h.files[j] && ReadsOne(h.stages[j], h.stages[j + 1], h.files[j]))
  }

  /** The top is listed between lo and the next instant, and the archiver is still at work at instant k. */
  ghost predicate Window(h: History, lo: nat, k: nat) {
    && lo < k < |h.stages| == |h.files|
    && (forall j | lo < j <= k :: h.stages[j].Reading?)
    && h.stages[lo + 1] == Reading(Children(h.files[lo], []), map[]) && h.files[lo + 1] == h.files[lo]
    && (forall j | lo < j < k :: Advances(h, j))
  }

  /** ... and everything listed has been looked at by instant hi. */
  ghost predicate ReadAll(h: History, lo: nat, hi: nat) { Window(h, lo, hi) && h.stages[hi].todo == {} }

  // ---------------------------------------------------------------- one look

  /** What has been listed lies in directories of the archive, and nothing in the archive waits or is out of reach. */
  ghost predicate Sane(todo: set<Path>, got: Files) {
    && (forall path | path in todo :: Reachable(got, path))
    && (forall path | path in got :: !Waits(todo, path) && View(got, path) == Some(got[path]))
  }

  lemma LookedAtWaits(todo: set<Path>, path: Path)
    requires path in todo && path != []
    ensures Waits(todo, path)
  {
    assert path[..|path|] == path;
  }

  /** What waits afterwards has waited before. */
  lemma StillWaits(todo: set<Path>, got: Files, files: Files, path: Path, other: Path)
    requires path in todo && path in files && Reachable(files, path)
    requires Waits(AfterRead(todo, got, files, path).todo, other)
    ensures Waits(todo, other)
  {
    var i :| 0 < i <= |other| && other[..i] in AfterRead(todo, got, files, path).todo;
    if other[..i] !in todo {
      assert other[..|path|] == other[..i][..|path|] == path;
    }
  }

  /** Whatever has been passed stays as it is in the archive. */
  lemma PassedStays(todo: set<Path>, got: Files, files: Files, path: Path, other: Path)
    requires path in todo && path in files && Reachable(files, path) && !Waits(todo, other)
    ensures other != path && View(AfterRead(todo, got, files, path).got, other) == View(got, other)
  {
    LookedAtWaits(todo, path);
    assert forall i | 0 < i <= |other| :: other[..i] != path;
  }

  /** What lies in no child of a directory, or under something else, is not there. */
  lemma MissingIsAbsent(files: Files, dir: Path, path: Path)
    requires |dir| < |path| && path[..|dir|] == dir
    requires dir == [] || dir in files
    requires dir == [] || files[dir].Dir? ==> path[..|dir| + 1] !in Children(files, dir)
    ensures View(files, path) == None
  {
    assert path[..|dir| + 1][..|dir|] == dir;
    assert |path| == |dir| + 1 ==> path[..|dir| + 1] == path;
  }

  lemma UnlistedIsAbsent(files: Files, path: Path)
    requires !Waits(Children(files, []), path)
    ensures View(files, path) == None
  {
    if path != [] {
      assert path[..0] == [] && path[..1] !in Children(files, []);
      MissingIsAbsent(files, [], path);
    }
  }

  /** A path stops waiting when it is looked at, or when it is seen not to be there: the archive has what it was at that
      instant. */
  lemma LookedAt(todo: set<Path>, got: Files, files: Files, path: Path, other: Path)
    requires Sane(todo, got) && path in todo && path in files && Reachable(files, path)
    requires Waits(todo, other) && !Waits(AfterRead(todo, got, files, path).todo, other)
    ensures View(AfterRead(todo, got, files, path).got, other) == View(files, other)
  {
    var next := AfterRead(todo, got, files, path);
    var i :| 0 < i <= |other| && other[..i] in todo;
    assert other[..i] !in next.todo && other[..i] == path;
    LookedAtWaits(todo, path);
    if i == |other| {
      assert other == path && Reachable(got, path);
      assert forall j | 0 < j < |path| :: path[..j] != path;
    } else {
      assert other !in next.got;
      MissingIsAbsent(files, path, other);
    }
  }

  /** What lay above a path that waits is in the archive, so it does not wait itself. */
  lemma AboveIsPassed(todo: set<Path>, got: Files, path: Path, i: nat)
    requires Sane(todo, got) && path in todo && 0 < i < |path|
    ensures path[..i] !in todo
  {
    assert path[..i] in got && !Waits(todo, path[..i]);
    assert path[..i][..i] == path[..i];
  }

  lemma LookedAtIsPassed(todo: set<Path>, got: Files, files: Files, path: Path)
    requires Sane(todo, got) && path in todo && path in files && Reachable(files, path)
    ensures !Waits(AfterRead(todo, got, files, path).todo, path)
  {
    forall i | 0 < i <= |path| ensures path[..i] !in AfterRead(todo, got, files, path).todo {
      if i < |path| {
        AboveIsPassed(todo, got, path, i);
      } else {
        assert path[..i] == path;
      }
    }
  }

  lemma EntryIsSane(todo: set<Path>, got: Files, files: Files, path: Path, other: Path)
    requires Sane(todo, got) && path in todo && path in files && Reachable(files, path)
    requires other in AfterRead(todo, got, files, path).got
    ensures var next := AfterRead(todo, got, files, path);
            !Waits(next.todo, other) && View(next.got, other) == Some(next.got[other])
  {
    var next := AfterRead(todo, got, files, path);
    LookedAtWaits(todo, path);
    if other == path {
      assert path !in got && Reachable(got, path);
      assert forall j | 0 < j < |path| :: path[..j] != path;
      LookedAtIsPassed(todo, got, files, path);
    } else {
      PassedStays(todo, got, files, path, other);
      if Waits(next.todo, other) {
        StillWaits(todo, got, files, path, other);
      }
    }
  }

  lemma ListedIsSane(todo: set<Path>, got: Files, files: Files, path: Path, other: Path)
    requires Sane(todo, got) && path in todo && path in files && Reachable(files, path)
    requires other in AfterRead(todo, got, files, path).todo
    ensures Reachable(AfterRead(todo, got, files, path).got, other)
  {
    var next := AfterRead(todo, got, files, path);
    LookedAtWaits(todo, path);
    assert path !in got;
    if other !in todo {
      forall i | 0 < i < |other| ensures other[..i] in next.got && next.got[other[..i]].Dir? {
        assert other[..i] == if i < |path| then path[..i] else path;
      }
    }
  }

  lemma StaysSane(todo: set<Path>, got: Files, files: Files, path: Path)
    requires Sane(todo, got) && path in todo && path in files && Reachable(files, path)
    ensures var next := AfterRead(todo, got, files, path); Sane(next.todo, next.got)
  {
    var next := AfterRead(todo, got, files, path);
    forall other | other in next.todo ensures Reachable(next.got, other) {
      ListedIsSane(todo, got, files, path, other);
    }
    forall other | other in next.got
      ensures !Waits(next.todo, other) && View(next.got, other) == Some(next.got[other])
    {
      EntryIsSane(todo, got, files, path, other);
    }
  }

  // ---------------------------------------------------------------- (i) every entry is the source's of some instant

  /** A path waits up to one instant and not after it; one whose top was not listed counts as looked at, and absent, at
      the instant of that listing. */
  ghost predicate SeenAt(h: History, lo: nat, k: nat, path: Path, at: nat)
    requires Window(h, lo, k)
  {
    && lo <= at < k
    && (forall j | lo < j <= at :: Waits(h.stages[j].todo, path))
    && (forall j | at < j <= k :: !Waits(h.stages[j].todo, path))
  }

  /** What the archiver has of a path it has passed: the source's entry at that instant. */
  predicate Got(h: History, k: nat, path: Path, at: nat)
    requires at < k < |h.stages| == |h.files| && h.stages[k].Reading?
  {
    View(h.stages[k].got, path) == View(h.files[at], path) && h.files[at + 1] == h.files[at]
  }

  lemma {:induction false} AlwaysSane(h: History, lo: nat, k: nat)
    requires Window(h, lo, k)
    ensures Sane(h.stages[k].todo, h.stages[k].got)
    decreases k
  {
    if k > lo + 1 {
      AlwaysSane(h, lo, k - 1);
      assert Advances(h, k - 1);
      var s := h.stages[k - 1];
      if h.stages[k] != s {
        var path :| ReadsPath(s, h.stages[k], h.files[k - 1], path);
        StaysSane(s.todo, s.got, h.files[k - 1], path);
      }
    }
  }

  /** One step of the archiver at work, for one path. */
  lemma SeenStep(h: History, k: nat, path: Path)
    requires k + 1 < |h.stages| == |h.files| && h.stages[k].Reading? && h.stages[k + 1].Reading? && Advances(h, k)
    requires Sane(h.stages[k].todo, h.stages[k].got)
    ensures Waits(h.stages[k + 1].todo, path) ==> Waits(h.stages[k].todo, path)
    ensures !Waits(h.stages[k].todo, path) ==> View(h.stages[k + 1].got, path) == View(h.stages[k].got, path)
    ensures Waits(h.stages[k].todo, path) && !Waits(h.stages[k + 1].todo, path) ==> Got(h, k + 1, path, k)
  {
    var s, next, files := h.stages[k], h.stages[k + 1], h.files[k];
    if next != s {
      var read :| ReadsPath(s, next, files, read);
      if Waits(next.todo, path) {
        StillWaits(s.todo, s.got, files, read, path);
      } else if Waits(s.todo, path) {
        LookedAt(s.todo, s.got, files, read, path);
      } else {
        PassedStays(s.todo, s.got, files, read, path);
      }
    }
  }

  lemma {:induction false} Waiting(h: History, lo: nat, k: nat, path: Path)
    requires Window(h, lo, k) && Waits(h.stages[k].todo, path)
    ensures forall j | lo < j <= k :: Waits(h.stages[j].todo, path)
    decreases k
  {
    if k > lo + 1 {
      AlwaysSane(h, lo, k - 1);
      SeenStep(h, k - 1, path);
      Waiting(h, lo, k - 1, path);
    }
  }

  lemma {:induction false} Seen(h: History, lo: nat, k: nat, path: Path) returns (at: nat)
    requires Window(h, lo, k) && !Waits(h.stages[k].todo, path)
    ensures SeenAt(h, lo, k, path, at) && Got(h, k, path, at)
    decreases k
  {
    if k == lo + 1 {
      at := lo;
      UnlistedIsAbsent(h.files[lo], path);
    } else {
      AlwaysSane(h, lo, k - 1);
      SeenStep(h, k - 1, path);
      if Waits(h.stages[k - 1].todo, path) {
        at := k - 1;
        Waiting(h, lo, k - 1, path);
      } else {
        at := Seen(h, lo, k - 1, path);
      }
    }
  }

  /** Every path, at whatever depth, has in the archive what it had in the source at one instant of the reading, its
      own; and nothing the archive holds is out of reach. */
  lemma EntryIsOfAnInstant(h: History, lo: nat, hi: nat, path: Path) returns (at: nat)
    requires ReadAll(h, lo, hi)
    ensures SeenAt(h, lo, hi, path, at) && h.files[at + 1] == h.files[at]
    ensures View(h.stages[hi].got, path) == View(h.files[at], path)
    ensures path in h.stages[hi].got ==> View(h.stages[hi].got, path) == Some(h.stages[hi].got[path])
  {
    AlwaysSane(h, lo, hi);
    at := Seen(h, lo, hi, path);
  }

  // ---------------------------------------------------------------- (ii) all entries of the same instant

  predicate Changes(files: seq<Files>, k: nat, path: Path)
    requires k + 1 < |files|
  {
    View(files[k], path) != View(files[k + 1], path)
  }

  /** After instant k a path changes that the archiver has passed: one it has looked at, or one missing from a directory
      it has listed. */
  predicate Misses(h: History, k: nat, path: Path)
    requires k + 1 < |h.files| == |h.stages| && h.stages[k].Reading?
  {
    Changes(h.files, k, path) && !Waits(h.stages[k].todo, path)
  }

  /** After instant k a path changes that the archiver has yet to come to. */
  predicate Catches(h: History, k: nat, path: Path)
    requires k + 1 < |h.files| == |h.stages| && h.stages[k].Reading?
  {
    Changes(h.files, k, path) && Waits(h.stages[k].todo, path)
  }

  ghost predicate Late(h: History, lo: nat, hi: nat, k: nat)
    requires ReadAll(h, lo, hi)
  {
    lo < k < hi && exists path :: Misses(h, k, path)
  }

  ghost predicate Early(h: History, lo: nat, hi: nat, k: nat)
    requires ReadAll(h, lo, hi)
  {
    lo < k < hi && exists path :: Catches(h, k, path)
  }

  ghost predicate TornAt(h: History, lo: nat, hi: nat, k: nat, l: nat)
    requires ReadAll(h, lo, hi)
  {
    k <= l && Late(h, lo, hi, k) && Early(h, lo, hi, l)
  }

  /** Between the first listing and the last look, a change the archive misses comes before one it has. */
  ghost predicate Torn(h: History, lo: nat, hi: nat)
    requires ReadAll(h, lo, hi)
  {
    exists k: nat, l: nat :: TornAt(h, lo, hi, k, l)
  }

  /** The archive is what the filestore was at instant m. */
  ghost predicate IsInstant(files: seq<Files>, archive: Files, m: nat)
    requires m < |files|
  {
    forall path :: View(archive, path) == View(files[m], path)
  }

  /** If no step from i to k changes an entry, it is the same at both ends. */
  lemma {:induction false} Unchanged(files: seq<Files>, path: Path, i: nat, k: nat)
    requires i <= k < |files| && forall j | i <= j < k :: !Changes(files, j, path)
    ensures View(files[i], path) == View(files[k], path)
    decreases k
  {
    if i < k {
      assert !Changes(files, k - 1, path);
      Unchanged(files, path, i, k - 1);
    }
  }

  /** The first change that the archive misses, or else the last read. */
  lemma {:induction false} FirstLate(h: History, lo: nat, hi: nat, upto: nat) returns (m: nat)
    requires ReadAll(h, lo, hi) && lo < upto <= hi
    ensures lo < m <= upto && (m < upto ==> Late(h, lo, hi, m))
    ensures forall k | lo < k < m :: !Late(h, lo, hi, k)
    decreases upto
  {
    if upto == lo + 1 {
      m := upto;
    } else {
      m := FirstLate(h, lo, hi, upto - 1);
      if m == upto - 1 && !Late(h, lo, hi, m) {
        m := upto;
      }
    }
  }

  lemma UntornEntry(h: History, lo: nat, hi: nat, m: nat, path: Path)
    requires ReadAll(h, lo, hi) && !Torn(h, lo, hi) && lo < m <= hi && (m < hi ==> Late(h, lo, hi, m))
    requires forall k | lo < k < m :: !Late(h, lo, hi, k)
    ensures View(h.stages[hi].got, path) == View(h.files[m], path)
  {
    var at := EntryIsOfAnInstant(h, lo, hi, path);
    if at < m {
      forall j | at + 1 <= j < m ensures !Changes(h.files, j, path) {
        assert !Late(h, lo, hi, j) && !Misses(h, j, path);
      }
      Unchanged(h.files, path, at + 1, m);
    } else {
      forall j | m <= j < at ensures !Changes(h.files, j, path) {
        assert !TornAt(h, lo, hi, m, j) && !Catches(h, j, path);
      }
      Unchanged(h.files, path, m, at);
    }
  }

  /** Without a torn pair the archive is the filestore just before the first change that it misses. */
  lemma UntornIsOneInstant(h: History, lo: nat, hi: nat) returns (m: nat)
    requires ReadAll(h, lo, hi) && !Torn(h, lo, hi)
    ensures lo < m <= hi && IsInstant(h.files, h.stages[hi].got, m)
  {
    m := FirstLate(h, lo, hi, hi);
    forall path ensures View(h.stages[hi].got, path) == View(h.files[m], path) {
      UntornEntry(h, lo, hi, m, path);
    }
  }

  /** An entry that has changed by instant j is back at instant k to what it was at instant i. */
  predicate IsBack(files: seq<Files>, path: Path, i: nat, j: nat, k: nat)
    requires i <= j <= k < |files|
  {
    View(files[i], path) != View(files[j], path) && View(files[i], path) == View(files[k], path)
  }

  /** No entry goes back to what it was before. */
  ghost predicate NeverReturns(files: seq<Files>, from: nat, to: nat)
    requires to < |files|
  {
    forall path, i, j, k | from <= i <= j <= k <= to :: !IsBack(files, path, i, j, k)
  }

  lemma Returned(files: seq<Files>, from: nat, to: nat, path: Path, i: nat, j: nat, k: nat)
    requires to < |files| && NeverReturns(files, from, to) && from <= i <= j < k <= to && Changes(files, j, path)
    ensures View(files[i], path) != View(files[k], path)
  {
    assert !IsBack(files, path, i, j, k) && !IsBack(files, path, i, j + 1, k);
  }

  lemma LateIsNoInstantAfter(h: History, lo: nat, hi: nat, from: nat, to: nat, k: nat, m: nat)
    requires ReadAll(h, lo, hi) && Late(h, lo, hi, k)
    requires from <= lo && hi <= to < |h.files| && NeverReturns(h.files, from, to) && k < m <= to
    ensures !IsInstant(h.files, h.stages[hi].got, m)
  {
    var path :| Misses(h, k, path);
    var at := EntryIsOfAnInstant(h, lo, hi, path);
    assert at < k;
    Returned(h.files, from, to, path, at, k, m);
  }

  lemma EarlyIsNoInstantBefore(h: History, lo: nat, hi: nat, from: nat, to: nat, l: nat, m: nat)
    requires ReadAll(h, lo, hi) && Early(h, lo, hi, l)
    requires from <= lo && hi <= to < |h.files| && NeverReturns(h.files, from, to) && from <= m <= l
    ensures !IsInstant(h.files, h.stages[hi].got, m)
  {
    var path :| Catches(h, l, path);
    var at := EntryIsOfAnInstant(h, lo, hi, path);
    assert l < at;
    Returned(h.files, from, to, path, m, l, at);
  }

  lemma TornIsNoInstant(h: History, lo: nat, hi: nat, from: nat, to: nat, m: nat)
    requires ReadAll(h, lo, hi) && Torn(h, lo, hi)
    requires from <= lo && hi <= to < |h.files| && NeverReturns(h.files, from, to) && from <= m <= to
    ensures !IsInstant(h.files, h.stages[hi].got, m)
  {
    var k: nat, l: nat :| TornAt(h, lo, hi, k, l);
    if k < m {
      LateIsNoInstantAfter(h, lo, hi, from, to, k, m);
    } else {
      EarlyIsNoInstantBefore(h, lo, hi, from, to, l, m);
    }
  }

  /** The archive is the source's filestore of one instant exactly if no change it misses came before a change it has;
      in a stretch of the run, about the reading, in which no entry goes back to an earlier content. */
  lemma OneInstantIffUntorn(h: History, lo: nat, hi: nat, from: nat, to: nat)
    requires ReadAll(h, lo, hi) && from <= lo && hi <= to < |h.files| && NeverReturns(h.files, from, to)
    ensures (exists m: nat | from <= m <= to :: IsInstant(h.files, h.stages[hi].got, m)) <==> !Torn(h, lo, hi)
  {
    if Torn(h, lo, hi) {
      forall m: nat | from <= m <= to ensures !IsInstant(h.files, h.stages[hi].got, m) {
        TornIsNoInstant(h, lo, hi, from, to, m);
      }
    } else {
      var m := UntornIsOneInstant(h, lo, hi);
    }
  }
}
