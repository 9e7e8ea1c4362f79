/** allocate_vmid (vmid_lease.py) as the reads and writes it is made of, with any number of other allocators, adoptions
    and releases between any two of them. */
module VmidRace {
  import opened CloneSlot
  import opened VmidLease
  import opened Wrappers

  /** Where a call stands: live VMIDs listed; about to look at a VMID's row; about to ask for the intent of the job that
      released it; about to insert the row, or to swap it; or over. `Own` is the job's lease from before, `Raised` what
      comes of two of them. */
  datatype Pc =
    | Listed
    | At(v: nat)
    | Asking(v: nat, was: nat)
    | Inserting(v: nat)
    | Swapping(v: nat, was: nat)
    | Got(v: nat)
    | Own
    | Raised
    | Exhausted

  datatype Scan = Scan(job: nat, given: set<nat>, taken: set<nat>, pc: Pc)

  /** The lease rows of one cluster and the calls of its allocators. */
  datatype State = State(
    first: nat, last: nat, rows: map<nat, Lease>, intents: map<nat, Intent>, scans: map<nat, Scan>)

  function LiveIn(rows: map<nat, Lease>): set<nat> { set v | v in rows && Live(rows[v]) }

  function OwnedBy(rows: map<nat, Lease>, job: nat): set<nat> {
    set v | v in rows && Live(rows[v]) && rows[v].job == job
  }

  /** The call is made: what preflight saw occupied, and the VMIDs leased by now. */
  function Begin(s: State, pid: nat, job: nat, given: set<nat>): State {
    if pid in s.scans then s
    else s.(scans := s.scans[pid := Scan(job, given, given + LiveIn(s.rows), Listed)])
  }

  function Goes(s: State, pid: nat, pc: Pc): State
    requires pid in s.scans
  {
    s.(scans := s.scans[pid := s.scans[pid].(pc := pc)])
  }

  function Takes(s: State, pid: nat, v: nat): State
    requires pid in s.scans
  {
    Goes(s, pid, Got(v)).(rows := s.rows[v := Lease(s.scans[pid].job, Leased)])
  }

  /** One statement of the call. A lost unique constraint or compare-and-set goes on with the next VMID. */
  function Move(s: State, pid: nat): State {
    if pid !in s.scans then s
    else
      var scan := s.scans[pid];
      match scan.pc
      case Listed =>
        var owned := OwnedBy(s.rows, scan.job);
        Goes(s, pid, if owned == {} then At(s.first) else if |owned| == 1 then Own else Raised)
      case At(v) =>
        if v > s.last then Goes(s, pid, Exhausted)
        else if v in scan.taken then Goes(s, pid, At(v + 1))
        else if v !in s.rows then Goes(s, pid, Inserting(v))
        else if s.rows[v].state != Freed then Goes(s, pid, At(v + 1))
        else Goes(s, pid, Asking(v, s.rows[v].job))
      case Asking(v, was) => Goes(s, pid, if was in s.intents then At(v + 1) else Swapping(v, was))
      case Inserting(v) => if v in s.rows then Goes(s, pid, At(v + 1)) else Takes(s, pid, v)
      case Swapping(v, was) =>
        if v in s.rows && s.rows[v] == Lease(was, Freed) then Takes(s, pid, v) else Goes(s, pid, At(v + 1))
      case _ => s
  }

  /** adopt_existing_vmid, and what release, conflict, consumption and cleanup do to a row. */
  function Adopts(s: State, job: nat, v: nat, used: bool): State {
    if OwnedBy(s.rows, job) == {} && (v !in s.rows || s.rows[v].state == Freed)
    then s.(rows := s.rows[v := Lease(job, if used then Used else Leased)])
    else s
  }

  function Sets(s: State, v: nat, to: LeaseState): State {
    if v !in s.rows || to == Leased || (to == Used && s.rows[v].state != Leased) then s
    else s.(rows := s.rows[v := s.rows[v].(state := to)])
  }

  datatype Op =
    | DoBegin(pid: nat, job: nat, given: set<nat>)
    | DoMove(pid: nat)
    | DoAdopt(job: nat, v: nat, used: bool)
    | DoSet(v: nat, to: LeaseState)
    | DoIntent(job: nat, intent: Intent)

  function Step(s: State, op: Op): State {
    match op
    case DoBegin(pid, job, given) => Begin(s, pid, job, given)
    case DoMove(pid) => Move(s, pid)
    case DoAdopt(job, v, used) => Adopts(s, job, v, used)
    case DoSet(v, to) => Sets(s, v, to)
    case DoIntent(job, intent) => if job in s.intents then s else s.(intents := s.intents[job := intent])
  }

  function RunFrom(s: State, ops: seq<Op>): State {
    if ops == [] then s else Step(RunFrom(s, ops[..|ops| - 1]), ops[|ops| - 1])
  }

  /** The state after k steps. */
  function After(s: State, ops: seq<Op>, k: nat): State
    requires k <= |ops|
  {
    RunFrom(s, ops[..k])
  }

  lemma NextStep(s: State, ops: seq<Op>, k: nat)
    requires k < |ops|
    ensures After(s, ops, k + 1) == Step(After(s, ops, k), ops[k])
  {
    assert ops[..k + 1][..k] == ops[..k];
  }

  // ---------------------------------------------------------------- every call ends

  function Left(s: State, v: nat): nat { if v <= s.last then s.last + 1 - v else 0 }

  predicate Over(s: State, pid: nat) {
    pid in s.scans && (var pc := s.scans[pid].pc; pc.Got? || pc.Own? || pc.Raised? || pc.Exhausted?)
  }

  function Measure(s: State, pid: nat): nat
    requires pid in s.scans
  {
    match s.scans[pid].pc
    case Listed => 3 * Left(s, s.first) + 2
    case At(v) => 3 * Left(s, v) + 1
    case Asking(v, was) => 3 * Left(s, v)
    case Inserting(v) => 3 * Left(s, v)
    case Swapping(v, was) => if Left(s, v) == 0 then 0 else 3 * Left(s, v) - 1
    case _ => 0
  }

  /** A row is tested within the range only. */
  predicate InRange(s: State, pid: nat) {
    pid in s.scans && (var pc := s.scans[pid].pc; pc.Asking? || pc.Inserting? || pc.Swapping? ==>
      s.first <= pc.v <= s.last && pc.v !in s.scans[pid].taken)
    && (s.scans[pid].pc.At? ==> s.first <= s.scans[pid].pc.v)
  }

  lemma MeasureStep(s: State, op: Op, pid: nat)
    requires InRange(s, pid)
    ensures InRange(Step(s, op), pid)
    ensures op == DoMove(pid) && !Over(s, pid) ==> Measure(Step(s, op), pid) < Measure(s, pid)
    ensures op != DoMove(pid) || Over(s, pid) ==> Measure(Step(s, op), pid) == Measure(s, pid)
    ensures Over(s, pid) ==> Over(Step(s, op), pid)
  {
  }

  function Moves(ops: seq<Op>, pid: nat): nat {
    if ops == [] then 0 else Moves(ops[..|ops| - 1], pid) + if ops[|ops| - 1] == DoMove(pid) then 1 else 0
  }

  /** Whatever the others do in between, a call is over after three steps of its own for each VMID of the range
      and two more. */
  lemma {:induction false} EveryScanEnds(s: State, ops: seq<Op>, pid: nat)
    requires InRange(s, pid)
    ensures InRange(RunFrom(s, ops), pid)
    ensures Over(RunFrom(s, ops), pid) || Measure(RunFrom(s, ops), pid) + Moves(ops, pid) <= Measure(s, pid)
    ensures Moves(ops, pid) >= Measure(s, pid) ==> Over(RunFrom(s, ops), pid)
    ensures s.scans[pid].pc == Listed ==> Measure(s, pid) == 3 * Left(s, s.first) + 2
  {
    if ops != [] {
      EveryScanEnds(s, ops[..|ops| - 1], pid);
      MeasureStep(RunFrom(s, ops[..|ops| - 1]), ops[|ops| - 1], pid);
    }
    var now := RunFrom(s, ops);
    assert Measure(now, pid) == 0 ==> Over(now, pid);
  }

  // ---------------------------------------------------------------- who holds a VMID

  /** This step is the write that gives a call its VMID. */
  predicate Wins(s: State, op: Op, v: nat) {
    && op.DoMove? && op.pid in s.scans && !Over(s, op.pid) && Step(s, op).scans[op.pid].pc == Got(v)
  }

  predicate IsFree(rows: map<nat, Lease>, v: nat) { v in rows && rows[v].state == Freed }

  lemma WinnerHolds(s: State, op: Op, v: nat)
    requires Wins(s, op, v) && InRange(s, op.pid)
    ensures v !in s.rows || IsFree(s.rows, v)
    ensures Step(s, op).rows == s.rows[v := Lease(s.scans[op.pid].job, Leased)]
    ensures s.first <= v <= s.last && v !in s.scans[op.pid].taken
  {
  }

  /** A row passes to another job only once it has been released, and is never removed. */
  lemma HeldStep(s: State, op: Op, v: nat)
    requires v in s.rows
    ensures v in Step(s, op).rows
    ensures !IsFree(s.rows, v) ==> Step(s, op).rows[v].job == s.rows[v].job
  {
  }

  lemma {:induction false} HeldUntilReleased(s: State, ops: seq<Op>, i: nat, k: nat, v: nat)
    requires i <= k <= |ops| && v in After(s, ops, i).rows
    requires forall j | i <= j < k :: !IsFree(After(s, ops, j).rows, v)
    ensures v in After(s, ops, k).rows && After(s, ops, k).rows[v].job == After(s, ops, i).rows[v].job
    decreases k
  {
    if i < k {
      HeldUntilReleased(s, ops, i, k - 1, v);
      NextStep(s, ops, k - 1);
      HeldStep(After(s, ops, k - 1), ops[k - 1], v);
    }
  }

  /** The VMID a call was given stays its job's, and is given to no other call, as long as its row is not released. */
  lemma GivenToOne(s: State, ops: seq<Op>, i: nat, k: nat, v: nat)
    requires i < k < |ops| && Wins(After(s, ops, i), ops[i], v) && InRange(After(s, ops, i), ops[i].pid)
    requires forall j | i < j <= k :: !IsFree(After(s, ops, j).rows, v)
    ensures v in After(s, ops, k).rows && After(s, ops, k).rows[v].job == After(s, ops, i).scans[ops[i].pid].job
    ensures ops[k].DoMove? && InRange(After(s, ops, k), ops[k].pid) ==> !Wins(After(s, ops, k), ops[k], v)
  {
    NextStep(s, ops, i);
    WinnerHolds(After(s, ops, i), ops[i], v);
    HeldUntilReleased(s, ops, i + 1, k, v);
    if ops[k].DoMove? && InRange(After(s, ops, k), ops[k].pid) && Wins(After(s, ops, k), ops[k], v) {
      WinnerHolds(After(s, ops, k), ops[k], v);
      assert false;
    }
  }

  // ---------------------------------------------------------------- a VMID is passed over for a reason

  /** At some instant from lo to k the VMID could not be given out. */
  ghost predicate BlockedIn(s: State, ops: seq<Op>, lo: nat, k: nat, v: nat)
    requires k <= |ops|
  {
    exists j :: lo <= j <= k && !Takeable(After(s, ops, j).rows, After(s, ops, j).intents, v)
  }

  /** The VMID a call stands at. */
  function Reached(s: State, pid: nat): nat
    requires pid in s.scans
  {
    match s.scans[pid].pc
    case At(v) => v
    case Asking(v, was) => v
    case Inserting(v) => v
    case Swapping(v, was) => v
    case Got(v) => v
    case Exhausted => s.last + 1
    case _ => s.first
  }

  ghost predicate Begun(s: State, ops: seq<Op>, pid: nat, lo: nat) {
    lo < |ops| && ops[lo].DoBegin? && ops[lo].pid == pid && pid !in After(s, ops, lo).scans
  }

  /** What a call under way has found out. */
  ghost predicate Known(s: State, ops: seq<Op>, pid: nat, lo: nat, k: nat)
    requires Begun(s, ops, pid, lo) && lo < k <= |ops|
  {
    var now := After(s, ops, k);
    && now.first == s.first && now.last == s.last && InRange(now, pid)
    && (var scan := now.scans[pid];
        && scan.job == ops[lo].job && scan.given == ops[lo].given
        && scan.taken == scan.given + LiveIn(After(s, ops, lo).rows)
        && (forall u: nat | s.first <= u < Reached(now, pid) && u <= s.last ::
              u in scan.given || BlockedIn(s, ops, lo, k, u))
        && (scan.pc.Asking? || scan.pc.Swapping? ==>
              BlockedIn(s, ops, lo, k, scan.pc.v)
              || (scan.pc.v in now.rows && now.rows[scan.pc.v] == Lease(scan.pc.was, Freed)))
        && (scan.pc.Inserting? ==> BlockedIn(s, ops, lo, k, scan.pc.v) || scan.pc.v !in now.rows))
  }

  lemma BlockedLater(s: State, ops: seq<Op>, lo: nat, k: nat, v: nat)
    requires k < |ops| && BlockedIn(s, ops, lo, k, v)
    ensures BlockedIn(s, ops, lo, k + 1, v)
  {
    var j :| lo <= j <= k && !Takeable(After(s, ops, j).rows, After(s, ops, j).intents, v);
  }

  lemma BlockedNow(s: State, ops: seq<Op>, lo: nat, k: nat, v: nat)
    requires lo <= k <= |ops| && !Takeable(After(s, ops, k).rows, After(s, ops, k).intents, v)
    ensures BlockedIn(s, ops, lo, k, v)
  {
  }

  /** A row that is absent or released and does not stay so cannot be given out then. */
  lemma RowChange(s: State, op: Op, v: nat)
    requires v !in s.rows || IsFree(s.rows, v)
    ensures || (v in s.rows && v in Step(s, op).rows && Step(s, op).rows[v] == s.rows[v])
            || (v !in s.rows && v !in Step(s, op).rows)
            || !Takeable(Step(s, op).rows, Step(s, op).intents, v)
  {
  }

  lemma ScanStep(s: State, op: Op, pid: nat)
    requires pid in s.scans
    ensures pid in Step(s, op).scans && Step(s, op).first == s.first && Step(s, op).last == s.last
    ensures var old1, scan := s.scans[pid], Step(s, op).scans[pid];
            && scan.job == old1.job && scan.given == old1.given && scan.taken == old1.taken
            && (op != DoMove(pid) ==> scan == old1)
  {
  }

  lemma KnownFirst(s: State, ops: seq<Op>, pid: nat, lo: nat)
    requires Begun(s, ops, pid, lo) && After(s, ops, lo).first == s.first && After(s, ops, lo).last == s.last
    ensures Known(s, ops, pid, lo, lo + 1)
  {
    NextStep(s, ops, lo);
  }

  /** All that was found out stays so; what the call is about to write it may find changed, but then for a reason. */
  lemma KnownStays(s: State, ops: seq<Op>, pid: nat, lo: nat, k: nat)
    requires Begun(s, ops, pid, lo) && lo < k < |ops| && Known(s, ops, pid, lo, k)
    requires ops[k] != DoMove(pid)
    ensures Known(s, ops, pid, lo, k + 1)
  {
    var now, next := After(s, ops, k), After(s, ops, k + 1);
    NextStep(s, ops, k);
    ScanStep(now, ops[k], pid);
    forall u | BlockedIn(s, ops, lo, k, u) ensures BlockedIn(s, ops, lo, k + 1, u) {
      BlockedLater(s, ops, lo, k, u);
    }
    var pc := now.scans[pid].pc;
    if (pc.Asking? || pc.Swapping? || pc.Inserting?) && !BlockedIn(s, ops, lo, k, pc.v) {
      RowChange(now, ops[k], pc.v);
      if !Takeable(next.rows, next.intents, pc.v) {
        BlockedNow(s, ops, lo, k + 1, pc.v);
      }
    }
  }

  /** The VMID a call goes past. */
  lemma PassedOver(s: State, ops: seq<Op>, pid: nat, lo: nat, k: nat)
    requires Begun(s, ops, pid, lo) && lo < k < |ops| && Known(s, ops, pid, lo, k) && ops[k] == DoMove(pid)
    requires var now := After(s, ops, k);
             Reached(now, pid) <= s.last && !now.scans[pid].pc.Listed?
             && Step(now, ops[k]).scans[pid].pc == At(Reached(now, pid) + 1)
    ensures var u := Reached(After(s, ops, k), pid);
            u in ops[lo].given || BlockedIn(s, ops, lo, k, u)
  {
    var now := After(s, ops, k);
    var scan := now.scans[pid];
    var u := Reached(now, pid);
    if u in scan.taken && u !in scan.given {
      BlockedEarlier(s, ops, lo, k, u);
    } else if u !in scan.taken && !BlockedIn(s, ops, lo, k, u) {
      BlockedByRow(now, pid, u);
      BlockedNow(s, ops, lo, k, u);
    }
  }

  lemma BlockedEarlier(s: State, ops: seq<Op>, lo: nat, k: nat, u: nat)
    requires lo <= k <= |ops| && u in LiveIn(After(s, ops, lo).rows)
    ensures BlockedIn(s, ops, lo, k, u)
  {
    assert !Takeable(After(s, ops, lo).rows, After(s, ops, lo).intents, u);
  }

  lemma BlockedByRow(now: State, pid: nat, u: nat)
    requires pid in now.scans && u !in now.scans[pid].taken && Reached(now, pid) == u <= now.last
    requires var pc := now.scans[pid].pc;
             && !pc.Listed? && Step(now, DoMove(pid)).scans[pid].pc == At(u + 1)
             && (pc.Asking? || pc.Swapping? ==> u in now.rows && now.rows[u] == Lease(pc.was, Freed))
             && (pc.Inserting? ==> u !in now.rows)
    ensures !Takeable(now.rows, now.intents, u)
  {
  }

  lemma KnownMoves(s: State, ops: seq<Op>, pid: nat, lo: nat, k: nat)
    requires Begun(s, ops, pid, lo) && lo < k < |ops| && Known(s, ops, pid, lo, k) && ops[k] == DoMove(pid)
    ensures Known(s, ops, pid, lo, k + 1)
  {
    var now, next := After(s, ops, k), After(s, ops, k + 1);
    NextStep(s, ops, k);
    ScanStep(now, ops[k], pid);
    MeasureStep(now, ops[k], pid);
    forall u | BlockedIn(s, ops, lo, k, u) ensures BlockedIn(s, ops, lo, k + 1, u) {
      BlockedLater(s, ops, lo, k, u);
    }
    if Reached(next, pid) > Reached(now, pid) {
      if Reached(now, pid) <= s.last {
        PassedOver(s, ops, pid, lo, k);
      }
    }
  }

  lemma {:induction false} WhatIsKnown(s: State, ops: seq<Op>, pid: nat, lo: nat, k: nat)
    requires Begun(s, ops, pid, lo) && lo < k <= |ops|
    ensures Known(s, ops, pid, lo, k)
    decreases k
  {
    if k == lo + 1 {
      RangeIsFixed(s, ops, lo);
      KnownFirst(s, ops, pid, lo);
    } else {
      WhatIsKnown(s, ops, pid, lo, k - 1);
      if ops[k - 1] == DoMove(pid) {
        KnownMoves(s, ops, pid, lo, k - 1);
      } else {
        KnownStays(s, ops, pid, lo, k - 1);
      }
    }
  }

  lemma {:induction false} RangeIsFixed(s: State, ops: seq<Op>, k: nat)
    requires k <= |ops|
    ensures After(s, ops, k).first == s.first && After(s, ops, k).last == s.last
    decreases k
  {
    if k > 0 {
      RangeIsFixed(s, ops, k - 1);
      NextStep(s, ops, k - 1);
    }
  }

  /** A call gets a VMID only if every lower one was given as occupied or, at some instant of the call, could not be
      given out; and fails only if that is so for the whole range. */
  lemma LowestOrExhausted(s: State, ops: seq<Op>, pid: nat, lo: nat, k: nat, u: nat)
    requires Begun(s, ops, pid, lo) && lo < k <= |ops| && s.first <= u <= s.last
    ensures pid in After(s, ops, k).scans
    ensures var pc := After(s, ops, k).scans[pid].pc;
            pc == Exhausted || (pc.Got? && u < pc.v) ==> u in ops[lo].given || BlockedIn(s, ops, lo, k, u)
  {
    WhatIsKnown(s, ops, pid, lo, k);
  }

  // ---------------------------------------------------------------- one lease per job

  ghost predicate OneEach(rows: map<nat, Lease>) {
    forall v, w | v in rows && w in rows && v != w && Live(rows[v]) && Live(rows[w]) :: rows[v].job != rows[w].job
  }

  /** The write that gives a call its VMID keeps this exactly if the job has no lease by then; what the call has read of
      that is old. */
  lemma WinKeepsOneEachIff(s: State, op: Op, v: nat)
    requires OneEach(s.rows) && Wins(s, op, v) && InRange(s, op.pid)
    ensures OneEach(Step(s, op).rows) <==> OwnedBy(s.rows, s.scans[op.pid].job) == {}
  {
    WinnerHolds(s, op, v);
    var job, after := s.scans[op.pid].job, Step(s, op).rows;
    if OwnedBy(s.rows, job) != {} {
      var w :| w in OwnedBy(s.rows, job);
      assert w != v && after[w].job == after[v].job;
    } else {
      forall w | w in after && w != v && Live(after[w]) ensures after[w].job != job {
        assert w !in OwnedBy(s.rows, job);
      }
    }
  }

  predicate UnderWay(s: State, job: nat) {
    exists pid | pid in s.scans :: s.scans[pid].job == job && !Over(s, pid)
  }

  /** A job's VMID is asked for by one call at a time. */
  predicate Alone(s: State, op: Op) {
    (op.DoBegin? && op.pid !in s.scans) || op.DoAdopt? ==> !UnderWay(s, op.job)
  }

  ghost predicate OneByOne(s: State, ops: seq<Op>) {
    ops != [] ==>
      OneByOne(s, ops[..|ops| - 1]) && Alone(RunFrom(s, ops[..|ops| - 1]), ops[|ops| - 1])
  }

  ghost predicate Orderly(s: State) {
    && OneEach(s.rows)
    && (forall p | p in s.scans && !Over(s, p) && !s.scans[p].pc.Listed? :: OwnedBy(s.rows, s.scans[p].job) == {})
    && (forall p, q | p in s.scans && q in s.scans && p != q && !Over(s, p) && !Over(s, q) ::
          s.scans[p].job != s.scans[q].job)
  }

  lemma NewLeaseKeepsOrder(rows: map<nat, Lease>, v: nat, lease: Lease, other: nat)
    requires v in rows ==> rows[v].state == Freed
    requires OneEach(rows) && OwnedBy(rows, lease.job) == {} && lease.state != Freed
    ensures OneEach(rows[v := lease])
    ensures other != lease.job ==> OwnedBy(rows[v := lease], other) == OwnedBy(rows, other)
  {
    forall w | w in rows && Live(rows[w]) ensures rows[w].job != lease.job {
      assert w !in OwnedBy(rows, lease.job);
    }
  }

  lemma SetKeepsOrder(s: State, v: nat, to: LeaseState)
    requires Orderly(s)
    ensures Orderly(Sets(s, v, to))
  {
    var after := Sets(s, v, to);
    forall job | OwnedBy(s.rows, job) == {} ensures OwnedBy(after.rows, job) == {} {
      forall w | w in after.rows && Live(after.rows[w]) ensures after.rows[w].job != job {
        assert w !in OwnedBy(s.rows, job);
      }
    }
  }

  lemma AdoptKeepsOrder(s: State, job: nat, v: nat, used: bool)
    requires Orderly(s) && !UnderWay(s, job)
    ensures Orderly(Adopts(s, job, v, used))
  {
    var after := Adopts(s, job, v, used);
    if after != s {
      forall other ensures OneEach(after.rows)
        ensures other != job ==> OwnedBy(after.rows, other) == OwnedBy(s.rows, other)
      {
        NewLeaseKeepsOrder(s.rows, v, Lease(job, if used then Used else Leased), other);
      }
    }
  }

  lemma TakeKeepsOrder(s: State, pid: nat, v: nat)
    requires Orderly(s) && pid in s.scans && !Over(s, pid) && !s.scans[pid].pc.Listed?
    requires v in s.rows ==> s.rows[v].state == Freed
    ensures Orderly(Takes(s, pid, v))
  {
    var after, job := Takes(s, pid, v), s.scans[pid].job;
    forall other ensures OneEach(after.rows)
      ensures other != job ==> OwnedBy(after.rows, other) == OwnedBy(s.rows, other)
    {
      NewLeaseKeepsOrder(s.rows, v, Lease(job, Leased), other);
    }
  }

  lemma GoesKeepsOrder(s: State, pid: nat, pc: Pc)
    requires Orderly(s) && pid in s.scans && !Over(s, pid) && (pc.Listed? ==> s.scans[pid].pc.Listed?)
    requires s.scans[pid].pc.Listed? && pc.At? ==> OwnedBy(s.rows, s.scans[pid].job) == {}
    requires s.scans[pid].pc.Listed? ==> pc.At? || pc.Own? || pc.Raised?
    ensures Orderly(Goes(s, pid, pc))
  {
  }

  lemma MoveKeepsOrder(s: State, pid: nat)
    requires Orderly(s)
    ensures Orderly(Move(s, pid))
  {
    if pid in s.scans && !Over(s, pid) {
      var after, pc := Move(s, pid), s.scans[pid].pc;
      if after.scans[pid].pc.Got? {
        TakeKeepsOrder(s, pid, pc.v);
      } else {
        GoesKeepsOrder(s, pid, after.scans[pid].pc);
      }
    }
  }

  /** As long as no job's VMID is asked for twice at a time, no job ever has two live leases. */
  lemma {:induction false} OneLeasePerJobIfOneByOne(s: State, ops: seq<Op>)
    requires Orderly(s) && OneByOne(s, ops)
    ensures Orderly(RunFrom(s, ops)) && OneEach(RunFrom(s, ops).rows)
  {
    if ops != [] {
      var before, op := RunFrom(s, ops[..|ops| - 1]), ops[|ops| - 1];
      OneLeasePerJobIfOneByOne(s, ops[..|ops| - 1]);
      match op
      case DoBegin(pid, job, given) =>
      case DoMove(pid) => MoveKeepsOrder(before, pid);
      case DoAdopt(job, v, used) => AdoptKeepsOrder(before, job, v, used);
      case DoSet(v, to) => SetKeepsOrder(before, v, to);
      case DoIntent(job, intent) =>
    }
  }

  lemma TwoMore(s: State, ops: seq<Op>, a: Op, b: Op)
    ensures RunFrom(s, ops + [a, b]) == Step(Step(RunFrom(s, ops), a), b)
  {
    assert (ops + [a, b])[..|ops| + 1] == ops + [a];
    assert (ops + [a])[..|ops|] == ops;
  }

  /** The state of the two calls for one job below. */
  function Pair(first: nat, last: nat, rows: map<nat, Lease>, job: nat, one: Pc, two: Pc): State {
    State(first, last, rows, map[], map[0 := Scan(job, {}, {}, one), 1 := Scan(job, {}, {}, two)])
  }

  lemma BothTest(first: nat, last: nat, job: nat)
    requires first < last
    ensures var s := State(first, last, map[], map[], map[]);
            Step(Step(s, DoBegin(0, job, {})), DoBegin(1, job, {})) == Pair(first, last, map[], job, Listed, Listed)
    ensures Step(Step(Pair(first, last, map[], job, Listed, Listed), DoMove(0)), DoMove(1))
            == Pair(first, last, map[], job, At(first), At(first))
    ensures Step(Step(Pair(first, last, map[], job, At(first), At(first)), DoMove(0)), DoMove(1))
            == Pair(first, last, map[], job, Inserting(first), Inserting(first))
  {
    var none: map<nat, Lease> := map[];
    assert OwnedBy(none, job) == {} && {} + LiveIn(none) == {};
    var one := Step(State(first, last, none, map[], map[]), DoBegin(0, job, {}));
    assert one.scans == map[0 := Scan(job, {}, {}, Listed)];
    assert Step(Pair(first, last, none, job, Listed, Listed), DoMove(0))
        == Pair(first, last, none, job, At(first), Listed);
    assert Step(Pair(first, last, none, job, At(first), At(first)), DoMove(0))
        == Pair(first, last, none, job, Inserting(first), At(first));
  }

  lemma OneLoses(first: nat, last: nat, job: nat)
    requires first < last
    ensures var rows := map[first := Lease(job, Leased)];
            && Step(Step(Pair(first, last, map[], job, Inserting(first), Inserting(first)), DoMove(0)), DoMove(1))
               == Pair(first, last, rows, job, Got(first), At(first + 1))
            && Step(Step(Pair(first, last, rows, job, Got(first), At(first + 1)), DoMove(1)), DoMove(1))
               == Pair(first, last, rows[first + 1 := Lease(job, Leased)], job, Got(first), Got(first + 1))
  {
  }

  lemma NextRaises(s: State, job: nat, v: nat, w: nat)
    requires OwnedBy(s.rows, job) == {v, w} && v != w && 2 !in s.scans
    ensures Step(Step(s, DoBegin(2, job, {})), DoMove(2))
            == s.(scans := s.scans[2 := Scan(job, {}, LiveIn(s.rows), Raised)])
  {
    assert {} + LiveIn(s.rows) == LiveIn(s.rows);
  }

  /** Otherwise one may: of two calls for one job, both of which find no lease, the one that loses the lowest VMID to
      the other goes on and takes the next. The job's next call then raises. */
  lemma TwoCallsTwoLeases(first: nat, last: nat, job: nat) returns (ops: seq<Op>)
    requires first < last
    ensures var done := RunFrom(State(first, last, map[], map[], map[]), ops);
            && done.rows == map[first := Lease(job, Leased), first + 1 := Lease(job, Leased)] && !OneEach(done.rows)
            && 2 in done.scans && done.scans[2].pc == Raised
  {
    var s := State(first, last, map[], map[], map[]);
    BothTest(first, last, job);
    OneLoses(first, last, job);
    ops := [];
    TwoMore(s, ops, DoBegin(0, job, {}), DoBegin(1, job, {}));
    ops := ops + [DoBegin(0, job, {}), DoBegin(1, job, {})];
    TwoMore(s, ops, DoMove(0), DoMove(1));
    ops := ops + [DoMove(0), DoMove(1)];
    TwoMore(s, ops, DoMove(0), DoMove(1));
    ops := ops + [DoMove(0), DoMove(1)];
    TwoMore(s, ops, DoMove(0), DoMove(1));
    ops := ops + [DoMove(0), DoMove(1)];
    TwoMore(s, ops, DoMove(1), DoMove(1));
    ops := ops + [DoMove(1), DoMove(1)];
    var rows := map[first := Lease(job, Leased), first + 1 := Lease(job, Leased)];
    var taken := RunFrom(s, ops);
    assert taken == Pair(first, last, rows, job, Got(first), Got(first + 1));
    assert rows[first].job == rows[first + 1].job && OwnedBy(rows, job) == {first, first + 1};
    NextRaises(taken, job, first, first + 1);
    TwoMore(s, ops, DoBegin(2, job, {}), DoMove(2));
    ops := ops + [DoBegin(2, job, {}), DoMove(2)];
  }
}
