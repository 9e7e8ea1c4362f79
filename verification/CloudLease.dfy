/** Claims, leases, retries and stale recovery of Helpers Cloud requests (cloud_provisioning_service.py,
    cloud_demo_clone_worker_service.py), for any number of workers of the three lanes. */
module CloudLease {
  import opened JobRuns
  import opened Wrappers

  /** The adapter of a request decides which claim query can see it. */
  datatype Lane = Presentation | DemoClone | LocalDocker

  /** `grant` is the claim named by claimed_by and lease_expires_at while the request is being provisioned; afterwards
      nothing reads these columns. `due` is next_attempt_at; `forced` counts the manual re-queues. */
  datatype Row = Row(
    lane: Lane, status: CloudState, attempts: nat, max: nat, due: Option<int>, grant: Option<nat>,
    template: bool, approved: bool, forced: nat)

  /** One successful claim, as its worker remembers it: until when the lease runs, and whether it has reported back. */
  datatype Grant = Grant(row: nat, lane: Lane, until: int, ended: bool)

  datatype State = State(rows: seq<Row>, grants: seq<Grant>, clock: int)

  const LEASE := 300
  const NEVER := 315360000  // ten years

  /** `max_attempts or 3`. */
  function Max(row: Row): nat { if row.max == 0 then 3 else row.max }

  predicate Claimable(row: Row, lane: Lane, now: int) {
    && row.status == CQueued && row.lane == lane && (row.due.None? || row.due.value <= now)
    && (lane != Presentation ==> row.template)
    && (lane == LocalDocker ==> row.approved)
  }

  /** ORDER BY id LIMIT 1. */
  function Pick(rows: seq<Row>, lane: Lane, now: int): (r: Option<nat>)
    ensures r.Some? ==> r.value < |rows| && Claimable(rows[r.value], lane, now)
                        && forall i | 0 <= i < r.value :: !Claimable(rows[i], lane, now)
    ensures r.None? ==> forall i | 0 <= i < |rows| :: !Claimable(rows[i], lane, now)
  {
    if rows == [] then None
    else
      var last := |rows| - 1;
      var earlier := Pick(rows[..last], lane, now);
      if earlier.Some? then earlier else if Claimable(rows[last], lane, now) then Some(last) else None
  }

  function Tick(s: State, now: int): State { s.(clock := if now > s.clock then now else s.clock) }

  /** The conditional UPDATE of the three claim functions. */
  function Claim(s: State, lane: Lane): State {
    var pick := Pick(s.rows, lane, s.clock);
    if pick.None? then s
    else
      var row := s.rows[pick.value];
      s.(rows := s.rows[pick.value := row.(status := CProvisioning, attempts := row.attempts + 1,
          grant := Some(|s.grants|))],
         grants := s.grants + [Grant(pick.value, lane, s.clock + LEASE, false)])
  }

  /** What a worker writes to the row it remembers claiming. No such write asks whether the claim is still the row's. */
  datatype Report = Done | Broken | TryAgain(backoff: nat) | Ineligible | DryRun

  function Reported(row: Row, report: Report, now: int): Row {
    match report
    case Done => row.(status := CReady, grant := None)
    case Broken => row.(status := CFailed, grant := None)
    case TryAgain(backoff) =>
      if AtLimit(row, report) then row  // reconciliation fails it once the lease has run out
      else row.(status := CQueued, grant := None, due := Some(now + backoff))
    case Ineligible => GivenBack(row).(due := Some(now + NEVER))
    case DryRun => GivenBack(row)
  }

  predicate AtLimit(row: Row, report: Report) { report.TryAgain? && row.attempts >= Max(row) }

  function GivenBack(row: Row): Row {
    row.(status := CQueued, grant := None, attempts := if row.attempts == 0 then 0 else row.attempts - 1)
  }

  function Write(s: State, g: nat, report: Report): State {
    if g >= |s.grants| || s.grants[g].ended || s.grants[g].row >= |s.rows| then s
    else
      var at := s.grants[g].row;
      s.(rows := s.rows[at := Reported(s.rows[at], report, s.clock)],
          grants := s.grants[g := s.grants[g].(ended := true)])
  }

  /** The claim the worker remembers is still the one in the row. */
  predicate Current(s: State, g: nat) {
    g < |s.grants| && s.grants[g].row < |s.rows| && s.rows[s.grants[g].row].grant == Some(g)
  }

  /** One row of reconcile_stale_cloud_jobs and of its demo-clone twin. */
  function Recovered(row: Row, grants: seq<Grant>, now: int): Row {
    if row.status != CProvisioning || row.grant.None? || row.grant.value >= |grants|
        || grants[row.grant.value].until >= now
    then row
    else if row.attempts < Max(row) then row.(status := CQueued, grant := None,
        due := Some(now + Backoff(row.attempts)))
    else row.(status := CFailed, grant := None)
  }

  function Backoff(attempts: nat): nat { if attempts == 0 then 10 else 2 * Backoff(attempts - 1) }

  function Reconcile(s: State): State {
    s.(rows := seq(|s.rows|, i requires 0 <= i < |s.rows| => Recovered(s.rows[i], s.grants, s.clock)))
  }

  /** retry_failed_cloud_job. */
  function Retry(s: State, at: nat): State {
    if at >= |s.rows| || s.rows[at].status != CFailed || s.rows[at].attempts >= Max(s.rows[at]) then s
    else s.(rows := s.rows[at := s.rows[at].(status := CQueued, grant := None, due := None)])
  }

  /** The manual provisioner (cloud_manual_uat_provisioner.py) turns a failed request of the Docker lane back to queued,
      however many attempts it has had ... */
  function Requeue(s: State, at: nat): State {
    if at >= |s.rows| || s.rows[at].status != CFailed || s.rows[at].lane != LocalDocker || !s.rows[at].approved then s
    else s.(rows := s.rows[at := s.rows[at].(status := CQueued, grant := None, forced := s.rows[at].forced + 1)])
  }

  /** ... and ends it as ready or failed without having claimed it. */
  function EndManually(s: State, at: nat, ok: bool): State {
    if at >= |s.rows| || s.rows[at].lane != LocalDocker then s
    else s.(rows := s.rows[at := s.rows[at].(status := if ok then CReady else CFailed, grant := None)])
  }

  datatype Op =
    | Pass(now: int)
    | Submit(row: Row)
    | DoClaim(lane: Lane)
    | DoWrite(g: nat, report: Report)
    | DoReconcile
    | DoRetry(at: nat)
    | DoRequeue(at: nat)
    | DoEndManually(at: nat, ok: bool)

  function Step(s: State, op: Op): State {
    match op
    case Pass(now) => Tick(s, now)
    case Submit(row) =>
      s.(rows := s.rows + [row.(status := CQueued, attempts := 0, grant := None, forced := 0)])
    case DoClaim(lane) => Claim(s, lane)
    case DoWrite(g, report) => Write(s, g, report)
    case DoReconcile => Reconcile(s)
    case DoRetry(at) => Retry(s, at)
    case DoRequeue(at) => Requeue(s, at)
    case DoEndManually(at, ok) => EndManually(s, at, ok)
  }

  function Run(ops: seq<Op>): State {
    if ops == [] then State([], [], 0) else Step(Run(ops[..|ops| - 1]), ops[|ops| - 1])
  }

  // ---------------------------------------------------------------- attempts and lanes, whatever the workers write

  predicate RowLimited(row: Row) {
    row.attempts <= Max(row) + row.forced && (row.status == CQueued ==> row.attempts < Max(row) + row.forced)
  }

  ghost predicate Limited(s: State) {
    && (forall i | 0 <= i < |s.rows| :: RowLimited(s.rows[i]))
    && (forall g | 0 <= g < |s.grants| ::
          s.grants[g].row < |s.rows| && s.rows[s.grants[g].row].lane == s.grants[g].lane)
  }

  lemma StepKeepsLimits(s: State, op: Op)
    requires Limited(s)
    ensures Limited(Step(s, op))
  {
    if op.DoWrite? {
      WriteKeepsLimits(s, op.g, op.report);
    }
  }

  lemma WriteKeepsLimits(s: State, g: nat, report: Report)
    requires Limited(s)
    ensures Limited(Write(s, g, report))
  {
  }

  /** In every run, writes of workers that lost their lease included: attempt_count passes the effective max_attempts by
      the number of manual re-queues at most, a queued request has an attempt left by that count, and each request was
      only ever claimed in its own lane. */
  lemma {:induction false} AttemptsAndLanes(ops: seq<Op>)
    ensures Limited(Run(ops))
  {
    if ops != [] {
      AttemptsAndLanes(ops[..|ops| - 1]);
      StepKeepsLimits(Run(ops[..|ops| - 1]), ops[|ops| - 1]);
    }
  }

  /** Nobody but the manual provisioner passes max_attempts. */
  lemma {:induction false} OnlyRequeuesPassTheLimit(ops: seq<Op>, i: nat)
    requires i < |Run(ops).rows| && forall k | 0 <= k < |ops| :: !ops[k].DoRequeue?
    ensures Run(ops).rows[i].forced == 0 && Run(ops).rows[i].attempts <= Max(Run(ops).rows[i])
  {
    AttemptsAndLanes(ops);
    if i < |Run(ops[..|ops| - 1]).rows| {
      OnlyRequeuesPassTheLimit(ops[..|ops| - 1], i);
    }
  }

  function Repeat(n: nat): seq<Op> {
    if n == 0 then [] else Repeat(n - 1) + [DoClaim(LocalDocker), DoWrite(n - 1, Broken), DoRequeue(0)]
  }

  /** And it passes any number: a request that fails every time and is re-queued every time is claimed as often. */
  lemma {:induction false} RequeueDefeatsTheLimit(row: Row, n: nat) returns (s: State)
    requires row.lane == LocalDocker && row.template && row.approved && row.due.None?
    ensures s == Run([Submit(row)] + Repeat(n)) && |s.rows| == 1 && s.clock == 0 && |s.grants| == n
    ensures s.rows[0] == row.(status := CQueued, attempts := n, grant := None, forced := n)
  {
    if n == 0 {
      assert [Submit(row)] + Repeat(0) == [Submit(row)];
      assert Run([Submit(row)][..0]) == State([], [], 0);
      s := Run([Submit(row)]);
    } else {
      var before := RequeueDefeatsTheLimit(row, n - 1);
      var ops := [Submit(row)] + Repeat(n - 1);
      var more := [DoClaim(LocalDocker), DoWrite(n - 1, Broken), DoRequeue(0)];
      assert [Submit(row)] + Repeat(n) == ops + more;
      ThreeMore(ops, more);
      OneMoreAttempt(before, row, n - 1);
      s := Run([Submit(row)] + Repeat(n));
    }
  }

  lemma OneMore(ops: seq<Op>, op: Op)
    ensures Run(ops + [op]) == Step(Run(ops), op)
  {
    assert (ops + [op])[..|ops|] == ops;
  }

  lemma ThreeMore(ops: seq<Op>, more: seq<Op>)
    requires |more| == 3
    ensures Run(ops + more) == Step(Step(Step(Run(ops), more[0]), more[1]), more[2])
  {
    OneMore(ops, more[0]);
    OneMore(ops + [more[0]], more[1]);
    OneMore(ops + [more[0]] + [more[1]], more[2]);
    assert ops + more == ops + [more[0]] + [more[1]] + [more[2]];
  }

  lemma OneMoreAttempt(s: State, row: Row, n: nat)
    requires row.lane == LocalDocker && row.template && row.approved && row.due.None? && s.clock == 0 && |s.grants| == n
    requires s.rows == [row.(status := CQueued, attempts := n, grant := None, forced := n)]
    ensures var after := Step(Step(Step(s, DoClaim(LocalDocker)), DoWrite(n, Broken)), DoRequeue(0));
            && after.rows == [row.(status := CQueued, attempts := n + 1, grant := None, forced := n + 1)]
            && |after.grants| == n + 1 && after.clock == 0
  {
    assert Pick(s.rows, LocalDocker, 0) == Some(0);
    var claimed := Step(s, DoClaim(LocalDocker));
    assert claimed.grants[n] == Grant(0, LocalDocker, LEASE, false);
    assert claimed.rows == [row.(status := CProvisioning, attempts := n + 1, grant := Some(n), forced := n)];
    var failed := Step(claimed, DoWrite(n, Broken));
    assert failed.rows == [row.(status := CFailed, attempts := n + 1, grant := None, forced := n)];
  }

  // ---------------------------------------------------------------- leases

  /** An open claim is the row's own, or its lease has run out. */
  predicate LeaseHeld(s: State, g: nat)
    requires g < |s.grants|
  {
    s.grants[g].ended || Current(s, g) || s.grants[g].until < s.clock
  }

  predicate NamesRow(grants: seq<Grant>, g: nat, row: nat) { g < |grants| && grants[g].row == row }

  ghost predicate Exclusive(s: State) {
    && (forall g | 0 <= g < |s.grants| :: s.grants[g].row < |s.rows| && LeaseHeld(s, g))
    && (forall i | 0 <= i < |s.rows| ::
          && (s.rows[i].grant.Some? ==> NamesRow(s.grants, s.rows[i].grant.value, i))
          && (s.rows[i].grant.Some? <==> s.rows[i].status == CProvisioning))
  }

  lemma ClaimKeepsExclusive(s: State, lane: Lane)
    requires Exclusive(s)
    ensures Exclusive(Claim(s, lane))
  {
    var after := Claim(s, lane);
    forall g | 0 <= g < |after.grants| ensures after.grants[g].row < |after.rows| && LeaseHeld(after, g) {
      if g < |s.grants| {
        assert LeaseHeld(s, g);
      }
    }
  }

  lemma ReconcileKeepsExclusive(s: State)
    requires Exclusive(s)
    ensures Exclusive(Reconcile(s))
  {
    forall g | 0 <= g < |s.grants| ensures LeaseHeld(Reconcile(s), g) {
      assert LeaseHeld(s, g);
    }
  }

  /** Nobody is at work under the claim in this row, if there is one. */
  predicate Unattended(s: State, at: nat)
    requires at < |s.rows|
  {
    var grant := s.rows[at].grant;
    grant.Some? && grant.value < |s.grants| ==> s.grants[grant.value].ended || s.grants[grant.value].until < s.clock
  }

  /** Exactly which writes are harmless: those that write nothing, and those to a row whose claim is the writer's, or
      nobody's, or that of a worker who has reported or whose lease has run out. */
  lemma WriteKeepsExclusiveIff(s: State, g: nat, report: Report)
    requires Exclusive(s) && g < |s.grants| && !s.grants[g].ended
    ensures Exclusive(Write(s, g, report)) <==>
            || AtLimit(s.rows[s.grants[g].row], report)
            || Current(s, g) || Unattended(s, s.grants[g].row)
  {
    var after := Write(s, g, report);
    var at := s.grants[g].row;
    var grant := s.rows[at].grant;
    assert LeaseHeld(s, g);
    if AtLimit(s.rows[at], report) || Current(s, g) || Unattended(s, at) {
      forall h | 0 <= h < |s.grants| ensures LeaseHeld(after, h) {
        assert LeaseHeld(s, h);
      }
    } else {
      assert after.rows[at].grant == None;
      assert !LeaseHeld(after, grant.value);
    }
  }

  /** The manual provisioner's last write is harmless likewise. */
  lemma EndManuallyKeepsExclusiveIff(s: State, at: nat, ok: bool)
    requires Exclusive(s) && at < |s.rows| && s.rows[at].lane == LocalDocker
    ensures Exclusive(EndManually(s, at, ok)) <==> Unattended(s, at)
  {
    var after := EndManually(s, at, ok);
    if Unattended(s, at) {
      forall h | 0 <= h < |s.grants| ensures LeaseHeld(after, h) {
        assert LeaseHeld(s, h);
      }
    } else {
      assert !LeaseHeld(after, s.rows[at].grant.value);
    }
  }

  lemma RequeueKeepsExclusive(s: State, at: nat)
    requires Exclusive(s)
    ensures Exclusive(Requeue(s, at))
  {
    forall g | 0 <= g < |s.grants| ensures LeaseHeld(Requeue(s, at), g) {
      assert LeaseHeld(s, g);
    }
  }

  lemma RetryKeepsExclusive(s: State, at: nat)
    requires Exclusive(s)
    ensures Exclusive(Retry(s, at))
  {
    forall g | 0 <= g < |s.grants| ensures LeaseHeld(Retry(s, at), g) {
      assert LeaseHeld(s, g);
    }
  }

  lemma TickKeepsExclusive(s: State, now: int)
    requires Exclusive(s)
    ensures Exclusive(Tick(s, now))
  {
    forall g | 0 <= g < |s.grants| ensures LeaseHeld(Tick(s, now), g) {
      assert LeaseHeld(s, g);
    }
  }

  lemma SubmitKeepsExclusive(s: State, row: Row)
    requires Exclusive(s)
    ensures Exclusive(Step(s, Submit(row)))
  {
    forall g | 0 <= g < |s.grants| ensures LeaseHeld(Step(s, Submit(row)), g) {
      assert LeaseHeld(s, g);
    }
  }

  /** A write under the claim that is in the row, or to a row that nobody is at work on. */
  ghost predicate Timely(s: State, op: Op) {
    && (op.DoWrite? && op.g < |s.grants| && !s.grants[op.g].ended && s.grants[op.g].row < |s.rows| ==>
          Current(s, op.g) || Unattended(s, s.grants[op.g].row))
    && (op.DoEndManually? && op.at < |s.rows| ==> Unattended(s, op.at))
  }

  ghost predicate NoLateWrites(ops: seq<Op>) { forall i | 0 <= i < |ops| :: Timely(Run(ops[..i]), ops[i]) }

  lemma StepKeepsExclusive(s: State, op: Op)
    requires Exclusive(s) && Timely(s, op)
    ensures Exclusive(Step(s, op))
  {
    match op
    case Pass(now) => TickKeepsExclusive(s, now);
    case Submit(row) => SubmitKeepsExclusive(s, row);
    case DoClaim(lane) => ClaimKeepsExclusive(s, lane);
    case DoWrite(g, report) =>
      if g < |s.grants| && !s.grants[g].ended {
        WriteKeepsExclusiveIff(s, g, report);
      }
    case DoReconcile => ReconcileKeepsExclusive(s);
    case DoRetry(at) => RetryKeepsExclusive(s, at);
    case DoRequeue(at) => RequeueKeepsExclusive(s, at);
    case DoEndManually(at, ok) =>
      if at < |s.rows| && s.rows[at].lane == LocalDocker {
        EndManuallyKeepsExclusiveIff(s, at, ok);
      }
  }

  lemma {:induction false} RunsKeepExclusive(ops: seq<Op>)
    requires NoLateWrites(ops)
    ensures Exclusive(Run(ops))
  {
    if ops != [] {
      var last := |ops| - 1;
      forall i | 0 <= i < last ensures ops[..last][..i] == ops[..i] {}
      RunsKeepExclusive(ops[..last]);
      StepKeepsExclusive(Run(ops[..last]), ops[last]);
    }
  }

  /** Under that discipline, which the code does not enforce, leases exclude each other in every run: of two claims of
      one request that have not reported, one has expired. */
  lemma LeasesAreExclusive(ops: seq<Op>)
    requires NoLateWrites(ops)
    ensures Exclusive(Run(ops))
    ensures var s := Run(ops);
            forall g, h | 0 <= g < h < |s.grants| && s.grants[g].row == s.grants[h].row
                          && !s.grants[g].ended && !s.grants[h].ended ::
              s.grants[g].until < s.clock || s.grants[h].until < s.clock
  {
    RunsKeepExclusive(ops);
    var s := Run(ops);
    forall g, h | 0 <= g < h < |s.grants| && s.grants[g].row == s.grants[h].row
                  && !s.grants[g].ended && !s.grants[h].ended
      ensures s.grants[g].until < s.clock || s.grants[h].until < s.clock
    {
      assert LeaseHeld(s, g) && LeaseHeld(s, h);
    }
  }

  /** And without it they do not: a worker whose lease ran out puts the request back while its successor h is at work,
      and a third claims it as soon as it is due. */
  lemma LateWriteBreaksExclusion(s: State, g: nat, h: nat, backoff: nat)
    requires Exclusive(s) && Limited(s) && g < |s.grants| && h < |s.grants| && !s.grants[g].ended
    requires s.rows[s.grants[g].row].grant == Some(h) && h != g && !s.grants[h].ended
    requires s.grants[h].until >= s.clock + backoff
    requires s.rows[s.grants[g].row].attempts < Max(s.rows[s.grants[g].row])
    requires var put := Tick(Write(s, g, TryAgain(backoff)), s.clock + backoff);
             Pick(put.rows, s.grants[g].lane, put.clock) == Some(s.grants[g].row)
    ensures var after := Claim(Tick(Write(s, g, TryAgain(backoff)), s.clock + backoff), s.grants[g].lane);
            var n := |s.grants|;
            && |after.grants| == n + 1 && after.grants[h].row == after.grants[n].row
            && !after.grants[h].ended && !after.grants[n].ended
            && after.clock <= after.grants[h].until && after.clock <= after.grants[n].until
  {
    assert NamesRow(s.grants, h, s.grants[g].row);
  }

  /** One request, claimed at 0, lost at 301 and claimed again at 400. */
  function LostOps(row: Row): seq<Op> {
    [Submit(row), DoClaim(row.lane), Pass(301), DoReconcile, Pass(400), DoClaim(row.lane)]
  }

  function Lost(row: Row): State {
    State([row.(status := CProvisioning, attempts := 2, grant := Some(1), forced := 0, due := Some(321))],
          [Grant(0, row.lane, 300, false), Grant(0, row.lane, 700, false)], 400)
  }

  predicate Fresh(row: Row) { row.template && row.approved && row.due.None? && row.max == 5 }

  lemma FirstClaim(row: Row)
    requires Fresh(row)
    ensures Run(LostOps(row)[..2])
            == State([row.(status := CProvisioning, attempts := 1, grant := Some(0), forced := 0)],
                     [Grant(0, row.lane, 300, false)], 0)
  {
    var ops := LostOps(row);
    var queued := row.(status := CQueued, attempts := 0, grant := None, forced := 0);
    assert ops[..1] == [] + [ops[0]] && ops[..2] == ops[..1] + [ops[1]];
    OneMore([], ops[0]);
    OneMore(ops[..1], ops[1]);
    assert Run(ops[..1]) == State([queued], [], 0);
    assert Pick([queued], row.lane, 0) == Some(0);
  }

  lemma StaleIs(row: Row, g: Grant)
    requires row.status == CProvisioning && row.attempts == 1 && row.max == 5 && row.grant == Some(0) && g.until == 300
    ensures Reconcile(State([row], [g], 301))
            == State([row.(status := CQueued, grant := None, due := Some(321))], [g], 301)
  {
    var s := State([row], [g], 301);
    RecoveredRow(row, [g]);
    assert |Reconcile(s).rows| == 1 && Reconcile(s).rows[0] == Recovered(s.rows[0], s.grants, s.clock);
    assert s.rows[0] == row;
  }

  lemma LateAtStale(row: Row)
    requires Fresh(row)
    ensures Run(LostOps(row)[..3])
            == State([row.(status := CProvisioning, attempts := 1, grant := Some(0), forced := 0)],
                     [Grant(0, row.lane, 300, false)], 301)
  {
    var ops := LostOps(row);
    FirstClaim(row);
    assert ops[..3] == ops[..2] + [ops[2]];
    OneMore(ops[..2], ops[2]);
  }

  lemma LostToStale(row: Row)
    requires Fresh(row)
    ensures Run(LostOps(row)[..4])
            == State([row.(status := CQueued, attempts := 1, grant := None, forced := 0, due := Some(321))],
                     [Grant(0, row.lane, 300, false)], 301)
  {
    var ops := LostOps(row);
    LateAtStale(row);
    assert ops[..4] == ops[..3] + [ops[3]];
    OneMore(ops[..3], ops[3]);
    StaleIs(row.(status := CProvisioning, attempts := 1, grant := Some(0), forced := 0),
            Grant(0, row.lane, 300, false));
  }

  /** Five minutes without a report are enough to lose a claim: the first worker has not reported, and the second is at
      work. */
  lemma LeaseIsLost(row: Row)
    requires Fresh(row)
    ensures Run(LostOps(row)) == Lost(row)
  {
    var ops := LostOps(row);
    LostToStale(row);
    assert ops[..5] == ops[..4] + [ops[4]] && ops == ops[..5] + [ops[5]];
    OneMore(ops[..4], ops[4]);
    OneMore(ops[..5], ops[5]);
    assert Pick(Run(ops[..5]).rows, row.lane, 400) == Some(0);
  }

  /** So the third claim is reached, too: the first worker's retry, 40 seconds later, with the second's lease running up
      to 700. */
  lemma LateWriteIsReached(row: Row)
    requires Fresh(row)
    ensures var s := Run(LostOps(row) + [DoWrite(0, TryAgain(40)), Pass(440), DoClaim(row.lane)]);
            && |s.grants| == 3 && s.grants[1].row == s.grants[2].row && !s.grants[1].ended && !s.grants[2].ended
            && s.clock <= s.grants[1].until && s.clock <= s.grants[2].until
  {
    var s := Lost(row);
    LeaseIsLost(row);
    AttemptsAndLanes(LostOps(row));
    LostIsExclusive(row);
    ThreeMore(LostOps(row), [DoWrite(0, TryAgain(40)), Pass(440), DoClaim(row.lane)]);
    assert Pick(Tick(Write(s, 0, TryAgain(40)), 440).rows, row.lane, 440) == Some(0);
    LateWriteBreaksExclusion(s, 0, 1, 40);
  }

  lemma LostIsExclusive(row: Row)
    requires Fresh(row)
    ensures Exclusive(Lost(row))
  {
    var ops := LostOps(row);
    assert forall i | 0 <= i < |ops| :: !ops[i].DoWrite? && !ops[i].DoEndManually?;
    LeaseIsLost(row);
    RunsKeepExclusive(ops);
  }

  lemma RecoveredRow(row: Row, grants: seq<Grant>)
    requires row.status == CProvisioning && row.grant == Some(0) && |grants| > 0 && grants[0].until == 300
    requires row.attempts == 1 && row.max == 5
    ensures Recovered(row, grants, 301) == row.(status := CQueued, grant := None, due := Some(321))
  {
    assert Backoff(0) == 10;
    assert Backoff(1) == 20;
  }

  // ---------------------------------------------------------------- the demo-clone worker's second look

  /** The eligibility test is made again before the clone, and asks for a queued request, which the claim has just
      changed. `otherwise` is the rest of the test, `report` what the clone would come to. */
  function ExecuteClone(s: State, g: nat, otherwise: bool, report: Report): (r: (State, bool))
    requires g < |s.grants| && s.grants[g].row < |s.rows|
  {
    if s.rows[s.grants[g].row].status == CQueued && otherwise
    then (Write(s, g, report), true)
    else (Write(s, g, Broken), false)
  }

  /** So a demo clone is made only by a worker that has lost its claim: with the claim still in the row
      every request fails. */
  lemma CloneRunsOnlyWithoutItsClaim(s: State, g: nat, otherwise: bool, report: Report)
    requires Exclusive(s) && g < |s.grants| && !s.grants[g].ended
    ensures var (after, made) := ExecuteClone(s, g, otherwise, report);
            && (made <==> otherwise && s.rows[s.grants[g].row].status == CQueued)
            && (made ==> s.grants[g].until < s.clock)
            && (Current(s, g) ==> !made && after.rows[s.grants[g].row].status == CFailed)
  {
    assert LeaseHeld(s, g);
  }
}
