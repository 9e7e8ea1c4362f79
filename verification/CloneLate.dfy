/** What processes that come back late do to lease rows, in runs from the opening state. */
module CloneLate {
  import opened CloneCleanup
  import opened CloneSafety
  import opened CloneSlot
  import opened Wrappers

  // ---------------------------------------------------------------- a late record

  /** The state before a late record: the cleaning process is back from its call, and the row has become the row of
      another live clone; a third job waits for the VMID, approved. */
  predicate AboutToRecordLate(w: World, pid: nat, j: nat, c: Contract, approval: nat, now: int) {
    && pid in w.cleaners && w.cleaners[pid].called && w.cleaners[pid].c.place == c.place
    && w.cleaners[pid].c.job in w.intents
    && IsLive(w.intents, w.jobs, j) && w.intents[j].binding.place == c.place && j != w.cleaners[pid].c.job
    && w.jobs[j].place == c.place && c.place in w.leases && w.leases[c.place].job == j
    && !w.kill && w.owner.None? && ApprovalValid(w, approval, c, CloneOnly, now)
    && c.job !in w.intents && JobMatches(w, c, Waiting)
  }

  /** A late record frees the row of a live clone; the row can be adopted, and a second clone with its VMID started. */
  lemma LateRecordLetsTwoClone(w: World, pid: nat, j: nat, c: Contract, approval: nat, now: int)
    requires AboutToRecordLate(w, pid, j, c, approval, now)
    ensures var after := Step(Step(Step(w, DoCleanRecord(pid)), DoAdopt(c.job, c.place, false)),
                              DoStart(c, approval, now, true));
            && !RecordsOwnRow(w, DoCleanRecord(pid))
            && c.job != j && IsLive(after.intents, after.jobs, j) && IsLive(after.intents, after.jobs, c.job)
            && after.jobs[j].place == after.jobs[c.job].place
  {
    var done := w.cleaners[pid].c;
    var recorded := Step(w, DoCleanRecord(pid));
    assert recorded == w.(cleaners := w.cleaners - {pid}, leases := w.leases[c.place := Lease(j, Freed)],
                          jobs := w.jobs[done.job := Job(CloneCancelled, done.place, done.plan)]);
    var adopted := Step(recorded, DoAdopt(c.job, c.place, false));
    assert adopted == recorded.(leases := recorded.leases[c.place := Lease(c.job, Leased)]);
    StartClaims(adopted, c, approval, now);
  }

  lemma StartClaims(w: World, c: Contract, approval: nat, now: int)
    requires c.job !in w.intents && !w.kill && w.owner.None? && ApprovalValid(w, approval, c, CloneOnly, now)
    requires JobMatches(w, c, Waiting) && LeaseValid(w, c, Leased)
    ensures var after := Step(w, DoStart(c, approval, now, true));
            && after.jobs == w.jobs[c.job := Job(CloneIntent, c.place, c.plan)]
            && after.intents == w.intents[c.job := Intent(c, approval, Requested, false)]
  {
  }

  // ---------------------------------------------------------------- a late verification

  /** Two reconciling processes have both decided to verify the one clone there is. */
  predicate AboutToVerifyTwice(w: World, a: nat, b: nat, c: Contract) {
    && a != b && a in w.reconcilers && b in w.reconcilers && w.reconcilers[a] == w.reconcilers[b]
    && w.reconcilers[a] == Reconciler(c, Acknowledged, true, Decided(Verified))
    && w.transport == Simulator && !w.kill && w.owner == Some(c.job)
    && c.job in w.intents && w.intents[c.job].binding == c
    && JobMatches(w, c, CloneIntent) && LeaseValid(w, c, Leased) && Stands(w.vms, c)
  }

  /** One of them writes; the clone is cleaned up, in good time; another job adopts the VMID. */
  function CleanedBetween(w: World, a: nat, pid: nat, c: Contract, other: nat): seq<Cmd> {
    [DoReconcileWrite(a), Approve(c, CleanupOnly, 0), DoCleanCheck(pid, c, Some(c), |w.approvals|, 0),
     DoCleanCall(pid, true, false), DoCleanRecord(pid), DoAdopt(other, c.place, false)]
  }

  /** ... as it is then. */
  function Between(w: World, a: nat, c: Contract, other: nat): World
    requires c.job in w.intents
  {
    w.(reconcilers := w.reconcilers - {a}, owner := None,
       approvals := w.approvals + [Approval(c, CleanupOnly, 600, false)],
       intents := w.intents[c.job := w.intents[c.job].(phase := Verified)],
       jobs := w.jobs[c.job := Job(CloneCancelled, c.place, c.plan)],
       leases := w.leases[c.place := Lease(other, Leased)],
       vms := w.vms - {c.place}, deleted := w.deleted + [Deletion(c, Some(c))])
  }

  lemma Appended(w: World, cmds: seq<Cmd>, k: nat, before: World, after: World)
    requires k < |cmds| && Run(w, cmds[..k]) == before && Step(before, cmds[k]) == after
    ensures Run(w, cmds[..k + 1]) == after
  {
    RunStep(w, cmds, k);
  }

  lemma VerifiedFirst(w: World, a: nat, b: nat, c: Contract)
    requires AboutToVerifyTwice(w, a, b, c)
    ensures Step(w, DoReconcileWrite(a))
            == w.(reconcilers := w.reconcilers - {a}, owner := None,
                  intents := w.intents[c.job := w.intents[c.job].(phase := Verified)],
                  jobs := w.jobs[c.job := Job(CloneVerified, c.place, c.plan)],
                  leases := w.leases[c.place := Lease(c.job, Used)])
  {
  }

  predicate Cleanable(w: World, pid: nat, c: Contract) {
    && !w.kill && w.owner.None? && c.job in w.intents && w.intents[c.job].binding == c
    && w.intents[c.job].phase == Verified && JobMatches(w, c, CloneVerified) && LeaseValid(w, c, Used)
    && Stands(w.vms, c) && pid !in w.cleaners
  }

  lemma ApprovedIs(w: World, pid: nat, c: Contract)
    requires Cleanable(w, pid, c)
    ensures var after := w.(approvals := w.approvals + [Approval(c, CleanupOnly, 600, false)]);
            Step(w, Approve(c, CleanupOnly, 0)) == after
            && CleanupEligible(after, c, Some(c), |w.approvals|, 0)
  {
  }

  lemma CalledIs(w: World, pid: nat, c: Contract)
    requires pid in w.cleaners && w.cleaners[pid] == Cleaner(c, false)
    ensures var called := w.cleaners[pid := Cleaner(c, true)];
            Step(w, DoCleanCall(pid, true, false))
            == if c.place in w.vms
               then w.(cleaners := called, vms := w.vms - {c.place},
                       deleted := w.deleted + [Deletion(c, w.vms[c.place])])
               else w.(cleaners := called)
  {
  }

  /** Approved, checked, called and recorded without interruption. */
  function Cleaned(w: World, c: Contract): World {
    w.(approvals := w.approvals + [Approval(c, CleanupOnly, 600, false)],
       jobs := w.jobs[c.job := Job(CloneCancelled, c.place, c.plan)],
       leases := w.leases[c.place := Lease(c.job, Freed)],
       vms := w.vms - {c.place}, deleted := w.deleted + [Deletion(c, Some(c))])
  }

  lemma CleansUp(w: World, pid: nat, c: Contract)
    requires Cleanable(w, pid, c)
    ensures var approved := Step(w, Approve(c, CleanupOnly, 0));
            var checked := Step(approved, DoCleanCheck(pid, c, Some(c), |w.approvals|, 0));
            var called := Step(checked, DoCleanCall(pid, true, false));
            Step(called, DoCleanRecord(pid)) == Cleaned(w, c) && Timely(called, DoCleanRecord(pid))
  {
    ApprovedIs(w, pid, c);
    var approved := w.(approvals := w.approvals + [Approval(c, CleanupOnly, 600, false)]);
    CheckedCleaner(approved, pid, c, Some(c), |w.approvals|, 0);
    var checked := approved.(cleaners := w.cleaners[pid := Cleaner(c, false)]);
    CalledIs(checked, pid, c);
    var called := approved.(cleaners := w.cleaners[pid := Cleaner(c, true)], vms := w.vms - {c.place},
                            deleted := w.deleted + [Deletion(c, Some(c))]);
    assert checked.cleaners[pid := Cleaner(c, true)] == called.cleaners;
    RecordIs(called, pid, c);
    assert called.cleaners - {pid} == w.cleaners;
  }

  lemma AdoptedIs(w: World, job: nat, place: Place)
    requires place !in w.leases || w.leases[place].state == Freed
    ensures Step(w, DoAdopt(job, place, false)) == w.(leases := w.leases[place := Lease(job, Leased)])
  {
  }

  /** The run up to the second write: the record was in good time. */
  lemma BetweenIs(w: World, a: nat, b: nat, pid: nat, c: Contract, other: nat)
    requires AboutToVerifyTwice(w, a, b, c) && pid !in w.cleaners
    ensures var written := Step(w, DoReconcileWrite(a));
            Cleanable(written, pid, c)
            && Step(Cleaned(written, c), DoAdopt(other, c.place, false)) == Between(w, a, c, other)
  {
    VerifiedFirst(w, a, b, c);
    AdoptedIs(Cleaned(Step(w, DoReconcileWrite(a)), c), other, c.place);
  }

  lemma CleansUpInARow(w: World, cmds: seq<Cmd>, pid: nat, c: Contract)
    requires |cmds| > 5 && cmds[1] == Approve(c, CleanupOnly, 0)
    requires cmds[2] == DoCleanCheck(pid, c, Some(c), |Run(w, cmds[..1]).approvals|, 0)
    requires cmds[3] == DoCleanCall(pid, true, false) && cmds[4] == DoCleanRecord(pid)
    requires Cleanable(Run(w, cmds[..1]), pid, c)
    ensures Run(w, cmds[..5]) == Cleaned(Run(w, cmds[..1]), c) && Timely(Run(w, cmds[..4]), DoCleanRecord(pid))
  {
    CleansUp(Run(w, cmds[..1]), pid, c);
    RunStep(w, cmds, 1);
    RunStep(w, cmds, 2);
    RunTwo(w, cmds, 3);
  }

  lemma RunTwo(w: World, cmds: seq<Cmd>, k: nat)
    requires k + 1 < |cmds|
    ensures Run(w, cmds[..k + 1]) == Step(Run(w, cmds[..k]), cmds[k])
    ensures Run(w, cmds[..k + 2]) == Step(Step(Run(w, cmds[..k]), cmds[k]), cmds[k + 1])
  {
    RunStep(w, cmds, k);
    RunStep(w, cmds, k + 1);
  }

  lemma WriteKeepsApprovals(w: World, a: nat, b: nat, c: Contract)
    requires AboutToVerifyTwice(w, a, b, c)
    ensures Step(w, DoReconcileWrite(a)).approvals == w.approvals
  {
    VerifiedFirst(w, a, b, c);
  }

  lemma AdoptsInARow(w: World, cmds: seq<Cmd>, a: nat, c: Contract, other: nat)
    requires |cmds| == 6 && cmds[5] == DoAdopt(other, c.place, false) && c.job in w.intents
    requires Run(w, cmds[..5]) == Cleaned(Step(w, DoReconcileWrite(a)), c)
    requires Step(Cleaned(Step(w, DoReconcileWrite(a)), c), DoAdopt(other, c.place, false)) == Between(w, a, c, other)
    ensures Run(w, cmds) == Between(w, a, c, other)
  {
    RunStep(w, cmds, 5);
    assert cmds[..6] == cmds;
  }

  lemma CleanedBetweenIs(w: World, a: nat, b: nat, pid: nat, c: Contract, other: nat)
    requires AboutToVerifyTwice(w, a, b, c) && pid !in w.cleaners
    ensures var cmds := CleanedBetween(w, a, pid, c, other);
            Run(w, cmds) == Between(w, a, c, other) && Timely(Run(w, cmds[..4]), DoCleanRecord(pid))
  {
    var cmds := CleanedBetween(w, a, pid, c, other);
    RunStep(w, cmds, 0);
    BetweenIs(w, a, b, pid, c, other);
    WriteKeepsApprovals(w, a, b, c);
    CleansUpInARow(w, cmds, pid, c);
    AdoptsInARow(w, cmds, a, c, other);
  }

  lemma SecondWrite(w: World, a: nat, b: nat, c: Contract, other: nat)
    requires AboutToVerifyTwice(w, a, b, c) && other != c.job
    ensures var between := Between(w, a, c, other);
            var after := Step(between, DoReconcileWrite(b));
            && !VerifiesOwnRow(between, DoReconcileWrite(b))
            && JobMatches(after, c, CloneVerified) && after.leases[c.place] == Lease(other, Used)
            && after.vms == between.vms && after.deleted == between.deleted && after.intents == between.intents
  {
  }

  /** The second write makes a job verified again whose machine is gone, on the row of the job that has adopted the
      VMID since; no cleaning process was late. */
  lemma LateVerifyRevives(w: World, a: nat, b: nat, pid: nat, c: Contract, other: nat)
    requires AboutToVerifyTwice(w, a, b, c) && pid !in w.cleaners && other != c.job
    ensures var cmds := CleanedBetween(w, a, pid, c, other);
            var before := Run(w, cmds);
            var after := Step(before, DoReconcileWrite(b));
            && Timely(Run(w, cmds[..4]), cmds[4]) && !Timely(before, DoReconcileWrite(b))
            && JobMatches(after, c, CloneVerified) && Gone(after.deleted, c) && !Stands(after.vms, c)
            && c.place in after.leases && after.leases[c.place].job == other
            && !LeasesSound(after.leases, after.intents, after.jobs)
  {
    CleanedBetweenIs(w, a, b, pid, c, other);
    SecondWrite(w, a, b, c, other);
    var after := Step(Between(w, a, c, other), DoReconcileWrite(b));
    assert (w.deleted + [Deletion(c, Some(c))])[|w.deleted|].hit == Some(c);
    assert IsLive(after.intents, after.jobs, c.job);
  }

  // ---------------------------------------------------------------- one clone, from nothing

  lemma {:induction false} RunConcat(w: World, first: seq<Cmd>, rest: seq<Cmd>)
    ensures Run(w, first + rest) == Run(Run(w, first), rest)
    decreases |rest|
  {
    if rest == [] {
      assert first + rest == first;
    } else {
      var last := |rest| - 1;
      assert (first + rest)[..|first| + last] == first + rest[..last];
      RunConcat(w, first, rest[..last]);
    }
  }

  /** Nothing of the contract's job is there yet, and its VMID is free. */
  predicate Unknown(w: World, c: Contract) {
    && !w.kill && w.owner.None? && w.transport == Simulator
    && c.job !in w.jobs && c.job !in w.intents && c.job !in w.procs && c !in w.landing && c.place !in w.vms
    && (c.place !in w.leases || w.leases[c.place].state == Freed)
  }

  function PrepareCmds(c: Contract): seq<Cmd> {
    [CreateJob(c.job, c.place, c.plan), DoAdopt(c.job, c.place, false), Approve(c, CloneOnly, 0)]
  }

  function Prepared(w: World, c: Contract): World {
    w.(jobs := w.jobs[c.job := Job(Waiting, c.place, c.plan)], leases := w.leases[c.place := Lease(c.job, Leased)],
       approvals := w.approvals + [Approval(c, CloneOnly, 600, false)])
  }

  lemma Prepares(w: World, c: Contract)
    requires Unknown(w, c)
    ensures Run(w, PrepareCmds(c)) == Prepared(w, c)
  {
    var cmds := PrepareCmds(c);
    var created := w.(jobs := w.jobs[c.job := Job(Waiting, c.place, c.plan)]);
    Appended(w, cmds, 0, w, created);
    AdoptedIs(created, c.job, c.place);
    Appended(w, cmds, 1, created, created.(leases := w.leases[c.place := Lease(c.job, Leased)]));
    Appended(w, cmds, 2, created.(leases := w.leases[c.place := Lease(c.job, Leased)]), Prepared(w, c));
    assert cmds[..3] == cmds;
  }

  function CloneCmds(c: Contract, approval: nat): seq<Cmd> {
    [DoStart(c, approval, 0, true), DoRecheck(c.job, 0, true), DoDispatch(c.job, true, true), DoLand(c),
     DoRecord(c.job)]
  }

  /** The clone call went out and was answered, and its task is done. */
  function Acked(w: World, c: Contract): World {
    w.(owner := Some(c.job), approvals := w.approvals + [Approval(c, CloneOnly, 600, true)],
       intents := w.intents[c.job := Intent(c, |w.approvals|, Acknowledged, true)],
       jobs := w.jobs[c.job := Job(CloneIntent, c.place, c.plan)],
       leases := w.leases[c.place := Lease(c.job, Leased)],
       vms := w.vms[c.place := Some(c)], sends := w.sends + [c])
  }

  /** ... as it is in between. */
  function Underway(w: World, c: Contract, pc: Pc, landing: set<Contract>, sends: seq<Contract>): World {
    w.(owner := Some(c.job), approvals := w.approvals + [Approval(c, CloneOnly, 600, true)],
       intents := w.intents[c.job := Intent(c, |w.approvals|, Requested, false)],
       jobs := w.jobs[c.job := Job(CloneIntent, c.place, c.plan)],
       leases := w.leases[c.place := Lease(c.job, Leased)],
       procs := w.procs[c.job := pc], landing := landing, sends := sends)
  }

  lemma StartedIs(w: World, c: Contract)
    requires Unknown(w, c)
    ensures Step(Prepared(w, c), DoStart(c, |w.approvals|, 0, true)) == Underway(w, c, Committed, w.landing, w.sends)
  {
    var before := Prepared(w, c);
    assert before.approvals[|w.approvals| := Approval(c, CloneOnly, 600, true)]
           == w.approvals + [Approval(c, CloneOnly, 600, true)];
    assert before.jobs[c.job := Job(CloneIntent, c.place, c.plan)]
           == w.jobs[c.job := Job(CloneIntent, c.place, c.plan)];
  }

  lemma RecheckedIs(w: World, c: Contract)
    requires Unknown(w, c)
    ensures Step(Underway(w, c, Committed, w.landing, w.sends), DoRecheck(c.job, 0, true))
            == Underway(w, c, Cleared, w.landing, w.sends)
  {
    assert w.procs[c.job := Committed][c.job := Cleared] == w.procs[c.job := Cleared];
  }

  lemma DispatchedIs(w: World, c: Contract)
    requires Unknown(w, c)
    ensures Step(Underway(w, c, Cleared, w.landing, w.sends), DoDispatch(c.job, true, true))
            == Underway(w, c, Sent(true), w.landing + {c}, w.sends + [c])
  {
    assert w.procs[c.job := Cleared][c.job := Sent(true)] == w.procs[c.job := Sent(true)];
  }

  lemma LandedIs(w: World, c: Contract)
    requires Unknown(w, c)
    ensures Step(Underway(w, c, Sent(true), w.landing + {c}, w.sends + [c]), DoLand(c))
            == Underway(w, c, Sent(true), w.landing, w.sends + [c]).(vms := w.vms[c.place := Some(c)])
  {
    assert w.landing + {c} - {c} == w.landing;
  }

  lemma RecordedIs(w: World, c: Contract)
    requires Unknown(w, c)
    ensures Step(Underway(w, c, Sent(true), w.landing, w.sends + [c]).(vms := w.vms[c.place := Some(c)]),
                 DoRecord(c.job))
            == Acked(w, c)
  {
    assert w.procs[c.job := Sent(true)] - {c.job} == w.procs;
    assert w.intents[c.job := Intent(c, |w.approvals|, Requested, false)]
             [c.job := Intent(c, |w.approvals|, Acknowledged, true)]
           == w.intents[c.job := Intent(c, |w.approvals|, Acknowledged, true)];
  }

  lemma Clones(w: World, c: Contract)
    requires Unknown(w, c)
    ensures Run(Prepared(w, c), CloneCmds(c, |w.approvals|)) == Acked(w, c)
  {
    var cmds, p := CloneCmds(c, |w.approvals|), Prepared(w, c);
    var s := w.sends + [c];
    StartedIs(w, c);
    Appended(p, cmds, 0, p, Underway(w, c, Committed, w.landing, w.sends));
    RecheckedIs(w, c);
    Appended(p, cmds, 1, Underway(w, c, Committed, w.landing, w.sends), Underway(w, c, Cleared, w.landing, w.sends));
    DispatchedIs(w, c);
    Appended(p, cmds, 2, Underway(w, c, Cleared, w.landing, w.sends), Underway(w, c, Sent(true), w.landing + {c}, s));
    LandedIs(w, c);
    var landed := Underway(w, c, Sent(true), w.landing, s).(vms := w.vms[c.place := Some(c)]);
    Appended(p, cmds, 3, Underway(w, c, Sent(true), w.landing + {c}, s), landed);
    RecordedIs(w, c);
    Appended(p, cmds, 4, landed, Acked(w, c));
    assert cmds[..5] == cmds;
  }

  lemma Acknowledges(w: World, c: Contract) returns (cmds: seq<Cmd>)
    requires Unknown(w, c)
    ensures Run(w, cmds) == Acked(w, c)
  {
    cmds := PrepareCmds(c) + CloneCmds(c, |w.approvals|);
    RunConcat(w, PrepareCmds(c), CloneCmds(c, |w.approvals|));
    Prepares(w, c);
    Clones(w, c);
  }

  /** ... and verified. */
  function Made(w: World, c: Contract): World {
    Acked(w, c).(owner := None, intents := w.intents[c.job := Intent(c, |w.approvals|, Verified, true)],
                 jobs := w.jobs[c.job := Job(CloneVerified, c.place, c.plan)],
                 leases := w.leases[c.place := Lease(c.job, Used)])
  }

  lemma Makes(w: World, c: Contract, rid: nat) returns (cmds: seq<Cmd>)
    requires Unknown(w, c) && rid !in w.reconcilers
    ensures Run(w, cmds) == Made(w, c)
  {
    var first := Acknowledges(w, c);
    var second := ReconcileCmds(rid, c, Ok, true, true);
    cmds := first + second;
    RunConcat(w, first, second);
    UninterruptedReconcile(Acked(w, c), rid, c, Ok, true, true);
    ReconciledIs(w, c);
  }

  lemma ReconciledIs(w: World, c: Contract)
    requires Unknown(w, c)
    ensures Reconcile(Acked(w, c), c, Ok, true, true) == Made(w, c)
  {
    var acked := Acked(w, c);
    assert acked.intents[c.job := Intent(c, |w.approvals|, Verified, true)] == Made(w, c).intents;
    assert acked.jobs[c.job := Job(CloneVerified, c.place, c.plan)] == Made(w, c).jobs;
    assert acked.leases[c.place := Lease(c.job, Used)] == Made(w, c).leases;
  }

  function Started(): World { Opening(Simulator).(kill := false) }

  lemma FirstCmd()
    ensures Run(Opening(Simulator), [ClearStop]) == Started()
  {
    RunStep(Opening(Simulator), [ClearStop], 0);
    assert [ClearStop][..1] == [ClearStop];
  }

  // ---------------------------------------------------------------- a late release

  /** A release that was checked before the clone started frees the row of a live clone. */
  lemma LateReleaseFreesLive(w: World, c: Contract, sid: nat)
    requires Unknown(w, c) && sid !in w.setters
    ensures var checked := Step(Prepared(w, c), DoSetCheck(sid, c.place, Freed));
            var started := Step(checked, DoStart(c, |w.approvals|, 0, true));
            var after := Step(started, DoSetWrite(sid));
            && !Timely(started, DoSetWrite(sid))
            && IsLive(after.intents, after.jobs, c.job) && LeaseValid(after, c, Freed)
  {
    var setters := w.setters[sid := Setting(c.place, Freed)];
    var checked := Step(Prepared(w, c), DoSetCheck(sid, c.place, Freed));
    assert checked == Prepared(w, c).(setters := setters) == Prepared(w.(setters := setters), c);
    StartedIs(w.(setters := setters), c);
    var started := Underway(w.(setters := setters), c, Committed, w.landing, w.sends);
    assert started.setters[sid] == Setting(c.place, Freed) && IsLive(started.intents, started.jobs, c.job);
  }

  // ---------------------------------------------------------------- the other late writes are reached

  /** A reconciling process up to its write. */
  function ExamineCmds(rid: nat, c: Contract): seq<Cmd> {
    [DoReconcileLoad(rid, c), DoReconcileSee(rid, Ok, true, true), DoReconcileLease(rid), DoReconcileJob(rid)]
  }

  lemma ExaminesInARow(w: World, cmds: seq<Cmd>, rid: nat, c: Contract)
    requires |cmds| == 4 && cmds[0] == DoReconcileLoad(rid, c) && cmds[1] == DoReconcileSee(rid, Ok, true, true)
    requires cmds[2] == DoReconcileLease(rid) && cmds[3] == DoReconcileJob(rid)
    ensures Run(w, cmds)
            == ReconcileJob(ReconcileLease(ReconcileSee(ReconcileLoad(w, rid, c), rid, Ok, true, true), rid), rid)
  {
    ReconcileReads(w, cmds, rid, c, Ok, true, true);
    ReconcileReadsLease(w, cmds, 2, rid);
    ReconcileReadsJob(w, cmds, 3, rid);
    assert cmds[..4] == cmds;
  }

  lemma Examines(w: World, rid: nat, c: Contract)
    requires rid !in w.reconcilers && c.job in w.intents && w.intents[c.job].binding == c
    requires w.intents[c.job].phase == Acknowledged && w.intents[c.job].upid
    requires Stands(w.vms, c) && LeaseValid(w, c, Leased) && JobMatches(w, c, CloneIntent)
    ensures Run(w, ExamineCmds(rid, c)) == With(w, rid, Reconciler(c, Acknowledged, true, Decided(Verified)))
  {
    ExaminesInARow(w, ExamineCmds(rid, c), rid, c);
    ExaminedIs(w, rid, c);
  }

  lemma ExaminedIs(w: World, rid: nat, c: Contract)
    requires rid !in w.reconcilers && c.job in w.intents && w.intents[c.job].binding == c
    requires w.intents[c.job].phase == Acknowledged && w.intents[c.job].upid
    requires Stands(w.vms, c) && LeaseValid(w, c, Leased) && JobMatches(w, c, CloneIntent)
    ensures ReconcileJob(ReconcileLease(ReconcileSee(ReconcileLoad(w, rid, c), rid, Ok, true, true), rid), rid)
            == With(w, rid, Reconciler(c, Acknowledged, true, Decided(Verified)))
  {
    LoadIs(w, rid, c);
    SeeIs(w, rid, Reconciler(c, Acknowledged, true, Loaded), Ok, true, true);
    ChecksAre(w, rid, Reconciler(c, Acknowledged, true, Seen));
  }

  /** From nothing, two reconciling processes come to decide the same. */
  lemma VerifyTwiceIsReached(c: Contract, a: nat, b: nat) returns (cmds: seq<Cmd>)
    requires a != b
    ensures var w := Run(Opening(Simulator), cmds); AboutToVerifyTwice(w, a, b, c) && w.cleaners == map[]
  {
    var made := Acknowledges(Started(), c);
    FirstCmd();
    RunConcat(Opening(Simulator), [ClearStop], made);
    var acked := Acked(Started(), c);
    Examines(acked, a, c);
    var once := With(acked, a, Reconciler(c, Acknowledged, true, Decided(Verified)));
    Examines(once, b, c);
    RunConcat(Opening(Simulator), [ClearStop] + made, ExamineCmds(a, c));
    RunConcat(Opening(Simulator), [ClearStop] + made + ExamineCmds(a, c), ExamineCmds(b, c));
    cmds := [ClearStop] + made + ExamineCmds(a, c) + ExamineCmds(b, c);
  }

  /** Two cleaning processes check; both call, and one records. */
  function HalfCmds(w: World, a: nat, b: nat, c: Contract): seq<Cmd> {
    [Approve(c, CleanupOnly, 0), DoCleanCheck(a, c, Some(c), |w.approvals|, 0),
     DoCleanCheck(b, c, Some(c), |w.approvals|, 0), DoCleanCall(a, true, false), DoCleanCall(b, true, false),
     DoCleanRecord(a)]
  }

  function HalfCleaned(w: World, b: nat, c: Contract): World {
    Cleaned(w, c).(cleaners := w.cleaners[b := Cleaner(c, true)])
  }

  lemma BothCheck(w: World, a: nat, b: nat, c: Contract)
    requires Cleanable(w, a, c) && Cleanable(w, b, c) && a != b
    ensures Run(w, HalfCmds(w, a, b, c)[..3])
            == w.(approvals := w.approvals + [Approval(c, CleanupOnly, 600, false)],
                  cleaners := w.cleaners[a := Cleaner(c, false)][b := Cleaner(c, false)])
  {
    var cmds := HalfCmds(w, a, b, c);
    ApprovedIs(w, a, c);
    var approved := w.(approvals := w.approvals + [Approval(c, CleanupOnly, 600, false)]);
    Appended(w, cmds, 0, w, approved);
    CheckedCleaner(approved, a, c, Some(c), |w.approvals|, 0);
    var one := approved.(cleaners := w.cleaners[a := Cleaner(c, false)]);
    Appended(w, cmds, 1, approved, one);
    CheckedCleaner(one, b, c, Some(c), |w.approvals|, 0);
    Appended(w, cmds, 2, one, one.(cleaners := w.cleaners[a := Cleaner(c, false)][b := Cleaner(c, false)]));
  }

  lemma BothCall(w: World, a: nat, b: nat, c: Contract)
    requires a in w.cleaners && b in w.cleaners && a != b && Stands(w.vms, c)
    requires w.cleaners[a] == w.cleaners[b] == Cleaner(c, false)
    ensures Step(Step(w, DoCleanCall(a, true, false)), DoCleanCall(b, true, false))
            == w.(vms := w.vms - {c.place}, deleted := w.deleted + [Deletion(c, Some(c))],
                  cleaners := w.cleaners[a := Cleaner(c, true)][b := Cleaner(c, true)])
  {
    CalledIs(w, a, c);
    CalledIs(Step(w, DoCleanCall(a, true, false)), b, c);
  }

  lemma CallsThenRecord(w: World, checked: World, a: nat, b: nat, c: Contract)
    requires Cleanable(w, a, c) && Cleanable(w, b, c) && a != b
    requires checked == w.(approvals := w.approvals + [Approval(c, CleanupOnly, 600, false)],
                           cleaners := w.cleaners[a := Cleaner(c, false)][b := Cleaner(c, false)])
    ensures Step(Step(Step(checked, DoCleanCall(a, true, false)), DoCleanCall(b, true, false)), DoCleanRecord(a))
            == HalfCleaned(w, b, c)
  {
    BothCall(checked, a, b, c);
    var called := Step(Step(checked, DoCleanCall(a, true, false)), DoCleanCall(b, true, false));
    RecordIs(called, a, c);
    assert called.cleaners - {a} == w.cleaners[b := Cleaner(c, true)];
  }

  lemma HalfCleans(w: World, a: nat, b: nat, c: Contract)
    requires Cleanable(w, a, c) && Cleanable(w, b, c) && a != b
    ensures Run(w, HalfCmds(w, a, b, c)) == HalfCleaned(w, b, c)
  {
    var cmds := HalfCmds(w, a, b, c);
    BothCheck(w, a, b, c);
    CallsThenRecord(w, Run(w, cmds[..3]), a, b, c);
    RunStep(w, cmds, 3);
    RunStep(w, cmds, 4);
    RunStep(w, cmds, 5);
    assert cmds[..6] == cmds;
  }

  function ThirdCmds(c: Contract): seq<Cmd> { [CreateJob(c.job, c.place, c.plan), Approve(c, CloneOnly, 0)] }

  /** A third job waits for the VMID, approved. */
  lemma ThirdJob(w: World, c: Contract)
    requires c.job !in w.jobs
    ensures Run(w, ThirdCmds(c))
            == w.(jobs := w.jobs[c.job := Job(Waiting, c.place, c.plan)],
                  approvals := w.approvals + [Approval(c, CloneOnly, 600, false)])
  {
    var cmds := ThirdCmds(c);
    RunStep(w, cmds, 0);
    RunStep(w, cmds, 1);
    assert cmds[..2] == cmds;
  }

  lemma RecordLateIsNear(w: World, b: nat, c1: Contract, c2: Contract, c3: Contract)
    requires c1.place == c2.place == c3.place && c1.job != c2.job && c1.job != c3.job && c2.job != c3.job
    requires c1.job in w.intents && c3.job !in w.jobs && c3.job !in w.intents && !w.kill
    requires b in w.cleaners && w.cleaners[b] == Cleaner(c1, true)
    ensures AboutToRecordLate(Run(Made(w, c2), ThirdCmds(c3)), b, c2.job, c3, |w.approvals| + 1, 0)
  {
    ThirdJob(Made(w, c2), c3);
  }

  /** From nothing, a cleaning process comes to record late. */
  lemma RecordLateIsReached(c1: Contract, c2: Contract, c3: Contract, a: nat, b: nat)
    returns (cmds: seq<Cmd>, approval: nat)
    requires c1.place == c2.place == c3.place && c1.job != c2.job && c1.job != c3.job && c2.job != c3.job && a != b
    ensures AboutToRecordLate(Run(Opening(Simulator), cmds), b, c2.job, c3, approval, 0)
  {
    FirstCmd();
    var first := Makes(Started(), c1, 0);
    var w1 := Made(Started(), c1);
    RunConcat(Opening(Simulator), [ClearStop], first);
    HalfCleans(w1, a, b, c1);
    var w2 := HalfCleaned(w1, b, c1);
    RunConcat(Opening(Simulator), [ClearStop] + first, HalfCmds(w1, a, b, c1));
    var second := Makes(w2, c2, 0);
    RunConcat(Opening(Simulator), [ClearStop] + first + HalfCmds(w1, a, b, c1), second);
    RecordLateIsNear(w2, b, c1, c2, c3);
    RunConcat(Opening(Simulator), [ClearStop] + first + HalfCmds(w1, a, b, c1) + second, ThirdCmds(c3));
    cmds := [ClearStop] + first + HalfCmds(w1, a, b, c1) + second + ThirdCmds(c3);
    approval := |w2.approvals| + 1;
  }
}
