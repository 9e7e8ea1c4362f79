/** Cleaning up (controlled_cleanup): what the delete calls of processes that check, call and record one by one hit, and
    what becomes of the lease rows. */
module CloneCleanup {
  import opened CloneSafety
  import opened CloneSlot
  import opened CloneTheorems
  import opened Wrappers

  // ---------------------------------------------------------------- deletions

  /** With the real transport nothing is ever deleted. With the simulator a delete call that hits a machine hits the
      one it is meant for, unless an earlier call did; so cleanup deletes its own machines only, exactly if no
      contract has two delete calls that hit something. */
  lemma CleanupDeletesOnlyItsOwnIff(transport: Transport, cmds: seq<Cmd>)
    ensures var w := Run(Opening(transport), cmds);
            && (transport == Real ==> w.deleted == [])
            && (forall i | 0 <= i < |w.deleted| ::
                  w.deleted[i].hit == Some(w.deleted[i].meant) || Gone(w.deleted[..i], w.deleted[i].meant))
            && ((forall i | 0 <= i < |w.deleted| :: w.deleted[i].hit == Some(w.deleted[i].meant))
                <==> (forall i, k | 0 <= i < k < |w.deleted| :: w.deleted[i].meant != w.deleted[k].meant))
  {
    var w := Run(Opening(transport), cmds);
    CloneRunsKeepInv(transport, cmds);
    TransportIsFixed(Opening(transport), cmds);
    if forall i, k | 0 <= i < k < |w.deleted| :: w.deleted[i].meant != w.deleted[k].meant {
      DistinctAreOwn(w.deleted, |w.deleted|);
    }
  }

  lemma {:induction false} DistinctAreOwn(deleted: seq<Deletion>, n: nat)
    requires DeletionsSound(deleted) && n <= |deleted|
    requires forall i, k | 0 <= i < k < |deleted| :: deleted[i].meant != deleted[k].meant
    ensures forall i | 0 <= i < n :: deleted[i].hit == Some(deleted[i].meant)
  {
    if n > 0 {
      DistinctAreOwn(deleted, n - 1);
      assert !Gone(deleted[..n - 1], deleted[n - 1].meant);
    }
  }

  lemma CallIs(w: World, pid: nat, failed: bool)
    requires pid in w.cleaners && !w.cleaners[pid].called
    ensures var c := w.cleaners[pid].c;
            Step(w, DoCleanCall(pid, true, failed)).deleted
            == w.deleted + (if c.place in w.vms then [Deletion(c, w.vms[c.place])] else [])
  {
  }

  /** At the call: the process hits its own machine exactly if no call hit it before, and else whatever has the VMID. */
  lemma CallHitsOwnUnlessGone(w: World, pid: nat, failed: bool)
    requires Inv(w) && pid in w.cleaners && !w.cleaners[pid].called
    ensures var c := w.cleaners[pid].c;
            var after := Step(w, DoCleanCall(pid, true, failed));
            && (after.deleted == w.deleted + [Deletion(c, Some(c))] <==> !Gone(w.deleted, c))
            && (Gone(w.deleted, c) ==>
                  after.deleted == w.deleted + (if c.place in w.vms then [Deletion(c, w.vms[c.place])] else []))
  {
    var c := w.cleaners[pid].c;
    CallIs(w, pid, failed);
    assert Settled(w.vms, w.deleted, c);
    if Gone(w.deleted, c) {
      assert !Stands(w.vms, c);
      assert (w.deleted + [Deletion(c, Some(c))])[|w.deleted|].hit == Some(c);
    }
  }

  ghost predicate NoDeletionAt(deleted: seq<Deletion>, place: Place) {
    forall i | 0 <= i < |deleted| :: deleted[i].meant.place != place
  }

  lemma DeletedGrows(w: World, cmd: Cmd)
    ensures w.deleted <= Step(w, cmd).deleted
    ensures |Step(w, cmd).deleted| <= |w.deleted| + 1
    ensures |Step(w, cmd).deleted| > |w.deleted| ==>
              var d := Step(w, cmd).deleted[|w.deleted|];
              cmd.DoCleanCall? && d.meant.place in w.vms && d.hit == w.vms[d.meant.place]
              && d.meant.place !in Step(w, cmd).vms
  {
    if Reconciles(cmd) {
      ReconcilingLeavesSite(w, cmd);
    } else if !cmd.DoCleanCall? {
      LeasesAndJobsDeleteNothing(w, cmd);
    }
  }

  /** Reconciling processes change no machine, and no cleaning process. */
  lemma ReconcilingLeavesSite(w: World, cmd: Cmd)
    requires Reconciles(cmd)
    ensures Step(w, cmd).vms == w.vms && Step(w, cmd).deleted == w.deleted && Step(w, cmd).cleaners == w.cleaners
  {
    if cmd.DoReconcileWrite? {
      WriteLeavesSite(w, cmd.rid);
    }
  }

  lemma WriteLeavesSite(w: World, rid: nat)
    ensures var after := ReconcileWrite(w, rid);
            after.vms == w.vms && after.deleted == w.deleted && after.cleaners == w.cleaners
  {
    if rid in w.reconcilers && w.reconcilers[rid].stand.Decided? && w.reconcilers[rid].c.job in w.intents {
      ConcludeEffect(w.(reconcilers := w.reconcilers - {rid}), w.reconcilers[rid].c, w.reconcilers[rid].stand.next);
    }
  }

  lemma LeasesAndJobsDeleteNothing(w: World, cmd: Cmd)
    requires !Reconciles(cmd) && !cmd.DoCleanCall?
    ensures Step(w, cmd).deleted == w.deleted
  {
    if Outside(cmd) {
      OutsideDeleteNothing(w, cmd);
    }
  }

  lemma OutsideDeleteNothing(w: World, cmd: Cmd)
    requires Outside(cmd)
    ensures Step(w, cmd).deleted == w.deleted
  {
  }

  /** A machine that stands stays until a delete call hits its VMID. */
  lemma StandsStep(w: World, cmd: Cmd, c: Contract)
    requires Stands(w.vms, c)
    ensures Stands(Step(w, cmd).vms, c) || |Step(w, cmd).deleted| > |w.deleted|
  {
    if Reconciles(cmd) {
      ReconcilingLeavesSite(w, cmd);
    } else if cmd.DoCleanCall? {
      CallHitsOrLeaves(w, cmd.pid, cmd.gone, cmd.failed, c);
    } else if !cmd.DoLand? && !cmd.ForeignVm? {
      OthersLeaveMachines(w, cmd);
    }
  }

  lemma OthersLeaveMachines(w: World, cmd: Cmd)
    requires !Reconciles(cmd) && !cmd.DoCleanCall? && !cmd.DoLand? && !cmd.ForeignVm?
    ensures Step(w, cmd).vms == w.vms
  {
    if Outside(cmd) {
      OutsideLeaveMachines(w, cmd);
    }
  }

  lemma OutsideLeaveMachines(w: World, cmd: Cmd)
    requires Outside(cmd) && !cmd.ForeignVm?
    ensures Step(w, cmd).vms == w.vms
  {
  }

  lemma CallHitsOrLeaves(w: World, pid: nat, gone: bool, failed: bool, c: Contract)
    requires Stands(w.vms, c)
    ensures var after := CleanCall(w, pid, gone, failed);
            Stands(after.vms, c) || |after.deleted| > |w.deleted|
  {
  }

  /** Since w0 no delete call has hit the VMID and the machine stands, or one has and it is gone. */
  ghost predicate Traced(n: nat, w: World, c: Contract) {
    && n <= |w.deleted|
    && (Stands(w.vms, c) <==> NoDeletionAt(w.deleted[n..], c.place))
    && (Stands(w.vms, c) || Gone(w.deleted, c))
  }

  lemma TracedStep(n: nat, w: World, cmd: Cmd, c: Contract)
    requires Inv(w) && Traced(n, w, c)
    ensures Traced(n, Step(w, cmd), c)
  {
    var after := Step(w, cmd);
    DeletedGrows(w, cmd);
    if !Stands(w.vms, c) {
      StaysGone(w, cmd, c);
      StillDeletedAt(w.deleted, after.deleted, n, c.place);
    } else {
      StandsStep(w, cmd, c);
      if |after.deleted| > |w.deleted| {
        HitStep(n, w, cmd, c);
      } else {
        assert after.deleted == w.deleted;
      }
    }
  }

  lemma HitStep(n: nat, w: World, cmd: Cmd, c: Contract)
    requires Traced(n, w, c) && Stands(w.vms, c) && |Step(w, cmd).deleted| > |w.deleted|
    ensures Traced(n, Step(w, cmd), c)
  {
    var after := Step(w, cmd);
    DeletedGrows(w, cmd);
    DeletedAt(w.deleted, after.deleted, n, c.place);
    GoneGrows(w.deleted, after.deleted[|w.deleted|], c);
    assert after.deleted == w.deleted + [after.deleted[|w.deleted|]];
  }

  /** A machine of this protocol stands exactly as long as no delete call hits its VMID. */
  lemma {:induction false} StandsIffUndisturbed(w: World, cmds: seq<Cmd>, c: Contract)
    requires Inv(w) && Stands(w.vms, c)
    ensures Inv(Run(w, cmds)) && w.deleted <= Run(w, cmds).deleted && Traced(|w.deleted|, Run(w, cmds), c)
  {
    if cmds != [] {
      var last := |cmds| - 1;
      StandsIffUndisturbed(w, cmds[..last], c);
      StepKeepsInv(Run(w, cmds[..last]), cmds[last]);
      DeletedGrows(Run(w, cmds[..last]), cmds[last]);
      TracedStep(|w.deleted|, Run(w, cmds[..last]), cmds[last], c);
    }
  }

  lemma StillDeletedAt(before: seq<Deletion>, after: seq<Deletion>, from: nat, place: Place)
    requires before <= after && from <= |before| && !NoDeletionAt(before[from..], place)
    ensures !NoDeletionAt(after[from..], place)
  {
    var i :| 0 <= i < |before[from..]| && before[from..][i].meant.place == place;
    assert after[from..][i] == before[from..][i];
  }

  lemma DeletedAt(before: seq<Deletion>, after: seq<Deletion>, from: nat, place: Place)
    requires before <= after && |after| == |before| + 1 && from <= |before|
    ensures NoDeletionAt(after[from..], place)
            <==> NoDeletionAt(before[from..], place) && after[|before|].meant.place != place
  {
    assert after[from..] == before[from..] + [after[|before|]];
  }

  lemma StaysGone(w: World, cmd: Cmd, c: Contract)
    requires Inv(w) && Gone(w.deleted, c)
    ensures Gone(Step(w, cmd).deleted, c) && !Stands(Step(w, cmd).vms, c)
  {
    DeletedGrows(w, cmd);
    StepKeepsInv(w, cmd);
    var after := Step(w, cmd);
    var i :| 0 <= i < |w.deleted| && w.deleted[i].hit == Some(c);
    assert after.deleted[i].hit == Some(c);
  }

  /** The commands of other processes. */
  predicate NotOf(cmd: Cmd, pid: nat) {
    (cmd.DoCleanCheck? || cmd.DoCleanCall? || cmd.DoCleanRecord? || cmd.DoCleanCrash?) ==> cmd.pid != pid
  }

  lemma {:induction false} CleanerWaits(w: World, cmds: seq<Cmd>, pid: nat)
    requires pid in w.cleaners && forall i | 0 <= i < |cmds| :: NotOf(cmds[i], pid)
    ensures pid in Run(w, cmds).cleaners && Run(w, cmds).cleaners[pid] == w.cleaners[pid]
  {
    if cmds != [] {
      CleanerWaits(w, cmds[..|cmds| - 1], pid);
      CleanerWaitsOne(Run(w, cmds[..|cmds| - 1]), cmds[|cmds| - 1], pid);
    }
  }

  lemma CleanerWaitsOne(w: World, cmd: Cmd, pid: nat)
    requires pid in w.cleaners && NotOf(cmd, pid)
    ensures pid in Step(w, cmd).cleaners && Step(w, cmd).cleaners[pid] == w.cleaners[pid]
  {
    if Reconciles(cmd) {
      ReconcilingLeavesSite(w, cmd);
    }
  }

  /** From check to call: a process that checks while its machine stands deletes that machine exactly if no other delete
      call hits the VMID before its own; otherwise it deletes whatever is there by then, or nothing. */
  lemma CallHitsOwnIffUndisturbed(
    w: World, pid: nat, c: Contract, observed: Option<Contract>, approval: nat, now: int, cmds: seq<Cmd>, failed: bool)
    requires Inv(w) && pid !in w.cleaners && CleanupEligible(w, c, observed, approval, now) && Stands(w.vms, c)
    requires forall i | 0 <= i < |cmds| :: NotOf(cmds[i], pid)
    ensures var checked := Step(w, DoCleanCheck(pid, c, observed, approval, now));
            var before := Run(checked, cmds);
            var after := Step(before, DoCleanCall(pid, true, failed));
            && w.deleted <= before.deleted
            && (NoDeletionAt(before.deleted[|w.deleted|..], c.place)
                <==> after.deleted == before.deleted + [Deletion(c, Some(c))])
            && (!NoDeletionAt(before.deleted[|w.deleted|..], c.place) ==>
                  after.deleted
                  == before.deleted + (if c.place in before.vms then [Deletion(c, before.vms[c.place])] else []))
  {
    CheckedCleaner(w, pid, c, observed, approval, now);
    NewCleanerKeepsInv(w, pid, c);
    CheckedThenCalled(w.(cleaners := w.cleaners[pid := Cleaner(c, false)]), pid, c, cmds, failed);
  }

  lemma CheckedCleaner(w: World, pid: nat, c: Contract, observed: Option<Contract>, approval: nat, now: int)
    requires pid !in w.cleaners && CleanupEligible(w, c, observed, approval, now)
    ensures Step(w, DoCleanCheck(pid, c, observed, approval, now))
            == w.(cleaners := w.cleaners[pid := Cleaner(c, false)])
  {
  }

  lemma CheckedThenCalled(w: World, pid: nat, c: Contract, cmds: seq<Cmd>, failed: bool)
    requires Inv(w) && pid in w.cleaners && w.cleaners[pid] == Cleaner(c, false) && Stands(w.vms, c)
    requires forall i | 0 <= i < |cmds| :: NotOf(cmds[i], pid)
    ensures var before := Run(w, cmds);
            var after := Step(before, DoCleanCall(pid, true, failed));
            && w.deleted <= before.deleted
            && (NoDeletionAt(before.deleted[|w.deleted|..], c.place)
                <==> after.deleted == before.deleted + [Deletion(c, Some(c))])
            && (!NoDeletionAt(before.deleted[|w.deleted|..], c.place) ==>
                  after.deleted
                  == before.deleted + (if c.place in before.vms then [Deletion(c, before.vms[c.place])] else []))
  {
    StandsIffUndisturbed(w, cmds, c);
    CleanerWaits(w, cmds, pid);
    CallHitsOwnUnlessGone(Run(w, cmds), pid, failed);
    if Stands(Run(w, cmds).vms, c) {
      NotBoth(Run(w, cmds), c);
    }
  }

  lemma NotBoth(w: World, c: Contract)
    requires Inv(w) && Stands(w.vms, c)
    ensures !Gone(w.deleted, c)
  {
  }

  // ---------------------------------------------------------------- how a foreign machine is hit

  /** A process checks and calls, without interruption. */
  lemma CheckAndCall(w: World, pid: nat, c: Contract, approval: nat, now: int, failed: bool)
    requires pid !in w.cleaners && CleanupEligible(w, c, Some(c), approval, now) && c.place in w.vms
    ensures var called := Step(Step(w, DoCleanCheck(pid, c, Some(c), approval, now)), DoCleanCall(pid, true, failed));
            called == w.(vms := w.vms - {c.place}, deleted := w.deleted + [Deletion(c, w.vms[c.place])],
                         cleaners := if failed then w.cleaners else w.cleaners[pid := Cleaner(c, true)])
  {
    CheckedCleaner(w, pid, c, Some(c), approval, now);
    assert w.cleaners[pid := Cleaner(c, false)] - {pid} == w.cleaners;
  }

  lemma EligibleStays(w: World, other: World, c: Contract, approval: nat, now: int)
    requires CleanupEligible(w, c, Some(c), approval, now)
    requires other == w.(vms := other.vms, deleted := other.deleted, cleaners := other.cleaners)
    ensures CleanupEligible(other, c, Some(c), approval, now)
  {
  }

  /** After a delete call that failed after deleting, the same approval and observation are good for a second one, and
      by then the VMID may be someone else's. */
  lemma RetriedCleanupCanDeleteForeign(w: World, pid: nat, c: Contract, approval: nat, now: int)
    requires pid !in w.cleaners && CleanupEligible(w, c, Some(c), approval, now) && Stands(w.vms, c)
    ensures var torn := Step(Step(w, DoCleanCheck(pid, c, Some(c), approval, now)), DoCleanCall(pid, true, true));
            var taken := Step(torn, ForeignVm(c.place, true));
            Step(Step(taken, DoCleanCheck(pid, c, Some(c), approval, now)), DoCleanCall(pid, true, false)).deleted
            == w.deleted + [Deletion(c, Some(c)), Deletion(c, None)]
  {
    CheckAndCall(w, pid, c, approval, now, true);
    var torn := Step(Step(w, DoCleanCheck(pid, c, Some(c), approval, now)), DoCleanCall(pid, true, true));
    var taken := Step(torn, ForeignVm(c.place, true));
    assert taken == torn.(vms := torn.vms[c.place := None]);
    EligibleStays(w, taken, c, approval, now);
    CheckAndCall(taken, pid, c, approval, now, false);
  }

  /** No call need fail: of two processes that have both checked, one deletes the machine and records it, someone else
      takes the VMID, and the other deletes that. */
  lemma TwoCleanersDeleteForeign(w: World, a: nat, b: nat, c: Contract, approval: nat, now: int)
    requires a != b && a !in w.cleaners && b !in w.cleaners
    requires CleanupEligible(w, c, Some(c), approval, now) && Stands(w.vms, c)
    ensures var checked := Step(Step(w, DoCleanCheck(b, c, Some(c), approval, now)),
                                DoCleanCheck(a, c, Some(c), approval, now));
            var cleaned := Step(Step(checked, DoCleanCall(a, true, false)), DoCleanRecord(a));
            var taken := Step(cleaned, ForeignVm(c.place, true));
            && c.job in cleaned.jobs && cleaned.jobs[c.job].state == CloneCancelled
            && Step(taken, DoCleanCall(b, true, false)).deleted
               == w.deleted + [Deletion(c, Some(c)), Deletion(c, None)]
  {
    var first := Step(w, DoCleanCheck(b, c, Some(c), approval, now));
    assert first == w.(cleaners := w.cleaners[b := Cleaner(c, false)]);
    EligibleStays(w, first, c, approval, now);
    CheckAndCall(first, a, c, approval, now, false);
    var called := Step(Step(first, DoCleanCheck(a, c, Some(c), approval, now)), DoCleanCall(a, true, false));
    RecordThenSecondCall(called, a, b, c);
  }

  lemma RecordIs(w: World, pid: nat, c: Contract)
    requires pid in w.cleaners && w.cleaners[pid] == Cleaner(c, true)
    ensures Step(w, DoCleanRecord(pid))
            == SetJob(w, c, CloneCancelled).(
                 cleaners := w.cleaners - {pid},
                 leases := Restated(w.leases, c.place, Freed))
  {
  }

  lemma RecordThenSecondCall(w: World, a: nat, b: nat, c: Contract)
    requires a != b && a in w.cleaners && w.cleaners[a] == Cleaner(c, true) && c.place !in w.vms
    requires b in w.cleaners && w.cleaners[b] == Cleaner(c, false)
    ensures var cleaned := Step(w, DoCleanRecord(a));
            && c.job in cleaned.jobs && cleaned.jobs[c.job].state == CloneCancelled
            && Step(Step(cleaned, ForeignVm(c.place, true)), DoCleanCall(b, true, false)).deleted
               == w.deleted + [Deletion(c, None)]
  {
    RecordIs(w, a, c);
    var cleaned := Step(w, DoCleanRecord(a));
    TakenIs(cleaned, c.place);
    CallIs(Step(cleaned, ForeignVm(c.place, true)), b, false);
  }

  lemma TakenIs(w: World, place: Place)
    requires place !in w.vms
    ensures Step(w, ForeignVm(place, true)) == w.(vms := w.vms[place := None])
  {
  }

  // ---------------------------------------------------------------- lease rows

  predicate IsLive(intents: map<nat, Intent>, jobs: map<nat, Job>, j: nat) {
    j in intents && j in jobs && jobs[j].state in {CloneIntent, CloneVerified}
  }

  /** A live clone keeps its VMID's lease row. */
  ghost predicate LeasesSound(leases: map<Place, Lease>, intents: map<nat, Intent>, jobs: map<nat, Job>) {
    forall j | IsLive(intents, jobs, j) ::
      var p := intents[j].binding.place;
      p in leases && leases[p].job == j && leases[p].state != Freed
  }

  /** A cleaning process that is back from its call finds the row its own job's, or no live clone's. */
  predicate RecordsOwnRow(w: World, cmd: Cmd) {
    cmd.DoCleanRecord? && cmd.pid in w.cleaners && w.cleaners[cmd.pid].called ==>
      var c := w.cleaners[cmd.pid].c;
      c.place in w.leases && w.leases[c.place].job != c.job ==>
        var j := w.leases[c.place].job;
        !IsLive(w.intents, w.jobs, j) || w.intents[j].binding.place != c.place
  }

  lemma RecordKeepsLeases(
    leases: map<Place, Lease>, intents: map<nat, Intent>, jobs: map<nat, Job>, c: Contract, row: Lease)
    requires LeasesSound(leases, intents, jobs) && c.place in leases && row == leases[c.place].(state := Freed)
    requires c.job in intents && intents[c.job].binding == c
    ensures LeasesSound(leases[c.place := row], intents, jobs[c.job := Job(CloneCancelled, c.place, c.plan)])
            <==> (row.job != c.job && IsLive(intents, jobs, row.job) ==> intents[row.job].binding.place != c.place)
  {
    var after := jobs[c.job := Job(CloneCancelled, c.place, c.plan)];
    assert !IsLive(intents, after, c.job);
    assert forall j | j != c.job :: IsLive(intents, after, j) <==> IsLive(intents, jobs, j);
  }

  lemma RecordKeepsLeasesIff(w: World, pid: nat)
    requires SettledSound(w.intents, w.jobs, w.cleaners, w.reconcilers, w.vms, w.deleted)
    requires LeasesSound(w.leases, w.intents, w.jobs)
    ensures var after := CleanRecord(w, pid);
            LeasesSound(after.leases, after.intents, after.jobs) <==> RecordsOwnRow(w, DoCleanRecord(pid))
  {
    if pid in w.cleaners && w.cleaners[pid].called {
      var c := w.cleaners[pid].c;
      if c.place in w.leases {
        RecordKeepsLeases(w.leases, w.intents, w.jobs, c, w.leases[c.place].(state := Freed));
      } else {
        assert Restated(w.leases, c.place, Freed) == w.leases;
      }
    }
  }

  /** A reconciling process that verifies its contract finds the row its own job's. */
  predicate VerifiesOwnRow(w: World, cmd: Cmd) {
    cmd.DoReconcileWrite? && StandsAt(w, cmd.rid, Decided(Verified)) ==>
      var c := w.reconcilers[cmd.rid].c; c.place in w.leases && w.leases[c.place].job == c.job
  }

  /** The row is no live clone's. */
  predicate NotLive(w: World, place: Place) {
    place in w.leases ==>
      !IsLive(w.intents, w.jobs, w.leases[place].job) || w.intents[w.leases[place].job].binding.place != place
  }

  /** A process that frees a row it has checked finds it no live clone's. */
  predicate FreesNoLive(w: World, cmd: Cmd) {
    cmd.DoSetWrite? && cmd.sid in w.setters ==>
      match w.setters[cmd.sid]
      case Setting(place, to) => to == Freed ==> NotLive(w, place)
      case Letting(c) => c.job in w.jobs && w.jobs[c.job].state == Waiting ==> NotLive(w, c.place)
  }

  predicate Timely(w: World, cmd: Cmd) { RecordsOwnRow(w, cmd) && VerifiesOwnRow(w, cmd) && FreesNoLive(w, cmd) }

  lemma RestatingKeepsLeasesIff(w: World, place: Place, to: LeaseState)
    requires LeasesSound(w.leases, w.intents, w.jobs)
    ensures LeasesSound(Restated(w.leases, place, to), w.intents, w.jobs) <==> (to == Freed ==> NotLive(w, place))
  {
  }

  lemma CancellingKeepsLive(w: World, job: nat, j: nat)
    requires job in w.jobs && w.jobs[job].state == Waiting
    ensures IsLive(w.intents, w.jobs[job := w.jobs[job].(state := CloneCancelled)], j) <==> IsLive(w.intents, w.jobs, j)
  {
  }

  lemma LettingKeepsLeasesIff(w: World, c: Contract)
    requires LeasesSound(w.leases, w.intents, w.jobs) && c.job in w.jobs && w.jobs[c.job].state == Waiting
    ensures LeasesSound(Restated(w.leases, c.place, Freed), w.intents,
                        w.jobs[c.job := w.jobs[c.job].(state := CloneCancelled)])
            <==> NotLive(w, c.place)
  {
    RestatingKeepsLeasesIff(w, c.place, Freed);
    forall j ensures IsLive(w.intents, w.jobs[c.job := w.jobs[c.job].(state := CloneCancelled)], j)
                     <==> IsLive(w.intents, w.jobs, j)
    {
      CancellingKeepsLive(w, c.job, j);
    }
  }

  lemma SettingKeepsLeasesIff(w: World, sid: nat)
    requires LeasesSound(w.leases, w.intents, w.jobs)
    ensures var after := SetWrite(w, sid);
            LeasesSound(after.leases, after.intents, after.jobs) <==> FreesNoLive(w, DoSetWrite(sid))
  {
    if sid in w.setters {
      match w.setters[sid]
      case Setting(place, to) => StateKeepsLeasesIff(w, sid);
      case Letting(c) => LetGoKeepsLeasesIff(w, sid);
    }
  }

  lemma StateKeepsLeasesIff(w: World, sid: nat)
    requires LeasesSound(w.leases, w.intents, w.jobs) && sid in w.setters && w.setters[sid].Setting?
    ensures var after := SetWrite(w, sid);
            LeasesSound(after.leases, after.intents, after.jobs) <==> FreesNoLive(w, DoSetWrite(sid))
  {
    RestatingKeepsLeasesIff(w, w.setters[sid].place, w.setters[sid].to);
  }

  lemma LetGoKeepsLeasesIff(w: World, sid: nat)
    requires LeasesSound(w.leases, w.intents, w.jobs) && sid in w.setters && w.setters[sid].Letting?
    ensures var after := SetWrite(w, sid);
            LeasesSound(after.leases, after.intents, after.jobs) <==> FreesNoLive(w, DoSetWrite(sid))
  {
    var c := w.setters[sid].c;
    if c.job in w.jobs && w.jobs[c.job].state == Waiting {
      LettingKeepsLeasesIff(w, c);
    }
  }

  lemma VerifyKeepsLeases(leases: map<Place, Lease>, intents: map<nat, Intent>, jobs: map<nat, Job>, c: Contract)
    requires LeasesSound(leases, intents, jobs) && c.job in intents && intents[c.job].binding == c
    ensures var row := if c.place in leases then leases[c.place := leases[c.place].(state := Used)] else leases;
            LeasesSound(row, intents, jobs[c.job := Job(CloneVerified, c.place, c.plan)])
            <==> c.place in leases && leases[c.place].job == c.job
  {
    var after := jobs[c.job := Job(CloneVerified, c.place, c.plan)];
    assert IsLive(intents, after, c.job);
    assert forall j | j != c.job :: IsLive(intents, after, j) <==> IsLive(intents, jobs, j);
  }

  lemma PhaseKeepsLeases(w: World, job: nat, phase: Phase)
    requires LeasesSound(w.leases, w.intents, w.jobs) && job in w.intents
    ensures var after := SetPhase(w, job, phase); LeasesSound(after.leases, after.intents, after.jobs)
  {
    PhaseEffect(w, job, phase);
    NotesKeepLeases(w, SetPhase(w, job, phase).intents);
  }

  lemma VerifyingKeepsLeasesIff(w: World, c: Contract)
    requires LeasesSound(w.leases, w.intents, w.jobs) && c.job in w.intents && w.intents[c.job].binding == c
    ensures var after := Verify(w, c);
            LeasesSound(after.leases, after.intents, after.jobs)
            <==> c.place in w.leases && w.leases[c.place].job == c.job
  {
    VerifyEffect(w, c);
    VerifyKeepsLeases(w.leases, w.intents, w.jobs, c);
  }

  lemma ConcludeKeepsLeasesIff(w: World, c: Contract, phase: Phase)
    requires LeasesSound(w.leases, w.intents, w.jobs) && c.job in w.intents && w.intents[c.job].binding == c
    ensures var after := Conclude(w, c, phase);
            LeasesSound(after.leases, after.intents, after.jobs)
            <==> (phase == Verified ==> c.place in w.leases && w.leases[c.place].job == c.job)
  {
    PhaseKeepsLeases(w, c.job, phase);
    if phase == Verified {
      PhaseEffect(w, c.job, Verified);
      VerifyingKeepsLeasesIff(SetPhase(w, c.job, Verified), c);
    }
  }

  lemma WriteKeepsLeasesIff(w: World, rid: nat)
    requires SettledSound(w.intents, w.jobs, w.cleaners, w.reconcilers, w.vms, w.deleted)
    requires LeasesSound(w.leases, w.intents, w.jobs)
    ensures var after := ReconcileWrite(w, rid);
            LeasesSound(after.leases, after.intents, after.jobs) <==> VerifiesOwnRow(w, DoReconcileWrite(rid))
  {
    var phase := WriteCases(w, rid);
    if phase.Some? {
      ConcludeKeepsLeasesIff(w.(reconcilers := w.reconcilers - {rid}), w.reconcilers[rid].c, phase.value);
    }
  }

  lemma ReadsKeepLeases(w: World, cmd: Cmd)
    requires Reconciles(cmd) && !cmd.DoReconcileWrite?
    ensures Step(w, cmd).leases == w.leases && Step(w, cmd).intents == w.intents && Step(w, cmd).jobs == w.jobs
  {
  }

  lemma JobsKeepLeases(w: World, cmd: Cmd)
    requires Inv(w) && LeasesSound(w.leases, w.intents, w.jobs)
    requires cmd.CreateJob? || cmd.MoveJob? || cmd.PlanJob?
    ensures LeasesSound(Step(w, cmd).leases, Step(w, cmd).intents, Step(w, cmd).jobs)
  {
  }

  lemma StartKeepsLeases(w: World, c: Contract, approval: nat, now: int, ready: bool)
    requires LeasesSound(w.leases, w.intents, w.jobs)
    ensures var after := Start(w, c, approval, now, ready); LeasesSound(after.leases, after.intents, after.jobs)
  {
  }

  /** Phases of intents do not matter. */
  lemma NotesKeepLeases(w: World, intents: map<nat, Intent>)
    requires LeasesSound(w.leases, w.intents, w.jobs) && intents.Keys == w.intents.Keys
    requires forall j | j in w.intents :: intents[j].binding == w.intents[j].binding
    ensures LeasesSound(w.leases, intents, w.jobs)
  {
    assert forall j :: IsLive(intents, w.jobs, j) <==> IsLive(w.intents, w.jobs, j);
  }

  lemma CallsKeepLeases(w: World, cmd: Cmd)
    requires LeasesSound(w.leases, w.intents, w.jobs)
    requires cmd.DoRecheck? || cmd.DoDispatch? || cmd.DoRecord? || cmd.Crash? || cmd.DoLand?
    ensures LeasesSound(Step(w, cmd).leases, Step(w, cmd).intents, Step(w, cmd).jobs)
  {
    match cmd
    case DoRecheck(job, now, gates) => RecheckKeepsLeases(w, job, now, gates);
    case DoDispatch(job, accepted, answered) => DispatchKeepsLeases(w, job, accepted, answered);
    case DoRecord(job) => RecordedKeepsLeases(w, job);
    case Crash(job) =>
    case DoLand(c) => LandKeepsLeases(w, c);
  }

  lemma RecheckKeepsLeases(w: World, job: nat, now: int, gates: bool)
    requires LeasesSound(w.leases, w.intents, w.jobs)
    ensures var after := Recheck(w, job, now, gates); LeasesSound(after.leases, after.intents, after.jobs)
  {
    NotesKeepLeases(w, Recheck(w, job, now, gates).intents);
  }

  lemma DispatchKeepsLeases(w: World, job: nat, accepted: bool, answered: bool)
    ensures var after := Dispatch(w, job, accepted, answered);
            after.leases == w.leases && after.intents == w.intents && after.jobs == w.jobs
  {
  }

  lemma RecordedKeepsLeases(w: World, job: nat)
    requires LeasesSound(w.leases, w.intents, w.jobs)
    ensures var after := Record(w, job); LeasesSound(after.leases, after.intents, after.jobs)
  {
    NotesKeepLeases(w, Record(w, job).intents);
  }

  lemma LandKeepsLeases(w: World, c: Contract)
    ensures Land(w, c).leases == w.leases && Land(w, c).jobs == w.jobs && Land(w, c).intents == w.intents
  {
  }

  lemma RowsKeepLeases(w: World, cmd: Cmd)
    requires LeasesSound(w.leases, w.intents, w.jobs)
    requires cmd.DoAllocate? || cmd.DoAdopt? || cmd.DoSetCheck? || cmd.DoLetCheck?
    ensures LeasesSound(Step(w, cmd).leases, Step(w, cmd).intents, Step(w, cmd).jobs)
  {
  }

  lemma StepKeepsLeasesIff(w: World, cmd: Cmd)
    requires Inv(w) && LeasesSound(w.leases, w.intents, w.jobs)
    ensures LeasesSound(Step(w, cmd).leases, Step(w, cmd).intents, Step(w, cmd).jobs) <==> Timely(w, cmd)
  {
    if cmd.DoCleanRecord? {
      RecordKeepsLeasesIff(w, cmd.pid);
    } else if cmd.DoReconcileWrite? {
      WriteKeepsLeasesIff(w, cmd.rid);
    } else if cmd.DoSetWrite? {
      SettingKeepsLeasesIff(w, cmd.sid);
    } else {
      OthersKeepLeases(w, cmd);
    }
  }

  lemma OthersKeepLeases(w: World, cmd: Cmd)
    requires Inv(w) && LeasesSound(w.leases, w.intents, w.jobs)
    requires !cmd.DoCleanRecord? && !cmd.DoReconcileWrite? && !cmd.DoSetWrite?
    ensures LeasesSound(Step(w, cmd).leases, Step(w, cmd).intents, Step(w, cmd).jobs)
  {
    if Reconciles(cmd) {
      ReadsKeepLeases(w, cmd);
    } else if cmd.DoAllocate? || cmd.DoAdopt? || cmd.DoSetCheck? || cmd.DoLetCheck? {
      RowsKeepLeases(w, cmd);
    } else if cmd.DoStart? {
      StartKeepsLeases(w, cmd.c, cmd.approval, cmd.now, cmd.ready);
    } else if cmd.CreateJob? || cmd.MoveJob? || cmd.PlanJob? {
      JobsKeepLeases(w, cmd);
    } else if cmd.DoRecheck? || cmd.DoDispatch? || cmd.DoRecord? || cmd.Crash? || cmd.DoLand? {
      CallsKeepLeases(w, cmd);
    }
  }

  /** After every step of the run. */
  ghost predicate LeasesAlwaysSound(w: World, cmds: seq<Cmd>) {
    && LeasesSound(Run(w, cmds).leases, Run(w, cmds).intents, Run(w, cmds).jobs)
    && (cmds != [] ==> LeasesAlwaysSound(w, cmds[..|cmds| - 1]))
  }

  /** No cleaning process records, no reconciling one verifies, and no release is written, on a row that has become
      another's. */
  ghost predicate TimelyWrites(w: World, cmds: seq<Cmd>) {
    cmds != [] ==>
      TimelyWrites(w, cmds[..|cmds| - 1]) && Timely(Run(w, cmds[..|cmds| - 1]), cmds[|cmds| - 1])
  }

  /** Live clones keep their lease rows through a whole run exactly if no cleaning process and no release comes back
      late, to a row that has become a live clone's, and no reconciling process, to a row that is not its own job's any
      more. */
  lemma {:induction false} LeasesStayIff(transport: Transport, cmds: seq<Cmd>)
    ensures LeasesAlwaysSound(Opening(transport), cmds) <==> TimelyWrites(Opening(transport), cmds)
  {
    if cmds != [] {
      var w, last := Opening(transport), |cmds| - 1;
      LeasesStayIff(transport, cmds[..last]);
      if LeasesAlwaysSound(w, cmds[..last]) {
        CloneRunsKeepInv(transport, cmds[..last]);
        StepKeepsLeasesIff(Run(w, cmds[..last]), cmds[last]);
      }
    }
  }

  /** So two live clones never share a VMID, unless a process has come back late. */
  lemma LiveClonesHaveDistinctPlaces(transport: Transport, cmds: seq<Cmd>, j: nat, k: nat)
    requires TimelyWrites(Opening(transport), cmds)
    requires var w := Run(Opening(transport), cmds);
             j != k && IsLive(w.intents, w.jobs, j) && IsLive(w.intents, w.jobs, k)
    ensures var w := Run(Opening(transport), cmds);
            && w.jobs[j].place != w.jobs[k].place
            && w.jobs[j].place in w.leases && w.leases[w.jobs[j].place].job == j
  {
    var w := Run(Opening(transport), cmds);
    LeasesStayIff(transport, cmds);
    CloneRunsKeepInv(transport, cmds);
    assert IntentSound(j, w.intents[j], w.approvals, w.jobs) && IntentSound(k, w.intents[k], w.approvals, w.jobs);
  }
}
