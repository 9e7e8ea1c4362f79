/** What every run of the clone protocol keeps, whatever the interleaving and wherever processes crash. */
module CloneSafety {
  import opened CloneSlot
  import opened Wrappers

  // ---------------------------------------------------------------- the invariant

  /** An intent belongs to its job, spent an approval for exactly its contract, and its job is in the clone lane. */
  ghost predicate IntentSound(job: nat, intent: Intent, approvals: seq<Approval>, jobs: map<nat, Job>) {
    && intent.binding.job == job
    && intent.approval < |approvals|
    && approvals[intent.approval].binding == intent.binding
    && approvals[intent.approval].action == CloneOnly && approvals[intent.approval].consumed
    && job in jobs && jobs[job].place == intent.binding.place && jobs[job].plan == intent.binding.plan
    && jobs[job].state in {CloneIntent, CloneVerified, CloneCancelled}
  }

  ghost predicate IntentsSound(intents: map<nat, Intent>, approvals: seq<Approval>, jobs: map<nat, Job>) {
    && (forall j | j in intents :: IntentSound(j, intents[j], approvals, jobs))
    && (forall j, k | j in intents && k in intents && j != k :: intents[j].approval != intents[k].approval)
    && (forall j | j in jobs && jobs[j].state in {CloneIntent, CloneVerified} :: j in intents)
  }

  predicate NotSent(sends: seq<Contract>, job: nat) { forall i | 0 <= i < |sends| :: sends[i].job != job }

  /** At most one clone call per job, each for its intent's contract. */
  ghost predicate SendsSound(sends: seq<Contract>, intents: map<nat, Intent>) {
    && (forall i | 0 <= i < |sends| :: sends[i].job in intents && intents[sends[i].job].binding == sends[i])
    && (forall i, k | 0 <= i < k < |sends| :: sends[i].job != sends[k].job)
  }

  /** A process that may still call the provider owns the slot, and its job was not sent before. */
  ghost predicate ProcsSound(procs: map<nat, Pc>, owner: Option<nat>, sends: seq<Contract>, intents: map<nat, Intent>) {
    forall j | j in procs ::
      && j in intents
      && (!procs[j].Sent? ==> owner == Some(j) && NotSent(sends, j))
  }

  /** Every machine that carries a marker, or is about to, comes from a clone call. */
  ghost predicate MachinesSound(vms: map<Place, Option<Contract>>, landing: set<Contract>, sends: seq<Contract>) {
    && (forall p | p in vms && vms[p].Some? :: vms[p].value.place == p && vms[p].value in sends)
    && (forall c | c in landing :: c in sends)
  }

  /** Who holds the slot. Simulator: the one job in clone_intent. Real: the one job that ever had an intent. */
  ghost predicate SlotSound(transport: Transport, owner: Option<nat>, intents: map<nat, Intent>, jobs: map<nat, Job>) {
    && (transport == Simulator ==>
          && (forall j | j in jobs && jobs[j].state == CloneIntent :: owner == Some(j))
          && (owner.Some? ==> owner.value in jobs && jobs[owner.value].state == CloneIntent))
    && (transport == Real ==>
          && (forall j | j in intents :: owner == Some(j))
          && (owner.Some? ==> owner.value in intents))
  }

  predicate Stands(vms: map<Place, Option<Contract>>, c: Contract) { c.place in vms && vms[c.place] == Some(c) }

  ghost predicate Gone(deleted: seq<Deletion>, c: Contract) {
    exists i | 0 <= i < |deleted| :: deleted[i].hit == Some(c)
  }

  /** A clone call's machine is being made, or stands, or was deleted, once: never two of these. */
  ghost predicate LivesOnce(
    vms: map<Place, Option<Contract>>, landing: set<Contract>, sends: seq<Contract>, deleted: seq<Deletion>) {
    && (forall c | c in landing :: !Stands(vms, c))
    && (forall i | 0 <= i < |deleted| && deleted[i].hit.Some? ::
          var c := deleted[i].hit.value;
          c in sends && c !in landing && !Stands(vms, c) && c.place == deleted[i].meant.place)
    && (forall i, k | 0 <= i < k < |deleted| && deleted[i].hit.Some? :: deleted[i].hit != deleted[k].hit)
  }

  /** A machine that was verified stands until it is deleted; nobody but the protocol deletes it. */
  ghost predicate Settled(vms: map<Place, Option<Contract>>, deleted: seq<Deletion>, c: Contract) {
    Stands(vms, c) || Gone(deleted, c)
  }

  /** The process has seen its contract's machine. */
  predicate HasSeen(stand: Stand) { stand.Seen? || stand.LeaseFound? || stand == Decided(Verified) }

  /** Verified clones, the contracts of cleaning processes and those of reconciling ones that have seen their machine
      are settled. */
  ghost predicate SettledSound(
    intents: map<nat, Intent>, jobs: map<nat, Job>, cleaners: map<nat, Cleaner>, reconcilers: map<nat, Reconciler>,
      vms: map<Place, Option<Contract>>, deleted: seq<Deletion>) {
    && (forall j | j in intents && j in jobs && jobs[j].state == CloneVerified ::
          Settled(vms, deleted, intents[j].binding))
    && (forall p | p in cleaners ::
          var c := cleaners[p].c;
          && c.job in intents && intents[c.job].binding == c && Settled(vms, deleted, c)
          && c.job in jobs && jobs[c.job].state in {CloneVerified, CloneCancelled})
    && (forall r | r in reconcilers ::
          var c := reconcilers[r].c;
          && c.job in intents && intents[c.job].binding == c && reconcilers[r].phase != Verified
          && (HasSeen(reconcilers[r].stand) ==> Settled(vms, deleted, c)))
  }

  /** A delete call hits the machine it is meant for, or an earlier one has. */
  ghost predicate DeletionsSound(deleted: seq<Deletion>) {
    forall i | 0 <= i < |deleted| :: deleted[i].hit == Some(deleted[i].meant) || Gone(deleted[..i], deleted[i].meant)
  }

  /** Jobs, approvals, processes and the slot. */
  ghost predicate ClaimsSound(w: World) {
    && IntentsSound(w.intents, w.approvals, w.jobs)
    && SendsSound(w.sends, w.intents)
    && ProcsSound(w.procs, w.owner, w.sends, w.intents)
    && SlotSound(w.transport, w.owner, w.intents, w.jobs)
  }

  /** Machines and deletions. */
  ghost predicate SiteSound(w: World) {
    && MachinesSound(w.vms, w.landing, w.sends)
    && LivesOnce(w.vms, w.landing, w.sends, w.deleted)
    && DeletionsSound(w.deleted)
    && (w.transport == Real ==> w.cleaners == map[] && w.deleted == [])
  }

  ghost predicate Inv(w: World) {
    ClaimsSound(w) && SiteSound(w) && SettledSound(w.intents, w.jobs, w.cleaners, w.reconcilers, w.vms, w.deleted)
  }

  // ---------------------------------------------------------------- one lemma per step

  /** The approval and job updates of Start together with its new intent. */
  lemma ClaimKeepsIntents(intents: map<nat, Intent>, approvals: seq<Approval>, jobs: map<nat, Job>, c: Contract,
      id: nat)
    requires IntentsSound(intents, approvals, jobs) && c.job !in intents
    requires id < |approvals| && approvals[id].binding == c && approvals[id].action == CloneOnly
        && !approvals[id].consumed
    ensures IntentsSound(
              intents[c.job := Intent(c, id, Requested, false)],
              approvals[id := approvals[id].(consumed := true)],
              jobs[c.job := Job(CloneIntent, c.place, c.plan)])
  {
    var intents', approvals' := intents[c.job := Intent(c, id, Requested, false)],
        approvals[id := approvals[id].(consumed := true)];
    var jobs' := jobs[c.job := Job(CloneIntent, c.place, c.plan)];
    forall j | j in intents' ensures IntentSound(j, intents'[j], approvals', jobs') {
      assert j in intents ==> IntentSound(j, intents[j], approvals, jobs);
    }
  }

  lemma ClaimKeepsRest(w: World, c: Contract, id: nat)
    requires Inv(w) && c.job !in w.intents && w.owner.None? && JobMatches(w, c, Waiting)
    ensures var intents, jobs := w.intents[c.job := Intent(c, id, Requested, false)],
        w.jobs[c.job := Job(CloneIntent, c.place, c.plan)];
            && SendsSound(w.sends, intents)
            && ProcsSound(w.procs[c.job := Committed], Some(c.job), w.sends, intents)
            && SlotSound(w.transport, Some(c.job), intents, jobs)
            && SettledSound(intents, jobs, w.cleaners, w.reconcilers, w.vms, w.deleted)
  {
    var intents, jobs := w.intents[c.job := Intent(c, id, Requested, false)],
        w.jobs[c.job := Job(CloneIntent, c.place, c.plan)];
    ClaimKeepsSends(w, c, intents);
    assert SlotSound(w.transport, Some(c.job), intents, jobs);
    NotesKeepSettled(w, intents, jobs);
  }

  lemma ClaimKeepsSends(w: World, c: Contract, intents: map<nat, Intent>)
    requires SendsSound(w.sends, w.intents) && ProcsSound(w.procs, w.owner, w.sends, w.intents) && w.owner.None?
    requires c.job !in w.intents && c.job in intents
    requires forall j | j in w.intents :: j in intents && intents[j] == w.intents[j]
    ensures SendsSound(w.sends, intents) && ProcsSound(w.procs[c.job := Committed], Some(c.job), w.sends, intents)
  {
    assert NotSent(w.sends, c.job);
  }

  lemma StartKeepsInv(w: World, c: Contract, approval: nat, now: int, ready: bool)
    requires Inv(w)
    ensures Inv(Start(w, c, approval, now, ready))
  {
    if Start(w, c, approval, now, ready) != w {
      ClaimKeepsIntents(w.intents, w.approvals, w.jobs, c, approval);
      ClaimKeepsRest(w, c, approval);
    }
  }

  /** Intents and jobs may change in what nobody looks at again. */
  lemma NotesKeepSettled(w: World, intents: map<nat, Intent>, jobs: map<nat, Job>)
    requires SettledSound(w.intents, w.jobs, w.cleaners, w.reconcilers, w.vms, w.deleted)
    requires forall j | j in w.intents :: j in intents && intents[j].binding == w.intents[j].binding
    requires forall j | j in w.intents && j in w.jobs && w.jobs[j].state in {CloneVerified, CloneCancelled} ::
               j in jobs && jobs[j].state in {CloneVerified, CloneCancelled}
    requires forall j | j in intents && j in jobs && jobs[j].state == CloneVerified ::
               || (j in w.intents && j in w.jobs && w.jobs[j].state == CloneVerified)
               || Settled(w.vms, w.deleted, intents[j].binding)
    ensures SettledSound(intents, jobs, w.cleaners, w.reconcilers, w.vms, w.deleted)
  {
  }

  /** A new phase or upid of an intent is invisible to the invariant. */
  lemma IntentNoteKeepsInv(w: World, job: nat, intent: Intent)
    requires Inv(w) && job in w.intents
    requires intent.binding == w.intents[job].binding && intent.approval == w.intents[job].approval
    ensures Inv(w.(intents := w.intents[job := intent]))
  {
    var after := w.(intents := w.intents[job := intent]);
    forall j | j in w.intents ensures IntentSound(j, after.intents[j], after.approvals, after.jobs) {
      assert IntentSound(j, w.intents[j], w.approvals, w.jobs);
    }
    NotesKeepSettled(w, after.intents, w.jobs);
  }

  lemma EndsKeepsInv(w: World, job: nat)
    requires Inv(w)
    ensures Inv(Ends(w, job))
  {
  }

  lemma RecheckKeepsInv(w: World, job: nat, now: int, gates: bool)
    requires Inv(w)
    ensures Inv(Recheck(w, job, now, gates))
  {
    if Recheck(w, job, now, gates) == w.(procs := w.procs[job := Cleared]) {
    } else if job in w.procs && w.procs[job] == Committed && job in w.intents {
      IntentNoteKeepsInv(w, job, w.intents[job].(phase := NotAttempted));
      EndsKeepsInv(SetPhase(w, job, NotAttempted), job);
    }
  }

  predicate Sends(w: World, job: nat) { job in w.procs && w.procs[job] == Cleared && job in w.intents }

  lemma SendKeepsClaims(w: World, job: nat, accepted: bool, answered: bool)
    requires ClaimsSound(w) && Sends(w, job)
    ensures ClaimsSound(Dispatch(w, job, accepted, answered))
  {
    assert IntentSound(job, w.intents[job], w.approvals, w.jobs);
    assert Dispatch(w, job, accepted, answered).sends[|w.sends|] == w.intents[job].binding;
  }

  lemma SendKeepsSite(w: World, job: nat, accepted: bool, answered: bool)
    requires SiteSound(w) && Sends(w, job) && w.intents[job].binding !in w.sends
    ensures SiteSound(Dispatch(w, job, accepted, answered))
  {
    var c := w.intents[job].binding;
    assert forall d :: d in w.sends ==> d in w.sends + [c];
    assert (w.sends + [c])[|w.sends|] == c;
  }

  lemma SendKeepsSettled(w: World, job: nat, accepted: bool, answered: bool)
    requires SettledSound(w.intents, w.jobs, w.cleaners, w.reconcilers, w.vms, w.deleted)
    ensures var after := Dispatch(w, job, accepted, answered);
            SettledSound(after.intents, after.jobs, after.cleaners, after.reconcilers, after.vms, after.deleted)
  {
  }

  lemma DispatchKeepsInv(w: World, job: nat, accepted: bool, answered: bool)
    requires Inv(w)
    ensures Inv(Dispatch(w, job, accepted, answered))
  {
    if Sends(w, job) {
      assert IntentSound(job, w.intents[job], w.approvals, w.jobs);
      SendKeepsClaims(w, job, accepted, answered);
      SendKeepsSite(w, job, accepted, answered);
      SendKeepsSettled(w, job, accepted, answered);
    }
  }

  lemma RecordKeepsInv(w: World, job: nat)
    requires Inv(w)
    ensures Inv(Record(w, job))
  {
    if job in w.procs && w.procs[job].Sent? && job in w.intents {
      var intent := w.intents[job];
      var note := if w.procs[job].acked then intent.(phase := Acknowledged, upid := true)
          else intent.(phase := Ambiguous);
      IntentNoteKeepsInv(w, job, note);
      EndsKeepsInv(w.(intents := w.intents[job := note]), job);
    }
  }

  lemma SettledIsSent(w: World, c: Contract)
    requires SiteSound(w) && Settled(w.vms, w.deleted, c)
    ensures c in w.sends && !NotSent(w.sends, c.job)
  {
    if !Stands(w.vms, c) {
      var i :| 0 <= i < |w.deleted| && w.deleted[i].hit == Some(c);
    }
    var k :| 0 <= k < |w.sends| && w.sends[k] == c;
  }

  /** The job may have been verified, and cleaned up, by others meanwhile. */
  lemma VerifyKeepsInv(w: World, c: Contract)
    requires Inv(w) && c.job in w.intents && w.intents[c.job].binding == c && Settled(w.vms, w.deleted, c)
    ensures Inv(Verify(w, c))
  {
    var after := Verify(w, c);
    assert IntentsSound(after.intents, after.approvals, after.jobs) by {
      forall j | j in w.intents ensures IntentSound(j, w.intents[j], w.approvals, after.jobs) {
        assert IntentSound(j, w.intents[j], w.approvals, w.jobs);
      }
    }
    assert IntentSound(c.job, w.intents[c.job], w.approvals, w.jobs);
    SettledIsSent(w, c);
    assert SlotSound(after.transport, after.owner, after.intents, after.jobs);
    NotesKeepSettled(w, w.intents, after.jobs);
  }

  /** A reconciling process goes on or ends. */
  lemma StandKeepsInv(w: World, rid: nat, stand: Stand)
    requires Inv(w) && rid in w.reconcilers
    requires HasSeen(stand) ==> HasSeen(w.reconcilers[rid].stand) || Stands(w.vms, w.reconcilers[rid].c)
    ensures Inv(SetStand(w, rid, stand))
    ensures Inv(w.(reconcilers := w.reconcilers - {rid}))
  {
  }

  lemma ReconcileLoadKeepsInv(w: World, rid: nat, c: Contract)
    requires Inv(w)
    ensures Inv(ReconcileLoad(w, rid, c))
  {
  }

  lemma ReconcileSeeKeepsInv(w: World, rid: nat, task: Task, answered: bool, settled: bool)
    requires Inv(w)
    ensures Inv(ReconcileSee(w, rid, task, answered, settled))
  {
    if StandsAt(w, rid, Loaded) {
      var r := w.reconcilers[rid];
      StandKeepsInv(w, rid, Judged(w, r.c, r.upid, task, answered, settled));
    }
  }

  lemma ReconcileChecksKeepInv(w: World, rid: nat)
    requires Inv(w)
    ensures Inv(ReconcileLease(w, rid)) && Inv(ReconcileJob(w, rid))
  {
    if StandsAt(w, rid, Seen) {
      StandKeepsInv(w, rid, ReconcileLease(w, rid).reconcilers[rid].stand);
    } else if StandsAt(w, rid, LeaseFound) {
      StandKeepsInv(w, rid, ReconcileJob(w, rid).reconcilers[rid].stand);
    }
  }

  lemma ReconcileCrashKeepsInv(w: World, rid: nat)
    requires Inv(w)
    ensures Inv(ReconcileCrash(w, rid))
  {
  }

  predicate Reconciles(cmd: Cmd) {
    cmd.DoReconcileLoad? || cmd.DoReconcileSee? || cmd.DoReconcileLease? || cmd.DoReconcileJob?
    || cmd.DoReconcileWrite? || cmd.DoReconcileCrash?
  }

  lemma ReadKeepsInv(w: World, cmd: Cmd)
    requires Inv(w) && (cmd.DoReconcileSee? || cmd.DoReconcileLease? || cmd.DoReconcileJob?)
    ensures Inv(Step(w, cmd))
  {
    if cmd.DoReconcileSee? {
      ReconcileSeeKeepsInv(w, cmd.rid, cmd.task, cmd.answered, cmd.settled);
    } else {
      ReconcileChecksKeepInv(w, cmd.rid);
    }
  }

  lemma ReconcileKeepsInv(w: World, cmd: Cmd)
    requires Inv(w) && Reconciles(cmd)
    ensures Inv(Step(w, cmd))
  {
    if cmd.DoReconcileWrite? {
      ReconcileWriteKeepsInv(w, cmd.rid);
    } else if cmd.DoReconcileLoad? || cmd.DoReconcileCrash? {
      ComeAndGoKeepsInv(w, cmd);
    } else {
      ReadKeepsInv(w, cmd);
    }
  }

  lemma ComeAndGoKeepsInv(w: World, cmd: Cmd)
    requires Inv(w) && (cmd.DoReconcileLoad? || cmd.DoReconcileCrash?)
    ensures Inv(Step(w, cmd))
  {
    if cmd.DoReconcileLoad? {
      ReconcileLoadKeepsInv(w, cmd.rid, cmd.c);
    } else {
      ReconcileCrashKeepsInv(w, cmd.rid);
    }
  }

  /** The write ends the process and leaves all else alone, notes a phase, or verifies a contract whose machine the
      process has seen. */
  lemma WriteCases(w: World, rid: nat) returns (phase: Option<Phase>)
    requires SettledSound(w.intents, w.jobs, w.cleaners, w.reconcilers, w.vms, w.deleted)
    ensures var after := ReconcileWrite(w, rid);
            var done := w.(reconcilers := w.reconcilers - {rid});
            && (phase.None? ==> after == w || after == done)
            && (phase.Some? ==>
                  && rid in w.reconcilers && w.reconcilers[rid].stand == Decided(phase.value)
                  && var c := w.reconcilers[rid].c;
                     && c.job in w.intents && w.intents[c.job].binding == c
                     && (phase.value == Verified ==> Settled(w.vms, w.deleted, c))
                     && after == Conclude(done, c, phase.value))
            && (phase.None? ==> !StandsAt(w, rid, Decided(Verified)))
  {
    if rid !in w.reconcilers || !w.reconcilers[rid].stand.Decided? {
      return None;
    }
    var r := w.reconcilers[rid];
    phase := if r.stand.next == r.phase || r.c.job !in w.intents then None else Some(r.stand.next);
  }

  lemma PhaseEffect(w: World, job: nat, phase: Phase)
    requires job in w.intents
    ensures var after := SetPhase(w, job, phase);
            && after.transport == w.transport && after.kill == w.kill && after.procs == w.procs
            && after.sends == w.sends && after.owner == w.owner && after.jobs == w.jobs && after.leases == w.leases
            && after.vms == w.vms && after.deleted == w.deleted && after.cleaners == w.cleaners
            && after.intents.Keys == w.intents.Keys
            && (forall j | j in w.intents :: after.intents[j].binding == w.intents[j].binding)
  {
  }

  lemma VerifyEffect(w: World, c: Contract)
    ensures var after := Verify(w, c);
            && after.transport == w.transport && after.kill == w.kill && after.procs == w.procs
            && after.sends == w.sends && after.intents == w.intents
            && after.vms == w.vms && after.deleted == w.deleted && after.cleaners == w.cleaners
            && after.jobs == w.jobs[c.job := Job(CloneVerified, c.place, c.plan)]
            && after.leases == Restated(w.leases, c.place, Used)
            && (after.owner == w.owner || w.owner == Some(c.job))
  {
  }

  lemma ConcludeKeepsInv(w: World, c: Contract, phase: Phase)
    requires Inv(w) && c.job in w.intents && w.intents[c.job].binding == c
    requires phase == Verified ==> Settled(w.vms, w.deleted, c)
    ensures Inv(Conclude(w, c, phase))
  {
    IntentNoteKeepsInv(w, c.job, w.intents[c.job].(phase := phase));
    if phase == Verified {
      VerifyKeepsInv(SetPhase(w, c.job, Verified), c);
    }
  }

  lemma ReconcileWriteKeepsInv(w: World, rid: nat)
    requires Inv(w)
    ensures Inv(ReconcileWrite(w, rid))
  {
    var phase := WriteCases(w, rid);
    if rid in w.reconcilers {
      StandKeepsInv(w, rid, Loaded);
    }
    if phase.Some? {
      ConcludeKeepsInv(w.(reconcilers := w.reconcilers - {rid}), w.reconcilers[rid].c, phase.value);
    }
  }

  // ---------------------------------------------------------------- reconciliation without interruption

  function ReconcileCmds(rid: nat, c: Contract, task: Task, answered: bool, settled: bool): seq<Cmd> {
    [DoReconcileLoad(rid, c), DoReconcileSee(rid, task, answered, settled), DoReconcileLease(rid), DoReconcileJob(rid),
     DoReconcileWrite(rid)]
  }

  lemma RunStep(w: World, cmds: seq<Cmd>, k: nat)
    requires k < |cmds|
    ensures Run(w, cmds[..k + 1]) == Step(Run(w, cmds[..k]), cmds[k])
  {
    assert cmds[..k + 1][..k] == cmds[..k];
  }

  /** The world with one more reconciling process. */
  function With(w: World, rid: nat, r: Reconciler): (after: World)
    ensures after == w.(reconcilers := after.reconcilers)
  {
    w.(reconcilers := w.reconcilers[rid := r])
  }

  lemma LoadIs(w: World, rid: nat, c: Contract)
    requires rid !in w.reconcilers
    ensures ReconcileLoad(w, rid, c)
            == if c.job in w.intents && w.intents[c.job].binding == c && w.intents[c.job].phase != Verified
               then With(w, rid, Reconciler(c, w.intents[c.job].phase, w.intents[c.job].upid, Loaded)) else w
  {
  }

  lemma StandIs(w: World, rid: nat, r: Reconciler, stand: Stand)
    ensures SetStand(With(w, rid, r), rid, stand) == With(w, rid, r.(stand := stand))
  {
    assert w.reconcilers[rid := r][rid := r.(stand := stand)] == w.reconcilers[rid := r.(stand := stand)];
  }

  lemma SeeIs(w: World, rid: nat, r: Reconciler, task: Task, answered: bool, settled: bool)
    requires r.stand == Loaded
    ensures ReconcileSee(With(w, rid, r), rid, task, answered, settled)
            == With(w, rid, r.(stand := Judged(w, r.c, r.upid, task, answered, settled)))
  {
    var stand := Judged(w, r.c, r.upid, task, answered, settled);
    assert Judged(With(w, rid, r), r.c, r.upid, task, answered, settled) == stand;
    StandIs(w, rid, r, stand);
  }

  /** What the two reads of the database make of a process that has seen its machine. */
  function Checked(w: World, r: Reconciler): Stand {
    if r.stand != Seen then r.stand
    else if LeaseValid(w, r.c, Leased) && JobMatches(w, r.c, CloneIntent) && (r.upid || w.transport == Simulator)
    then Decided(Verified)
    else Decided(Review)
  }

  lemma LeaseIs(w: World, rid: nat, r: Reconciler)
    requires r.stand == Seen
    ensures ReconcileLease(With(w, rid, r), rid)
            == With(w, rid, r.(stand := if LeaseValid(w, r.c, Leased) then LeaseFound else Decided(Review)))
  {
    assert LeaseValid(With(w, rid, r), r.c, Leased) == LeaseValid(w, r.c, Leased);
    StandIs(w, rid, r, if LeaseValid(w, r.c, Leased) then LeaseFound else Decided(Review));
  }

  lemma JobIs(w: World, rid: nat, r: Reconciler)
    requires r.stand == LeaseFound
    ensures var stand := Decided(if JobMatches(w, r.c, CloneIntent) && (r.upid || w.transport == Simulator)
                                 then Verified else Review);
            ReconcileJob(With(w, rid, r), rid) == With(w, rid, r.(stand := stand))
  {
    assert JobMatches(With(w, rid, r), r.c, CloneIntent) == JobMatches(w, r.c, CloneIntent);
    StandIs(w, rid, r, Decided(if JobMatches(w, r.c, CloneIntent) && (r.upid || w.transport == Simulator)
                               then Verified else Review));
  }

  lemma ChecksAre(w: World, rid: nat, r: Reconciler)
    requires r.stand == Seen || r.stand.Decided?
    ensures ReconcileJob(ReconcileLease(With(w, rid, r), rid), rid) == With(w, rid, r.(stand := Checked(w, r)))
  {
    if r.stand == Seen {
      LeaseIs(w, rid, r);
      if LeaseValid(w, r.c, Leased) {
        JobIs(w, rid, r.(stand := LeaseFound));
      }
    }
  }

  lemma WriteIs(w: World, rid: nat, r: Reconciler)
    requires rid !in w.reconcilers && r.c.job in w.intents && r.stand.Decided? && r.phase != Verified
    ensures ReconcileWrite(With(w, rid, r), rid)
            == if r.stand.next == r.phase then w else Conclude(w, r.c, r.stand.next)
  {
    assert w.reconcilers[rid := r] - {rid} == w.reconcilers;
    assert With(w, rid, r).(reconcilers := w.reconcilers) == w;
  }

  lemma ReconcileReads(w: World, cmds: seq<Cmd>, rid: nat, c: Contract, task: Task, answered: bool, settled: bool)
    requires |cmds| >= 2 && cmds[0] == DoReconcileLoad(rid, c)
    requires cmds[1] == DoReconcileSee(rid, task, answered, settled)
    ensures Run(w, cmds[..2]) == ReconcileSee(ReconcileLoad(w, rid, c), rid, task, answered, settled)
  {
    RunStep(w, cmds, 0);
    RunStep(w, cmds, 1);
  }

  lemma ReconcileReadsLease(w: World, cmds: seq<Cmd>, k: nat, rid: nat)
    requires k < |cmds| && cmds[k] == DoReconcileLease(rid)
    ensures Run(w, cmds[..k + 1]) == ReconcileLease(Run(w, cmds[..k]), rid)
  {
    RunStep(w, cmds, k);
  }

  lemma ReconcileReadsJob(w: World, cmds: seq<Cmd>, k: nat, rid: nat)
    requires k < |cmds| && cmds[k] == DoReconcileJob(rid)
    ensures Run(w, cmds[..k + 1]) == ReconcileJob(Run(w, cmds[..k]), rid)
  {
    RunStep(w, cmds, k);
  }

  lemma ReconcileWrites(w: World, cmds: seq<Cmd>, k: nat, rid: nat)
    requires k < |cmds| && cmds[k] == DoReconcileWrite(rid)
    ensures Run(w, cmds[..k + 1]) == ReconcileWrite(Run(w, cmds[..k]), rid)
  {
    RunStep(w, cmds, k);
  }

  /** What the five functions in a row come to. */
  lemma WholeCall(w: World, rid: nat, c: Contract, task: Task, answered: bool, settled: bool)
    requires rid !in w.reconcilers
    ensures var seen := ReconcileSee(ReconcileLoad(w, rid, c), rid, task, answered, settled);
            ReconcileWrite(ReconcileJob(ReconcileLease(seen, rid), rid), rid)
            == Reconcile(w, c, task, answered, settled)
  {
    LoadIs(w, rid, c);
    if c.job in w.intents && w.intents[c.job].binding == c && w.intents[c.job].phase != Verified {
      var r := Reconciler(c, w.intents[c.job].phase, w.intents[c.job].upid, Loaded);
      SeeIs(w, rid, r, task, answered, settled);
      SeenCall(w, rid, r.(stand := Judged(w, c, r.upid, task, answered, settled)));
      AllIs(w, c, task, answered, settled);
    }
  }

  lemma SeenCall(w: World, rid: nat, r: Reconciler)
    requires rid !in w.reconcilers && r.c.job in w.intents && r.phase != Verified
    requires r.stand == Seen || r.stand.Decided?
    ensures Checked(w, r).Decided?
    ensures ReconcileWrite(ReconcileJob(ReconcileLease(With(w, rid, r), rid), rid), rid)
            == if Checked(w, r).next == r.phase then w else Conclude(w, r.c, Checked(w, r).next)
  {
    ChecksAre(w, rid, r);
    WriteIs(w, rid, r.(stand := Checked(w, r)));
  }

  lemma FiveInARow(w: World, cmds: seq<Cmd>, rid: nat, c: Contract, task: Task, answered: bool, settled: bool)
    requires |cmds| == 5 && cmds[0] == DoReconcileLoad(rid, c)
    requires cmds[1] == DoReconcileSee(rid, task, answered, settled) && cmds[2] == DoReconcileLease(rid)
    requires cmds[3] == DoReconcileJob(rid) && cmds[4] == DoReconcileWrite(rid)
    ensures var seen := ReconcileSee(ReconcileLoad(w, rid, c), rid, task, answered, settled);
            Run(w, cmds[..5]) == ReconcileWrite(ReconcileJob(ReconcileLease(seen, rid), rid), rid)
  {
    ReconcileReads(w, cmds, rid, c, task, answered, settled);
    ReconcileReadsLease(w, cmds, 2, rid);
    ReconcileReadsJob(w, cmds, 3, rid);
    ReconcileWrites(w, cmds, 4, rid);
  }

  /** The five steps in a row are the whole call. */
  lemma UninterruptedReconcile(w: World, rid: nat, c: Contract, task: Task, answered: bool, settled: bool)
    requires rid !in w.reconcilers
    ensures Run(w, ReconcileCmds(rid, c, task, answered, settled)) == Reconcile(w, c, task, answered, settled)
  {
    WholeCall(w, rid, c, task, answered, settled);
    CallInARow(w, rid, c, task, answered, settled);
  }

  lemma CallInARow(w: World, rid: nat, c: Contract, task: Task, answered: bool, settled: bool)
    ensures var seen := ReconcileSee(ReconcileLoad(w, rid, c), rid, task, answered, settled);
            Run(w, ReconcileCmds(rid, c, task, answered, settled))
            == ReconcileWrite(ReconcileJob(ReconcileLease(seen, rid), rid), rid)
  {
    var cmds := ReconcileCmds(rid, c, task, answered, settled);
    FiveInARow(w, cmds, rid, c, task, answered, settled);
    assert cmds[..5] == cmds;
  }

  lemma AllIs(w: World, c: Contract, task: Task, answered: bool, settled: bool)
    requires c.job in w.intents && w.intents[c.job].binding == c && w.intents[c.job].phase != Verified
    ensures var r := Reconciler(c, w.intents[c.job].phase, w.intents[c.job].upid,
                                Judged(w, c, w.intents[c.job].upid, task, answered, settled));
            Checked(w, r).Decided?
            && Reconcile(w, c, task, answered, settled)
               == if Checked(w, r).next == r.phase then w else Conclude(w, c, Checked(w, r).next)
  {
    assert SetPhase(w, c.job, w.intents[c.job].phase) == w;
  }

  /** A job outside the clone lane changes, or enters or leaves the table of waiting jobs. */
  lemma JobKeepsInv(w: World, job: nat, to: Job)
    requires Inv(w) && job !in w.intents
    requires to.state !in {CloneIntent, CloneVerified}
    ensures Inv(w.(jobs := w.jobs[job := to]))
  {
    var after := w.(jobs := w.jobs[job := to]);
    forall j | j in w.intents ensures IntentSound(j, w.intents[j], w.approvals, after.jobs) {
      assert IntentSound(j, w.intents[j], w.approvals, w.jobs);
    }
    NotesKeepSettled(w, w.intents, after.jobs);
  }

  lemma NewCleanerKeepsInv(w: World, pid: nat, c: Contract)
    requires Inv(w) && w.owner.None? && c.job in w.intents && w.intents[c.job].binding == c
    requires JobMatches(w, c, CloneVerified)
    ensures Inv(w.(cleaners := w.cleaners[pid := Cleaner(c, false)]))
  {
    assert w.transport == Simulator;
  }

  lemma CleanCheckKeepsInv(w: World, pid: nat, c: Contract, observed: Option<Contract>, approval: nat, now: int)
    requires Inv(w)
    ensures Inv(CleanCheck(w, pid, c, observed, approval, now))
  {
    if pid !in w.cleaners && CleanupEligible(w, c, observed, approval, now) {
      NewCleanerKeepsInv(w, pid, c);
    }
  }

  lemma GoneGrows(deleted: seq<Deletion>, d: Deletion, c: Contract)
    ensures Gone(deleted, c) ==> Gone(deleted + [d], c)
    ensures d.hit == Some(c) ==> Gone(deleted + [d], c)
  {
    if Gone(deleted, c) {
      var i :| 0 <= i < |deleted| && deleted[i].hit == Some(c);
      assert (deleted + [d])[i].hit == Some(c);
    }
    assert (deleted + [d])[|deleted|] == d;
  }

  /** What had the VMID is deleted. */
  lemma DeletionKeepsSettled(w: World, c: Contract)
    requires c.place in w.vms && SettledSound(w.intents, w.jobs, w.cleaners, w.reconcilers, w.vms, w.deleted)
    ensures SettledSound(
              w.intents, w.jobs, w.cleaners, w.reconcilers, w.vms - {c.place},
              w.deleted + [Deletion(c, w.vms[c.place])])
  {
    var vms, deleted := w.vms - {c.place}, w.deleted + [Deletion(c, w.vms[c.place])];
    forall other | Settled(w.vms, w.deleted, other) ensures Settled(vms, deleted, other) {
      GoneGrows(w.deleted, Deletion(c, w.vms[c.place]), other);
    }
  }

  lemma DeletionKeepsLives(w: World, c: Contract)
    requires MachinesSound(w.vms, w.landing, w.sends) && LivesOnce(w.vms, w.landing, w.sends, w.deleted)
    requires DeletionsSound(w.deleted) && c.place in w.vms && Settled(w.vms, w.deleted, c)
    ensures LivesOnce(w.vms - {c.place}, w.landing, w.sends, w.deleted + [Deletion(c, w.vms[c.place])])
    ensures DeletionsSound(w.deleted + [Deletion(c, w.vms[c.place])])
  {
    var deleted := w.deleted + [Deletion(c, w.vms[c.place])];
    forall i | 0 <= i < |deleted|
      ensures deleted[i].hit == Some(deleted[i].meant) || Gone(deleted[..i], deleted[i].meant)
    {
      assert i < |w.deleted| ==> deleted[..i] == w.deleted[..i];
      assert deleted[..|w.deleted|] == w.deleted;
    }
  }

  lemma DeletionKeepsInv(w: World, c: Contract)
    requires Inv(w) && w.transport == Simulator && c.place in w.vms && Settled(w.vms, w.deleted, c)
    ensures Inv(w.(vms := w.vms - {c.place}, deleted := w.deleted + [Deletion(c, w.vms[c.place])]))
  {
    DeletionKeepsLives(w, c);
    DeletionKeepsSettled(w, c);
  }

  /** A cleaning process goes on or ends. */
  lemma CleanerKeepsInv(w: World, pid: nat, called: bool)
    requires Inv(w) && pid in w.cleaners
    ensures Inv(w.(cleaners := w.cleaners[pid := w.cleaners[pid].(called := called)]))
    ensures Inv(w.(cleaners := w.cleaners - {pid}))
  {
  }

  lemma HitKeepsInv(w: World, pid: nat)
    requires Inv(w) && pid in w.cleaners && w.cleaners[pid].c.place in w.vms
    ensures var c := w.cleaners[pid].c;
            var back := w.(vms := w.vms - {c.place}, deleted := w.deleted + [Deletion(c, w.vms[c.place])]);
            && Inv(back.(cleaners := w.cleaners[pid := w.cleaners[pid].(called := true)]))
            && Inv(back.(cleaners := w.cleaners - {pid}))
  {
    var c := w.cleaners[pid].c;
    DeletionKeepsInv(w, c);
    CleanerKeepsInv(w.(vms := w.vms - {c.place}, deleted := w.deleted + [Deletion(c, w.vms[c.place])]), pid, true);
  }

  lemma CleanCallKeepsInv(w: World, pid: nat, gone: bool, failed: bool)
    requires Inv(w)
    ensures Inv(CleanCall(w, pid, gone, failed))
  {
    if pid in w.cleaners && !w.cleaners[pid].called {
      var c := w.cleaners[pid].c;
      if c.place in w.vms && (gone || !failed) {
        HitKeepsInv(w, pid);
      } else {
        CleanerKeepsInv(w, pid, true);
      }
    }
  }

  lemma CancelKeepsInv(w: World, c: Contract)
    requires Inv(w) && c.job in w.intents && w.intents[c.job].binding == c
    requires c.job in w.jobs && w.jobs[c.job].state in {CloneVerified, CloneCancelled}
    ensures Inv(SetJob(w, c, CloneCancelled))
  {
    var after := SetJob(w, c, CloneCancelled);
    forall j | j in w.intents ensures IntentSound(j, w.intents[j], w.approvals, after.jobs) {
      assert IntentSound(j, w.intents[j], w.approvals, w.jobs);
    }
    assert IntentSound(c.job, w.intents[c.job], w.approvals, w.jobs);
    assert SlotSound(after.transport, after.owner, after.intents, after.jobs);
    NotesKeepSettled(w, w.intents, after.jobs);
  }

  lemma CleanRecordKeepsInv(w: World, pid: nat)
    requires Inv(w)
    ensures Inv(CleanRecord(w, pid))
  {
    if pid in w.cleaners && w.cleaners[pid].called {
      CancelKeepsInv(w, w.cleaners[pid].c);
    }
  }

  lemma LetGoKeepsInv(w: World, job: nat)
    requires Inv(w) && job in w.jobs && w.jobs[job].state == Waiting
    ensures Inv(w.(jobs := w.jobs[job := w.jobs[job].(state := CloneCancelled)]))
  {
    assert job in w.intents ==> IntentSound(job, w.intents[job], w.approvals, w.jobs);
    JobKeepsInv(w, job, w.jobs[job].(state := CloneCancelled));
  }

  lemma LettingKeepsInv(w: World, sid: nat, c: Contract)
    requires Inv(w) && sid in w.setters && w.setters[sid] == Letting(c)
    ensures Inv(SetWrite(w, sid))
  {
    var left := w.setters - {sid};
    if c.job in w.jobs && w.jobs[c.job].state == Waiting {
      LetGoKeepsInv(w, c.job);
      RowsKeepInv(w.(jobs := w.jobs[c.job := w.jobs[c.job].(state := CloneCancelled)]),
                  Restated(w.leases, c.place, Freed), left);
    } else {
      RowsKeepInv(w, w.leases, left);
    }
  }

  lemma SetWriteKeepsInv(w: World, sid: nat)
    requires Inv(w)
    ensures Inv(SetWrite(w, sid))
  {
    if sid in w.setters {
      var left := w.setters - {sid};
      match w.setters[sid]
      case Setting(place, to) => RowsKeepInv(w, Restated(w.leases, place, to), left);
      case Letting(c) => LettingKeepsInv(w, sid, c);
    }
  }

  /** The steps of the operators, of the other lanes and of the other users of the provider. */
  predicate Outside(cmd: Cmd) {
    cmd.Approve? || cmd.EmergencyStop? || cmd.ClearStop? || cmd.CreateJob? || cmd.MoveJob? || cmd.PlanJob?
    || cmd.DoAllocate? || cmd.DoAdopt? || cmd.DoSetCheck? || cmd.DoLetCheck? || cmd.ForeignVm?
  }

  lemma OutsideKeepsInv(w: World, cmd: Cmd)
    requires Inv(w) && Outside(cmd)
    ensures Inv(Step(w, cmd))
  {
    if cmd.Approve? {
      ApproveKeepsInv(w, Approval(cmd.c, cmd.action, cmd.now + 600, false));
    } else if cmd.EmergencyStop? || cmd.ClearStop? {
      StopKeepsInv(w, cmd.EmergencyStop?);
    } else if cmd.ForeignVm? {
      ForeignKeepsInv(w, cmd.place, cmd.up);
    } else if cmd.CreateJob? || cmd.MoveJob? || cmd.PlanJob? {
      OtherJobKeepsInv(w, cmd, cmd.job);
    } else {
      LeaseStepKeepsInv(w, cmd);
    }
  }

  lemma StepKeepsInv(w: World, cmd: Cmd)
    requires Inv(w)
    ensures Inv(Step(w, cmd))
  {
    if Outside(cmd) {
      OutsideKeepsInv(w, cmd);
    } else if Reconciles(cmd) {
      ReconcileKeepsInv(w, cmd);
    } else {
      match cmd
      case DoStart(c, approval, now, ready) => StartKeepsInv(w, c, approval, now, ready);
      case DoRecheck(job, now, gates) => RecheckKeepsInv(w, job, now, gates);
      case DoDispatch(job, accepted, answered) => DispatchKeepsInv(w, job, accepted, answered);
      case DoLand(c) => LandKeepsInv(w, c);
      case DoRecord(job) => RecordKeepsInv(w, job);
      case Crash(job) => EndsKeepsInv(w, job);
      case DoSetWrite(sid) => SetWriteKeepsInv(w, sid);
      case DoCleanCheck(pid, c, observed, approval, now) => CleanCheckKeepsInv(w, pid, c, observed, approval, now);
      case DoCleanCall(pid, gone, failed) => CleanCallKeepsInv(w, pid, gone, failed);
      case DoCleanRecord(pid) => CleanRecordKeepsInv(w, pid);
      case DoCleanCrash(pid) =>
    }
  }

  lemma ApproveKeepsInv(w: World, approval: Approval)
    requires Inv(w)
    ensures Inv(w.(approvals := w.approvals + [approval]))
  {
    forall j | j in w.intents ensures IntentSound(j, w.intents[j], w.approvals + [approval], w.jobs) {
      assert IntentSound(j, w.intents[j], w.approvals, w.jobs);
    }
  }

  lemma StopKeepsInv(w: World, on: bool)
    requires Inv(w)
    ensures Inv(w.(kill := on))
  {
  }

  lemma LandKeepsMachines(w: World, c: Contract)
    requires c in w.landing && MachinesSound(w.vms, w.landing, w.sends)
    requires LivesOnce(w.vms, w.landing, w.sends, w.deleted)
    ensures MachinesSound(Land(w, c).vms, Land(w, c).landing, w.sends)
    ensures LivesOnce(Land(w, c).vms, Land(w, c).landing, w.sends, w.deleted)
  {
  }

  /** Machines may appear as long as none that a cleaner counts on goes. */
  lemma GrowingKeepsSettled(w: World, vms: map<Place, Option<Contract>>)
    requires SettledSound(w.intents, w.jobs, w.cleaners, w.reconcilers, w.vms, w.deleted)
    requires forall p | p in w.vms && w.vms[p].Some? :: p in vms && vms[p] == w.vms[p]
    ensures SettledSound(w.intents, w.jobs, w.cleaners, w.reconcilers, vms, w.deleted)
  {
    forall c | Settled(w.vms, w.deleted, c) ensures Settled(vms, w.deleted, c) {
    }
  }

  lemma LandKeepsInv(w: World, c: Contract)
    requires Inv(w)
    ensures Inv(Land(w, c))
  {
    if c in w.landing {
      LandKeepsMachines(w, c);
      GrowingKeepsSettled(w, Land(w, c).vms);
    }
  }

  lemma ForeignKeepsMachines(w: World, place: Place, up: bool)
    requires MachinesSound(w.vms, w.landing, w.sends) && LivesOnce(w.vms, w.landing, w.sends, w.deleted)
    ensures MachinesSound(Foreign(w, place, up).vms, w.landing, w.sends)
    ensures LivesOnce(Foreign(w, place, up).vms, w.landing, w.sends, w.deleted)
  {
    ForeignKeepsMarked(w, place, up);
  }

  lemma ForeignKeepsMarked(w: World, place: Place, up: bool)
    ensures forall p :: p in Foreign(w, place, up).vms && Foreign(w, place, up).vms[p].Some?
                        <==> p in w.vms && w.vms[p].Some?
    ensures forall p | p in w.vms && w.vms[p].Some? :: Foreign(w, place, up).vms[p] == w.vms[p]
  {
  }

  lemma ForeignKeepsInv(w: World, place: Place, up: bool)
    requires Inv(w)
    ensures Inv(Foreign(w, place, up))
  {
    assert Foreign(w, place, up) == w.(vms := Foreign(w, place, up).vms);
    ForeignKeepsMachines(w, place, up);
    GrowingKeepsSettled(w, Foreign(w, place, up).vms);
  }

  lemma OtherJobKeepsInv(w: World, cmd: Cmd, job: nat)
    requires Inv(w)
    requires (cmd.CreateJob? || cmd.MoveJob? || cmd.PlanJob?) && cmd.job == job
    ensures Inv(Step(w, cmd))
  {
    var after := Step(w, cmd);
    if after != w {
      assert job in w.intents ==> IntentSound(job, w.intents[job], w.approvals, w.jobs);
      JobKeepsInv(w, job, after.jobs[job]);
    }
  }

  lemma LeaseStepKeepsInv(w: World, cmd: Cmd)
    requires Inv(w)
    requires cmd.DoAllocate? || cmd.DoAdopt? || cmd.DoSetCheck? || cmd.DoLetCheck?
    ensures Inv(Step(w, cmd))
  {
    assert Step(w, cmd) == w.(leases := Step(w, cmd).leases, setters := Step(w, cmd).setters);
    RowsKeepInv(w, Step(w, cmd).leases, Step(w, cmd).setters);
  }

  /** The invariant does not look at lease rows. */
  lemma RowsKeepInv(w: World, leases: map<Place, Lease>, setters: map<nat, Setter>)
    requires Inv(w)
    ensures Inv(w.(leases := leases, setters := setters))
  {
  }

  lemma {:induction false} CloneRunsKeepInv(transport: Transport, cmds: seq<Cmd>)
    ensures Inv(Run(Opening(transport), cmds))
  {
    if cmds != [] {
      CloneRunsKeepInv(transport, cmds[..|cmds| - 1]);
      StepKeepsInv(Run(Opening(transport), cmds[..|cmds| - 1]), cmds[|cmds| - 1]);
    }
  }
}
