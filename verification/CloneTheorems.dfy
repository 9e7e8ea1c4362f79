/** The promises of the clone protocol, over all runs. */
module CloneTheorems {
  import opened CloneSafety
  import opened CloneSlot
  import opened Wrappers

  /** At most one clone call per job, each backed by an intent and an approval no other intent shares;
      with the real transport at most one clone call ever. */
  lemma DispatchAtMostOnce(transport: Transport, cmds: seq<Cmd>)
    ensures var w := Run(Opening(transport), cmds);
            && (forall i, k | 0 <= i < k < |w.sends| :: w.sends[i].job != w.sends[k].job)
            && (forall i | 0 <= i < |w.sends| ::
                  && w.sends[i].job in w.intents
                  && IntentSound(w.sends[i].job, w.intents[w.sends[i].job], w.approvals, w.jobs)
                  && w.intents[w.sends[i].job].binding == w.sends[i])
            && (forall j, k | j in w.intents && k in w.intents && j != k ::
                  w.intents[j].approval != w.intents[k].approval)
            && (transport == Real ==> |w.sends| <= 1)
  {
    var w := Run(Opening(transport), cmds);
    CloneRunsKeepInv(transport, cmds);
    TransportIsFixed(Opening(transport), cmds);
    assert |w.sends| > 1 ==> w.sends[0].job != w.sends[1].job;
    assert |w.sends| > 1 ==> w.sends[0].job in w.intents && w.sends[1].job in w.intents;
  }

  // ---------------------------------------------------------------- which steps touch the protocol's core

  predicate Core(cmd: Cmd) {
    cmd.DoStart? || cmd.DoRecheck? || cmd.DoDispatch? || cmd.DoRecord? || cmd.Crash?
    || cmd.DoReconcileWrite?
  }

  /** The other steps leave slot, intents, processes and calls alone. */
  lemma QuietSteps(w: World, cmd: Cmd)
    requires !Core(cmd)
    ensures var after := Step(w, cmd);
            && after.transport == w.transport && after.owner == w.owner && after.intents == w.intents
            && after.procs == w.procs && after.sends == w.sends
            && (after.kill == if cmd == EmergencyStop then true else if cmd == ClearStop then false else w.kill)
  {
    if Outside(cmd) {
      OutsideIsQuiet(w, cmd);
    }
  }

  lemma OutsideIsQuiet(w: World, cmd: Cmd)
    requires Outside(cmd)
    ensures var after := Step(w, cmd);
            && after.transport == w.transport && after.owner == w.owner && after.intents == w.intents
            && after.procs == w.procs && after.sends == w.sends
            && (after.kill == if cmd == EmergencyStop then true else if cmd == ClearStop then false else w.kill)
  {
  }

  /** Reconciliation sends nothing, and frees the slot only for a job whose marked machine it has seen. */
  lemma WriteEffect(w: World, rid: nat)
    requires Inv(w)
    ensures var after := ReconcileWrite(w, rid);
            && after.transport == w.transport && after.kill == w.kill && after.procs == w.procs
                && after.sends == w.sends
            && after.intents.Keys == w.intents.Keys
            && (forall j | j in w.intents :: after.intents[j].binding == w.intents[j].binding)
            && (after.owner == w.owner
                || (rid in w.reconcilers && w.owner == Some(w.reconcilers[rid].c.job)
                    && Settled(w.vms, w.deleted, w.reconcilers[rid].c)))
  {
    var phase := WriteCases(w, rid);
    if phase.Some? {
      ConcludeEffect(w.(reconcilers := w.reconcilers - {rid}), w.reconcilers[rid].c, phase.value);
    }
  }

  lemma ConcludeEffect(w: World, c: Contract, phase: Phase)
    requires c.job in w.intents
    ensures var after := Conclude(w, c, phase);
            && after.transport == w.transport && after.kill == w.kill && after.procs == w.procs
                && after.sends == w.sends
            && after.intents.Keys == w.intents.Keys
            && (forall j | j in w.intents :: after.intents[j].binding == w.intents[j].binding)
            && (after.owner == w.owner || (phase == Verified && w.owner == Some(c.job)))
            && after.vms == w.vms && after.deleted == w.deleted && after.cleaners == w.cleaners
  {
    PhaseEffect(w, c.job, phase);
    if phase == Verified {
      VerifyEffect(SetPhase(w, c.job, Verified), c);
    }
  }

  lemma TransportStep(w: World, cmd: Cmd)
    ensures Step(w, cmd).transport == w.transport
  {
    if !Core(cmd) {
      QuietSteps(w, cmd);
    } else if cmd.DoReconcileWrite? {
      WriteKeepsTransport(w, cmd.rid);
    }
  }

  lemma WriteKeepsTransport(w: World, rid: nat)
    ensures ReconcileWrite(w, rid).transport == w.transport
  {
    if rid in w.reconcilers && w.reconcilers[rid].stand.Decided? && w.reconcilers[rid].c.job in w.intents {
      ConcludeEffect(w.(reconcilers := w.reconcilers - {rid}), w.reconcilers[rid].c, w.reconcilers[rid].stand.next);
    }
  }

  lemma {:induction false} TransportIsFixed(w: World, cmds: seq<Cmd>)
    ensures Run(w, cmds).transport == w.transport
  {
    if cmds != [] {
      TransportIsFixed(w, cmds[..|cmds| - 1]);
      TransportStep(Run(w, cmds[..|cmds| - 1]), cmds[|cmds| - 1]);
    }
  }

  /** With the simulator the slot is held exactly by the one job in clone_intent. */
  lemma SlotOwnerIsTheCloningJob(cmds: seq<Cmd>, job: nat)
    ensures var w := Run(Opening(Simulator), cmds);
            w.owner == Some(job) <==> job in w.jobs && w.jobs[job].state == CloneIntent
  {
    CloneRunsKeepInv(Simulator, cmds);
    TransportIsFixed(Opening(Simulator), cmds);
  }

  // ---------------------------------------------------------------- the slot is freed by verification only

  /** No step frees an owned slot but the write of a reconciliation that has seen the owner's machine, and no step at
      all with the real transport; in particular no passing of time does. */
  lemma SlotFreedOnlyByVerification(w: World, cmd: Cmd)
    requires Inv(w) && w.owner.Some? && Step(w, cmd).owner != w.owner
    ensures var job := w.owner.value;
            && w.transport == Simulator && cmd.DoReconcileWrite? && cmd.rid in w.reconcilers
            && var r := w.reconcilers[cmd.rid];
               && r.c.job == job && r.stand == Decided(Verified)
               && r.c in w.sends && Settled(w.vms, w.deleted, r.c)
               && job in Step(w, cmd).jobs && Step(w, cmd).jobs[job].state == CloneVerified
               && Step(w, cmd).owner == None
  {
    if !Core(cmd) {
      QuietSteps(w, cmd);
    } else if cmd.DoReconcileWrite? {
      FreedByWrite(w, cmd.rid);
    } else {
      OthersKeepOwner(w, cmd);
    }
  }

  lemma OthersKeepOwner(w: World, cmd: Cmd)
    requires w.owner.Some? && Core(cmd) && !cmd.DoReconcileWrite?
    ensures Step(w, cmd).owner == w.owner
  {
  }

  lemma FreedByWrite(w: World, rid: nat)
    requires Inv(w) && ReconcileWrite(w, rid).owner != w.owner
    ensures var after := ReconcileWrite(w, rid);
            && w.transport == Simulator && rid in w.reconcilers
            && var r := w.reconcilers[rid];
               && w.owner == Some(r.c.job) && after.owner == None && r.stand == Decided(Verified)
               && r.c in w.sends && Settled(w.vms, w.deleted, r.c)
               && r.c.job in after.jobs && after.jobs[r.c.job].state == CloneVerified
  {
    var phase := WriteCases(w, rid);
    if phase.Some? {
      ConcludeFrees(w.(reconcilers := w.reconcilers - {rid}), w.reconcilers[rid].c, phase.value);
      if phase == Some(Verified) {
        SettledIsSent(w, w.reconcilers[rid].c);
      }
    }
  }

  lemma ConcludeFrees(w: World, c: Contract, phase: Phase)
    requires c.job in w.intents
    ensures var after := Conclude(w, c, phase);
            after.owner != w.owner ==>
              && phase == Verified && w.transport == Simulator && w.owner == Some(c.job) && after.owner == None
              && c.job in after.jobs && after.jobs[c.job].state == CloneVerified
  {
    PhaseEffect(w, c.job, phase);
    if phase == Verified {
      VerifyEffect(SetPhase(w, c.job, Verified), c);
    }
  }

  /** The owner of the slot has no live process and was never sent: it crashed, or was refused, after its intent. */
  ghost predicate Abandoned(w: World, job: nat) {
    w.owner == Some(job) && job !in w.procs && NotSent(w.sends, job)
  }

  lemma AbandonedCoreStep(w: World, cmd: Cmd, job: nat)
    requires ProcsSound(w.procs, w.owner, w.sends, w.intents) && Abandoned(w, job)
    requires Core(cmd) && !cmd.DoReconcileWrite?
    ensures Abandoned(Step(w, cmd), job)
    ensures Step(w, cmd).sends == w.sends && Step(w, cmd).intents.Keys == w.intents.Keys
  {
    match cmd
    case DoStart(c, approval, now, ready) => assert Start(w, c, approval, now, ready) == w;
    case DoRecheck(j, now, gates) => assert Recheck(w, j, now, gates) == w;
    case DoDispatch(j, accepted, answered) => assert Dispatch(w, j, accepted, answered) == w;
    case DoRecord(j) => assert Record(w, j).intents.Keys == w.intents.Keys;
    case Crash(j) =>
  }

  lemma AbandonedStep(w: World, cmd: Cmd, job: nat)
    requires Inv(w) && Abandoned(w, job)
    ensures Abandoned(Step(w, cmd), job)
    ensures Step(w, cmd).sends == w.sends && Step(w, cmd).intents.Keys == w.intents.Keys
  {
    if !Core(cmd) {
      QuietSteps(w, cmd);
    } else if cmd.DoReconcileWrite? {
      WriteEffect(w, cmd.rid);
      if ReconcileWrite(w, cmd.rid).owner != w.owner {
        SettledIsSent(w, w.reconcilers[cmd.rid].c);
        assert false;
      }
    } else {
      AbandonedCoreStep(w, cmd, job);
    }
  }

  /** Then the slot is held for ever and no clone starts again, whatever runs; only an operator's edit
      of the control row would help. */
  lemma {:induction false} AbandonedSlotBlocksForever(w: World, cmds: seq<Cmd>, job: nat)
    requires Inv(w) && Abandoned(w, job)
    ensures Inv(Run(w, cmds)) && Abandoned(Run(w, cmds), job)
    ensures Run(w, cmds).sends == w.sends && Run(w, cmds).intents.Keys == w.intents.Keys
  {
    if cmds != [] {
      AbandonedSlotBlocksForever(w, cmds[..|cmds| - 1], job);
      AbandonedStep(Run(w, cmds[..|cmds| - 1]), cmds[|cmds| - 1], job);
      StepKeepsInv(Run(w, cmds[..|cmds| - 1]), cmds[|cmds| - 1]);
    }
  }

  /** A refusal at the re-read leads exactly there. */
  lemma RefusedRecheckAbandons(w: World, job: nat, now: int, gates: bool)
    requires Inv(w) && job in w.procs && w.procs[job] == Committed
    ensures var after := Recheck(w, job, now, gates);
            Abandoned(after, job) <==>
            (w.kill || !gates || w.approvals[w.intents[job].approval].expires <= now)
  {
    assert IntentSound(job, w.intents[job], w.approvals, w.jobs);
  }

  // ---------------------------------------------------------------- emergency stop

  /** What may have happened since a stop was set in w: nothing was sent and only w's own cleared process can
      still send, or that one process has sent once and none can any more. */
  ghost predicate SinceStop(w: World, now: World) {
    && now.kill
    && (|| (now.sends == w.sends
            && forall j | j in now.procs && now.procs[j] == Cleared ::
                 j in w.procs && w.procs[j] == Cleared && j in w.intents && j in now.intents
                 && now.intents[j].binding == w.intents[j].binding)
        || (exists j :: j in w.procs && w.procs[j] == Cleared && j in w.intents
                        && now.sends == w.sends + [w.intents[j].binding]
                        && forall k | k in now.procs :: now.procs[k] != Cleared))
  }

  lemma SinceStopDispatch(w: World, now: World, job: nat, accepted: bool, answered: bool)
    requires Inv(now) && SinceStop(w, now)
    ensures SinceStop(w, Dispatch(now, job, accepted, answered))
  {
    var after := Dispatch(now, job, accepted, answered);
    if after != now {
      assert after.sends == w.sends + [w.intents[job].binding];
      assert forall k | k in after.procs :: after.procs[k] != Cleared;
    }
  }

  lemma SinceStopStep(w: World, now: World, cmd: Cmd)
    requires Inv(now) && SinceStop(w, now) && cmd != ClearStop
    ensures SinceStop(w, Step(now, cmd))
  {
    if !Core(cmd) {
      QuietSteps(now, cmd);
    } else if cmd.DoReconcileWrite? {
      WriteEffect(now, cmd.rid);
    } else if cmd.DoDispatch? {
      SinceStopDispatch(w, now, cmd.job, cmd.accepted, cmd.answered);
    } else if cmd.DoStart? {
      assert Start(now, cmd.c, cmd.approval, cmd.now, cmd.ready) == now;
    } else {
      SinceStopEnds(w, now, cmd);
    }
  }

  /** Nothing is sent or cleared; processes may end. */
  ghost predicate WindsDown(now: World, after: World) {
    && after.kill && after.sends == now.sends
    && (forall j | j in now.intents :: j in after.intents && after.intents[j].binding == now.intents[j].binding)
    && (forall j | j in after.procs :: j in now.procs && after.procs[j] == now.procs[j])
  }

  lemma SinceStopWinds(w: World, now: World, after: World)
    requires SinceStop(w, now) && WindsDown(now, after)
    ensures SinceStop(w, after)
  {
  }

  lemma RecheckWinds(now: World, job: nat, time: int, gates: bool)
    requires now.kill
    ensures WindsDown(now, Recheck(now, job, time, gates))
  {
  }

  lemma RecordWinds(now: World, job: nat)
    requires now.kill
    ensures WindsDown(now, Record(now, job))
  {
  }

  lemma SinceStopEnds(w: World, now: World, cmd: Cmd)
    requires SinceStop(w, now) && (cmd.DoRecheck? || cmd.DoRecord? || cmd.Crash?)
    ensures SinceStop(w, Step(now, cmd))
  {
    if cmd.DoRecheck? {
      RecheckWinds(now, cmd.job, cmd.now, cmd.gates);
    } else if cmd.DoRecord? {
      RecordWinds(now, cmd.job);
    }
    SinceStopWinds(w, now, Step(now, cmd));
  }

  /** Once the stop is set, and until it is cleared, at most one more clone call goes out, and only by a process that
      had already re-read the control row. */
  lemma {:induction false} AfterStopAtMostOneMore(w: World, cmds: seq<Cmd>)
    requires Inv(w) && w.kill && ClearStop !in cmds
    ensures Inv(Run(w, cmds)) && SinceStop(w, Run(w, cmds))
  {
    if cmds == [] {
      assert forall j | j in w.procs :: j in w.intents;
    } else {
      var last := |cmds| - 1;
      AfterStopAtMostOneMore(w, cmds[..last]);
      StepKeepsInv(Run(w, cmds[..last]), cmds[last]);
      SinceStopStep(w, Run(w, cmds[..last]), cmds[last]);
    }
  }

  /** The bound is reached: a cleared process does send after the stop. */
  lemma ClearedProcessStillSends(w: World, job: nat)
    requires Inv(w) && job in w.procs && w.procs[job] == Cleared
    ensures Run(w, [EmergencyStop, DoDispatch(job, true, true)]).sends == w.sends + [w.intents[job].binding]
  {
    var cmds := [EmergencyStop, DoDispatch(job, true, true)];
    assert cmds[..1] == [EmergencyStop] && [EmergencyStop][..0] == [];
    assert Run(w, [EmergencyStop]) == w.(kill := true);
  }
}
