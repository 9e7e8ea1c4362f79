/** The one-slot clone protocol (helper_compute/proxmox/clone_control.py) with the VMID lease rows it relies on
    (vmid_lease.py), as committed transactions and provider calls of any number of processes. */
module CloneSlot {
  import opened Wrappers

  /** A (cluster, vmid) pair. Its lease row is unique and keeps its id, so a contract names the pair only. */
  type Place = nat

  /** CloneContract. `plan` stands for every field besides the job and the place. The binding digest and the
      ownership marker are taken to be injective, so a contract is its own binding and its own marker. */
  datatype Contract = Contract(job: nat, place: Place, plan: nat)

  /** Job states as far as this protocol tells them apart: Waiting is reserved or queued, Elsewhere is
      every state of the other lanes. */
  datatype JobState = Waiting | Elsewhere | CloneIntent | CloneVerified | CloneCancelled

  datatype Job = Job(state: JobState, place: Place, plan: nat)

  datatype Action = CloneOnly | CleanupOnly

  datatype Approval = Approval(binding: Contract, action: Action, expires: int, consumed: bool)

  datatype Phase = Requested | NotAttempted | Acknowledged | Ambiguous | Absent | Review | Verified

  datatype Intent = Intent(binding: Contract, approval: nat, phase: Phase, upid: bool)

  datatype LeaseState = Leased | Used | Conflicted | Freed

  datatype Lease = Lease(job: nat, state: LeaseState)

  /** Where a process stands after the intent transaction: before the re-read of the control row, after it, or back
      from the provider call with nothing recorded yet. */
  datatype Pc = Committed | Cleared | Sent(acked: bool)

  datatype Transport = Simulator | Real

  /** A cleaning process: allowed to delete its contract's machine, or back from the provider with nothing recorded. */
  datatype Cleaner = Cleaner(c: Contract, called: bool)

  /** A delete call that removed a machine: the contract it was meant for, and what it hit. */
  datatype Deletion = Deletion(meant: Contract, hit: Option<Contract>)

  /** Where a reconciling process stands: the intent is loaded; its machine was seen; the lease row was found in order;
      it is about to write a phase. */
  datatype Stand = Loaded | Seen | LeaseFound | Decided(next: Phase)

  /** `phase` and `upid` are as they were loaded. */
  datatype Reconciler = Reconciler(c: Contract, phase: Phase, upid: bool, stand: Stand)

  /** A process that has checked a lease row and is about to write its state, or to let a job and its row go. */
  datatype Setter = Setting(place: Place, to: LeaseState) | Letting(c: Contract)

  /** The database, the provider's machines (with their ownership marker, if any), the clone tasks still running
      there, the live processes, and the history of clone and delete calls. */
  datatype World = World(
    transport: Transport, kill: bool, owner: Option<nat>, approvals: seq<Approval>, intents: map<nat, Intent>,
    jobs: map<nat, Job>, leases: map<Place, Lease>, procs: map<nat, Pc>, cleaners: map<nat, Cleaner>,
    reconcilers: map<nat, Reconciler>, setters: map<nat, Setter>, vms: map<Place, Option<Contract>>,
    landing: set<Contract>, sends: seq<Contract>, deleted: seq<Deletion>)

  predicate LeaseValid(w: World, c: Contract, state: LeaseState) {
    c.place in w.leases && w.leases[c.place] == Lease(c.job, state)
  }

  predicate JobMatches(w: World, c: Contract, state: JobState) {
    c.job in w.jobs && w.jobs[c.job] == Job(state, c.place, c.plan)
  }

  predicate ApprovalValid(w: World, id: nat, c: Contract, action: Action, now: int) {
    id < |w.approvals| && var a := w.approvals[id];
    a.binding == c && a.action == action && !a.consumed && a.expires > now
  }

  function SetJob(w: World, c: Contract, state: JobState): World {
    w.(jobs := w.jobs[c.job := Job(state, c.place, c.plan)])
  }

  function SetPhase(w: World, job: nat, phase: Phase): World
    requires job in w.intents
  {
    w.(intents := w.intents[job := w.intents[job].(phase := phase)])
  }

  /** A lease row's state is written; whose the row is is not asked. */
  function Restated(leases: map<Place, Lease>, place: Place, to: LeaseState): map<Place, Lease> {
    if place in leases then leases[place := leases[place].(state := to)] else leases
  }

  function Ends(w: World, job: nat): World { w.(procs := w.procs - {job}) }

  // ---------------------------------------------------------------- the clone path

  /** The transaction of _execute_controlled: the slot, the approval and the job row are taken by conditional
      UPDATEs and the intent's primary key is new, or nothing happens. `ready` is what was read before the
      transaction and is not read again: the gates, the attempts, the capacity reservation, no VM seen. */
  function Start(w: World, c: Contract, approval: nat, now: int, ready: bool): World {
    if c.job in w.intents || !ready || w.kill || w.owner.Some? || !ApprovalValid(w, approval, c, CloneOnly, now)
      || !JobMatches(w, c, Waiting) || !LeaseValid(w, c, Leased)
    then w
    else
      SetJob(w, c, CloneIntent).(
        owner := Some(c.job),
        approvals := w.approvals[approval := w.approvals[approval].(consumed := true)],
        intents := w.intents[c.job := Intent(c, approval, Requested, false)],
        procs := w.procs[c.job := Committed])
  }

  /** The control row, the gates and the approval are read again just before the provider call. */
  function Recheck(w: World, job: nat, now: int, gates: bool): World {
    if job !in w.procs || w.procs[job] != Committed || job !in w.intents then w
    else
      var approval := w.intents[job].approval;
      if w.kill || w.owner != Some(job) || !gates
        || approval >= |w.approvals| || w.approvals[approval].expires <= now
      then Ends(SetPhase(w, job, NotAttempted), job)
      else w.(procs := w.procs[job := Cleared])
  }

  /** The one clone POST. The provider refuses an occupied VMID; it may accept and still not answer. */
  function Dispatch(w: World, job: nat, accepted: bool, answered: bool): World {
    if job !in w.procs || w.procs[job] != Cleared || job !in w.intents then w
    else
      var c := w.intents[job].binding;
      var taken := accepted && c.place !in w.vms;
      w.(sends := w.sends + [c],
         landing := if taken then w.landing + {c} else w.landing,
         procs := w.procs[job := Sent(taken && answered)])
  }

  /** A clone task finishes at the provider, unless the VMID was taken meanwhile. */
  function Land(w: World, c: Contract): (after: World)
    ensures after == w.(landing := after.landing, vms := after.vms)
  {
    if c !in w.landing then w
    else w.(landing := w.landing - {c},
            vms := if c.place in w.vms then w.vms else w.vms[c.place := Some(c)])
  }

  /** The process writes down what the provider call returned. */
  function Record(w: World, job: nat): World {
    if job !in w.procs || !w.procs[job].Sent? || job !in w.intents then w
    else
      var intent := w.intents[job];
      Ends(w.(intents := w.intents[job :=
                if w.procs[job].acked then intent.(phase := Acknowledged, upid := true)
                else intent.(phase := Ambiguous)]),
           job)
  }

  // ---------------------------------------------------------------- reconciliation

  /** The lease is consumed and the job verified; only the simulator gives the slot back. Whose the lease row is by now
      is not asked, nor what has become of the job. */
  function Verify(w: World, c: Contract): World {
    SetJob(w, c, CloneVerified).(
      leases := Restated(w.leases, c.place, Used),
      owner := if w.transport == Simulator && w.owner == Some(c.job) then None else w.owner)
  }

  function Conclude(w: World, c: Contract, phase: Phase): World
    requires c.job in w.intents
  {
    if phase == Verified then Verify(SetPhase(w, c.job, Verified), c) else SetPhase(w, c.job, phase)
  }

  datatype Task = Running | Ok | Bad

  /** What the provider's answers mean; the machine is compared, and must be stopped and unlocked (`settled`). */
  function Judged(w: World, c: Contract, upid: bool, task: Task, answered: bool, settled: bool): Stand {
    if upid && task == Running then Decided(Acknowledged)
    else if (upid && task == Bad) || !answered then Decided(Review)
    else if c.place !in w.vms then Decided(Absent)
    else if w.vms[c.place] != Some(c) || !settled then Decided(Review)
    else Seen
  }

  /** reconcile_clone, when nobody interrupts it: it is also what a repeated execute call ends in. */
  function Reconcile(w: World, c: Contract, task: Task, answered: bool, settled: bool): World {
    if c.job !in w.intents || w.intents[c.job].binding != c || w.intents[c.job].phase == Verified then w
    else
      var upid := w.intents[c.job].upid;
      var stand := Judged(w, c, upid, task, answered, settled);
      if stand.Decided? then Conclude(w, c, stand.next)
      else if !LeaseValid(w, c, Leased) || !JobMatches(w, c, CloneIntent) || (!upid && w.transport == Real)
      then Conclude(w, c, Review)
      else Conclude(w, c, Verified)
  }

  function SetStand(w: World, rid: nat, stand: Stand): (after: World)
    requires rid in w.reconcilers
    ensures after == w.(reconcilers := after.reconcilers)
  {
    w.(reconcilers := w.reconcilers[rid := w.reconcilers[rid].(stand := stand)])
  }

  predicate StandsAt(w: World, rid: nat, stand: Stand) { rid in w.reconcilers && w.reconcilers[rid].stand == stand }

  /** As processes do it: the intent is loaded ... */
  function ReconcileLoad(w: World, rid: nat, c: Contract): (after: World)
    ensures after == w.(reconcilers := after.reconcilers)
  {
    if rid in w.reconcilers || c.job !in w.intents || w.intents[c.job].binding != c
      || w.intents[c.job].phase == Verified
    then w
    else w.(reconcilers :=
              w.reconcilers[rid := Reconciler(c, w.intents[c.job].phase, w.intents[c.job].upid, Loaded)])
  }

  /** ... the provider is asked ... */
  function ReconcileSee(w: World, rid: nat, task: Task, answered: bool, settled: bool): (after: World)
    ensures after == w.(reconcilers := after.reconcilers)
  {
    if !StandsAt(w, rid, Loaded) then w
    else SetStand(w, rid, Judged(w, w.reconcilers[rid].c, w.reconcilers[rid].upid, task, answered, settled))
  }

  /** ... then the lease row, and after it the job, are read ... */
  function ReconcileLease(w: World, rid: nat): (after: World)
    ensures after == w.(reconcilers := after.reconcilers)
  {
    if !StandsAt(w, rid, Seen) then w
    else SetStand(w, rid, if LeaseValid(w, w.reconcilers[rid].c, Leased) then LeaseFound else Decided(Review))
  }

  function ReconcileJob(w: World, rid: nat): (after: World)
    ensures after == w.(reconcilers := after.reconcilers)
  {
    if !StandsAt(w, rid, LeaseFound) then w
    else
      var r := w.reconcilers[rid];
      SetStand(w, rid, Decided(if JobMatches(w, r.c, CloneIntent) && (r.upid || w.transport == Simulator)
                               then Verified else Review))
  }

  /** ... and what was decided is written in one transaction, whatever the rows are by now; a phase that is the loaded
      one again is not written. */
  function ReconcileWrite(w: World, rid: nat): World {
    if rid !in w.reconcilers || !w.reconcilers[rid].stand.Decided? then w
    else
      var r := w.reconcilers[rid];
      var done := w.(reconcilers := w.reconcilers - {rid});
      if r.stand.next == r.phase || r.c.job !in w.intents then done else Conclude(done, r.c, r.stand.next)
  }

  function ReconcileCrash(w: World, rid: nat): (after: World)
    ensures after == w.(reconcilers := after.reconcilers)
  {
    w.(reconcilers := w.reconcilers - {rid})
  }

  // ---------------------------------------------------------------- giving up and cleaning up

  /** release_unattempted_lease asks for an intent and reads the lease row ... */
  function LetCheck(w: World, sid: nat, c: Contract): (after: World)
    ensures after == w.(setters := after.setters)
  {
    if sid in w.setters || c.job in w.intents || !LeaseValid(w, c, Leased) then w
    else w.(setters := w.setters[sid := Letting(c)])
  }

  predicate CleanupEligible(w: World, c: Contract, observed: Option<Contract>, approval: nat, now: int) {
    && !w.kill && w.owner.None?
    && c.job in w.intents && w.intents[c.job].binding == c && w.intents[c.job].phase == Verified
    && JobMatches(w, c, CloneVerified) && LeaseValid(w, c, Used) && observed == Some(c)
    && ApprovalValid(w, approval, c, CleanupOnly, now)
  }

  /** controlled_cleanup checks; nothing is claimed, and the approval is not spent. `observed` is the machine the caller
      saw at some time. */
  function CleanCheck(w: World, pid: nat, c: Contract, observed: Option<Contract>, approval: nat, now: int)
    : (after: World)
    ensures after == w.(cleaners := after.cleaners)
  {
    if pid in w.cleaners || !CleanupEligible(w, c, observed, approval, now) then w
    else w.(cleaners := w.cleaners[pid := Cleaner(c, false)])
  }

  /** The delete call acts on whatever has the VMID now. It may fail, and may fail after deleting; a machine that is
      not there counts as deleted. */
  function CleanCall(w: World, pid: nat, gone: bool, failed: bool): (after: World)
    ensures after == w.(cleaners := after.cleaners, vms := after.vms, deleted := after.deleted)
  {
    if pid !in w.cleaners || w.cleaners[pid].called then w
    else
      var c := w.cleaners[pid].c;
      var back := if failed then w.cleaners - {pid} else w.cleaners[pid := Cleaner(c, true)];
      Deleted(w.(cleaners := back), c, gone || !failed)
  }

  function Deleted(w: World, c: Contract, acts: bool): (after: World)
    ensures after == w.(vms := after.vms, deleted := after.deleted)
  {
    if acts && c.place in w.vms
    then w.(vms := w.vms - {c.place}, deleted := w.deleted + [Deletion(c, w.vms[c.place])])
    else w
  }

  /** The lease row was loaded by the check, so only its state is written; whose it is by now is not asked. */
  function CleanRecord(w: World, pid: nat): (after: World)
    ensures after == w.(jobs := after.jobs, cleaners := after.cleaners, leases := after.leases)
  {
    if pid !in w.cleaners || !w.cleaners[pid].called then w
    else
      var c := w.cleaners[pid].c;
      SetJob(w, c, CloneCancelled).(
        cleaners := w.cleaners - {pid},
        leases := Restated(w.leases, c.place, Freed))
  }

  function CleanCrash(w: World, pid: nat): (after: World)
    ensures after == w.(cleaners := after.cleaners)
  {
    w.(cleaners := w.cleaners - {pid})
  }

  // ---------------------------------------------------------------- lease rows (vmid_lease.py)

  /** A VMID can be given out if it has no row, or a released one whose last job left no intent. */
  predicate Takeable(leases: map<Place, Lease>, intents: map<nat, Intent>, place: Place) {
    place !in leases || (leases[place].state == Freed && leases[place].job !in intents)
  }

  function Allocate(w: World, job: nat, place: Place): (after: World)
    ensures after == w.(leases := after.leases)
  {
    if Takeable(w.leases, w.intents, place) then w.(leases := w.leases[place := Lease(job, Leased)]) else w
  }

  /** adopt_existing_vmid; unlike the allocator it never asks for an intent of the row's last job. */
  function Adopt(w: World, job: nat, place: Place, used: bool): (after: World)
    ensures after == w.(leases := after.leases)
  {
    if place !in w.leases || w.leases[place].state == Freed
    then w.(leases := w.leases[place := Lease(job, if used then Used else Leased)])
    else w
  }

  /** consume_vmid, release_vmid and mark_vmid_conflict read the row, and the second asks for an intent of its job
      ... */
  function SetCheck(w: World, sid: nat, place: Place, to: LeaseState): (after: World)
    ensures after == w.(setters := after.setters)
  {
    if sid in w.setters || place !in w.leases || w.leases[place].state == to then w
    else if to == Freed && w.leases[place].job in w.intents then w  // clone_intent_retained
    else if to == Used && w.leases[place].state != Leased then w
    else w.(setters := w.setters[sid := Setting(place, to)])
  }

  /** ... then the state is written, whatever the row is by now; release_unattempted_lease does so if a conditional
      UPDATE still finds its job waiting. */
  function SetWrite(w: World, sid: nat): (after: World)
    ensures after == w.(setters := after.setters, jobs := after.jobs, leases := after.leases)
  {
    if sid !in w.setters then w
    else
      var done := w.(setters := w.setters - {sid});
      match w.setters[sid]
      case Setting(place, to) => done.(leases := Restated(w.leases, place, to))
      case Letting(c) =>
        if c.job !in w.jobs || w.jobs[c.job].state != Waiting then done
        else done.(jobs := w.jobs[c.job := w.jobs[c.job].(state := CloneCancelled)],
                   leases := Restated(w.leases, c.place, Freed))
  }

  // ---------------------------------------------------------------- runs

  datatype Cmd =
    | Approve(c: Contract, action: Action, now: int)
    | EmergencyStop
    | ClearStop
    | CreateJob(job: nat, place: Place, plan: nat)
    | MoveJob(job: nat, waiting: bool)
    | PlanJob(job: nat, place: Place, plan: nat)
    | DoAllocate(job: nat, place: Place)
    | DoAdopt(job: nat, place: Place, used: bool)
    | DoSetCheck(sid: nat, place: Place, to: LeaseState)
    | DoLetCheck(sid: nat, c: Contract)
    | DoSetWrite(sid: nat)
    | DoStart(c: Contract, approval: nat, now: int, ready: bool)
    | DoRecheck(job: nat, now: int, gates: bool)
    | DoDispatch(job: nat, accepted: bool, answered: bool)
    | DoLand(c: Contract)
    | DoRecord(job: nat)
    | Crash(job: nat)
    | DoReconcileLoad(rid: nat, c: Contract)
    | DoReconcileSee(rid: nat, task: Task, answered: bool, settled: bool)
    | DoReconcileLease(rid: nat)
    | DoReconcileJob(rid: nat)
    | DoReconcileWrite(rid: nat)
    | DoReconcileCrash(rid: nat)
    | DoCleanCheck(pid: nat, c: Contract, observed: Option<Contract>, approval: nat, now: int)
    | DoCleanCall(pid: nat, gone: bool, failed: bool)
    | DoCleanRecord(pid: nat)
    | DoCleanCrash(pid: nat)
    | ForeignVm(place: Place, up: bool)

  /** Another tenant of the provider creates or removes a machine of its own. */
  function Foreign(w: World, place: Place, up: bool): (after: World)
    ensures after == w.(vms := after.vms)
  {
    if up && place !in w.vms then w.(vms := w.vms[place := None])
    else if !up && place in w.vms && w.vms[place].None? then w.(vms := w.vms - {place})
    else w
  }

  /** Any move of the other lanes, and any new plan, of a job this protocol has not claimed. */
  function Other(w: World, job: nat, to: Job): (after: World)
    ensures after == w.(jobs := after.jobs)
  {
    if job in w.jobs && w.jobs[job].state in {Waiting, Elsewhere} && to.state in {Waiting, Elsewhere}
    then w.(jobs := w.jobs[job := to])
    else w
  }

  function Step(w: World, cmd: Cmd): World {
    match cmd
    case Approve(c, action, now) => w.(approvals := w.approvals + [Approval(c, action, now + 600, false)])
    case EmergencyStop => w.(kill := true)
    case ClearStop => w.(kill := false)
    case CreateJob(job, place, plan) =>
      if job in w.jobs then w else w.(jobs := w.jobs[job := Job(Waiting, place, plan)])
    case MoveJob(job, waiting) =>
      if job in w.jobs then Other(w, job, w.jobs[job].(state := if waiting then Waiting else Elsewhere)) else w
    case PlanJob(job, place, plan) =>
      if job in w.jobs then Other(w, job, w.jobs[job].(place := place, plan := plan)) else w
    case DoAllocate(job, place) => Allocate(w, job, place)
    case DoAdopt(job, place, used) => Adopt(w, job, place, used)
    case DoSetCheck(sid, place, to) => if to == Leased then w else SetCheck(w, sid, place, to)
    case DoLetCheck(sid, c) => LetCheck(w, sid, c)
    case DoSetWrite(sid) => SetWrite(w, sid)
    case DoStart(c, approval, now, ready) => Start(w, c, approval, now, ready)
    case DoRecheck(job, now, gates) => Recheck(w, job, now, gates)
    case DoDispatch(job, accepted, answered) => Dispatch(w, job, accepted, answered)
    case DoLand(c) => Land(w, c)
    case DoRecord(job) => Record(w, job)
    case Crash(job) => Ends(w, job)
    case DoReconcileLoad(rid, c) => ReconcileLoad(w, rid, c)
    case DoReconcileSee(rid, task, answered, settled) => ReconcileSee(w, rid, task, answered, settled)
    case DoReconcileLease(rid) => ReconcileLease(w, rid)
    case DoReconcileJob(rid) => ReconcileJob(w, rid)
    case DoReconcileWrite(rid) => ReconcileWrite(w, rid)
    case DoReconcileCrash(rid) => ReconcileCrash(w, rid)
    case DoCleanCheck(pid, c, observed, approval, now) => CleanCheck(w, pid, c, observed, approval, now)
    case DoCleanCall(pid, gone, failed) => CleanCall(w, pid, gone, failed)
    case DoCleanRecord(pid) => CleanRecord(w, pid)
    case DoCleanCrash(pid) => CleanCrash(w, pid)
    case ForeignVm(place, up) => Foreign(w, place, up)
  }

  function Run(w: World, cmds: seq<Cmd>): World {
    if cmds == [] then w else Step(Run(w, cmds[..|cmds| - 1]), cmds[|cmds| - 1])
  }

  /** No control row reads the same as one with the stop set. */
  function Opening(transport: Transport): World {
    World(transport, true, None, [], map[], map[], map[], map[], map[], map[], map[], map[], {}, [], [])
  }
}
