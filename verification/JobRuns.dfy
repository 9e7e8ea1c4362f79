/** The two job tables (models.py, product_lines.py) as relations, and what they imply for every run. */
module JobRuns {

  /** A sequence of states each of which may follow the one before. */
  ghost predicate IsRun<S>(run: seq<S>, legal: (S, S) -> bool) {
    run != [] && forall i | 0 <= i < |run| - 1 :: legal(run[i], run[i + 1])
  }

  /** How often a run enters a hub after its first state. */
  function Visits<S>(run: seq<S>, hub: S -> bool): nat {
    if |run| <= 1 then 0 else Visits(run[..|run| - 1], hub) + if hub(run[|run| - 1]) then 1 else 0
  }

  /** A rank falls on every step that does not enter a hub, and no hub ranks above `top`. */
  ghost predicate Ranks<S(!new)>(legal: (S, S) -> bool, hub: S -> bool, rank: S -> nat, top: nat) {
    forall a, b | legal(a, b) :: if hub(b) then rank(a) > 0 && rank(b) <= top else rank(b) < rank(a)
  }

  /** So the length of a run is bounded by its hub visits alone, and every cycle meets a hub. */
  lemma {:induction false} RunLengthBound<S(!new)>(
    run: seq<S>, legal: (S, S) -> bool, hub: S -> bool, rank: S -> nat, top: nat)
    requires IsRun(run, legal) && Ranks(legal, hub, rank, top)
    ensures |run| - 1 + rank(run[|run| - 1]) <= rank(run[0]) + top * Visits(run, hub)
  {
    if |run| > 1 {
      var before := run[..|run| - 1];
      RunLengthBound(before, legal, hub, rank, top);
      assert legal(run[|run| - 2], run[|run| - 1]);
      assert top * Visits(run, hub) == top * Visits(before, hub) + if hub(run[|run| - 1]) then top else 0;
    }
  }

  lemma CyclesMeetHubs<S(!new)>(run: seq<S>, legal: (S, S) -> bool, hub: S -> bool, rank: S -> nat, top: nat)
    requires IsRun(run, legal) && Ranks(legal, hub, rank, top)
    requires |run| > 1 && run[0] == run[|run| - 1]
    ensures Visits(run, hub) > 0
  {
    RunLengthBound(run, legal, hub, rank, top);
  }

  // ---------------------------------------------------------------- Proxmox provisioning jobs

  datatype JobState =
    | Reserved | Queued | Provisioning | Ready | Failed | RollbackPending | RolledBack | Cancelled
    | CloneIntent | CloneVerified | CloneCancelled
    | MutationReady | MutationValidated | MutationExecuting | CloneExecuted
    | PostCloneValidated | PostCloneConfiguring | BootStarting | BootVerifying | BootedAndReady
    | BaseRuntimeInstalling | PostgresReady | OdooRuntimeStarting | OdooRuntimeVerifying | BaseOdooRuntimeReady

  /** PROXMOX_JOB_TRANSITIONS. */
  predicate Legal(from: JobState, to: JobState) {
    match from
    case CloneIntent => to == CloneVerified
    case Reserved => to == Queued || to == Cancelled
    case Queued => to == Provisioning || to == Cancelled
    case Provisioning => to == Ready || to == Failed || to == RollbackPending || to == MutationReady
    case Failed => to == Queued || to == RollbackPending || to == RolledBack
    case RollbackPending => to == RolledBack || to == Failed
    case MutationReady => to == MutationValidated
    case MutationValidated => to == MutationExecuting
    case MutationExecuting => to == CloneExecuted || to == Failed
    case CloneExecuted => to == PostCloneValidated
    case PostCloneValidated => to == PostCloneConfiguring
    case PostCloneConfiguring => to == BootStarting
    case BootStarting => to == BootVerifying
    case BootVerifying => to == BootedAndReady || to == Failed
    case BootedAndReady => to == BaseRuntimeInstalling
    case BaseRuntimeInstalling => to == PostgresReady || to == Failed
    case PostgresReady => to == OdooRuntimeStarting || to == Failed
    case OdooRuntimeStarting => to == OdooRuntimeVerifying || to == Failed
    case OdooRuntimeVerifying => to == BaseOdooRuntimeReady || to == Failed
    case _ => false
  }

  function Rank(s: JobState): nat {
    match s
    case Reserved => 16
    case Failed => 16
    case Queued => 15
    case Provisioning => 14
    case MutationReady => 13
    case MutationValidated => 12
    case MutationExecuting => 11
    case CloneExecuted => 10
    case PostCloneValidated => 9
    case PostCloneConfiguring => 8
    case BootStarting => 7
    case BootVerifying => 6
    case BootedAndReady => 5
    case BaseRuntimeInstalling => 4
    case PostgresReady => 3
    case OdooRuntimeStarting => 2
    case OdooRuntimeVerifying => 1
    case RollbackPending => 1
    case CloneIntent => 1
    case _ => 0
  }

  predicate IsFailed(s: JobState) { s == Failed }

  /** A job's life is at most 16 steps and 16 more per failure, and every cycle of the table passes through failed. */
  lemma {:induction false} JobRunLength(run: seq<JobState>)
    requires IsRun(run, Legal)
    ensures |run| - 1 + Rank(run[|run| - 1]) <= Rank(run[0]) + 16 * Visits(run, IsFailed)
    ensures |run| > 1 && run[0] == run[|run| - 1] ==> Visits(run, IsFailed) > 0
  {
    JobRanks();
    RunLengthBound(run, Legal, IsFailed, Rank, 16);
    if |run| > 1 && run[0] == run[|run| - 1] {
      CyclesMeetHubs(run, Legal, IsFailed, Rank, 16);
    }
  }

  lemma RankFalls(a: JobState, b: JobState)
    requires Legal(a, b)
    ensures if IsFailed(b) then Rank(a) > 0 && Rank(b) <= 16 else Rank(b) < Rank(a)
  {
    match a
    case _ =>
  }

  lemma JobRanks()
    ensures Ranks(Legal, IsFailed, Rank, 16)
  {
    forall a, b | Legal(a, b) ensures if IsFailed(b) then Rank(a) > 0 && Rank(b) <= 16 else Rank(b) < Rank(a) {
      RankFalls(a, b);
    }
  }

  /** The stages of a job that ends in base_odoo_runtime_ready. */
  function Chain(): seq<JobState> {
    [Queued, Provisioning, MutationReady, MutationValidated, MutationExecuting, CloneExecuted, PostCloneValidated,
     PostCloneConfiguring, BootStarting, BootVerifying, BootedAndReady, BaseRuntimeInstalling, PostgresReady,
     OdooRuntimeStarting, OdooRuntimeVerifying, BaseOdooRuntimeReady]
  }

  /** Behind the first stage, every stage has one way in. */
  lemma OneWayIn(k: nat, from: JobState)
    requires 0 < k < 16 && Legal(from, Chain()[k])
    ensures from == Chain()[k - 1]
  {
  }

  lemma OneMoreAtTheEnd(run: seq<JobState>, chain: seq<JobState>, k: nat)
    requires 0 < k < |chain| && k < |run| && run[|run| - 1] == chain[k]
    requires run[..|run| - 1][|run| - 1 - k..] == chain[..k]
    ensures run[|run| - 1 - k..] == chain[..k + 1]
  {
    var last := |run| - 1;
    assert run[last - k..] == run[..last][last - k..] + [run[last]];
  }

  lemma {:induction false} EndsInChain(run: seq<JobState>, k: nat)
    requires IsRun(run, Legal) && run[0] == Reserved && k < 16 && run[|run| - 1] == Chain()[k]
    ensures |run| > k + 1 && run[|run| - 1 - k..] == Chain()[..k + 1]
    decreases k
  {
    var last := |run| - 1;
    assert Reserved !in Chain();
    assert last > 0 && Legal(run[last - 1], run[last]);
    if k > 0 {
      OneWayIn(k, run[last - 1]);
      EndsInChain(run[..last], k - 1);
      OneMoreAtTheEnd(run, Chain(), k);
    } else {
      assert run[last..] == [run[last]] && Chain()[..1] == [Queued];
    }
  }

  /** Every run from reserved to base_odoo_runtime_ready ends with the whole chain: no stage can be skipped or
      carried over from before the last failure. */
  lemma ReadyMeansWholeChain(run: seq<JobState>)
    requires IsRun(run, Legal) && run[0] == Reserved && run[|run| - 1] == BaseOdooRuntimeReady
    ensures |run| >= 17 && run[|run| - 16..] == Chain()
    ensures run[|run| - 17] in {Reserved, Failed}
    ensures Visits(run, IsFailed) == 0 <==> run == [Reserved] + Chain()
  {
    WholeChainAtTheEnd(run);
    var at := |run| - 17;
    VisitsOfTail(run[..at + 1], Chain());
    if run[at] == Reserved {
      ReservedIsFirst(run, at);
      assert run[..1] == [Reserved];
    } else {
      assert at > 0 && run[..at + 1][at] == Failed;
      assert ([Reserved] + Chain())[0] != Failed && |[Reserved] + Chain()| == 17;
    }
  }

  lemma WholeChainAtTheEnd(run: seq<JobState>)
    requires IsRun(run, Legal) && run[0] == Reserved && run[|run| - 1] == BaseOdooRuntimeReady
    ensures |run| >= 17 && run[|run| - 16..] == Chain() && run == run[..|run| - 16] + Chain()
    ensures run[|run| - 17] in {Reserved, Failed} && Failed !in Chain()
  {
    EndsInChain(run, 15);
    assert Chain()[..16] == Chain();
    var at := |run| - 17;
    assert run[|run| - 16..][0] == run[at + 1] && Legal(run[at], run[at + 1]);
  }

  lemma {:induction false} VisitsOfTail(run: seq<JobState>, tail: seq<JobState>)
    requires run != [] && Failed !in tail
    ensures Visits(run + tail, IsFailed) == Visits(run, IsFailed)
  {
    if tail == [] {
      assert run + tail == run;
    } else {
      assert (run + tail)[..|run + tail| - 1] == run + tail[..|tail| - 1];
      VisitsOfTail(run, tail[..|tail| - 1]);
    }
  }

  lemma ReservedIsFirst(run: seq<JobState>, i: nat)
    requires IsRun(run, Legal) && i < |run| && run[i] == Reserved
    ensures i == 0
  {
    assert i > 0 ==> Legal(run[i - 1], run[i]);
  }

  predicate CloneLane(s: JobState) { s == CloneIntent || s == CloneVerified || s == CloneCancelled }

  /** No run from reserved enters the clone lane: the table has no edge into it, only the clone protocol's own
      transaction does. */
  lemma {:induction false} CloneLaneIsSealed(run: seq<JobState>, i: nat)
    requires IsRun(run, Legal) && !CloneLane(run[0]) && i < |run|
    ensures !CloneLane(run[i])
  {
    if i > 0 {
      CloneLaneIsSealed(run, i - 1);
      assert Legal(run[i - 1], run[i]);
    }
  }

  // ---------------------------------------------------------------- cloud provisioning requests

  datatype CloudState =
    | CQueued | CProvisioning | CPreparing | CCreatingDatabase | CInstallingApplications | CConfiguringCompany
    | CHealthChecks | CReady | CFailed | CRollbackPending | CRolledBack | CSuspended | CCancelled

  /** CLOUD_PROVISION_LEGAL_TRANSITIONS. */
  predicate CloudLegal(from: CloudState, to: CloudState) {
    match from
    case CQueued => to == CProvisioning || to == CPreparing || to == CFailed || to == CCancelled
    case CProvisioning => to == CReady || to == CFailed || to == CRollbackPending || to == CCancelled
        || to == CSuspended
    case CPreparing => to == CCreatingDatabase || to == CFailed || to == CCancelled
    case CCreatingDatabase => to == CInstallingApplications || to == CFailed || to == CCancelled
    case CInstallingApplications => to == CConfiguringCompany || to == CFailed || to == CCancelled
    case CConfiguringCompany => to == CHealthChecks || to == CFailed || to == CCancelled
    case CHealthChecks => to == CReady || to == CFailed || to == CRollbackPending || to == CCancelled
    case CFailed => to == CRollbackPending || to == CQueued
    case CRollbackPending => to == CRolledBack || to == CFailed
    case CSuspended => to == CQueued || to == CCancelled
    case _ => false
  }

  function CloudRank(s: CloudState): nat {
    match s
    case CFailed => 8
    case CSuspended => 8
    case CQueued => 7
    case CPreparing => 6
    case CCreatingDatabase => 5
    case CInstallingApplications => 4
    case CConfiguringCompany => 3
    case CHealthChecks => 2
    case CProvisioning => 2
    case CRollbackPending => 1
    case _ => 0
  }

  predicate CloudHub(s: CloudState) { s == CFailed || s == CSuspended }

  /** The same for requests: 8 steps per visit of failed or suspended. */
  lemma {:induction false} CloudRunLength(run: seq<CloudState>)
    requires IsRun(run, CloudLegal)
    ensures |run| - 1 + CloudRank(run[|run| - 1]) <= CloudRank(run[0]) + 8 * Visits(run, CloudHub)
    ensures |run| > 1 && run[0] == run[|run| - 1] ==> Visits(run, CloudHub) > 0
  {
    CloudRanks();
    RunLengthBound(run, CloudLegal, CloudHub, CloudRank, 8);
    if |run| > 1 && run[0] == run[|run| - 1] {
      CyclesMeetHubs(run, CloudLegal, CloudHub, CloudRank, 8);
    }
  }

  lemma CloudRanks()
    ensures Ranks(CloudLegal, CloudHub, CloudRank, 8)
  {
    forall a, b | CloudLegal(a, b)
      ensures if CloudHub(b) then CloudRank(a) > 0 && CloudRank(b) <= 8 else CloudRank(b) < CloudRank(a)
    {
    }
  }
}
