/** What the services do to a provisioning job's row and its capacity reservation (provisioning_job.py,
    provisioning_worker.py): attempts, retries, rollback, stale recovery. */
module JobService {
  import opened JobRuns

  datatype Hold = Active | Consumed | Ended

  /** One row, its reservation, every state it has had, and how often it was enqueued after a failure. */
  datatype Job = Job(
    state: JobState, attempts: nat, max: nat, hold: Hold, trace: seq<JobState>, retryAt: int, permanent: bool,
        forced: nat)

  /** create_provisioning_job. */
  function Fresh(max: nat): Job { Job(Reserved, 0, max, Active, [Reserved], 0, false, 0) }

  function To(j: Job, s: JobState): Job { j.(state := s, trace := j.trace + [s]) }

  /** release_reservation and fail_reservation touch an active reservation only. */
  function Drop(j: Job): Job { if j.hold == Active then j.(hold := Ended) else j }

  /** What the provider said: a success, a half-made machine with its rollback, or a plain failure. */
  datatype Answer = Made | Partial(rolledBack: bool) | Failure(retryable: bool, permanent: bool)

  datatype Op =
    | Enqueue
    | Claim(now: int)
    | Answered(answer: Answer, now: int)
    | GiveUp(drop: bool)                 // the worker's own failure paths, with or without fail_reservation
    | Cancel
    | Retry(now: int)
    | Reconcile(now: int)                // the job was found stale in provisioning
    | Advance(to: JobState)              // the gated lane behind provisioning
    | HoldExpires

  /** Stages between a claim and its end. */
  predicate Running(s: JobState) {
    s in {Provisioning, RollbackPending, MutationReady, MutationValidated, MutationExecuting, CloneExecuted,
          PostCloneValidated, PostCloneConfiguring, BootStarting, BootVerifying, BootedAndReady, BaseRuntimeInstalling,
          PostgresReady, OdooRuntimeStarting, OdooRuntimeVerifying}
  }

  /** _classify_and_handle_result and the rollback of execute_job. */
  function HandleAnswer(j: Job, answer: Answer, now: int): Job {
    match answer
    case Made =>
      // A reservation that is not active any more fails the job in the plan compiler, and that is committed. Were it to
      // end later still, the raise would undo the claim as well, and there would be no step.
      if j.hold == Ended then To(j, Failed)
      else To(j, Ready).(hold := Consumed)
    case Partial(rolledBack) =>
      var pending := To(j, RollbackPending);
      if rolledBack then Drop(To(pending, RolledBack)) else To(pending, Failed)
    case Failure(retryable, permanent) =>
      if retryable && j.attempts < j.max
      then To(To(j, Failed), Queued).(retryAt := now + j.attempts, permanent := permanent)
      else Drop(To(j, Failed)).(permanent := permanent)
  }

  function Step(j: Job, op: Op): Job {
    match op
    case Enqueue => EnqueueJob(j)
    case Claim(now) => ClaimJob(j, now)
    case Answered(answer, now) => if j.state == Provisioning then HandleAnswer(j, answer, now) else j
    case GiveUp(drop) => FailJob(j, drop)
    case Cancel => CancelJob(j)
    case Retry(now) => RetryJob(j, now)
    case Reconcile(now) => ReconcileJob(j, now)
    case Advance(to) => AdvanceJob(j, to)
    case HoldExpires => if j.hold == Active then j.(hold := Ended) else j
  }

  /** enqueue_job; the table lets a failed job in, too. */
  function EnqueueJob(j: Job): Job {
    if Legal(j.state, Queued) && j.hold == Active
    then To(j, Queued).(forced := j.forced + if j.state == Failed then 1 else 0) else j
  }

  /** claim_job; the attempts are counted, not limited. */
  function ClaimJob(j: Job, now: int): Job {
    if j.state == Queued && j.retryAt <= now then To(j, Provisioning).(attempts := j.attempts + 1) else j
  }

  function FailJob(j: Job, drop: bool): Job {
    if j.state != Provisioning then j else if drop then Drop(To(j, Failed)) else To(j, Failed)
  }

  /** cancel_job. */
  function CancelJob(j: Job): Job { if Legal(j.state, Cancelled) then Drop(To(j, Cancelled)) else j }

  /** retry_failed_job. */
  function RetryJob(j: Job, now: int): Job {
    if j.state == Failed && j.attempts < j.max && !j.permanent then To(j, Queued).(retryAt := now) else j
  }

  /** One row of reconcile_stale_proxmox_jobs. */
  function ReconcileJob(j: Job, now: int): Job {
    if j.state != Provisioning then j
    else if j.attempts < j.max then To(To(j, Failed), Queued).(retryAt := now + j.attempts)
    else Drop(To(j, Failed))
  }

  /** The gates behind provisioning. */
  function AdvanceJob(j: Job, to: JobState): Job {
    if Running(j.state) && j.state != RollbackPending && Legal(j.state, to)
      && (j.state == Provisioning ==> to == MutationReady)
    then To(j, to) else j
  }

  function Life(max: nat, ops: seq<Op>): Job {
    if ops == [] then Fresh(max) else Step(Life(max, ops[..|ops| - 1]), ops[|ops| - 1])
  }

  function Allowed(max: nat): nat { if max == 0 then 1 else max }

  /** How often a run enters provisioning. */
  predicate IsProvisioning(s: JobState) { s == Provisioning }

  /** The trace follows the table from reserved to the present state. */
  ghost predicate Traced(trace: seq<JobState>, state: JobState) {
    IsRun(trace, Legal) && trace[0] == Reserved && trace[|trace| - 1] == state
  }

  /** Failures and attempts, for a row whose trace was in provisioning `claims` times and in failed `failures` times. */
  predicate Counted(j: Job, claims: nat, failures: nat) {
    && j.attempts == claims
    && failures + (if Running(j.state) then 1 else 0) <= claims
    && claims <= Allowed(j.max) + j.forced
    && (j.state == Reserved ==> claims == 0)
    && (j.state == Queued ==> claims < Allowed(j.max) + j.forced)
  }

  predicate Settled(j: Job) {
    && (j.state == Ready ==> j.hold == Consumed)
    && (j.state in {RolledBack, Cancelled} ==> j.hold != Active)
  }

  ghost predicate Sound(j: Job) {
    && Traced(j.trace, j.state)
    && Counted(j, Visits(j.trace, IsProvisioning), Visits(j.trace, IsFailed))
    && Settled(j)
  }

  lemma Move(trace: seq<JobState>, state: JobState, s: JobState)
    requires Traced(trace, state) && Legal(state, s)
    ensures Traced(trace + [s], s)
    ensures Visits(trace + [s], IsFailed) == Visits(trace, IsFailed) + if s == Failed then 1 else 0
    ensures Visits(trace + [s], IsProvisioning) == Visits(trace, IsProvisioning) + if s == Provisioning then 1 else 0
  {
    assert (trace + [s])[..|trace|] == trace;
  }

  /** One legal move, with whatever it does to the other fields. */
  lemma MoveKeepsSound(j: Job, s: JobState, after: Job)
    requires Sound(j) && Legal(j.state, s)
    requires after.trace == j.trace + [s] && after.state == s && Settled(after)
    requires Counted(after, Visits(j.trace, IsProvisioning) + (if s == Provisioning then 1 else 0),
                     Visits(j.trace, IsFailed) + if s == Failed then 1 else 0)
    ensures Sound(after)
  {
    Move(j.trace, j.state, s);
  }

  lemma TwoMovesKeepSound(j: Job, r: JobState, s: JobState, after: Job)
    requires Sound(j) && j.state == Provisioning && Legal(Provisioning, r) && Legal(r, s) && r != Provisioning
        && s != Provisioning
    requires after.trace == j.trace + [r] + [s] && after.state == s && Settled(after)
    requires Counted(after, Visits(j.trace, IsProvisioning),
                     Visits(j.trace, IsFailed) + (if r == Failed then 1 else 0) + (if s == Failed then 1 else 0))
    ensures Sound(after)
  {
    Move(j.trace, j.state, r);
    Move(j.trace + [r], r, s);
  }

  lemma AnswerKeepsSound(j: Job, answer: Answer, now: int)
    requires Sound(j) && j.state == Provisioning
    ensures Sound(HandleAnswer(j, answer, now))
  {
    var after := HandleAnswer(j, answer, now);
    match answer
    case Made => MoveKeepsSound(j, after.state, after);
    case Partial(rolledBack) => TwoMovesKeepSound(j, RollbackPending, after.state, after);
    case Failure(retryable, permanent) =>
      if after.state == Queued {
        TwoMovesKeepSound(j, Failed, Queued, after);
      } else {
        MoveKeepsSound(j, Failed, after);
      }
  }

  lemma EnqueueKeepsSound(j: Job)
    requires Sound(j)
    ensures Sound(EnqueueJob(j))
  {
    if EnqueueJob(j) != j { MoveKeepsSound(j, Queued, EnqueueJob(j)); }
  }

  lemma ClaimKeepsSound(j: Job, now: int)
    requires Sound(j)
    ensures Sound(ClaimJob(j, now))
  {
    if ClaimJob(j, now) != j { MoveKeepsSound(j, Provisioning, ClaimJob(j, now)); }
  }

  lemma FailKeepsSound(j: Job, drop: bool)
    requires Sound(j)
    ensures Sound(FailJob(j, drop))
  {
    if j.state == Provisioning { MoveKeepsSound(j, Failed, FailJob(j, drop)); }
  }

  lemma CancelKeepsSound(j: Job)
    requires Sound(j)
    ensures Sound(CancelJob(j))
  {
    if Legal(j.state, Cancelled) { MoveKeepsSound(j, Cancelled, CancelJob(j)); }
  }

  lemma RetryKeepsSound(j: Job, now: int)
    requires Sound(j)
    ensures Sound(RetryJob(j, now))
  {
    if RetryJob(j, now) != j { MoveKeepsSound(j, Queued, RetryJob(j, now)); }
  }

  lemma ReconcileKeepsSound(j: Job, now: int)
    requires Sound(j)
    ensures Sound(ReconcileJob(j, now))
  {
    var after := ReconcileJob(j, now);
    if j.state == Provisioning && after.state == Queued {
      TwoMovesKeepSound(j, Failed, Queued, after);
    } else if j.state == Provisioning {
      MoveKeepsSound(j, Failed, after);
    }
  }

  lemma AdvanceKeepsSound(j: Job, to: JobState)
    requires Sound(j)
    ensures Sound(AdvanceJob(j, to))
  {
    if AdvanceJob(j, to) != j { MoveKeepsSound(j, to, AdvanceJob(j, to)); }
  }

  lemma StepKeepsSound(j: Job, op: Op)
    requires Sound(j)
    ensures Sound(Step(j, op))
  {
    match op
    case Enqueue => EnqueueKeepsSound(j);
    case Claim(now) => ClaimKeepsSound(j, now);
    case Answered(answer, now) => if j.state == Provisioning { AnswerKeepsSound(j, answer, now); }
    case GiveUp(drop) => FailKeepsSound(j, drop);
    case Cancel => CancelKeepsSound(j);
    case Retry(now) => RetryKeepsSound(j, now);
    case Reconcile(now) => ReconcileKeepsSound(j, now);
    case Advance(to) => AdvanceKeepsSound(j, to);
    case HoldExpires =>
  }

  lemma MaxIsFixed(j: Job, op: Op)
    ensures Step(j, op).max == j.max
  {
  }

  lemma {:induction false} LivesAreSound(max: nat, ops: seq<Op>)
    ensures Sound(Life(max, ops)) && Life(max, ops).max == max
  {
    if ops != [] {
      LivesAreSound(max, ops[..|ops| - 1]);
      StepKeepsSound(Life(max, ops[..|ops| - 1]), ops[|ops| - 1]);
      MaxIsFixed(Life(max, ops[..|ops| - 1]), ops[|ops| - 1]);
    } else {
      assert Visits([Reserved], IsFailed) == 0 && Visits([Reserved], IsProvisioning) == 0;
    }
  }

  /** Whatever the services do and however often: the states a job goes through follow the table, it is tried at most
      max_attempts times (once if that is 0) and once more for every time it was enqueued after a failure, and its whole
      life has a length bounded by that alone. */
  lemma LifeIsBounded(max: nat, ops: seq<Op>)
    ensures var j := Life(max, ops);
            && IsRun(j.trace, Legal) && j.trace[0] == Reserved
            && j.attempts == Visits(j.trace, IsProvisioning) && j.attempts <= Allowed(max) + j.forced
            && |j.trace| <= 17 + 16 * (Allowed(max) + j.forced)
  {
    var j := Life(max, ops);
    LivesAreSound(max, ops);
    JobRunLength(j.trace);
  }

  lemma LifeAppend(max: nat, ops: seq<Op>, op: Op)
    ensures Life(max, ops + [op]) == Step(Life(max, ops), op)
  {
    assert (ops + [op])[..|ops|] == ops;
  }

  /** A row in provisioning for the n-th time, its reservation still active. */
  predicate Trying(j: Job, max: nat, n: nat, forced: nat) {
    j.state == Provisioning && j.max == max && j.attempts == n && j.hold == Active && j.forced == forced
        && j.retryAt < n
  }

  lemma FirstClaim(max: nat)
    ensures Trying(Life(max, [Enqueue, Claim(0)]), max, 1, 0)
  {
    LifeAppend(max, [], Enqueue);
    LifeAppend(max, [Enqueue], Claim(0));
    assert [] + [Enqueue] == [Enqueue] && [Enqueue] + [Claim(0)] == [Enqueue, Claim(0)];
  }

  /** A first claim, and then a number of failures that keep the reservation, each followed by enqueue_job. */
  function Forced(times: nat): seq<Op> {
    if times == 0 then [Enqueue, Claim(0)] else Forced(times - 1) + [GiveUp(false)] + [Enqueue] + [Claim(times)]
  }

  /** enqueue_job asks for no attempts left: with the limit at any value, such a job is tried as often as it
      is enqueued. */
  lemma {:induction false} EnqueueDefeatsTheLimit(max: nat, times: nat)
    ensures Trying(Life(max, Forced(times)), max, times + 1, times)
  {
    if times == 0 {
      FirstClaim(max);
    } else {
      EnqueueDefeatsTheLimit(max, times - 1);
      LifeAppend(max, Forced(times - 1), GiveUp(false));
      LifeAppend(max, Forced(times - 1) + [GiveUp(false)], Enqueue);
      LifeAppend(max, Forced(times - 1) + [GiveUp(false)] + [Enqueue], Claim(times));
      ForcedRound(Life(max, Forced(times - 1)), max, times);
    }
  }

  lemma ForcedRound(j: Job, max: nat, times: nat)
    requires times > 0 && Trying(j, max, times, times - 1)
    ensures Trying(Step(Step(Step(j, GiveUp(false)), Enqueue), Claim(times)), max, times + 1, times)
  {
  }

  /** A first claim, and then a number of stale recoveries. */
  function Recovered(times: nat): seq<Op> {
    if times == 0 then [Enqueue, Claim(0)] else Recovered(times - 1) + [Reconcile(0)] + [Claim(times)]
  }

  /** Without enqueue_job after failures the limit is reached, and by LifeIsBounded not passed. */
  lemma {:induction false} RecoveryReachesTheLimit(max: nat, times: nat)
    requires times < Allowed(max)
    ensures Trying(Life(max, Recovered(times)), max, times + 1, 0)
  {
    if times == 0 {
      FirstClaim(max);
    } else {
      RecoveryReachesTheLimit(max, times - 1);
      LifeAppend(max, Recovered(times - 1), Reconcile(0));
      LifeAppend(max, Recovered(times - 1) + [Reconcile(0)], Claim(times));
      RecoveryRound(Life(max, Recovered(times - 1)), max, times);
    }
  }

  lemma RecoveryRound(j: Job, max: nat, times: nat)
    requires 0 < times < Allowed(max) && Trying(j, max, times, 0)
    ensures Trying(Step(Step(j, Reconcile(0)), Claim(times)), max, times + 1, 0)
  {
  }

  /** A job that is ready has consumed its reservation; one that was rolled back or cancelled holds none. */
  lemma EndsSettleTheHold(max: nat, ops: seq<Op>)
    ensures var j := Life(max, ops);
            && (j.state == Ready ==> j.hold == Consumed)
            && (j.state in {RolledBack, Cancelled} ==> j.hold != Active)
  {
    LivesAreSound(max, ops);
  }

  /** Which failures keep the capacity: those on the paths that do not drop the reservation. */
  lemma FailureMayKeepTheHold(j: Job, op: Op)
    requires Sound(j) && j.state == Provisioning && j.hold == Active && Step(j, op).state == Failed
    ensures Step(j, op).hold == Active <==> op == GiveUp(false) || (op.Answered? && op.answer == Partial(false))
  {
  }

  /** What can happen to a failed job that has no attempt left. */
  predicate Frees(op: Op) { op == Enqueue || op == HoldExpires }

  lemma {:induction false} StaysAsItIs(max: nat, before: seq<Op>, ops: seq<Op>)
    requires var j := Life(max, before); j.state == Failed && j.attempts >= max
    requires forall i | 0 <= i < |ops| :: !Frees(ops[i])
    ensures Life(max, before + ops) == Life(max, before)
  {
    if ops == [] {
      assert before + ops == before;
    } else {
      var last := |ops| - 1;
      StaysAsItIs(max, before, ops[..last]);
      assert before + ops == before + ops[..last] + [ops[last]];
      LifeAppend(max, before + ops[..last], ops[last]);
      MaxOfLife(max, before);
      NothingElseHappens(Life(max, before), ops[last]);
    }
  }

  lemma NothingElseHappens(j: Job, op: Op)
    requires j.state == Failed && j.attempts >= j.max && !Frees(op)
    ensures Step(j, op) == j
  {
  }

  lemma MaxOfLife(max: nat, ops: seq<Op>)
    ensures Life(max, ops).max == max
  {
    LivesAreSound(max, ops);
  }

  /** For any limit there is a life that ends so: failed, out of attempts and still holding its capacity; and it goes on
      holding it, whatever is done to the job, until the reservation expires or somebody enqueues it all the same. */
  lemma CapacityCanBeStuck(max: nat, ops: seq<Op>)
    requires forall i | 0 <= i < |ops| :: !Frees(ops[i])
    ensures var j := Life(max, Recovered(Allowed(max) - 1) + [GiveUp(false)] + ops);
            j.state == Failed && j.hold == Active && j.attempts == Allowed(max)
  {
    var before := Recovered(Allowed(max) - 1) + [GiveUp(false)];
    RecoveryReachesTheLimit(max, Allowed(max) - 1);
    LifeAppend(max, Recovered(Allowed(max) - 1), GiveUp(false));
    StaysAsItIs(max, before, ops);
  }
}
