/** The loops of the backup worker and of the provisioning worker (backup_worker_main.py, worker_main.py). */
module WorkerLoops {
  import CloudLease
  import JobRuns
  import JobService
  import opened Wrappers

  // ---------------------------------------------------------------- the backup worker

  /** What one pass meets: the clock, and whether a backup or a restore waits. */
  datatype Pass = Pass(now: int, backup: bool, restore: bool)

  function Idle(passes: seq<Pass>): nat {
    if passes == [] then 0
    else
      var last := passes[|passes| - 1];
      Idle(passes[..|passes| - 1]) + if !last.backup && !last.restore then 1 else 0
  }

  /** The passes at which metering ran. */
  function Metered(last: int, passes: seq<Pass>, interval: int): seq<int> {
    if passes == [] then []
    else
      var earlier := Metered(last, passes[..|passes| - 1], interval);
      var now := passes[|passes| - 1].now;
      if now - Latest(last, earlier) < interval then earlier else earlier + [now]
  }

  function Latest(last: int, times: seq<int>): int { if times == [] then last else times[|times| - 1] }

  /** No two times, and none and the starting time, are closer than the interval. */
  ghost predicate Spaced(last: int, times: seq<int>, interval: int) {
    times != [] ==>
      var earlier := times[..|times| - 1];
      Spaced(last, earlier, interval) && times[|earlier|] - Latest(last, earlier) >= interval
  }

  class BackupWorker {
    var lastMetering: int
    var retentionTick: nat
    var retentions: nat
    var backups: nat
    var restores: nat
    ghost var metered: seq<int>
    ghost const epoch: int
    const interval: int

    /** The worker remembers the last metering, and has not metered too often. */
    ghost predicate Valid()
      reads this
    {
      lastMetering == Latest(epoch, metered) && Spaced(epoch, metered, interval)
    }

    constructor (lastMetering: int, interval: int)
      ensures this.lastMetering == lastMetering && epoch == lastMetering && this.interval == interval
      ensures Valid() && metered == []
      ensures retentionTick == 0 && retentions == 0 && backups == 0 && restores == 0
    {
      this.lastMetering, epoch, metered, this.interval := lastMetering, lastMetering, [], interval;
      retentionTick, retentions, backups, restores := 0, 0, 0, 0;
    }

    /** _maybe_run_metering: metering runs if, and only if, that keeps the distance; the time is noted before the work,
        so a failing pass counts too. */
    method MaybeRunMetering(now: int)
      requires Valid()
      modifies this`lastMetering, this`metered
      ensures Valid()
      ensures metered == if now - old(lastMetering) < interval then old(metered) else old(metered) + [now]
      ensures metered == old(metered) <==> !Spaced(epoch, old(metered) + [now], interval)
    {
      NextTime(epoch, metered, interval, now);
      if now - lastMetering < interval {
        return;
      }
      lastMetering := now;
      metered := metered + [now];
    }

    /** run_worker_loop until the shutdown signal comes after the given passes: each idle pass is one tick of 60 to the
        next retention, a restore is claimed only if no backup was, and metering ran just when due. */
    method RunLoop(passes: seq<Pass>)
      requires Valid() && metered == []
      requires retentionTick == 0 && retentions == 0 && backups == 0 && restores == 0
      modifies this
      ensures 60 * retentions + retentionTick == Idle(passes) && retentionTick < 60
      ensures backups + restores + Idle(passes) == |passes|
      ensures backups == Counted(passes, (p: Pass) => p.backup)
      ensures restores == Counted(passes, (p: Pass) => !p.backup && p.restore)
      ensures Valid() && metered == Metered(epoch, passes, interval)
    {
      for i := 0 to |passes|
        invariant Valid() && metered == Metered(epoch, passes[..i], interval)
        invariant 60 * retentions + retentionTick == Idle(passes[..i]) && retentionTick < 60
        invariant backups + restores + Idle(passes[..i]) == i
        invariant backups == Counted(passes[..i], (p: Pass) => p.backup)
        invariant restores == Counted(passes[..i], (p: Pass) => !p.backup && p.restore)
      {
        assert passes[..i + 1][..i] == passes[..i];
        OnePass(passes[i]);
      }
      assert passes[..|passes|] == passes;
    }

    /** One turn of the loop. */
    method OnePass(pass: Pass)
      requires Valid() && retentionTick < 60
      modifies this
      ensures Valid() && retentionTick < 60
      ensures metered == if pass.now - old(lastMetering) < interval then old(metered) else old(metered) + [pass.now]
      ensures backups == old(backups) + if pass.backup then 1 else 0
      ensures restores == old(restores) + if !pass.backup && pass.restore then 1 else 0
      ensures 60 * retentions + retentionTick
              == old(60 * retentions + retentionTick) + if pass.backup || pass.restore then 0 else 1
    {
      MaybeRunMetering(pass.now);
      if pass.backup {
        backups := backups + 1;
        return;
      }
      if pass.restore {
        restores := restores + 1;
        return;
      }
      retentionTick := retentionTick + 1;
      if retentionTick >= 60 {
        retentionTick := 0;
        retentions := retentions + 1;
      }
    }
  }

  lemma NextTime(last: int, times: seq<int>, interval: int, now: int)
    requires Spaced(last, times, interval)
    ensures Spaced(last, times + [now], interval) <==> now - Latest(last, times) >= interval
  {
    assert (times + [now])[..|times|] == times;
  }

  function Counted(passes: seq<Pass>, what: Pass -> bool): nat {
    if passes == [] then 0
    else Counted(passes[..|passes| - 1], what) + if what(passes[|passes| - 1]) then 1 else 0
  }

  /** Metering passes are at least the interval apart, however the clock jumps. */
  lemma {:induction false} MeteringIsSpaced(last: int, passes: seq<Pass>, interval: int, i: nat)
    requires 0 < i < |Metered(last, passes, interval)|
    ensures Metered(last, passes, interval)[i] - Metered(last, passes, interval)[i - 1] >= interval
  {
    var earlier := Metered(last, passes[..|passes| - 1], interval);
    if i < |earlier| {
      MeteringIsSpaced(last, passes[..|passes| - 1], interval, i);
    }
  }

  /** So a window of the clock holds a bounded number of them. */
  lemma {:induction false} MeteringInWindow(last: int, passes: seq<Pass>, interval: int, i: nat, j: nat)
    requires interval > 0 && i <= j < |Metered(last, passes, interval)|
    ensures Metered(last, passes, interval)[j] - Metered(last, passes, interval)[i] >= (j - i) * interval
    ensures j - i <= (Metered(last, passes, interval)[j] - Metered(last, passes, interval)[i]) / interval
    decreases j
  {
    var times := Metered(last, passes, interval);
    if i < j {
      MeteringInWindow(last, passes, interval, i, j - 1);
      MeteringIsSpaced(last, passes, interval, j);
      assert (j - i) * interval == (j - 1 - i) * interval + interval;
    }
    QuotientBound(j - i, times[j] - times[i], interval);
  }

  lemma QuotientBound(n: int, span: int, interval: int)
    requires interval > 0 && span >= n * interval
    ensures n <= span / interval
  {
    var q := span / interval;
    assert span == q * interval + span % interval;
    assert span < (q + 1) * interval;
    if n > q {
      Times(q + 1, n, interval);
      assert false;
    }
  }

  lemma Times(a: int, b: int, k: int)
    requires a <= b && k > 0
    ensures a * k <= b * k
  {
    assert b * k - a * k == (b - a) * k;
  }

  // ---------------------------------------------------------------- the provisioning worker

  const CLASSES := 5

  /** Template builds, deployments and tenant jobs are always looked at, the cloud and Proxmox queues only if enabled;
      only their steps are guarded against exceptions. */
  predicate Guarded(c: nat) { c >= 3 }

  /** A class whose claim succeeds in a pass: its queue holds the attempts its rows have left. */
  predicate Claimable(queues: seq<seq<nat>>, enabled: set<nat>, raised: set<nat>, c: nat) {
    c < |queues| && queues[c] != [] && (Guarded(c) ==> c in enabled && c !in raised)
  }

  /** What becomes of a claimed row: it leaves the queue, it has used an attempt, or an exception before the commit has
      undone the claim with all the rest (provisioning_worker.py:282-311), which uses none. */
  datatype Outcome = Gone | Tried | Undone

  /** The first row is tried; it goes when it has no attempt left. */
  function Served(queue: seq<nat>, outcome: Outcome): seq<nat>
    requires queue != []
  {
    match outcome
    case Gone => queue[1..]
    case Tried => if queue[0] <= 1 then queue[1..] else [queue[0] - 1] + queue[1..]
    case Undone => queue
  }

  function Attempts(queue: seq<nat>): nat { if queue == [] then 0 else queue[0] + Attempts(queue[1..]) }

  function AllAttempts(queues: seq<seq<nat>>): nat {
    if queues == [] then 0 else AllAttempts(queues[..|queues| - 1]) + Attempts(queues[|queues| - 1])
  }

  predicate Live(queues: seq<seq<nat>>) {
    |queues| == CLASSES && forall c, i | 0 <= c < |queues| && 0 <= i < |queues[c]| :: queues[c][i] > 0
  }

  lemma {:induction false} AttemptsUpdate(queues: seq<seq<nat>>, c: nat, queue: seq<nat>)
    requires c < |queues|
    ensures AllAttempts(queues[c := queue]) == AllAttempts(queues) - Attempts(queues[c]) + Attempts(queue)
  {
    var last := |queues| - 1;
    if c == last {
      assert queues[c := queue][..last] == queues[..last];
    } else {
      assert queues[c := queue][..last] == queues[..last][c := queue];
      AttemptsUpdate(queues[..last], c, queue);
    }
  }

  class ProvisioningWorker {
    var queues: seq<seq<nat>>
    const enabled: set<nat>
    var ticks: nat

    constructor (queues: seq<seq<nat>>, enabled: set<nat>)
      requires Live(queues)
      ensures this.queues == queues && this.enabled == enabled && ticks == 0
    {
      this.queues, this.enabled, ticks := queues, enabled, 0;
    }

    /** One pass: the first class with work is served, and no other; without any, the lifecycle tick runs. A lower class
        is looked at only if every higher one had nothing, was off, or raised. A pass uses an attempt unless its claim
        is undone. */
    method RunPass(raised: set<nat>, outcome: Outcome) returns (claimed: Option<nat>)
      requires Live(queues)
      modifies this`queues, this`ticks
      ensures Live(queues)
      ensures claimed.Some? ==>
                && old(Claimable(queues, enabled, raised, claimed.value))
                && (forall c | 0 <= c < claimed.value :: !old(Claimable(queues, enabled, raised, c)))
                && queues == old(queues)[claimed.value := Served(old(queues)[claimed.value], outcome)]
                && ticks == old(ticks)
                && AllAttempts(queues) <= AllAttempts(old(queues)) - (if outcome == Undone then 0 else 1)
      ensures claimed.None? ==>
                && (forall c | 0 <= c < CLASSES :: !Claimable(queues, enabled, raised, c))
                && queues == old(queues) && ticks == old(ticks) + 1
    {
      for c := 0 to CLASSES
        invariant queues == old(queues) && ticks == old(ticks)
        invariant forall d | 0 <= d < c :: !Claimable(queues, enabled, raised, d)
      {
        if Claimable(queues, enabled, raised, c) {
          ServedIsLess(queues[c], outcome);
          AttemptsUpdate(queues, c, Served(queues[c], outcome));
          queues := queues[c := Served(queues[c], outcome)];
          return Some(c);
        }
      }
      ticks := ticks + 1;
      claimed := None;
    }

    /** With no new arrivals, and from pass `calm` on no claim undone, the worker comes to a pass that claims nothing,
        and runs the lifecycle tick, after at most `calm` passes and as many as there are attempts left; if nothing
        raised in it, every enabled queue is empty. */
    method RunUntilIdle(raised: nat -> set<nat>, outcome: nat -> Outcome, calm: nat) returns (passes: nat)
      requires Live(queues) && forall p: nat | p >= calm :: outcome(p) != Undone
      modifies this
      ensures Live(queues) && passes <= calm + AllAttempts(old(queues)) && ticks == old(ticks) + 1
      ensures forall c | 0 <= c < CLASSES :: !Claimable(queues, enabled, raised(passes), c)
      ensures raised(passes) == {} ==>
                forall c | 0 <= c < CLASSES && (Guarded(c) ==> c in enabled) :: queues[c] == []
    {
      passes := 0;
      var claimed := RunPass(raised(0), outcome(0));
      while claimed.Some?
        invariant Live(queues)
        invariant claimed.Some? ==>
                    passes + 1 + AllAttempts(queues) <= Least(passes + 1, calm) + AllAttempts(old(queues))
                    && ticks == old(ticks)
        invariant claimed.None? ==>
                    passes + AllAttempts(queues) <= Least(passes, calm) + AllAttempts(old(queues))
                    && ticks == old(ticks) + 1
                    && forall c | 0 <= c < CLASSES :: !Claimable(queues, enabled, raised(passes), c)
        decreases calm - Least(passes, calm), AllAttempts(queues), claimed.Some?
      {
        passes := passes + 1;
        claimed := RunPass(raised(passes), outcome(passes));
      }
      if raised(passes) == {} {
        forall c | 0 <= c < CLASSES && (Guarded(c) ==> c in enabled) ensures queues[c] == [] {
          assert !Claimable(queues, enabled, raised(passes), c);
        }
      }
    }
  }

  function Least(a: nat, b: nat): nat { if a < b then a else b }

  lemma ServedIsLess(queue: seq<nat>, outcome: Outcome)
    requires queue != [] && queue[0] > 0
    ensures Attempts(Served(queue, outcome)) <= Attempts(queue) - (if outcome == Undone then 0 else 1)
  {
    if outcome == Tried && queue[0] > 1 {
      assert Served(queue, outcome) == [queue[0] - 1] + queue[1..];
      assert ([queue[0] - 1] + queue[1..])[1..] == queue[1..];
    }
  }

  // ---------------------------------------------------------------- why a claim uses an attempt

  /** The attempts a Proxmox job has left. */
  function JobLeft(j: JobService.Job): int { JobService.Allowed(j.max) + j.forced - j.attempts }

  /** claim_job takes one; whatever the worker then records, the job is queued again only with attempts left. */
  lemma JobClaimUsesAttempt(max: nat, ops: seq<JobService.Op>, now: int, op: JobService.Op)
    requires JobService.Life(max, ops).state == JobRuns.Queued && JobService.Life(max, ops).retryAt <= now
    requires op.Answered? || op.GiveUp? || op.Advance?
    ensures var j := JobService.Life(max, ops);
            var after := JobService.Step(JobService.ClaimJob(j, now), op);
            && JobLeft(j) > 0 && JobLeft(after) == JobLeft(j) - 1
            && (after.state == JobRuns.Queued ==> JobLeft(after) > 0)
  {
    JobService.LivesAreSound(max, ops);
  }

  function CloudLeft(row: CloudLease.Row): int { CloudLease.Max(row) + row.forced - row.attempts }

  /** So do the cloud claims, whatever their worker reports; a claim found ineligible gives its attempt back and puts
      the request out of reach for ten years. */
  lemma CloudClaimUsesAttempt(ops: seq<CloudLease.Op>, lane: CloudLease.Lane, report: CloudLease.Report)
    requires CloudLease.Pick(CloudLease.Run(ops).rows, lane, CloudLease.Run(ops).clock).Some? && !report.DryRun?
    ensures var s := CloudLease.Run(ops);
            var at := CloudLease.Pick(s.rows, lane, s.clock).value;
            var after := CloudLease.Write(CloudLease.Claim(s, lane), |s.grants|, report);
            && at < |s.rows| && |after.rows| == |s.rows| && CloudLeft(s.rows[at]) > 0
            && (report.Ineligible? ==>
                  forall now | now < s.clock + CloudLease.NEVER :: !CloudLease.Claimable(after.rows[at], lane, now))
            && (!report.Ineligible? ==>
                  && CloudLeft(after.rows[at]) == CloudLeft(s.rows[at]) - 1
                  && (after.rows[at].status == JobRuns.CQueued ==> CloudLeft(after.rows[at]) > 0))
  {
    CloudLease.AttemptsAndLanes(ops);
    var s := CloudLease.Run(ops);
    var at := CloudLease.Pick(s.rows, lane, s.clock).value;
    assert CloudLease.RowLimited(s.rows[at]);
    assert CloudLease.Claim(s, lane).grants[|s.grants|].row == at;
  }
}
