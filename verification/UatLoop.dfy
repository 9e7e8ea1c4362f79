/** The manual UAT worker: always the smallest eligible request, up to a number of successes
    (manual_uat_worker_main.py). */
module UatLoop {
  import opened Lowest

  /** A provisioning attempt succeeds, fails and is rolled back to queued, or fails for good. */
  datatype Outcome = Ready | Requeued | Dropped

  datatype Try = Try(id: nat, outcome: Outcome)

  function After(eligible: set<nat>, t: Try): set<nat> {
    if t.outcome == Requeued then eligible else eligible - {t.id}
  }

  function Successes(tries: seq<Try>): nat {
    if tries == [] then 0 else Won(tries[0]) + Successes(tries[1..])
  }

  function Won(t: Try): nat { if t.outcome == Ready then 1 else 0 }

  lemma {:induction false} SuccessesAppend(tries: seq<Try>, t: Try)
    ensures Successes(tries + [t]) == Successes(tries) + Won(t)
  {
    if tries != [] {
      assert (tries + [t])[1..] == tries[1..] + [t];
      SuccessesAppend(tries[1..], t);
    }
  }

  /** `for _ in range(max_jobs)`. */
  function Budget(maxJobs: int): nat { if maxJobs < 0 then 0 else maxJobs }

  /** What a bounded run attempts, by definition: smallest first, until the budget, the cap or the list is used up. */
  ghost function Tries(eligible: set<nat>, done: nat, cap: int, budget: nat, answer: nat -> Outcome,
      from: nat): seq<Try>
    decreases budget
  {
    if budget == 0 || done >= cap || eligible == {} then []
    else
      var t := Try(Min(eligible), answer(from));
      [t] + Tries(After(eligible, t), done + Won(t), cap, budget - 1, answer, from + 1)
  }

  /** One attempt moves the head of what is left behind what was done. */
  lemma NextTry(
    all: seq<Try>, cap: int, answer: nat -> Outcome, n: nat, eligible: set<nat>, done: nat, before: seq<Try>,
    eligible': set<nat>, done': nat, tries: seq<Try>)
    requires n < Budget(cap) && done < cap && eligible != {}
    requires var t := Try(Min(eligible), answer(n));
             eligible' == After(eligible, t) && done' == done + Won(t) && tries == before + [t]
    requires Ahead(all, cap, answer, n, eligible, done, before)
    ensures Ahead(all, cap, answer, n + 1, eligible', done', tries)
  {
  }

  /** After n attempts, `all` is what was tried and what the definition says is still to come. */
  ghost predicate Ahead(
    all: seq<Try>, cap: int, answer: nat -> Outcome, n: nat, eligible: set<nat>, done: nat, tries: seq<Try>)
  {
    n <= Budget(cap) && all == tries + Tries(eligible, done, cap, Budget(cap) - n, answer, n)
  }

  lemma NoTry(eligible: set<nat>, done: nat, cap: int, budget: nat, answer: nat -> Outcome, from: nat, before: seq<Try>)
    requires budget == 0 || done >= cap || eligible == {}
    ensures before + Tries(eligible, done, cap, budget, answer, from) == before
  {
  }

  class Worker {
    const enabled: bool
    var eligible: set<nat>
    var ready: set<nat>
    var processed: nat
    var maxSuccess: int
    var tries: seq<Try>

    constructor (enabled: bool, eligible: set<nat>)
      ensures this.enabled == enabled && this.eligible == eligible
      ensures ready == {} && processed == 0 && maxSuccess == 4 && tries == []
    {
      this.enabled, this.eligible, ready, processed, maxSuccess, tries := enabled, eligible, {}, 0, 4, [];
    }

    /** A request with a tenant is not on the allow list; every success is one request. */
    ghost predicate Valid()
      reads this
    {
      eligible !! ready && processed == |ready| == Successes(tries)
    }

    /** process_one; `outcome` is what provisioning will say. */
    method ProcessOne(outcome: Outcome) returns (tried: bool)
      requires Valid()
      modifies this`eligible, this`ready, this`processed, this`tries
      ensures Valid()
      ensures tried == (enabled && old(processed) < maxSuccess && old(eligible) != {})
      ensures !tried ==> eligible == old(eligible) && ready == old(ready)
      ensures !tried ==> processed == old(processed) && tries == old(tries)
      ensures tried ==>
                var t := Try(Min(old(eligible)), outcome);
                && tries == old(tries) + [t]
                && eligible == After(old(eligible), t)
                && processed == old(processed) + Won(t)
                && ready == old(ready) + (if outcome == Ready then {t.id} else {})
    {
      if !enabled {
        return false;
      }
      if processed >= maxSuccess {
        return false;
      }
      if eligible == {} {
        return false;
      }
      HasMin(eligible);
      var id :| id in eligible && forall x | x in eligible :: id <= x;
      assert IsMin(eligible, id);
      SuccessesAppend(tries, Try(id, outcome));
      tries := tries + [Try(id, outcome)];
      if outcome == Ready {
        processed := processed + 1;
        ready := ready + {id};
      }
      if outcome != Requeued {
        eligible := eligible - {id};
      }
      tried := true;
    }

    /** run_bounded without a shutdown signal. */
    method RunBounded(maxJobs: int, answer: nat -> Outcome) returns (count: nat)
      requires Valid()
      modifies this
      ensures Valid()
      ensures tries == old(tries) +
                if enabled then old(Tries(eligible, processed, maxJobs, Budget(maxJobs), answer, 0)) else []
      ensures count == |tries| - |old(tries)|
    {
      maxSuccess := maxJobs;
      count := 0;
      if !enabled {
        return;
      }
      ghost var all := tries + Tries(eligible, processed, maxJobs, Budget(maxJobs), answer, 0);
      while count < maxJobs && processed < maxSuccess
        invariant Valid() && maxSuccess == maxJobs && count <= Budget(maxJobs)
        invariant |tries| == |old(tries)| + count
        invariant Ahead(all, maxJobs, answer, count, eligible, processed, tries)
      {
        ghost var e, d, before := eligible, processed, tries;
        var tried := ProcessOne(answer(count));
        if !tried {
          break;
        }
        NextTry(all, maxJobs, answer, count, e, d, before, eligible, processed, tries);
        count := count + 1;
      }
      NoTry(eligible, processed, maxJobs, Budget(maxJobs) - count, answer, count, tries);
    }

    /** run_loop: `polls` rounds pass before the shutdown signal; new requests may come before each. It ends at the
        cap or at the signal, and not before. */
    method RunLoop(maxJobs: int, polls: nat, answer: nat -> Outcome, arrivals: nat -> set<nat>) returns (rounds: nat)
      requires Valid()
      modifies this
      ensures Valid()
      ensures old(tries) <= tries && |tries| <= |old(tries)| + polls
      ensures processed <= (if maxJobs > old(processed) then maxJobs else old(processed))
      ensures enabled ==> rounds == polls || processed >= maxJobs
      ensures !enabled ==> tries == old(tries)
    {
      maxSuccess := maxJobs;
      rounds := 0;
      if !enabled {
        return;
      }
      while rounds < polls
        invariant Valid() && maxSuccess == maxJobs && rounds <= polls
        invariant old(tries) <= tries && |tries| <= |old(tries)| + rounds
        invariant processed <= if maxJobs > old(processed) then maxJobs else old(processed)
      {
        eligible := eligible + (arrivals(rounds) - ready);
        if processed >= maxSuccess {
          break;
        }
        var tried := ProcessOne(answer(rounds));
        if tried && processed >= maxSuccess {
          break;
        }
        rounds := rounds + 1;
      }
    }
  }

  // ---------------------------------------------------------------- about the attempts

  function Ids(tries: seq<Try>): seq<nat> { seq(|tries|, i requires 0 <= i < |tries| => tries[i].id) }

  function Least(a: int, b: int): int { if a < b then a else b }

  /** If every attempt succeeds, a bounded run provisions exactly the smallest requests, in ascending order. */
  lemma {:induction false} AllReadyIsSortedPrefix(
    eligible: set<nat>, done: nat, cap: int, budget: nat, answer: nat -> Outcome, from: nat)
    requires forall n :: answer(n) == Ready
    ensures var tries := Tries(eligible, done, cap, budget, answer, from);
            && |tries| == Least(|eligible|, Least(budget, if done < cap then cap - done else 0))
            && Ids(tries) == Ascending(eligible)[..|tries|]
    decreases budget
  {
    if budget == 0 || done >= cap || eligible == {} {
      assert Ids([]) == [];
    } else {
      var m := Min(eligible);
      AllReadyIsSortedPrefix(eligible - {m}, done + 1, cap, budget - 1, answer, from + 1);
      var rest := Tries(eligible - {m}, done + 1, cap, budget - 1, answer, from + 1);
      assert Tries(eligible, done, cap, budget, answer, from) == [Try(m, Ready)] + rest;
      assert Ids([Try(m, Ready)] + rest) == [m] + Ids(rest);
    }
  }

  /** If the smallest request fails and goes back to the queue, it is tried again and again: no other request
      gets a turn. */
  lemma {:induction false} HeadOfLineBlocks(
    eligible: set<nat>, done: nat, cap: int, budget: nat, answer: nat -> Outcome, from: nat)
    requires forall n :: answer(n) == Requeued
    requires eligible != {} && done < cap
    ensures var tries := Tries(eligible, done, cap, budget, answer, from);
            |tries| == budget && forall i | 0 <= i < budget :: tries[i] == Try(Min(eligible), Requeued)
    decreases budget
  {
    if budget > 0 {
      HeadOfLineBlocks(eligible, done, cap, budget - 1, answer, from + 1);
    }
  }

  /** Whatever the answers: attempts stay within the budget, successes within the cap, every request tried was
      eligible, and none succeeds twice. */
  lemma {:induction false} TriesAreBounded(
    eligible: set<nat>, done: nat, cap: int, budget: nat, answer: nat -> Outcome, from: nat)
    ensures var tries := Tries(eligible, done, cap, budget, answer, from);
            && |tries| <= budget
            && done + Successes(tries) <= (if done < cap then cap else done)
            && (forall i | 0 <= i < |tries| :: tries[i].id in eligible)
            && (forall i, j | 0 <= i < j < |tries| && tries[i].outcome != Requeued :: tries[j].id != tries[i].id)
    decreases budget
  {
    if budget > 0 && done < cap && eligible != {} {
      var t := Try(Min(eligible), answer(from));
      var more := done + Won(t);
      TriesAreBounded(After(eligible, t), more, cap, budget - 1, answer, from + 1);
      var rest := Tries(After(eligible, t), more, cap, budget - 1, answer, from + 1);
      assert ([t] + rest)[1..] == rest;
    }
  }
}
