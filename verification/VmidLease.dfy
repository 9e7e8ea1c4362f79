/** allocate_vmid: the scan for the lowest free VMID of one cluster (vmid_lease.py). */
module VmidLease {
  import opened CloneSlot
  import opened Lowest
  import opened Wrappers

  predicate Live(lease: Lease) { lease.state == Leased || lease.state == Used }

  /** The lease rows of one cluster by VMID, the jobs that left an intent, and the configured range. */
  class Leases {
    var rows: map<nat, Lease>
    var intents: map<nat, Intent>
    const first: nat
    const last: nat

    constructor (first: nat, last: nat)
      ensures this.first == first && this.last == last && rows == map[] && intents == map[]
      ensures OneLeasePerJob()
    {
      this.first, this.last := first, last;
      rows, intents := map[], map[];
    }

    /** A job never has two live leases. */
    ghost predicate OneLeasePerJob()
      reads this
    {
      forall v, w | v in rows && w in rows && v != w && Live(rows[v]) && Live(rows[w]) :: rows[v].job != rows[w].job
    }

    ghost predicate Owns(job: nat, vmid: nat)
      reads this
    {
      vmid in rows && Live(rows[vmid]) && rows[vmid].job == job
    }

    /** VMIDs of the range that can be given out. */
    ghost function Free(occupied: set<nat>): set<nat>
      reads this
    {
      FreeIn(rows, intents, first, last, occupied)
    }

    /** The job's own VMID if it has one, else the lowest free one, else nothing; a row is written in the
        second case only. */
    method Allocate(job: nat, occupied: set<nat>) returns (vmid: Option<nat>)
      requires OneLeasePerJob()
      modifies this`rows
      ensures OneLeasePerJob()
      ensures vmid.Some? ==> Owns(job, vmid.value)
      ensures (exists v :: old(Owns(job, v))) ==> rows == old(rows) && vmid.Some?
      ensures (forall v :: !old(Owns(job, v))) ==>
                if old(Free(occupied)) == {} then vmid == None && rows == old(rows)
                else vmid.Some? && IsMin(old(Free(occupied)), vmid.value)
                     && rows == old(rows)[vmid.value := Lease(job, Leased)]
      ensures (forall v :: !old(Owns(job, v))) && vmid.Some? ==> Free(occupied) == old(Free(occupied)) - {vmid.value}
    {
      var taken := occupied + set v | v in rows && Live(rows[v]) :: v;
      if exists v :: v in rows && Live(rows[v]) && rows[v].job == job {
        var v :| v in rows && Live(rows[v]) && rows[v].job == job;
        assert Owns(job, v);
        return Some(v);
      }
      assert forall v :: !Owns(job, v);
      var v := first;
      while v <= last
        invariant v >= first
        invariant forall w | first <= w < v :: w !in Free(occupied)
      {
        if v in taken {
          v := v + 1;
          continue;
        }
        if v in rows {
          if rows[v].state != Freed {
            v := v + 1;
            continue;
          }
          if rows[v].job in intents {
            v := v + 1;
            continue;
          }
        }
        ghost var free := Free(occupied);
        assert v in free;
        rows := rows[v := Lease(job, Leased)];
        assert Free(occupied) == free - {v};
        return Some(v);
      }
      assert Free(occupied) == {};
      vmid := None;
    }
  }

  // ---------------------------------------------------------------- one allocation after another

  ghost function FreeIn(rows: map<nat, Lease>, intents: map<nat, Intent>, first: nat, last: nat,
      occupied: set<nat>): set<nat> {
    set v | first <= v <= last && v !in occupied && Takeable(rows, intents, v)
  }

  predicate OwnsNone(rows: map<nat, Lease>, job: nat) {
    forall v | v in rows :: !(Live(rows[v]) && rows[v].job == job)
  }

  /** What jobs without a lease get when they allocate one after another: by the contract of Allocate, each the lowest
      VMID free at its turn. */
  ghost function Given(
    rows: map<nat, Lease>, intents: map<nat, Intent>, first: nat, last: nat, occupied: set<nat>,
        jobs: seq<nat>): seq<nat>
    decreases |jobs|
  {
    var free := FreeIn(rows, intents, first, last, occupied);
    if jobs == [] || free == {} then []
    else [Min(free)] + Given(rows[Min(free) := Lease(jobs[0], Leased)], intents, first, last, occupied, jobs[1..])
  }

  /** Together they get the lowest free VMIDs in ascending order, and the range is exhausted exactly when those are used
      up. */
  lemma {:induction false} AllocationsAscend(
    rows: map<nat, Lease>, intents: map<nat, Intent>, first: nat, last: nat, occupied: set<nat>, jobs: seq<nat>)
    ensures var free := FreeIn(rows, intents, first, last, occupied);
            var given := Given(rows, intents, first, last, occupied, jobs);
            && |given| == (if |jobs| <= |free| then |jobs| else |free|)
            && given == Ascending(free)[..|given|]
    decreases |jobs|
  {
    var free := FreeIn(rows, intents, first, last, occupied);
    if jobs != [] && free != {} {
      var m := Min(free);
      var after := rows[m := Lease(jobs[0], Leased)];
      assert FreeIn(after, intents, first, last, occupied) == free - {m};
      AllocationsAscend(after, intents, first, last, occupied, jobs[1..]);
    }
  }

  /** A job that waits its turn still has no lease after another's. */
  lemma OthersStillOwnNone(rows: map<nat, Lease>, v: nat, job: nat, other: nat)
    requires OwnsNone(rows, other) && other != job
    ensures OwnsNone(rows[v := Lease(job, Leased)], other)
  {
  }

  /** get_vmid_range: both ends clamped to Proxmox's range and put in order. */
  function Range(start: int, end: int): (r: (nat, nat))
    ensures 100 <= r.0 <= r.1 <= 999999999
    ensures 100 <= start <= end <= 999999999 ==> r.0 == start && r.1 == end
  {
    var a := Clamped(if start == 0 then 9000 else start);
    var b := Clamped(if end == 0 then 9999 else end);
    if a > b then (b, a) else (a, b)
  }

  function Clamped(x: int): int { if x < 100 then 100 else if x > 999999999 then 999999999 else x }

  function RangeSet(first: nat, last: nat): (r: set<nat>)
    ensures forall v :: v in r <==> first <= v <= last
    decreases last
  {
    if first > last then {} else (if last == 0 then {} else RangeSet(first, last - 1)) + {last}
  }

  /** The pigeonhole: allocation fails only if lease rows and occupied VMIDs are at least as many as the range is
      long. */
  lemma ExhaustedOnlyIfCovered(
    rows: map<nat, Lease>, intents: map<nat, Intent>, first: nat, last: nat, occupied: set<nat>)
    requires first <= last && FreeIn(rows, intents, first, last, occupied) == {}
    ensures RangeSet(first, last) <= rows.Keys + occupied
    ensures |rows.Keys + occupied| >= last + 1 - first
  {
    forall v | v in RangeSet(first, last) ensures v in rows.Keys + occupied {
      assert v !in FreeIn(rows, intents, first, last, occupied);
    }
    RangeSize(first, last);
    SubsetSize(RangeSet(first, last), rows.Keys + occupied);
  }

  lemma {:induction false} RangeSize(first: nat, last: nat)
    requires first <= last
    ensures |RangeSet(first, last)| == last + 1 - first
    decreases last
  {
    if first < last {
      RangeSize(first, last - 1);
    } else {
      assert RangeSet(first, last) == {last};
    }
  }

  lemma {:induction false} SubsetSize(a: set<nat>, b: set<nat>)
    requires a <= b
    ensures |a| <= |b|
  {
    if a != {} {
      var x :| x in a;
      SubsetSize(a - {x}, b - {x});
    }
  }
}
