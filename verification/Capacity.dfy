/** Node rows, sellable capacity and the choice of a node (capacity.py, store.py). */
module Capacity {
  import opened Resources
  import opened Wrappers

  /** One helper_compute_nodes row. A node is named by its rank in node_id order. */
  datatype Node = Node(
    active: bool, total: Res, reserve: Res, inUse: Res, reserved: Res, committed: Res
  ) {
    function Used(): Res { reserve.Plus(inUse).Plus(reserved).Plus(committed) }

    /** Sellable capacity: total less every bucket, floored at zero. */
    function Available(): Res { total.Minus(Used()).Floor() }

    predicate CanFit(want: Res) { active && want.AtMost(Available()) }

    /** The formula of the class docstring and of the second check in reserve_capacity. */
    predicate FitsIgnoringCommitted(want: Res) {
      want.AtMost(total.Minus(reserve.Plus(inUse).Plus(reserved)).Floor())
    }

    /** No overcommit on any resource. */
    predicate Roomy() { Used().AtMost(total) }
  }

  /** Sort key (-available cpu, node_id): does node i come no later than node j? */
  predicate ComesFirst(nodes: seq<Node>, i: nat, j: nat)
    requires i < |nodes| && j < |nodes|
  {
    var a, b := nodes[i].Available().cpu, nodes[j].Available().cpu;
    a > b || (a == b && i <= j)
  }

  /** The first candidate in that order, if any node fits. */
  function Preferred(nodes: seq<Node>, want: Res): (best: Option<nat>)
    ensures best.None? <==> forall i | 0 <= i < |nodes| :: !nodes[i].CanFit(want)
    ensures best.Some? ==>
      && best.value < |nodes|
      && nodes[best.value].CanFit(want)
      && forall i | 0 <= i < |nodes| && nodes[i].CanFit(want) :: ComesFirst(nodes, best.value, i)
  {
    if nodes == [] then None
    else
      var last := |nodes| - 1;
      var earlier := Preferred(nodes[..last], want);
      assert forall i | 0 <= i < last :: nodes[..last][i] == nodes[i];
      if nodes[last].CanFit(want) && (earlier.None? || !ComesFirst(nodes, earlier.value, last))
      then Some(last) else earlier
  }

  /** get_cluster: the stored nodes, or the built-in demo cluster when the table is empty. */
  function Cluster(nodes: seq<Node>): seq<Node> { if nodes == [] then DEMO_CLUSTER else nodes }

  const DEMO_CLUSTER := [
    Node(true, Res(32, 128, 2000), Res(4, 16, 200), Res(12, 48, 600), Res(2, 8, 100), NOTHING),
    Node(true, Res(32, 128, 2000), Res(4, 16, 200), Res(8, 32, 400), Res(1, 4, 50), NOTHING)
  ]

  /** A fitting request leaves the node without overcommit, so the check is exact. */
  lemma FitIsExact(node: Node, want: Want)
    requires node.active && node.Roomy()
    ensures node.CanFit(want) <==> node.(reserved := node.reserved.Plus(want)).Roomy()
  {
  }

  /** The second check of reserve_capacity adds nothing when it sees the row the first check saw ... */
  lemma SecondCheckIsImplied(node: Node, want: Want)
    requires node.committed.Nonnegative() && node.CanFit(want)
    ensures node.FitsIgnoringCommitted(want)
  {
  }

  /** ... and is weaker than the real one exactly when something is committed on the node. */
  lemma SecondCheckIsRealIff(node: Node)
    requires node.active && node.Roomy() && node.committed.Nonnegative()
    ensures (forall want: Want :: node.FitsIgnoringCommitted(want) ==> node.CanFit(want)) <==> node.committed == NOTHING
  {
    var all := node.total.Minus(node.reserve.Plus(node.inUse).Plus(node.reserved));
    if node.committed != NOTHING {
      assert all.Nonnegative();
      var want: Want := all;
      assert node.FitsIgnoringCommitted(want) && !node.CanFit(want);
    }
  }

  /** For instance, a node sold out by committed capacity still offers all of it there. */
  lemma SecondCheckMissesCommitted()
    ensures var node := Node(true, Res(8, 8, 8), NOTHING, NOTHING, NOTHING, Res(8, 8, 8));
            node.Roomy() && node.FitsIgnoringCommitted(Res(4, 4, 4)) && !node.CanFit(Res(4, 4, 4))
  {
  }

  /** For instance a free node of 8 vCPU, asked for all of it: it fits once and not twice. */
  lemma WholeNodeFitsOnce(node: Node)
    requires node == Node(true, Res(8, 16, 100), NOTHING, NOTHING, NOTHING, NOTHING)
    ensures node.CanFit(node.total)
    ensures !node.total.Plus(node.total).AtMost(node.total.Minus(node.Used()))
  {
  }
}
