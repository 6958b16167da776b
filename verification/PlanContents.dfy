/** What a plan tells, in terms of the nodes' labels, the winners one by one and the pods left over. */
module PlanContents {
  import opened ApiObjects
  import opened ScoringSpec
  import opened PlanAssembly

  // ---------------------------------------------------------------------------
  // Nodes
  // ---------------------------------------------------------------------------

  /** A node can be counted exactly if it has these seven labels. */
  lemma LabelledIff(n: NodeInfo)
    ensures n.Labelled() <==>
      "node.kubernetes.io/instance-type" in n.labels && "kubernetes.io/arch" in n.labels &&
      "topology.kubernetes.io/zone" in n.labels && "topology.kubernetes.io/region" in n.labels &&
      "kubernetes.io/hostname" in n.labels && "sa.gardener.cloud/node-pool-name" in n.labels &&
      "sa.gardener.cloud/node-template-name" in n.labels
  {
    if n.Labelled() {
      assert REQUIRED_LABELS[0] in n.labels && REQUIRED_LABELS[1] in n.labels && REQUIRED_LABELS[2] in n.labels;
      assert REQUIRED_LABELS[3] in n.labels && REQUIRED_LABELS[4] in n.labels && REQUIRED_LABELS[5] in n.labels;
      assert REQUIRED_LABELS[6] in n.labels;
    }
  }

  /** The instance type is the node's own; the rest of its placement is on its labels. */
  predicate PlacedAs(n: NodeInfo, p: NodePlacement) {
    && p.instanceType == n.instanceType
    && "sa.gardener.cloud/node-pool-name" in n.labels && n.labels["sa.gardener.cloud/node-pool-name"] == p.poolName
    && "sa.gardener.cloud/node-template-name" in n.labels &&
       n.labels["sa.gardener.cloud/node-template-name"] == p.templateName
    && "topology.kubernetes.io/region" in n.labels && n.labels["topology.kubernetes.io/region"] == p.region
    && "topology.kubernetes.io/zone" in n.labels && n.labels["topology.kubernetes.io/zone"] == p.zone
  }

  lemma PlacementIff(n: NodeInfo, p: NodePlacement)
    requires n.Labelled()
    ensures n.Placement() == p <==> PlacedAs(n, p)
  {
    LabelledIff(n);
  }

  ghost function NodesPlaced(nodes: seq<NodeInfo>, p: NodePlacement): set<nat> {
    set i: nat | i < |nodes| && PlacedAs(nodes[i], p)
  }

  lemma OneMorePlaced(nodes: seq<NodeInfo>, p: NodePlacement)
    requires nodes != []
    ensures var n := |nodes| - 1;
      |NodesPlaced(nodes, p)| == |NodesPlaced(nodes[..n], p)| + if PlacedAs(nodes[n], p) then 1 else 0
  {
    var n: nat := |nodes| - 1;
    assert NodesPlaced(nodes, p) == NodesPlaced(nodes[..n], p) + if PlacedAs(nodes[n], p) then {n} else {};
  }

  lemma {:induction false} NodesAreCounted(nodes: seq<NodeInfo>, p: NodePlacement)
    requires AllLabelled(nodes)
    ensures NodePlacements(nodes)[p] == |NodesPlaced(nodes, p)|
  {
    if nodes != [] {
      var n := |nodes| - 1;
      NodesAreCounted(nodes[..n], p);
      PlacementIff(nodes[n], p);
      OneMorePlaced(nodes, p);
    }
  }

  // ---------------------------------------------------------------------------
  // Winners
  // ---------------------------------------------------------------------------

  ghost function WinsAt(scores: seq<NodeScore>, p: NodePlacement): set<nat> {
    set i: nat | i < |scores| && scores[i].placement == p
  }

  lemma {:induction false} WinsAreCounted(scores: seq<NodeScore>, p: NodePlacement)
    ensures Placements(scores)[p] == |WinsAt(scores, p)|
  {
    if scores != [] {
      var n := |scores| - 1;
      WinsAreCounted(scores[..n], p);
      assert WinsAt(scores, p) == WinsAt(scores[..n], p) + if scores[n].placement == p then {n} else {};
    }
  }

  /** Filed under a placement, the scores stand in their old order. */
  lemma {:induction false} FiledInOrder(scores: seq<NodeScore>, p: NodePlacement, i: nat)
    requires i < |scores| && scores[i].placement == p
    ensures |At(scores[..i], p)| < |At(scores, p)| && At(scores, p)[|At(scores[..i], p)|] == scores[i]
    decreases |scores|
  {
    var n := |scores| - 1;
    if i < n {
      FiledInOrder(scores[..n], p, i);
      assert scores[..n][..i] == scores[..i];
    }
  }

  /** Cycle by cycle, in order. */
  lemma {:induction false} WinnersInOrder(cycles: seq<CycleWinners>, more: seq<CycleWinners>)
    ensures AllWinners(cycles + more) == AllWinners(cycles) + AllWinners(more)
    ensures forall c: CycleWinners :: AllWinners([c]) == c.winners
    decreases |more|
  {
    forall c: CycleWinners ensures AllWinners([c]) == c.winners {
      assert [c][..0] == [] && [] + c.winners == c.winners;
    }
    if more == [] {
      assert cycles + more == cycles;
    } else {
      var n := |more| - 1;
      assert (cycles + more)[..|cycles + more| - 1] == cycles + more[..n];
      WinnersInOrder(cycles, more[..n]);
    }
  }

  // ---------------------------------------------------------------------------
  // Plans
  // ---------------------------------------------------------------------------

  /** A plan for the nodes and the cycles has an item for exactly the placements that won; the item asks
      for as many nodes as there are wins there, on top of as many as are there already.  The plan names
      the pods that the last cycle left over, each with its namespace in front. */
  lemma PlanTells(
    plan: ScaleOutPlan, nodes: seq<NodeInfo>, cycles: seq<CycleWinners>, counts: Counts, item: ScaleOutItem, i: nat)
    requires Counted(counts, nodes) && PlanFor(plan, AllWinners(cycles), counts, LastLeftover(cycles))
    ensures var p := item.placement;
      item in plan.items <==>
        WinsAt(AllWinners(cycles), p) != {} && item.delta == |WinsAt(AllWinners(cycles), p)| &&
        item.currentReplicas == |NodesPlaced(nodes, p)|
    ensures cycles == [] ==> plan.unsatisfied == []
    ensures cycles != [] ==>
      var left := cycles[|cycles| - 1].leftover;
      |plan.unsatisfied| == |left| && (i < |left| ==> plan.unsatisfied[i] == left[i].ns + "/" + left[i].name)
  {
    var scores, p := AllWinners(cycles), item.placement;
    WinsAreCounted(scores, p);
    NodesAreCounted(nodes, p);
    if p in Placements(scores) {
      var j :| 0 <= j < |plan.items| && plan.items[j].placement == p;
    }
  }
}
