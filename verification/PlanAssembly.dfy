/** Assembling a scale-out plan from the winners of the cycles. */
module PlanAssembly {
  import opened ApiObjects
  import opened ScoringSpec

  // ---------------------------------------------------------------------------
  // Snapshot nodes
  // ---------------------------------------------------------------------------

  const POOL_LABEL := "sa.gardener.cloud/node-pool-name"
  const TEMPLATE_LABEL := "sa.gardener.cloud/node-template-name"
  const REGION_LABEL := "topology.kubernetes.io/region"
  const ZONE_LABEL := "topology.kubernetes.io/zone"

  const REQUIRED_LABELS: seq<string> := [
    "node.kubernetes.io/instance-type", "kubernetes.io/arch", ZONE_LABEL, REGION_LABEL, "kubernetes.io/hostname",
    POOL_LABEL, TEMPLATE_LABEL]

  datatype NodeInfo = NodeInfo(instanceType: string, labels: map<string, string>) {
    predicate Labelled() {
      forall i :: 0 <= i < |REQUIRED_LABELS| ==> REQUIRED_LABELS[i] in labels
    }

    function Placement(): NodePlacement
      requires Labelled()
    {
      assert REQUIRED_LABELS[2] in labels && REQUIRED_LABELS[3] in labels;
      assert REQUIRED_LABELS[5] in labels && REQUIRED_LABELS[6] in labels;
      NodePlacement(labels[POOL_LABEL], labels[TEMPLATE_LABEL], instanceType, labels[REGION_LABEL], labels[ZONE_LABEL])
    }
  }

  ghost predicate AllLabelled(nodes: seq<NodeInfo>) {
    forall i :: 0 <= i < |nodes| ==> nodes[i].Labelled()
  }

  ghost function NodePlacements(nodes: seq<NodeInfo>): multiset<NodePlacement>
    requires AllLabelled(nodes)
  {
    if nodes == [] then multiset{}
    else NodePlacements(nodes[..|nodes| - 1]) + multiset{nodes[|nodes| - 1].Placement()}
  }

  type Counts = map<NodePlacement, nat>

  function CountAt(counts: Counts, p: NodePlacement): nat {
    if p in counts then counts[p] else 0
  }

  ghost predicate Counted(counts: Counts, nodes: seq<NodeInfo>) {
    AllLabelled(nodes) && forall p :: CountAt(counts, p) == NodePlacements(nodes)[p]
  }

  /** Fails exactly when some node lacks a required label. */
  method GetNodeCountByPlacement(nodes: seq<NodeInfo>) returns (r: Option<Counts>)
    ensures r.Some? <==> AllLabelled(nodes)
    ensures r.Some? ==> Counted(r.value, nodes)
  {
    var counts: Counts := map[];
    for i := 0 to |nodes|
      invariant AllLabelled(nodes[..i]) && Counted(counts, nodes[..i])
    {
      if !nodes[i].Labelled() {
        return None;
      }
      var p := nodes[i].Placement();
      assert nodes[..i + 1][..i] == nodes[..i];
      counts := counts[p := CountAt(counts, p) + 1];
    }
    assert nodes[..|nodes|] == nodes;
    return Some(counts);
  }

  // ---------------------------------------------------------------------------
  // Plans
  // ---------------------------------------------------------------------------

  datatype ScaleOutItem = ScaleOutItem(placement: NodePlacement, currentReplicas: nat, delta: nat)

  datatype ScaleOutPlan = ScaleOutPlan(unsatisfied: seq<string>, items: seq<ScaleOutItem>)

  datatype CycleWinners = CycleWinners(winners: seq<NodeScore>, leftover: seq<Key>)

  ghost function Placements(scores: seq<NodeScore>): multiset<NodePlacement> {
    if scores == [] then multiset{}
    else Placements(scores[..|scores| - 1]) + multiset{scores[|scores| - 1].placement}
  }

  function FullName(k: Key): string {
    k.ns + "/" + k.name
  }

  function FullNames(keys: seq<Key>): seq<string> {
    seq(|keys|, i requires 0 <= i < |keys| => FullName(keys[i]))
  }

  /** One item for each placement that won, none for others, in any order. */
  ghost predicate ItemsFor(items: seq<ScaleOutItem>, scores: seq<NodeScore>, counts: Counts) {
    && (forall i, j :: 0 <= i < j < |items| ==> items[i].placement != items[j].placement)
    && (forall i :: 0 <= i < |items| ==> items[i].delta > 0 && items[i].delta == Placements(scores)[items[i].placement])
    && (forall i :: 0 <= i < |items| ==> items[i].currentReplicas == CountAt(counts, items[i].placement))
    && (forall p :: p in Placements(scores) ==> exists i :: 0 <= i < |items| && items[i].placement == p)
  }

  ghost predicate PlanFor(plan: ScaleOutPlan, scores: seq<NodeScore>, counts: Counts, leftover: seq<Key>) {
    ItemsFor(plan.items, scores, counts) && plan.unsatisfied == FullNames(leftover)
  }

  type Groups = map<NodePlacement, seq<NodeScore>>

  /** The scores with placement `p`, in order. */
  ghost function At(scores: seq<NodeScore>, p: NodePlacement): seq<NodeScore> {
    if scores == [] then []
    else At(scores[..|scores| - 1], p) + if scores[|scores| - 1].placement == p then [scores[|scores| - 1]] else []
  }

  ghost predicate Grouped(groups: Groups, scores: seq<NodeScore>) {
    forall p :: if p in groups then groups[p] == At(scores, p) != [] else At(scores, p) == []
  }

  lemma AtAppend(scores: seq<NodeScore>, x: NodeScore, p: NodePlacement)
    ensures At(scores + [x], p) == At(scores, p) + if x.placement == p then [x] else []
  {
    assert (scores + [x])[..|scores|] == scores;
  }

  lemma OneMoreGrouped(groups: Groups, scores: seq<NodeScore>, x: NodeScore, groups': Groups)
    requires Grouped(groups, scores)
    requires groups' == groups[x.placement := (if x.placement in groups then groups[x.placement] else []) + [x]]
    ensures Grouped(groups', scores + [x])
  {
    forall p ensures if p in groups' then groups'[p] == At(scores + [x], p) != [] else At(scores + [x], p) == [] {
      AtAppend(scores, x, p);
    }
  }

  /** The scores are filed under their placement, in order. */
  method GroupByPlacement(scores: seq<NodeScore>) returns (groups: Groups)
    ensures Grouped(groups, scores)
  {
    groups := map[];
    for i := 0 to |scores|
      invariant Grouped(groups, scores[..i])
    {
      var x := scores[i];
      assert scores[..i + 1] == scores[..i] + [x];
      ghost var was := groups;
      groups := groups[x.placement := (if x.placement in groups then groups[x.placement] else []) + [x]];
      OneMoreGrouped(was, scores[..i], x, groups);
    }
    assert scores[..|scores|] == scores;
  }

  lemma {:induction false} SizeAt(scores: seq<NodeScore>, p: NodePlacement)
    ensures |At(scores, p)| == Placements(scores)[p]
  {
    if scores != [] {
      SizeAt(scores[..|scores| - 1], p);
    }
  }

  ghost predicate ItemFor(item: ScaleOutItem, groups: Groups, counts: Counts) {
    && item.placement in groups
    && item == ScaleOutItem(item.placement, CountAt(counts, item.placement), |groups[item.placement]|)
  }

  /** One item for each placement in `done`. */
  ghost predicate Itemised(items: seq<ScaleOutItem>, groups: Groups, counts: Counts, done: set<NodePlacement>) {
    && (forall i, j :: 0 <= i < j < |items| ==> items[i].placement != items[j].placement)
    && (forall i :: 0 <= i < |items| ==> items[i].placement in done && ItemFor(items[i], groups, counts))
    && (forall p :: p in done ==> exists i :: 0 <= i < |items| && items[i].placement == p)
  }

  lemma OneMoreItem(
    items: seq<ScaleOutItem>, groups: Groups, counts: Counts, done: set<NodePlacement>, item: ScaleOutItem)
    requires Itemised(items, groups, counts, done) && ItemFor(item, groups, counts) && item.placement !in done
    ensures Itemised(items + [item], groups, counts, done + {item.placement})
  {
    var items' := items + [item];
    forall p | p in done + {item.placement} ensures exists i :: 0 <= i < |items'| && items'[i].placement == p {
      if p in done {
        var i :| 0 <= i < |items| && items[i].placement == p;
        assert items'[i].placement == p;
      } else {
        assert items'[|items|].placement == p;
      }
    }
  }

  lemma ItemisedIsItemsFor(items: seq<ScaleOutItem>, groups: Groups, counts: Counts, scores: seq<NodeScore>)
    requires Grouped(groups, scores) && Itemised(items, groups, counts, groups.Keys)
    ensures ItemsFor(items, scores, counts)
  {
    forall p ensures |At(scores, p)| == Placements(scores)[p] { SizeAt(scores, p); }
    forall i | 0 <= i < |items| ensures items[i].delta > 0 && items[i].delta == Placements(scores)[items[i].placement] {
      assert ItemFor(items[i], groups, counts);
    }
    forall p | p in Placements(scores) ensures exists i :: 0 <= i < |items| && items[i].placement == p {
      assert p in groups.Keys;
    }
  }

  /** The placements are visited in an arbitrary order. */
  method CreateScaleOutPlan(scores: seq<NodeScore>, counts: Counts, leftover: seq<Key>) returns (plan: ScaleOutPlan)
    ensures PlanFor(plan, scores, counts, leftover)
  {
    var groups := GroupByPlacement(scores);
    var items: seq<ScaleOutItem> := [];
    var rest := groups.Keys;
    ghost var done: set<NodePlacement> := {};
    while rest != {}
      invariant rest <= groups.Keys && done == groups.Keys - rest
      invariant Itemised(items, groups, counts, done)
      decreases rest
    {
      var p :| p in rest;
      var item := ScaleOutItem(p, CountAt(counts, p), |groups[p]|);
      OneMoreItem(items, groups, counts, done, item);
      items := items + [item];
      done := done + {p};
      rest := rest - {p};
    }
    assert done == groups.Keys;
    ItemisedIsItemsFor(items, groups, counts, scores);
    plan := ScaleOutPlan(FullNames(leftover), items);
  }

  ghost function AllWinners(cycles: seq<CycleWinners>): seq<NodeScore> {
    if cycles == [] then [] else AllWinners(cycles[..|cycles| - 1]) + cycles[|cycles| - 1].winners
  }

  function LastLeftover(cycles: seq<CycleWinners>): seq<Key> {
    if cycles == [] then [] else cycles[|cycles| - 1].leftover
  }

  /** Fails exactly when the nodes cannot be counted. */
  method SendPlanResult(nodes: seq<NodeInfo>, cycles: seq<CycleWinners>)
    returns (r: Option<ScaleOutPlan>, ghost counts: Counts)
    ensures r.Some? <==> AllLabelled(nodes)
    ensures r.Some? ==> Counted(counts, nodes) && PlanFor(r.value, AllWinners(cycles), counts, LastLeftover(cycles))
  {
    var existing := GetNodeCountByPlacement(nodes);
    if existing.None? {
      return None, map[];
    }
    counts := existing.value;
    var scores: seq<NodeScore> := [];
    var leftover: seq<Key> := [];
    for i := 0 to |cycles|
      invariant scores == AllWinners(cycles[..i]) && leftover == LastLeftover(cycles[..i])
    {
      assert cycles[..i + 1][..i] == cycles[..i];
      scores := scores + cycles[i].winners;
      leftover := cycles[i].leftover;
    }
    assert cycles[..|cycles|] == cycles;
    var plan := CreateScaleOutPlan(scores, existing.value, leftover);
    r := Some(plan);
  }

  // ---------------------------------------------------------------------------
  // Conservation
  // ---------------------------------------------------------------------------

  ghost function TotalDelta(items: seq<ScaleOutItem>): nat {
    if items == [] then 0 else TotalDelta(items[..|items| - 1]) + items[|items| - 1].delta
  }

  /** What a plan adds to one placement. */
  ghost function DeltaFor(items: seq<ScaleOutItem>, p: NodePlacement): nat {
    if items == [] then 0
    else
      var n := |items| - 1;
      DeltaFor(items[..n], p) + if items[n].placement == p then items[n].delta else 0
  }

  lemma {:induction false} PlacementsSize(scores: seq<NodeScore>)
    ensures |Placements(scores)| == |scores|
  {
    if scores != [] {
      PlacementsSize(scores[..|scores| - 1]);
    }
  }

  lemma {:induction false} PlacementsAppend(a: seq<NodeScore>, b: seq<NodeScore>)
    ensures Placements(a + b) == Placements(a) + Placements(b)
    decreases |b|
  {
    if b == [] {
      assert a + b == a;
    } else {
      var n := |b| - 1;
      assert (a + b)[..|a + b| - 1] == a + b[..n];
      PlacementsAppend(a, b[..n]);
    }
  }

  /** Distinct items that hold the multiplicities of a multiset and cover it add up to its size. */
  lemma {:induction false} DistinctItemsSum(items: seq<ScaleOutItem>, m: multiset<NodePlacement>)
    requires forall i, j :: 0 <= i < j < |items| ==> items[i].placement != items[j].placement
    requires forall i :: 0 <= i < |items| ==> items[i].delta == m[items[i].placement]
    requires forall p :: p in m ==> exists i :: 0 <= i < |items| && items[i].placement == p
    ensures TotalDelta(items) == |m|
    decreases |items|
  {
    if items == [] {
      assert m == multiset{};
    } else {
      var n := |items| - 1;
      var p := items[n].placement;
      var m' := m[p := 0];
      forall q | q in m' ensures exists i :: 0 <= i < |items[..n]| && items[..n][i].placement == q {
        assert q in m && q != p;
        var i :| 0 <= i < |items| && items[i].placement == q;
        assert items[..n][i].placement == q;
      }
      DistinctItemsSum(items[..n], m');
      SizeWithout(m, p);
    }
  }

  lemma SizeWithout(m: multiset<NodePlacement>, p: NodePlacement)
    ensures |m[p := 0]| == |m| - m[p]
  {
  }

  /** The deltas add up to the number of winners. */
  lemma DeltasSumToWinners(plan: ScaleOutPlan, scores: seq<NodeScore>, counts: Counts, leftover: seq<Key>)
    requires PlanFor(plan, scores, counts, leftover)
    ensures TotalDelta(plan.items) == |scores|
  {
    DistinctItemsSum(plan.items, Placements(scores));
    PlacementsSize(scores);
  }

  lemma {:induction false} DeltaOfAbsent(items: seq<ScaleOutItem>, p: NodePlacement)
    requires forall i :: 0 <= i < |items| ==> items[i].placement != p
    ensures DeltaFor(items, p) == 0
  {
    if items != [] {
      DeltaOfAbsent(items[..|items| - 1], p);
    }
  }

  lemma {:induction false} DeltaOfPresent(items: seq<ScaleOutItem>, k: nat)
    requires forall i, j :: 0 <= i < j < |items| ==> items[i].placement != items[j].placement
    requires k < |items|
    ensures DeltaFor(items, items[k].placement) == items[k].delta
  {
    var n := |items| - 1;
    if k == n {
      DeltaOfAbsent(items[..n], items[k].placement);
    } else {
      DeltaOfPresent(items[..n], k);
    }
  }

  /** A plan adds to each placement as many nodes as won there. */
  lemma DeltaIsWins(items: seq<ScaleOutItem>, scores: seq<NodeScore>, counts: Counts, p: NodePlacement)
    requires ItemsFor(items, scores, counts)
    ensures DeltaFor(items, p) == Placements(scores)[p]
  {
    if p in Placements(scores) {
      var k :| 0 <= k < |items| && items[k].placement == p;
      DeltaOfPresent(items, k);
    } else {
      DeltaOfAbsent(items, p);
    }
  }

  /** One plan per cycle. */
  ghost predicate PlansFor(plans: seq<ScaleOutPlan>, cycles: seq<CycleWinners>, counts: Counts) {
    && |plans| == |cycles|
    && forall i :: 0 <= i < |plans| ==> PlanFor(plans[i], cycles[i].winners, counts, cycles[i].leftover)
  }

  ghost function SumOfDeltas(plans: seq<ScaleOutPlan>, p: NodePlacement): nat {
    if plans == [] then 0 else SumOfDeltas(plans[..|plans| - 1], p) + DeltaFor(plans[|plans| - 1].items, p)
  }

  lemma {:induction false} DeltasAddUp(
    plans: seq<ScaleOutPlan>, cycles: seq<CycleWinners>, counts: Counts, p: NodePlacement)
    requires PlansFor(plans, cycles, counts)
    ensures SumOfDeltas(plans, p) == Placements(AllWinners(cycles))[p]
  {
    if plans != [] {
      var n := |plans| - 1;
      DeltasAddUp(plans[..n], cycles[..n], counts, p);
      DeltaIsWins(plans[n].items, cycles[n].winners, counts, p);
      PlacementsAppend(AllWinners(cycles[..n]), cycles[n].winners);
    }
  }

  ghost predicate SameReplicas(a: seq<ScaleOutItem>, b: seq<ScaleOutItem>) {
    forall j, k :: 0 <= j < |a| && 0 <= k < |b| && a[j].placement == b[k].placement ==>
      a[j].currentReplicas == b[k].currentReplicas
  }

  /** Sending one plan at the end or one plan after every cycle comes to the same: the deltas
      per placement add up, each item of either reports the same current replicas, and the last
      plan names the same unsatisfied pods. */
  lemma AllAtOnceIsSumOfIncremental(
    whole: ScaleOutPlan, plans: seq<ScaleOutPlan>, cycles: seq<CycleWinners>, counts: Counts, p: NodePlacement)
    requires cycles != [] && PlansFor(plans, cycles, counts)
    requires PlanFor(whole, AllWinners(cycles), counts, LastLeftover(cycles))
    ensures DeltaFor(whole.items, p) == SumOfDeltas(plans, p)
    ensures whole.unsatisfied == plans[|plans| - 1].unsatisfied
    ensures forall i :: 0 <= i < |plans| ==> SameReplicas(whole.items, plans[i].items)
  {
    DeltasAddUp(plans, cycles, counts, p);
    DeltaIsWins(whole.items, AllWinners(cycles), counts, p);
  }
}
