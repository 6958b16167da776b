/** What the two node scorers compute, as functions of values.  Quantities and weights are
    reals; a score is an integer obtained by rounding or by cutting off the fraction. */
module ScoringSpec {
  import opened ApiObjects

  type Resources = map<string, real>

  type Weights = map<string, real>

  datatype NodePlacement = NodePlacement(
    poolName: string,
    templateName: string,
    instanceType: string,
    region: string,
    zone: string)

  datatype PodResources = PodResources(key: Key, requests: Resources)

  datatype NodePodAssignment = NodePodAssignment(allocatable: Resources, pods: seq<PodResources>)

  datatype ScorerArgs = ScorerArgs(
    id: string,
    placement: NodePlacement,
    scaled: NodePodAssignment,
    others: seq<NodePodAssignment>,
    leftover: seq<Key>)

  datatype NodeScore = NodeScore(
    name: string,
    placement: NodePlacement,
    allocatable: Resources,
    unscheduled: seq<Key>,
    value: int)

  datatype Answer<+T> = Scored(value: T) | NoWeights(instanceType: string) | NoPrice(instanceType: string) | NoScores

  /** The pricing table and the weights table; a missing entry is an error. */
  datatype Tables = Tables(weights: map<string, Weights>, prices: map<(string, string), real>) {
    predicate Weighs(p: NodePlacement) {
      p.instanceType in weights
    }

    predicate Prices(p: NodePlacement) {
      (p.region, p.instanceType) in prices
    }

    function Price(p: NodePlacement): real
      requires Prices(p)
    {
      prices[(p.region, p.instanceType)]
    }
  }

  // ---------------------------------------------------------------------------
  // Normalised resource units
  // ---------------------------------------------------------------------------

  function Amount(m: Resources, r: string): real {
    if r in m then m[r] else 0.0
  }

  function Weighed(m: Resources, w: Weights, r: string): real
    requires r in w
  {
    w[r] * Amount(m, r)
  }

  /** The weighted sum over the resources in `keys`. */
  ghost function UnitsOver(m: Resources, w: Weights, keys: set<string>): real
    requires keys <= w.Keys
  {
    if keys == {} then 0.0
    else
      var k :| k in keys;
      Weighed(m, w, k) + UnitsOver(m, w, keys - {k})
  }

  ghost function Units(m: Resources, w: Weights): real {
    UnitsOver(m, w, w.Keys)
  }

  function Plus(a: Resources, b: Resources): Resources {
    map r | r in a.Keys + b.Keys :: Amount(a, r) + Amount(b, r)
  }

  /** Only what the node offers is wasted: requests for other resources are ignored. */
  function Minus(a: Resources, b: Resources): Resources {
    map r | r in a :: a[r] - Amount(b, r)
  }

  function Requested(pods: seq<PodResources>): Resources {
    if pods == [] then map[]
    else Plus(Requested(pods[..|pods| - 1]), pods[|pods| - 1].requests)
  }

  function PodsOf(assignments: seq<NodePodAssignment>): seq<PodResources> {
    if assignments == [] then []
    else PodsOf(assignments[..|assignments| - 1]) + assignments[|assignments| - 1].pods
  }

  /** Every pod the simulation placed: on the new node first, then on the others. */
  function Scheduled(args: ScorerArgs): seq<PodResources> {
    args.scaled.pods + PodsOf(args.others)
  }

  /** Half away from zero. */
  function Round(x: real): int {
    if x >= 0.0 then (x + 0.5).Floor else -((-x + 0.5).Floor)
  }

  /** Toward zero. */
  function Truncate(x: real): int {
    if x >= 0.0 then x.Floor else -((-x).Floor)
  }

  function ScoreOf(args: ScorerArgs, value: int): NodeScore {
    NodeScore(args.id, args.placement, args.scaled.allocatable, args.leftover, value)
  }

  ghost function CostValue(pods: seq<PodResources>, w: Weights, price: real): int {
    if price == 0.0 then -1 else Round(Units(Requested(pods), w) * 100.0 / price)
  }

  ghost function WasteValue(allocatable: Resources, pods: seq<PodResources>, w: Weights): int {
    Truncate(Units(Minus(allocatable, Requested(pods)), w) * 100.0)
  }
}
