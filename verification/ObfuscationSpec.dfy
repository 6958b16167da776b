/** The scheduling-relevant part of a cluster snapshot, and its obfuscation as functions of
    values: keys are renamed through a key map, other removable keys are dropped. */
module ObfuscationSpec {
  import opened ApiObjects
  import opened Decimal

  type StringMap = map<string, string>

  // ---------------------------------------------------------------------------
  // Snapshot
  // ---------------------------------------------------------------------------

  datatype Operator = In | NotIn | Exists | DoesNotExist | Gt | Lt

  datatype Requirement = Requirement(key: string, op: Operator, values: seq<string>)

  datatype NodeTerm = NodeTerm(matchExpressions: seq<Requirement>, matchFields: seq<Requirement>)

  datatype NodeAffinity = NodeAffinity(required: Option<seq<NodeTerm>>, preferred: seq<NodeTerm>)

  datatype LabelSelector = LabelSelector(matchLabels: StringMap, matchExpressions: seq<Requirement>)

  datatype PodTerm = PodTerm(
    topologyKey: string,
    selector: Option<LabelSelector>,
    namespaces: seq<string>,
    namespaceSelector: Option<LabelSelector>)

  /** Pod affinity or anti-affinity; weights do not change. */
  datatype PodAffinity = PodAffinity(required: seq<PodTerm>, preferred: seq<PodTerm>)

  datatype Affinity = Affinity(node: Option<NodeAffinity>, pod: Option<PodAffinity>, antiPod: Option<PodAffinity>)

  datatype Spread = Spread(topologyKey: string, selector: Option<LabelSelector>, matchLabelKeys: seq<string>)

  datatype Effect = NoSchedule | PreferNoSchedule | NoExecute

  datatype Taint = Taint(key: string, value: string, effect: Effect)

  /** No effect means every effect. */
  datatype Toleration = Toleration(key: string, exists_: bool, value: string, effect: Option<Effect>)

  datatype Owner = Owner(kind: string, name: string)

  datatype Pod = Pod(
    name: string,
    ns: string,
    nodeName: string,
    labels: StringMap,
    annotations: StringMap,
    owners: seq<Owner>,
    nodeSelector: StringMap,
    affinity: Option<Affinity>,
    spreads: seq<Spread>,
    tolerations: seq<Toleration>)

  datatype Node = Node(name: string, labels: StringMap, annotations: StringMap, taints: seq<Taint>)

  datatype Snapshot = Snapshot(nodes: seq<Node>, pods: seq<Pod>)

  // ---------------------------------------------------------------------------
  // Keys that go, keys that are renamed
  // ---------------------------------------------------------------------------

  /** Three long literals are cut in two: the verifier knows the characters of a literal only up
      to some length, and the proofs look at the first two. */
  const REMOVE_PREFIXES: seq<string> := [
    "beta.", "failure-domain.beta.", "node.alpha.kubernetes.io", "checksum/",
    "node-agent.gardener.cloud", "worker." + "gardener.cloud/gardener-node-agent-secret-name",
    "resources.gardener.cloud", "shoot.gardener.cloud", "node.gardener.cloud/machine-name",
    "node.machine." + "sapcloud.io/last-applied-anno-labels-taints", "cni.",
    "controller-revision-hash", "gardener.cloud/role", "networking.gardener.cloud/",
    "node.gardener.cloud/critical-component",
    "pod-template-generation", "reference.resources.gardener.cloud/", "csi.volume.kubernetes.io",
    "volumes." + "kubernetes.io/controller-managed-attach-detach",
    "topology.ebs", "worker.gardener", "worker.garden", "topology.k8s.aws"]

  predicate Removable(key: string) {
    exists i :: 0 <= i < |REMOVE_PREFIXES| && REMOVE_PREFIXES[i] <= key
  }

  const KEY_PREFIX := "sched-key-"

  function KeyName(id: nat): string {
    KEY_PREFIX + Itoa(id)
  }

  /** What a key map built from `keys` looks like, whatever order the set was visited in:
      each removable key gets its own number. */
  ghost predicate IsKeyMap(keyMap: StringMap, keys: set<string>) {
    && keyMap.Keys == set k | k in keys && Removable(k)
    && (forall k :: k in keyMap ==> exists id :: 0 <= id && keyMap[k] == KeyName(id))
    && (forall j, k :: j in keyMap && k in keyMap && keyMap[j] == keyMap[k] ==> j == k)
  }

  function Renamed(keyMap: StringMap, key: string): string {
    if key in keyMap then keyMap[key] else key
  }

  /** `maps.DeleteFunc` with the prefix test. */
  function Sanitized(m: StringMap): StringMap {
    map k | k in m && !Removable(k) :: m[k]
  }

  ghost predicate Injective(keyMap: StringMap) {
    forall j, k :: j in keyMap && k in keyMap && keyMap[j] == keyMap[k] ==> j == k
  }

  /** Rename mapped keys, drop other removable keys, keep the rest; a renamed key wins over a
      key that already had its new name. */
  ghost function RenamedMap(m: StringMap, keyMap: StringMap): StringMap
    requires Injective(keyMap)
  {
    (map k | k in m && k !in keyMap && !Removable(k) :: m[k]) +
    (map k | k in m && k in keyMap :: keyMap[k] := m[k])
  }

  // ---------------------------------------------------------------------------
  // Keys collected from scheduling constraints
  // ---------------------------------------------------------------------------

  ghost function RequirementKeys(reqs: seq<Requirement>): set<string> {
    set r | r in reqs :: r.key
  }

  ghost function SelectorKeys(sel: Option<LabelSelector>): set<string> {
    match sel
    case None => {}
    case Some(s) => s.matchLabels.Keys + RequirementKeys(s.matchExpressions)
  }

  ghost function OneNodeTermKeys(t: NodeTerm): set<string> {
    RequirementKeys(t.matchExpressions) + RequirementKeys(t.matchFields)
  }

  ghost function NodeTermKeys(terms: seq<NodeTerm>): set<string> {
    set t, k | t in terms && k in OneNodeTermKeys(t) :: k
  }

  ghost function NonEmpty(key: string): set<string> {
    if key == "" then {} else {key}
  }

  ghost function OnePodTermKeys(t: PodTerm): set<string> {
    NonEmpty(t.topologyKey) + SelectorKeys(t.selector) + SelectorKeys(t.namespaceSelector)
  }

  ghost function PodTermKeys(terms: seq<PodTerm>): set<string> {
    set t, k | t in terms && k in OnePodTermKeys(t) :: k
  }

  ghost function NodeAffinityKeys(a: Option<NodeAffinity>): set<string> {
    match a
    case None => {}
    case Some(na) =>
      (match na.required case None => {} case Some(terms) => NodeTermKeys(terms)) + NodeTermKeys(na.preferred)
  }

  ghost function PodAffinityKeys(a: Option<PodAffinity>): set<string> {
    match a
    case None => {}
    case Some(pa) => PodTermKeys(pa.required) + PodTermKeys(pa.preferred)
  }

  ghost function AffinityKeys(a: Option<Affinity>): set<string> {
    match a
    case None => {}
    case Some(aff) => NodeAffinityKeys(aff.node) + PodAffinityKeys(aff.pod) + PodAffinityKeys(aff.antiPod)
  }

  ghost function OneSpreadKeys(s: Spread): set<string> {
    NonEmpty(s.topologyKey) + SelectorKeys(s.selector) + set x | x in s.matchLabelKeys
  }

  ghost function SpreadKeys(spreads: seq<Spread>): set<string> {
    set s, k | s in spreads && k in OneSpreadKeys(s) :: k
  }

  ghost function TolerationKeys(tolerations: seq<Toleration>): set<string> {
    set t | t in tolerations && t.key != "" :: t.key
  }

  ghost function PodKeys(p: Pod): set<string> {
    p.nodeSelector.Keys + TolerationKeys(p.tolerations) + AffinityKeys(p.affinity) + SpreadKeys(p.spreads)
  }

  ghost function SchedulingKeys(pods: seq<Pod>): set<string> {
    set p, k | p in pods && k in PodKeys(p) :: k
  }

  // ---------------------------------------------------------------------------
  // Rewriting
  // ---------------------------------------------------------------------------

  function RenamedRequirement(r: Requirement, keyMap: StringMap): Requirement {
    r.(key := Renamed(keyMap, r.key))
  }

  function RenamedRequirements(reqs: seq<Requirement>, keyMap: StringMap): seq<Requirement> {
    seq(|reqs|, i requires 0 <= i < |reqs| => RenamedRequirement(reqs[i], keyMap))
  }

  function RenamedNodeTerm(t: NodeTerm, keyMap: StringMap): NodeTerm {
    NodeTerm(RenamedRequirements(t.matchExpressions, keyMap), RenamedRequirements(t.matchFields, keyMap))
  }

  function RenamedNodeTerms(terms: seq<NodeTerm>, keyMap: StringMap): seq<NodeTerm> {
    seq(|terms|, i requires 0 <= i < |terms| => RenamedNodeTerm(terms[i], keyMap))
  }

  ghost function RenamedSelector(sel: Option<LabelSelector>, keyMap: StringMap): Option<LabelSelector>
    requires Injective(keyMap)
  {
    match sel
    case None => None
    case Some(s) =>
      Some(LabelSelector(RenamedMap(s.matchLabels, keyMap), RenamedRequirements(s.matchExpressions, keyMap)))
  }

  ghost function RenamedPodTerm(t: PodTerm, keyMap: StringMap): PodTerm
    requires Injective(keyMap)
  {
    PodTerm(Renamed(keyMap, t.topologyKey), RenamedSelector(t.selector, keyMap),
            t.namespaces, RenamedSelector(t.namespaceSelector, keyMap))
  }

  ghost function RenamedPodTerms(terms: seq<PodTerm>, keyMap: StringMap): seq<PodTerm>
    requires Injective(keyMap)
  {
    seq(|terms|, i requires 0 <= i < |terms| => RenamedPodTerm(terms[i], keyMap))
  }

  ghost function RenamedPodAffinity(a: Option<PodAffinity>, keyMap: StringMap): Option<PodAffinity>
    requires Injective(keyMap)
  {
    match a
    case None => None
    case Some(pa) => Some(PodAffinity(RenamedPodTerms(pa.required, keyMap), RenamedPodTerms(pa.preferred, keyMap)))
  }

  function RenamedNodeAffinity(a: Option<NodeAffinity>, keyMap: StringMap): Option<NodeAffinity> {
    match a
    case None => None
    case Some(na) =>
      Some(NodeAffinity(match na.required case None => None case Some(terms) => Some(RenamedNodeTerms(terms, keyMap)),
                        RenamedNodeTerms(na.preferred, keyMap)))
  }

  ghost function RenamedAffinity(a: Option<Affinity>, keyMap: StringMap): Option<Affinity>
    requires Injective(keyMap)
  {
    match a
    case None => None
    case Some(aff) =>
      Some(Affinity(RenamedNodeAffinity(aff.node, keyMap), RenamedPodAffinity(aff.pod, keyMap),
        RenamedPodAffinity(aff.antiPod, keyMap)))
  }

  function RenamedKeys(keys: seq<string>, keyMap: StringMap): seq<string> {
    seq(|keys|, i requires 0 <= i < |keys| => Renamed(keyMap, keys[i]))
  }

  ghost function RenamedSpread(s: Spread, keyMap: StringMap): Spread
    requires Injective(keyMap)
  {
    Spread(Renamed(keyMap, s.topologyKey), RenamedSelector(s.selector, keyMap), RenamedKeys(s.matchLabelKeys, keyMap))
  }

  ghost function RenamedSpreads(spreads: seq<Spread>, keyMap: StringMap): seq<Spread>
    requires Injective(keyMap)
  {
    seq(|spreads|, i requires 0 <= i < |spreads| => RenamedSpread(spreads[i], keyMap))
  }

  function RenamedToleration(t: Toleration, keyMap: StringMap): Toleration {
    t.(key := Renamed(keyMap, t.key))
  }

  function RenamedTolerations(ts: seq<Toleration>, keyMap: StringMap): seq<Toleration> {
    seq(|ts|, i requires 0 <= i < |ts| => RenamedToleration(ts[i], keyMap))
  }

  function RenamedTaint(t: Taint, keyMap: StringMap): Taint {
    t.(key := Renamed(keyMap, t.key))
  }

  function RenamedTaints(ts: seq<Taint>, keyMap: StringMap): seq<Taint> {
    seq(|ts|, i requires 0 <= i < |ts| => RenamedTaint(ts[i], keyMap))
  }

  // ---------------------------------------------------------------------------
  // Names
  // ---------------------------------------------------------------------------

  function NodeName(i: nat): string {
    "node-" + Itoa(i)
  }

  /** Built by visiting the nodes in order: of two nodes with one name the later wins. */
  function NodeNames(nodes: seq<Node>): StringMap {
    if nodes == [] then map[]
    else
      var n := |nodes| - 1;
      NodeNames(nodes[..n])[nodes[n].name := NodeName(n)]
  }

  function PodName(p: Pod, i: nat): string {
    "pod-" + Itoa(i) + if |p.owners| >= 1 && p.owners[0].kind == "DaemonSet" then "-ds" else ""
  }

  function OwnerName(i: nat): string {
    "owner-" + Itoa(i)
  }

  /** Owner names are numbered in the order of their first appearance. */
  function AddOwners(names: StringMap, owners: seq<Owner>): StringMap
    decreases |owners|
  {
    if owners == [] then names
    else AddOwners(if owners[0].name in names then names else names[owners[0].name := OwnerName(|names|)], owners[1..])
  }

  function OwnerNames(pods: seq<Pod>): StringMap {
    if pods == [] then map[]
    else AddOwners(OwnerNames(pods[..|pods| - 1]), pods[|pods| - 1].owners)
  }

  function RenamedOwners(owners: seq<Owner>, names: StringMap): seq<Owner> {
    seq(|owners|, i requires 0 <= i < |owners| => owners[i].(name := Renamed(names, owners[i].name)))
  }

  /** The whole snapshot. */
  ghost function ObfuscatedNode(n: Node, names: StringMap, keyMap: StringMap): Node
    requires Injective(keyMap) && n.name in names
  {
    Node(names[n.name], RenamedMap(n.labels, keyMap), Sanitized(n.annotations), RenamedTaints(n.taints, keyMap))
  }

  ghost function ObfuscatedPod(p: Pod, i: nat, nodeNames: StringMap, ownerNames: StringMap, keyMap: StringMap): Pod
    requires Injective(keyMap)
  {
    Pod(PodName(p, i), p.ns, Renamed(nodeNames, p.nodeName),
        RenamedMap(p.labels, keyMap), Sanitized(p.annotations), RenamedOwners(p.owners, ownerNames),
        RenamedMap(p.nodeSelector, keyMap), RenamedAffinity(p.affinity, keyMap),
        RenamedSpreads(p.spreads, keyMap), RenamedTolerations(p.tolerations, keyMap))
  }

  ghost predicate NodesNamed(nodes: seq<Node>, names: StringMap) {
    forall i :: 0 <= i < |nodes| ==> nodes[i].name in names
  }

  ghost function Obfuscated(snap: Snapshot, keyMap: StringMap): Snapshot
    requires Injective(keyMap) && NodesNamed(snap.nodes, NodeNames(snap.nodes))
  {
    var nodeNames, ownerNames := NodeNames(snap.nodes), OwnerNames(snap.pods);
    Snapshot(
      seq(|snap.nodes|, i requires 0 <= i < |snap.nodes| => ObfuscatedNode(snap.nodes[i], nodeNames, keyMap)),
      seq(|snap.pods|, i requires 0 <= i < |snap.pods| =>
        ObfuscatedPod(snap.pods[i], i, nodeNames, ownerNames, keyMap)))
  }
}
