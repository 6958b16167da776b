/** What the scheduler reads off a snapshot: selectors, affinities, taints, spread domains. */
module SchedulingSemantics {
  import opened ApiObjects
  import opened ObfuscationSpec

  /** How Gt and Lt compare a label value with a requirement's values. */
  type Compare = (string, Operator, seq<string>) -> bool

  predicate ReqMatches(r: Requirement, labels: StringMap, cmp: Compare) {
    match r.op
    case In => r.key in labels && labels[r.key] in r.values
    case NotIn => !(r.key in labels && labels[r.key] in r.values)
    case Exists => r.key in labels
    case DoesNotExist => r.key !in labels
    case Gt => r.key in labels && cmp(labels[r.key], Gt, r.values)
    case Lt => r.key in labels && cmp(labels[r.key], Lt, r.values)
  }

  ghost predicate AllReqsMatch(reqs: seq<Requirement>, labels: StringMap, cmp: Compare) {
    forall i :: 0 <= i < |reqs| ==> ReqMatches(reqs[i], labels, cmp)
  }

  ghost predicate MapMatches(wanted: StringMap, labels: StringMap) {
    forall k :: k in wanted ==> k in labels && labels[k] == wanted[k]
  }

  /** The only field a node can be matched by is its name. */
  predicate FieldMatches(r: Requirement, nodeName: string) {
    r.key == "metadata.name" &&
    match r.op
    case In => nodeName in r.values
    case NotIn => nodeName !in r.values
    case _ => false
  }

  ghost predicate AllFieldsMatch(fields: seq<Requirement>, nodeName: string) {
    forall i :: 0 <= i < |fields| ==> FieldMatches(fields[i], nodeName)
  }

  /** An empty term matches no node. */
  ghost predicate NodeTermMatches(t: NodeTerm, node: Node, cmp: Compare) {
    && (t.matchExpressions != [] || t.matchFields != [])
    && AllReqsMatch(t.matchExpressions, node.labels, cmp)
    && AllFieldsMatch(t.matchFields, node.name)
  }

  ghost predicate AnyTermMatches(terms: seq<NodeTerm>, node: Node, cmp: Compare) {
    exists i :: 0 <= i < |terms| && NodeTermMatches(terms[i], node, cmp)
  }

  predicate HasRequiredTerms(a: Option<Affinity>) {
    a.Some? && a.value.node.Some? && a.value.node.value.required.Some?
  }

  ghost predicate RequiredNodeAffinity(a: Option<Affinity>, node: Node, cmp: Compare) {
    HasRequiredTerms(a) ==> AnyTermMatches(a.value.node.value.required.value, node, cmp)
  }

  /** A missing selector selects nothing. */
  ghost predicate SelectorMatches(sel: Option<LabelSelector>, labels: StringMap, cmp: Compare) {
    sel.Some? && MapMatches(sel.value.matchLabels, labels) && AllReqsMatch(sel.value.matchExpressions, labels, cmp)
  }

  predicate Tolerates(tol: Toleration, taint: Taint) {
    && (tol.effect.Some? ==> tol.effect.value == taint.effect)
    && (tol.key != "" ==> tol.key == taint.key)
    && (tol.exists_ || tol.value == taint.value)
  }

  predicate OnNode(p: Pod, n: Node) {
    p.nodeName == n.name
  }

  predicate OnLabelled(q: Pod, n: Node, key: string, value: string) {
    OnNode(q, n) && key in n.labels && n.labels[key] == value
  }

  /** Pod `q` runs on a node whose label `key` is `value`. */
  ghost predicate InDomain(snap: Snapshot, q: Pod, key: string, value: string) {
    exists j :: 0 <= j < |snap.nodes| && OnLabelled(q, snap.nodes[j], key, value)
  }

  /** If the incoming pod has the label, so has the other, with the same value. */
  predicate AgreesOn(k: string, incoming: StringMap, labels: StringMap) {
    k in incoming ==> k in labels && labels[k] == incoming[k]
  }

  ghost predicate AgreesOnAll(ks: seq<string>, incoming: StringMap, labels: StringMap) {
    forall i :: 0 <= i < |ks| ==> AgreesOn(ks[i], incoming, labels)
  }

  /** A spread constraint also asks for the incoming pod's own values of `matchLabelKeys`. */
  ghost predicate SpreadSelects(s: Spread, incoming: StringMap, labels: StringMap, cmp: Compare) {
    SelectorMatches(s.selector, labels, cmp) && AgreesOnAll(s.matchLabelKeys, incoming, labels)
  }

  ghost predicate SpreadCounts(snap: Snapshot, p: Pod, s: Spread, value: string, cmp: Compare, q: Pod) {
    q.ns == p.ns && SpreadSelects(s, p.labels, q.labels, cmp) && InDomain(snap, q, s.topologyKey, value)
  }

  /** The pods a constraint of the incoming pod `p` counts in the domain `value`. */
  ghost function SpreadPods(snap: Snapshot, p: Pod, s: Spread, value: string, cmp: Compare): set<nat> {
    set q: nat | q < |snap.pods| && SpreadCounts(snap, p, s, value, cmp, snap.pods[q])
  }

  /** The labels of each namespace; namespaces are not part of a snapshot. */
  type NamespaceLabels = string -> StringMap

  /** A term looks at the namespaces it lists and those it selects; if it has neither list nor
      selector, at the namespace `own` of the incoming pod. */
  ghost predicate LooksAt(t: PodTerm, own: string, ns: string, labels: NamespaceLabels, cmp: Compare) {
    if t.namespaces == [] && t.namespaceSelector.None? then ns == own
    else ns in t.namespaces || SelectorMatches(t.namespaceSelector, labels(ns), cmp)
  }

  /** Pod `q` runs in the domain of `node`. */
  ghost predicate NearNode(snap: Snapshot, q: Pod, key: string, node: Node) {
    key in node.labels && InDomain(snap, q, key, node.labels[key])
  }

  ghost predicate AffineTo(
    snap: Snapshot, t: PodTerm, own: string, node: Node, labels: NamespaceLabels, cmp: Compare, q: Pod)
  {
    && LooksAt(t, own, q.ns, labels, cmp)
    && SelectorMatches(t.selector, q.labels, cmp)
    && NearNode(snap, q, t.topologyKey, node)
  }

  /** The pods a pod-affinity term finds in the topology domain of node `j`. */
  ghost function AffinePods(
    snap: Snapshot, t: PodTerm, own: string, j: nat, labels: NamespaceLabels, cmp: Compare): set<nat>
    requires j < |snap.nodes|
  {
    set q: nat | q < |snap.pods| && AffineTo(snap, t, own, snap.nodes[j], labels, cmp, snap.pods[q])
  }

  lemma SameSpreadPods(a: Snapshot, pa: Pod, sa: Spread, b: Snapshot, pb: Pod, sb: Spread, value: string, cmp: Compare)
    requires |a.pods| == |b.pods|
    requires forall q: nat :: q < |a.pods| ==>
      (SpreadCounts(a, pa, sa, value, cmp, a.pods[q]) <==> SpreadCounts(b, pb, sb, value, cmp, b.pods[q]))
    ensures SpreadPods(a, pa, sa, value, cmp) == SpreadPods(b, pb, sb, value, cmp)
  {
  }

  lemma SameAffinePods(
    a: Snapshot, ta: PodTerm, b: Snapshot, tb: PodTerm, own: string, j: nat, labels: NamespaceLabels, cmp: Compare)
    requires |a.pods| == |b.pods| && j < |a.nodes| && j < |b.nodes|
    requires forall q: nat :: q < |a.pods| ==>
      (AffineTo(a, ta, own, a.nodes[j], labels, cmp, a.pods[q]) <==>
       AffineTo(b, tb, own, b.nodes[j], labels, cmp, b.pods[q]))
    ensures AffinePods(a, ta, own, j, labels, cmp) == AffinePods(b, tb, own, j, labels, cmp)
  {
  }
}
