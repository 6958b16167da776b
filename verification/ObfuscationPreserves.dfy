/** The main theorem about obfuscation: every verdict the scheduler takes from the snapshot is
    the verdict it takes from the obfuscated one. */
module ObfuscationPreserves {
  import opened ApiObjects
  import opened ObfuscationSpec
  import opened SchedulingSemantics
  import opened ObfuscationTheorems
  import opened ObfuscationNamespaces

  /** A pod that names no node of the snapshot does not happen to name a new node. */
  ghost predicate Locatable(nodes: seq<Node>, nodeName: string) {
    || (exists j: nat :: j < |nodes| && nodeName == nodes[j].name)
    || (forall j: nat :: j < |nodes| ==> nodeName != NodeName(j))
  }

  /** The new keys occur nowhere in the snapshot. */
  ghost predicate KeysUnused(snap: Snapshot, keyMap: StringMap) {
    && Fresh(keyMap, SchedulingKeys(snap.pods))
    && (forall n: nat :: n < |snap.nodes| ==> Fresh(keyMap, snap.nodes[n].labels.Keys))
    && (forall n: nat, t: nat :: n < |snap.nodes| && t < |snap.nodes[n].taints| ==>
        Fresh(keyMap, {snap.nodes[n].taints[t].key}))
    && (forall p: nat :: p < |snap.pods| ==> Fresh(keyMap, snap.pods[p].labels.Keys))
  }

  ghost predicate Obfuscable(snap: Snapshot, keyMap: StringMap) {
    && IsKeyMap(keyMap, SchedulingKeys(snap.pods))
    && DistinctNames(snap.nodes)
    && (forall p: nat :: p < |snap.pods| ==> Locatable(snap.nodes, snap.pods[p].nodeName))
    && KeysUnused(snap, keyMap)
  }

  /** Keys that do not start with the prefix of the new ones are not new ones. */
  ghost predicate Unprefixed(snap: Snapshot) {
    && NoneStartsWith(SchedulingKeys(snap.pods), KEY_PREFIX)
    && (forall n: nat :: n < |snap.nodes| ==> NoneStartsWith(snap.nodes[n].labels.Keys, KEY_PREFIX))
    && (forall n: nat, t: nat :: n < |snap.nodes| && t < |snap.nodes[n].taints| ==>
        NoneStartsWith({snap.nodes[n].taints[t].key}, KEY_PREFIX))
    && (forall p: nat :: p < |snap.pods| ==> NoneStartsWith(snap.pods[p].labels.Keys, KEY_PREFIX))
  }

  lemma UnprefixedHasKeysUnused(snap: Snapshot, keyMap: StringMap)
    requires IsKeyMap(keyMap, SchedulingKeys(snap.pods)) && Unprefixed(snap)
    ensures KeysUnused(snap, keyMap)
  {
    var keys := SchedulingKeys(snap.pods);
    UnprefixedIsFresh(keyMap, keys, keys);
    forall n: nat | n < |snap.nodes| ensures Fresh(keyMap, snap.nodes[n].labels.Keys) {
      UnprefixedIsFresh(keyMap, keys, snap.nodes[n].labels.Keys);
    }
    forall n: nat, t: nat | n < |snap.nodes| && t < |snap.nodes[n].taints|
      ensures Fresh(keyMap, {snap.nodes[n].taints[t].key})
    {
      UnprefixedIsFresh(keyMap, keys, {snap.nodes[n].taints[t].key});
    }
    forall p: nat | p < |snap.pods| ensures Fresh(keyMap, snap.pods[p].labels.Keys) {
      UnprefixedIsFresh(keyMap, keys, snap.pods[p].labels.Keys);
    }
  }

  lemma NodesAreNamed(snap: Snapshot)
    requires DistinctNames(snap.nodes)
    ensures NodesNamed(snap.nodes, NodeNames(snap.nodes))
  {
    NodeNamesAt(snap.nodes);
  }

  ghost function Result(snap: Snapshot, keyMap: StringMap): (snap': Snapshot)
    requires Obfuscable(snap, keyMap)
    ensures |snap'.nodes| == |snap.nodes| && |snap'.pods| == |snap.pods|
  {
    NodesAreNamed(snap);
    Obfuscated(snap, keyMap)
  }

  lemma KeysOfPod(snap: Snapshot, p: nat)
    requires p < |snap.pods|
    ensures PodKeys(snap.pods[p]) <= SchedulingKeys(snap.pods)
  {
    forall k | k in PodKeys(snap.pods[p]) ensures k in SchedulingKeys(snap.pods) {
      assert snap.pods[p] in snap.pods;
    }
  }

  /** NodeSelector. */
  lemma NodeSelectorPreserved(snap: Snapshot, keyMap: StringMap, p: nat, n: nat)
    requires Obfuscable(snap, keyMap) && p < |snap.pods| && n < |snap.nodes|
    ensures var snap' := Result(snap, keyMap);
      MapMatches(snap'.pods[p].nodeSelector, snap'.nodes[n].labels) <==>
        MapMatches(snap.pods[p].nodeSelector, snap.nodes[n].labels)
  {
    KeysOfPod(snap, p);
    MapMatchesPreserved(snap.pods[p].nodeSelector, snap.nodes[n].labels, keyMap, SchedulingKeys(snap.pods));
  }

  /** The required or the preferred node-affinity terms of a pod. */
  ghost function NodeTerms(p: Pod, preferred: bool): seq<NodeTerm> {
    if p.affinity.None? || p.affinity.value.node.None? then []
    else if preferred then p.affinity.value.node.value.preferred
    else match p.affinity.value.node.value.required case None => [] case Some(terms) => terms
  }

  lemma NodeTermsRenamed(p: Pod, p': Pod, keyMap: StringMap, preferred: bool)
    requires Injective(keyMap) && p'.affinity == RenamedAffinity(p.affinity, keyMap)
    ensures NodeTerms(p', preferred) == RenamedNodeTerms(NodeTerms(p, preferred), keyMap)
    ensures NodeTermKeys(NodeTerms(p, preferred)) <= PodKeys(p)
  {
  }

  lemma AffinityIsRenamed(snap: Snapshot, keyMap: StringMap, p: nat)
    requires Obfuscable(snap, keyMap) && p < |snap.pods|
    ensures Result(snap, keyMap).pods[p].affinity == RenamedAffinity(snap.pods[p].affinity, keyMap)
  {
  }

  lemma NodeIsRenamed(snap: Snapshot, keyMap: StringMap, n: nat)
    requires Obfuscable(snap, keyMap) && n < |snap.nodes|
    ensures Result(snap, keyMap).nodes[n].name == NodeName(n)
    ensures Result(snap, keyMap).nodes[n].labels == RenamedMap(snap.nodes[n].labels, keyMap)
  {
    NodeNamesAt(snap.nodes);
  }

  /** Node affinity, required or preferred, term by term, on a node that the match fields take or
      refuse alike by its old and its new name. */
  lemma NodeAffinityPreserved(snap: Snapshot, keyMap: StringMap, p: nat, preferred: bool, n: nat, cmp: Compare)
    requires Obfuscable(snap, keyMap) && p < |snap.pods| && n < |snap.nodes|
    requires AllFieldsStable(NodeTerms(snap.pods[p], preferred), snap.nodes[n].name, NodeName(n))
    ensures var p', n' := Result(snap, keyMap).pods[p], Result(snap, keyMap).nodes[n];
      var terms, terms' := NodeTerms(snap.pods[p], preferred), NodeTerms(p', preferred);
      |terms'| == |terms| &&
      (forall i :: 0 <= i < |terms| ==>
        (NodeTermMatches(terms'[i], n', cmp) <==> NodeTermMatches(terms[i], snap.nodes[n], cmp))) &&
      (AnyTermMatches(terms', n', cmp) <==> AnyTermMatches(terms, snap.nodes[n], cmp))
  {
    var p', n' := Result(snap, keyMap).pods[p], Result(snap, keyMap).nodes[n];
    var terms := NodeTerms(snap.pods[p], preferred);
    AffinityIsRenamed(snap, keyMap, p);
    NodeIsRenamed(snap, keyMap, n);
    KeysOfPod(snap, p);
    NodeTermsRenamed(snap.pods[p], p', keyMap, preferred);
    TermsPreserved(terms, snap.nodes[n], n', keyMap, SchedulingKeys(snap.pods), cmp);
    AnyTermPreserved(terms, snap.nodes[n], n', keyMap, cmp);
  }

  lemma AnyTermPreserved(terms: seq<NodeTerm>, node: Node, node': Node, keyMap: StringMap, cmp: Compare)
    requires var terms' := RenamedNodeTerms(terms, keyMap);
      forall i :: 0 <= i < |terms| ==>
        (NodeTermMatches(terms'[i], node', cmp) <==> NodeTermMatches(terms[i], node, cmp))
    ensures AnyTermMatches(RenamedNodeTerms(terms, keyMap), node', cmp) <==> AnyTermMatches(terms, node, cmp)
  {
    var terms' := RenamedNodeTerms(terms, keyMap);
    if i :| 0 <= i < |terms| && NodeTermMatches(terms[i], node, cmp) {
      assert NodeTermMatches(terms'[i], node', cmp);
    }
    if i :| 0 <= i < |terms'| && NodeTermMatches(terms'[i], node', cmp) {
      assert NodeTermMatches(terms[i], node, cmp);
    }
  }

  lemma RequiredTermsStay(a: Option<Affinity>, keyMap: StringMap)
    requires Injective(keyMap)
    ensures HasRequiredTerms(RenamedAffinity(a, keyMap)) <==> HasRequiredTerms(a)
  {
  }

  lemma RequiredByTerms(p: Pod, node: Node, cmp: Compare)
    ensures RequiredNodeAffinity(p.affinity, node, cmp) <==>
      (HasRequiredTerms(p.affinity) ==> AnyTermMatches(NodeTerms(p, false), node, cmp))
  {
  }

  /** What the required terms decide: a pod without any may go to every node. */
  lemma RequiredNodeAffinityPreserved(snap: Snapshot, keyMap: StringMap, p: nat, n: nat, cmp: Compare)
    requires Obfuscable(snap, keyMap) && p < |snap.pods| && n < |snap.nodes|
    requires AllFieldsStable(NodeTerms(snap.pods[p], false), snap.nodes[n].name, NodeName(n))
    ensures var snap' := Result(snap, keyMap);
      RequiredNodeAffinity(snap'.pods[p].affinity, snap'.nodes[n], cmp) <==>
      RequiredNodeAffinity(snap.pods[p].affinity, snap.nodes[n], cmp)
  {
    AffinityIsRenamed(snap, keyMap, p);
    NodeAffinityPreserved(snap, keyMap, p, false, n, cmp);
    RequiredTermsStay(snap.pods[p].affinity, keyMap);
    RequiredByTerms(snap.pods[p], snap.nodes[n], cmp);
    RequiredByTerms(Result(snap, keyMap).pods[p], Result(snap, keyMap).nodes[n], cmp);
  }

  /** The required terms of a pod admit the same nodes of the snapshot, if the match fields of each
      take the same nodes by old and by new names. */
  lemma RequiredNodeAffinityPreservedOnAll(snap: Snapshot, keyMap: StringMap, p: nat, cmp: Compare)
    requires Obfuscable(snap, keyMap) && p < |snap.pods|
    requires TakeSame(snap.nodes, NodeTerms(snap.pods[p], false))
    ensures var snap' := Result(snap, keyMap);
      forall n: nat :: n < |snap.nodes| ==>
        (RequiredNodeAffinity(snap'.pods[p].affinity, snap'.nodes[n], cmp) <==>
         RequiredNodeAffinity(snap.pods[p].affinity, snap.nodes[n], cmp))
  {
    var snap', terms := Result(snap, keyMap), NodeTerms(snap.pods[p], false);
    forall n: nat | n < |snap.nodes|
      ensures RequiredNodeAffinity(snap'.pods[p].affinity, snap'.nodes[n], cmp) <==>
        RequiredNodeAffinity(snap.pods[p].affinity, snap.nodes[n], cmp)
    {
      TakeSameIsStable(snap.nodes, terms, n);
      RequiredNodeAffinityPreserved(snap, keyMap, p, n, cmp);
    }
  }

  ghost predicate TakeSame(nodes: seq<Node>, terms: seq<NodeTerm>) {
    forall i :: 0 <= i < |terms| ==>
      TakenBefore(nodes, terms[i].matchFields) == TakenAfter(nodes, terms[i].matchFields)
  }

  lemma TakeSameIsStable(nodes: seq<Node>, terms: seq<NodeTerm>, n: nat)
    requires TakeSame(nodes, terms) && n < |nodes|
    ensures AllFieldsStable(terms, nodes[n].name, NodeName(n))
  {
    forall i | 0 <= i < |terms| ensures FieldsStable(terms[i], nodes[n].name, NodeName(n)) {
      TakesSameIff(nodes, terms[i]);
    }
  }

  ghost predicate NodeTermKept(snap: Snapshot, keyMap: StringMap, t: NodeTerm, n: nat, cmp: Compare)
    requires Obfuscable(snap, keyMap) && n < |snap.nodes|
  {
    NodeTermMatches(RenamedNodeTerm(t, keyMap), Result(snap, keyMap).nodes[n], cmp) <==>
    NodeTermMatches(t, snap.nodes[n], cmp)
  }

  /** With given match fields, every term over the scheduling keys keeps its verdict on every node if
      and only if the fields take the same nodes by old and by new names. */
  lemma NodeTermsKeptIff(snap: Snapshot, keyMap: StringMap, fields: seq<Requirement>, cmp: Compare)
    requires Obfuscable(snap, keyMap)
    ensures (forall reqs: seq<Requirement>, n: nat ::
        RequirementKeys(reqs) <= SchedulingKeys(snap.pods) && n < |snap.nodes| ==>
          NodeTermKept(snap, keyMap, NodeTerm(reqs, fields), n, cmp)) <==>
      TakenBefore(snap.nodes, fields) == TakenAfter(snap.nodes, fields)
  {
    var keys := SchedulingKeys(snap.pods);
    if TakenBefore(snap.nodes, fields) == TakenAfter(snap.nodes, fields) {
      forall reqs: seq<Requirement>, n: nat | RequirementKeys(reqs) <= keys && n < |snap.nodes|
        ensures NodeTermKept(snap, keyMap, NodeTerm(reqs, fields), n, cmp)
      {
        TakesSameIff(snap.nodes, NodeTerm(reqs, fields));
        NodeIsRenamed(snap, keyMap, n);
        NodeTermPreserved(NodeTerm(reqs, fields), snap.nodes[n], Result(snap, keyMap).nodes[n], keyMap, keys, cmp);
      }
    } else {
      TakesSameIff(snap.nodes, NodeTerm([], fields));
      var n: nat :| n < |snap.nodes| && !FieldsStable(NodeTerm([], fields), snap.nodes[n].name, NodeName(n));
      BareFieldsIsLost(snap, keyMap, fields, n, cmp);
    }
  }

  lemma BareFieldsIsLost(snap: Snapshot, keyMap: StringMap, fields: seq<Requirement>, n: nat, cmp: Compare)
    requires Obfuscable(snap, keyMap) && n < |snap.nodes|
    requires !FieldsStable(NodeTerm([], fields), snap.nodes[n].name, NodeName(n))
    ensures RequirementKeys([]) <= SchedulingKeys(snap.pods)
    ensures !NodeTermKept(snap, keyMap, NodeTerm([], fields), n, cmp)
  {
    NodeIsRenamed(snap, keyMap, n);
    FieldsMatchSame(fields, NodeName(n), keyMap, SchedulingKeys(snap.pods));
    assert fields != [];
  }

  /** Which taints of which nodes each toleration tolerates. */
  lemma TolerancePreserved(snap: Snapshot, keyMap: StringMap, p: nat, t: nat, n: nat, x: nat)
    requires Obfuscable(snap, keyMap) && p < |snap.pods| && n < |snap.nodes|
    requires t < |snap.pods[p].tolerations| && x < |snap.nodes[n].taints|
    ensures var snap' := Result(snap, keyMap);
      Tolerates(snap'.pods[p].tolerations[t], snap'.nodes[n].taints[x]) <==>
        Tolerates(snap.pods[p].tolerations[t], snap.nodes[n].taints[x])
  {
    KeysOfPod(snap, p);
    var tol := snap.pods[p].tolerations[t];
    assert tol.key != "" ==> tol.key in TolerationKeys(snap.pods[p].tolerations);
    TolerationPreserved(tol, snap.nodes[n].taints[x], keyMap, SchedulingKeys(snap.pods));
  }

  lemma PlacementPreserved(snap: Snapshot, keyMap: StringMap, q: nat, j: nat)
    requires Obfuscable(snap, keyMap) && q < |snap.pods| && j < |snap.nodes|
    ensures var snap' := Result(snap, keyMap);
      OnNode(snap'.pods[q], snap'.nodes[j]) <==> OnNode(snap.pods[q], snap.nodes[j])
  {
    NodeNamesAt(snap.nodes);
    assert Locatable(snap.nodes, snap.pods[q].nodeName);
    PlacementPreservedIff(snap.nodes, snap.pods[q].nodeName);
  }

  lemma OnLabelledPreserved(snap: Snapshot, keyMap: StringMap, q: nat, j: nat, key: string, value: string)
    requires Obfuscable(snap, keyMap) && q < |snap.pods| && j < |snap.nodes|
    requires key in SchedulingKeys(snap.pods) || key == ""
    ensures var snap' := Result(snap, keyMap);
      OnLabelled(snap'.pods[q], snap'.nodes[j], Renamed(keyMap, key), value) <==>
      OnLabelled(snap.pods[q], snap.nodes[j], key, value)
  {
    PlacementPreserved(snap, keyMap, q, j);
    NodeIsRenamed(snap, keyMap, j);
    KeyReadsSame(snap.nodes[j].labels, keyMap, SchedulingKeys(snap.pods), key);
  }

  /** A pod is in a topology domain of the obfuscated snapshot exactly when it was before. */
  lemma DomainPreserved(snap: Snapshot, keyMap: StringMap, q: nat, key: string, value: string)
    requires Obfuscable(snap, keyMap) && q < |snap.pods|
    requires key in SchedulingKeys(snap.pods) || key == ""
    ensures var snap' := Result(snap, keyMap);
      InDomain(snap', snap'.pods[q], Renamed(keyMap, key), value) <==> InDomain(snap, snap.pods[q], key, value)
  {
    var snap', key' := Result(snap, keyMap), Renamed(keyMap, key);
    forall j: nat | j < |snap.nodes|
      ensures OnLabelled(snap'.pods[q], snap'.nodes[j], key', value) <==>
        OnLabelled(snap.pods[q], snap.nodes[j], key, value)
    {
      OnLabelledPreserved(snap, keyMap, q, j, key, value);
    }
    if j: nat :| j < |snap.nodes| && OnLabelled(snap.pods[q], snap.nodes[j], key, value) {
      assert OnLabelled(snap'.pods[q], snap'.nodes[j], key', value);
    }
    if j: nat :| j < |snap'.nodes| && OnLabelled(snap'.pods[q], snap'.nodes[j], key', value) {
      assert OnLabelled(snap.pods[q], snap.nodes[j], key, value);
    }
  }

  lemma AgreementPreserved(k: string, incoming: StringMap, labels: StringMap, keyMap: StringMap, keys: set<string>)
    requires Unused(keyMap, keys, labels) && Fresh(keyMap, incoming.Keys) && k in keys
    ensures AgreesOn(Renamed(keyMap, k), RenamedMap(incoming, keyMap), RenamedMap(labels, keyMap)) <==>
      AgreesOn(k, incoming, labels)
  {
    KeyReadsSame(incoming, keyMap, keys, k);
    KeyReadsSame(labels, keyMap, keys, k);
  }

  lemma SpreadSelectsPreserved(
    s: Spread, incoming: StringMap, labels: StringMap, keyMap: StringMap, keys: set<string>, cmp: Compare)
    requires Unused(keyMap, keys, labels) && Fresh(keyMap, incoming.Keys) && OneSpreadKeys(s) <= keys
    ensures SpreadSelects(RenamedSpread(s, keyMap), RenamedMap(incoming, keyMap), RenamedMap(labels, keyMap), cmp) <==>
      SpreadSelects(s, incoming, labels, cmp)
  {
    SelectorPreserved(s.selector, labels, keyMap, keys, cmp);
    assert forall k :: k in s.matchLabelKeys ==> k in OneSpreadKeys(s);
    AgreementsPreserved(s.matchLabelKeys, incoming, labels, keyMap, keys);
  }

  lemma AgreeAlike(
    ks: seq<string>, incoming: StringMap, labels: StringMap, incoming': StringMap, labels': StringMap,
    keyMap: StringMap)
    requires forall k :: k in ks ==>
      (AgreesOn(Renamed(keyMap, k), incoming', labels') <==> AgreesOn(k, incoming, labels))
    ensures AgreesOnAll(RenamedKeys(ks, keyMap), incoming', labels') <==> AgreesOnAll(ks, incoming, labels)
  {
    var ks' := RenamedKeys(ks, keyMap);
    forall i | 0 <= i < |ks| ensures AgreesOn(ks'[i], incoming', labels') <==> AgreesOn(ks[i], incoming, labels) {
    }
  }

  lemma AgreementsPreserved(
    ks: seq<string>, incoming: StringMap, labels: StringMap, keyMap: StringMap, keys: set<string>)
    requires Unused(keyMap, keys, labels) && Fresh(keyMap, incoming.Keys) && forall k :: k in ks ==> k in keys
    ensures AgreesOnAll(RenamedKeys(ks, keyMap), RenamedMap(incoming, keyMap), RenamedMap(labels, keyMap)) <==>
      AgreesOnAll(ks, incoming, labels)
  {
    var incoming', labels' := RenamedMap(incoming, keyMap), RenamedMap(labels, keyMap);
    forall k | k in ks ensures AgreesOn(Renamed(keyMap, k), incoming', labels') <==> AgreesOn(k, incoming, labels) {
      AgreementPreserved(k, incoming, labels, keyMap, keys);
    }
    AgreeAlike(ks, incoming, labels, incoming', labels', keyMap);
  }

  lemma PodIsRenamed(snap: Snapshot, keyMap: StringMap, p: nat)
    requires Obfuscable(snap, keyMap) && p < |snap.pods|
    ensures var p' := Result(snap, keyMap).pods[p];
      p'.ns == snap.pods[p].ns && p'.labels == RenamedMap(snap.pods[p].labels, keyMap) &&
      p'.spreads == RenamedSpreads(snap.pods[p].spreads, keyMap)
  {
  }

  lemma SpreadKeysCollected(snap: Snapshot, p: nat, i: nat)
    requires p < |snap.pods| && i < |snap.pods[p].spreads|
    ensures OneSpreadKeys(snap.pods[p].spreads[i]) <= SchedulingKeys(snap.pods)
  {
    KeysOfPod(snap, p);
    var s := snap.pods[p].spreads[i];
    forall k | k in OneSpreadKeys(s) ensures k in SpreadKeys(snap.pods[p].spreads) {
      assert s in snap.pods[p].spreads;
    }
  }

  lemma SpreadCountPreserved(snap: Snapshot, keyMap: StringMap, p: nat, s: Spread, value: string, cmp: Compare, q: nat)
    requires Obfuscable(snap, keyMap) && p < |snap.pods| && q < |snap.pods|
    requires OneSpreadKeys(s) <= SchedulingKeys(snap.pods)
    ensures var snap' := Result(snap, keyMap);
      SpreadCounts(snap', snap'.pods[p], RenamedSpread(s, keyMap), value, cmp, snap'.pods[q]) <==>
      SpreadCounts(snap, snap.pods[p], s, value, cmp, snap.pods[q])
  {
    var keys := SchedulingKeys(snap.pods);
    assert s.topologyKey in OneSpreadKeys(s) || s.topologyKey == "";
    PodIsRenamed(snap, keyMap, p);
    PodIsRenamed(snap, keyMap, q);
    SpreadSelectsPreserved(s, snap.pods[p].labels, snap.pods[q].labels, keyMap, keys, cmp);
    DomainPreserved(snap, keyMap, q, s.topologyKey, value);
  }

  lemma SpreadFindsSamePods(snap: Snapshot, keyMap: StringMap, p: nat, s: Spread, value: string, cmp: Compare)
    requires Obfuscable(snap, keyMap) && p < |snap.pods|
    requires OneSpreadKeys(s) <= SchedulingKeys(snap.pods)
    ensures SpreadPods(Result(snap, keyMap), Result(snap, keyMap).pods[p], RenamedSpread(s, keyMap), value, cmp) ==
      SpreadPods(snap, snap.pods[p], s, value, cmp)
  {
    var snap', s' := Result(snap, keyMap), RenamedSpread(s, keyMap);
    forall q: nat | q < |snap.pods|
      ensures SpreadCounts(snap', snap'.pods[p], s', value, cmp, snap'.pods[q]) <==>
        SpreadCounts(snap, snap.pods[p], s, value, cmp, snap.pods[q])
    {
      SpreadCountPreserved(snap, keyMap, p, s, value, cmp, q);
    }
    SameSpreadPods(snap', snap'.pods[p], s', snap, snap.pods[p], s, value, cmp);
  }

  /** Topology spread: in every domain, the same pods are counted. */
  lemma SpreadPreserved(snap: Snapshot, keyMap: StringMap, p: nat, i: nat, value: string, cmp: Compare)
    requires Obfuscable(snap, keyMap) && p < |snap.pods| && i < |snap.pods[p].spreads|
    ensures var snap' := Result(snap, keyMap);
      |snap'.pods[p].spreads| == |snap.pods[p].spreads| &&
      SpreadPods(snap', snap'.pods[p], snap'.pods[p].spreads[i], value, cmp) ==
        SpreadPods(snap, snap.pods[p], snap.pods[p].spreads[i], value, cmp)
  {
    PodIsRenamed(snap, keyMap, p);
    SpreadKeysCollected(snap, p, i);
    SpreadFindsSamePods(snap, keyMap, p, snap.pods[p].spreads[i], value, cmp);
  }

  /** One of the four lists of pod-affinity terms of a pod. */
  ghost function PodTerms(p: Pod, anti: bool, preferred: bool): seq<PodTerm> {
    if p.affinity.None? then []
    else
      var a := if anti then p.affinity.value.antiPod else p.affinity.value.pod;
      if a.None? then [] else if preferred then a.value.preferred else a.value.required
  }

  lemma PodTermsRenamed(p: Pod, p': Pod, keyMap: StringMap, anti: bool, preferred: bool)
    requires Injective(keyMap) && p'.affinity == RenamedAffinity(p.affinity, keyMap)
    ensures PodTerms(p', anti, preferred) == RenamedPodTerms(PodTerms(p, anti, preferred), keyMap)
  {
  }

  lemma PodTermKeysCollected(p: Pod, anti: bool, preferred: bool, i: nat)
    requires i < |PodTerms(p, anti, preferred)|
    ensures OnePodTermKeys(PodTerms(p, anti, preferred)[i]) <= PodKeys(p)
  {
    var t := PodTerms(p, anti, preferred)[i];
    forall k | k in OnePodTermKeys(t) ensures k in PodTermKeys(PodTerms(p, anti, preferred)) {
      assert t in PodTerms(p, anti, preferred);
    }
  }

  /** Namespace labels are not rewritten.  For a term it matters what they say of the keys of its
      namespace selector, on namespaces it does not list and of pods that some node is near to. */
  ghost predicate NamespacesAlike(snap: Snapshot, t: PodTerm, keyMap: StringMap, labels: NamespaceLabels) {
    forall q: nat :: q < |snap.pods| && snap.pods[q].ns !in t.namespaces && Findable(snap, q, t.topologyKey) ==>
      AllReadAlike(labels(snap.pods[q].ns), keyMap, SelectorKeys(t.namespaceSelector))
  }

  /** The pod is in some node's domain. */
  ghost predicate Findable(snap: Snapshot, q: nat, key: string)
    requires q < |snap.pods|
  {
    exists j: nat :: j < |snap.nodes| && NearNode(snap, snap.pods[q], key, snap.nodes[j])
  }

  lemma NearNodePreserved(snap: Snapshot, keyMap: StringMap, q: nat, key: string, j: nat)
    requires Obfuscable(snap, keyMap) && q < |snap.pods| && j < |snap.nodes|
    requires key in SchedulingKeys(snap.pods) || key == ""
    ensures var snap' := Result(snap, keyMap);
      NearNode(snap', snap'.pods[q], Renamed(keyMap, key), snap'.nodes[j]) <==>
      NearNode(snap, snap.pods[q], key, snap.nodes[j])
  {
    NodeIsRenamed(snap, keyMap, j);
    KeyReadsSame(snap.nodes[j].labels, keyMap, SchedulingKeys(snap.pods), key);
    if key in snap.nodes[j].labels {
      DomainPreserved(snap, keyMap, q, key, snap.nodes[j].labels[key]);
    }
  }

  lemma LooksAtPreserved(
    t: PodTerm, own: string, ns: string, keyMap: StringMap, keys: set<string>, labels: NamespaceLabels, cmp: Compare)
    requires IsKeyMap(keyMap, keys) && Fresh(keyMap, keys) && SelectorKeys(t.namespaceSelector) <= keys
    requires ns in t.namespaces || AllReadAlike(labels(ns), keyMap, SelectorKeys(t.namespaceSelector))
    ensures LooksAt(RenamedPodTerm(t, keyMap), own, ns, labels, cmp) <==> LooksAt(t, own, ns, labels, cmp)
  {
    if ns !in t.namespaces {
      AlikeSelectorKept(t.namespaceSelector, labels(ns), keyMap, keys, cmp);
    }
  }

  lemma AffinityToPodPreserved(
    snap: Snapshot, keyMap: StringMap, t: PodTerm, own: string, j: nat, labels: NamespaceLabels, cmp: Compare, q: nat)
    requires Obfuscable(snap, keyMap) && j < |snap.nodes| && q < |snap.pods|
    requires OnePodTermKeys(t) <= SchedulingKeys(snap.pods) && NamespacesAlike(snap, t, keyMap, labels)
    ensures var snap' := Result(snap, keyMap);
      AffineTo(snap', RenamedPodTerm(t, keyMap), own, snap'.nodes[j], labels, cmp, snap'.pods[q]) <==>
      AffineTo(snap, t, own, snap.nodes[j], labels, cmp, snap.pods[q])
  {
    var keys := SchedulingKeys(snap.pods);
    assert t.topologyKey in OnePodTermKeys(t) || t.topologyKey == "";
    PodIsRenamed(snap, keyMap, q);
    NearNodePreserved(snap, keyMap, q, t.topologyKey, j);
    if NearNode(snap, snap.pods[q], t.topologyKey, snap.nodes[j]) {
      LooksAtPreserved(t, own, snap.pods[q].ns, keyMap, keys, labels, cmp);
      SelectorPreserved(t.selector, snap.pods[q].labels, keyMap, keys, cmp);
    }
  }

  /** A term whose keys were collected finds the same pods in every node's domain. */
  lemma TermFindsSamePods(
    snap: Snapshot, keyMap: StringMap, t: PodTerm, own: string, j: nat, labels: NamespaceLabels, cmp: Compare)
    requires Obfuscable(snap, keyMap) && j < |snap.nodes|
    requires OnePodTermKeys(t) <= SchedulingKeys(snap.pods) && NamespacesAlike(snap, t, keyMap, labels)
    ensures AffinePods(Result(snap, keyMap), RenamedPodTerm(t, keyMap), own, j, labels, cmp) ==
      AffinePods(snap, t, own, j, labels, cmp)
  {
    var snap', t' := Result(snap, keyMap), RenamedPodTerm(t, keyMap);
    forall q: nat | q < |snap.pods|
      ensures AffineTo(snap', t', own, snap'.nodes[j], labels, cmp, snap'.pods[q]) <==>
        AffineTo(snap, t, own, snap.nodes[j], labels, cmp, snap.pods[q])
    {
      AffinityToPodPreserved(snap, keyMap, t, own, j, labels, cmp, q);
    }
    SameAffinePods(snap', t', snap, t, own, j, labels, cmp);
  }

  /** Pod affinity and anti-affinity: in every node's domain, each term finds the same pods, in
      the namespaces it looks at. */
  lemma PodAffinityPreserved(
    snap: Snapshot, keyMap: StringMap, p: nat, anti: bool, preferred: bool, i: nat, j: nat,
    labels: NamespaceLabels, cmp: Compare)
    requires Obfuscable(snap, keyMap) && p < |snap.pods| && j < |snap.nodes|
    requires i < |PodTerms(snap.pods[p], anti, preferred)|
    requires NamespacesAlike(snap, PodTerms(snap.pods[p], anti, preferred)[i], keyMap, labels)
    ensures var snap' := Result(snap, keyMap);
      var own, own' := snap.pods[p].ns, snap'.pods[p].ns;
      var terms, terms' := PodTerms(snap.pods[p], anti, preferred), PodTerms(snap'.pods[p], anti, preferred);
      |terms'| == |terms| &&
      AffinePods(snap', terms'[i], own', j, labels, cmp) == AffinePods(snap, terms[i], own, j, labels, cmp)
  {
    AffinityIsRenamed(snap, keyMap, p);
    PodIsRenamed(snap, keyMap, p);
    PodTermsRenamed(snap.pods[p], Result(snap, keyMap).pods[p], keyMap, anti, preferred);
    KeysOfPod(snap, p);
    PodTermKeysCollected(snap.pods[p], anti, preferred, i);
    TermFindsSamePods(snap, keyMap, PodTerms(snap.pods[p], anti, preferred)[i], snap.pods[p].ns, j, labels, cmp);
  }

  /** A term over scheduling keys finds the same pods for every node. */
  ghost predicate TermKept(
    snap: Snapshot, keyMap: StringMap, t: PodTerm, own: string, labels: NamespaceLabels, cmp: Compare)
    requires Obfuscable(snap, keyMap)
  {
    forall j: nat :: j < |snap.nodes| ==>
      AffinePods(Result(snap, keyMap), RenamedPodTerm(t, keyMap), own, j, labels, cmp) ==
      AffinePods(snap, t, own, j, labels, cmp)
  }

  /** A term by topology key `key` for all pods of the namespaces that `sel` selects. */
  ghost function SelectingTerm(key: string, sel: LabelSelector): PodTerm {
    PodTerm(key, Some(EVERYTHING), [], Some(sel))
  }

  lemma SelectingTermFinds(
    snap: Snapshot, key: string, sel: LabelSelector, own: string, j: nat, labels: NamespaceLabels, cmp: Compare, q: nat)
    requires j < |snap.nodes| && q < |snap.pods| && NearNode(snap, snap.pods[q], key, snap.nodes[j])
    ensures q in AffinePods(snap, SelectingTerm(key, sel), own, j, labels, cmp) <==>
      SelectorMatches(Some(sel), labels(snap.pods[q].ns), cmp)
  {
    assert SelectorMatches(Some(EVERYTHING), snap.pods[q].labels, cmp);
  }

  lemma SelectingTermRenamed(key: string, sel: LabelSelector, keyMap: StringMap)
    requires Injective(keyMap)
    ensures RenamedPodTerm(SelectingTerm(key, sel), keyMap) ==
      SelectingTerm(Renamed(keyMap, key), RenamedSelector(Some(sel), keyMap).value)
  {
    EverythingStays(keyMap);
  }

  /** If such a term finds the same pods, its selector has kept its verdict on their namespaces. */
  lemma KeptTermKeepsSelector(
    snap: Snapshot, keyMap: StringMap, q: nat, key: string, sel: LabelSelector, own: string, j: nat,
    labels: NamespaceLabels, cmp: Compare)
    requires Obfuscable(snap, keyMap) && q < |snap.pods| && j < |snap.nodes|
    requires key in SchedulingKeys(snap.pods) || key == ""
    requires NearNode(snap, snap.pods[q], key, snap.nodes[j])
    requires TermKept(snap, keyMap, SelectingTerm(key, sel), own, labels, cmp)
    ensures SelectorKept(Some(sel), labels(snap.pods[q].ns), keyMap, cmp)
  {
    var snap', sel' := Result(snap, keyMap), RenamedSelector(Some(sel), keyMap).value;
    PodIsRenamed(snap, keyMap, q);
    NearNodePreserved(snap, keyMap, q, key, j);
    SelectingTermRenamed(key, sel, keyMap);
    SelectingTermFinds(snap, key, sel, own, j, labels, cmp, q);
    SelectingTermFinds(snap', Renamed(keyMap, key), sel', own, j, labels, cmp, q);
  }

  lemma UnlikeNamespaceIsLost(
    snap: Snapshot, keyMap: StringMap, q: nat, key: string, k: string, own: string, labels: NamespaceLabels,
    cmp: Compare)
    requires Obfuscable(snap, keyMap) && q < |snap.pods| && Reachable(snap, q, key)
    requires !ReadsAlike(labels(snap.pods[q].ns), keyMap, k)
    ensures !TermKept(snap, keyMap, SelectingTerm(key, Telltale(labels(snap.pods[q].ns), k)), own, labels, cmp)
  {
    var sel := Telltale(labels(snap.pods[q].ns), k);
    var j: nat :| j < |snap.nodes| && NearNode(snap, snap.pods[q], key, snap.nodes[j]);
    UnlikeIsLost(labels(snap.pods[q].ns), keyMap, k, cmp);
    if TermKept(snap, keyMap, SelectingTerm(key, sel), own, labels, cmp) {
      KeptTermKeepsSelector(snap, keyMap, q, key, sel, own, j, labels, cmp);
    }
  }

  lemma SelectingTermKeys(key: string, labels: StringMap, k: string, keys: set<string>)
    requires (key in keys || key == "") && k in keys
    ensures OnePodTermKeys(SelectingTerm(key, Telltale(labels, k))) <= keys
  {
    TelltaleKeys(labels, k);
  }

  /** Some term over the scheduling keys can find the pod by this topology key. */
  ghost predicate Reachable(snap: Snapshot, q: nat, key: string)
    requires q < |snap.pods|
  {
    (key in SchedulingKeys(snap.pods) || key == "") && Findable(snap, q, key)
  }

  /** Whatever the pod-affinity terms over the scheduling keys are, they find the same pods for every
      node, if and only if the namespaces of the pods that such a term can find say the same of every
      scheduling key as of its new name. */
  lemma PodAffinityKeptIff(snap: Snapshot, keyMap: StringMap, own: string, labels: NamespaceLabels, cmp: Compare)
    requires Obfuscable(snap, keyMap)
    ensures (forall t: PodTerm :: OnePodTermKeys(t) <= SchedulingKeys(snap.pods) ==>
        TermKept(snap, keyMap, t, own, labels, cmp)) <==>
      (forall q: nat, key :: q < |snap.pods| && Reachable(snap, q, key) ==>
        AllReadAlike(labels(snap.pods[q].ns), keyMap, SchedulingKeys(snap.pods)))
  {
    var keys := SchedulingKeys(snap.pods);
    if forall q: nat, key :: q < |snap.pods| && Reachable(snap, q, key) ==>
      AllReadAlike(labels(snap.pods[q].ns), keyMap, keys)
    {
      forall t: PodTerm, j: nat | OnePodTermKeys(t) <= keys && j < |snap.nodes|
        ensures AffinePods(Result(snap, keyMap), RenamedPodTerm(t, keyMap), own, j, labels, cmp) ==
          AffinePods(snap, t, own, j, labels, cmp)
      {
        ReachableIsEnough(snap, keyMap, t, labels);
        TermFindsSamePods(snap, keyMap, t, own, j, labels, cmp);
      }
    } else {
      var q: nat, key, k :| q < |snap.pods| && Reachable(snap, q, key) && k in keys &&
        !ReadsAlike(labels(snap.pods[q].ns), keyMap, k);
      SelectingTermKeys(key, labels(snap.pods[q].ns), k, keys);
      UnlikeNamespaceIsLost(snap, keyMap, q, key, k, own, labels, cmp);
    }
  }

  lemma ReachableIsEnough(snap: Snapshot, keyMap: StringMap, t: PodTerm, labels: NamespaceLabels)
    requires OnePodTermKeys(t) <= SchedulingKeys(snap.pods)
    requires forall q: nat, key :: q < |snap.pods| && Reachable(snap, q, key) ==>
      AllReadAlike(labels(snap.pods[q].ns), keyMap, SchedulingKeys(snap.pods))
    ensures NamespacesAlike(snap, t, keyMap, labels)
  {
    assert t.topologyKey in OnePodTermKeys(t) || t.topologyKey == "";
    forall q: nat | q < |snap.pods| && Findable(snap, q, t.topologyKey)
      ensures AllReadAlike(labels(snap.pods[q].ns), keyMap, SelectorKeys(t.namespaceSelector))
    {
      assert Reachable(snap, q, t.topologyKey);
    }
  }
}
