/** All verdicts together: what a caller can check of a snapshot before obfuscating it, and what
    then stays as it was. */
module ObfuscationVerdicts {
  import opened ObfuscationSpec
  import opened SchedulingSemantics
  import opened ObfuscationTheorems
  import opened ObfuscationPreserves

  /** Node names are distinct, a pod names a node of the snapshot or none, and no key starts like a
      new one. */
  ghost predicate Tidy(snap: Snapshot) {
    && DistinctNames(snap.nodes) && Unprefixed(snap)
    && forall p: nat :: p < |snap.pods| && snap.pods[p].nodeName != "" ==>
      exists j: nat :: j < |snap.nodes| && snap.pods[p].nodeName == snap.nodes[j].name
  }

  /** A pod on a node, or on none, with whatever labels, taints and constraints, as long as no key starts
      like a new one. */
  lemma OneNodeIsTidy(node: Node, pod: Pod)
    requires pod.nodeName == "" || pod.nodeName == node.name
    requires NoneStartsWith(node.labels.Keys + pod.labels.Keys + PodKeys(pod), KEY_PREFIX)
    requires forall t: nat :: t < |node.taints| ==> NoneStartsWith({node.taints[t].key}, KEY_PREFIX)
    ensures Tidy(Snapshot([node], [pod]))
  {
    var snap := Snapshot([node], [pod]);
    forall k | k in SchedulingKeys(snap.pods) ensures k in PodKeys(pod) {
    }
    assert snap.nodes[0] == node && snap.pods[0] == pod;
  }

  lemma TidyIsObfuscable(snap: Snapshot, keyMap: StringMap)
    requires IsKeyMap(keyMap, SchedulingKeys(snap.pods)) && Tidy(snap)
    ensures NodesNamed(snap.nodes, NodeNames(snap.nodes))
    ensures Obfuscable(snap, keyMap) && Result(snap, keyMap) == Obfuscated(snap, keyMap)
  {
    NodesAreNamed(snap);
    UnprefixedHasKeysUnused(snap, keyMap);
    forall p: nat | p < |snap.pods| ensures Locatable(snap.nodes, snap.pods[p].nodeName) {
      assert snap.pods[p].nodeName == "" ==> forall j: nat :: |NodeName(j)| > 0;
    }
  }

  /** Selectors, taints, spreads. */
  ghost predicate SelectsSame(snap: Snapshot, snap': Snapshot, p: nat, n: nat)
    requires p < |snap.pods| == |snap'.pods| && n < |snap.nodes| == |snap'.nodes|
  {
    MapMatches(snap'.pods[p].nodeSelector, snap'.nodes[n].labels) <==>
    MapMatches(snap.pods[p].nodeSelector, snap.nodes[n].labels)
  }

  ghost predicate ToleratesSame(snap: Snapshot, snap': Snapshot, p: nat, n: nat)
    requires p < |snap.pods| == |snap'.pods| && n < |snap.nodes| == |snap'.nodes|
  {
    && |snap'.pods[p].tolerations| == |snap.pods[p].tolerations| && |snap'.nodes[n].taints| == |snap.nodes[n].taints|
    && forall t: nat, x: nat :: t < |snap.pods[p].tolerations| && x < |snap.nodes[n].taints| ==>
      (Tolerates(snap'.pods[p].tolerations[t], snap'.nodes[n].taints[x]) <==>
       Tolerates(snap.pods[p].tolerations[t], snap.nodes[n].taints[x]))
  }

  ghost predicate SpreadsSame(snap: Snapshot, snap': Snapshot, p: nat, cmp: Compare)
    requires p < |snap.pods| == |snap'.pods|
  {
    && |snap'.pods[p].spreads| == |snap.pods[p].spreads|
    && forall i: nat, value :: i < |snap.pods[p].spreads| ==>
      SpreadPods(snap', snap'.pods[p], snap'.pods[p].spreads[i], value, cmp) ==
      SpreadPods(snap, snap.pods[p], snap.pods[p].spreads[i], value, cmp)
  }

  /** Node affinity, where the match fields take the same nodes by old and by new names. */
  ghost predicate AdmitsSame(snap: Snapshot, snap': Snapshot, p: nat, cmp: Compare)
    requires p < |snap.pods| == |snap'.pods| && |snap.nodes| == |snap'.nodes|
  {
    TakeSame(snap.nodes, NodeTerms(snap.pods[p], false)) ==>
      forall n: nat :: n < |snap.nodes| ==>
        (RequiredNodeAffinity(snap'.pods[p].affinity, snap'.nodes[n], cmp) <==>
         RequiredNodeAffinity(snap.pods[p].affinity, snap.nodes[n], cmp))
  }

  /** Pod affinity, where the namespaces say the same of old and new keys. */
  ghost predicate FindsSame(
    snap: Snapshot, snap': Snapshot, keyMap: StringMap, p: nat, anti: bool, preferred: bool, labels: NamespaceLabels,
    cmp: Compare)
    requires p < |snap.pods| == |snap'.pods| && |snap.nodes| == |snap'.nodes|
  {
    var terms, terms' := PodTerms(snap.pods[p], anti, preferred), PodTerms(snap'.pods[p], anti, preferred);
    && |terms'| == |terms|
    && forall i: nat, j: nat ::
      i < |terms| && j < |snap.nodes| && NamespacesAlike(snap, terms[i], keyMap, labels) ==>
        AffinePods(snap', terms'[i], snap'.pods[p].ns, j, labels, cmp) ==
        AffinePods(snap, terms[i], snap.pods[p].ns, j, labels, cmp)
  }

  ghost predicate SameVerdicts(
    snap: Snapshot, snap': Snapshot, keyMap: StringMap, labels: NamespaceLabels, cmp: Compare)
  {
    && |snap'.nodes| == |snap.nodes| && |snap'.pods| == |snap.pods|
    && (forall p: nat, n: nat :: p < |snap.pods| && n < |snap.nodes| ==> SelectsSame(snap, snap', p, n))
    && (forall p: nat, n: nat :: p < |snap.pods| && n < |snap.nodes| ==> ToleratesSame(snap, snap', p, n))
    && (forall p: nat :: p < |snap.pods| ==> SpreadsSame(snap, snap', p, cmp) && AdmitsSame(snap, snap', p, cmp))
    && (forall p: nat, anti, preferred :: p < |snap.pods| ==>
        FindsSame(snap, snap', keyMap, p, anti, preferred, labels, cmp))
  }

  lemma SelectorVerdicts(snap: Snapshot, keyMap: StringMap, p: nat, n: nat)
    requires Obfuscable(snap, keyMap) && p < |snap.pods| && n < |snap.nodes|
    ensures SelectsSame(snap, Result(snap, keyMap), p, n)
  {
    NodeSelectorPreserved(snap, keyMap, p, n);
  }

  lemma ToleranceLengths(snap: Snapshot, keyMap: StringMap, p: nat, n: nat)
    requires Obfuscable(snap, keyMap) && p < |snap.pods| && n < |snap.nodes|
    ensures |Result(snap, keyMap).pods[p].tolerations| == |snap.pods[p].tolerations|
    ensures |Result(snap, keyMap).nodes[n].taints| == |snap.nodes[n].taints|
  {
  }

  lemma ToleranceVerdicts(snap: Snapshot, keyMap: StringMap, p: nat, n: nat)
    requires Obfuscable(snap, keyMap) && p < |snap.pods| && n < |snap.nodes|
    ensures ToleratesSame(snap, Result(snap, keyMap), p, n)
  {
    var snap' := Result(snap, keyMap);
    ToleranceLengths(snap, keyMap, p, n);
    forall t: nat, x: nat | t < |snap.pods[p].tolerations| && x < |snap.nodes[n].taints|
      ensures Tolerates(snap'.pods[p].tolerations[t], snap'.nodes[n].taints[x]) <==>
        Tolerates(snap.pods[p].tolerations[t], snap.nodes[n].taints[x])
    {
      TolerancePreserved(snap, keyMap, p, t, n, x);
    }
  }

  lemma SpreadVerdicts(snap: Snapshot, keyMap: StringMap, p: nat, cmp: Compare)
    requires Obfuscable(snap, keyMap) && p < |snap.pods|
    ensures SpreadsSame(snap, Result(snap, keyMap), p, cmp)
  {
    PodIsRenamed(snap, keyMap, p);
    forall i: nat, value | i < |snap.pods[p].spreads|
      ensures var snap' := Result(snap, keyMap);
        SpreadPods(snap', snap'.pods[p], snap'.pods[p].spreads[i], value, cmp) ==
        SpreadPods(snap, snap.pods[p], snap.pods[p].spreads[i], value, cmp)
    {
      SpreadPreserved(snap, keyMap, p, i, value, cmp);
    }
  }

  lemma AffinityVerdicts(
    snap: Snapshot, keyMap: StringMap, p: nat, anti: bool, preferred: bool, labels: NamespaceLabels, cmp: Compare)
    requires Obfuscable(snap, keyMap) && p < |snap.pods|
    ensures FindsSame(snap, Result(snap, keyMap), keyMap, p, anti, preferred, labels, cmp)
  {
    var terms := PodTerms(snap.pods[p], anti, preferred);
    AffinityIsRenamed(snap, keyMap, p);
    PodTermsRenamed(snap.pods[p], Result(snap, keyMap).pods[p], keyMap, anti, preferred);
    forall i: nat, j: nat | i < |terms| && j < |snap.nodes| && NamespacesAlike(snap, terms[i], keyMap, labels)
      ensures var snap' := Result(snap, keyMap);
        AffinePods(snap', PodTerms(snap'.pods[p], anti, preferred)[i], snap'.pods[p].ns, j, labels, cmp) ==
        AffinePods(snap, terms[i], snap.pods[p].ns, j, labels, cmp)
    {
      PodAffinityPreserved(snap, keyMap, p, anti, preferred, i, j, labels, cmp);
    }
  }

  /** Main theorem: whatever numbers the removable keys of a tidy snapshot get, every verdict on the
      obfuscated snapshot is the one on the snapshot itself. */
  lemma TidyKeepsVerdicts(snap: Snapshot, keyMap: StringMap, labels: NamespaceLabels, cmp: Compare)
    requires IsKeyMap(keyMap, SchedulingKeys(snap.pods)) && Tidy(snap)
    ensures NodesNamed(snap.nodes, NodeNames(snap.nodes))
    ensures Obfuscable(snap, keyMap) && SameVerdicts(snap, Obfuscated(snap, keyMap), keyMap, labels, cmp)
  {
    TidyIsObfuscable(snap, keyMap);
    var snap' := Result(snap, keyMap);
    forall p: nat, n: nat | p < |snap.pods| && n < |snap.nodes|
      ensures SelectsSame(snap, snap', p, n) && ToleratesSame(snap, snap', p, n)
    {
      SelectorVerdicts(snap, keyMap, p, n);
      ToleranceVerdicts(snap, keyMap, p, n);
    }
    forall p: nat | p < |snap.pods| ensures SpreadsSame(snap, snap', p, cmp) && AdmitsSame(snap, snap', p, cmp) {
      SpreadVerdicts(snap, keyMap, p, cmp);
      if TakeSame(snap.nodes, NodeTerms(snap.pods[p], false)) {
        RequiredNodeAffinityPreservedOnAll(snap, keyMap, p, cmp);
      }
    }
    forall p: nat, anti, preferred | p < |snap.pods|
      ensures FindsSame(snap, snap', keyMap, p, anti, preferred, labels, cmp)
    {
      AffinityVerdicts(snap, keyMap, p, anti, preferred, labels, cmp);
    }
  }
}
