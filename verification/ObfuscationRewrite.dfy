/** Rewriting a snapshot in place: names first, then every map and list that mentions a key. */
module ObfuscationRewrite {
  import opened ApiObjects
  import opened Decimal
  import opened ObfuscationSpec
  import opened ObfuscationTheorems
  import opened ObfuscationLoops
  import opened ObfuscationCollect
  import opened ObfuscationPreserves
  import opened ObfuscationVerdicts

  method ObfuscateRequirements(reqs: seq<Requirement>, keyMap: StringMap) returns (reqs': seq<Requirement>)
    ensures reqs' == RenamedRequirements(reqs, keyMap)
  {
    reqs' := reqs;
    for i := 0 to |reqs|
      invariant |reqs'| == |reqs|
      invariant forall j :: 0 <= j < |reqs| ==>
        reqs'[j] == if j < i then RenamedRequirement(reqs[j], keyMap) else reqs[j]
    {
      if reqs'[i].key in keyMap {
        reqs' := reqs'[i := reqs'[i].(key := keyMap[reqs'[i].key])];
      }
    }
  }

  method ObfuscateNodeTerms(terms: seq<NodeTerm>, keyMap: StringMap) returns (terms': seq<NodeTerm>)
    ensures terms' == RenamedNodeTerms(terms, keyMap)
  {
    terms' := terms;
    for i := 0 to |terms|
      invariant |terms'| == |terms|
      invariant forall j :: 0 <= j < |terms| ==>
        terms'[j] == if j < i then RenamedNodeTerms(terms, keyMap)[j] else terms[j]
    {
      var exprs := ObfuscateRequirements(terms'[i].matchExpressions, keyMap);
      var fields := ObfuscateRequirements(terms'[i].matchFields, keyMap);
      terms' := terms'[i := NodeTerm(exprs, fields)];
    }
  }

  method ObfuscateLabelSelector(sel: Option<LabelSelector>, keyMap: StringMap) returns (sel': Option<LabelSelector>)
    requires Apart(keyMap)
    ensures sel' == RenamedSelector(sel, keyMap)
  {
    if sel == None {
      return sel;
    }
    var labels := ObfuscateStringMap(sel.value.matchLabels, keyMap);
    var exprs := ObfuscateRequirements(sel.value.matchExpressions, keyMap);
    sel' := Some(LabelSelector(labels, exprs));
  }

  method ObfuscatePodTerms(terms: seq<PodTerm>, keyMap: StringMap) returns (terms': seq<PodTerm>)
    requires Apart(keyMap)
    ensures terms' == RenamedPodTerms(terms, keyMap)
  {
    terms' := terms;
    for i := 0 to |terms|
      invariant |terms'| == |terms|
      invariant forall j :: 0 <= j < |terms| ==>
        terms'[j] == if j < i then RenamedPodTerm(terms[j], keyMap) else terms[j]
    {
      var t := terms'[i];
      if t.topologyKey in keyMap {
        t := t.(topologyKey := keyMap[t.topologyKey]);
      }
      var sel := ObfuscateLabelSelector(t.selector, keyMap);
      var nsSel := ObfuscateLabelSelector(t.namespaceSelector, keyMap);
      terms' := terms'[i := t.(selector := sel, namespaceSelector := nsSel)];
    }
  }

  method ObfuscatePodAffinity(a: Option<PodAffinity>, keyMap: StringMap) returns (a': Option<PodAffinity>)
    requires Apart(keyMap)
    ensures a' == RenamedPodAffinity(a, keyMap)
  {
    if a == None {
      return a;
    }
    var required := ObfuscatePodTerms(a.value.required, keyMap);
    var preferred := ObfuscatePodTerms(a.value.preferred, keyMap);
    a' := Some(PodAffinity(required, preferred));
  }

  method ObfuscateNodeAffinity(a: Option<NodeAffinity>, keyMap: StringMap) returns (a': Option<NodeAffinity>)
    ensures a' == RenamedNodeAffinity(a, keyMap)
  {
    if a == None {
      return a;
    }
    var na := a.value;
    if na.required.Some? {
      var required := ObfuscateNodeTerms(na.required.value, keyMap);
      na := na.(required := Some(required));
    }
    var preferred := ObfuscateNodeTerms(na.preferred, keyMap);
    a' := Some(na.(preferred := preferred));
  }

  method ObfuscateAffinityRules(a: Option<Affinity>, keyMap: StringMap) returns (a': Option<Affinity>)
    requires Apart(keyMap)
    ensures a' == RenamedAffinity(a, keyMap)
  {
    if a == None {
      return a;
    }
    var node := ObfuscateNodeAffinity(a.value.node, keyMap);
    var pod := ObfuscatePodAffinity(a.value.pod, keyMap);
    var antiPod := ObfuscatePodAffinity(a.value.antiPod, keyMap);
    a' := Some(Affinity(node, pod, antiPod));
  }

  method ObfuscateKeys(keys: seq<string>, keyMap: StringMap) returns (keys': seq<string>)
    ensures keys' == RenamedKeys(keys, keyMap)
  {
    keys' := keys;
    for i := 0 to |keys|
      invariant |keys'| == |keys|
      invariant forall j :: 0 <= j < |keys| ==> keys'[j] == if j < i then Renamed(keyMap, keys[j]) else keys[j]
    {
      if keys'[i] in keyMap {
        keys' := keys'[i := keyMap[keys'[i]]];
      }
    }
  }

  method ObfuscateSpreads(spreads: seq<Spread>, keyMap: StringMap) returns (spreads': seq<Spread>)
    requires Apart(keyMap)
    ensures spreads' == RenamedSpreads(spreads, keyMap)
  {
    spreads' := spreads;
    for i := 0 to |spreads|
      invariant |spreads'| == |spreads|
      invariant forall j :: 0 <= j < |spreads| ==>
        spreads'[j] == if j < i then RenamedSpread(spreads[j], keyMap) else spreads[j]
    {
      var s := spreads'[i];
      if s.topologyKey in keyMap {
        s := s.(topologyKey := keyMap[s.topologyKey]);
      }
      var sel := ObfuscateLabelSelector(s.selector, keyMap);
      var keys := ObfuscateKeys(s.matchLabelKeys, keyMap);
      spreads' := spreads'[i := s.(selector := sel, matchLabelKeys := keys)];
    }
  }

  method ObfuscateTolerations(ts: seq<Toleration>, keyMap: StringMap) returns (ts': seq<Toleration>)
    ensures ts' == RenamedTolerations(ts, keyMap)
  {
    ts' := ts;
    for i := 0 to |ts|
      invariant |ts'| == |ts|
      invariant forall j :: 0 <= j < |ts| ==> ts'[j] == if j < i then RenamedToleration(ts[j], keyMap) else ts[j]
    {
      if ts'[i].key in keyMap {
        ts' := ts'[i := ts'[i].(key := keyMap[ts'[i].key])];
      }
    }
  }

  method ObfuscateTaints(ts: seq<Taint>, keyMap: StringMap) returns (ts': seq<Taint>)
    ensures ts' == RenamedTaints(ts, keyMap)
  {
    ts' := ts;
    for i := 0 to |ts|
      invariant |ts'| == |ts|
      invariant forall j :: 0 <= j < |ts| ==> ts'[j] == if j < i then RenamedTaint(ts[j], keyMap) else ts[j]
    {
      if ts'[i].key in keyMap {
        ts' := ts'[i := ts'[i].(key := keyMap[ts'[i].key])];
      }
    }
  }

  // ---------------------------------------------------------------------------
  // Names
  // ---------------------------------------------------------------------------

  method BuildNodeNameMap(nodes: seq<Node>) returns (names: StringMap)
    ensures names == NodeNames(nodes)
    ensures NodesNamed(nodes, names)
  {
    names := map[];
    for i := 0 to |nodes|
      invariant names == NodeNames(nodes[..i])
      invariant forall j :: 0 <= j < i ==> nodes[j].name in names
    {
      names := names[nodes[i].name := "node-" + Itoa(i)];
      assert nodes[..i + 1][..i] == nodes[..i];
    }
    assert nodes[..|nodes|] == nodes;
  }

  lemma OneMoreOwner(names: StringMap, owners: seq<Owner>, i: nat)
    requires i < |owners|
    ensures AddOwners(names, owners[..i + 1]) == AddOwners(AddOwners(names, owners[..i]), [owners[i]])
    decreases i
  {
    if i == 0 {
      assert owners[..1] == [owners[0]];
    } else {
      var next := if owners[0].name in names then names else names[owners[0].name := OwnerName(|names|)];
      assert owners[..i + 1][1..] == owners[1..][..i] && owners[..i][1..] == owners[1..][..i - 1];
      OneMoreOwner(next, owners[1..], i - 1);
    }
  }

  /** The counter is never reset, so it is always the number of names handed out. */
  method BuildOwnerNameMap(pods: seq<Pod>) returns (names: StringMap)
    ensures names == OwnerNames(pods)
  {
    names := map[];
    var id := 0;
    for i := 0 to |pods|
      invariant names == OwnerNames(pods[..i]) && id == |names|
    {
      var owners := pods[i].owners;
      ghost var before := names;
      for j := 0 to |owners|
        invariant names == AddOwners(before, owners[..j]) && id == |names|
      {
        OneMoreOwner(before, owners, j);
        if owners[j].name !in names {
          names := names[owners[j].name := "owner-" + Itoa(id)];
          id := id + 1;
        }
      }
      assert owners[..|owners|] == owners;
      assert pods[..i + 1][..i] == pods[..i];
    }
    assert pods[..|pods|] == pods;
  }

  method ObfuscateOwners(owners: seq<Owner>, names: StringMap) returns (owners': seq<Owner>)
    ensures owners' == RenamedOwners(owners, names)
  {
    owners' := owners;
    for i := 0 to |owners|
      invariant |owners'| == |owners|
      invariant forall j :: 0 <= j < |owners| ==>
        owners'[j] == if j < i then RenamedOwners(owners, names)[j] else owners[j]
    {
      if owners'[i].name in names {
        owners' := owners'[i := owners'[i].(name := names[owners'[i].name])];
      }
    }
  }

  // ---------------------------------------------------------------------------
  // The snapshot
  // ---------------------------------------------------------------------------

  lemma KeyMapIsApart(keyMap: StringMap, keys: set<string>)
    requires IsKeyMap(keyMap, keys)
    ensures Apart(keyMap)
  {
    NewKeysStay(keyMap, keys);
  }

  lemma AllRewritten(was: Snapshot, now: Snapshot, keyMap: StringMap)
    requires Injective(keyMap) && NodesNamed(was.nodes, NodeNames(was.nodes))
    requires |now.nodes| == |was.nodes| && |now.pods| == |was.pods|
    requires forall i :: 0 <= i < |now.nodes| ==>
      now.nodes[i] == ObfuscatedNode(was.nodes[i], NodeNames(was.nodes), keyMap)
    requires forall i :: 0 <= i < |now.pods| ==>
      now.pods[i] == ObfuscatedPod(was.pods[i], i, NodeNames(was.nodes), OwnerNames(was.pods), keyMap)
    ensures now == Obfuscated(was, keyMap)
  {
    var want := Obfuscated(was, keyMap);
    assert now.nodes == want.nodes;
    assert now.pods == want.pods;
  }

  class ClusterSnapshot {
    var nodes: seq<Node>
    var pods: seq<Pod>

    ghost function Value(): Snapshot
      reads this
    {
      Snapshot(nodes, pods)
    }

    constructor (nodes: seq<Node>, pods: seq<Pod>)
      ensures Value() == Snapshot(nodes, pods)
    {
      this.nodes, this.pods := nodes, pods;
    }

    method ObfuscateNodes(names: StringMap, keyMap: StringMap)
      requires Apart(keyMap) && NodesNamed(nodes, names)
      modifies this`nodes
      ensures |nodes| == |old(nodes)|
      ensures forall i :: 0 <= i < |nodes| ==> nodes[i] == ObfuscatedNode(old(nodes)[i], names, keyMap)
    {
      ghost var was := nodes;
      for i := 0 to |nodes|
        invariant |nodes| == |was|
        invariant forall j :: 0 <= j < i ==> nodes[j] == ObfuscatedNode(was[j], names, keyMap)
        invariant forall j :: i <= j < |was| ==> nodes[j] == was[j]
      {
        var n := nodes[i];
        assert n == was[i];
        var labels := ObfuscateStringMap(n.labels, keyMap);
        var taints := ObfuscateTaints(n.taints, keyMap);
        nodes := nodes[i := Node(names[n.name], labels, Sanitized(n.annotations), taints)];
      }
    }

    static method ObfuscatePod(p: Pod, i: nat, nodeNames: StringMap, ownerNames: StringMap, keyMap: StringMap)
      returns (p': Pod)
      requires Apart(keyMap)
      ensures p' == ObfuscationSpec.ObfuscatedPod(p, i, nodeNames, ownerNames, keyMap)
    {
      var suffix := if |p.owners| >= 1 && p.owners[0].kind == "DaemonSet" then "-ds" else "";
      var name := "pod-" + Itoa(i) + suffix;
      var nodeName := if p.nodeName in nodeNames then nodeNames[p.nodeName] else p.nodeName;
      var owners := ObfuscateOwners(p.owners, ownerNames);
      var labels := ObfuscateStringMap(p.labels, keyMap);
      var nodeSelector := ObfuscateStringMap(p.nodeSelector, keyMap);
      var affinity := ObfuscateAffinityRules(p.affinity, keyMap);
      var spreads := ObfuscateSpreads(p.spreads, keyMap);
      var tolerations := ObfuscateTolerations(p.tolerations, keyMap);
      p' := Pod(name, p.ns, nodeName, labels, Sanitized(p.annotations), owners,
                nodeSelector, affinity, spreads, tolerations);
    }

    method ObfuscatePods(nodeNames: StringMap, ownerNames: StringMap, keyMap: StringMap)
      requires Apart(keyMap)
      modifies this`pods
      ensures |pods| == |old(pods)|
      ensures forall i :: 0 <= i < |pods| ==> pods[i] == ObfuscatedPod(old(pods)[i], i, nodeNames, ownerNames, keyMap)
    {
      ghost var was := pods;
      for i := 0 to |pods|
        invariant |pods| == |was|
        invariant forall j :: 0 <= j < i ==> pods[j] == ObfuscatedPod(was[j], j, nodeNames, ownerNames, keyMap)
        invariant forall j :: i <= j < |was| ==> pods[j] == was[j]
      {
        assert pods[i] == was[i];
        var p := ObfuscatePod(pods[i], i, nodeNames, ownerNames, keyMap);
        pods := pods[i := p];
      }
    }

    static method CollectKeyMap(pods: seq<Pod>) returns (keyMap: StringMap)
      ensures IsKeyMap(keyMap, SchedulingKeys(pods)) && Apart(keyMap) && Numbered(keyMap, |keyMap|)
    {
      var keys := CollectSchedulingRelevantKeys(pods);
      keyMap := BuildSchedulingKeyMap(keys);
      KeyMapIsApart(keyMap, keys);
    }

    method RewriteAll() returns (ghost keyMap: StringMap)
      modifies this
      ensures IsKeyMap(keyMap, SchedulingKeys(old(pods))) && Injective(keyMap) && Numbered(keyMap, |keyMap|)
      ensures NodesNamed(old(nodes), NodeNames(old(nodes)))
      ensures Value() == Obfuscated(old(Value()), keyMap)
    {
      ghost var was := Value();
      var renames := CollectKeyMap(pods);
      keyMap := renames;
      var nodeNames := BuildNodeNameMap(nodes);
      var ownerNames := BuildOwnerNameMap(pods);
      ObfuscateNodes(nodeNames, renames);
      ObfuscatePods(nodeNames, ownerNames, renames);
      AllRewritten(was, Value(), renames);
    }

    /** The snapshot becomes the obfuscated one, for some numbering of the removable keys that
        its constraints mention; a tidy one keeps all its verdicts (`TidyKeepsVerdicts`). */
    method ObfuscateMetadata() returns (ghost keyMap: StringMap)
      modifies this
      ensures IsKeyMap(keyMap, SchedulingKeys(old(pods))) && Injective(keyMap) && Numbered(keyMap, |keyMap|)
      ensures NodesNamed(old(nodes), NodeNames(old(nodes)))
      ensures Value() == Obfuscated(old(Value()), keyMap)
      ensures Tidy(old(Value())) ==> Obfuscable(old(Value()), keyMap)
    {
      ghost var was := Value();
      keyMap := RewriteAll();
      if Tidy(was) {
        TidyIsObfuscable(was, keyMap);
      }
    }
  }
}
