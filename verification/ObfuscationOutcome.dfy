/** What is left in a snapshot after it was obfuscated: which annotations, which labels, which keys
    in the constraints, which names. */
module ObfuscationOutcome {
  import opened ApiObjects
  import opened Decimal
  import opened ObfuscationSpec
  import opened ObfuscationTheorems
  import opened ObfuscationPreserves

  // ---------------------------------------------------------------------------
  // Annotations and labels
  // ---------------------------------------------------------------------------

  ghost predicate Renames(snap: Snapshot, keyMap: StringMap) {
    IsKeyMap(keyMap, SchedulingKeys(snap.pods)) && NodesNamed(snap.nodes, NodeNames(snap.nodes))
  }

  /** The key starts with one of the prefixes to remove. */
  predicate StartsLikeRemoved(k: string) {
    exists i :: 0 <= i < |REMOVE_PREFIXES| &&
      |REMOVE_PREFIXES[i]| <= |k| && k[..|REMOVE_PREFIXES[i]|] == REMOVE_PREFIXES[i]
  }

  lemma RemovableIff(k: string)
    ensures Removable(k) <==> StartsLikeRemoved(k)
  {
    if i :| 0 <= i < |REMOVE_PREFIXES| && REMOVE_PREFIXES[i] <= k {
      assert k[..|REMOVE_PREFIXES[i]|] == REMOVE_PREFIXES[i];
    }
  }

  /** `m'` is `m` without the keys that start with a prefix to remove. */
  ghost predicate WithoutRemoved(m: StringMap, m': StringMap) {
    forall k :: (k in m' <==> k in m && !StartsLikeRemoved(k)) && (k in m' ==> m'[k] == m[k])
  }

  lemma MapWithoutRemoved(m: StringMap)
    ensures WithoutRemoved(m, Sanitized(m))
  {
    forall k ensures Removable(k) <==> StartsLikeRemoved(k) {
      RemovableIff(k);
    }
  }

  /** From the annotations of every node and every pod exactly the keys with such a prefix go,
      whether a constraint mentions them or not; the other annotations keep their values. */
  lemma NodeAnnotationsAfterwards(snap: Snapshot, keyMap: StringMap, n: nat)
    requires Renames(snap, keyMap) && n < |snap.nodes|
    ensures WithoutRemoved(snap.nodes[n].annotations, Obfuscated(snap, keyMap).nodes[n].annotations)
  {
    MapWithoutRemoved(snap.nodes[n].annotations);
  }

  lemma PodAnnotationsAfterwards(snap: Snapshot, keyMap: StringMap, p: nat)
    requires Renames(snap, keyMap) && p < |snap.pods|
    ensures WithoutRemoved(snap.pods[p].annotations, Obfuscated(snap, keyMap).pods[p].annotations)
  {
    MapWithoutRemoved(snap.pods[p].annotations);
  }

  /** A key with such a prefix that some pod's constraints mention has a new name in `m'`; one that
      none mentions is gone; every other key stays, with its value unless it is a new name itself. */
  ghost predicate RenamedOrGone(m: StringMap, m': StringMap, keys: set<string>, keyMap: StringMap, k: string) {
    && (k in m && StartsLikeRemoved(k) && k in keys ==>
          && k in keyMap && keyMap[k] in m' && m'[keyMap[k]] == m[k]
          && exists id: nat :: keyMap[k] == "sched-key-" + Itoa(id))
    && (k in m' ==> !StartsLikeRemoved(k) && (k in m || exists j :: j in m && j in keyMap && keyMap[j] == k))
    && (k in m && !StartsLikeRemoved(k) ==> k in m' && ((forall j :: j in keyMap ==> keyMap[j] != k) ==> m'[k] == m[k]))
  }

  lemma MapRenamedOrGone(m: StringMap, keys: set<string>, keyMap: StringMap, k: string)
    requires IsKeyMap(keyMap, keys)
    ensures RenamedOrGone(m, RenamedMap(m, keyMap), keys, keyMap, k)
  {
    NewKeysStay(keyMap, keys);
    RemovableIff(k);
    RenamedMapAt(m, keyMap, k);
    if k in keyMap {
      RenamedMapAt(m, keyMap, keyMap[k]);
    }
  }

  lemma LabelsRenamed(snap: Snapshot, keyMap: StringMap)
    requires Renames(snap, keyMap)
    ensures var snap' := Obfuscated(snap, keyMap);
      (forall n :: 0 <= n < |snap.nodes| ==> snap'.nodes[n].labels == RenamedMap(snap.nodes[n].labels, keyMap)) &&
      (forall p :: 0 <= p < |snap.pods| ==> snap'.pods[p].labels == RenamedMap(snap.pods[p].labels, keyMap))
  {
  }

  lemma NodeLabelsAfterwards(snap: Snapshot, keyMap: StringMap, n: nat, k: string)
    requires Renames(snap, keyMap) && n < |snap.nodes|
    ensures RenamedOrGone(
      snap.nodes[n].labels, Obfuscated(snap, keyMap).nodes[n].labels, SchedulingKeys(snap.pods), keyMap, k)
  {
    LabelsRenamed(snap, keyMap);
    MapRenamedOrGone(snap.nodes[n].labels, SchedulingKeys(snap.pods), keyMap, k);
  }

  lemma PodLabelsAfterwards(snap: Snapshot, keyMap: StringMap, p: nat, k: string)
    requires Renames(snap, keyMap) && p < |snap.pods|
    ensures RenamedOrGone(
      snap.pods[p].labels, Obfuscated(snap, keyMap).pods[p].labels, SchedulingKeys(snap.pods), keyMap, k)
  {
    LabelsRenamed(snap, keyMap);
    MapRenamedOrGone(snap.pods[p].labels, SchedulingKeys(snap.pods), keyMap, k);
  }

  // ---------------------------------------------------------------------------
  // The keys that a pod's constraints mention
  // ---------------------------------------------------------------------------

  ghost predicate RequirementsMention(reqs: seq<Requirement>, k: string) {
    exists i :: 0 <= i < |reqs| && reqs[i].key == k
  }

  ghost predicate SelectorMentions(sel: Option<LabelSelector>, k: string) {
    sel.Some? && (k in sel.value.matchLabels || RequirementsMention(sel.value.matchExpressions, k))
  }

  ghost predicate NodeTermMentions(t: NodeTerm, k: string) {
    RequirementsMention(t.matchExpressions, k) || RequirementsMention(t.matchFields, k)
  }

  ghost predicate PodTermMentions(t: PodTerm, k: string) {
    (t.topologyKey == k && k != "") || SelectorMentions(t.selector, k) || SelectorMentions(t.namespaceSelector, k)
  }

  ghost predicate SpreadMentions(s: Spread, k: string) {
    (s.topologyKey == k && k != "") || SelectorMentions(s.selector, k) ||
    exists i :: 0 <= i < |s.matchLabelKeys| && s.matchLabelKeys[i] == k
  }

  ghost predicate NodeAffinityMentions(p: Pod, k: string) {
    exists preferred, i :: 0 <= i < |NodeTerms(p, preferred)| && NodeTermMentions(NodeTerms(p, preferred)[i], k)
  }

  ghost predicate PodAffinityMentions(p: Pod, k: string) {
    exists anti, preferred, i ::
      0 <= i < |PodTerms(p, anti, preferred)| && PodTermMentions(PodTerms(p, anti, preferred)[i], k)
  }

  lemma RequirementKeysIff(reqs: seq<Requirement>, k: string)
    ensures k in RequirementKeys(reqs) <==> RequirementsMention(reqs, k)
  {
    if k in RequirementKeys(reqs) {
      var r :| r in reqs && r.key == k;
    }
  }

  lemma SelectorKeysIff(sel: Option<LabelSelector>, k: string)
    ensures k in SelectorKeys(sel) <==> SelectorMentions(sel, k)
  {
    if sel.Some? {
      RequirementKeysIff(sel.value.matchExpressions, k);
    }
  }

  lemma NodeTermKeysIff(terms: seq<NodeTerm>, k: string)
    ensures k in NodeTermKeys(terms) <==> exists i :: 0 <= i < |terms| && NodeTermMentions(terms[i], k)
  {
    forall t: NodeTerm ensures k in OneNodeTermKeys(t) <==> NodeTermMentions(t, k) {
      RequirementKeysIff(t.matchExpressions, k);
      RequirementKeysIff(t.matchFields, k);
    }
  }

  lemma PodTermKeysIff(terms: seq<PodTerm>, k: string)
    ensures k in PodTermKeys(terms) <==> exists i :: 0 <= i < |terms| && PodTermMentions(terms[i], k)
  {
    forall t: PodTerm ensures k in OnePodTermKeys(t) <==> PodTermMentions(t, k) {
      SelectorKeysIff(t.selector, k);
      SelectorKeysIff(t.namespaceSelector, k);
    }
  }

  lemma SpreadKeysIff(spreads: seq<Spread>, k: string)
    ensures k in SpreadKeys(spreads) <==> exists i :: 0 <= i < |spreads| && SpreadMentions(spreads[i], k)
  {
    forall s: Spread ensures k in OneSpreadKeys(s) <==> SpreadMentions(s, k) {
      SelectorKeysIff(s.selector, k);
    }
  }

  lemma NodeAffinityKeysIff(p: Pod, k: string)
    ensures p.affinity.Some? && k in NodeAffinityKeys(p.affinity.value.node) <==> NodeAffinityMentions(p, k)
  {
    NodeTermKeysIff(NodeTerms(p, false), k);
    NodeTermKeysIff(NodeTerms(p, true), k);
  }

  lemma PodAffinityKeysIff(p: Pod, k: string)
    ensures PodAffinityMentions(p, k) <==> (p.affinity.Some? &&
      (k in PodAffinityKeys(p.affinity.value.pod) || k in PodAffinityKeys(p.affinity.value.antiPod)))
  {
    PodTermKeysIff(PodTerms(p, false, false), k);
    PodTermKeysIff(PodTerms(p, false, true), k);
    PodTermKeysIff(PodTerms(p, true, false), k);
    PodTermKeysIff(PodTerms(p, true, true), k);
  }

  /** The keys collected from a pod are exactly those that its node selector, a toleration, a term of
      its node affinity, pod affinity or pod anti-affinity, or a spread constraint mentions; an empty
      toleration or topology key is none. */
  lemma CollectedIff(p: Pod, k: string)
    ensures k in PodKeys(p) <==>
      k in p.nodeSelector ||
      (k != "" && exists i :: 0 <= i < |p.tolerations| && p.tolerations[i].key == k) ||
      NodeAffinityMentions(p, k) || PodAffinityMentions(p, k) ||
      (exists i :: 0 <= i < |p.spreads| && SpreadMentions(p.spreads[i], k))
  {
    if k in TolerationKeys(p.tolerations) {
      var t :| t in p.tolerations && t.key == k && k != "";
    }
    NodeAffinityKeysIff(p, k);
    PodAffinityKeysIff(p, k);
    SpreadKeysIff(p.spreads, k);
  }

  // ---------------------------------------------------------------------------
  // Constraints afterwards mention exactly the new names of those keys
  // ---------------------------------------------------------------------------

  ghost function NewNames(keys: set<string>, keyMap: StringMap): set<string> {
    set k | k in keys :: Renamed(keyMap, k)
  }

  lemma NewNamesOfThree(a: set<string>, b: set<string>, c: set<string>, keyMap: StringMap)
    ensures NewNames(a + b + c, keyMap) == NewNames(a, keyMap) + NewNames(b, keyMap) + NewNames(c, keyMap)
  {
  }

  lemma NewNamesOfFour(a: set<string>, b: set<string>, c: set<string>, d: set<string>, keyMap: StringMap)
    ensures NewNames(a + b + c + d, keyMap) ==
      NewNames(a, keyMap) + NewNames(b, keyMap) + NewNames(c, keyMap) + NewNames(d, keyMap)
  {
  }

  lemma RequirementKeysRenamed(reqs: seq<Requirement>, keyMap: StringMap)
    ensures RequirementKeys(RenamedRequirements(reqs, keyMap)) == NewNames(RequirementKeys(reqs), keyMap)
  {
    var reqs' := RenamedRequirements(reqs, keyMap);
    forall k | k in NewNames(RequirementKeys(reqs), keyMap) ensures k in RequirementKeys(reqs') {
      var r :| r in reqs && Renamed(keyMap, r.key) == k;
      var i :| 0 <= i < |reqs| && reqs[i] == r;
      assert reqs'[i] in reqs';
    }
  }

  lemma MapKeysRenamed(m: StringMap, keyMap: StringMap, keys: set<string>)
    requires IsKeyMap(keyMap, keys) && m.Keys <= keys
    ensures RenamedMap(m, keyMap).Keys == NewNames(m.Keys, keyMap)
  {
  }

  lemma SelectorKeysRenamed(sel: Option<LabelSelector>, keyMap: StringMap, keys: set<string>)
    requires IsKeyMap(keyMap, keys) && SelectorKeys(sel) <= keys
    ensures SelectorKeys(RenamedSelector(sel, keyMap)) == NewNames(SelectorKeys(sel), keyMap)
  {
    if sel.Some? {
      MapKeysRenamed(sel.value.matchLabels, keyMap, keys);
      RequirementKeysRenamed(sel.value.matchExpressions, keyMap);
    }
  }

  lemma NodeTermKeysRenamed(terms: seq<NodeTerm>, keyMap: StringMap)
    ensures NodeTermKeys(RenamedNodeTerms(terms, keyMap)) == NewNames(NodeTermKeys(terms), keyMap)
  {
    var terms' := RenamedNodeTerms(terms, keyMap);
    forall i | 0 <= i < |terms|
      ensures OneNodeTermKeys(terms'[i]) == NewNames(OneNodeTermKeys(terms[i]), keyMap)
    {
      RequirementKeysRenamed(terms[i].matchExpressions, keyMap);
      RequirementKeysRenamed(terms[i].matchFields, keyMap);
    }
    forall k | k in NewNames(NodeTermKeys(terms), keyMap) ensures k in NodeTermKeys(terms') {
      var t, j :| t in terms && j in OneNodeTermKeys(t) && Renamed(keyMap, j) == k;
      var i :| 0 <= i < |terms| && terms[i] == t;
      assert terms'[i] in terms' && k in OneNodeTermKeys(terms'[i]);
    }
    forall k | k in NodeTermKeys(terms') ensures k in NewNames(NodeTermKeys(terms), keyMap) {
      var t' :| t' in terms' && k in OneNodeTermKeys(t');
      var i :| 0 <= i < |terms'| && terms'[i] == t';
      var j :| j in OneNodeTermKeys(terms[i]) && Renamed(keyMap, j) == k;
      assert terms[i] in terms;
    }
  }

  lemma NonEmptyRenamed(key: string, keyMap: StringMap, keys: set<string>)
    requires IsKeyMap(keyMap, keys)
    ensures NonEmpty(Renamed(keyMap, key)) == NewNames(NonEmpty(key), keyMap)
  {
    NewKeysStay(keyMap, keys);
    EmptyStays();
  }

  lemma OnePodTermRenamed(t: PodTerm, keyMap: StringMap, keys: set<string>)
    requires IsKeyMap(keyMap, keys) && OnePodTermKeys(t) <= keys
    ensures OnePodTermKeys(RenamedPodTerm(t, keyMap)) == NewNames(OnePodTermKeys(t), keyMap)
  {
    NonEmptyRenamed(t.topologyKey, keyMap, keys);
    SelectorKeysRenamed(t.selector, keyMap, keys);
    SelectorKeysRenamed(t.namespaceSelector, keyMap, keys);
    NewNamesOfThree(NonEmpty(t.topologyKey), SelectorKeys(t.selector), SelectorKeys(t.namespaceSelector), keyMap);
  }

  lemma PodTermKeysRenamed(terms: seq<PodTerm>, keyMap: StringMap, keys: set<string>)
    requires IsKeyMap(keyMap, keys) && PodTermKeys(terms) <= keys
    ensures PodTermKeys(RenamedPodTerms(terms, keyMap)) == NewNames(PodTermKeys(terms), keyMap)
  {
    var terms' := RenamedPodTerms(terms, keyMap);
    forall i | 0 <= i < |terms|
      ensures OnePodTermKeys(terms'[i]) == NewNames(OnePodTermKeys(terms[i]), keyMap)
    {
      assert terms[i] in terms;
      assert forall k :: k in OnePodTermKeys(terms[i]) ==> k in PodTermKeys(terms);
      OnePodTermRenamed(terms[i], keyMap, keys);
    }
    forall k | k in NewNames(PodTermKeys(terms), keyMap) ensures k in PodTermKeys(terms') {
      var t, j :| t in terms && j in OnePodTermKeys(t) && Renamed(keyMap, j) == k;
      var i :| 0 <= i < |terms| && terms[i] == t;
      assert terms'[i] in terms' && k in OnePodTermKeys(terms'[i]);
    }
    forall k | k in PodTermKeys(terms') ensures k in NewNames(PodTermKeys(terms), keyMap) {
      var t' :| t' in terms' && k in OnePodTermKeys(t');
      var i :| 0 <= i < |terms'| && terms'[i] == t';
      var j :| j in OnePodTermKeys(terms[i]) && Renamed(keyMap, j) == k;
      assert terms[i] in terms;
    }
  }

  lemma KeyListRenamed(ks: seq<string>, keyMap: StringMap)
    ensures (set k | k in RenamedKeys(ks, keyMap)) == NewNames((set k | k in ks), keyMap)
  {
    var ks' := RenamedKeys(ks, keyMap);
    forall k | k in ks ensures Renamed(keyMap, k) in ks' {
      var i :| 0 <= i < |ks| && ks[i] == k;
      assert ks'[i] == Renamed(keyMap, k);
    }
  }

  lemma OneSpreadRenamed(s: Spread, keyMap: StringMap, keys: set<string>)
    requires IsKeyMap(keyMap, keys) && OneSpreadKeys(s) <= keys
    ensures OneSpreadKeys(RenamedSpread(s, keyMap)) == NewNames(OneSpreadKeys(s), keyMap)
  {
    NonEmptyRenamed(s.topologyKey, keyMap, keys);
    SelectorKeysRenamed(s.selector, keyMap, keys);
    KeyListRenamed(s.matchLabelKeys, keyMap);
    NewNamesOfThree(NonEmpty(s.topologyKey), SelectorKeys(s.selector), (set x | x in s.matchLabelKeys), keyMap);
  }

  lemma SpreadKeysRenamed(spreads: seq<Spread>, keyMap: StringMap, keys: set<string>)
    requires IsKeyMap(keyMap, keys) && SpreadKeys(spreads) <= keys
    ensures SpreadKeys(RenamedSpreads(spreads, keyMap)) == NewNames(SpreadKeys(spreads), keyMap)
  {
    var spreads' := RenamedSpreads(spreads, keyMap);
    forall i | 0 <= i < |spreads|
      ensures OneSpreadKeys(spreads'[i]) == NewNames(OneSpreadKeys(spreads[i]), keyMap)
    {
      assert spreads[i] in spreads;
      assert forall k :: k in OneSpreadKeys(spreads[i]) ==> k in SpreadKeys(spreads);
      OneSpreadRenamed(spreads[i], keyMap, keys);
    }
    forall k | k in NewNames(SpreadKeys(spreads), keyMap) ensures k in SpreadKeys(spreads') {
      var s, j :| s in spreads && j in OneSpreadKeys(s) && Renamed(keyMap, j) == k;
      var i :| 0 <= i < |spreads| && spreads[i] == s;
      assert spreads'[i] in spreads' && k in OneSpreadKeys(spreads'[i]);
    }
    forall k | k in SpreadKeys(spreads') ensures k in NewNames(SpreadKeys(spreads), keyMap) {
      var s' :| s' in spreads' && k in OneSpreadKeys(s');
      var i :| 0 <= i < |spreads'| && spreads'[i] == s';
      var j :| j in OneSpreadKeys(spreads[i]) && Renamed(keyMap, j) == k;
      assert spreads[i] in spreads;
    }
  }

  lemma TolerationKeysRenamed(ts: seq<Toleration>, keyMap: StringMap, keys: set<string>)
    requires IsKeyMap(keyMap, keys)
    ensures TolerationKeys(RenamedTolerations(ts, keyMap)) == NewNames(TolerationKeys(ts), keyMap)
  {
    NewKeysStay(keyMap, keys);
    EmptyStays();
    var ts' := RenamedTolerations(ts, keyMap);
    forall k | k in NewNames(TolerationKeys(ts), keyMap) ensures k in TolerationKeys(ts') {
      var t :| t in ts && t.key != "" && Renamed(keyMap, t.key) == k;
      var i :| 0 <= i < |ts| && ts[i] == t;
      assert ts'[i] in ts' && ts'[i].key == k;
    }
    forall k | k in TolerationKeys(ts') ensures k in NewNames(TolerationKeys(ts), keyMap) {
      var t' :| t' in ts' && t'.key == k && k != "";
      var i :| 0 <= i < |ts'| && ts'[i] == t';
      assert ts[i] in ts && ts[i].key != "";
    }
  }

  lemma NodeAffinityKeysRenamed(a: Option<NodeAffinity>, keyMap: StringMap)
    ensures NodeAffinityKeys(RenamedNodeAffinity(a, keyMap)) == NewNames(NodeAffinityKeys(a), keyMap)
  {
    if a.Some? {
      NodeTermKeysRenamed(a.value.preferred, keyMap);
      if a.value.required.Some? {
        NodeTermKeysRenamed(a.value.required.value, keyMap);
      }
    }
  }

  lemma PodAffinityKeysRenamed(a: Option<PodAffinity>, keyMap: StringMap, keys: set<string>)
    requires IsKeyMap(keyMap, keys) && PodAffinityKeys(a) <= keys
    ensures PodAffinityKeys(RenamedPodAffinity(a, keyMap)) == NewNames(PodAffinityKeys(a), keyMap)
  {
    if a.Some? {
      PodTermKeysRenamed(a.value.required, keyMap, keys);
      PodTermKeysRenamed(a.value.preferred, keyMap, keys);
    }
  }

  lemma AffinityKeysRenamed(a: Option<Affinity>, keyMap: StringMap, keys: set<string>)
    requires IsKeyMap(keyMap, keys) && AffinityKeys(a) <= keys
    ensures AffinityKeys(RenamedAffinity(a, keyMap)) == NewNames(AffinityKeys(a), keyMap)
  {
    if a.Some? {
      NodeAffinityKeysRenamed(a.value.node, keyMap);
      PodAffinityKeysRenamed(a.value.pod, keyMap, keys);
      PodAffinityKeysRenamed(a.value.antiPod, keyMap, keys);
      NewNamesOfThree(
        NodeAffinityKeys(a.value.node), PodAffinityKeys(a.value.pod), PodAffinityKeys(a.value.antiPod), keyMap);
    }
  }

  lemma PodKeysRenamed(p: Pod, p': Pod, keyMap: StringMap, keys: set<string>)
    requires IsKeyMap(keyMap, keys) && PodKeys(p) <= keys
    requires p'.nodeSelector == RenamedMap(p.nodeSelector, keyMap)
    requires p'.tolerations == RenamedTolerations(p.tolerations, keyMap)
    requires p'.affinity == RenamedAffinity(p.affinity, keyMap) && p'.spreads == RenamedSpreads(p.spreads, keyMap)
    ensures PodKeys(p') == NewNames(PodKeys(p), keyMap)
  {
    MapKeysRenamed(p.nodeSelector, keyMap, keys);
    TolerationKeysRenamed(p.tolerations, keyMap, keys);
    AffinityKeysRenamed(p.affinity, keyMap, keys);
    SpreadKeysRenamed(p.spreads, keyMap, keys);
    NewNamesOfFour(
      p.nodeSelector.Keys, TolerationKeys(p.tolerations), AffinityKeys(p.affinity), SpreadKeys(p.spreads), keyMap);
  }

  /** `ks'` are the keys `ks` with those that start with a prefix to remove renamed: so none starts
      that way any more. */
  ghost predicate KeysAfterwards(ks: set<string>, ks': set<string>, keyMap: StringMap) {
    && (forall k :: k in ks && StartsLikeRemoved(k) ==> k in keyMap && keyMap[k] in ks')
    && (forall k :: k in ks && !StartsLikeRemoved(k) ==> k in ks')
    && (forall k :: k in ks' ==>
          !StartsLikeRemoved(k) && (k in ks || exists j :: j in ks && j in keyMap && keyMap[j] == k))
  }

  lemma NewNamesAfterwards(ks: set<string>, keyMap: StringMap, keys: set<string>)
    requires IsKeyMap(keyMap, keys) && ks <= keys
    ensures KeysAfterwards(ks, NewNames(ks, keyMap), keyMap)
  {
    NewKeysStay(keyMap, keys);
    forall k ensures Removable(k) <==> StartsLikeRemoved(k) {
      RemovableIff(k);
    }
    assert forall k :: k in ks ==> Renamed(keyMap, k) in NewNames(ks, keyMap);
  }

  lemma ObfuscatedConstraints(snap: Snapshot, keyMap: StringMap, p: nat)
    requires Renames(snap, keyMap) && p < |snap.pods|
    ensures var q, p' := snap.pods[p], Obfuscated(snap, keyMap).pods[p];
      p'.nodeSelector == RenamedMap(q.nodeSelector, keyMap) &&
      p'.tolerations == RenamedTolerations(q.tolerations, keyMap) &&
      p'.affinity == RenamedAffinity(q.affinity, keyMap) && p'.spreads == RenamedSpreads(q.spreads, keyMap)
  {
  }

  /** The constraints of an obfuscated pod mention exactly the new names of the keys they mentioned;
      obfuscating again would rename nothing. */
  lemma ConstraintsMentionNewNames(snap: Snapshot, keyMap: StringMap, p: nat)
    requires Renames(snap, keyMap) && p < |snap.pods|
    ensures KeysAfterwards(PodKeys(snap.pods[p]), PodKeys(Obfuscated(snap, keyMap).pods[p]), keyMap)
  {
    var q, keys := snap.pods[p], SchedulingKeys(snap.pods);
    KeysOfPod(snap, p);
    ObfuscatedConstraints(snap, keyMap, p);
    PodKeysRenamed(q, Obfuscated(snap, keyMap).pods[p], keyMap, keys);
    NewNamesAfterwards(PodKeys(q), keyMap, keys);
  }

  /** Taints are the exception: a key with a prefix to remove is renamed if a constraint mentions it and
      otherwise stays. */
  lemma TaintKeyAfterwards(snap: Snapshot, keyMap: StringMap, n: nat, t: nat)
    requires Renames(snap, keyMap) && n < |snap.nodes| && t < |snap.nodes[n].taints|
    ensures var taint, taints' := snap.nodes[n].taints[t], Obfuscated(snap, keyMap).nodes[n].taints;
      var mentioned := taint.key in SchedulingKeys(snap.pods);
      |taints'| == |snap.nodes[n].taints| &&
      taints'[t].value == taint.value && taints'[t].effect == taint.effect &&
      (StartsLikeRemoved(taints'[t].key) <==> StartsLikeRemoved(taint.key) && !mentioned) &&
      (taints'[t].key != taint.key <==> StartsLikeRemoved(taint.key) && mentioned)
  {
    NewKeysStay(keyMap, SchedulingKeys(snap.pods));
    forall k ensures Removable(k) <==> StartsLikeRemoved(k) {
      RemovableIff(k);
    }
  }
}
