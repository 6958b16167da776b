/** Collecting the keys that scheduling constraints mention: each loop adds to a set it is given. */
module ObfuscationCollect {
  import opened ApiObjects
  import opened ObfuscationSpec

  method CollectRequirementKeys(reqs: seq<Requirement>, keys: set<string>) returns (keys': set<string>)
    ensures keys' == keys + RequirementKeys(reqs)
  {
    keys' := keys;
    for i := 0 to |reqs|
      invariant keys' == keys + RequirementKeys(reqs[..i])
    {
      keys' := keys' + {reqs[i].key};
      assert reqs[..i + 1] == reqs[..i] + [reqs[i]];
    }
    assert reqs[..|reqs|] == reqs;
  }

  method CollectLabelSelectorKeys(sel: Option<LabelSelector>, keys: set<string>) returns (keys': set<string>)
    ensures keys' == keys + SelectorKeys(sel)
  {
    if sel == None {
      return keys;
    }
    keys' := CollectRequirementKeys(sel.value.matchExpressions, keys + sel.value.matchLabels.Keys);
  }

  lemma OneMoreNodeTerm(terms: seq<NodeTerm>, i: nat)
    requires i < |terms|
    ensures NodeTermKeys(terms[..i + 1]) == NodeTermKeys(terms[..i]) + OneNodeTermKeys(terms[i])
  {
    assert terms[..i + 1] == terms[..i] + [terms[i]];
  }

  method CollectNodeTermKeys(terms: seq<NodeTerm>, keys: set<string>) returns (keys': set<string>)
    ensures keys' == keys + NodeTermKeys(terms)
  {
    keys' := keys;
    for i := 0 to |terms|
      invariant keys' == keys + NodeTermKeys(terms[..i])
    {
      keys' := CollectRequirementKeys(terms[i].matchExpressions, keys');
      keys' := CollectRequirementKeys(terms[i].matchFields, keys');
      OneMoreNodeTerm(terms, i);
    }
    assert terms[..|terms|] == terms;
  }

  lemma OneMorePodTerm(terms: seq<PodTerm>, i: nat)
    requires i < |terms|
    ensures PodTermKeys(terms[..i + 1]) == PodTermKeys(terms[..i]) + OnePodTermKeys(terms[i])
  {
    assert terms[..i + 1] == terms[..i] + [terms[i]];
  }

  method CollectPodAffinityTermKeys(terms: seq<PodTerm>, keys: set<string>) returns (keys': set<string>)
    ensures keys' == keys + PodTermKeys(terms)
  {
    keys' := keys;
    for i := 0 to |terms|
      invariant keys' == keys + PodTermKeys(terms[..i])
    {
      if terms[i].topologyKey != "" {
        keys' := keys' + {terms[i].topologyKey};
      }
      keys' := CollectLabelSelectorKeys(terms[i].selector, keys');
      keys' := CollectLabelSelectorKeys(terms[i].namespaceSelector, keys');
      OneMorePodTerm(terms, i);
    }
    assert terms[..|terms|] == terms;
  }

  method CollectPodAffinityKeys(a: Option<PodAffinity>, keys: set<string>) returns (keys': set<string>)
    ensures keys' == keys + PodAffinityKeys(a)
  {
    if a == None {
      return keys;
    }
    keys' := CollectPodAffinityTermKeys(a.value.required, keys);
    keys' := CollectPodAffinityTermKeys(a.value.preferred, keys');
  }

  method CollectAffinityKeys(a: Option<Affinity>, keys: set<string>) returns (keys': set<string>)
    ensures keys' == keys + AffinityKeys(a)
  {
    if a == None {
      return keys;
    }
    keys' := keys;
    var na := a.value.node;
    if na.Some? {
      if na.value.required.Some? {
        keys' := CollectNodeTermKeys(na.value.required.value, keys');
      }
      keys' := CollectNodeTermKeys(na.value.preferred, keys');
    }
    assert keys' == keys + NodeAffinityKeys(na);
    keys' := CollectPodAffinityKeys(a.value.pod, keys');
    keys' := CollectPodAffinityKeys(a.value.antiPod, keys');
  }

  lemma OneMoreSpread(spreads: seq<Spread>, i: nat)
    requires i < |spreads|
    ensures SpreadKeys(spreads[..i + 1]) == SpreadKeys(spreads[..i]) + OneSpreadKeys(spreads[i])
  {
    assert spreads[..i + 1] == spreads[..i] + [spreads[i]];
  }

  method CollectSpreadKeys(spreads: seq<Spread>, keys: set<string>) returns (keys': set<string>)
    ensures keys' == keys + SpreadKeys(spreads)
  {
    keys' := keys;
    for i := 0 to |spreads|
      invariant keys' == keys + SpreadKeys(spreads[..i])
    {
      if spreads[i].topologyKey != "" {
        keys' := keys' + {spreads[i].topologyKey};
      }
      keys' := CollectLabelSelectorKeys(spreads[i].selector, keys');
      keys' := keys' + set x | x in spreads[i].matchLabelKeys;
      OneMoreSpread(spreads, i);
    }
    assert spreads[..|spreads|] == spreads;
  }

  method CollectTolerationKeys(ts: seq<Toleration>, keys: set<string>) returns (keys': set<string>)
    ensures keys' == keys + TolerationKeys(ts)
  {
    keys' := keys;
    for i := 0 to |ts|
      invariant keys' == keys + TolerationKeys(ts[..i])
    {
      if ts[i].key != "" {
        keys' := keys' + {ts[i].key};
      }
      assert ts[..i + 1] == ts[..i] + [ts[i]];
    }
    assert ts[..|ts|] == ts;
  }

  lemma OneMorePod(pods: seq<Pod>, i: nat)
    requires i < |pods|
    ensures SchedulingKeys(pods[..i + 1]) == SchedulingKeys(pods[..i]) + PodKeys(pods[i])
  {
    assert pods[..i + 1] == pods[..i] + [pods[i]];
  }

  /** Every key some pod's constraints mention, and no other. */
  method CollectSchedulingRelevantKeys(pods: seq<Pod>) returns (keys: set<string>)
    ensures keys == SchedulingKeys(pods)
  {
    keys := {};
    for i := 0 to |pods|
      invariant keys == SchedulingKeys(pods[..i])
    {
      var p := pods[i];
      keys := keys + p.nodeSelector.Keys;
      keys := CollectTolerationKeys(p.tolerations, keys);
      keys := CollectAffinityKeys(p.affinity, keys);
      keys := CollectSpreadKeys(p.spreads, keys);
      OneMorePod(pods, i);
    }
    assert pods[..|pods|] == pods;
  }
}
