/** What the scheduler's verdicts come to in the simplest cases, and how the operators relate. */
module SchedulingMeaning {
  import opened ApiObjects
  import opened ObfuscationSpec
  import opened SchedulingSemantics

  /** NotIn and DoesNotExist are the opposites of In and Exists, so they take a missing label; In, Gt and
      Lt do not. */
  lemma OperatorsOppose(k: string, values: seq<string>, labels: StringMap, cmp: Compare)
    ensures ReqMatches(Requirement(k, NotIn, values), labels, cmp) <==>
      !ReqMatches(Requirement(k, In, values), labels, cmp)
    ensures ReqMatches(Requirement(k, DoesNotExist, values), labels, cmp) <==>
      !ReqMatches(Requirement(k, Exists, values), labels, cmp)
    ensures ReqMatches(Requirement(k, Exists, values), labels, cmp) <==>
      k in labels && ReqMatches(Requirement(k, In, [labels[k]]), labels, cmp)
    ensures ReqMatches(Requirement(k, In, values), labels, cmp) ==>
      exists i :: 0 <= i < |values| && ReqMatches(Requirement(k, In, [values[i]]), labels, cmp)
    ensures forall op: Operator :: op in {In, Exists, Gt, Lt} && ReqMatches(Requirement(k, op, values), labels, cmp) ==>
      k in labels
  {
    if k in labels && labels[k] in values {
      var i :| 0 <= i < |values| && values[i] == labels[k];
      assert ReqMatches(Requirement(k, In, [values[i]]), labels, cmp);
    }
  }

  /** Wanted labels are requirements that each label has its one value. */
  lemma WantedLabelsAreIn(wanted: StringMap, labels: StringMap, cmp: Compare)
    ensures MapMatches(wanted, labels) <==>
      forall k :: k in wanted ==> ReqMatches(Requirement(k, In, [wanted[k]]), labels, cmp)
  {
  }

  /** A toleration with everything given tolerates one taint; leaving out the value, the effect or the
      key widens it to all taints that agree on the rest. */
  lemma WhatIsTolerated(k: string, v: string, e: Effect, t: Taint)
    requires k != ""
    ensures Tolerates(Toleration(k, false, v, Some(e)), t) <==> t == Taint(k, v, e)
    ensures Tolerates(Toleration(k, true, v, Some(e)), t) <==> t == Taint(k, t.value, e)
    ensures Tolerates(Toleration(k, false, v, None), t) <==> t == Taint(k, v, t.effect)
    ensures Tolerates(Toleration("", true, v, Some(e)), t) <==> t == Taint(t.key, t.value, e)
    ensures Tolerates(Toleration("", true, v, None), t)
  {
  }

  function Named(op: Operator, name: string): NodeTerm {
    NodeTerm([], [Requirement("metadata.name", op, [name])])
  }

  /** A term without any requirement takes no node; one with a node's name takes that node only. */
  lemma SmallestNodeTerms(name: string, node: Node, cmp: Compare)
    ensures !NodeTermMatches(NodeTerm([], []), node, cmp)
    ensures NodeTermMatches(Named(In, name), node, cmp) <==> node.name == name
    ensures NodeTermMatches(Named(NotIn, name), node, cmp) <==> node.name != name
    ensures AnyTermMatches([Named(In, name)], node, cmp) <==> node.name == name
    ensures RequiredNodeAffinity(None, node, cmp) && !AnyTermMatches([], node, cmp)
  {
    forall op ensures NodeTermMatches(Named(op, name), node, cmp) <==>
      FieldMatches(Requirement("metadata.name", op, [name]), node.name)
    {
      var fields := Named(op, name).matchFields;
      assert AllFieldsMatch(fields, node.name) <==> FieldMatches(fields[0], node.name);
    }
    assert [Named(In, name)][0] == Named(In, name);
  }

  /** No selector selects nothing, an empty one everything. */
  lemma SmallestSelectors(labels: StringMap, cmp: Compare)
    ensures !SelectorMatches(None, labels, cmp)
    ensures SelectorMatches(Some(LabelSelector(map[], [])), labels, cmp)
  {
  }

  /** Which namespaces a term looks at: its own pod's if it says nothing, the listed ones, all of them
      with an empty selector. */
  lemma NamespacesLookedAt(t: PodTerm, own: string, ns: string, labels: NamespaceLabels, cmp: Compare)
    ensures var none, list, all := t.(namespaces := [], namespaceSelector := None),
        t.(namespaces := [ns], namespaceSelector := None),
        t.(namespaces := [], namespaceSelector := Some(LabelSelector(map[], [])));
      (LooksAt(none, own, ns, labels, cmp) <==> ns == own) &&
      LooksAt(list, own, ns, labels, cmp) && (LooksAt(list, own, own, labels, cmp) <==> own == ns) &&
      LooksAt(all, own, ns, labels, cmp)
  {
    SmallestSelectors(labels(ns), cmp);
    if own != ns {
      assert own !in [ns];
    }
  }

  predicate IsOn(q: Pod, n: Node, key: string, value: string) {
    q.nodeName == n.name && key in n.labels && n.labels[key] == value
  }

  ghost predicate SomewhereOn(snap: Snapshot, q: Pod, key: string, value: string) {
    exists j :: 0 <= j < |snap.nodes| && IsOn(q, snap.nodes[j], key, value)
  }

  lemma InDomainIff(snap: Snapshot, q: Pod, key: string, value: string)
    ensures InDomain(snap, q, key, value) <==> SomewhereOn(snap, q, key, value)
  {
    if j :| 0 <= j < |snap.nodes| && OnLabelled(q, snap.nodes[j], key, value) {
      assert IsOn(q, snap.nodes[j], key, value);
    }
    if j :| 0 <= j < |snap.nodes| && IsOn(q, snap.nodes[j], key, value) {
      assert OnLabelled(q, snap.nodes[j], key, value);
    }
  }

  /** A spread constraint counts exactly the selected pods of the incoming pod's namespace on nodes of
      the domain that have the same values of its match label keys. */
  lemma WhatSpreadsCount(snap: Snapshot, p: Pod, s: Spread, value: string, cmp: Compare, q: nat)
    ensures q in SpreadPods(snap, p, s, value, cmp) <==>
      q < |snap.pods| && snap.pods[q].ns == p.ns && SelectorMatches(s.selector, snap.pods[q].labels, cmp) &&
      SomewhereOn(snap, snap.pods[q], s.topologyKey, value) &&
      forall k :: k in s.matchLabelKeys && k in p.labels ==>
        k in snap.pods[q].labels && snap.pods[q].labels[k] == p.labels[k]
  {
    if q < |snap.pods| {
      InDomainIff(snap, snap.pods[q], s.topologyKey, value);
      var ks := s.matchLabelKeys;
      assert AgreesOnAll(ks, p.labels, snap.pods[q].labels) <==>
        forall k :: k in ks ==> AgreesOn(k, p.labels, snap.pods[q].labels);
    }
  }

  /** A pod-affinity term finds exactly the selected pods of its namespaces on nodes with the given node's
      value of the topology key. */
  lemma WhatTermsFind(snap: Snapshot, t: PodTerm, own: string, j: nat, labels: NamespaceLabels, cmp: Compare, q: nat)
    requires j < |snap.nodes|
    ensures q in AffinePods(snap, t, own, j, labels, cmp) <==>
      q < |snap.pods| && LooksAt(t, own, snap.pods[q].ns, labels, cmp) &&
      SelectorMatches(t.selector, snap.pods[q].labels, cmp) && t.topologyKey in snap.nodes[j].labels &&
      SomewhereOn(snap, snap.pods[q], t.topologyKey, snap.nodes[j].labels[t.topologyKey])
  {
    if q < |snap.pods| && t.topologyKey in snap.nodes[j].labels {
      InDomainIff(snap, snap.pods[q], t.topologyKey, snap.nodes[j].labels[t.topologyKey]);
    }
  }
}
