/** The simulations and their groups in terms of the pools, templates and zones they are made for. */
module SimContents {
  import opened Decimal
  import opened SimGroups

  /** A template for a pool, one of its node templates and one of its zones. */
  predicate MadeFor(t: ScaleOutTemplate, pool: NodePool, nt: NodeTemplate, zone: string) {
    && t.poolName == pool.name && t.region == pool.region && t.zone == zone
    && t.templateName == nt.name && t.instanceType == nt.instanceType
    && t.key.first == pool.priority && t.key.second == nt.priority
  }

  /** Every template is made for a pool, a node template and a zone; and for each of these there is one. */
  lemma TemplatesCoverPools(
    pools: seq<NodePool>, templates: seq<ScaleOutTemplate>, combos: seq<Combo>, i: nat, p: nat, t: nat, z: nat)
    requires AllMade(pools, templates, combos)
    ensures i < |templates| ==>
      exists p, t, z :: 0 <= p < |pools| && 0 <= t < |pools[p].templates| && 0 <= z < |pools[p].zones| &&
        MadeFor(templates[i], pools[p], pools[p].templates[t], pools[p].zones[z])
    ensures p < |pools| && t < |pools[p].templates| && z < |pools[p].zones| ==>
      exists j :: 0 <= j < |templates| && MadeFor(templates[j], pools[p], pools[p].templates[t], pools[p].zones[z])
  {
    if i < |templates| {
      var c := combos[i];
      assert MadeFor(templates[i], pools[c.pool], pools[c.pool].templates[c.template], pools[c.pool].zones[c.zone]);
    }
    if p < |pools| && t < |pools[p].templates| && z < |pools[p].zones| {
      var c := Combo(p, t, z);
      assert ComboOf(pools, c) && c in combos;
      var j :| 0 <= j < |combos| && combos[j] == c;
      assert MadeFor(templates[j], pools[p], pools[p].templates[t], pools[p].zones[z]);
    }
  }

  /** Pools of higher priority come first, among those of one priority the templates of higher priority. */
  predicate PriorityBefore(a: ScaleOutTemplate, b: ScaleOutTemplate) {
    a.key.first > b.key.first || (a.key.first == b.key.first && a.key.second > b.key.second)
  }

  /** Two simulations are in one group exactly if their pools and their templates have the same
      priorities; otherwise the one of higher priority is in an earlier group. */
  lemma GroupsByPriority(keys: seq<PriorityKey>, sims: seq<Sim>, i: nat, j: nat, a: Sim, b: Sim)
    requires GroupKeys(keys, sims) && i < |keys| && j < |keys|
    requires a in WithKey(sims, keys[i]) && b in WithKey(sims, keys[j])
    ensures a in sims && b in sims
    ensures i < j <==> PriorityBefore(a.template, b.template)
    ensures i == j <==> a.template.key == b.template.key
  {
    WithKeyHas(sims, keys[i], a);
    WithKeyHas(sims, keys[j], b);
    assert i < j ==> Higher(keys[i], keys[j]);
    assert j < i ==> Higher(keys[j], keys[i]);
  }

  lemma {:induction false} WithKeyHas(sims: seq<Sim>, k: PriorityKey, s: Sim)
    ensures s in WithKey(sims, k) <==> s in sims && s.template.key == k
  {
    if sims != [] {
      var n := |sims| - 1;
      WithKeyHas(sims[..n], k, s);
      assert sims == sims[..n] + [sims[n]];
    }
  }

  /** In a group the simulations stand in their old order. */
  lemma {:induction false} GroupKeepsOrder(sims: seq<Sim>, k: PriorityKey, i: nat)
    requires i < |sims| && sims[i].template.key == k
    ensures |WithKey(sims[..i], k)| < |WithKey(sims, k)| && WithKey(sims, k)[|WithKey(sims[..i], k)|] == sims[i]
    decreases |sims|
  {
    var n := |sims| - 1;
    if i < n {
      GroupKeepsOrder(sims[..n], k, i);
      assert sims[..n][..i] == sims[..i];
    }
  }

  /** Every simulation is in some group. */
  lemma EverySimIsGrouped(keys: seq<PriorityKey>, sims: seq<Sim>, s: Sim)
    requires GroupKeys(keys, sims) && s in sims
    ensures exists i :: 0 <= i < |keys| && s in WithKey(sims, keys[i])
  {
    WithKeyHas(sims, s.template.key, s);
    var i :| 0 <= i < |keys| && keys[i] == s.template.key;
    assert s in WithKey(sims, keys[i]);
  }
}
