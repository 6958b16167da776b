/** One simulation per pool, template and zone, and their grouping by priority. */
module SimGroups {
  import opened Decimal

  datatype PriorityKey = PriorityKey(first: int, second: int)

  /** Decreasing order: negative when `a` comes first. */
  function CmpPriorityKeyDecreasing(a: PriorityKey, b: PriorityKey): int {
    if b.first != a.first then (if b.first < a.first then -1 else 1)
    else if b.second < a.second then -1
    else if b.second > a.second then 1
    else 0
  }

  predicate Higher(a: PriorityKey, b: PriorityKey) {
    CmpPriorityKeyDecreasing(a, b) < 0
  }

  datatype NodeTemplate = NodeTemplate(name: string, instanceType: string, priority: int)

  datatype NodePool = NodePool(
    name: string,
    region: string,
    priority: int,
    templates: seq<NodeTemplate>,
    zones: seq<string>)

  datatype ScaleOutTemplate = ScaleOutTemplate(
    poolName: string,
    templateName: string,
    instanceType: string,
    region: string,
    zone: string,
    key: PriorityKey)

  function CreateNodeTemplate(pool: NodePool, t: NodeTemplate, zone: string): ScaleOutTemplate {
    ScaleOutTemplate(pool.name, t.name, t.instanceType, pool.region, zone, PriorityKey(pool.priority, t.priority))
  }

  datatype Sim = Sim(name: string, template: ScaleOutTemplate) {
    function Key(): PriorityKey {
      template.key
    }
  }

  // ---------------------------------------------------------------------------
  // All combinations
  // ---------------------------------------------------------------------------

  /** A position in the three nested lists. */
  datatype Combo = Combo(pool: nat, template: nat, zone: nat)

  ghost predicate ComboOf(pools: seq<NodePool>, c: Combo) {
    c.pool < |pools| && c.template < |pools[c.pool].templates| && c.zone < |pools[c.pool].zones|
  }

  ghost predicate Earlier(c: Combo, d: Combo) {
    c.pool < d.pool || (c.pool == d.pool && (c.template < d.template || (c.template == d.template && c.zone < d.zone)))
  }

  /** `combos` lists, in order and each once, the positions before `end`; `templates` holds the
      template made for each. */
  ghost predicate Enumerated(pools: seq<NodePool>, templates: seq<ScaleOutTemplate>, combos: seq<Combo>, end: Combo) {
    && |combos| == |templates|
    && (forall i :: 0 <= i < |combos| ==> ComboOf(pools, combos[i]) && Earlier(combos[i], end))
    && (forall i :: 0 <= i < |combos| ==> templates[i] == Made(pools, combos[i]))
    && (forall i, j :: 0 <= i < j < |combos| ==> Earlier(combos[i], combos[j]))
    && (forall c :: ComboOf(pools, c) && Earlier(c, end) ==> c in combos)
  }

  ghost function Made(pools: seq<NodePool>, c: Combo): ScaleOutTemplate
    requires ComboOf(pools, c)
  {
    var p := pools[c.pool];
    CreateNodeTemplate(p, p.templates[c.template], p.zones[c.zone])
  }

  lemma OneMoreCombo(pools: seq<NodePool>, templates: seq<ScaleOutTemplate>, combos: seq<Combo>, c: Combo)
    requires Enumerated(pools, templates, combos, c) && ComboOf(pools, c)
    ensures Enumerated(pools, templates + [Made(pools, c)], combos + [c], c.(zone := c.zone + 1))
  {
  }

  /** Running off the end of a list is the start of the next. */
  lemma Carry(pools: seq<NodePool>, templates: seq<ScaleOutTemplate>, combos: seq<Combo>, end: Combo, next: Combo)
    requires Enumerated(pools, templates, combos, end)
    requires forall c :: ComboOf(pools, c) ==> (Earlier(c, end) <==> Earlier(c, next))
    ensures Enumerated(pools, templates, combos, next)
  {
  }

  /** The templates of all combinations, each exactly once, in order. */
  ghost predicate AllMade(pools: seq<NodePool>, templates: seq<ScaleOutTemplate>, combos: seq<Combo>) {
    && |combos| == |templates|
    && (forall c :: c in combos <==> ComboOf(pools, c))
    && (forall i :: 0 <= i < |combos| ==> ComboOf(pools, combos[i]) && templates[i] == Made(pools, combos[i]))
    && (forall i, j :: 0 <= i < j < |combos| ==> Earlier(combos[i], combos[j]))
  }

  /** Every combination of a pool with one of its templates and one of its zones, exactly once. */
  method CreateAllNodeTemplates(pools: seq<NodePool>) returns (templates: seq<ScaleOutTemplate>)
    ensures exists combos :: AllMade(pools, templates, combos)
  {
    templates := [];
    ghost var combos: seq<Combo> := [];
    for p := 0 to |pools|
      invariant Enumerated(pools, templates, combos, Combo(p, 0, 0))
    {
      var ts, zs := pools[p].templates, pools[p].zones;
      for t := 0 to |ts|
        invariant Enumerated(pools, templates, combos, Combo(p, t, 0))
      {
        for z := 0 to |zs|
          invariant Enumerated(pools, templates, combos, Combo(p, t, z))
        {
          OneMoreCombo(pools, templates, combos, Combo(p, t, z));
          templates, combos := templates + [CreateNodeTemplate(pools[p], ts[t], zs[z])], combos + [Combo(p, t, z)];
        }
        Carry(pools, templates, combos, Combo(p, t, |zs|), Combo(p, t + 1, 0));
      }
      Carry(pools, templates, combos, Combo(p, |ts|, 0), Combo(p + 1, 0, 0));
    }
    assert AllMade(pools, templates, combos);
  }

  // ---------------------------------------------------------------------------
  // Names
  // ---------------------------------------------------------------------------

  function SimName(i: nat, t: ScaleOutTemplate): string {
    "sim-" + Itoa(i) + "_" + t.poolName + "_" + t.templateName + "_" + t.zone
  }

  lemma {:induction false} ItoaHasNoUnderscore(n: nat)
    ensures '_' !in Itoa(n)
  {
    if n >= 10 {
      ItoaHasNoUnderscore(n / 10);
    }
  }

  lemma SameUpToUnderscore(a: string, b: string, x: string, y: string)
    requires a + "_" + x == b + "_" + y && '_' !in a && '_' !in b
    ensures a == b
  {
    var s := a + "_" + x;
    assert s[|a|] == '_' && s[|b|] == '_';
    assert forall i :: 0 <= i < |a| ==> s[i] != '_';
    assert forall i :: 0 <= i < |b| ==> s[i] != '_';
    assert s[..|a|] == a && s[..|b|] == b;
  }

  /** The number in front keeps names apart, whatever pools, templates and zones are called. */
  lemma SimNamesDistinct(i: nat, t: ScaleOutTemplate, j: nat, u: ScaleOutTemplate)
    requires SimName(i, t) == SimName(j, u)
    ensures i == j
  {
    var x, y := t.poolName + "_" + t.templateName + "_" + t.zone, u.poolName + "_" + u.templateName + "_" + u.zone;
    var a, b := "sim-" + Itoa(i), "sim-" + Itoa(j);
    assert SimName(i, t) == a + "_" + x;
    assert SimName(j, u) == b + "_" + y;
    ItoaHasNoUnderscore(i);
    ItoaHasNoUnderscore(j);
    SameUpToUnderscore(a, b, x, y);
    PrefixedInjective("sim-", i, j);
  }

  // ---------------------------------------------------------------------------
  // Groups
  // ---------------------------------------------------------------------------

  class SimGroup {
    const key: PriorityKey
    var sims: seq<Sim>

    constructor (key: PriorityKey)
      ensures this.key == key && sims == []
    {
      this.key, this.sims := key, [];
    }

    method AddSimulation(sim: Sim)
      modifies this
      ensures sims == old(sims) + [sim]
    {
      sims := sims + [sim];
    }
  }

  /** The simulations with key `k`, in order. */
  ghost function WithKey(sims: seq<Sim>, k: PriorityKey): seq<Sim> {
    if sims == [] then []
    else WithKey(sims[..|sims| - 1], k) + if sims[|sims| - 1].Key() == k then [sims[|sims| - 1]] else []
  }

  lemma WithKeyAppend(sims: seq<Sim>, s: Sim, k: PriorityKey)
    ensures WithKey(sims + [s], k) == WithKey(sims, k) + if s.Key() == k then [s] else []
  {
    assert (sims + [s])[..|sims|] == sims;
  }

  type Contents = map<PriorityKey, seq<Sim>>

  /** Under each key that occurs, the simulations with that key, in order. */
  ghost predicate Filed(contents: Contents, sims: seq<Sim>) {
    forall k :: if k in contents then contents[k] == WithKey(sims, k) != [] else WithKey(sims, k) == []
  }

  lemma OneMoreFiled(contents: Contents, contents': Contents, sims: seq<Sim>, s: Sim)
    requires Filed(contents, sims)
    requires contents' == contents[s.Key() := (if s.Key() in contents then contents[s.Key()] else []) + [s]]
    ensures Filed(contents', sims + [s])
  {
    forall k
      ensures if k in contents' then contents'[k] == WithKey(sims + [s], k) != [] else WithKey(sims + [s], k) == []
    {
      WithKeyAppend(sims, s, k);
    }
  }

  /** The map's groups carry their keys and hold `contents`. */
  ghost predicate Holds(groups: map<PriorityKey, SimGroup>, contents: Contents)
    reads groups.Values
  {
    groups.Keys == contents.Keys && forall k :: k in groups ==> groups[k].key == k && groups[k].sims == contents[k]
  }

  ghost function WithSim(contents: Contents, s: Sim): Contents {
    contents[s.Key() := (if s.Key() in contents then contents[s.Key()] else []) + [s]]
  }

  method FileOne(groups: map<PriorityKey, SimGroup>, s: Sim, ghost contents: Contents)
    returns (groups': map<PriorityKey, SimGroup>)
    requires Holds(groups, contents)
    modifies groups.Values
    ensures Holds(groups', WithSim(contents, s))
    ensures fresh(groups'.Values - groups.Values)
  {
    var g: SimGroup;
    if s.Key() in groups {
      g := groups[s.Key()];
    } else {
      g := new SimGroup(s.Key());
    }
    g.AddSimulation(s);
    groups' := groups[s.Key() := g];
  }

  method FileAll(sims: seq<Sim>) returns (groups: map<PriorityKey, SimGroup>, ghost contents: Contents)
    ensures fresh(groups.Values)
    ensures Holds(groups, contents) && Filed(contents, sims)
  {
    groups, contents := map[], map[];
    for i := 0 to |sims|
      invariant fresh(groups.Values)
      invariant Holds(groups, contents)
      invariant Filed(contents, sims[..i])
    {
      groups := FileOne(groups, sims[i], contents);
      OneMoreFiled(contents, WithSim(contents, sims[i]), sims[..i], sims[i]);
      contents := WithSim(contents, sims[i]);
      assert sims[..i + 1] == sims[..i] + [sims[i]];
    }
    assert sims[..|sims|] == sims;
  }

  ghost predicate StrictlyDecreasing(keys: seq<PriorityKey>) {
    forall i, j :: 0 <= i < j < |keys| ==> Higher(keys[i], keys[j])
  }

  /** The keys of the groups: those that occur, highest first. */
  ghost predicate GroupKeys(keys: seq<PriorityKey>, sims: seq<Sim>) {
    StrictlyDecreasing(keys) && forall k :: k in keys <==> WithKey(sims, k) != []
  }

  ghost function KeysOf(groups: seq<SimGroup>): seq<PriorityKey> {
    seq(|groups|, i requires 0 <= i < |groups| => groups[i].key)
  }

  /** Visits the map in an arbitrary order and keeps the list sorted. */
  method SortedGroups(groups: map<PriorityKey, SimGroup>) returns (sorted: seq<SimGroup>)
    requires forall k :: k in groups ==> groups[k].key == k
    ensures StrictlyDecreasing(KeysOf(sorted))
    ensures forall k :: k in KeysOf(sorted) <==> k in groups
    ensures forall i :: 0 <= i < |sorted| ==> sorted[i].key in groups && sorted[i] == groups[sorted[i].key]
  {
    sorted := [];
    var rest := groups.Keys;
    while rest != {}
      invariant rest <= groups.Keys
      invariant StrictlyDecreasing(KeysOf(sorted))
      invariant forall k :: k in KeysOf(sorted) <==> k in groups.Keys - rest
      invariant forall i :: 0 <= i < |sorted| ==> sorted[i].key in groups && sorted[i] == groups[sorted[i].key]
      decreases rest
    {
      var k :| k in rest;
      rest := rest - {k};
      var i := 0;
      while i < |sorted| && Higher(sorted[i].key, k)
        invariant 0 <= i <= |sorted|
        invariant forall j :: 0 <= j < i ==> Higher(KeysOf(sorted)[j], k)
      {
        i := i + 1;
      }
      ghost var keys := KeysOf(sorted);
      Inserted(keys, k, i);
      sorted := sorted[..i] + [groups[k]] + sorted[i..];
      assert KeysOf(sorted) == keys[..i] + [k] + keys[i..];
    }
  }

  lemma Inserted(keys: seq<PriorityKey>, k: PriorityKey, i: nat)
    requires StrictlyDecreasing(keys) && k !in keys && i <= |keys|
    requires forall j :: 0 <= j < i ==> Higher(keys[j], k)
    requires i < |keys| ==> !Higher(keys[i], k)
    ensures StrictlyDecreasing(keys[..i] + [k] + keys[i..])
    ensures forall x :: x in keys[..i] + [k] + keys[i..] <==> x in keys || x == k
  {
    assert i < |keys| ==> keys[i] in keys && Higher(k, keys[i]);
    assert keys == keys[..i] + keys[i..];
  }

  /** The groups partition the simulations: each group holds those with its key, in order;
      groups come out strictly decreasing by key, whatever order the map is visited in. */
  method CreateScaleOutSimGroups(sims: seq<Sim>) returns (groups: seq<SimGroup>)
    ensures GroupKeys(KeysOf(groups), sims)
    ensures forall i :: 0 <= i < |groups| ==> fresh(groups[i]) && groups[i].sims == WithKey(sims, groups[i].key)
  {
    var filed, contents := FileAll(sims);
    groups := SortedGroups(filed);
    assert forall i :: 0 <= i < |groups| ==> groups[i] in filed.Values;
  }

  ghost function Templates(sims: seq<Sim>): seq<ScaleOutTemplate> {
    seq(|sims|, i requires 0 <= i < |sims| => sims[i].template)
  }

  ghost predicate DistinctNames(sims: seq<Sim>) {
    forall i, j :: 0 <= i < j < |sims| ==> sims[i].name != sims[j].name
  }

  /** One simulation for every combination, all names different, grouped by priority. */
  method CreateAndGroupSimulations(pools: seq<NodePool>)
    returns (groups: seq<SimGroup>, ghost sims: seq<Sim>)
    ensures exists combos :: AllMade(pools, Templates(sims), combos)
    ensures forall i :: 0 <= i < |sims| ==>
      var t := sims[i].template;
      sims[i].name == "sim-" + Itoa(i) + "_" + t.poolName + "_" + t.templateName + "_" + t.zone
    ensures DistinctNames(sims)
    ensures GroupKeys(KeysOf(groups), sims)
    ensures forall i :: 0 <= i < |groups| ==> fresh(groups[i]) && groups[i].sims == WithKey(sims, groups[i].key)
  {
    var templates := CreateAllNodeTemplates(pools);
    var all: seq<Sim> := [];
    for i := 0 to |templates|
      invariant |all| == i
      invariant forall k :: 0 <= k < i ==> all[k] == Sim(SimName(k, templates[k]), templates[k])
    {
      all := all + [Sim(SimName(i, templates[i]), templates[i])];
    }
    NumberedNamesDistinct(all);
    sims := all;
    assert Templates(sims) == templates;
    groups := CreateScaleOutSimGroups(all);
  }

  lemma NumberedNamesDistinct(sims: seq<Sim>)
    requires forall k :: 0 <= k < |sims| ==> sims[k].name == SimName(k, sims[k].template)
    ensures DistinctNames(sims)
  {
    forall i, j | 0 <= i < j < |sims| ensures sims[i].name != sims[j].name {
      if sims[i].name == sims[j].name {
        SimNamesDistinct(i, sims[i].template, j, sims[j].template);
      }
    }
  }

  // ---------------------------------------------------------------------------
  // What the grouping is
  // ---------------------------------------------------------------------------

  ghost function Members(keys: seq<PriorityKey>, sims: seq<Sim>): multiset<Sim> {
    if keys == [] then multiset{} else multiset(WithKey(sims, keys[0])) + Members(keys[1..], sims)
  }

  lemma {:induction false} WithKeyCount(sims: seq<Sim>, k: PriorityKey, s: Sim)
    ensures multiset(WithKey(sims, k))[s] == if s.Key() == k then multiset(sims)[s] else 0
  {
    if sims != [] {
      var n := |sims| - 1;
      WithKeyCount(sims[..n], k, s);
      assert sims == sims[..n] + [sims[n]];
    }
  }

  lemma {:induction false} MembersCount(keys: seq<PriorityKey>, sims: seq<Sim>, s: Sim)
    requires StrictlyDecreasing(keys)
    ensures Members(keys, sims)[s] == if s.Key() in keys then multiset(sims)[s] else 0
  {
    if keys != [] {
      WithKeyCount(sims, keys[0], s);
      MembersCount(keys[1..], sims, s);
      InTail(keys);
    }
  }

  /** Nothing lost, nothing twice. */
  lemma GroupsPartition(keys: seq<PriorityKey>, sims: seq<Sim>)
    requires GroupKeys(keys, sims)
    ensures Members(keys, sims) == multiset(sims)
  {
    forall s ensures Members(keys, sims)[s] == multiset(sims)[s] {
      MembersCount(keys, sims, s);
      WithKeyCount(sims, s.Key(), s);
      if multiset(sims)[s] > 0 {
        assert s in WithKey(sims, s.Key());
      }
    }
  }

  /** Only one list of keys is strictly decreasing and holds the keys that occur. */
  lemma {:induction false} GroupingIsUnique(a: seq<PriorityKey>, b: seq<PriorityKey>)
    requires StrictlyDecreasing(a) && StrictlyDecreasing(b)
    requires forall k :: k in a <==> k in b
    ensures a == b
    decreases |a|
  {
    assert b != [] ==> b[0] in a;
    assert a != [] ==> a[0] in b;
    if a != [] {
      HeadIsHighest(a, b[0]);
      HeadIsHighest(b, a[0]);
      TailKeys(a, b);
      GroupingIsUnique(a[1..], b[1..]);
    }
  }

  lemma HeadIsHighest(a: seq<PriorityKey>, k: PriorityKey)
    requires StrictlyDecreasing(a) && k in a
    ensures k == a[0] || Higher(a[0], k)
  {
    var i :| 0 <= i < |a| && a[i] == k;
  }

  lemma TailKeys(a: seq<PriorityKey>, b: seq<PriorityKey>)
    requires StrictlyDecreasing(a) && StrictlyDecreasing(b) && a != [] && b != [] && a[0] == b[0]
    requires forall k :: k in a <==> k in b
    ensures forall k :: k in a[1..] <==> k in b[1..]
  {
    InTail(a);
    InTail(b);
  }

  lemma InTail(a: seq<PriorityKey>)
    requires StrictlyDecreasing(a) && a != []
    ensures forall k :: k in a[1..] <==> k in a && k != a[0]
  {
    assert a == [a[0]] + a[1..];
    forall k | k in a[1..] ensures k != a[0] {
      var i :| 0 <= i < |a[1..]| && a[1..][i] == k;
      assert Higher(a[0], a[i + 1]);
    }
  }
}
