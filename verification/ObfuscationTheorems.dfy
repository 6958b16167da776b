/** Obfuscation preserves what the scheduler reads off a snapshot. */
module ObfuscationTheorems {
  import opened ApiObjects
  import opened Decimal
  import opened ObfuscationSpec
  import opened SchedulingSemantics

  // ---------------------------------------------------------------------------
  // Key maps and maps of labels
  // ---------------------------------------------------------------------------

  /** None of the new keys is among `ks`. */
  ghost predicate Fresh(keyMap: StringMap, ks: set<string>) {
    forall j :: j in keyMap ==> keyMap[j] !in ks
  }

  ghost predicate NoneStartsWith(ks: set<string>, prefix: string) {
    forall k :: k in ks ==> !(prefix <= k)
  }

  lemma UnprefixedIsFresh(keyMap: StringMap, keys: set<string>, ks: set<string>)
    requires IsKeyMap(keyMap, keys) && NoneStartsWith(ks, KEY_PREFIX)
    ensures Fresh(keyMap, ks)
  {
    forall j | j in keyMap ensures keyMap[j] !in ks {
      var id :| 0 <= id && keyMap[j] == KeyName(id);
      assert KEY_PREFIX <= KeyName(id);
    }
  }

  /** A scheduling key reads the same before and after. */
  ghost predicate ReadsSame(m: StringMap, keyMap: StringMap, k: string)
    requires Injective(keyMap)
  {
    var m', k' := RenamedMap(m, keyMap), Renamed(keyMap, k);
    (k' in m' <==> k in m) && (k in m ==> m'[k'] == m[k])
  }

  lemma RenamedMapAt(m: StringMap, keyMap: StringMap, g: string)
    requires Injective(keyMap)
    ensures g in RenamedMap(m, keyMap) <==>
      (exists j :: j in m && j in keyMap && keyMap[j] == g) || (g in m && g !in keyMap && !Removable(g))
    ensures forall j :: j in m && j in keyMap && keyMap[j] == g ==> RenamedMap(m, keyMap)[g] == m[j]
    ensures g in m && g !in keyMap && !Removable(g) && !(exists j :: j in m && j in keyMap && keyMap[j] == g) ==>
      RenamedMap(m, keyMap)[g] == m[g]
  {
  }

  /** Does not begin like a new key. */
  predicate HeadDiffers(p: string) {
    |p| >= 2 && (p[0] != 's' || p[1] != 'c')
  }

  lemma PrefixHeadsA()
    ensures HeadDiffers(REMOVE_PREFIXES[0])
    ensures HeadDiffers(REMOVE_PREFIXES[1])
    ensures HeadDiffers(REMOVE_PREFIXES[2])
    ensures HeadDiffers(REMOVE_PREFIXES[3])
    ensures HeadDiffers(REMOVE_PREFIXES[4])
    ensures HeadDiffers(REMOVE_PREFIXES[5])
    ensures HeadDiffers(REMOVE_PREFIXES[6])
    ensures HeadDiffers(REMOVE_PREFIXES[7])
  {
  }

  lemma PrefixHeadsB()
    ensures HeadDiffers(REMOVE_PREFIXES[8])
    ensures HeadDiffers(REMOVE_PREFIXES[9])
    ensures HeadDiffers(REMOVE_PREFIXES[10])
    ensures HeadDiffers(REMOVE_PREFIXES[11])
    ensures HeadDiffers(REMOVE_PREFIXES[12])
    ensures HeadDiffers(REMOVE_PREFIXES[13])
    ensures HeadDiffers(REMOVE_PREFIXES[14])
    ensures HeadDiffers(REMOVE_PREFIXES[15])
  {
  }

  lemma PrefixHeadsC()
    ensures HeadDiffers(REMOVE_PREFIXES[16])
    ensures HeadDiffers(REMOVE_PREFIXES[17])
    ensures HeadDiffers(REMOVE_PREFIXES[18])
    ensures HeadDiffers(REMOVE_PREFIXES[19])
    ensures HeadDiffers(REMOVE_PREFIXES[20])
    ensures HeadDiffers(REMOVE_PREFIXES[21])
    ensures HeadDiffers(REMOVE_PREFIXES[22])
  {
  }

  lemma PrefixHead(i: nat)
    requires i < |REMOVE_PREFIXES|
    ensures HeadDiffers(REMOVE_PREFIXES[i])
  {
    PrefixHeadsA();
    PrefixHeadsB();
    PrefixHeadsC();
  }

  lemma NotPrefix(p: string, k: string)
    requires |p| >= 2 && |k| >= 2 && (p[0] != k[0] || p[1] != k[1])
    ensures !(p <= k)
  {
  }

  /** A new key is never itself removable. */
  lemma NewKeyStays(id: nat)
    ensures !Removable(KeyName(id))
  {
    var k := KeyName(id);
    assert k[0] == 's' && k[1] == 'c';
    forall i | 0 <= i < |REMOVE_PREFIXES| ensures !(REMOVE_PREFIXES[i] <= k) {
      PrefixHead(i);
      NotPrefix(REMOVE_PREFIXES[i], k);
    }
  }

  lemma NewKeysStay(keyMap: StringMap, keys: set<string>)
    requires IsKeyMap(keyMap, keys)
    ensures forall j :: j in keyMap ==> !Removable(keyMap[j]) && keyMap[j] !in keyMap && keyMap[j] != ""
  {
    forall j | j in keyMap ensures !Removable(keyMap[j]) && keyMap[j] !in keyMap && keyMap[j] != "" {
      var id :| 0 <= id && keyMap[j] == KeyName(id);
      NewKeyStays(id);
    }
  }

  lemma EmptyStays()
    ensures !Removable("")
  {
    forall i | 0 <= i < |REMOVE_PREFIXES| ensures !(REMOVE_PREFIXES[i] <= "") {
      PrefixHead(i);
    }
  }

  /** A collected key reads the same before and after; so does the empty key, which is never
      collected. */
  lemma KeyReadsSame(m: StringMap, keyMap: StringMap, keys: set<string>, k: string)
    requires IsKeyMap(keyMap, keys) && Fresh(keyMap, m.Keys) && Fresh(keyMap, keys)
    requires k in keys || k == ""
    ensures ReadsSame(m, keyMap, k)
  {
    RenamedMapAt(m, keyMap, Renamed(keyMap, k));
    if k == "" {
      EmptyStays();
      NewKeysStay(keyMap, keys);
    }
  }

  /** A map that already has a new key must have the old one too; and if the new key is itself
      a scheduling key, the two must agree. */
  ghost predicate NoClash(m: StringMap, keyMap: StringMap, keys: set<string>) {
    forall j :: j in keyMap ==>
      && (keyMap[j] in m ==> j in m)
      && (keyMap[j] in keys && j in m ==> keyMap[j] in m && m[keyMap[j]] == m[j])
  }

  lemma ReadsSameThenNoClash(m: StringMap, keyMap: StringMap, keys: set<string>, j: string)
    requires IsKeyMap(keyMap, keys) && j in keyMap
    requires forall k :: k in keys ==> ReadsSame(m, keyMap, k)
    ensures keyMap[j] in m ==> j in m
    ensures keyMap[j] in keys && j in m ==> keyMap[j] in m && m[keyMap[j]] == m[j]
  {
    NewKeysStay(keyMap, keys);
    RenamedMapAt(m, keyMap, keyMap[j]);
    assert ReadsSame(m, keyMap, j);
    if keyMap[j] in keys {
      assert ReadsSame(m, keyMap, keyMap[j]);
    }
  }

  lemma NoClashThenReadsSame(m: StringMap, keyMap: StringMap, keys: set<string>, k: string)
    requires IsKeyMap(keyMap, keys) && NoClash(m, keyMap, keys) && k in keys
    ensures ReadsSame(m, keyMap, k)
  {
    NewKeysStay(keyMap, keys);
    RenamedMapAt(m, keyMap, Renamed(keyMap, k));
  }

  /** Exactly when a map keeps reading the same at every scheduling key. */
  lemma MapReadsSameIff(m: StringMap, keyMap: StringMap, keys: set<string>)
    requires IsKeyMap(keyMap, keys)
    ensures (forall k :: k in keys ==> ReadsSame(m, keyMap, k)) <==> NoClash(m, keyMap, keys)
  {
    if forall k :: k in keys ==> ReadsSame(m, keyMap, k) {
      forall j | j in keyMap
        ensures keyMap[j] in m ==> j in m
        ensures keyMap[j] in keys && j in m ==> keyMap[j] in m && m[keyMap[j]] == m[j]
      {
        ReadsSameThenNoClash(m, keyMap, keys, j);
      }
    }
    if NoClash(m, keyMap, keys) {
      forall k | k in keys ensures ReadsSame(m, keyMap, k) {
        NoClashThenReadsSame(m, keyMap, keys, k);
      }
    }
  }

  /** The clash does occur: a map that already has a new key, and not the old one, seems to have
      the old one afterwards. */
  lemma NewKeyInUseClashes(v: string)
    ensures var keyMap := map["beta.x" := KeyName(0)];
      IsKeyMap(keyMap, {"beta.x"}) && !ReadsSame(map[KeyName(0) := v], keyMap, "beta.x")
  {
    var keyMap := map["beta.x" := KeyName(0)];
    assert REMOVE_PREFIXES[0] <= "beta.x";
    assert keyMap.Keys == set k | k in {"beta.x"} && Removable(k);
    assert KeyName(0)[0] == 's' && "beta.x"[0] == 'b';
    NewKeyStays(0);
    RenamedMapAt(map[KeyName(0) := v], keyMap, KeyName(0));
  }

  lemma NothingToRename(m: StringMap, keyMap: StringMap)
    requires Injective(keyMap) && forall g :: g in m ==> g !in keyMap && !Removable(g)
    ensures RenamedMap(m, keyMap) == m
  {
    var m' := RenamedMap(m, keyMap);
    forall g ensures (g in m' <==> g in m) && (g in m ==> m'[g] == m[g]) {
      RenamedMapAt(m, keyMap, g);
    }
    assert m' == m;
  }

  /** Obfuscating a map twice is obfuscating it once. */
  lemma RenamedMapIdempotent(m: StringMap, keyMap: StringMap, keys: set<string>)
    requires IsKeyMap(keyMap, keys)
    ensures RenamedMap(RenamedMap(m, keyMap), keyMap) == RenamedMap(m, keyMap)
  {
    NewKeysStay(keyMap, keys);
    var m1 := RenamedMap(m, keyMap);
    forall g | g in m1 ensures g !in keyMap && !Removable(g) {
      RenamedMapAt(m, keyMap, g);
    }
    NothingToRename(m1, keyMap);
  }

  // ---------------------------------------------------------------------------
  // Selectors
  // ---------------------------------------------------------------------------

  /** The new keys occur nowhere among the labels and the scheduling keys. */
  ghost predicate Unused(keyMap: StringMap, keys: set<string>, labels: StringMap) {
    IsKeyMap(keyMap, keys) && Fresh(keyMap, keys) && Fresh(keyMap, labels.Keys)
  }

  lemma ReqPreserved(r: Requirement, labels: StringMap, keyMap: StringMap, keys: set<string>, cmp: Compare)
    requires Unused(keyMap, keys, labels) && r.key in keys
    ensures ReqMatches(RenamedRequirement(r, keyMap), RenamedMap(labels, keyMap), cmp) <==> ReqMatches(r, labels, cmp)
  {
    KeyReadsSame(labels, keyMap, keys, r.key);
  }

  lemma ReqsPreserved(reqs: seq<Requirement>, labels: StringMap, keyMap: StringMap, keys: set<string>, cmp: Compare)
    requires Unused(keyMap, keys, labels) && RequirementKeys(reqs) <= keys
    ensures AllReqsMatch(RenamedRequirements(reqs, keyMap), RenamedMap(labels, keyMap), cmp) <==>
      AllReqsMatch(reqs, labels, cmp)
  {
    var reqs', labels' := RenamedRequirements(reqs, keyMap), RenamedMap(labels, keyMap);
    forall i | 0 <= i < |reqs| ensures ReqMatches(reqs'[i], labels', cmp) <==> ReqMatches(reqs[i], labels, cmp) {
      assert reqs[i].key in RequirementKeys(reqs);
      ReqPreserved(reqs[i], labels, keyMap, keys, cmp);
    }
  }

  lemma MapMatchesPreserved(wanted: StringMap, labels: StringMap, keyMap: StringMap, keys: set<string>)
    requires Unused(keyMap, keys, labels) && wanted.Keys <= keys
    ensures MapMatches(RenamedMap(wanted, keyMap), RenamedMap(labels, keyMap)) <==> MapMatches(wanted, labels)
  {
    var wanted', labels' := RenamedMap(wanted, keyMap), RenamedMap(labels, keyMap);
    forall k | k in keys ensures ReadsSame(wanted, keyMap, k) && ReadsSame(labels, keyMap, k) {
      KeyReadsSame(wanted, keyMap, keys, k);
      KeyReadsSame(labels, keyMap, keys, k);
    }
    if MapMatches(wanted, labels) {
      forall g | g in wanted' ensures g in labels' && labels'[g] == wanted'[g] {
        RenamedMapAt(wanted, keyMap, g);
        var k :| k in wanted && g == Renamed(keyMap, k);
        assert ReadsSame(wanted, keyMap, k) && ReadsSame(labels, keyMap, k);
      }
    }
    if MapMatches(wanted', labels') {
      forall k | k in wanted ensures k in labels && labels[k] == wanted[k] {
        assert ReadsSame(wanted, keyMap, k) && ReadsSame(labels, keyMap, k);
      }
    }
  }

  lemma SelectorPreserved(
    sel: Option<LabelSelector>, labels: StringMap, keyMap: StringMap, keys: set<string>, cmp: Compare)
    requires Unused(keyMap, keys, labels) && SelectorKeys(sel) <= keys
    ensures SelectorMatches(RenamedSelector(sel, keyMap), RenamedMap(labels, keyMap), cmp) <==>
      SelectorMatches(sel, labels, cmp)
  {
    if sel.Some? {
      MapMatchesPreserved(sel.value.matchLabels, labels, keyMap, keys);
      ReqsPreserved(sel.value.matchExpressions, labels, keyMap, keys, cmp);
    }
  }

  /** The rewritten toleration tolerates the rewritten taint if and only if it did before. */
  lemma TolerationPreserved(tol: Toleration, taint: Taint, keyMap: StringMap, keys: set<string>)
    requires IsKeyMap(keyMap, keys) && Fresh(keyMap, keys) && Fresh(keyMap, {taint.key})
    requires tol.key != "" ==> tol.key in keys
    ensures Tolerates(RenamedToleration(tol, keyMap), RenamedTaint(taint, keyMap)) <==> Tolerates(tol, taint)
  {
    NewKeysStay(keyMap, keys);
  }

  // ---------------------------------------------------------------------------
  // Node affinity
  // ---------------------------------------------------------------------------

  /** A match-field requirement that looks at the node's name. */
  predicate ReadsName(r: Requirement) {
    r.key == "metadata.name" && (r.op.In? || r.op.NotIn?)
  }

  /** The match fields of a term take or refuse a node alike under both names. */
  ghost predicate FieldsStable(t: NodeTerm, name: string, name': string) {
    AllFieldsMatch(t.matchFields, name) <==> AllFieldsMatch(t.matchFields, name')
  }

  lemma FieldKeyStays(r: Requirement, keyMap: StringMap, keys: set<string>)
    requires IsKeyMap(keyMap, keys)
    ensures RenamedRequirement(r, keyMap).key == "metadata.name" <==> r.key == "metadata.name"
  {
    if r.key in keyMap {
      var id :| 0 <= id && keyMap[r.key] == KeyName(id);
      assert KeyName(id)[0] == 's' && "metadata.name"[0] == 'm';
      MetadataNameStays();
    }
  }

  lemma MetadataNameStays()
    ensures !Removable("metadata.name")
  {
    var k := "metadata.name";
    assert k[0] == 'm';
    forall i | 0 <= i < |REMOVE_PREFIXES| ensures !(REMOVE_PREFIXES[i] <= k) {
      PrefixHead(i);
    }
  }

  lemma FieldsMatchSame(fields: seq<Requirement>, name: string, keyMap: StringMap, keys: set<string>)
    requires IsKeyMap(keyMap, keys)
    ensures AllFieldsMatch(RenamedRequirements(fields, keyMap), name) <==> AllFieldsMatch(fields, name)
  {
    var fields' := RenamedRequirements(fields, keyMap);
    forall i | 0 <= i < |fields| ensures FieldMatches(fields'[i], name) <==> FieldMatches(fields[i], name) {
      FieldKeyStays(fields[i], keyMap, keys);
    }
  }

  lemma NodeTermPreserved(t: NodeTerm, node: Node, node': Node, keyMap: StringMap, keys: set<string>, cmp: Compare)
    requires Unused(keyMap, keys, node.labels) && RequirementKeys(t.matchExpressions) <= keys
    requires node'.labels == RenamedMap(node.labels, keyMap) && FieldsStable(t, node.name, node'.name)
    ensures NodeTermMatches(RenamedNodeTerm(t, keyMap), node', cmp) <==> NodeTermMatches(t, node, cmp)
  {
    ReqsPreserved(t.matchExpressions, node.labels, keyMap, keys, cmp);
    FieldsMatchSame(t.matchFields, node'.name, keyMap, keys);
  }

  ghost predicate AllFieldsStable(terms: seq<NodeTerm>, name: string, name': string) {
    forall i :: 0 <= i < |terms| ==> FieldsStable(terms[i], name, name')
  }

  lemma TermsPreserved(
    terms: seq<NodeTerm>, node: Node, node': Node, keyMap: StringMap, keys: set<string>, cmp: Compare)
    requires Unused(keyMap, keys, node.labels) && NodeTermKeys(terms) <= keys
    requires node'.labels == RenamedMap(node.labels, keyMap) && AllFieldsStable(terms, node.name, node'.name)
    ensures var terms' := RenamedNodeTerms(terms, keyMap);
      forall i :: 0 <= i < |terms| ==>
        (NodeTermMatches(terms'[i], node', cmp) <==> NodeTermMatches(terms[i], node, cmp))
  {
    var terms' := RenamedNodeTerms(terms, keyMap);
    forall i | 0 <= i < |terms|
      ensures NodeTermMatches(terms'[i], node', cmp) <==> NodeTermMatches(terms[i], node, cmp)
    {
      forall k | k in RequirementKeys(terms[i].matchExpressions) ensures k in keys {
        assert terms[i] in terms && k in OneNodeTermKeys(terms[i]) && k in NodeTermKeys(terms);
      }
      NodeTermPreserved(terms[i], node, node', keyMap, keys, cmp);
    }
  }

  // ---------------------------------------------------------------------------
  // Names
  // ---------------------------------------------------------------------------

  ghost predicate DistinctNames(nodes: seq<Node>) {
    forall i, j :: 0 <= i < j < |nodes| ==> nodes[i].name != nodes[j].name
  }

  lemma {:induction false} NodeNamesAt(nodes: seq<Node>)
    requires DistinctNames(nodes)
    ensures forall i: nat :: i < |nodes| ==>
      nodes[i].name in NodeNames(nodes) && NodeNames(nodes)[nodes[i].name] == NodeName(i)
    ensures forall k :: k in NodeNames(nodes) ==> exists i: nat :: i < |nodes| && nodes[i].name == k
  {
    if nodes != [] {
      var n := |nodes| - 1;
      NodeNamesAt(nodes[..n]);
      forall i: nat | i < |nodes|
        ensures nodes[i].name in NodeNames(nodes) && NodeNames(nodes)[nodes[i].name] == NodeName(i)
      {
        if i < n {
          assert nodes[..n][i] == nodes[i];
        }
      }
      forall k | k in NodeNames(nodes) ensures exists i: nat :: i < |nodes| && nodes[i].name == k {
        if k != nodes[n].name {
          var i: nat :| i < n && nodes[..n][i].name == k;
          assert nodes[i].name == k;
        }
      }
    }
  }

  lemma NodeNameInjective(i: nat, j: nat)
    requires NodeName(i) == NodeName(j)
    ensures i == j
  {
    PrefixedInjective("node-", i, j);
  }

  /** The nodes of the snapshot that `values` name. */
  ghost function NamedBefore(nodes: seq<Node>, values: seq<string>): set<nat> {
    set n: nat | n < |nodes| && nodes[n].name in values
  }

  /** The nodes that `values` name once nodes are called `node-<i>`. */
  ghost function NamedAfter(nodes: seq<Node>, values: seq<string>): set<nat> {
    set n: nat | n < |nodes| && NodeName(n) in values
  }

  ghost predicate FieldKept(r: Requirement, nodes: seq<Node>, n: nat)
    requires n < |nodes|
  {
    FieldMatches(r, Renamed(NodeNames(nodes), nodes[n].name)) <==> FieldMatches(r, nodes[n].name)
  }

  /** Node names in match fields are not rewritten.  Such a requirement keeps its verdict on every
      node of the snapshot if and only if its values name the same nodes by old and new names. */
  lemma FieldPreservedIff(r: Requirement, nodes: seq<Node>)
    requires DistinctNames(nodes)
    ensures (forall n: nat :: n < |nodes| ==> FieldKept(r, nodes, n)) <==>
      (ReadsName(r) ==> NamedBefore(nodes, r.values) == NamedAfter(nodes, r.values))
  {
    var before, after := NamedBefore(nodes, r.values), NamedAfter(nodes, r.values);
    NodeNamesAt(nodes);
    forall n: nat | n < |nodes| ensures FieldKept(r, nodes, n) <==> (ReadsName(r) ==> (n in before <==> n in after)) {
      assert Renamed(NodeNames(nodes), nodes[n].name) == NodeName(n);
    }
    if forall n: nat :: n < |nodes| ==> (n in before <==> n in after) {
      assert before == after;
    }
  }

  lemma NamesNoneIff(nodes: seq<Node>, values: seq<string>)
    requires DistinctNames(nodes)
    ensures NamedBefore(nodes, values) == {} <==> forall v :: v in values ==> v !in NodeNames(nodes)
  {
    NodeNamesAt(nodes);
    if n :| n in NamedBefore(nodes, values) {
      assert nodes[n].name in values && nodes[n].name in NodeNames(nodes);
    }
    if v :| v in values && v in NodeNames(nodes) {
      var n: nat :| n < |nodes| && nodes[n].name == v;
      assert n in NamedBefore(nodes, values);
    }
  }

  /** If no value is the new name of a node, that means naming no node of the snapshot. */
  lemma FieldWithoutNewNamesIff(r: Requirement, nodes: seq<Node>)
    requires DistinctNames(nodes) && ReadsName(r) && forall n: nat :: n < |nodes| ==> NodeName(n) !in r.values
    ensures (forall n: nat :: n < |nodes| ==> FieldKept(r, nodes, n)) <==>
      forall v :: v in r.values ==> v !in NodeNames(nodes)
  {
    FieldPreservedIff(r, nodes);
    assert NamedAfter(nodes, r.values) == {};
    NamesNoneIff(nodes, r.values);
  }

  /** The nodes of the snapshot that match fields take, by old names and by new ones. */
  ghost function TakenBefore(nodes: seq<Node>, fields: seq<Requirement>): set<nat> {
    set n: nat | n < |nodes| && AllFieldsMatch(fields, nodes[n].name)
  }

  ghost function TakenAfter(nodes: seq<Node>, fields: seq<Requirement>): set<nat> {
    set n: nat | n < |nodes| && AllFieldsMatch(fields, NodeName(n))
  }

  lemma TakesSameIff(nodes: seq<Node>, t: NodeTerm)
    ensures TakenBefore(nodes, t.matchFields) == TakenAfter(nodes, t.matchFields) <==>
      forall n: nat :: n < |nodes| ==> FieldsStable(t, nodes[n].name, NodeName(n))
  {
    var before, after := TakenBefore(nodes, t.matchFields), TakenAfter(nodes, t.matchFields);
    forall n: nat | n < |nodes| ensures FieldsStable(t, nodes[n].name, NodeName(n)) <==> (n in before <==> n in after) {
    }
    if forall n: nat :: n < |nodes| ==> FieldsStable(t, nodes[n].name, NodeName(n)) {
      assert before == after;
    }
  }

  /** Match fields whose values name the same nodes by old and by new names take the same nodes. */
  lemma SameNamesTakeSame(nodes: seq<Node>, fields: seq<Requirement>)
    requires forall i :: 0 <= i < |fields| && ReadsName(fields[i]) ==>
      NamedBefore(nodes, fields[i].values) == NamedAfter(nodes, fields[i].values)
    ensures TakenBefore(nodes, fields) == TakenAfter(nodes, fields)
  {
    forall n: nat, i | n < |nodes| && 0 <= i < |fields|
      ensures FieldMatches(fields[i], nodes[n].name) <==> FieldMatches(fields[i], NodeName(n))
    {
      assert n in NamedBefore(nodes, fields[i].values) <==> nodes[n].name in fields[i].values;
      assert n in NamedAfter(nodes, fields[i].values) <==> NodeName(n) in fields[i].values;
    }
    TakesSameIff(nodes, NodeTerm([], fields));
  }

  /** A pod is on the renamed node exactly when it was on the node: for every node of the
      snapshot if and only if the pod names a node of the snapshot, or no new node name. */
  lemma PlacementPreservedIff(nodes: seq<Node>, nodeName: string)
    requires DistinctNames(nodes)
    ensures (forall j: nat :: j < |nodes| ==>
      (Renamed(NodeNames(nodes), nodeName) == NodeName(j) <==> nodeName == nodes[j].name)) <==>
      ((exists j: nat :: j < |nodes| && nodeName == nodes[j].name) ||
        (forall j: nat :: j < |nodes| ==> nodeName != NodeName(j)))
  {
    NodeNamesAt(nodes);
    if i: nat :| i < |nodes| && nodeName == nodes[i].name {
      forall j: nat | j < |nodes|
        ensures Renamed(NodeNames(nodes), nodeName) == NodeName(j) <==> nodeName == nodes[j].name
      {
        if NodeName(i) == NodeName(j) {
          NodeNameInjective(i, j);
        }
      }
    }
  }
}
