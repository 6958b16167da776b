/** The names in an obfuscated snapshot: of nodes, of pods, of their owners. */
module ObfuscationNames {
  import opened ApiObjects
  import opened Decimal
  import opened ObfuscationSpec

  // ---------------------------------------------------------------------------
  // Nodes
  // ---------------------------------------------------------------------------

  /** The last node of a name gives its number to all nodes of that name. */
  lemma {:induction false} NumberOfLastNode(nodes: seq<Node>, i: nat)
    requires i < |nodes| && forall j :: i < j < |nodes| ==> nodes[j].name != nodes[i].name
    ensures nodes[i].name in NodeNames(nodes) && NodeNames(nodes)[nodes[i].name] == "node-" + Itoa(i)
  {
    var n := |nodes| - 1;
    if i < n {
      assert nodes[..n][i] == nodes[i];
      NumberOfLastNode(nodes[..n], i);
    }
  }

  lemma NodeNameAfterwards(snap: Snapshot, keyMap: StringMap, n: nat, i: nat)
    requires Injective(keyMap) && NodesNamed(snap.nodes, NodeNames(snap.nodes))
    requires n <= i < |snap.nodes| && snap.nodes[n].name == snap.nodes[i].name
    requires forall j :: i < j < |snap.nodes| ==> snap.nodes[j].name != snap.nodes[i].name
    ensures Obfuscated(snap, keyMap).nodes[n].name == "node-" + Itoa(i)
  {
    NumberOfLastNode(snap.nodes, i);
  }

  // ---------------------------------------------------------------------------
  // Pods
  // ---------------------------------------------------------------------------

  predicate OfDaemonSet(p: Pod) {
    p.owners != [] && p.owners[0].kind == "DaemonSet"
  }

  lemma NoDashInNumber(i: nat)
    ensures '-' !in Itoa(i)
  {
    ItoaReadsBack(i);
  }

  /** The name of a pod tells its place in the snapshot and whether a daemon set owns it, and
      nothing else; so the names are different. */
  lemma PodNamesTellApart(p: Pod, i: nat, q: Pod, j: nat)
    ensures PodName(p, i) == PodName(q, j) <==> i == j && (OfDaemonSet(p) <==> OfDaemonSet(q))
    ensures PodName(p, i)[..4] == "pod-"
    ensures OfDaemonSet(p) <==> |PodName(p, i)| > 3 && PodName(p, i)[|PodName(p, i)| - 3..] == "-ds"
  {
    DaemonSetBySuffix(p, i);
    DaemonSetBySuffix(q, j);
    if PodName(p, i) == PodName(q, j) {
      PrefixedInjective("pod-", i, j);
    }
  }

  lemma DaemonSetBySuffix(p: Pod, i: nat)
    ensures |PodName(p, i)| >= 5 && PodName(p, i)[..4] == "pod-"
    ensures OfDaemonSet(p) <==> PodName(p, i)[|PodName(p, i)| - 3..] == "-ds"
    ensures OfDaemonSet(p) ==> PodName(p, i)[..|PodName(p, i)| - 3] == "pod-" + Itoa(i)
    ensures !OfDaemonSet(p) ==> PodName(p, i) == "pod-" + Itoa(i)
  {
    ItoaReadsBack(i);
    var name := PodName(p, i);
    if OfDaemonSet(p) {
      assert name == "pod-" + Itoa(i) + "-ds";
    } else {
      assert name == "pod-" + Itoa(i) && name[|name| - 1] == Itoa(i)[|Itoa(i)| - 1];
    }
  }

  // ---------------------------------------------------------------------------
  // Owners
  // ---------------------------------------------------------------------------

  ghost function OwnerSet(owners: seq<Owner>): set<string> {
    set o | o in owners :: o.name
  }

  /** Numbered from zero, each name with a number of its own. */
  ghost predicate Numbered(names: StringMap) {
    && (forall k :: k in names ==> exists i: nat :: i < |names| && names[k] == OwnerName(i))
    && Injective(names)
  }

  ghost predicate Extends(names: StringMap, names': StringMap) {
    forall k :: k in names ==> k in names' && names'[k] == names[k]
  }

  lemma OneMoreOwnerNumbered(names: StringMap, name: string)
    requires Numbered(names) && name !in names
    ensures Numbered(names[name := OwnerName(|names|)])
  {
    var names' := names[name := OwnerName(|names|)];
    assert |names'| == |names| + 1;
    forall k | k in names ensures names[k] != OwnerName(|names|) {
      var i: nat :| i < |names| && names[k] == OwnerName(i);
      if OwnerName(i) == OwnerName(|names|) {
        PrefixedInjective("owner-", i, |names|);
      }
    }
    forall k | k in names' ensures exists i: nat :: i < |names'| && names'[k] == OwnerName(i) {
      if k != name {
        var i: nat :| i < |names| && names[k] == OwnerName(i);
        assert i < |names'| && names'[k] == OwnerName(i);
      }
    }
  }

  lemma OwnerSetUnfolds(owners: seq<Owner>)
    requires owners != []
    ensures OwnerSet(owners) == {owners[0].name} + OwnerSet(owners[1..])
  {
    assert owners == [owners[0]] + owners[1..];
  }

  function AddOwner(names: StringMap, name: string): StringMap {
    if name in names then names else names[name := OwnerName(|names|)]
  }

  lemma {:induction false} AddOwnersKeys(names: StringMap, owners: seq<Owner>)
    ensures AddOwners(names, owners).Keys == names.Keys + OwnerSet(owners)
    decreases |owners|
  {
    if owners != [] {
      OwnerSetUnfolds(owners);
      AddOwnersKeys(AddOwner(names, owners[0].name), owners[1..]);
    }
  }

  lemma {:induction false} AddOwnersExtends(names: StringMap, owners: seq<Owner>)
    ensures Extends(names, AddOwners(names, owners))
    decreases |owners|
  {
    if owners != [] {
      AddOwnersExtends(AddOwner(names, owners[0].name), owners[1..]);
    }
  }

  lemma {:induction false} AddOwnersKeepsNumbered(names: StringMap, owners: seq<Owner>)
    requires Numbered(names)
    ensures Numbered(AddOwners(names, owners))
    decreases |owners|
  {
    if owners != [] {
      if owners[0].name !in names {
        OneMoreOwnerNumbered(names, owners[0].name);
      }
      AddOwnersKeepsNumbered(AddOwner(names, owners[0].name), owners[1..]);
    }
  }

  lemma AddOwnersNumbers(names: StringMap, owners: seq<Owner>)
    requires Numbered(names)
    ensures var names' := AddOwners(names, owners);
      Numbered(names') && Extends(names, names') && names'.Keys == names.Keys + OwnerSet(owners)
  {
    AddOwnersKeys(names, owners);
    AddOwnersExtends(names, owners);
    AddOwnersKeepsNumbered(names, owners);
  }

  ghost function OwnersOfAll(pods: seq<Pod>): set<string> {
    set p, k | p in pods && k in OwnerSet(p.owners) :: k
  }

  lemma {:induction false} OwnerNamesNumber(pods: seq<Pod>)
    ensures Numbered(OwnerNames(pods)) && OwnerNames(pods).Keys == OwnersOfAll(pods)
  {
    if pods != [] {
      var n := |pods| - 1;
      OwnerNamesNumber(pods[..n]);
      AddOwnersNumbers(OwnerNames(pods[..n]), pods[n].owners);
      assert pods == pods[..n] + [pods[n]];
    }
  }

  /** The number given to a name does not change when more pods follow. */
  lemma {:induction false} OwnerNamesExtend(pods: seq<Pod>, n: nat)
    requires n <= |pods|
    ensures Extends(OwnerNames(pods[..n]), OwnerNames(pods))
    decreases |pods|
  {
    if n < |pods| {
      var last := |pods| - 1;
      OwnerNamesExtend(pods[..last], n);
      assert pods[..last][..n] == pods[..n];
      OwnerNamesNumber(pods[..last]);
      AddOwnersNumbers(OwnerNames(pods[..last]), pods[last].owners);
    } else {
      assert pods[..n] == pods;
    }
  }

  lemma {:induction false} AddOwnersInParts(names: StringMap, a: seq<Owner>, b: seq<Owner>)
    ensures AddOwners(names, a + b) == AddOwners(AddOwners(names, a), b)
    decreases |a|
  {
    if a == [] {
      assert a + b == b;
    } else {
      assert (a + b)[1..] == a[1..] + b;
      AddOwnersInParts(if a[0].name in names then names else names[a[0].name := OwnerName(|names|)], a[1..], b);
    }
  }

  /** The owners that come before owner `o` of pod `p`. */
  ghost function OwnersBefore(pods: seq<Pod>, p: nat, o: nat): set<string>
    requires p < |pods| && o < |pods[p].owners|
  {
    OwnersOfAll(pods[..p]) + OwnerSet(pods[p].owners[..o])
  }

  /** An owner's number is the number of different owners that come before it. */
  lemma OwnerNumberCountsEarlier(pods: seq<Pod>, p: nat, o: nat)
    requires p < |pods| && o < |pods[p].owners|
    requires pods[p].owners[o].name !in OwnersBefore(pods, p, o)
    ensures pods[p].owners[o].name in OwnerNames(pods)
    ensures OwnerNames(pods)[pods[p].owners[o].name] == "owner-" + Itoa(|OwnersBefore(pods, p, o)|)
  {
    var owners := pods[p].owners;
    OwnerNamesNumber(pods[..p]);
    var names := OwnerNames(pods[..p]);
    AddOwnersNumbers(names, owners[..o]);
    var before := AddOwners(names, owners[..o]);
    assert before.Keys == OwnersBefore(pods, p, o) && |before| == |before.Keys|;
    NextOwnerAdded(names, owners, o);
    assert pods[..p + 1][..p] == pods[..p];
    OwnerNamesExtend(pods, p + 1);
  }

  lemma NextOwnerAdded(names: StringMap, owners: seq<Owner>, o: nat)
    requires o < |owners| && owners[o].name !in AddOwners(names, owners[..o])
    ensures var before := AddOwners(names, owners[..o]);
      Extends(before[owners[o].name := OwnerName(|before|)], AddOwners(names, owners))
  {
    var before := AddOwners(names, owners[..o]);
    assert owners == owners[..o] + owners[o..];
    AddOwnersInParts(names, owners[..o], owners[o..]);
    AddOwnersExtends(before[owners[o].name := OwnerName(|before|)], owners[o..][1..]);
  }

  lemma OwnerIsNamed(pods: seq<Pod>, p: nat, i: nat)
    requires p < |pods| && i < |pods[p].owners|
    ensures pods[p].owners[i].name in OwnersOfAll(pods)
  {
    assert pods[p].owners[i] in pods[p].owners && pods[p].owners[i].name in OwnerSet(pods[p].owners);
    assert pods[p] in pods;
  }

  /** Owner references keep their number and kinds; two of them have the same name afterwards exactly
      if they had before, and every name is a numbered one. */
  lemma OwnersAfterwards(snap: Snapshot, keyMap: StringMap, p: nat, i: nat, q: nat, j: nat)
    requires Injective(keyMap) && NodesNamed(snap.nodes, NodeNames(snap.nodes))
    requires p < |snap.pods| && i < |snap.pods[p].owners| && q < |snap.pods| && j < |snap.pods[q].owners|
    ensures var a, b := Obfuscated(snap, keyMap).pods[p].owners, Obfuscated(snap, keyMap).pods[q].owners;
      |a| == |snap.pods[p].owners| && |b| == |snap.pods[q].owners| && a[i].kind == snap.pods[p].owners[i].kind &&
      (a[i].name == b[j].name <==> snap.pods[p].owners[i].name == snap.pods[q].owners[j].name) &&
      exists n: nat :: n < |OwnersOfAll(snap.pods)| && a[i].name == OwnerName(n)
  {
    OwnerNamesNumber(snap.pods);
    var names := OwnerNames(snap.pods);
    assert |names| == |names.Keys|;
    OwnerIsNamed(snap.pods, p, i);
    OwnerIsNamed(snap.pods, q, j);
  }
}
