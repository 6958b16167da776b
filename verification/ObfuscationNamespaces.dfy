/** Namespace selectors.  Obfuscation rewrites the keys of a selector, but namespaces are not part
    of a snapshot and keep their labels: exactly when the verdicts are kept all the same. */
module ObfuscationNamespaces {
  import opened ApiObjects
  import opened ObfuscationSpec
  import opened SchedulingSemantics
  import opened ObfuscationTheorems

  /** Labels that are not rewritten say the same of a key under its new name as under its old one. */
  predicate ReadsAlike(labels: StringMap, keyMap: StringMap, k: string) {
    var k' := Renamed(keyMap, k);
    (k in labels <==> k' in labels) && (k in labels ==> labels[k] == labels[k'])
  }

  ghost predicate AllReadAlike(labels: StringMap, keyMap: StringMap, ks: set<string>) {
    forall k :: k in ks ==> ReadsAlike(labels, keyMap, k)
  }

  ghost predicate SelectorKept(sel: Option<LabelSelector>, labels: StringMap, keyMap: StringMap, cmp: Compare)
    requires Injective(keyMap)
  {
    SelectorMatches(RenamedSelector(sel, keyMap), labels, cmp) <==> SelectorMatches(sel, labels, cmp)
  }

  lemma AlikeMapMatches(wanted: StringMap, labels: StringMap, keyMap: StringMap, keys: set<string>)
    requires IsKeyMap(keyMap, keys) && Fresh(keyMap, keys) && wanted.Keys <= keys
    requires AllReadAlike(labels, keyMap, wanted.Keys)
    ensures MapMatches(RenamedMap(wanted, keyMap), labels) <==> MapMatches(wanted, labels)
  {
    var wanted' := RenamedMap(wanted, keyMap);
    forall k | k in wanted ensures ReadsSame(wanted, keyMap, k) && ReadsAlike(labels, keyMap, k) {
      KeyReadsSame(wanted, keyMap, keys, k);
    }
    if MapMatches(wanted, labels) {
      forall g | g in wanted' ensures g in labels && labels[g] == wanted'[g] {
        RenamedMapAt(wanted, keyMap, g);
        var k :| k in wanted && g == Renamed(keyMap, k);
        assert ReadsSame(wanted, keyMap, k) && ReadsAlike(labels, keyMap, k);
      }
    }
    if MapMatches(wanted', labels) {
      forall k | k in wanted ensures k in labels && labels[k] == wanted[k] {
        assert ReadsSame(wanted, keyMap, k) && ReadsAlike(labels, keyMap, k);
      }
    }
  }

  lemma AlikeReqsMatch(reqs: seq<Requirement>, labels: StringMap, keyMap: StringMap, cmp: Compare)
    requires AllReadAlike(labels, keyMap, RequirementKeys(reqs))
    ensures AllReqsMatch(RenamedRequirements(reqs, keyMap), labels, cmp) <==> AllReqsMatch(reqs, labels, cmp)
  {
    var reqs' := RenamedRequirements(reqs, keyMap);
    forall i | 0 <= i < |reqs| ensures ReqMatches(reqs'[i], labels, cmp) <==> ReqMatches(reqs[i], labels, cmp) {
      assert reqs[i].key in RequirementKeys(reqs);
    }
  }

  /** A selector keeps its verdict on a namespace that says the same of its keys and their new names. */
  lemma AlikeSelectorKept(
    sel: Option<LabelSelector>, labels: StringMap, keyMap: StringMap, keys: set<string>, cmp: Compare)
    requires IsKeyMap(keyMap, keys) && Fresh(keyMap, keys) && SelectorKeys(sel) <= keys
    requires AllReadAlike(labels, keyMap, SelectorKeys(sel))
    ensures SelectorKept(sel, labels, keyMap, cmp)
  {
    if sel.Some? {
      AlikeMapMatches(sel.value.matchLabels, labels, keyMap, keys);
      AlikeReqsMatch(sel.value.matchExpressions, labels, keyMap, cmp);
    }
  }

  const EVERYTHING := LabelSelector(map[], [])

  lemma EverythingStays(keyMap: StringMap)
    requires Injective(keyMap)
    ensures RenamedSelector(Some(EVERYTHING), keyMap) == Some(EVERYTHING)
  {
    NothingToRename(map[], keyMap);
    assert RenamedRequirements([], keyMap) == [];
  }

  /** The selector that tells a key from its new name: it asks for the value the namespace has, or
      else for the key as such. */
  ghost function Telltale(labels: StringMap, k: string): LabelSelector {
    LabelSelector(map[], [if k in labels then Requirement(k, In, [labels[k]]) else Requirement(k, Exists, [])])
  }

  lemma TelltaleKeys(labels: StringMap, k: string)
    ensures SelectorKeys(Some(Telltale(labels, k))) == {k}
  {
    assert RequirementKeys(Telltale(labels, k).matchExpressions) == {k};
  }

  lemma OneRequirement(r: Requirement, labels: StringMap, cmp: Compare)
    ensures AllReqsMatch([r], labels, cmp) <==> ReqMatches(r, labels, cmp)
  {
    assert [r][0] == r;
  }

  /** Its verdict changes on every namespace that says something else of the new name. */
  lemma UnlikeIsLost(labels: StringMap, keyMap: StringMap, k: string, cmp: Compare)
    requires Injective(keyMap) && !ReadsAlike(labels, keyMap, k)
    ensures !SelectorKept(Some(Telltale(labels, k)), labels, keyMap, cmp)
  {
    var r := Telltale(labels, k).matchExpressions[0];
    NothingToRename(map[], keyMap);
    assert RenamedRequirements([r], keyMap) == [RenamedRequirement(r, keyMap)];
    OneRequirement(r, labels, cmp);
    OneRequirement(RenamedRequirement(r, keyMap), labels, cmp);
  }

  /** All selectors over some scheduling keys keep their verdicts on a namespace if and only if its
      labels say the same of each of these keys as of its new name: the namespace has both or
      neither, and if both, with one value. */
  lemma SelectorsKeptIff(labels: StringMap, keyMap: StringMap, keys: set<string>, ks: set<string>, cmp: Compare)
    requires IsKeyMap(keyMap, keys) && Fresh(keyMap, keys) && ks <= keys
    ensures (forall sel: LabelSelector :: SelectorKeys(Some(sel)) <= ks ==>
        SelectorKept(Some(sel), labels, keyMap, cmp)) <==>
      AllReadAlike(labels, keyMap, ks)
  {
    if AllReadAlike(labels, keyMap, ks) {
      forall sel: LabelSelector | SelectorKeys(Some(sel)) <= ks ensures SelectorKept(Some(sel), labels, keyMap, cmp) {
        AlikeSelectorKept(Some(sel), labels, keyMap, keys, cmp);
      }
    } else {
      var k :| k in ks && !ReadsAlike(labels, keyMap, k);
      TelltaleKeys(labels, k);
      UnlikeIsLost(labels, keyMap, k, cmp);
    }
  }
}
