/** The obfuscator's loops: collecting keys, numbering them, rewriting the snapshot. */
module ObfuscationLoops {
  import opened ApiObjects
  import opened Decimal
  import opened ObfuscationSpec
  import opened ObfuscationTheorems

  // ---------------------------------------------------------------------------
  // Maps
  // ---------------------------------------------------------------------------

  /** Numbers the removable keys in whatever order the set is visited. */
  method BuildSchedulingKeyMap(keys: set<string>) returns (keyMap: StringMap)
    ensures IsKeyMap(keyMap, keys)
    ensures Numbered(keyMap, |keyMap|)
  {
    keyMap := map[];
    var id: nat := 0;
    var rest := keys;
    while rest != {}
      invariant rest <= keys
      invariant keyMap.Keys == set k | k in keys && k !in rest && Removable(k)
      invariant Numbered(keyMap, id) && id == |keyMap|
      invariant Injective(keyMap)
      decreases rest
    {
      var k :| k in rest;
      rest := rest - {k};
      if Removable(k) {
        OneMoreKey(keyMap, k, id);
        keyMap := keyMap[k := KeyName(id)];
        id := id + 1;
      }
    }
  }

  /** Every new key carries a number below `id`. */
  ghost predicate Numbered(keyMap: StringMap, id: nat) {
    forall k :: k in keyMap ==> exists i: nat :: i < id && keyMap[k] == KeyName(i)
  }

  lemma OneMoreKey(keyMap: StringMap, k: string, id: nat)
    requires Numbered(keyMap, id) && Injective(keyMap) && k !in keyMap
    ensures Injective(keyMap[k := KeyName(id)]) && Numbered(keyMap[k := KeyName(id)], id + 1)
  {
    forall j | j in keyMap ensures keyMap[j] != KeyName(id) {
      var i: nat :| i < id && keyMap[j] == KeyName(i);
      if KeyName(i) == KeyName(id) {
        PrefixedInjective(KEY_PREFIX, i, id);
      }
    }
  }

  /** New keys are not old keys, and no two old keys share one. */
  ghost predicate Apart(keyMap: StringMap) {
    Injective(keyMap) && forall j :: j in keyMap ==> keyMap[j] !in keyMap
  }

  /** The map after the deletions, with the keys in `done` renamed. */
  ghost function Partly(m: StringMap, keyMap: StringMap, done: set<string>): StringMap
    requires Injective(keyMap) && done <= m.Keys * keyMap.Keys
  {
    (map k | k in m && k !in done && (k in keyMap || !Removable(k)) :: m[k]) + (map k | k in done :: keyMap[k] := m[k])
  }

  lemma PartlyAt(m: StringMap, keyMap: StringMap, done: set<string>, g: string)
    requires Injective(keyMap) && done <= m.Keys * keyMap.Keys
    ensures g in Partly(m, keyMap, done) <==>
      (exists j :: j in done && keyMap[j] == g) || (g in m && g !in done && (g in keyMap || !Removable(g)))
    ensures forall j :: j in done && keyMap[j] == g ==> Partly(m, keyMap, done)[g] == m[j]
    ensures g in Partly(m, keyMap, done) && !(exists j :: j in done && keyMap[j] == g) ==>
      Partly(m, keyMap, done)[g] == m[g]
  {
  }

  lemma OneMoreRenamedAt(m: StringMap, keyMap: StringMap, done: set<string>, k: string, more: set<string>, g: string)
    requires Apart(keyMap) && done <= m.Keys * keyMap.Keys && k in m && k in keyMap && k !in done && more == done + {k}
    ensures g in Partly(m, keyMap, more) <==> g == keyMap[k] || (g != k && g in Partly(m, keyMap, done))
    ensures g in Partly(m, keyMap, more) ==>
      Partly(m, keyMap, more)[g] == if g == keyMap[k] then m[k] else Partly(m, keyMap, done)[g]
  {
    PartlyAt(m, keyMap, done, g);
    PartlyAt(m, keyMap, more, g);
    assert keyMap[k] !in keyMap;
  }

  lemma OneMoreRenamed(
    m: StringMap, keyMap: StringMap, done: set<string>, k: string, more: set<string>, before: StringMap)
    requires Apart(keyMap) && done <= m.Keys * keyMap.Keys && k in m && k in keyMap && k !in done && more == done + {k}
    requires before == Partly(m, keyMap, done)
    ensures Partly(m, keyMap, more) == (before - {k})[keyMap[k] := m[k]]
  {
    var after := Partly(m, keyMap, more);
    forall g
      ensures g in after <==> g == keyMap[k] || (g != k && g in before)
      ensures g in after ==> after[g] == if g == keyMap[k] then m[k] else before[g]
    {
      OneMoreRenamedAt(m, keyMap, done, k, more, g);
    }
    SameEntries(after, before, k, keyMap[k], m[k]);
  }

  lemma SameEntries(after: StringMap, before: StringMap, k: string, k': string, v: string)
    requires forall g :: g in after <==> g == k' || (g != k && g in before)
    requires forall g :: g in after ==> after[g] == if g == k' then v else before[g]
    ensures after == (before - {k})[k' := v]
  {
    var b := (before - {k})[k' := v];
    assert forall g :: g in after <==> g in b;
  }

  lemma AllRenamed(m: StringMap, keyMap: StringMap)
    requires Injective(keyMap)
    ensures Partly(m, keyMap, m.Keys * keyMap.Keys) == RenamedMap(m, keyMap)
  {
    var a, b := Partly(m, keyMap, m.Keys * keyMap.Keys), RenamedMap(m, keyMap);
    forall g ensures (g in a <==> g in b) && (g in a ==> a[g] == b[g]) {
      PartlyAt(m, keyMap, m.Keys * keyMap.Keys, g);
      RenamedMapAt(m, keyMap, g);
    }
    assert a == b;
  }

  /** Which keys of a map are renamed and which deleted, found in one pass over the map. */
  method Classify(m: StringMap, keyMap: StringMap) returns (renames: set<string>, deletes: set<string>)
    ensures renames == m.Keys * keyMap.Keys
    ensures deletes == set k | k in m && k !in keyMap && Removable(k)
  {
    renames, deletes := {}, {};
    var rest := m.Keys;
    while rest != {}
      invariant rest <= m.Keys
      invariant renames == (m.Keys - rest) * keyMap.Keys
      invariant deletes == set k | k in m && k !in rest && k !in keyMap && Removable(k)
      decreases rest
    {
      var k :| k in rest;
      rest := rest - {k};
      if k in keyMap {
        renames := renames + {k};
      } else if Removable(k) {
        deletes := deletes + {k};
      }
    }
  }

  method DeleteKeys(m: StringMap, deletes: set<string>) returns (m': StringMap)
    ensures m' == m - deletes
  {
    m' := m;
    var rest := deletes;
    while rest != {}
      invariant rest <= deletes
      invariant m' == m - (deletes - rest)
      decreases rest
    {
      var d :| d in rest;
      rest := rest - {d};
      m' := m' - {d};
    }
  }

  method RenameKeys(m: StringMap, kept: StringMap, keyMap: StringMap, renames: set<string>) returns (m': StringMap)
    requires Apart(keyMap) && kept == Partly(m, keyMap, {}) && renames == m.Keys * keyMap.Keys
    ensures m' == RenamedMap(m, keyMap)
  {
    m' := kept;
    ghost var done: set<string> := {};
    var rest := renames;
    while rest != {}
      invariant rest <= renames && done == renames - rest
      invariant m' == Partly(m, keyMap, done)
      decreases rest
    {
      var k :| k in rest;
      OneMoreRenamed(m, keyMap, done, k, done + {k}, m');
      done := done + {k};
      rest := rest - {k};
      m' := (m' - {k})[keyMap[k] := m[k]];
    }
    assert done == renames;
    AllRenamed(m, keyMap);
  }

  lemma DeletedIsPartly(m: StringMap, keyMap: StringMap, deletes: set<string>)
    requires Injective(keyMap) && deletes == set k | k in m && k !in keyMap && Removable(k)
    ensures m - deletes == Partly(m, keyMap, {})
  {
    var a, b := m - deletes, Partly(m, keyMap, {});
    forall g ensures (g in a <==> g in b) && (g in a ==> a[g] == b[g]) {
      PartlyAt(m, keyMap, {}, g);
    }
  }

  /** The deletions first, then the renamings, each in an arbitrary order. */
  method ObfuscateStringMap(m: StringMap, keyMap: StringMap) returns (m': StringMap)
    requires Apart(keyMap)
    ensures m' == RenamedMap(m, keyMap)
  {
    var renames, deletes := Classify(m, keyMap);
    m' := DeleteKeys(m, deletes);
    DeletedIsPartly(m, keyMap, deletes);
    m' := RenameKeys(m, m', keyMap, renames);
  }
}
