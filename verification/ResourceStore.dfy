/** The in-memory resource store: a cache and a version counter that it shares with the
    stores of other views. */
module ResourceStore {
  import opened ApiObjects
  import OverlaySpec
  import opened OverlayListing
  import opened OverlayContents

  class VersionCounter {
    var value: nat

    constructor ()
      ensures value == 0
    {
      value := 0;
    }

    method Next() returns (version: nat)
      modifies this
      ensures version == value == old(value) + 1
    {
      value := value + 1;
      version := value;
    }
  }

  /** `objs` lists every object of `m` once and nothing else. */
  ghost predicate Enumerates(objs: seq<Obj>, m: Contents) {
    if objs == [] then m == map[]
    else
      var n := |objs| - 1;
      objs[n].key in m && m[objs[n].key] == objs[n] && Enumerates(objs[..n], m - {objs[n].key})
  }

  /** The same, said about positions. */
  lemma {:induction false} EnumeratesOnce(objs: seq<Obj>, m: Contents)
    requires Enumerates(objs, m)
    ensures forall i :: 0 <= i < |objs| ==> objs[i].key in m && m[objs[i].key] == objs[i]
    ensures forall i, j :: 0 <= i < j < |objs| ==> objs[i].key != objs[j].key
    ensures forall k :: k in m ==> exists i :: 0 <= i < |objs| && objs[i].key == k
    decreases |objs|
  {
    if objs != [] {
      var n := |objs| - 1;
      var m1 := m - {objs[n].key};
      EnumeratesOnce(objs[..n], m1);
      forall i | 0 <= i < n ensures objs[i].key in m1 && m1[objs[i].key] == objs[i] {
        assert objs[..n][i] == objs[i];
      }
      forall i, j | 0 <= i < j < |objs| ensures objs[i].key != objs[j].key {
        if j < n {
          assert objs[..n][i] == objs[i] && objs[..n][j] == objs[j];
        }
      }
      forall k | k in m ensures exists i :: 0 <= i < |objs| && objs[i].key == k {
        if k != objs[n].key {
          assert k in m1;
          var i :| 0 <= i < n && objs[..n][i].key == k;
          assert objs[i].key == k;
        }
      }
    }
  }

  lemma {:induction false} EnumeratesAll(objs: seq<Obj>, m: Contents)
    requires Enumerates(objs, m)
    ensures |objs| == |m|
    decreases |objs|
  {
    if objs != [] {
      var n := |objs| - 1;
      var m1 := m - {objs[n].key};
      EnumeratesAll(objs[..n], m1);
      assert m == m1[objs[n].key := objs[n]];
    }
  }

  lemma EnumeratesOneMore(objs: seq<Obj>, m: Contents, o: Obj)
    requires Enumerates(objs, m) && o.key !in m
    ensures Enumerates(objs + [o], m[o.key := o])
  {
    assert (objs + [o])[..|objs|] == objs;
    assert m[o.key := o] - {o.key} == m;
  }

  lemma OneFewerLeft(m: Contents, rest: set<Key>, k: Key)
    requires k in rest
    ensures m - (rest - {k}) == if k in m then (m - rest)[k := m[k]] else m - rest
  {
  }

  lemma {:induction false} EnumeratesBoth(a: seq<Obj>, ma: Contents, b: seq<Obj>, mb: Contents)
    requires Enumerates(a, ma) && Enumerates(b, mb) && ma.Keys !! mb.Keys
    ensures Enumerates(a + b, ma + mb)
    decreases |b|
  {
    if b == [] {
      assert a + b == a && ma + mb == ma;
    } else {
      var n := |b| - 1;
      var k := b[n].key;
      EnumeratesBoth(a, ma, b[..n], mb - {k});
      assert (a + b)[..|a| + n] == a + b[..n];
      assert (ma + mb) - {k} == ma + (mb - {k});
    }
  }

  lemma EnumeratedMatches(objs: seq<Obj>, cache: Cache, c: Criteria)
    requires OverlaySpec.Keyed(cache) && Enumerates(objs, OwnMatches(cache, c))
    ensures forall o :: o in objs <==>
      o.key in cache && cache[o.key] == Live(o) &&
      (c.ns == "" || o.key.ns == c.ns) && o.key.name !in c.exclude && (c.names == {} || o.key.name in c.names) &&
      (c.selector.None? || c.selector.value(o.labels))
  {
    var m := OwnMatches(cache, c);
    EnumeratesOnce(objs, m);
    forall o: Obj | o.key in m && m[o.key] == o ensures o in objs {
      var i :| 0 <= i < |objs| && objs[i].key == o.key;
    }
  }

  /** The largest version among `objs`, or 0. */
  ghost function MaxVersion(objs: seq<Obj>): nat {
    if objs == [] then 0
    else
      var n := |objs| - 1;
      var m := MaxVersion(objs[..n]);
      if objs[n].version > m then objs[n].version else m
  }

  lemma MaxVersionOneMore(objs: seq<Obj>, o: Obj)
    ensures MaxVersion(objs + [o]) == if o.version > MaxVersion(objs) then o.version else MaxVersion(objs)
  {
    assert (objs + [o])[..|objs|] == objs;
  }

  lemma {:induction false} MaxVersionAttained(objs: seq<Obj>)
    ensures MaxVersion(objs) == 0 || exists i :: 0 <= i < |objs| && objs[i].version == MaxVersion(objs)
  {
    if objs != [] {
      var n := |objs| - 1;
      MaxVersionAttained(objs[..n]);
      if i :| 0 <= i < n && objs[..n][i].version == MaxVersion(objs[..n]) {
        assert objs[i].version == MaxVersion(objs[..n]);
      }
    }
  }

  lemma {:induction false} MaxVersionBounds(objs: seq<Obj>, bound: nat)
    ensures forall i :: 0 <= i < |objs| ==> objs[i].version <= MaxVersion(objs)
    ensures (forall i :: 0 <= i < |objs| ==> objs[i].version <= bound) ==> MaxVersion(objs) <= bound
  {
    if objs != [] {
      var n := |objs| - 1;
      MaxVersionBounds(objs[..n], bound);
      forall i | 0 <= i < n ensures objs[i].version <= MaxVersion(objs[..n]) {
        assert objs[..n][i] == objs[i];
      }
    }
  }

  ghost function KeySet(objs: seq<Obj>): set<Key> {
    set o | o in objs :: o.key
  }

  /** `objs` without those whose name is in `found`. */
  ghost function Without(objs: seq<Obj>, found: set<Key>): seq<Obj> {
    if objs == [] then []
    else
      var n := |objs| - 1;
      Without(objs[..n], found) + if objs[n].key in found then [] else [objs[n]]
  }

  /** Primary objects, preceded by the secondary ones whose name no primary object has. */
  method CombinePrimarySecondary(primary: seq<Obj>, secondary: seq<Obj>) returns (combined: seq<Obj>)
    ensures combined == Without(secondary, KeySet(primary)) + primary
  {
    var found: set<Key> := {};
    for i := 0 to |primary|
      invariant found == KeySet(primary[..i])
    {
      assert primary[..i + 1] == primary[..i] + [primary[i]];
      found := found + {primary[i].key};
    }
    assert primary[..|primary|] == primary;
    combined := [];
    for i := 0 to |secondary|
      invariant combined == Without(secondary[..i], found)
    {
      assert secondary[..i + 1][..i] == secondary[..i];
      if secondary[i].key !in found {
        combined := combined + [secondary[i]];
      }
    }
    assert secondary[..|secondary|] == secondary;
    combined := combined + primary;
  }

  lemma {:induction false} WithoutEnumerates(objs: seq<Obj>, m: Contents, found: set<Key>)
    requires Enumerates(objs, m)
    ensures Enumerates(Without(objs, found), m - found)
    decreases |objs|
  {
    if objs != [] {
      var n := |objs| - 1;
      var k := objs[n].key;
      WithoutEnumerates(objs[..n], m - {k}, found);
      if k in found {
        assert Without(objs, found) == Without(objs[..n], found);
        assert (m - {k}) - found == m - found;
      } else {
        EnumeratesOneMore(Without(objs[..n], found), (m - {k}) - found, objs[n]);
        assert ((m - {k}) - found)[k := m[k]] == m - found;
      }
    }
  }

  /** The combined list holds each name once, the primary object winning. */
  lemma CombinedEnumerates(primary: seq<Obj>, m1: Contents, secondary: seq<Obj>, m2: Contents)
    requires Enumerates(primary, m1) && Enumerates(secondary, m2)
    ensures Enumerates(Without(secondary, KeySet(primary)) + primary, m2 + m1)
  {
    KeysOf(primary, m1);
    WithoutEnumerates(secondary, m2, m1.Keys);
    EnumeratesBoth(Without(secondary, m1.Keys), m2 - m1.Keys, primary, m1);
    assert (m2 - m1.Keys) + m1 == m2 + m1;
  }

  lemma KeysOf(objs: seq<Obj>, m: Contents)
    requires Enumerates(objs, m)
    ensures KeySet(objs) == m.Keys
  {
    EnumeratesOnce(objs, m);
    forall k | k in m ensures k in KeySet(objs) {
      var i :| 0 <= i < |objs| && objs[i].key == k;
      assert objs[i] in objs;
    }
  }

  class Store {
    var cache: Cache
    const counter: VersionCounter

    constructor (counter: VersionCounter)
      ensures cache == map[] && this.counter == counter
    {
      cache := map[];
      this.counter := counter;
    }

    /** Clears live entries and tombstones; the version counter is not rolled back. */
    method Reset()
      modifies this
      ensures cache == map[]
    {
      cache := map[];
    }

    method Add(o: Obj) returns (stored: Obj)
      modifies this, counter
      ensures counter.value == old(counter.value) + 1
      ensures stored == o.(version := counter.value)
      ensures cache == old(cache)[o.key := Live(stored)]
    {
      var version := counter.Next();
      stored := o.(version := version);
      cache := cache[o.key := Live(stored)];
    }

    method GetByKey(k: Key) returns (r: Result<Obj>)
      ensures r == OverlaySpec.GetByKey(cache, k)
    {
      if k !in cache {
        return Err(NotFound);
      }
      match cache[k]
      case Tombstone(_) => r := Err(ObjectDeleted);
      case Live(o) => r := Ok(o);
    }

    method Update(o: Obj) returns (r: Result<Obj>)
      modifies this, counter
      ensures match OverlaySpec.GetByKey(old(cache), o.key)
        case Err(e) => r == Err(e) && counter.value == old(counter.value) && cache == old(cache)
        case Ok(_) =>
          && counter.value == old(counter.value) + 1
          && r == Ok(o.(version := counter.value))
          && cache == old(cache)[o.key := Live(r.value)]
    {
      r := GetByKey(o.key);
      if r.Ok? {
        var version := counter.Next();
        var stored := o.(version := version);
        cache := cache[o.key := Live(stored)];
        r := Ok(stored);
      }
    }

    /** Removes the entry; the store forgets the name. */
    method DeleteByKey(k: Key) returns (out: Outcome)
      modifies this
      ensures match OverlaySpec.GetByKey(old(cache), k)
        case Err(e) => out == Failed(e) && cache == old(cache)
        case Ok(_) => out == Done && cache == old(cache) - {k}
    {
      var found := GetByKey(k);
      if found.Err? {
        return Failed(found.error);
      }
      cache := cache - {k};
      out := Done;
    }

    /** Replaces the live entry by a tombstone. */
    method MarkDeleted(k: Key) returns (out: Outcome)
      modifies this
      ensures match OverlaySpec.GetByKey(old(cache), k)
        case Err(e) => out == Failed(e) && cache == old(cache)
        case Ok(o) => out == Done && cache == old(cache)[k := Tombstone(o.(deletionStamped := true))]
    {
      var found := GetByKey(k);
      if found.Err? {
        return Failed(found.error);
      }
      cache := cache[k := Tombstone(found.value.(deletionStamped := true))];
      out := Done;
    }

    /** Visits the cache in an arbitrary order. */
    method ListMetaObjects(c: Criteria) returns (items: seq<Obj>, maxVersion: nat)
      requires OverlaySpec.Keyed(cache)
      ensures Enumerates(items, OwnMatches(cache, c))
      ensures maxVersion == MaxVersion(items)
      ensures forall o :: o in items <==>
        o.key in cache && cache[o.key] == Live(o) &&
        (c.ns == "" || o.key.ns == c.ns) && o.key.name !in c.exclude && (c.names == {} || o.key.name in c.names) &&
        (c.selector.None? || c.selector.value(o.labels))
    {
      items, maxVersion := [], 0;
      var entries := cache;
      ghost var wanted := OwnMatches(entries, c);
      var rest := entries.Keys;
      assert wanted - rest == map[];
      while rest != {}
        invariant rest <= entries.Keys
        invariant Enumerates(items, wanted - rest)
        invariant maxVersion == MaxVersion(items)
        decreases rest
      {
        var k :| k in rest;
        OneFewerLeft(wanted, rest, k);
        var o := entries[k].obj;
        if entries[k].Live? && Matches(c, o) {
          EnumeratesOneMore(items, wanted - rest, o);
          MaxVersionOneMore(items, o);
          items := items + [o];
          if o.version > maxVersion {
            maxVersion := o.version;
          }
        }
        rest := rest - {k};
      }
      assert wanted - {} == wanted;
      EnumeratedMatches(items, cache, c);
    }

    method ListTombstonedKeys() returns (texts: set<string>)
      ensures texts == TombstoneTexts(cache)
    {
      texts := {};
      ghost var seen: set<Key> := {};
      var rest := cache.Keys;
      while rest != {}
        invariant rest <= cache.Keys
        invariant seen == set k | k in cache && k !in rest && cache[k].Tombstone?
        invariant texts == Texts(seen)
        decreases rest
      {
        var k :| k in rest;
        rest := rest - {k};
        if cache[k].Tombstone? {
          texts := texts + {k.Text()};
          seen := seen + {k};
        }
      }
      assert seen == set k | k in cache && cache[k].Tombstone?;
    }
  }
}
