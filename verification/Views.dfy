/** Base and sandbox views.  A view owns a store; a sandbox also has a delegate, which may
    itself be a sandbox.  Every method is proved against the value-level operation of the same
    name; by their modifies clauses, all of them leave the delegate alone.  Stored objects are
    values here; `SharedObjects` has the one call that makes two views share an object. */
module Views {
  import opened ApiObjects
  import opened OverlaySpec
  import opened OverlayContents
  import opened OverlayFlat
  import opened OverlayListing
  import opened ResourceStore
  import OverlayCriteria

  class View {
    const store: Store
    const delegate: View?
    ghost const rank: nat
    ghost const stores: set<Store>
    var changeCount: nat

    // -------------------------------------------------------------------------
    // Structure
    // -------------------------------------------------------------------------

    /** The delegate was there first, shares the version counter and has its own stores. */
    ghost predicate Linked()
      decreases rank
    {
      && stores == {store} + (if delegate == null then {} else delegate.stores)
      && (delegate != null ==>
            && delegate.rank < rank
            && delegate.Linked()
            && delegate.store.counter == store.counter
            && store !in delegate.stores)
    }

    /** The chain of caches this view is read through. */
    ghost function Caches(): (chain: seq<Cache>)
      requires Linked()
      reads stores
      ensures chain != [] && chain[0] == store.cache && chain[1..] == Below()
      decreases rank, 1
    {
      [store.cache] + Below()
    }

    ghost function Below(): seq<Cache>
      requires Linked()
      reads stores
      decreases rank, 0
    {
      if delegate == null then [] else delegate.Caches()
    }

    ghost function Own(): Local
      reads this, store, store.counter
    {
      Local(store.cache, store.counter.value, changeCount)
    }

    /** Every entry is filed under its own name and has a version handed out earlier. */
    ghost predicate Valid()
      reads stores, store.counter
    {
      Linked() && AllKeyed(Caches()) && AllVersionsUpTo(Caches(), store.counter.value)
    }

    constructor Base()
      ensures Valid() && delegate == null && Caches() == [map[]] && changeCount == 0
      ensures fresh(store) && fresh(store.counter) && store.counter.value == 0
    {
      var counter := new VersionCounter();
      store := new Store(counter);
      stores := {store};
      delegate := null;
      rank := 0;
      changeCount := 0;
    }

    constructor Sandbox(over: View)
      requires over.Valid()
      ensures Valid() && delegate == over && Caches() == [map[]] + over.Caches() && changeCount == 0
      ensures fresh(store) && store.counter == over.store.counter
    {
      store := new Store(over.store.counter);
      stores := {store} + over.stores;
      delegate := over;
      rank := over.rank + 1;
      changeCount := 0;
    }

    method Reset()
      requires Valid()
      modifies this, store
      ensures Own() == Local(map[], old(store.counter.value), 0)
      ensures Valid() && Below() == old(Below())
    {
      store.Reset();
      changeCount := 0;
      StillValid();
    }

    // -------------------------------------------------------------------------
    // Reading
    // -------------------------------------------------------------------------

    method GetObject(k: Key) returns (r: Result<Obj>)
      requires Linked()
      ensures r == Lookup(Caches(), k)
      decreases rank
    {
      r := store.GetByKey(k);
      if r == Err(NotFound) && delegate != null {
        r := delegate.GetObject(k);
      }
    }

    // -------------------------------------------------------------------------
    // Writing
    // -------------------------------------------------------------------------

    /** The delegate's chain is untouched and the own cache is in order: still valid. */
    twostate lemma StillValid()
      requires old(Valid())
      requires delegate != null ==> forall s :: s in delegate.stores ==> unchanged(s)
      requires Keyed(store.cache) && Grows(old(Own()), Own())
      ensures Valid() && Below() == old(Below())
    {
      assert old(Caches())[0] == old(store.cache);
      assert forall i :: 0 < i < |Caches()| ==> Caches()[i] == Caches()[1..][i - 1];
      assert forall i :: 0 < i < |old(Caches())| ==> old(Caches())[i] == old(Caches())[1..][i - 1];
    }

    lemma ValidIsSound()
      requires Valid()
      ensures Sound(Own(), Below(), Flat(Below()))
    {
      assert AllKeyed(Caches()[1..]);
      ChainShowsFlat(Below());
      assert Keyed(Caches()[0]);
    }

    /** So is the delegate. */
    lemma DelegateIsValid()
      requires Valid() && delegate != null
      ensures delegate.Valid() && delegate.Caches() == Below()
    {
      assert forall i :: 0 <= i < |Below()| ==> Below()[i] == Caches()[i + 1];
    }

    /** The common end of every create: file the object and count the change. */
    method PutObject(o: Obj) returns (stored: Obj)
      modifies this, store, store.counter
      ensures Own() == Put(old(Own()), o)
      ensures stored == o.(version := store.counter.value)
    {
      stored := store.Add(o);
      changeCount := changeCount + 1;
    }

    method CreateObject(o: Obj, suffix: Suffix) returns (out: Outcome)
      requires Valid()
      modifies this, store, store.counter
      ensures (Own(), out) == Create(old(Own()), o, suffix)
      ensures Valid() && Below() == old(Below())
    {
      ValidIsSound();
      CreateKeepsSound(Own(), Below(), Flat(Below()), o, suffix);
      if o.key.name == "" && o.generateName == "" {
        return Failed(BadRequest);
      }
      var _ := PutObject(Stored(o, suffix));
      StillValid();
      out := Done;
    }

    method UpdateOwn(o: Obj) returns (out: Outcome)
      modifies this, store, store.counter
      ensures (Own(), out) == UpdateHere(old(Own()), o)
    {
      var r := store.Update(o);
      if r.Err? {
        return Failed(r.error);
      }
      changeCount := changeCount + 1;
      out := Done;
    }

    /** UpdateObject up to the proof that the view stays valid. */
    method UpdateThrough(o: Obj) returns (out: Outcome)
      requires Linked()
      modifies this, store, store.counter
      ensures (Own(), out) == Update(old(Own()), old(Below()), o)
    {
      out := UpdateOwn(o);
      if out == Failed(NotFound) && delegate != null {
        var found := delegate.GetObject(o.key);
        if found.Err? {
          return Failed(found.error);
        }
        var _ := PutObject(found.value);
        out := UpdateOwn(o);
      }
    }

    method UpdateObject(o: Obj) returns (out: Outcome)
      requires Valid()
      modifies this, store, store.counter
      ensures (Own(), out) == Update(old(Own()), old(Below()), o)
      ensures Valid() && Below() == old(Below())
    {
      ValidIsSound();
      UpdateKeepsSound(Own(), Below(), Flat(Below()), o);
      out := UpdateThrough(o);
      StillValid();
    }

    /** DeleteObject up to the proof that the view stays valid: a base view forgets the name,
        a sandbox parks a tombstone, over a copy of the delegate's object if it has none. */
    method DeleteThrough(k: Key) returns (out: Outcome)
      requires Linked()
      modifies this, store, store.counter
      ensures (Own(), out) == Delete(old(Own()), old(Below()), k)
    {
      if delegate == null {
        out := store.DeleteByKey(k);
      } else {
        var here := store.GetByKey(k);
        if here.Err? {
          if here.error != NotFound {
            return Failed(here.error);
          }
          var found := delegate.GetObject(k);
          if found.Err? {
            return Failed(found.error);
          }
          var _ := PutObject(found.value);
        }
        out := store.MarkDeleted(k);
      }
      if out.Done? {
        changeCount := changeCount + 1;
      }
    }

    method DeleteObject(k: Key) returns (out: Outcome)
      requires Valid()
      modifies this, store, store.counter
      ensures (Own(), out) == Delete(old(Own()), old(Below()), k)
      ensures Valid() && Below() == old(Below())
    {
      ValidIsSound();
      DeleteKeepsSound(Own(), Below(), Flat(Below()), k);
      out := DeleteThrough(k);
      StillValid();
    }

    method BindStoredPod(pod: Obj, node: string) returns (out: Outcome)
      requires Linked()
      modifies this, store, store.counter
      ensures (Own(), out) == BindStored(old(Own()), old(Below()), pod, node)
    {
      var existing := GetObject(pod.key);
      assert Caches() == [store.cache] + Below();
      if existing.Err? {
        return Failed(existing.error);
      }
      if existing.value.nodeName != "" {
        return Failed(AlreadyBound(existing.value.nodeName));
      }
      out := UpdateThrough(pod.(nodeName := node, podScheduled := true));
    }

    method BindThrough(k: Key, node: string) returns (out: Outcome)
      requires Linked()
      modifies this, store, store.counter
      ensures (Own(), out) == Bind(old(Own()), old(Below()), k, node)
    {
      if delegate == null && k.name == "" {
        return Failed(EmptyPodName);
      }
      var here := store.GetByKey(k);
      if here.Ok? {
        out := BindStoredPod(here.value, node);
      } else if here.error != NotFound || delegate == null {
        out := Failed(here.error);
      } else {
        var found := delegate.GetObject(k);
        if found.Err? {
          return Failed(found.error);
        }
        var copy := PutObject(found.value);
        out := BindStoredPod(copy, node);
      }
    }

    method UpdatePodNodeBinding(k: Key, node: string) returns (out: Outcome)
      requires Valid()
      modifies this, store, store.counter
      ensures (Own(), out) == Bind(old(Own()), old(Below()), k, node)
      ensures Valid() && Below() == old(Below())
    {
      ValidIsSound();
      BindKeepsSound(Own(), Below(), Flat(Below()), k, node);
      out := BindThrough(k, node);
      StillValid();
    }

    method PatchObjectStatus(k: Key, patch: int -> Option<int>) returns (out: Outcome)
      requires Valid()
      modifies this, store, store.counter
      ensures (Own(), out) == PatchStatus(old(Own()), old(Below()), k, patch)
      ensures Valid() && Below() == old(Below())
    {
      var found := GetObject(k);
      assert Caches() == [store.cache] + Below();
      if found.Err? {
        return Failed(found.error);
      }
      var status := patch(found.value.status);
      if status.None? {
        return Failed(PatchFailed);
      }
      out := UpdateObject(found.value.(status := status.value));
    }

    // -------------------------------------------------------------------------
    // Listing
    // -------------------------------------------------------------------------

    method ListMetaObjects(c: Criteria) returns (items: seq<Obj>, maxVersion: nat)
      requires Valid()
      ensures Enumerates(items, Listed(Caches(), c))
      ensures forall i :: 0 <= i < |items| ==> items[i].version <= maxVersion
      ensures maxVersion <= store.counter.value
      ensures OverlayCriteria.ListVersion(Caches(), c, maxVersion)
      ensures forall o :: o in items ==>
        (c.ns == "" || o.key.ns == c.ns) && (c.names == {} || o.key.name in c.names) &&
        (c.selector.None? || c.selector.value(o.labels))
      decreases rank, 1
    {
      if delegate == null {
        items, maxVersion := ListOwn(c);
        OverlayCriteria.VersionOfBase(store.cache, c, maxVersion);
      } else {
        items, maxVersion := ListOverDelegate(c);
      }
      ItemsMeetCriteria(items, Caches(), c);
    }

    /** The own matches first; the delegate is told the own tombstones in place of the exclusions. */
    method ListOverDelegate(c: Criteria) returns (items: seq<Obj>, maxVersion: nat)
      requires Valid() && delegate != null
      ensures Enumerates(items, Listed(Caches(), c))
      ensures forall i :: 0 <= i < |items| ==> items[i].version <= maxVersion
      ensures maxVersion <= store.counter.value
      ensures OverlayCriteria.ListVersion(Caches(), c, maxVersion)
      decreases rank, 0
    {
      var own, ownMax := ListOwn(c);
      var texts := store.ListTombstonedKeys();
      DelegateIsValid();
      var delegateItems, delegateMax := delegate.ListMetaObjects(c.(exclude := texts));
      items := CombinePrimarySecondary(own, delegateItems);
      CombinedEnumerates(own, OwnMatches(store.cache, c), delegateItems,
        Listed(Below(), DelegateCriteria(store.cache, c)));
      CombinedVersions(own, ownMax, delegateItems, delegateMax);
      OverlayCriteria.VersionOfLayers(Caches(), c, ownMax, delegateMax);
      maxVersion := if ownMax > delegateMax then ownMax else delegateMax;
    }

    method ListOwn(c: Criteria) returns (items: seq<Obj>, maxVersion: nat)
      requires Valid()
      ensures Enumerates(items, OwnMatches(store.cache, c))
      ensures forall i :: 0 <= i < |items| ==> items[i].version <= maxVersion
      ensures maxVersion <= store.counter.value
      ensures OverlayCriteria.Greatest(OwnMatches(store.cache, c), maxVersion)
    {
      ghost var counter := store.counter.value;
      assert Keyed(Caches()[0]) && VersionsUpTo(Caches()[0], counter);
      items, maxVersion := store.ListMetaObjects(c);
      EnumeratesOnce(items, OwnMatches(store.cache, c));
      forall i | 0 <= i < |items| ensures items[i].version <= counter {
        assert items[i].key in store.cache && store.cache[items[i].key].obj == items[i];
      }
      MaxVersionBounds(items, counter);
      VersionIsGreatest(items, OwnMatches(store.cache, c));
    }

    /** Deletes, through this view, every object a listing by `c` shows. */
    method DeleteObjects(c: Criteria) returns (ghost keys: seq<Key>)
      requires Valid()
      modifies this, store, store.counter
      ensures Own() == DeleteAll(old(Own()), old(Below()), keys)
      ensures OverlayFlat.KeySet(keys) == Listed(old(Caches()), c).Keys
      ensures Valid() && Below() == old(Below())
      ensures Flat(Caches()) == old(Flat(Caches())) - OverlayFlat.KeySet(keys)
      ensures forall k :: k in keys ==> (c.ns == "" || k.ns == c.ns) && (c.names == {} || k.name in c.names)
    {
      var items, _ := ListMetaObjects(c);
      KeysOf(items, Listed(Caches(), c));
      NamesAreKeys(items);
      var names := Names(items);
      keys := names;
      OverlayFlat.ChainShowsFlat(Below());
      OverlayFlat.DeleteAllIsMapRemoval(Own(), Below(), Flat(Below()), keys);
      DeleteEach(names);
    }

    method DeleteEach(keys: seq<Key>)
      requires Valid()
      modifies this, store, store.counter
      ensures Own() == DeleteAll(old(Own()), old(Below()), keys)
      ensures Valid() && Below() == old(Below())
    {
      for i := 0 to |keys|
        invariant Valid() && Below() == old(Below())
        invariant DeleteAll(Own(), Below(), keys[i..]) == DeleteAll(old(Own()), old(Below()), keys)
      {
        assert keys[i..][0] == keys[i] && keys[i..][1..] == keys[i + 1..];
        var _ := DeleteObject(keys[i]);
      }
    }
  }

  function Names(items: seq<Obj>): seq<Key> {
    seq(|items|, i requires 0 <= i < |items| => items[i].key)
  }

  lemma VersionIsGreatest(items: seq<Obj>, m: Contents)
    requires Enumerates(items, m)
    ensures OverlayCriteria.Greatest(m, MaxVersion(items))
  {
    EnumeratesOnce(items, m);
    MaxVersionBounds(items, 0);
    MaxVersionAttained(items);
    if MaxVersion(items) != 0 {
      var i :| 0 <= i < |items| && items[i].version == MaxVersion(items);
      assert items[i].key in m && m[items[i].key].version == MaxVersion(items);
    }
  }

  lemma ItemsMeetCriteria(items: seq<Obj>, chain: seq<Cache>, c: Criteria)
    requires chain != [] && AllKeyed(chain) && Enumerates(items, Listed(chain, c))
    ensures forall o :: o in items ==>
      (c.ns == "" || o.key.ns == c.ns) && (c.names == {} || o.key.name in c.names) &&
      (c.selector.None? || c.selector.value(o.labels))
  {
    EnumeratesOnce(items, Listed(chain, c));
    forall o | o in items
      ensures o.key in Listed(chain, c) && Listed(chain, c)[o.key] == o
      ensures (c.ns == "" || o.key.ns == c.ns) && (c.names == {} || o.key.name in c.names) &&
        (c.selector.None? || c.selector.value(o.labels))
    {
      OverlayCriteria.ListedMeetsCriteria(chain, c, o.key);
    }
  }

  lemma NamesAreKeys(items: seq<Obj>)
    ensures OverlayFlat.KeySet(Names(items)) == ResourceStore.KeySet(items)
  {
    forall k | k in ResourceStore.KeySet(items) ensures k in Names(items) {
      var i :| 0 <= i < |items| && items[i].key == k;
      assert Names(items)[i] == k;
    }
    forall k | k in Names(items) ensures k in ResourceStore.KeySet(items) {
      var i :| 0 <= i < |items| && Names(items)[i] == k;
      assert items[i] in items;
    }
  }

  lemma {:induction false} CombinedVersions(primary: seq<Obj>, max1: nat, secondary: seq<Obj>, max2: nat)
    requires forall i :: 0 <= i < |primary| ==> primary[i].version <= max1
    requires forall i :: 0 <= i < |secondary| ==> secondary[i].version <= max2
    ensures var combined := Without(secondary, ResourceStore.KeySet(primary)) + primary;
      forall i :: 0 <= i < |combined| ==> combined[i].version <= if max1 > max2 then max1 else max2
  {
    WithoutVersions(secondary, ResourceStore.KeySet(primary), max2);
  }

  lemma {:induction false} WithoutVersions(objs: seq<Obj>, found: set<Key>, bound: nat)
    requires forall i :: 0 <= i < |objs| ==> objs[i].version <= bound
    ensures forall i :: 0 <= i < |Without(objs, found)| ==> Without(objs, found)[i].version <= bound
  {
    if objs != [] {
      WithoutVersions(objs[..|objs| - 1], found, bound);
    }
  }
}
