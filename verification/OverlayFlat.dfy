/** A chain of caches stands for one flat map.  `Flat` is that map, built layer by layer
    without mentioning `Lookup`; the lemmas say that reading the chain reads the map and
    that every write through the top view is the plain map operation. */
module OverlayFlat {
  import opened ApiObjects
  import opened OverlaySpec
  import opened OverlayContents

  // ---------------------------------------------------------------------------
  // Reading the chain reads the map
  // ---------------------------------------------------------------------------

  lemma {:induction false} LookupReadsFlat(chain: seq<Cache>, k: Key)
    requires chain != []
    ensures Answers(Flat(chain), k, Lookup(chain, k))
  {
    if |chain| > 1 {
      LookupReadsFlat(chain[1..], k);
    } else {
      assert chain[1..] == [];
    }
  }

  /** In a keyed chain every visible object carries the name it is found under. */
  lemma {:induction false} FlatIsNamed(chain: seq<Cache>)
    requires AllKeyed(chain)
    ensures Named(Flat(chain))
  {
    if chain != [] {
      FlatIsNamed(chain[1..]);
    }
  }

  lemma ChainShowsFlat(below: seq<Cache>)
    requires AllKeyed(below)
    ensures Shows(below, Flat(below))
  {
    FlatIsNamed(below);
    if below != [] {
      forall k ensures Answers(Flat(below), k, Lookup(below, k)) {
        LookupReadsFlat(below, k);
      }
    }
  }

  // ---------------------------------------------------------------------------
  // Each write through the top view is the plain map operation
  // ---------------------------------------------------------------------------

  lemma TopAnswers(l: Local, below: seq<Cache>, base: Contents, k: Key)
    requires Sound(l, below, base)
    ensures Answers(Overlay(base, l.cache), k, Lookup([l.cache] + below, k))
    ensures k !in l.cache && below != [] ==> Lookup([l.cache] + below, k) == Lookup(below, k)
    ensures k in l.cache || below == [] ==> Lookup([l.cache] + below, k) == GetByKey(l.cache, k)
  {
    assert ([l.cache] + below)[1..] == below;
  }

  lemma PutIsMapUpdate(l: Local, base: Contents, o: Obj)
    ensures Overlay(base, Put(l, o).cache) == Overlay(base, l.cache)[o.key := o.(version := l.counter + 1)]
  {
  }

  lemma EntombIsMapRemoval(l: Local, base: Contents, k: Key)
    requires k in l.cache
    ensures Overlay(base, Entomb(l, k).cache) == Overlay(base, l.cache) - {k}
  {
  }

  /** No operation breaks the cache invariants. */
  lemma CreateKeepsSound(l: Local, below: seq<Cache>, base: Contents, o: Obj, suffix: Suffix)
    requires Sound(l, below, base)
    ensures Sound(Create(l, o, suffix).0, below, base)
    ensures Grows(l, Create(l, o, suffix).0)
  {
  }

  lemma CopyKeepsSound(l: Local, below: seq<Cache>, base: Contents, k: Key)
    requires Sound(l, below, base) && below != [] && Lookup(below, k).Ok?
    ensures var d := Lookup(below, k).value;
      d.key == k && k in base && d == base[k] && Sound(Put(l, d), below, base)
  {
    assert Answers(base, k, Lookup(below, k));
  }

  lemma PutGrows(l: Local, o: Obj)
    ensures Grows(l, Put(l, o))
  {
  }

  lemma UpdateGrows(l: Local, below: seq<Cache>, o: Obj)
    ensures Grows(l, Update(l, below, o).0)
  {
    PutGrows(l, o);
    if o.key !in l.cache && below != [] && Lookup(below, o.key).Ok? {
      var d := Lookup(below, o.key).value;
      PutGrows(l, d);
      PutGrows(Put(l, d), o);
    }
  }

  lemma UpdateKeepsSound(l: Local, below: seq<Cache>, base: Contents, o: Obj)
    requires Sound(l, below, base)
    ensures Sound(Update(l, below, o).0, below, base)
    ensures Grows(l, Update(l, below, o).0)
  {
    UpdateGrows(l, below, o);
    if o.key !in l.cache && below != [] && Lookup(below, o.key).Ok? {
      CopyKeepsSound(l, below, base, o.key);
    }
  }

  lemma DeleteKeepsSound(l: Local, below: seq<Cache>, base: Contents, k: Key)
    requires Sound(l, below, base)
    ensures Sound(Delete(l, below, k).0, below, base)
    ensures Grows(l, Delete(l, below, k).0)
  {
    if k !in l.cache && below != [] && Lookup(below, k).Ok? {
      CopyKeepsSound(l, below, base, k);
    }
  }

  lemma BindStoredKeepsSound(l: Local, below: seq<Cache>, base: Contents, pod: Obj, node: string)
    requires Sound(l, below, base)
    ensures Sound(BindStored(l, below, pod, node).0, below, base)
    ensures Grows(l, BindStored(l, below, pod, node).0)
  {
    UpdateKeepsSound(l, below, base, pod.(nodeName := node, podScheduled := true));
  }

  lemma BindKeepsSound(l: Local, below: seq<Cache>, base: Contents, k: Key, node: string)
    requires Sound(l, below, base)
    ensures Sound(Bind(l, below, k, node).0, below, base)
    ensures Grows(l, Bind(l, below, k, node).0)
  {
    if k !in l.cache && below != [] && Lookup(below, k).Ok? {
      CopyKeepsSound(l, below, base, k);
      var d := Lookup(below, k).value;
      BindStoredKeepsSound(Put(l, d), below, base, d.(version := l.counter + 1), node);
    } else if GetByKey(l.cache, k).Ok? {
      BindStoredKeepsSound(l, below, base, l.cache[k].obj, node);
    }
  }

  lemma PatchStatusKeepsSound(l: Local, below: seq<Cache>, base: Contents, k: Key, patch: int -> Option<int>)
    requires Sound(l, below, base)
    ensures Sound(PatchStatus(l, below, k, patch).0, below, base)
    ensures Grows(l, PatchStatus(l, below, k, patch).0)
  {
    var r := Lookup([l.cache] + below, k);
    if r.Ok? && patch(r.value.status).Some? {
      UpdateKeepsSound(l, below, base, r.value.(status := patch(r.value.status).value));
    }
  }

  lemma CreateIsMapUpdate(l: Local, below: seq<Cache>, base: Contents, o: Obj, suffix: Suffix)
    requires Sound(l, below, base)
    ensures var (l', out) := Create(l, o, suffix);
      (if o.key.name == "" && o.generateName == "" then out == Failed(BadRequest) && l' == l
       else
         var o' := Stored(o, suffix);
         out == Done && Overlay(base, l'.cache) == Overlay(base, l.cache)[o'.key := o'.(version := l'.counter)])
  {
    PutIsMapUpdate(l, base, Stored(o, suffix));
  }

  lemma OverwrittenTwice(m: Contents, k: Key, a: Obj, b: Obj)
    ensures m[k := a][k := b] == m[k := b]
    ensures m[k := a] - {k} == m - {k}
  {
  }

  lemma UpdateIsMapUpdate(l: Local, below: seq<Cache>, base: Contents, o: Obj)
    requires Sound(l, below, base)
    ensures var (l', out) := Update(l, below, o);
      var m, m' := Overlay(base, l.cache), Overlay(base, l'.cache);
      (o.key in m ==> out == Done && m' == m[o.key := o.(version := l'.counter)]) &&
      (o.key !in m ==> out.Failed? && IsNotFound(out.error) && l' == l)
  {
    var m := Overlay(base, l.cache);
    if o.key in m && o.key in l.cache {
      PutIsMapUpdate(l, base, o);
    } else if o.key in m {
      CopyKeepsSound(l, below, base, o.key);
      UpdateOfCopy(l, base, base[o.key], o);
    } else if below != [] {
      assert Answers(base, o.key, Lookup(below, o.key));
    }
  }

  /** Copying the delegate's object first leaves no trace but the version it used up. */
  lemma UpdateOfCopy(l: Local, base: Contents, d: Obj, o: Obj)
    requires d.key == o.key
    ensures Overlay(base, Put(Put(l, d), o).cache) == Overlay(base, l.cache)[o.key := o.(version := l.counter + 2)]
  {
    PutIsMapUpdate(l, base, d);
    PutIsMapUpdate(Put(l, d), base, o);
    OverwrittenTwice(Overlay(base, l.cache), o.key, d.(version := l.counter + 1), o.(version := l.counter + 2));
  }

  lemma DeleteIsMapRemoval(l: Local, below: seq<Cache>, base: Contents, k: Key)
    requires Sound(l, below, base)
    ensures var (l', out) := Delete(l, below, k);
      var m, m' := Overlay(base, l.cache), Overlay(base, l'.cache);
      (k in m ==> out == Done && m' == m - {k}) &&
      (k !in m ==> out.Failed? && IsNotFound(out.error) && l' == l)
  {
    var m := Overlay(base, l.cache);
    if k in m && k in l.cache {
      if below == [] {
        assert Overlay(base, l.cache - {k}) == m - {k};
      } else {
        EntombIsMapRemoval(l, base, k);
      }
    } else if k in m {
      var d := base[k];
      assert Answers(base, k, Lookup(below, k));
      PutIsMapUpdate(l, base, d);
      EntombIsMapRemoval(Put(l, d), base, k);
      OverwrittenTwice(m, k, d.(version := l.counter + 1), d);
    } else if below != [] {
      assert Answers(base, k, Lookup(below, k));
    }
  }

  /** A binding succeeds exactly on a visible pod with no node and then sets only the node,
      the PodScheduled condition and the version.  A pod that already has a node keeps it;
      if the pod was only in the delegate, the refused call still leaves a copy of it in this
      view, which shows as a new version and nothing else. */
  lemma BindIsMapUpdate(l: Local, below: seq<Cache>, base: Contents, k: Key, node: string)
    requires Sound(l, below, base)
    ensures var (l', out) := Bind(l, below, k, node);
      var m, m' := Overlay(base, l.cache), Overlay(base, l'.cache);
      (k !in m ==> out.Failed? && (IsNotFound(out.error) || out.error == EmptyPodName) && l' == l) &&
      (k in m && m[k].nodeName == "" ==>
        out == Done &&
        m' == m[k := m[k].(nodeName := node, podScheduled := true, version := l'.counter)]) &&
      (k in m && m[k].nodeName != "" ==>
        out == Failed(AlreadyBound(m[k].nodeName)) &&
        (if k in l.cache then l' == l
         else l' == Put(l, m[k]) && m' == m[k := m[k].(version := l'.counter)]))
  {
    var m := Overlay(base, l.cache);
    if below != [] {
      assert Answers(base, k, Lookup(below, k));
    }
    if k in m && k in l.cache {
      TopAnswers(l, below, base, k);
      UpdateIsMapUpdate(l, below, base, m[k].(nodeName := node, podScheduled := true));
    } else if k in m {
      BindCopiedPod(l, below, base, k, node);
    }
  }

  lemma BindCopiedPod(l: Local, below: seq<Cache>, base: Contents, k: Key, node: string)
    requires Sound(l, below, base) && below != []
    requires k in base && k !in l.cache
    ensures var (l', out) := Bind(l, below, k, node);
      var d, m, m' := base[k], Overlay(base, l.cache), Overlay(base, l'.cache);
      (if d.nodeName == "" then
         out == Done && m' == m[k := d.(nodeName := node, podScheduled := true, version := l'.counter)]
       else
         out == Failed(AlreadyBound(d.nodeName)) && l' == Put(l, d) && m' == m[k := d.(version := l'.counter)])
  {
    var d, m := base[k], Overlay(base, l.cache);
    var l1 := Put(l, d);
    assert Answers(base, k, Lookup(below, k));
    PutIsMapUpdate(l, base, d);
    TopAnswers(l1, below, base, k);
    if d.nodeName == "" {
      var pod := d.(version := l.counter + 1, nodeName := node, podScheduled := true);
      UpdateIsMapUpdate(l1, below, base, pod);
      OverwrittenTwice(m, k, d.(version := l.counter + 1), pod.(version := l.counter + 2));
    }
  }

  lemma PatchStatusIsMapUpdate(l: Local, below: seq<Cache>, base: Contents, k: Key, patch: int -> Option<int>)
    requires Sound(l, below, base)
    ensures var (l', out) := PatchStatus(l, below, k, patch);
      var m, m' := Overlay(base, l.cache), Overlay(base, l'.cache);
      (k !in m ==> out.Failed? && IsNotFound(out.error) && l' == l) &&
      (k in m && patch(m[k].status).None? ==> out == Failed(PatchFailed) && l' == l) &&
      (k in m && patch(m[k].status).Some? ==>
        out == Done && m' == m[k := m[k].(status := patch(m[k].status).value, version := l'.counter)])
  {
    TopAnswers(l, below, base, k);
    var m := Overlay(base, l.cache);
    if k in m && patch(m[k].status).Some? {
      UpdateIsMapUpdate(l, below, base, m[k].(status := patch(m[k].status).value));
    }
  }

  ghost function KeySet(keys: seq<Key>): set<Key> {
    set k | k in keys
  }

  lemma RemovedOneByOne(m: Contents, keys: seq<Key>)
    requires keys != []
    ensures m - {keys[0]} - KeySet(keys[1..]) == m - KeySet(keys)
  {
    assert keys == [keys[0]] + keys[1..];
    assert KeySet(keys) == {keys[0]} + KeySet(keys[1..]);
  }

  lemma DeleteRemoves(l: Local, below: seq<Cache>, base: Contents, k: Key)
    requires Sound(l, below, base)
    ensures Overlay(base, Delete(l, below, k).0.cache) == Overlay(base, l.cache) - {k}
  {
    DeleteIsMapRemoval(l, below, base, k);
    var m := Overlay(base, l.cache);
    assert k !in m ==> m - {k} == m;
  }

  lemma {:induction false} DeleteAllKeepsSound(l: Local, below: seq<Cache>, base: Contents, keys: seq<Key>)
    requires Sound(l, below, base)
    ensures Sound(DeleteAll(l, below, keys), below, base)
    ensures Grows(l, DeleteAll(l, below, keys))
    decreases |keys|
  {
    if keys != [] {
      DeleteKeepsSound(l, below, base, keys[0]);
      DeleteAllKeepsSound(Delete(l, below, keys[0]).0, below, base, keys[1..]);
    }
  }

  /** A bulk delete, in whatever order, removes exactly the given keys. */
  lemma {:induction false} DeleteAllIsMapRemoval(l: Local, below: seq<Cache>, base: Contents, keys: seq<Key>)
    requires Sound(l, below, base)
    ensures Overlay(base, DeleteAll(l, below, keys).cache) == Overlay(base, l.cache) - KeySet(keys)
    decreases |keys|
  {
    if keys == [] {
      var m := Overlay(base, l.cache);
      assert m - KeySet(keys) == m;
    } else {
      DeleteKeepsSound(l, below, base, keys[0]);
      DeleteRemoves(l, below, base, keys[0]);
      DeleteAllIsMapRemoval(Delete(l, below, keys[0]).0, below, base, keys[1..]);
      RemovedOneByOne(Overlay(base, l.cache), keys);
    }
  }
}
