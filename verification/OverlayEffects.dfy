/** What a write leaves behind besides the contents: the change count, the version counter, the
    view's own entry, and which error a refused call answers. */
module OverlayEffects {
  import opened ApiObjects
  import opened OverlaySpec
  import opened OverlayContents
  import opened OverlayFlat
  import opened OverlayListing

  /** How far a call has moved the change count and the version counter. */
  ghost predicate Counts(l: Local, l': Local, changes: nat, versions: nat) {
    l'.changes == l.changes + changes && l'.counter == l.counter + versions
  }

  // ---------------------------------------------------------------------------
  // Errors
  // ---------------------------------------------------------------------------

  /** Nothing was ever written under the name in any layer. */
  ghost predicate NeverHeld(chain: seq<Cache>, k: Key) {
    forall j :: 0 <= j < |chain| ==> k !in chain[j]
  }

  /** The layer that decides the name has deleted it. */
  ghost predicate DeletedAt(chain: seq<Cache>, k: Key) {
    exists j: nat :: j < |chain| && FirstHolds(chain, k, j) && chain[j][k].Tombstone?
  }

  lemma {:induction false} LookupErrors(chain: seq<Cache>, k: Key)
    requires chain != []
    ensures Lookup(chain, k) == Err(NotFound) <==> NeverHeld(chain, k)
    ensures Lookup(chain, k) == Err(ObjectDeleted) <==> DeletedAt(chain, k)
    ensures Lookup(chain, k).Err? ==> Lookup(chain, k).error in {NotFound, ObjectDeleted}
    decreases |chain|
  {
    if k in chain[0] {
      assert FirstHolds(chain, k, 0);
    } else if |chain| > 1 {
      var rest := chain[1..];
      LookupErrors(rest, k);
      forall j: nat | j < |rest| ensures FirstHolds(rest, k, j) <==> FirstHolds(chain, k, j + 1) {
        assert forall i :: 0 < i < |chain| ==> chain[i] == rest[i - 1];
        assert forall i :: 0 <= i < |rest| ==> rest[i] == chain[i + 1];
      }
      if DeletedAt(chain, k) {
        var j: nat :| j < |chain| && FirstHolds(chain, k, j) && chain[j][k].Tombstone?;
        assert FirstHolds(rest, k, j - 1);
      }
      if DeletedAt(rest, k) {
        var j: nat :| j < |rest| && FirstHolds(rest, k, j) && rest[j][k].Tombstone?;
        assert FirstHolds(chain, k, j + 1);
      }
      assert NeverHeld(chain, k) <==> NeverHeld(rest, k) by {
        assert forall i :: 0 < i < |chain| ==> chain[i] == rest[i - 1];
        assert forall i :: 0 <= i < |rest| ==> rest[i] == chain[i + 1];
      }
    }
  }

  lemma UpdateError(l: Local, below: seq<Cache>, base: Contents, o: Obj)
    requires Sound(l, below, base) && o.key !in Overlay(base, l.cache)
    ensures var r := Lookup([l.cache] + below, o.key); r.Err? && Update(l, below, o) == (l, Failed(r.error))
  {
    TopAnswers(l, below, base, o.key);
  }

  lemma DeleteError(l: Local, below: seq<Cache>, base: Contents, k: Key)
    requires Sound(l, below, base) && k !in Overlay(base, l.cache)
    ensures var r := Lookup([l.cache] + below, k); r.Err? && Delete(l, below, k) == (l, Failed(r.error))
  {
    TopAnswers(l, below, base, k);
  }

  /** A base view refuses an empty name before it looks for the pod. */
  lemma BindError(l: Local, below: seq<Cache>, base: Contents, k: Key, node: string)
    requires Sound(l, below, base) && k !in Overlay(base, l.cache)
    ensures var r := Lookup([l.cache] + below, k);
      r.Err? && Bind(l, below, k, node) == (l, Failed(if below == [] && k.name == "" then EmptyPodName else r.error))
  {
    TopAnswers(l, below, base, k);
  }

  lemma PatchStatusError(l: Local, below: seq<Cache>, base: Contents, k: Key, patch: int -> Option<int>)
    requires Sound(l, below, base) && k !in Overlay(base, l.cache)
    ensures var r := Lookup([l.cache] + below, k);
      r.Err? && PatchStatus(l, below, k, patch) == (l, Failed(r.error))
  {
    TopAnswers(l, below, base, k);
  }

  // ---------------------------------------------------------------------------
  // Counts and entries
  // ---------------------------------------------------------------------------

  ghost predicate GeneratedFrom(name: string, prefix: string, suffix: Suffix) {
    && 5 <= |name| <= 253 && name[|name| - 5..] == suffix && name[..|name| - 5] <= prefix
    && (|name| < 253 ==> name == prefix + suffix)
  }

  /** A creation is one change; a nameless object gets a name that ends in the suffix and begins like
      the prefix it asks for. */
  lemma CreateCounts(l: Local, o: Obj, suffix: Suffix)
    requires o.key.name != "" || o.generateName != ""
    ensures var (l', out) := Create(l, o, suffix);
      Counts(l, l', 1, 1) &&
      exists k :: l'.cache == l.cache[k := Live(o.(key := k, version := l.counter + 1))] && k.ns == o.key.ns &&
        (o.key.name != "" ==> k == o.key) &&
        (o.key.name == "" ==> GeneratedFrom(k.name, o.generateName, suffix))
  {
    var k := Stored(o, suffix).key;
    var l' := Create(l, o, suffix).0;
    assert l'.cache == l.cache[k := Live(o.(key := k, version := l.counter + 1))];
  }

  /** An update is one change, and another one if the object has to be copied from the delegate. */
  lemma UpdateCounts(l: Local, below: seq<Cache>, base: Contents, o: Obj)
    requires Sound(l, below, base) && o.key in Overlay(base, l.cache)
    ensures var l', n := Update(l, below, o).0, if o.key in l.cache then 1 else 2;
      Counts(l, l', n, n) && l'.cache == l.cache[o.key := Live(o.(version := l.counter + n))]
  {
    TopAnswers(l, below, base, o.key);
    if o.key !in l.cache {
      CopyKeepsSound(l, below, base, o.key);
    }
  }

  /** A deletion in a base view takes the entry out; in a sandbox it leaves the object as a tombstone
      with a deletion stamp, which is copied from the delegate first if it is not there. */
  lemma DeleteCounts(l: Local, below: seq<Cache>, base: Contents, k: Key)
    requires Sound(l, below, base) && k in Overlay(base, l.cache)
    ensures var l', here := Delete(l, below, k).0, k in l.cache;
      Counts(l, l', if here then 1 else 2, if here then 0 else 1) &&
      l'.cache ==
        if below == [] then l.cache - {k}
        else
          var o := if here then l.cache[k].obj else base[k].(version := l.counter + 1);
          l.cache[k := Tombstone(o.(deletionStamped := true))]
  {
    TopAnswers(l, below, base, k);
  }

  lemma PatchStatusCounts(l: Local, below: seq<Cache>, base: Contents, k: Key, patch: int -> Option<int>)
    requires Sound(l, below, base) && k in Overlay(base, l.cache)
    ensures var l', n := PatchStatus(l, below, k, patch).0,
        if patch(Overlay(base, l.cache)[k].status).None? then 0 else if k in l.cache then 1 else 2;
      Counts(l, l', n, n)
  {
    TopAnswers(l, below, base, k);
    var o := Overlay(base, l.cache)[k];
    if patch(o.status).Some? {
      UpdateCounts(l, below, base, o.(status := patch(o.status).value));
    }
  }

  /** A binding is one change, and another one if the pod has to be copied from the delegate: the copy is
      made and counted even if the pod then turns out to be bound. */
  lemma BindCounts(l: Local, below: seq<Cache>, base: Contents, k: Key, node: string)
    requires Sound(l, below, base) && k in Overlay(base, l.cache)
    ensures var l', m := Bind(l, below, k, node).0, Overlay(base, l.cache);
      var n := (if k in l.cache then 0 else 1) + if m[k].nodeName == "" then 1 else 0;
      Counts(l, l', n, n)
  {
    TopAnswers(l, below, base, k);
    if k in l.cache {
      UpdateCounts(l, below, base, l.cache[k].obj.(nodeName := node, podScheduled := true));
    } else {
      var l1 := Put(l, base[k]);
      CopyKeepsSound(l, below, base, k);
      TopAnswers(l1, below, base, k);
      UpdateCounts(l1, below, base, base[k].(version := l.counter + 1, nodeName := node, podScheduled := true));
    }
  }
}
