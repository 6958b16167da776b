/** Listing a view by criteria, and exactly when the list agrees with point reads. */
module OverlayListing {
  import opened ApiObjects
  import opened OverlaySpec
  import opened OverlayContents

  type Selector = map<string, string> -> bool

  /** Empty `ns` and `names` match everything; `exclude` holds bare names. */
  datatype Criteria = Criteria(ns: string, exclude: set<string>, names: set<string>, selector: Option<Selector>)

  const MatchAll := Criteria("", {}, {}, None)

  predicate Matches(c: Criteria, o: Obj) {
    && (c.ns != "" ==> o.key.ns == c.ns)
    && o.key.name !in c.exclude
    && (c.names != {} ==> o.key.name in c.names)
    && (c.selector.Some? ==> c.selector.value(o.labels))
  }

  ghost function Texts(keys: set<Key>): set<string> {
    set k | k in keys :: k.Text()
  }

  /** The keys of a cache's tombstones, as the strings they are filed under. */
  ghost function TombstoneTexts(c: Cache): set<string> {
    Texts(set k | k in c && c[k].Tombstone?)
  }

  ghost function OwnMatches(cache: Cache, c: Criteria): Contents {
    map k | k in cache && cache[k].Live? && Matches(c, cache[k].obj) :: cache[k].obj
  }

  /** What the delegate is asked for: the caller's exclusions are replaced, not extended. */
  ghost function DelegateCriteria(cache: Cache, c: Criteria): Criteria {
    c.(exclude := TombstoneTexts(cache))
  }

  /** The objects a view lists, as a map: own matches win over the delegate's list. */
  ghost function Listed(chain: seq<Cache>, c: Criteria): Contents
    requires chain != []
  {
    if |chain| == 1 then OwnMatches(chain[0], c)
    else Listed(chain[1..], DelegateCriteria(chain[0], c)) + OwnMatches(chain[0], c)
  }

  /** What a reader of single objects would expect the list to hold. */
  ghost function Wanted(chain: seq<Cache>, c: Criteria): Contents {
    map k | k in Flat(chain) && Matches(c, Flat(chain)[k]) :: Flat(chain)[k]
  }

  // ---------------------------------------------------------------------------
  // Which layer a listed object, and a visible object, comes from
  // ---------------------------------------------------------------------------

  /** The criteria that reach layer `j`. */
  ghost function Reaching(chain: seq<Cache>, c: Criteria, j: nat): Criteria
    requires j < |chain|
  {
    if j == 0 then c else DelegateCriteria(chain[j - 1], c)
  }

  ghost predicate ListsAt(chain: seq<Cache>, c: Criteria, k: Key, j: nat)
    requires j < |chain|
  {
    k in chain[j] && chain[j][k].Live? && Matches(Reaching(chain, c, j), chain[j][k].obj)
  }

  ghost predicate FirstLists(chain: seq<Cache>, c: Criteria, k: Key, j: nat)
    requires j < |chain|
  {
    ListsAt(chain, c, k, j) && forall i :: 0 <= i < j ==> !ListsAt(chain, c, k, i)
  }

  ghost predicate FirstHolds(chain: seq<Cache>, k: Key, j: nat)
    requires j < |chain|
  {
    k in chain[j] && forall i :: 0 <= i < j ==> k !in chain[i]
  }

  lemma ListsAtShifts(chain: seq<Cache>, c: Criteria, k: Key, j: nat)
    requires 0 < j < |chain|
    ensures ListsAt(chain, c, k, j) <==> ListsAt(chain[1..], DelegateCriteria(chain[0], c), k, j - 1)
  {
  }

  /** An object is listed from the first layer that has a live match for it, and only if
      some layer has one. */
  lemma {:induction false} ListedFromFirstMatch(chain: seq<Cache>, c: Criteria, k: Key)
    requires chain != []
    ensures forall j: nat :: j < |chain| && FirstLists(chain, c, k, j) ==>
      k in Listed(chain, c) && Listed(chain, c)[k] == chain[j][k].obj
    ensures k in Listed(chain, c) ==> exists j: nat :: j < |chain| && FirstLists(chain, c, k, j)
    decreases |chain|
  {
    if ListsAt(chain, c, k, 0) {
      assert FirstLists(chain, c, k, 0);
    } else if |chain| > 1 {
      var rest, c' := chain[1..], DelegateCriteria(chain[0], c);
      ListedFromFirstMatch(rest, c', k);
      forall j: nat | 0 < j < |chain| ensures FirstLists(chain, c, k, j) <==> FirstLists(rest, c', k, j - 1) {
        FirstListsShifts(chain, c, k, j);
      }
      if k in Listed(chain, c) {
        var j: nat :| j < |rest| && FirstLists(rest, c', k, j);
        assert FirstLists(chain, c, k, j + 1);
      }
    }
  }

  lemma FirstListsShifts(chain: seq<Cache>, c: Criteria, k: Key, j: nat)
    requires 0 < j < |chain| && !ListsAt(chain, c, k, 0)
    ensures FirstLists(chain, c, k, j) <==> FirstLists(chain[1..], DelegateCriteria(chain[0], c), k, j - 1)
  {
    var rest, c' := chain[1..], DelegateCriteria(chain[0], c);
    forall i | 0 < i <= j ensures ListsAt(chain, c, k, i) <==> ListsAt(rest, c', k, i - 1) {
      ListsAtShifts(chain, c, k, i);
    }
    if FirstLists(rest, c', k, j - 1) {
      forall i | 0 <= i < j ensures !ListsAt(chain, c, k, i) {
        assert i == 0 || !ListsAt(rest, c', k, i - 1);
      }
    }
    if FirstLists(chain, c, k, j) {
      forall i | 0 <= i < j - 1 ensures !ListsAt(rest, c', k, i) {
        assert !ListsAt(chain, c, k, i + 1);
      }
    }
  }

  /** A visible object is the one in the first layer that holds any entry for it. */
  lemma {:induction false} VisibleFromFirstHolder(chain: seq<Cache>, k: Key)
    ensures forall j: nat :: j < |chain| && FirstHolds(chain, k, j) ==>
      (k in Flat(chain) <==> chain[j][k].Live?) && (k in Flat(chain) ==> Flat(chain)[k] == chain[j][k].obj)
    ensures k in Flat(chain) ==> exists j: nat :: j < |chain| && FirstHolds(chain, k, j)
    decreases |chain|
  {
    if chain != [] {
      if k in chain[0] {
        assert FirstHolds(chain, k, 0);
      } else {
        var rest := chain[1..];
        VisibleFromFirstHolder(rest, k);
        forall j: nat | j < |chain| && FirstHolds(chain, k, j)
          ensures 0 < j && FirstHolds(rest, k, j - 1)
        {
          forall i | 0 <= i < j - 1 ensures k !in rest[i] {
            assert k !in chain[i + 1];
          }
        }
        if k in Flat(chain) {
          var j: nat :| j < |rest| && FirstHolds(rest, k, j);
          assert FirstHolds(chain, k, j + 1);
        }
      }
    }
  }

  // ---------------------------------------------------------------------------
  // When the list is exact
  // ---------------------------------------------------------------------------

  predicate PlainName(s: string) {
    '/' !in s
  }

  /** A kind is either cluster-scoped or namespaced, and no name contains a slash. */
  ghost predicate OneScope(chain: seq<Cache>, clusterScoped: bool) {
    forall i, k :: 0 <= i < |chain| && k in chain[i] ==> PlainName(k.name) && (k.ns == "" <==> clusterScoped)
  }

  /** What is left of the caller's criteria below the first layer. */
  function Unexcluded(c: Criteria): Criteria {
    c.(exclude := {})
  }

  /** Layer `i` decides `k` and hides it, yet the delegate layer `j` still lists its own copy:
      the copy matches but for the caller's exclusions, which no delegate is told, and nothing
      excludes the name on the way.  A tombstone is excluded by name only in the layer right
      above `j` and only for a cluster-scoped kind. */
  ghost predicate Leaks(chain: seq<Cache>, c: Criteria, k: Key, i: nat, j: nat)
    requires i <= j < |chain|
  {
    && FirstHolds(chain, k, i)
    && (chain[i][k].Tombstone? || !Matches(c, chain[i][k].obj))
    && 0 < j && k in chain[j] && chain[j][k].Live? && Matches(Unexcluded(c), chain[j][k].obj)
    && !(k.ns == "" && k in chain[j - 1] && chain[j - 1][k].Tombstone?)
  }

  lemma TextHasSlash(k: Key)
    ensures k.ns != "" ==> '/' in k.Text()
  {
    if k.ns != "" {
      assert k.Text()[|k.ns|] == '/';
    }
  }

  /** A bare name is excluded exactly when its own key is tombstoned, and for a namespaced
      kind never. */
  lemma ExclusionByName(cache: Cache, k: Key, clusterScoped: bool)
    requires PlainName(k.name) && (k.ns == "" <==> clusterScoped)
    requires OneScope([cache], clusterScoped)
    ensures k.name in TombstoneTexts(cache) <==> clusterScoped && k in cache && cache[k].Tombstone?
  {
    var dead := set t | t in cache && cache[t].Tombstone?;
    if k.name in Texts(dead) {
      var t :| t in dead && t.Text() == k.name;
      assert t in [cache][0];
      TextHasSlash(t);
    }
    if clusterScoped && k in dead {
      assert k.Text() == k.name;
    }
  }

  lemma ReachingMatches(chain: seq<Cache>, c: Criteria, k: Key, j: nat, clusterScoped: bool)
    requires AllKeyed(chain) && OneScope(chain, clusterScoped)
    requires j < |chain| && k in chain[j] && chain[j][k].Live?
    ensures j == 0 ==> (ListsAt(chain, c, k, j) <==> Matches(c, chain[j][k].obj))
    ensures j > 0 ==> (ListsAt(chain, c, k, j) <==>
      Matches(Unexcluded(c), chain[j][k].obj) && !(k.ns == "" && k in chain[j - 1] && chain[j - 1][k].Tombstone?))
  {
    if j > 0 {
      forall t | t in [chain[j - 1]][0] ensures PlainName(t.name) && (t.ns == "" <==> clusterScoped) {
        assert t in chain[j - 1];
      }
      ExclusionByName(chain[j - 1], k, clusterScoped);
    }
  }

  lemma ExactAt(chain: seq<Cache>, c: Criteria, k: Key, clusterScoped: bool)
    requires chain != [] && AllKeyed(chain) && OneScope(chain, clusterScoped)
    requires forall i: nat, j: nat :: i <= j < |chain| ==> !Leaks(chain, c, k, i, j)
    ensures k in Listed(chain, c) <==> k in Wanted(chain, c)
    ensures k in Listed(chain, c) ==> Listed(chain, c)[k] == Wanted(chain, c)[k]
  {
    ListedFromFirstMatch(chain, c, k);
    VisibleFromFirstHolder(chain, k);
    if k in Wanted(chain, c) {
      var j: nat :| j < |chain| && FirstHolds(chain, k, j);
      ReachingMatches(chain, c, k, j, clusterScoped);
      assert FirstLists(chain, c, k, j);
    } else if k in Listed(chain, c) {
      var j: nat :| j < |chain| && FirstLists(chain, c, k, j);
      ReachingMatches(chain, c, k, j, clusterScoped);
      var i := FirstHolder(chain, k, j);
      assert k !in Wanted(chain, c) && FirstHolds(chain, k, i);
      assert Leaks(chain, c, k, i, j);
    }
  }

  ghost function FirstHolder(chain: seq<Cache>, k: Key, j: nat): (i: nat)
    requires j < |chain| && k in chain[j]
    ensures i <= j && FirstHolds(chain, k, i)
  {
    if exists i: nat :: i < j && k in chain[i] then
      var i: nat :| i < j && k in chain[i];
      FirstHolder(chain, k, i)
    else j
  }

  lemma LeakIsListed(chain: seq<Cache>, c: Criteria, k: Key, i: nat, j: nat, clusterScoped: bool)
    requires AllKeyed(chain) && OneScope(chain, clusterScoped)
    requires i <= j < |chain| && Leaks(chain, c, k, i, j)
    ensures k in Listed(chain, c) && k !in Wanted(chain, c)
  {
    ListedFromFirstMatch(chain, c, k);
    VisibleFromFirstHolder(chain, k);
    ReachingMatches(chain, c, k, j, clusterScoped);
    var f := FirstListing(chain, c, k, j);
  }

  ghost function FirstListing(chain: seq<Cache>, c: Criteria, k: Key, j: nat): (i: nat)
    requires j < |chain| && ListsAt(chain, c, k, j)
    ensures i <= j && FirstLists(chain, c, k, i)
  {
    if exists i: nat :: i < j && ListsAt(chain, c, k, i) then
      var i: nat :| i < j && ListsAt(chain, c, k, i);
      FirstListing(chain, c, k, i)
    else j
  }

  /** The list agrees with point reads if and only if no layer's hidden copy leaks. */
  lemma ListIsExactIffNothingLeaks(chain: seq<Cache>, c: Criteria, clusterScoped: bool)
    requires chain != [] && AllKeyed(chain) && OneScope(chain, clusterScoped)
    ensures Listed(chain, c) == Wanted(chain, c) <==>
      forall k, i: nat, j: nat :: i <= j < |chain| ==> !Leaks(chain, c, k, i, j)
  {
    if forall k, i: nat, j: nat :: i <= j < |chain| ==> !Leaks(chain, c, k, i, j) {
      forall k
        ensures k in Listed(chain, c) <==> k in Wanted(chain, c)
        ensures k in Listed(chain, c) ==> Listed(chain, c)[k] == Wanted(chain, c)[k]
      {
        ExactAt(chain, c, k, clusterScoped);
      }
      assert Listed(chain, c) == Wanted(chain, c);
    } else {
      var k, i: nat, j: nat :| i <= j < |chain| && Leaks(chain, c, k, i, j);
      LeakIsListed(chain, c, k, i, j, clusterScoped);
    }
  }

  ghost predicate NoTombstones(chain: seq<Cache>) {
    forall i, k :: 0 <= i < |chain| && k in chain[i] ==> chain[i][k].Live?
  }

  /** With criteria that look at names only, a chain without tombstones lists exactly, if and
      only if no delegate holds an object whose name the caller excludes. */
  lemma ListByNameIsExactIffNoneExcluded(chain: seq<Cache>, c: Criteria, clusterScoped: bool)
    requires chain != [] && AllKeyed(chain) && OneScope(chain, clusterScoped) && NoTombstones(chain)
    requires c.selector == None
    ensures Listed(chain, c) == Wanted(chain, c) <==>
      forall k, j :: 0 < j < |chain| && k in chain[j] && Matches(Unexcluded(c), chain[j][k].obj) ==>
        k.name !in c.exclude
  {
    forall k, i: nat, j: nat | i <= j < |chain| && 0 < j && k in chain[j] && FirstHolds(chain, k, i)
      ensures Leaks(chain, c, k, i, j) <==> Matches(Unexcluded(c), chain[j][k].obj) && k.name in c.exclude
    {
      assert chain[i][k].obj.key == k == chain[j][k].obj.key;
    }
    if k, j :| 0 < j < |chain| && k in chain[j] && Matches(Unexcluded(c), chain[j][k].obj) && k.name in c.exclude {
      var i := FirstHolder(chain, k, j);
      assert Leaks(chain, c, k, i, j);
    }
    ListIsExactIffNothingLeaks(chain, c, clusterScoped);
  }

  /** A sandbox directly over the base view lists a cluster-scoped kind exactly, deleted objects
      included, if and only if the base shows no object whose name the caller excludes. */
  lemma ListByNameIsExactOverBaseIff(own: Cache, base: Cache, c: Criteria)
    requires Keyed(own) && Keyed(base) && OneScope([own, base], true)
    requires c.selector == None
    ensures Listed([own, base], c) == Wanted([own, base], c) <==>
      forall k :: k in base && base[k].Live? && Matches(Unexcluded(c), base[k].obj) && k.name in c.exclude ==>
        k in own && own[k].Tombstone?
  {
    var chain := [own, base];
    forall k, i: nat | i <= 1 && FirstHolds(chain, k, i) && k in base
      ensures Leaks(chain, c, k, i, 1) <==>
        base[k].Live? && Matches(Unexcluded(c), base[k].obj) && k.name in c.exclude && !(k in own && own[k].Tombstone?)
    {
      assert k in chain[1] && base[k].obj.key == k;
      assert chain[i][k].obj.key == k;
    }
    if k :| && k in base && base[k].Live? && Matches(Unexcluded(c), base[k].obj)
            && k.name in c.exclude && !(k in own && own[k].Tombstone?)
    {
      assert k in chain[1];
      assert Leaks(chain, c, k, FirstHolder(chain, k, 1), 1);
    }
    ListIsExactIffNothingLeaks(chain, c, true);
  }

  /** Deleting a namespaced object of the base view through a sandbox hides it from reads but
      not from the list. */
  lemma DeletedNamespacedObjectStaysListed(o: Obj)
    requires o.key.ns != "" && PlainName(o.key.name) && o.key.name != ""
    ensures var base: Cache := map[o.key := Live(o)];
      var (l, out) := Delete(Local(map[], o.version, 0), [base], o.key);
      out == Done && o.key !in Flat([l.cache, base]) && o.key in Listed([l.cache, base], MatchAll)
  {
    var base: Cache := map[o.key := Live(o)];
    var l := Delete(Local(map[], o.version, 0), [base], o.key).0;
    var chain := [l.cache, base];
    assert Lookup([base], o.key) == Ok(o);
    assert l.cache.Keys == {o.key};
    assert Leaks(chain, MatchAll, o.key, 0, 1);
    LeakIsListed(chain, MatchAll, o.key, 0, 1, false);
    VisibleFromFirstHolder(chain, o.key);
    assert FirstHolds(chain, o.key, 0);
  }
}
