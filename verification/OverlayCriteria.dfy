/** What the criteria of a list or a bulk deletion come to, on the fields of the objects. */
module OverlayCriteria {
  import opened ApiObjects
  import opened OverlaySpec
  import opened OverlayContents
  import OverlayFlat
  import opened OverlayListing

  /** The names that are left out where a list by `c` reaches layer `j`: the caller's own in the first
      layer, below it only the texts of what the layer right above has deleted. */
  ghost function LeftOutAt(chain: seq<Cache>, c: Criteria, j: nat): set<string>
    requires j < |chain|
  {
    if j == 0 then c.exclude
    else set k | k in chain[j - 1] && chain[j - 1][k].Tombstone? :: k.Text()
  }

  /** An object is listed exactly if some layer holds it live with a name that is not left out there, in
      the namespace, with a name and with labels that are asked for. */
  lemma ListedIff(chain: seq<Cache>, c: Criteria, k: Key)
    requires chain != [] && AllKeyed(chain)
    ensures k in Listed(chain, c) <==>
      exists j: nat :: j < |chain| && k in chain[j] && chain[j][k].Live? && k.name !in LeftOutAt(chain, c, j) &&
        (c.ns == "" || k.ns == c.ns) && (c.names == {} || k.name in c.names) &&
        (c.selector.None? || c.selector.value(chain[j][k].obj.labels))
  {
    ListedFromFirstMatch(chain, c, k);
    forall j: nat | j < |chain| && k in chain[j] && chain[j][k].Live? && k.name !in LeftOutAt(chain, c, j) &&
        (c.ns == "" || k.ns == c.ns) && (c.names == {} || k.name in c.names) &&
        (c.selector.None? || c.selector.value(chain[j][k].obj.labels))
      ensures k in Listed(chain, c)
    {
      SameLeftOut(chain, c, j);
      assert ListsAt(chain, c, k, j);
      var i := FirstListing(chain, c, k, j);
    }
    if k in Listed(chain, c) {
      var j: nat :| j < |chain| && FirstLists(chain, c, k, j);
      SameLeftOut(chain, c, j);
    }
  }

  lemma SameLeftOut(chain: seq<Cache>, c: Criteria, j: nat)
    requires j < |chain|
    ensures Reaching(chain, c, j) == c.(exclude := LeftOutAt(chain, c, j))
  {
    if j > 0 {
      assert TombstoneTexts(chain[j - 1]) == LeftOutAt(chain, c, j);
    }
  }

  /** Whatever is listed is an object that some layer holds live under that name, and it meets every
      one of the criteria but the excluded names. */
  lemma ListedMeetsCriteria(chain: seq<Cache>, c: Criteria, k: Key)
    requires chain != [] && AllKeyed(chain) && k in Listed(chain, c)
    ensures var o := Listed(chain, c)[k];
      o.key == k && (c.ns != "" ==> k.ns == c.ns) && (c.names != {} ==> k.name in c.names) &&
      (c.selector.Some? ==> c.selector.value(o.labels)) &&
      exists j :: 0 <= j < |chain| && k in chain[j] && chain[j][k] == Live(o)
  {
    ListedFromFirstMatch(chain, c, k);
    var j: nat :| j < |chain| && FirstLists(chain, c, k, j);
    assert chain[j][k] == Live(Listed(chain, c)[k]);
  }

  /** A base view lists exactly its live objects that meet all the criteria. */
  lemma BaseListsExactly(base: Cache, c: Criteria, k: Key)
    requires Keyed(base)
    ensures k in Listed([base], c) <==>
      k in base && base[k].Live? && (c.ns == "" || k.ns == c.ns) && k.name !in c.exclude &&
      (c.names == {} || k.name in c.names) && (c.selector.None? || c.selector.value(base[k].obj.labels))
    ensures k in Listed([base], c) ==> Listed([base], c)[k] == base[k].obj
  {
  }

  /** `n` is the largest version in `m`, or 0. */
  ghost predicate Greatest(m: Contents, n: nat) {
    && (forall k :: k in m ==> m[k].version <= n)
    && (n == 0 || exists k :: k in m && m[k].version == n)
  }

  /** The version of a list: the largest among the matches in any layer, those included that a match in
      a nearer layer covers. */
  ghost predicate ListVersion(chain: seq<Cache>, c: Criteria, n: nat) {
    && (forall j: nat, k :: j < |chain| && ListsAt(chain, c, k, j) ==> chain[j][k].obj.version <= n)
    && (n == 0 || exists j: nat, k :: j < |chain| && ListsAt(chain, c, k, j) && chain[j][k].obj.version == n)
  }

  lemma VersionOfBase(base: Cache, c: Criteria, n: nat)
    requires Greatest(OwnMatches(base, c), n)
    ensures ListVersion([base], c, n)
  {
    forall k | ListsAt([base], c, k, 0) ensures base[k].obj.version <= n {
      assert k in OwnMatches(base, c);
    }
    if n != 0 {
      var k :| k in OwnMatches(base, c) && OwnMatches(base, c)[k].version == n;
      assert ListsAt([base], c, k, 0);
    }
  }

  lemma VersionOfLayers(chain: seq<Cache>, c: Criteria, own: nat, rest: nat)
    requires |chain| > 1 && Greatest(OwnMatches(chain[0], c), own)
    requires ListVersion(chain[1..], DelegateCriteria(chain[0], c), rest)
    ensures ListVersion(chain, c, if own > rest then own else rest)
  {
    var c', n := DelegateCriteria(chain[0], c), if own > rest then own else rest;
    forall j: nat, k | j < |chain| && ListsAt(chain, c, k, j) ensures chain[j][k].obj.version <= n {
      if j == 0 {
        assert k in OwnMatches(chain[0], c);
      } else {
        ListsAtShifts(chain, c, k, j);
        assert ListsAt(chain[1..], c', k, j - 1);
      }
    }
    if n != 0 && own > rest {
      var k :| k in OwnMatches(chain[0], c) && OwnMatches(chain[0], c)[k].version == own;
      assert ListsAt(chain, c, k, 0);
    } else if n != 0 {
      var j: nat, k :| j < |chain[1..]| && ListsAt(chain[1..], c', k, j) && chain[1..][j][k].obj.version == rest;
      ListsAtShifts(chain, c, k, j + 1);
      assert ListsAt(chain, c, k, j + 1);
    }
  }

  /** A bulk deletion by criteria takes exactly the listed names out of what the view shows, so objects
      of other namespaces or with other names stay visible as they were. */
  lemma DeletionSparesOthers(l: Local, below: seq<Cache>, c: Criteria, keys: seq<Key>, k: Key)
    requires Keyed(l.cache) && AllKeyed(below) && OverlayFlat.KeySet(keys) == Listed([l.cache] + below, c).Keys
    requires k in Flat([l.cache] + below)
    requires (c.ns != "" && k.ns != c.ns) || (c.names != {} && k.name !in c.names)
    ensures var l' := DeleteAll(l, below, keys);
      k in Flat([l'.cache] + below) && Flat([l'.cache] + below)[k] == Flat([l.cache] + below)[k]
  {
    DeletedIffListed(l, below, c, keys, k);
    assert AllKeyed([l.cache] + below);
    if k in Listed([l.cache] + below, c) {
      ListedMeetsCriteria([l.cache] + below, c, k);
    }
  }

  lemma DeletedIffListed(l: Local, below: seq<Cache>, c: Criteria, keys: seq<Key>, k: Key)
    requires Keyed(l.cache) && AllKeyed(below) && OverlayFlat.KeySet(keys) == Listed([l.cache] + below, c).Keys
    ensures var l' := DeleteAll(l, below, keys);
      (k in Flat([l'.cache] + below) <==> k in Flat([l.cache] + below) && k !in Listed([l.cache] + below, c)) &&
      (k in Flat([l'.cache] + below) ==> Flat([l'.cache] + below)[k] == Flat([l.cache] + below)[k])
  {
    OverlayFlat.ChainShowsFlat(below);
    OverlayFlat.DeleteAllIsMapRemoval(l, below, Flat(below), keys);
    assert ([l.cache] + below)[1..] == below;
    assert ([DeleteAll(l, below, keys).cache] + below)[1..] == below;
  }

  /** Tombstone texts tell keys apart where names and namespaces hold no slash. */
  lemma TextsDiffer(a: Key, b: Key)
    requires PlainName(a.ns) && PlainName(a.name) && PlainName(b.ns) && PlainName(b.name)
    ensures a.Text() == b.Text() <==> a == b
    ensures a.ns == "" ==> a.Text() == a.name
  {
    if a.Text() == b.Text() {
      SlashIsWhere(a);
      SlashIsWhere(b);
      assert a.ns != "" ==> b.Text()[|a.ns|] == '/';
      assert b.ns != "" ==> a.Text()[|b.ns|] == '/';
    }
  }

  lemma SlashIsWhere(k: Key)
    requires PlainName(k.ns) && PlainName(k.name)
    ensures forall i :: 0 <= i < |k.Text()| ==> (k.Text()[i] == '/' <==> k.ns != "" && i == |k.ns|)
    ensures k.ns != "" ==> |k.Text()| == |k.ns| + 1 + |k.name|
    ensures k.ns != "" ==> k.Text()[..|k.ns|] == k.ns && k.Text()[|k.ns| + 1..] == k.name
  {
  }
}
