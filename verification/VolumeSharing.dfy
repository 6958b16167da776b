/** When two claims end up with one volume in immediate mode, in terms of what is there before the
    call: which listed volume matches each claim, and what the claims are called. */
module VolumeSharing {
  import opened ApiObjects
  import opened VolumeSpec
  import opened VolumeTheorems
  import opened VolumeBinding

  ghost predicate ListedOnce(listed: seq<Volume>) {
    forall i, j :: 0 <= i < j < |listed| ==> listed[i].name != listed[j].name
  }

  /** The same listed volume matches both, or one is matched by a volume that is called like the
      other's simulated one, or neither is matched and their simulated names clash. */
  ghost predicate Collide(a: Key, ca: Claim, b: Key, cb: Claim, listed: seq<Volume>, find: Matcher) {
    if MatchesListed(ca, listed, find) then
      if MatchesListed(cb, listed, find) then find(ca, listed).index == find(cb, listed).index
      else listed[find(ca, listed).index].name == SimulatedName(b)
    else if MatchesListed(cb, listed, find) then listed[find(cb, listed).index].name == SimulatedName(a)
    else (exists s :: Overlaps(a, b, s)) || (exists s :: Overlaps(b, a, s))
  }

  lemma SameTargetIffCollide(a: Key, ca: Claim, b: Key, cb: Claim, listed: seq<Volume>, find: Matcher)
    requires a != b && ListedOnce(listed)
    ensures Target(a, ca, listed, find) == Target(b, cb, listed, find) <==> Collide(a, ca, b, cb, listed, find)
  {
    SimulatedNamesClashIff(a, b);
    if MatchesListed(ca, listed, find) && MatchesListed(cb, listed, find) {
      var i, j := find(ca, listed).index, find(cb, listed).index;
      assert i < j ==> listed[i].name != listed[j].name;
      assert j < i ==> listed[j].name != listed[i].name;
    }
  }

  lemma {:induction false} ImmediateAt(
    claims: Claims, order: seq<Key>, classes: seq<StorageClass>, listed: seq<Volume>, find: Matcher)
    ensures var links := Immediate(claims, order, classes, listed, find);
      (forall l :: l in links ==>
        l.key in claims && BindsNow(classes, claims[l.key]) &&
        l == ImmediateLink(l.key, claims[l.key], classes, listed, find)) &&
      (forall k :: k in order && k in claims && BindsNow(classes, claims[k]) ==>
        ImmediateLink(k, claims[k], classes, listed, find) in links)
  {
    if order != [] {
      var n := |order| - 1;
      ImmediateAt(claims, order[..n], classes, listed, find);
      assert order == order[..n] + [order[n]];
    }
  }

  /** Two claims that the call binds, and that would get one volume. */
  ghost predicate Clash(
    claims: Claims, classes: seq<StorageClass>, listed: seq<Volume>, find: Matcher, a: Key, b: Key)
  {
    && a != b && a in claims && b in claims && BindsNow(classes, claims[a]) && BindsNow(classes, claims[b])
    && Collide(a, WithClass(classes, claims[a]), b, WithClass(classes, claims[b]), listed, find)
  }

  lemma ClashOfLinks(
    claims: Claims, classes: seq<StorageClass>, listed: seq<Volume>, find: Matcher, l: Link, m: Link)
    requires ListedOnce(listed) && l.key != m.key && l.key in claims && m.key in claims
    requires BindsNow(classes, claims[l.key]) && l == ImmediateLink(l.key, claims[l.key], classes, listed, find)
    requires BindsNow(classes, claims[m.key]) && m == ImmediateLink(m.key, claims[m.key], classes, listed, find)
    ensures l.volume == m.volume <==> Clash(claims, classes, listed, find, l.key, m.key)
  {
    SameTargetIffCollide(l.key, l.claim, m.key, m.claim, listed, find);
  }

  lemma SharedVolumeIsClash(
    claims: Claims, order: seq<Key>, classes: seq<StorageClass>, listed: seq<Volume>, find: Matcher, i: nat, j: nat)
    requires var links := Immediate(claims, order, classes, listed, find);
      KeysDistinct(links) && i < j < |links| && links[i].volume == links[j].volume
    requires ListedOnce(listed)
    ensures var links := Immediate(claims, order, classes, listed, find);
      Clash(claims, classes, listed, find, links[i].key, links[j].key)
  {
    var links := Immediate(claims, order, classes, listed, find);
    ImmediateAt(claims, order, classes, listed, find);
    var l, m := links[i], links[j];
    assert l in links && m in links;
    ClashOfLinks(claims, classes, listed, find, l, m);
  }

  lemma ClashSharesVolume(
    claims: Claims, order: seq<Key>, classes: seq<StorageClass>, listed: seq<Volume>, find: Matcher, a: Key, b: Key)
    requires Lists(order, claims.Keys) && ListedOnce(listed) && Clash(claims, classes, listed, find, a, b)
    ensures !VolumesDistinct(Immediate(claims, order, classes, listed, find))
  {
    var links := Immediate(claims, order, classes, listed, find);
    ImmediateAt(claims, order, classes, listed, find);
    var l := ImmediateLink(a, claims[a], classes, listed, find);
    var m := ImmediateLink(b, claims[b], classes, listed, find);
    assert l in links && m in links;
    ClashOfLinks(claims, classes, listed, find, l, m);
    var i :| 0 <= i < |links| && links[i] == l;
    var j :| 0 <= j < |links| && links[j] == m;
    assert i < j || j < i;
  }

  lemma VolumesDistinctIffNoClash(
    claims: Claims, order: seq<Key>, classes: seq<StorageClass>, listed: seq<Volume>, find: Matcher)
    requires Lists(order, claims.Keys) && ListedOnce(listed)
    ensures VolumesDistinct(Immediate(claims, order, classes, listed, find)) <==>
      forall a, b :: !Clash(claims, classes, listed, find, a, b)
  {
    var links := Immediate(claims, order, classes, listed, find);
    LinksOfDistinct(claims, order, classes, listed, find);
    if i: nat, j: nat :| i < j < |links| && links[i].volume == links[j].volume {
      SharedVolumeIsClash(claims, order, classes, listed, find, i, j);
    }
    if a, b :| Clash(claims, classes, listed, find, a, b) {
      ClashSharesVolume(claims, order, classes, listed, find, a, b);
    }
  }

  /** After an immediate-mode call, every claim it bound is linked to its volume in both directions, if
      and only if no two of the claims clash. */
  lemma AllLinkedIffNoClash(
    wasC: Claims, nowC: Claims, wasV: Volumes, nowV: Volumes, order: seq<Key>, classes: seq<StorageClass>,
    listed: seq<Volume>, find: Matcher)
    requires Lists(order, wasC.Keys) && ListedOnce(listed)
    requires var links := Immediate(wasC, order, classes, listed, find);
      ClaimsBound(wasC, nowC, links) && VolumesBound(wasV, nowV, links)
    ensures (forall a, b :: !Clash(wasC, classes, listed, find, a, b)) <==>
      forall k :: k in wasC && BindsNow(classes, wasC[k]) ==>
        LinkedBothWays(nowC, nowV, k, ImmediateLink(k, wasC[k], classes, listed, find).volume)
  {
    var links := Immediate(wasC, order, classes, listed, find);
    VolumesDistinctIffNoClash(wasC, order, classes, listed, find);
    LinksOfDistinct(wasC, order, classes, listed, find);
    AllLinkedIffVolumesDistinct(wasC, nowC, wasV, nowV, links);
    ImmediateAt(wasC, order, classes, listed, find);
    if forall i :: 0 <= i < |links| ==> LinkedBothWays(nowC, nowV, links[i].key, links[i].volume) {
      forall k | k in wasC && BindsNow(classes, wasC[k])
        ensures LinkedBothWays(nowC, nowV, k, ImmediateLink(k, wasC[k], classes, listed, find).volume)
      {
        assert ImmediateLink(k, wasC[k], classes, listed, find) in links;
      }
    } else {
      var i :| 0 <= i < |links| && !LinkedBothWays(nowC, nowV, links[i].key, links[i].volume);
      assert links[i] in links;
    }
  }
}
