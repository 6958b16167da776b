/** The binding steps as loops over a view's claims and volumes. */
module VolumeBinding {
  import opened ApiObjects
  import opened VolumeSpec
  import opened VolumeTheorems

  /** A claim that is listed later has no link yet. */
  lemma {:induction false} LaterIsUnlinked(
    claims: Claims, order: seq<Key>, i: nat, classes: seq<StorageClass>, listed: seq<Volume>, find: Matcher)
    requires i <= |order|
    ensures forall l :: l in Provisioned(claims, order[..i]) ==> l.key in order[..i]
    ensures forall l :: l in Immediate(claims, order[..i], classes, listed, find) ==> l.key in order[..i]
  {
    if i > 0 {
      assert order[..i][..i - 1] == order[..i - 1];
      assert order[..i] == order[..i - 1] + [order[i - 1]];
      LaterIsUnlinked(claims, order, i - 1, classes, listed, find);
    }
  }

  /** Links made in the order of distinct claims have distinct keys. */
  lemma {:induction false} LinksOfDistinct(
    claims: Claims, order: seq<Key>, classes: seq<StorageClass>, listed: seq<Volume>, find: Matcher)
    requires forall i, j :: 0 <= i < j < |order| ==> order[i] != order[j]
    ensures KeysDistinct(Provisioned(claims, order)) && KeysDistinct(Immediate(claims, order, classes, listed, find))
  {
    if order != [] {
      var n := |order| - 1;
      LinksOfDistinct(claims, order[..n], classes, listed, find);
      LaterIsUnlinked(claims, order, n, classes, listed, find);
      KeyAfter(Provisioned(claims, order[..n]), order[..n], order[n]);
      KeyAfter(Immediate(claims, order[..n], classes, listed, find), order[..n], order[n]);
    }
  }

  lemma KeyAfter(links: seq<Link>, keys: seq<Key>, k: Key)
    requires KeysDistinct(links) && (forall l :: l in links ==> l.key in keys) && k !in keys
    ensures forall l: Link :: l.key == k ==> KeysDistinct(links + [l])
  {
    forall l: Link | l.key == k ensures KeysDistinct(links + [l]) {
      assert forall i :: 0 <= i < |links| ==> links[i] in links;
    }
  }

  lemma NotLinkedYet(links: seq<Link>, keys: seq<Key>, k: Key)
    requires (forall l :: l in links ==> l.key in keys) && k !in keys
    ensures LastOf(links, k).None?
  {
    LastOfAt(links, k);
  }

  lemma NextIsNew(order: seq<Key>, i: nat)
    requires i < |order| && forall a, b :: 0 <= a < b < |order| ==> order[a] != order[b]
    ensures order[i] in order && order[i] !in order[..i]
    ensures order[..i + 1] == order[..i] + [order[i]] && order[..i + 1][..i] == order[..i]
  {
  }

  /** The next claim of a listing is there, has no link yet, and gets one if it qualifies. */
  lemma NextProvisioned(claims: Claims, order: seq<Key>, i: nat)
    requires Lists(order, claims.Keys) && i < |order|
    ensures order[i] in claims
    ensures LastOf(Provisioned(claims, order[..i]), order[i]).None?
    ensures Provisioned(claims, order[..i + 1]) == Provisioned(claims, order[..i]) +
      if Selected(claims[order[i]]) then [Link(order[i], claims[order[i]], SimulatedName(order[i]))] else []
    ensures VolumesOf(Provisioned(claims, order[..i + 1])) == VolumesOf(Provisioned(claims, order[..i])) +
      if Selected(claims[order[i]]) then [SimulatedName(order[i])] else []
  {
    NextIsNew(order, i);
    LaterIsUnlinked(claims, order, i, [], [], (_, _) => NoMatch);
    NotLinkedYet(Provisioned(claims, order[..i]), order[..i], order[i]);
  }

  lemma NextImmediate(
    claims: Claims, order: seq<Key>, i: nat, classes: seq<StorageClass>, listed: seq<Volume>, find: Matcher)
    requires Lists(order, claims.Keys) && i < |order|
    ensures order[i] in claims
    ensures LastOf(Immediate(claims, order[..i], classes, listed, find), order[i]).None?
    ensures Immediate(claims, order[..i + 1], classes, listed, find) ==
      Immediate(claims, order[..i], classes, listed, find) +
      if BindsNow(classes, claims[order[i]])
      then [ImmediateLink(order[i], claims[order[i]], classes, listed, find)] else []
  {
    NextIsNew(order, i);
    LaterIsUnlinked(claims, order, i, classes, listed, find);
    NotLinkedYet(Immediate(claims, order[..i], classes, listed, find), order[..i], order[i]);
  }

  ghost predicate ChoosableUpTo(
    claims: Claims, volumes: Volumes, order: seq<Key>, n: nat, classes: seq<StorageClass>, listed: seq<Volume>,
    find: Matcher)
    requires n <= |order|
  {
    forall i :: 0 <= i < n ==> ChoosableAt(claims, volumes, order, i, classes, listed, find)
  }

  /** Choosing a volume looks at no other claim. */
  lemma OnlyOwnClaim(
    a: Claims, b: Claims, volumes: Volumes, k: Key, classes: seq<StorageClass>, listed: seq<Volume>, find: Matcher)
    requires k in a && k in b && a[k] == b[k]
    ensures Choosable(a, volumes, k, classes, listed, find) <==> Choosable(b, volumes, k, classes, listed, find)
    ensures BoundNext(a, volumes, k, classes, listed, find) == BoundNext(b, volumes, k, classes, listed, find)
    ensures BindsNow(classes, a[k]) || BoundNext(a, volumes, k, classes, listed, find) == volumes
  {
  }

  lemma NextVolumes(
    claims: Claims, volumes: Volumes, order: seq<Key>, i: nat, classes: seq<StorageClass>, listed: seq<Volume>,
    find: Matcher)
    requires i < |order|
    ensures var before := VolumesAfter(claims, volumes, order[..i], classes, listed, find);
      VolumesAfter(claims, volumes, order[..i + 1], classes, listed, find) ==
      BoundNext(claims, before, order[i], classes, listed, find)
  {
    assert order[..i + 1][..i] == order[..i];
  }

  lemma NextProvisionedVolumes(
    claims: Claims, volumes: Volumes, order: seq<Key>, i: nat, nodes: map<string, Option<string>>)
    requires i < |order|
    ensures ProvisionedVolumes(claims, volumes, order[..i + 1], nodes) ==
      ProvisionNext(claims, ProvisionedVolumes(claims, volumes, order[..i], nodes), order[i], nodes)
  {
    assert order[..i + 1][..i] == order[..i];
  }

  ghost function VolumesOf(links: seq<Link>): seq<string> {
    seq(|links|, i requires 0 <= i < |links| => links[i].volume)
  }

  /** Every selected claim among `keys` has a zone. */
  ghost predicate ZonesKnown(claims: Claims, keys: seq<Key>, nodes: map<string, Option<string>>) {
    forall k :: k in keys && k in claims && Selected(claims[k]) ==> ZoneKnown(claims[k], nodes)
  }

  lemma OneMoreZone(claims: Claims, keys: seq<Key>, k: Key, nodes: map<string, Option<string>>)
    requires ZonesKnown(claims, keys, nodes) && k in claims && (Selected(claims[k]) ==> ZoneKnown(claims[k], nodes))
    ensures ZonesKnown(claims, keys + [k], nodes)
  {
  }

  class VolumeView {
    var claims: Claims
    var volumes: Volumes
    const nodes: map<string, Option<string>>

    constructor (claims: Claims, volumes: Volumes, nodes: map<string, Option<string>>)
      ensures this.claims == claims && this.volumes == volumes && this.nodes == nodes
    {
      this.claims, this.volumes, this.nodes := claims, volumes, nodes;
    }

    /** The links made so far, and nothing else, separate the view from `c0` and `v0`. */
    ghost predicate Bound(c0: Claims, v0: Volumes, links: seq<Link>)
      reads this
    {
      ClaimsBound(c0, claims, links) && VolumesBound(v0, volumes, links)
    }

    /** Updates the claim first and the volume second; each must be in the view. */
    method BindClaimAndVolume(k: Key, claim: Claim, volume: Volume) returns (ok: bool)
      modifies this
      ensures ok <==> k in old(claims) && volume.name in old(volumes)
      ensures claims == if k in old(claims) then old(claims)[k := BoundClaim(claim, volume.name)] else old(claims)
      ensures volumes == if ok then old(volumes)[volume.name := BoundVolume(volume, k)] else old(volumes)
    {
      if k !in claims {
        return false;
      }
      claims := claims[k := BoundClaim(claim, volume.name)];
      if volume.name !in volumes {
        return false;
      }
      volumes := volumes[volume.name := BoundVolume(volume, k)];
      return true;
    }

    /** The volume with the claim's simulated name, which is created if it is not there. */
    method CreateSimulatedVolume(k: Key, claim: Claim, zone: string) returns (volume: Volume)
      requires Named(volumes)
      modifies this`volumes
      ensures Named(volumes) && volume.name == SimulatedName(k) && volume.name in volumes
      ensures volume.name in old(volumes) ==> volumes == old(volumes) && volume == volumes[volume.name]
      ensures volume.name !in old(volumes) ==>
        volume == Simulated(k, claim, zone) && volumes == old(volumes)[volume.name := volume]
    {
      var name := SimulatedName(k);
      if name in volumes {
        return volumes[name];
      }
      volume := Simulated(k, claim, zone);
      volumes := volumes[name := volume];
    }

    method SelectedNodeZone(claim: Claim) returns (zone: Option<string>)
      requires claim.selectedNode.Some?
      ensures zone.Some? <==> ZoneKnown(claim, nodes)
      ensures zone.Some? ==> zone == nodes[claim.selectedNode.value]
    {
      var name := claim.selectedNode.value;
      if name == "" || name !in nodes {
        return None;
      }
      return nodes[name];
    }

    /** On success the selected claims are bound to their simulated volumes and nothing else
        has changed; it succeeds exactly when every selected claim's zone is known.  On failure
        the claims before the failing one are bound. */
    method ProvisionAndBindVolumes(order: seq<Key>) returns (ok: bool, provisioned: seq<string>, ghost seen: nat)
      requires Named(volumes) && Lists(order, claims.Keys)
      modifies this
      ensures ok <==> ZonesKnown(old(claims), order, nodes)
      ensures seen <= |order| && Bound(old(claims), old(volumes), Provisioned(old(claims), order[..seen]))
      ensures volumes == ProvisionedVolumes(old(claims), old(volumes), order[..seen], nodes)
      ensures provisioned == VolumesOf(Provisioned(old(claims), order[..seen]))
      ensures ok ==> order[..seen] == order
      ensures !ok ==>
        seen < |order| && ZonesKnown(old(claims), order[..seen], nodes) &&
        !ZonesKnown(old(claims), [order[seen]], nodes)
    {
      ghost var c0, v0 := claims, volumes;
      provisioned := [];
      for i := 0 to |order|
        invariant ProvisionedUpTo(c0, v0, order, i)
        invariant provisioned == VolumesOf(Provisioned(c0, order[..i]))
        invariant ZonesKnown(c0, order[..i], nodes)
      {
        NextIsNew(order, i);
        NextProvisioned(c0, order, i);
        var done, name := ProvisionTurn(order, i, c0, v0);
        if !done {
          return false, provisioned, i;
        }
        provisioned := provisioned + if name.Some? then [name.value] else [];
        OneMoreZone(c0, order[..i], order[i], nodes);
      }
      assert order[..|order|] == order;
      return true, provisioned, |order|;
    }

    /** The state when the first `i` claims have had their turn. */
    ghost predicate ProvisionedUpTo(c0: Claims, v0: Volumes, order: seq<Key>, i: nat)
      requires i <= |order|
      reads this
    {
      && Bound(c0, v0, Provisioned(c0, order[..i]))
      && volumes == ProvisionedVolumes(c0, v0, order[..i], nodes)
    }

    /** The turn of the claim at `i`. */
    method ProvisionTurn(order: seq<Key>, i: nat, ghost c0: Claims, ghost v0: Volumes)
      returns (ok: bool, name: Option<string>)
      requires i < |order| && Lists(order, c0.Keys) && ProvisionedUpTo(c0, v0, order, i)
      modifies this
      ensures order[i] in c0 && (ok <==> (Selected(c0[order[i]]) ==> ZoneKnown(c0[order[i]], nodes)))
      ensures ProvisionedUpTo(c0, v0, order, if ok then i + 1 else i)
      ensures name == if Selected(c0[order[i]]) then Some(SimulatedName(order[i])) else None
    {
      var k := order[i];
      ghost var links := Provisioned(c0, order[..i]);
      NextProvisioned(c0, order, i);
      NextProvisionedVolumes(c0, v0, order, i, nodes);
      assert claims[k] == c0[k];
      if !Selected(claims[k]) {
        assert Provisioned(c0, order[..i + 1]) == links;
        return true, None;
      }
      ok := ProvisionOne(k, c0, v0, links);
      name := Some(SimulatedName(k));
    }

    method ProvisionOne(k: Key, ghost c0: Claims, ghost v0: Volumes, ghost links: seq<Link>) returns (ok: bool)
      requires k in claims && Selected(claims[k]) && Bound(c0, v0, links) && LastOf(links, k).None?
      modifies this
      ensures ok <==> ZoneKnown(old(claims)[k], nodes)
      ensures !ok ==> claims == old(claims) && volumes == old(volumes)
      ensures ok ==> Bound(c0, v0, links + [Link(k, old(claims)[k], SimulatedName(k))])
      ensures ok ==> volumes == ProvisionNext(old(claims), old(volumes), k, nodes)
    {
      var claim := claims[k];
      var zone := SelectedNodeZone(claim);
      if zone.None? {
        return false;
      }
      ok := BindSimulated(k, claim, zone.value, c0, v0, links);
    }

    method BindSimulated(
      k: Key, claim: Claim, zone: string, ghost c0: Claims, ghost v0: Volumes, ghost links: seq<Link>)
      returns (ok: bool)
      requires k in claims && Bound(c0, v0, links)
      requires LastOf(links, k).None?
      modifies this
      ensures ok
      ensures Bound(c0, v0, links + [Link(k, claim, SimulatedName(k))])
      ensures volumes ==
        old(volumes)[SimulatedName(k) := BoundVolume(SimulatedIn(old(volumes), k, claim, zone), k)]
    {
      ghost var l := Link(k, claim, SimulatedName(k));
      ghost var c, v := claims, volumes;
      var volume := CreateSimulatedVolume(k, claim, zone);
      ok := BindClaimAndVolume(k, claim, volume);
      OneMoreClaim(c0, c, links, l, claims);
      assert volumes == v[l.volume := BoundVolume(volume, k)];
      OneMoreVolume(v0, v, links, l, volume, volumes);
    }

    /** A listed volume that matches, or else a simulated one that matches. */
    method FindOrCreateVolume(k: Key, claim: Claim, class_: StorageClass, listed: seq<Volume>, find: Matcher)
      returns (r: Option<Volume>)
      requires Named(volumes)
      modifies this`volumes
      ensures r == ChosenVolume(old(volumes), k, claim, class_, listed, find)
      ensures volumes == VolumesAfterChoice(old(volumes), k, claim, class_, listed, find)
      ensures Named(volumes)
      ensures r.Some? ==> r.value.name == Target(k, claim, listed, find)
    {
      var m := find(claim, listed);
      if m.MatchError? {
        return None;
      }
      if m.Matched? && m.index < |listed| {
        return Some(listed[m.index]);
      }
      if class_.zone.None? {
        return None;
      }
      var volume := CreateSimulatedVolume(k, claim, class_.zone.value);
      assert volumes == old(volumes)[SimulatedName(k) := volume];
      var check := find(claim, [volume]);
      r := if check == Matched(0) then Some(volume) else None;
    }

    /** It succeeds exactly when a volume can be chosen for every claim that binds at once.  Then
        each of them is bound to its target, and the answer holds, for each volume that was used,
        the claim it ended up with: those pairs are linked in both directions.  On failure the
        claims before the failing one are bound. */
    method BindClaimsForImmediateMode(order: seq<Key>, classes: seq<StorageClass>, listed: seq<Volume>, find: Matcher)
      returns (ok: bool, bound: map<string, Key>, ghost seen: nat)
      requires Named(volumes) && Lists(order, claims.Keys) && forall v :: v in listed ==> v.name in volumes
      modifies this
      ensures ok <==> AllChoosable(old(claims), old(volumes), order, classes, listed, find)
      ensures ok ==> volumes == VolumesAfter(old(claims), old(volumes), order, classes, listed, find)
      ensures ok ==> Bound(old(claims), old(volumes), Immediate(old(claims), order, classes, listed, find))
      ensures ok ==> Assigns(bound, Immediate(old(claims), order, classes, listed, find))
      ensures ok ==> forall v :: v in bound ==> LinkedBothWays(claims, volumes, bound[v], v)
      ensures seen <= |order| &&
        ClaimsBound(old(claims), claims, Immediate(old(claims), order[..seen], classes, listed, find))
      ensures !ok ==>
        seen < |order| && ChoosableUpTo(old(claims), old(volumes), order, seen, classes, listed, find) &&
        !ChoosableAt(old(claims), old(volumes), order, seen, classes, listed, find) &&
        volumes == VolumesAfter(old(claims), old(volumes), order[..seen + 1], classes, listed, find)
    {
      ghost var c0, v0 := claims, volumes;
      bound := map[];
      for i := 0 to |order|
        invariant BoundUpTo(c0, v0, order, i, classes, listed, find)
        invariant Assigns(bound, Immediate(c0, order[..i], classes, listed, find))
        invariant ChoosableUpTo(c0, v0, order, i, classes, listed, find)
      {
        var step;
        step, bound := BindNext(order, i, classes, listed, find, bound, c0, v0);
        if !step {
          return false, bound, i;
        }
      }
      assert order[..|order|] == order;
      AllLinked(c0, v0, order, classes, listed, find, bound);
      return true, bound, |order|;
    }

    /** The state when the first `i` claims have had their turn. */
    ghost predicate BoundUpTo(
      c0: Claims, v0: Volumes, order: seq<Key>, i: nat, classes: seq<StorageClass>, listed: seq<Volume>, find: Matcher)
      requires i <= |order|
      reads this
    {
      && Bound(c0, v0, Immediate(c0, order[..i], classes, listed, find))
      && volumes == VolumesAfter(c0, v0, order[..i], classes, listed, find)
    }

    /** The turn of the claim at `i`. */
    method BindNext(
      order: seq<Key>, i: nat, classes: seq<StorageClass>, listed: seq<Volume>, find: Matcher,
      bound: map<string, Key>, ghost c0: Claims, ghost v0: Volumes)
      returns (ok: bool, bound': map<string, Key>)
      requires i < |order| && Lists(order, c0.Keys) && forall v :: v in listed ==> v.name in v0
      requires BoundUpTo(c0, v0, order, i, classes, listed, find)
      requires Assigns(bound, Immediate(c0, order[..i], classes, listed, find))
      modifies this
      ensures ok <==> ChoosableAt(c0, v0, order, i, classes, listed, find)
      ensures ok ==> BoundUpTo(c0, v0, order, i + 1, classes, listed, find)
      ensures ok ==> Assigns(bound', Immediate(c0, order[..i + 1], classes, listed, find))
      ensures !ok ==> claims == old(claims)
      ensures volumes == VolumesAfter(c0, v0, order[..i + 1], classes, listed, find)
    {
      var k := order[i];
      ghost var links := Immediate(c0, order[..i], classes, listed, find);
      NextImmediate(c0, order, i, classes, listed, find);
      NextVolumes(c0, v0, order, i, classes, listed, find);
      OnlyOwnClaim(claims, c0, volumes, k, classes, listed, find);
      if !BindsNow(classes, claims[k]) {
        assert Immediate(c0, order[..i + 1], classes, listed, find) == links;
        return true, bound;
      }
      var name := BindOne(k, classes, listed, find, c0, v0, links);
      if name.None? {
        return false, bound;
      }
      OneMoreAssigned(bound, links, ImmediateLink(k, c0[k], classes, listed, find));
      return true, bound[name.value := k];
    }

    /** Every pair of the answer is linked in the view. */
    lemma AllLinked(
      c0: Claims, v0: Volumes, order: seq<Key>, classes: seq<StorageClass>, listed: seq<Volume>, find: Matcher,
      bound: map<string, Key>)
      requires Lists(order, c0.Keys) && Bound(c0, v0, Immediate(c0, order, classes, listed, find))
      requires Assigns(bound, Immediate(c0, order, classes, listed, find))
      ensures forall v :: v in bound ==> LinkedBothWays(claims, volumes, bound[v], v)
    {
      LinksOfDistinct(c0, order, classes, listed, find);
      forall v | v in bound ensures LinkedBothWays(claims, volumes, bound[v], v) {
        LastForIsLinked(c0, claims, v0, volumes, Immediate(c0, order, classes, listed, find), v);
      }
    }

    method BindOne(
      k: Key, classes: seq<StorageClass>, listed: seq<Volume>, find: Matcher, ghost c0: Claims, ghost v0: Volumes,
      ghost links: seq<Link>)
      returns (name: Option<string>)
      requires k in claims && BindsNow(classes, claims[k]) && Bound(c0, v0, links)
      requires LastOf(links, k).None? && forall v :: v in listed ==> v.name in v0
      modifies this
      ensures name.Some? <==> Choosable(old(claims), old(volumes), k, classes, listed, find)
      ensures volumes == BoundNext(old(claims), old(volumes), k, classes, listed, find)
      ensures name.None? ==> claims == old(claims)
      ensures name.Some? ==> name.value == Target(k, WithClass(classes, old(claims)[k]), listed, find)
      ensures name.Some? ==> Bound(c0, v0, links + [Link(k, WithClass(classes, old(claims)[k]), name.value)])
    {
      ghost var c, v := claims, volumes;
      var claim := WithClass(classes, claims[k]);
      var found := FindOrCreateVolume(k, claim, ClassOf(classes, claims[k]).value, listed, find);
      if found.None? {
        return None;
      }
      var volume := found.value;
      if volume in listed {
        VolumesKept(v0, v, links, volume.name);
      }
      var ok := BindClaimAndVolume(k, claim, volume);
      ghost var l := Link(k, claim, volume.name);
      OneMoreClaim(c0, c, links, l, claims);
      assert volumes == v[l.volume := BoundVolume(volume, k)];
      OneMoreVolume(v0, v, links, l, volume, volumes);
      name := Some(volume.name);
    }

    /** Binds every unfinished volume and repoints its claim to it. */
    method FinalizeStaticBindings(order: seq<string>) returns (numBound: nat)
      requires Lists(order, volumes.Keys)
      modifies this
      ensures ClaimsFinished(old(claims), claims, Finalized(old(claims), old(volumes), order))
      ensures VolumesFinished(old(volumes), volumes, Finalized(old(claims), old(volumes), order))
      ensures numBound == |Finalized(old(claims), old(volumes), order)|
    {
      var listed := volumes;
      ghost var c0 := claims;
      ghost var links: seq<Link> := [];
      numBound := 0;
      for i := 0 to |order|
        invariant links == Finalized(c0, listed, order[..i]) && numBound == |links|
        invariant ClaimsFinished(c0, claims, links)
        invariant VolumesFinished(listed, volumes, links)
      {
        assert order[..i + 1][..i] == order[..i];
        assert order[i] in order;
        var volume := listed[order[i]];
        if volume.claimRef.Some? && volume.phase != VolumeBound && volume.claimRef.value in claims {
          var k := volume.claimRef.value;
          ghost var l := Link(k, c0[k], order[i]);
          OneMoreFinished(c0, claims, listed, volumes, links, l);
          claims := claims[k := FinishedClaim(claims[k], Some(order[i]))];
          volumes := volumes[order[i] := volume.(phase := VolumeBound)];
          links := links + [l];
          numBound := numBound + 1;
        }
      }
      assert order[..|order|] == order;
    }
  }

  /** The answer names the last claim of every volume used. */
  ghost predicate Assigns(bound: map<string, Key>, links: seq<Link>) {
    forall v :: (v in bound <==> LastFor(links, v).Some?) && (v in bound ==> LastFor(links, v) == Some(bound[v]))
  }

  lemma OneMoreAssigned(bound: map<string, Key>, links: seq<Link>, l: Link)
    requires Assigns(bound, links)
    ensures Assigns(bound[l.volume := l.key], links + [l])
  {
    forall v
      ensures LastFor(links + [l], v) == if l.volume == v then Some(l.key) else LastFor(links, v)
    {
      LastForAppend(links, l, v);
    }
  }
}
