/** What the binding steps guarantee, and where they do not. */
module VolumeTheorems {
  import opened ApiObjects
  import opened VolumeSpec

  /** There is such a list of any keys. */
  lemma {:induction false} SomeListing(keys: set<Key>) returns (order: seq<Key>)
    ensures Lists(order, keys)
    decreases keys
  {
    order := [];
    if keys != {} {
      var k :| k in keys;
      var rest := SomeListing(keys - {k});
      order := rest + [k];
    }
  }

  lemma {:induction false} LastForAt(links: seq<Link>, v: string)
    ensures LastFor(links, v).None? <==> forall l :: l in links ==> l.volume != v
    ensures LastFor(links, v).Some? ==>
      exists i :: 0 <= i < |links| && links[i].volume == v && links[i].key == LastFor(links, v).value &&
                  forall j :: i < j < |links| ==> links[j].volume != v
  {
    if links != [] {
      var n := |links| - 1;
      LastForAt(links[..n], v);
      assert links == links[..n] + [links[n]];
    }
  }

  lemma {:induction false} LastOfAt(links: seq<Link>, k: Key)
    ensures LastOf(links, k).None? <==> forall l :: l in links ==> l.key != k
  {
    if links != [] {
      var n := |links| - 1;
      LastOfAt(links[..n], k);
      assert links == links[..n] + [links[n]];
    }
  }

  lemma LastOfAppend(links: seq<Link>, l: Link, k: Key)
    ensures LastOf(links + [l], k) == if l.key == k then Some(l.volume) else LastOf(links, k)
  {
    assert (links + [l])[..|links|] == links;
  }

  lemma LastForAppend(links: seq<Link>, l: Link, v: string)
    ensures LastFor(links + [l], v) == if l.volume == v then Some(l.key) else LastFor(links, v)
  {
    assert (links + [l])[..|links|] == links;
  }

  // ---------------------------------------------------------------------------
  // One more binding
  // ---------------------------------------------------------------------------

  lemma OneMoreClaim(was: Claims, now: Claims, links: seq<Link>, l: Link, next: Claims)
    requires ClaimsBound(was, now, links) && l.key in now && LastOf(links, l.key).None?
    requires next == now[l.key := BoundClaim(l.claim, l.volume)]
    ensures ClaimsBound(was, next, links + [l])
  {
    LastOfAt(links, l.key);
    forall k
      ensures LastOf(links + [l], k) == if l.key == k then Some(l.volume) else LastOf(links, k)
    {
      LastOfAppend(links, l, k);
    }
  }

  lemma OneMoreVolume(was: Volumes, now: Volumes, links: seq<Link>, l: Link, v: Volume, next: Volumes)
    requires VolumesBound(was, now, links) && v.name == l.volume
    requires next == now[l.volume := BoundVolume(v, l.key)]
    ensures VolumesBound(was, next, links + [l])
  {
    forall w
      ensures LastFor(links + [l], w) == if l.volume == w then Some(l.key) else LastFor(links, w)
    {
      LastForAppend(links, l, w);
    }
  }

  // ---------------------------------------------------------------------------
  // Links in both directions
  // ---------------------------------------------------------------------------

  /** A link holds in both directions exactly when no later link takes its volume. */
  lemma LinkHoldsIffLast(wasC: Claims, nowC: Claims, wasV: Volumes, nowV: Volumes, links: seq<Link>, i: nat)
    requires ClaimsBound(wasC, nowC, links) && VolumesBound(wasV, nowV, links) && KeysDistinct(links) && i < |links|
    ensures LinkedBothWays(nowC, nowV, links[i].key, links[i].volume) <==>
      forall j :: i < j < |links| ==> links[j].volume != links[i].volume
  {
    LastForAt(links, links[i].volume);
    assert links[i] in links;
  }

  /** The links all hold in both directions exactly when they name different volumes. */
  lemma AllLinkedIffVolumesDistinct(wasC: Claims, nowC: Claims, wasV: Volumes, nowV: Volumes, links: seq<Link>)
    requires ClaimsBound(wasC, nowC, links) && VolumesBound(wasV, nowV, links) && KeysDistinct(links)
    ensures VolumesDistinct(links) <==>
      forall i :: 0 <= i < |links| ==> LinkedBothWays(nowC, nowV, links[i].key, links[i].volume)
  {
    forall i | 0 <= i < |links|
      ensures LinkedBothWays(nowC, nowV, links[i].key, links[i].volume) <==>
        forall j :: i < j < |links| ==> links[j].volume != links[i].volume
    {
      LinkHoldsIffLast(wasC, nowC, wasV, nowV, links, i);
    }
  }

  /** The last claim of a volume is linked to it in both directions, whatever else was bound. */
  lemma LastForIsLinked(wasC: Claims, nowC: Claims, wasV: Volumes, nowV: Volumes, links: seq<Link>, v: string)
    requires ClaimsBound(wasC, nowC, links) && VolumesBound(wasV, nowV, links) && KeysDistinct(links)
    requires LastFor(links, v).Some?
    ensures LinkedBothWays(nowC, nowV, LastFor(links, v).value, v)
  {
    LastForAt(links, v);
    var i :| 0 <= i < |links| && links[i].volume == v && links[i].key == LastFor(links, v).value &&
             forall j :: i < j < |links| ==> links[j].volume != v;
    LinkHoldsIffLast(wasC, nowC, wasV, nowV, links, i);
  }

  // ---------------------------------------------------------------------------
  // Which claims are linked
  // ---------------------------------------------------------------------------

  lemma {:induction false} ProvisionedAt(claims: Claims, order: seq<Key>, k: Key)
    ensures LastOf(Provisioned(claims, order), k).Some? <==> k in order && k in claims && Selected(claims[k])
    ensures forall l :: l in Provisioned(claims, order) ==>
      l.key in order && l.key in claims && l == Link(l.key, claims[l.key], SimulatedName(l.key))
  {
    if order != [] {
      var n := |order| - 1;
      ProvisionedAt(claims, order[..n], k);
      assert order == order[..n] + [order[n]];
      if order[n] in claims && Selected(claims[order[n]]) {
        LastOfAppend(Provisioned(claims, order[..n]), Link(order[n], claims[order[n]], SimulatedName(order[n])), k);
      } else {
        assert Provisioned(claims, order) == Provisioned(claims, order[..n]);
      }
    }
  }

  lemma {:induction false} NoneProvisioned(claims: Claims, order: seq<Key>)
    requires forall k :: k in claims ==> !Selected(claims[k])
    ensures Provisioned(claims, order) == []
  {
    if order != [] {
      NoneProvisioned(claims, order[..|order| - 1]);
    }
  }

  /** After provisioning, no claim is waiting any more: every selected one is bound, the others
      were not selected. */
  lemma ProvisionedSettles(was: Claims, now: Claims, order: seq<Key>)
    requires Lists(order, was.Keys) && ClaimsBound(was, now, Provisioned(was, order))
    ensures forall k :: k in now ==> !Selected(now[k])
    ensures forall k :: k in was && was[k].phase != ClaimPending ==> now[k] == was[k]
  {
    var links := Provisioned(was, order);
    forall k | k in was
      ensures !Selected(now[k]) && (was[k].phase != ClaimPending ==> now[k] == was[k])
    {
      ProvisionedAt(was, order, k);
      LastOfAt(links, k);
      if LastOf(links, k).Some? {
        var l :| l in links && l.key == k;
        assert now[k] == BoundClaim(l.claim, l.volume);
      }
    }
  }

  /** A second call finds nothing to provision, in whatever order it lists the claims. */
  lemma ProvisionIsIdempotent(was: Claims, now: Claims, order: seq<Key>, order': seq<Key>)
    requires Lists(order, was.Keys) && ClaimsBound(was, now, Provisioned(was, order))
    ensures Provisioned(now, order') == []
  {
    ProvisionedSettles(was, now, order);
    NoneProvisioned(now, order');
  }

  // ---------------------------------------------------------------------------
  // Finalising static bindings
  // ---------------------------------------------------------------------------

  lemma {:induction false} FinalizedAt(claims: Claims, volumes: Volumes, order: seq<string>, v: string)
    ensures LastFor(Finalized(claims, volumes, order), v).Some? <==>
      v in order && v in volumes && Unfinished(claims, volumes[v])
  {
    if order != [] {
      var n := |order| - 1;
      FinalizedAt(claims, volumes, order[..n], v);
      assert order == order[..n] + [order[n]];
      if order[n] in volumes && Unfinished(claims, volumes[order[n]]) {
        LastForAppend(Finalized(claims, volumes, order[..n]),
          Link(volumes[order[n]].claimRef.value, claims[volumes[order[n]].claimRef.value], order[n]), v);
      } else {
        assert Finalized(claims, volumes, order) == Finalized(claims, volumes, order[..n]);
      }
    }
  }

  /** Volume `u` is unfinished and refers to claim `k`. */
  predicate Wants(claims: Claims, volumes: Volumes, u: string, k: Key) {
    u in volumes && Unfinished(claims, volumes[u]) && volumes[u].claimRef == Some(k)
  }

  lemma FinalizedLast(claims: Claims, volumes: Volumes, order: seq<string>, k: Key)
    requires order != []
    ensures var n := |order| - 1;
      LastOf(Finalized(claims, volumes, order), k) ==
        if Wants(claims, volumes, order[n], k) then Some(order[n])
        else LastOf(Finalized(claims, volumes, order[..n]), k)
  {
    var n := |order| - 1;
    if order[n] in volumes && Unfinished(claims, volumes[order[n]]) {
      LastOfAppend(Finalized(claims, volumes, order[..n]),
        Link(volumes[order[n]].claimRef.value, claims[volumes[order[n]].claimRef.value], order[n]), k);
    } else {
      assert Finalized(claims, volumes, order) == Finalized(claims, volumes, order[..n]);
    }
  }

  lemma {:induction false} FinalizedOf(claims: Claims, volumes: Volumes, order: seq<string>, k: Key)
    ensures match LastOf(Finalized(claims, volumes, order), k)
      case Some(u) => u in order && Wants(claims, volumes, u, k)
      case None => forall u :: u in order ==> !Wants(claims, volumes, u, k)
  {
    if order != [] {
      var n := |order| - 1;
      FinalizedLast(claims, volumes, order, k);
      FinalizedOf(claims, volumes, order[..n], k);
      forall u | u in order ensures u in order[..n] || u == order[n] {
        assert order == order[..n] + [order[n]];
      }
    }
  }

  /** A claim that is already bound, link in both directions, keeps its volume exactly when no
      unfinished volume refers to it: the claim's own volume name is not looked at. */
  lemma BoundClaimKeptIff(wasC: Claims, nowC: Claims, wasV: Volumes, order: seq<string>, k: Key, v: string)
    requires Lists(order, wasV.Keys) && ClaimsFinished(wasC, nowC, Finalized(wasC, wasV, order))
    requires LinkedBothWays(wasC, wasV, k, v)
    ensures nowC[k].volumeName == v <==>
      forall u :: u in wasV && Unfinished(wasC, wasV[u]) ==> wasV[u].claimRef != Some(k)
  {
    FinalizedOf(wasC, wasV, order, k);
  }

  /** It does lose it: a claim bound to one volume is moved to another, available one that still
      refers to it, and the first stays marked as the claim's. */
  lemma BoundClaimCanMove(k: Key, claim: Claim, bound: Volume, other: Volume, nowC: Claims)
    requires claim.phase == ClaimBound && claim.volumeName == "v"
    requires bound.phase == VolumeBound && bound.claimRef == Some(k)
    requires other.phase == VolumeAvailable && other.claimRef == Some(k)
    requires ClaimsFinished(map[k := claim], nowC,
      Finalized(map[k := claim], map["v" := bound, "u" := other], ["v", "u"]))
    ensures LinkedBothWays(map[k := claim], map["v" := bound, "u" := other], k, "v")
    ensures nowC[k].volumeName == "u"
  {
    var wasC, wasV := map[k := claim], map["v" := bound, "u" := other];
    var before := Finalized(wasC, wasV, ["v"]);
    assert ["v", "u"][..1] == ["v"];
    assert Finalized(wasC, wasV, ["v", "u"]) == before + [Link(k, claim, "u")];
    LastOfAppend(before, Link(k, claim, "u"), k);
  }

  /** An unfinished volume is linked in both directions afterwards exactly when it is the last
      listed of those that refer to its claim. */
  lemma FinishedLinkedIff(wasC: Claims, nowC: Claims, wasV: Volumes, nowV: Volumes, order: seq<string>, u: string)
    requires Lists(order, wasV.Keys) && u in wasV && Unfinished(wasC, wasV[u])
    requires ClaimsFinished(wasC, nowC, Finalized(wasC, wasV, order)) &&
      VolumesFinished(wasV, nowV, Finalized(wasC, wasV, order))
    ensures LinkedBothWays(nowC, nowV, wasV[u].claimRef.value, u) <==>
      LastOf(Finalized(wasC, wasV, order), wasV[u].claimRef.value) == Some(u)
  {
    FinalizedAt(wasC, wasV, order, u);
    FinalizedOf(wasC, wasV, order, wasV[u].claimRef.value);
  }

  lemma OneMoreFinished(wasC: Claims, nowC: Claims, wasV: Volumes, nowV: Volumes, links: seq<Link>, l: Link)
    requires ClaimsFinished(wasC, nowC, links) && VolumesFinished(wasV, nowV, links)
    requires l.key in wasC && l.volume in wasV
    ensures ClaimsFinished(wasC, nowC[l.key := FinishedClaim(nowC[l.key], Some(l.volume))], links + [l])
    ensures VolumesFinished(wasV, nowV[l.volume := wasV[l.volume].(phase := VolumeBound)], links + [l])
  {
    forall k
      ensures LastOf(links + [l], k) == if l.key == k then Some(l.volume) else LastOf(links, k)
    {
      LastOfAppend(links, l, k);
    }
    forall w
      ensures LastFor(links + [l], w) == if l.volume == w then Some(l.key) else LastFor(links, w)
    {
      LastForAppend(links, l, w);
    }
  }

  lemma VolumesKept(was: Volumes, now: Volumes, links: seq<Link>, v: string)
    requires VolumesBound(was, now, links) && v in was
    ensures v in now
  {
    LastForAt(links, v);
  }

  lemma {:induction false} NoneFinalized(claims: Claims, volumes: Volumes, order: seq<string>)
    requires forall v :: v in volumes ==> !Unfinished(claims, volumes[v])
    ensures Finalized(claims, volumes, order) == []
  {
    if order != [] {
      NoneFinalized(claims, volumes, order[..|order| - 1]);
    }
  }

  /** A second call finishes nothing, whether or not every claim reference resolves: a volume
      whose claim is missing is passed over both times. */
  lemma FinalizeIsIdempotent(
    wasC: Claims, nowC: Claims, wasV: Volumes, nowV: Volumes, order: seq<string>, order': seq<string>)
    requires Lists(order, wasV.Keys)
    requires ClaimsFinished(wasC, nowC, Finalized(wasC, wasV, order)) &&
      VolumesFinished(wasV, nowV, Finalized(wasC, wasV, order))
    ensures Finalized(nowC, nowV, order') == []
  {
    forall v | v in nowV ensures !Unfinished(nowC, nowV[v]) {
      FinalizedAt(wasC, wasV, order, v);
    }
    NoneFinalized(nowC, nowV, order');
  }

  /** After one round of volume work another round has none, until somebody else acts. */
  lemma WorkSettles(
    c0: Claims, c1: Claims, c2: Claims, v1: Volumes, v2: Volumes, order: seq<Key>, vorder: seq<string>,
    order': seq<Key>, vorder': seq<string>)
    requires Lists(order, c0.Keys) && ClaimsBound(c0, c1, Provisioned(c0, order))
    requires Lists(vorder, v1.Keys)
    requires ClaimsFinished(c1, c2, Finalized(c1, v1, vorder)) && VolumesFinished(v1, v2, Finalized(c1, v1, vorder))
    ensures Provisioned(c2, order') == [] && Finalized(c2, v2, vorder') == []
  {
    ProvisionedSettles(c0, c1, order);
    assert forall k :: k in c2 ==> !Selected(c2[k]);
    NoneProvisioned(c2, order');
    FinalizeIsIdempotent(c1, c2, v1, v2, vorder, vorder');
  }

  // ---------------------------------------------------------------------------
  // Where claims share a volume
  // ---------------------------------------------------------------------------

  /** Two claims get the same simulated volume, because the separator may occur in a name. */
  lemma SimulatedNamesClash()
    ensures Key("a", "b-c") != Key("a-b", "c") && SimulatedName(Key("a", "b-c")) == SimulatedName(Key("a-b", "c"))
  {
    assert SIMULATED_PREFIX + "a" + "-" + "b-c" == SIMULATED_PREFIX + "a-b" + "-" + "c";
  }

  /** `s` can be moved from the namespace of `k` to the front of the name of `j`. */
  ghost predicate Overlaps(j: Key, k: Key, s: string) {
    k.ns == j.ns + "-" + s && j.name == s + "-" + k.name
  }

  lemma OverlapClashes(j: Key, k: Key, s: string)
    requires Overlaps(j, k, s)
    ensures SimulatedName(j) == SimulatedName(k)
  {
    assert SIMULATED_PREFIX + j.ns + "-" + (s + "-" + k.name) == SIMULATED_PREFIX + (j.ns + "-" + s) + "-" + k.name;
  }

  lemma SameTails(j: Key, k: Key)
    requires SimulatedName(j) == SimulatedName(k)
    ensures j.ns + "-" + j.name == k.ns + "-" + k.name
  {
    var p := |SIMULATED_PREFIX|;
    assert SimulatedName(j) == SIMULATED_PREFIX + (j.ns + "-" + j.name);
    assert SimulatedName(k) == SIMULATED_PREFIX + (k.ns + "-" + k.name);
    assert SimulatedName(j)[p..] == j.ns + "-" + j.name && SimulatedName(k)[p..] == k.ns + "-" + k.name;
  }

  lemma ClashOverlaps(j: Key, k: Key) returns (s: string)
    requires j.ns + "-" + j.name == k.ns + "-" + k.name && |j.ns| < |k.ns|
    ensures Overlaps(j, k, s)
  {
    var f := j.ns + "-" + j.name;
    s := k.ns[|j.ns| + 1..];
    assert f[..|k.ns|] == k.ns && f[..|j.ns|] == j.ns && f[|j.ns|] == '-';
    assert k.ns == k.ns[..|j.ns|] + [k.ns[|j.ns|]] + s;
    assert k.ns[..|j.ns|] == f[..|j.ns|] && k.ns[|j.ns|] == f[|j.ns|];
    assert f[|j.ns| + 1..] == j.name;
    assert f == j.ns + "-" + (s + "-" + k.name);
    assert (j.ns + "-" + (s + "-" + k.name))[|j.ns| + 1..] == s + "-" + k.name;
  }

  lemma SameNamespaceSameKey(j: Key, k: Key)
    requires j.ns + "-" + j.name == k.ns + "-" + k.name && |j.ns| == |k.ns|
    ensures j == k
  {
    var f, g := j.ns + "-" + j.name, k.ns + "-" + k.name;
    assert f[..|j.ns|] == j.ns && g[..|k.ns|] == k.ns;
    assert f[|j.ns| + 1..] == j.name && g[|k.ns| + 1..] == k.name;
  }

  /** Two claims have the same simulated volume name if and only if one's namespace is the other's
      with `-` and some `s` added, and the other's name is that `s` and `-` before its own. */
  lemma SimulatedNamesClashIff(j: Key, k: Key)
    requires j != k
    ensures SimulatedName(j) == SimulatedName(k) <==> (exists s :: Overlaps(j, k, s)) || (exists s :: Overlaps(k, j, s))
  {
    if SimulatedName(j) == SimulatedName(k) {
      SameTails(j, k);
      if |j.ns| < |k.ns| {
        var s := ClashOverlaps(j, k);
      } else if |k.ns| < |j.ns| {
        var s := ClashOverlaps(k, j);
      } else {
        SameNamespaceSameKey(j, k);
      }
    }
    if s :| Overlaps(j, k, s) {
      OverlapClashes(j, k, s);
    }
    if s :| Overlaps(k, j, s) {
      OverlapClashes(k, j, s);
    }
  }

  /** In immediate mode two claims can share a listed volume: nothing excludes the volume that
      the first one took. */
  lemma ImmediateClaimsCanShare(
    claims: Claims, a: Key, b: Key, classes: seq<StorageClass>, listed: seq<Volume>, find: Matcher)
    requires a != b && a in claims && b in claims && BindsNow(classes, claims[a]) && BindsNow(classes, claims[b])
    requires listed != [] && find(WithClass(classes, claims[a]), listed) == Matched(0) &&
      find(WithClass(classes, claims[b]), listed) == Matched(0)
    ensures !VolumesDistinct(Immediate(claims, [a, b], classes, listed, find))
  {
    var links := Immediate(claims, [a, b], classes, listed, find);
    assert [a, b][..1] == [a] && [a][..0] == [];
    assert Immediate(claims, [a], classes, listed, find) ==
      [] + [Link(a, WithClass(classes, claims[a]), listed[0].name)];
    assert links[0].volume == listed[0].name && links[1].volume == listed[0].name;
  }
}
