/** What claims and volumes hold after each binding step, field by field. */
module VolumeContents {
  import opened ApiObjects
  import opened VolumeSpec
  import opened VolumeTheorems
  import opened VolumeSharing

  // ---------------------------------------------------------------------------
  // Provisioning for selected claims
  // ---------------------------------------------------------------------------

  /** Exactly the pending claims with a selected node are bound, each to the volume called after it;
      what they ask for stays, and so does every other claim. */
  lemma ProvisionedClaim(was: Claims, now: Claims, order: seq<Key>, k: Key)
    requires Lists(order, was.Keys) && ClaimsBound(was, now, Provisioned(was, order)) && k in was
    ensures k in now && now[k] ==
      if was[k].phase == ClaimPending && was[k].selectedNode.Some? then
        Claim(ClaimBound, "simVol-" + k.ns + "-" + k.name, was[k].storageClass, was[k].request, was[k].selectedNode,
              true, true)
      else was[k]
  {
    var links := Provisioned(was, order);
    ProvisionedAt(was, order, k);
    LastOfAt(links, k);
    if LastOf(links, k).Some? {
      var l :| l in links && l.key == k;
      assert now[k] == BoundClaim(l.claim, l.volume);
    }
  }

  /** The claim waits for a volume on a node that is there and has a zone. */
  predicate Provisionable(claims: Claims, k: Key, nodes: map<string, Option<string>>) {
    && k in claims && claims[k].phase == ClaimPending && claims[k].selectedNode.Some?
    && claims[k].selectedNode.value != "" && claims[k].selectedNode.value in nodes
    && nodes[claims[k].selectedNode.value].Some?
  }

  lemma {:induction false} OtherVolumesStay(
    claims: Claims, volumes: Volumes, order: seq<Key>, nodes: map<string, Option<string>>, v: string)
    requires forall k :: k in order && Provisionable(claims, k, nodes) ==> v != "simVol-" + k.ns + "-" + k.name
    ensures var volumes' := ProvisionedVolumes(claims, volumes, order, nodes);
      (v in volumes' <==> v in volumes) && (v in volumes ==> volumes'[v] == volumes[v])
  {
    if order != [] {
      var n := |order| - 1;
      assert order == order[..n] + [order[n]];
      OtherVolumesStay(claims, volumes, order[..n], nodes, v);
      assert order[n] in order;
    }
  }

  /** A claim whose simulated name no other provisioned claim has gets a volume of its own: as large as
      it asks for, of its class, in the zone of its node, bound to it.  A volume that had the name
      before is bound to the claim as it is. */
  lemma {:induction false} ProvisionedVolume(
    claims: Claims, volumes: Volumes, order: seq<Key>, nodes: map<string, Option<string>>, k: Key)
    requires k in order && Provisionable(claims, k, nodes)
    requires forall i, j :: 0 <= i < j < |order| ==> order[i] != order[j]
    requires forall j :: j in order && Provisionable(claims, j, nodes) && j != k ==>
      SimulatedName(j) != SimulatedName(k)
    ensures var v, volumes' := "simVol-" + k.ns + "-" + k.name, ProvisionedVolumes(claims, volumes, order, nodes);
      v in volumes' && volumes'[v] ==
        if v in volumes then volumes[v].(phase := VolumeBound, claimRef := Some(k), boundByController := true)
        else
          Volume(v, VolumeBound, Some(k), claims[k].request,
            if claims[k].storageClass.Some? then claims[k].storageClass.value else "",
            nodes[claims[k].selectedNode.value].value, true)
    decreases |order|
  {
    var n := |order| - 1;
    assert order == order[..n] + [order[n]];
    if order[n] == k {
      OtherVolumesStay(claims, volumes, order[..n], nodes, SimulatedName(k));
    } else {
      ProvisionedVolume(claims, volumes, order[..n], nodes, k);
      assert order[n] in order;
    }
  }

  // ---------------------------------------------------------------------------
  // Classes
  // ---------------------------------------------------------------------------

  /** The class that a claim means: the one it names, or a default one. */
  predicate Means(claim: Claim, c: StorageClass) {
    if claim.storageClass.Some? then c.name == claim.storageClass.value else c.isDefault
  }

  /** A claim's class is the first that it can mean, and it has none only if there is no such class. */
  lemma {:induction false} ClassIsFirstMeant(classes: seq<StorageClass>, claim: Claim, i: nat)
    ensures i < |classes| && Means(claim, classes[i]) && (forall j :: 0 <= j < i ==> !Means(claim, classes[j])) ==>
      ClassOf(classes, claim) == Some(classes[i])
    ensures ClassOf(classes, claim).None? ==> forall j :: 0 <= j < |classes| ==> !Means(claim, classes[j])
    ensures ClassOf(classes, claim).Some? ==>
      ClassOf(classes, claim).value in classes && Means(claim, ClassOf(classes, claim).value)
    decreases |classes|
  {
    if classes != [] && !Means(claim, classes[0]) {
      var rest := classes[1..];
      ClassIsFirstMeant(rest, claim, if i > 0 then i - 1 else 0);
      assert ClassOf(classes, claim) == ClassOf(rest, claim);
      assert forall j :: 0 < j < |classes| ==> classes[j] == rest[j - 1];
      assert forall j :: 0 <= j < |rest| ==> rest[j] == classes[j + 1];
    }
  }

  // ---------------------------------------------------------------------------
  // Immediate mode
  // ---------------------------------------------------------------------------

  /** The claim as it is matched against volumes: with its class filled in. */
  function Classed(claim: Claim, c: StorageClass): Claim {
    claim.(storageClass := Some(c.name))
  }

  lemma BindsNowIff(classes: seq<StorageClass>, claim: Claim)
    ensures var c := ClassOf(classes, claim);
      BindsNow(classes, claim) <==> claim.phase == ClaimPending && c.Some? && !c.value.waits
    ensures BindsNow(classes, claim) ==> WithClass(classes, claim) == Classed(claim, ClassOf(classes, claim).value)
  {
    ClassIsFirstMeant(classes, claim, 0);
  }

  /** Exactly the pending claims of a known class that does not wait are bound: to the listed volume
      that matches, or else to the volume called after the claim. */
  lemma ImmediateClaim(
    was: Claims, now: Claims, order: seq<Key>, classes: seq<StorageClass>, listed: seq<Volume>, find: Matcher, k: Key)
    requires Lists(order, was.Keys) && ClaimsBound(was, now, Immediate(was, order, classes, listed, find)) && k in was
    ensures var c := ClassOf(classes, was[k]);
      k in now && now[k] ==
        if was[k].phase == ClaimPending && c.Some? && !c.value.waits then
          var m := find(Classed(was[k], c.value), listed);
          Claim(ClaimBound,
            if m.Matched? && m.index < |listed| then listed[m.index].name else "simVol-" + k.ns + "-" + k.name,
            Some(c.value.name), was[k].request, was[k].selectedNode, true, true)
        else was[k]
  {
    var links := Immediate(was, order, classes, listed, find);
    ImmediateAt(was, order, classes, listed, find);
    BindsNowIff(classes, was[k]);
    LastOfAt(links, k);
    if BindsNow(classes, was[k]) {
      var l := ImmediateLink(k, was[k], classes, listed, find);
      assert l in links && now[k] == BoundClaim(l.claim, l.volume);
    } else {
      assert LastOf(links, k).None?;
    }
  }

  /** Which volume is chosen for a claim: the listed one that matches; if none does and the class has a
      zone, the volume called after the claim, as it is or made to the claim's wishes, provided that it
      matches too.  An error of the matcher is passed on. */
  lemma VolumeIsChosenIff(
    volumes: Volumes, k: Key, claim: Claim, class_: StorageClass, listed: seq<Volume>, find: Matcher, chosen: Volume)
    ensures var v, m := "simVol-" + k.ns + "-" + k.name, find(claim, listed);
      ChosenVolume(volumes, k, claim, class_, listed, find) == Some(chosen) <==>
        (m.Matched? && m.index < |listed| && chosen == listed[m.index]) ||
        ((m.NoMatch? || (m.Matched? && m.index >= |listed|)) && class_.zone.Some? &&
         find(claim, [chosen]) == Matched(0) &&
         chosen ==
           if v in volumes then volumes[v]
           else
             Volume(v, VolumeAvailable, None, claim.request,
               if claim.storageClass.Some? then claim.storageClass.value else "", class_.zone.value, false))
  {
  }

  /** What the choice leaves in the view: the volume called after the claim is there if it was before or
      if no listed volume matched and the class has a zone, even if it is then refused; no other volume
      comes, goes or changes. */
  lemma VolumesAfterTheChoice(
    volumes: Volumes, k: Key, claim: Claim, class_: StorageClass, listed: seq<Volume>, find: Matcher, u: string)
    ensures var v, m := "simVol-" + k.ns + "-" + k.name, find(claim, listed);
      var volumes' := VolumesAfterChoice(volumes, k, claim, class_, listed, find);
      (u in volumes' <==>
        u in volumes ||
        (u == v && class_.zone.Some? && (m.NoMatch? || (m.Matched? && m.index >= |listed|)))) &&
      (u in volumes ==> volumes'[u] == volumes[u])
  {
  }

  // ---------------------------------------------------------------------------
  // Finalising
  // ---------------------------------------------------------------------------

  /** Volume `u` refers to the claim and is not bound yet. */
  predicate Given(volumes: Volumes, u: string, k: Key) {
    u in volumes && volumes[u].claimRef == Some(k) && volumes[u].phase != VolumeBound
  }

  /** Exactly the volumes that refer to a claim in the view and are not bound become bound; exactly the
      claims that they refer to become bound, to one of them.  Nothing else about either changes. */
  lemma FinishedFields(
    wasC: Claims, nowC: Claims, wasV: Volumes, nowV: Volumes, order: seq<string>, k: Key, u: string)
    requires Lists(order, wasV.Keys) && ClaimsFinished(wasC, nowC, Finalized(wasC, wasV, order)) &&
      VolumesFinished(wasV, nowV, Finalized(wasC, wasV, order))
    ensures k in wasC && (forall v :: v in wasV ==> !Given(wasV, v, k)) ==> k in nowC && nowC[k] == wasC[k]
    ensures k in wasC && Given(wasV, u, k) ==>
      k in nowC && Given(wasV, nowC[k].volumeName, k) &&
      nowC[k] == Claim(ClaimBound, nowC[k].volumeName, wasC[k].storageClass, wasC[k].request, wasC[k].selectedNode,
                       true, wasC[k].boundByController)
    ensures u in wasV ==>
      u in nowV && nowV[u] ==
        if wasV[u].claimRef.Some? && wasV[u].claimRef.value in wasC && wasV[u].phase != VolumeBound
        then wasV[u].(phase := VolumeBound) else wasV[u]
  {
    FinalizedOf(wasC, wasV, order, k);
    FinalizedAt(wasC, wasV, order, u);
  }

  /** Of several volumes given to one claim, the claim names the last listed. */
  lemma {:induction false} LastGivenWins(
    claims: Claims, volumes: Volumes, order: seq<string>, k: Key, i: nat)
    requires k in claims && i < |order| && Given(volumes, order[i], k)
    requires forall j :: i < j < |order| ==> !Given(volumes, order[j], k)
    ensures LastOf(Finalized(claims, volumes, order), k) == Some(order[i])
    decreases |order|
  {
    var n := |order| - 1;
    FinalizedLast(claims, volumes, order, k);
    if i < n {
      assert order[..n][i] == order[i];
      LastGivenWins(claims, volumes, order[..n], k, i);
    }
  }
}
