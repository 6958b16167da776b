/** Claims and volumes of a view, and what binding them amounts to: a list of links, worked out
    from the state before the call. */
module VolumeSpec {
  import opened ApiObjects

  datatype ClaimPhase = ClaimPending | ClaimBound | ClaimLost

  datatype Claim = Claim(
    phase: ClaimPhase,
    volumeName: string,
    storageClass: Option<string>,
    request: nat,
    selectedNode: Option<string>,
    bindCompleted: bool,
    boundByController: bool)

  datatype VolumePhase = VolumePending | VolumeAvailable | VolumeBound | VolumeReleased | VolumeFailed

  datatype Volume = Volume(
    name: string,
    phase: VolumePhase,
    claimRef: Option<Key>,
    capacity: nat,
    storageClass: string,
    zone: string,
    boundByController: bool)

  type Claims = map<Key, Claim>

  type Volumes = map<string, Volume>

  ghost predicate Named(volumes: Volumes) {
    forall v :: v in volumes ==> volumes[v].name == v
  }

  /** A list of everything under `keys`, each once, in some order. */
  ghost predicate Lists<K(!new)>(order: seq<K>, keys: set<K>) {
    && (forall k :: k in order <==> k in keys)
    && (forall i, j :: 0 <= i < j < |order| ==> order[i] != order[j])
  }

  const SIMULATED_PREFIX := "simVol-"

  function SimulatedName(k: Key): string {
    SIMULATED_PREFIX + k.ns + "-" + k.name
  }

  function Simulated(k: Key, claim: Claim, zone: string): Volume {
    Volume(SimulatedName(k), VolumeAvailable, None, claim.request,
           if claim.storageClass.Some? then claim.storageClass.value else "", zone, false)
  }

  function BoundClaim(claim: Claim, volume: string): Claim {
    claim.(volumeName := volume, phase := ClaimBound, bindCompleted := true, boundByController := true)
  }

  function BoundVolume(volume: Volume, k: Key): Volume {
    volume.(claimRef := Some(k), phase := VolumeBound, boundByController := true)
  }

  // ---------------------------------------------------------------------------
  // Links
  // ---------------------------------------------------------------------------

  /** A claim, as it is handed to the binding step, and the volume it gets. */
  datatype Link = Link(key: Key, claim: Claim, volume: string)

  ghost predicate KeysDistinct(links: seq<Link>) {
    forall i, j :: 0 <= i < j < |links| ==> links[i].key != links[j].key
  }

  ghost predicate VolumesDistinct(links: seq<Link>) {
    forall i, j :: 0 <= i < j < |links| ==> links[i].volume != links[j].volume
  }

  /** The claim that the last link gives to volume `v`. */
  ghost function LastFor(links: seq<Link>, v: string): Option<Key> {
    if links == [] then None
    else if links[|links| - 1].volume == v then Some(links[|links| - 1].key)
    else LastFor(links[..|links| - 1], v)
  }

  /** The volume that the last link gives to claim `k`. */
  ghost function LastOf(links: seq<Link>, k: Key): Option<string> {
    if links == [] then None
    else if links[|links| - 1].key == k then Some(links[|links| - 1].volume)
    else LastOf(links[..|links| - 1], k)
  }

  ghost predicate ClaimsBound(was: Claims, now: Claims, links: seq<Link>) {
    && now.Keys == was.Keys
    && (forall l :: l in links ==> l.key in now && now[l.key] == BoundClaim(l.claim, l.volume))
    && (forall k :: k in was && LastOf(links, k).None? ==> now[k] == was[k])
  }

  ghost predicate VolumesBound(was: Volumes, now: Volumes, links: seq<Link>) {
    && Named(now)
    && (forall l :: l in links ==>
        l.volume in now && now[l.volume].phase == VolumeBound && now[l.volume].claimRef == LastFor(links, l.volume))
    && (forall v :: LastFor(links, v).None? ==> (v in now <==> v in was) && (v in now ==> now[v] == was[v]))
  }

  ghost predicate LinkedBothWays(claims: Claims, volumes: Volumes, k: Key, v: string) {
    && k in claims && v in volumes
    && claims[k].phase == ClaimBound && claims[k].volumeName == v
    && volumes[v].phase == VolumeBound && volumes[v].claimRef == Some(k)
  }

  // ---------------------------------------------------------------------------
  // Which links
  // ---------------------------------------------------------------------------

  /** Selected by the scheduler for provisioning. */
  predicate Selected(claim: Claim) {
    claim.phase == ClaimPending && claim.selectedNode.Some?
  }

  /** Wait-for-first-consumer provisioning: each selected claim gets its simulated volume. */
  ghost function Provisioned(claims: Claims, order: seq<Key>): seq<Link> {
    if order == [] then []
    else
      var n := |order| - 1;
      var k := order[n];
      Provisioned(claims, order[..n]) +
      if k in claims && Selected(claims[k]) then [Link(k, claims[k], SimulatedName(k))] else []
  }

  /** The zone of the selected node: the annotation is not empty, the node is there and it has
      the label. */
  predicate ZoneKnown(claim: Claim, nodes: map<string, Option<string>>) {
    && claim.selectedNode.Some?
    && claim.selectedNode.value != ""
    && claim.selectedNode.value in nodes
    && nodes[claim.selectedNode.value].Some?
  }

  /** The volumes when the selected claims in `order` have been provisioned: a simulated volume is
      created in the zone of the claim's node, unless one of its name is there. */
  ghost function ProvisionedVolumes(
    claims: Claims, volumes: Volumes, order: seq<Key>, nodes: map<string, Option<string>>): Volumes
  {
    if order == [] then volumes
    else
      var n := |order| - 1;
      ProvisionNext(claims, ProvisionedVolumes(claims, volumes, order[..n], nodes), order[n], nodes)
  }

  function ProvisionNext(claims: Claims, volumes: Volumes, k: Key, nodes: map<string, Option<string>>): Volumes {
    if k in claims && Selected(claims[k]) && ZoneKnown(claims[k], nodes) then
      var volume := SimulatedIn(volumes, k, claims[k], nodes[claims[k].selectedNode.value].value);
      volumes[SimulatedName(k) := BoundVolume(volume, k)]
    else volumes
  }

  datatype StorageClass = StorageClass(name: string, waits: bool, isDefault: bool, zone: Option<string>)

  /** What matching a claim against volumes can answer. */
  datatype Match = MatchError | NoMatch | Matched(index: nat)

  type Matcher = (Claim, seq<Volume>) -> Match

  function DefaultClass(classes: seq<StorageClass>): Option<StorageClass> {
    if classes == [] then None
    else if classes[0].isDefault then Some(classes[0])
    else DefaultClass(classes[1..])
  }

  function ClassNamed(classes: seq<StorageClass>, name: string): Option<StorageClass> {
    if classes == [] then None
    else if classes[0].name == name then Some(classes[0])
    else ClassNamed(classes[1..], name)
  }

  function ClassOf(classes: seq<StorageClass>, claim: Claim): Option<StorageClass> {
    match claim.storageClass
    case None => DefaultClass(classes)
    case Some(name) => ClassNamed(classes, name)
  }

  /** Pending, with a class that is known and binds at once. */
  predicate BindsNow(classes: seq<StorageClass>, claim: Claim) {
    claim.phase == ClaimPending && ClassOf(classes, claim).Some? && !ClassOf(classes, claim).value.waits
  }

  /** A claim without a class takes the default one. */
  function WithClass(classes: seq<StorageClass>, claim: Claim): Claim
    requires BindsNow(classes, claim)
  {
    if claim.storageClass.None? then claim.(storageClass := Some(ClassOf(classes, claim).value.name)) else claim
  }

  /** The volumes are those listed before the first binding, and none is ever excluded, so the
      choice for a claim does not depend on the claims bound before it. */
  function Target(k: Key, claim: Claim, listed: seq<Volume>, find: Matcher): string {
    match find(claim, listed)
    case Matched(i) => if i < |listed| then listed[i].name else SimulatedName(k)
    case _ => SimulatedName(k)
  }

  function ImmediateLink(k: Key, claim: Claim, classes: seq<StorageClass>, listed: seq<Volume>, find: Matcher): Link
    requires BindsNow(classes, claim)
  {
    Link(k, WithClass(classes, claim), Target(k, WithClass(classes, claim), listed, find))
  }

  /** The volume with the claim's simulated name, as it is or as it would be created. */
  function SimulatedIn(volumes: Volumes, k: Key, claim: Claim, zone: string): Volume {
    if SimulatedName(k) in volumes then volumes[SimulatedName(k)] else Simulated(k, claim, zone)
  }

  predicate MatchesListed(claim: Claim, listed: seq<Volume>, find: Matcher) {
    find(claim, listed).Matched? && find(claim, listed).index < |listed|
  }

  /** The volume that is found or created for a claim: a listed one that the matcher chooses, else
      the simulated one, if the class has a zone for it and the matcher accepts it. */
  function ChosenVolume(
    volumes: Volumes, k: Key, claim: Claim, class_: StorageClass, listed: seq<Volume>, find: Matcher): Option<Volume>
  {
    if find(claim, listed).MatchError? then None
    else if MatchesListed(claim, listed, find) then Some(listed[find(claim, listed).index])
    else if class_.zone.None? then None
    else
      var volume := SimulatedIn(volumes, k, claim, class_.zone.value);
      if find(claim, [volume]) == Matched(0) then Some(volume) else None
  }

  /** The simulated volume is created even if the matcher then refuses it. */
  function VolumesAfterChoice(
    volumes: Volumes, k: Key, claim: Claim, class_: StorageClass, listed: seq<Volume>, find: Matcher): Volumes
  {
    if find(claim, listed).MatchError? || MatchesListed(claim, listed, find) || class_.zone.None? then volumes
    else volumes[SimulatedName(k) := SimulatedIn(volumes, k, claim, class_.zone.value)]
  }

  /** The volumes when the claims in `order` have been bound. */
  ghost function VolumesAfter(
    claims: Claims, volumes: Volumes, order: seq<Key>, classes: seq<StorageClass>, listed: seq<Volume>,
    find: Matcher): Volumes
  {
    if order == [] then volumes
    else
      var n := |order| - 1;
      var before := VolumesAfter(claims, volumes, order[..n], classes, listed, find);
      BoundNext(claims, before, order[n], classes, listed, find)
  }

  function BoundNext(
    claims: Claims, volumes: Volumes, k: Key, classes: seq<StorageClass>, listed: seq<Volume>, find: Matcher): Volumes
  {
    if k !in claims || !BindsNow(classes, claims[k]) then volumes
    else
      var claim, class_ := WithClass(classes, claims[k]), ClassOf(classes, claims[k]).value;
      var chosen := ChosenVolume(volumes, k, claim, class_, listed, find);
      var volumes' := VolumesAfterChoice(volumes, k, claim, class_, listed, find);
      if chosen.None? then volumes' else volumes'[chosen.value.name := BoundVolume(chosen.value, k)]
  }

  /** A volume can be chosen for the claim, if it binds at once. */
  predicate Choosable(
    claims: Claims, volumes: Volumes, k: Key, classes: seq<StorageClass>, listed: seq<Volume>, find: Matcher)
  {
    k in claims && BindsNow(classes, claims[k]) ==>
      ChosenVolume(volumes, k, WithClass(classes, claims[k]), ClassOf(classes, claims[k]).value, listed, find).Some?
  }

  /** For the claim at `i`, when its turn comes. */
  ghost predicate ChoosableAt(
    claims: Claims, volumes: Volumes, order: seq<Key>, i: nat,
    classes: seq<StorageClass>, listed: seq<Volume>, find: Matcher)
    requires i < |order|
  {
    var before := VolumesAfter(claims, volumes, order[..i], classes, listed, find);
    Choosable(claims, before, order[i], classes, listed, find)
  }

  /** For every claim that binds at once. */
  ghost predicate AllChoosable(
    claims: Claims, volumes: Volumes, order: seq<Key>, classes: seq<StorageClass>, listed: seq<Volume>, find: Matcher)
  {
    forall i :: 0 <= i < |order| ==> ChoosableAt(claims, volumes, order, i, classes, listed, find)
  }

  ghost function Immediate(
    claims: Claims, order: seq<Key>, classes: seq<StorageClass>, listed: seq<Volume>, find: Matcher): seq<Link>
  {
    if order == [] then []
    else
      var n := |order| - 1;
      var k := order[n];
      Immediate(claims, order[..n], classes, listed, find) +
      if k in claims && BindsNow(classes, claims[k]) then [ImmediateLink(k, claims[k], classes, listed, find)] else []
  }

  /** Volumes that the scheduler gave a claim and that are not bound yet, where the claim is there. */
  ghost function Finalized(claims: Claims, volumes: Volumes, order: seq<string>): seq<Link> {
    if order == [] then []
    else
      var n := |order| - 1;
      Finalized(claims, volumes, order[..n]) +
      if order[n] in volumes && Unfinished(claims, volumes[order[n]])
      then [Link(volumes[order[n]].claimRef.value, claims[volumes[order[n]].claimRef.value], order[n])] else []
  }

  predicate Unfinished(claims: Claims, volume: Volume) {
    volume.claimRef.Some? && volume.phase != VolumeBound && volume.claimRef.value in claims
  }

  /** The finished state: each volume is bound, and its claim names the last such volume. */
  ghost predicate ClaimsFinished(was: Claims, now: Claims, links: seq<Link>) {
    && now.Keys == was.Keys
    && (forall k :: k in was ==> now[k] == FinishedClaim(was[k], LastOf(links, k)))
  }

  function FinishedClaim(claim: Claim, volume: Option<string>): Claim {
    if volume.None? then claim else claim.(volumeName := volume.value, phase := ClaimBound, bindCompleted := true)
  }

  ghost predicate VolumesFinished(was: Volumes, now: Volumes, links: seq<Link>) {
    && now.Keys == was.Keys
    && (forall v :: v in was ==> now[v] == if LastFor(links, v).Some? then was[v].(phase := VolumeBound) else was[v])
  }
}
