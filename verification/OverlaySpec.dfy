/** What one view operation does, as a function of values.

    A view is read through a chain of caches: its own first, the base view's last.
    `Local` is the part of the state one operation may change: the view's own cache, the
    version counter shared by the whole chain, and the view's change count. */
module OverlaySpec {
  import opened ApiObjects

  datatype Local = Local(cache: Cache, counter: nat, changes: nat)

  // ---------------------------------------------------------------------------
  // Reading
  // ---------------------------------------------------------------------------

  function GetByKey(c: Cache, k: Key): (r: Result<Obj>) {
    if k !in c then Err(NotFound)
    else match c[k]
      case Tombstone(_) => Err(ObjectDeleted)
      case Live(o) => Ok(o)
  }

  /** GetObject: a missing key, and only a missing key, is looked up in the delegate. */
  function Lookup(chain: seq<Cache>, k: Key): (r: Result<Obj>)
    requires chain != []
  {
    var r := GetByKey(chain[0], k);
    if r == Err(NotFound) && |chain| > 1 then Lookup(chain[1..], k) else r
  }

  // ---------------------------------------------------------------------------
  // Writing
  // ---------------------------------------------------------------------------

  /** Store `o` under the next version. */
  function Put(l: Local, o: Obj): (l': Local) {
    Local(l.cache[o.key := Live(o.(version := l.counter + 1))], l.counter + 1, l.changes + 1)
  }

  /** The object as it is stored: a nameless one gets a generated name. */
  function Stored(o: Obj, suffix: Suffix): (o': Obj)
    ensures o'.key.ns == o.key.ns && o'.key.name != "" && o' == o.(key := o'.key)
    ensures o.key.name != "" ==> o' == o
  {
    if o.key.name != "" then o
    else o.(key := Key(o.key.ns, GenerateName(o.generateName, suffix)))
  }

  function Create(l: Local, o: Obj, suffix: Suffix): (res: (Local, Outcome)) {
    if o.key.name == "" && o.generateName == "" then (l, Failed(BadRequest))
    else (Put(l, Stored(o, suffix)), Done)
  }

  function UpdateHere(l: Local, o: Obj): (res: (Local, Outcome)) {
    match GetByKey(l.cache, o.key)
    case Err(e) => (l, Failed(e))
    case Ok(_) => (Put(l, o), Done)
  }

  /** `below` is the delegate's chain, empty for the base view. */
  function Update(l: Local, below: seq<Cache>, o: Obj): (res: (Local, Outcome)) {
    var here := UpdateHere(l, o);
    if here.1 == Failed(NotFound) && below != [] then
      match Lookup(below, o.key)
      case Err(e) => (l, Failed(e))
      case Ok(d) => UpdateHere(Put(l, d), o)
    else here
  }

  function Entomb(l: Local, k: Key): (l': Local)
    requires k in l.cache
  {
    Local(l.cache[k := Tombstone(l.cache[k].obj.(deletionStamped := true))], l.counter, l.changes + 1)
  }

  function Delete(l: Local, below: seq<Cache>, k: Key): (res: (Local, Outcome)) {
    match GetByKey(l.cache, k)
    case Ok(_) =>
      if below == [] then (Local(l.cache - {k}, l.counter, l.changes + 1), Done)
      else (Entomb(l, k), Done)
    case Err(e) =>
      if e == NotFound && below != [] then
        match Lookup(below, k)
        case Err(e') => (l, Failed(e'))
        case Ok(d) =>
          var l' := Put(l, d);
          if k in l'.cache then (Entomb(l', k), Done) else (l', Failed(NotFound))
      else (l, Failed(e))
  }

  /** The shared second half of a pod binding: refuse a pod that is already bound. */
  function BindStored(l: Local, below: seq<Cache>, pod: Obj, node: string): (res: (Local, Outcome)) {
    match Lookup([l.cache] + below, pod.key)
    case Err(e) => (l, Failed(e))
    case Ok(existing) =>
      if existing.nodeName != "" then (l, Failed(AlreadyBound(existing.nodeName)))
      else Update(l, below, pod.(nodeName := node, podScheduled := true))
  }

  function Bind(l: Local, below: seq<Cache>, k: Key, node: string): (res: (Local, Outcome)) {
    if below == [] && k.name == "" then (l, Failed(EmptyPodName))
    else match GetByKey(l.cache, k)
      case Ok(pod) => BindStored(l, below, pod, node)
      case Err(e) =>
        if e == NotFound && below != [] then
          match Lookup(below, k)
          case Err(e') => (l, Failed(e'))
          case Ok(d) => BindStored(Put(l, d), below, d.(version := l.counter + 1), node)
        else (l, Failed(e))
  }

  function PatchStatus(l: Local, below: seq<Cache>, k: Key, patch: int -> Option<int>): (res: (Local, Outcome)) {
    match Lookup([l.cache] + below, k)
    case Err(e) => (l, Failed(e))
    case Ok(o) =>
      match patch(o.status)
      case None => (l, Failed(PatchFailed))
      case Some(s) => Update(l, below, o.(status := s))
  }

  /** A bulk delete: single deletes, one per listed key, ignoring keys already gone. */
  function DeleteAll(l: Local, below: seq<Cache>, keys: seq<Key>): (l': Local)
    decreases |keys|
  {
    if keys == [] then l else DeleteAll(Delete(l, below, keys[0]).0, below, keys[1..])
  }

  // ---------------------------------------------------------------------------
  // The invariant of a cache
  // ---------------------------------------------------------------------------

  /** Every entry is filed under its own, non-empty name. */
  ghost predicate Keyed(c: Cache) {
    forall k :: k in c ==> c[k].obj.key == k && k.name != ""
  }

  ghost predicate AllKeyed(chain: seq<Cache>) {
    forall i :: 0 <= i < |chain| ==> Keyed(chain[i])
  }

  /** No entry has a version that was not handed out yet. */
  ghost predicate VersionsUpTo(c: Cache, n: nat) {
    forall k :: k in c ==> c[k].obj.version <= n
  }

  ghost predicate AllVersionsUpTo(chain: seq<Cache>, n: nat) {
    forall i :: 0 <= i < |chain| ==> VersionsUpTo(chain[i], n)
  }

  /** The counter never goes back, and never falls behind the versions stored. */
  ghost predicate Grows(l: Local, l': Local) {
    l.counter <= l'.counter && (VersionsUpTo(l.cache, l.counter) ==> VersionsUpTo(l'.cache, l'.counter))
  }
}
