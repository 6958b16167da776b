/** Stored objects by address.  A cache holds pointers to objects, so two caches can hold the same
    one: PatchObject edits the object that it read, wherever that is stored, and then files the
    same object in its own view.  Everything here happens through one sandbox; `below` are the
    caches of its delegates, whose pointers a call through the sandbox never changes. */
module SharedObjects {
  import opened ApiObjects
  import opened OverlaySpec
  import opened OverlayWorld

  type Ref = nat

  type RefCache = map<Key, Entry<Ref>>

  /** The memory, and the sandbox's own cache, counter and change count. */
  datatype State = State(mem: seq<Obj>, cache: RefCache, counter: nat, changes: nat)

  // ---------------------------------------------------------------------------
  // What the pointers stand for
  // ---------------------------------------------------------------------------

  predicate InMemory(mem: seq<Obj>, c: RefCache) {
    forall k | k in c :: c[k].obj < |mem|
  }

  predicate AllInMemory(mem: seq<Obj>, chain: seq<RefCache>) {
    forall i | 0 <= i < |chain| :: InMemory(mem, chain[i])
  }

  ghost function EntryOf(mem: seq<Obj>, e: Entry<Ref>): Entry<Obj>
    requires e.obj < |mem|
  {
    match e case Live(r) => Live(mem[r]) case Tombstone(r) => Tombstone(mem[r])
  }

  ghost function Deref(mem: seq<Obj>, c: RefCache): Cache
    requires InMemory(mem, c)
  {
    map k | k in c :: EntryOf(mem, c[k])
  }

  ghost function DerefAll(mem: seq<Obj>, chain: seq<RefCache>): seq<Cache>
    requires AllInMemory(mem, chain)
  {
    seq(|chain|, i requires 0 <= i < |chain| => Deref(mem, chain[i]))
  }

  predicate Valid(s: State, below: seq<RefCache>) {
    below != [] && InMemory(s.mem, s.cache) && AllInMemory(s.mem, below)
  }

  ghost function ValueOf(s: State): Local
    requires InMemory(s.mem, s.cache)
  {
    Local(Deref(s.mem, s.cache), s.counter, s.changes)
  }

  /** The objects that the delegates hold. */
  ghost predicate Holds(below: seq<RefCache>, r: Ref) {
    exists i, k :: 0 <= i < |below| && k in below[i] && below[i][k].obj == r
  }

  // ---------------------------------------------------------------------------
  // The calls, on pointers
  // ---------------------------------------------------------------------------

  function Find(c: RefCache, k: Key): Result<Ref> {
    if k !in c then Err(NotFound)
    else match c[k]
      case Tombstone(_) => Err(ObjectDeleted)
      case Live(r) => Ok(r)
  }

  function FindIn(chain: seq<RefCache>, k: Key): Result<Ref>
    requires chain != []
  {
    var r := Find(chain[0], k);
    if r == Err(NotFound) && |chain| > 1 then FindIn(chain[1..], k) else r
  }

  /** Files a new object, or a fresh copy of one, under the next version. */
  function PutNew(s: State, o: Obj): State {
    State(s.mem + [o.(version := s.counter + 1)], s.cache[o.key := Live(|s.mem|)], s.counter + 1, s.changes + 1)
  }

  function UpdateHereNew(s: State, o: Obj): (State, Outcome) {
    match Find(s.cache, o.key)
    case Err(e) => (s, Failed(e))
    case Ok(_) => (PutNew(s, o), Done)
  }

  /** UpdateObject with an object that nobody else holds. */
  function UpdateNew(s: State, below: seq<RefCache>, o: Obj): (State, Outcome)
    requires Valid(s, below)
  {
    var here := UpdateHereNew(s, o);
    if here.1 != Failed(NotFound) then here
    else match FindIn(below, o.key)
      case Err(e) => (s, Failed(e))
      case Ok(d) =>
        FoundIsInMemory(s.mem, below, o.key);
        UpdateHereNew(PutNew(s, s.mem[d]), o)
  }

  /** UpdateObject with an object that is already in memory: its version is stamped in place and
      the same object is filed here. */
  function UpdateHereShared(s: State, r: Ref): (State, Outcome)
    requires r < |s.mem|
  {
    match Find(s.cache, s.mem[r].key)
    case Err(e) => (s, Failed(e))
    case Ok(_) =>
      var mem := s.mem[r := s.mem[r].(version := s.counter + 1)];
      (State(mem, s.cache[s.mem[r].key := Live(r)], s.counter + 1, s.changes + 1), Done)
  }

  function UpdateShared(s: State, below: seq<RefCache>, r: Ref): (State, Outcome)
    requires r < |s.mem| && Valid(s, below)
  {
    var here := UpdateHereShared(s, r);
    if here.1 != Failed(NotFound) then here
    else match FindIn(below, s.mem[r].key)
      case Err(e) => (s, Failed(e))
      case Ok(d) =>
        FoundIsInMemory(s.mem, below, s.mem[r].key);
        UpdateHereShared(PutNew(s, s.mem[d]), r)
  }

  /** A delete stamps the object filed here in place. */
  function Entombed(s: State, k: Key): State
    requires k in s.cache && s.cache[k].obj < |s.mem|
  {
    var r := s.cache[k].obj;
    State(s.mem[r := s.mem[r].(deletionStamped := true)], s.cache[k := Tombstone(r)], s.counter, s.changes + 1)
  }

  function DeleteThrough(s: State, below: seq<RefCache>, k: Key): (State, Outcome)
    requires Valid(s, below)
  {
    match Find(s.cache, k)
    case Ok(_) => (Entombed(s, k), Done)
    case Err(e) =>
      if e != NotFound then (s, Failed(e))
      else match FindIn(below, k)
        case Err(e') => (s, Failed(e'))
        case Ok(d) =>
          FoundIsInMemory(s.mem, below, k);
          var s' := PutNew(s, s.mem[d]);
          if s.mem[d].key == k then (Entombed(s', k), Done) else (s', Failed(NotFound))
  }

  function BindFiled(s: State, below: seq<RefCache>, pod: Obj, node: string): (State, Outcome)
    requires Valid(s, below)
  {
    match FindIn([s.cache] + below, pod.key)
    case Err(e) => (s, Failed(e))
    case Ok(r) =>
      ChainInMemory(s, below);
      FoundIsInMemory(s.mem, [s.cache] + below, pod.key);
      if s.mem[r].nodeName != "" then (s, Failed(AlreadyBound(s.mem[r].nodeName)))
      else UpdateNew(s, below, pod.(nodeName := node, podScheduled := true))
  }

  function BindThrough(s: State, below: seq<RefCache>, k: Key, node: string): (State, Outcome)
    requires Valid(s, below)
  {
    match Find(s.cache, k)
    case Ok(r) => BindFiled(s, below, s.mem[r], node)
    case Err(e) =>
      if e != NotFound then (s, Failed(e))
      else match FindIn(below, k)
        case Err(e') => (s, Failed(e'))
        case Ok(d) =>
          FoundIsInMemory(s.mem, below, k);
          BindFiled(PutNew(s, s.mem[d]), below, s.mem[d].(version := s.counter + 1), node)
  }

  function PatchStatusThrough(s: State, below: seq<RefCache>, k: Key, patch: int -> Option<int>): (State, Outcome)
    requires Valid(s, below)
  {
    match FindIn([s.cache] + below, k)
    case Err(e) => (s, Failed(e))
    case Ok(r) =>
      ChainInMemory(s, below);
      FoundIsInMemory(s.mem, [s.cache] + below, k);
      match patch(s.mem[r].status)
      case None => (s, Failed(PatchFailed))
      case Some(x) => UpdateNew(s, below, s.mem[r].(status := x))
  }

  /** What a patch makes of an object, and whether it goes through: a patch that fails may have
      been written in part. */
  type Patch = Obj -> (Obj, bool)

  /** The object is edited where it is before anything else is checked. */
  function PatchThrough(s: State, below: seq<RefCache>, k: Key, patch: Patch): (State, Outcome)
    requires Valid(s, below)
  {
    match FindIn([s.cache] + below, k)
    case Err(e) => (s, Failed(e))
    case Ok(r) =>
      ChainInMemory(s, below);
      FoundIsInMemory(s.mem, [s.cache] + below, k);
      var (p, ok) := patch(s.mem[r]);
      var s1 := s.(mem := s.mem[r := p]);
      if !ok then (s1, Failed(PatchFailed))
      else if p.key != k then (s1, Failed(ImmutableField))
      else UpdateShared(s1, below, r)
  }

  /** A call through the sandbox; a bulk delete is its single deletes. */
  datatype Call =
    | Create(obj: Obj, suffix: Suffix)
    | Update(obj: Obj)
    | Delete(key: Key)
    | Bind(key: Key, node: string)
    | PatchStatus(key: Key, status: int -> Option<int>)
    | PatchObject(key: Key, patch: Patch)

  function Do(s: State, below: seq<RefCache>, c: Call): (State, Outcome)
    requires Valid(s, below)
  {
    match c
    case Create(o, suffix) =>
      if o.key.name == "" && o.generateName == "" then (s, Failed(BadRequest)) else (PutNew(s, Stored(o, suffix)), Done)
    case Update(o) => UpdateNew(s, below, o)
    case Delete(k) => DeleteThrough(s, below, k)
    case Bind(k, node) => BindThrough(s, below, k, node)
    case PatchStatus(k, status) => PatchStatusThrough(s, below, k, status)
    case PatchObject(k, patch) => PatchThrough(s, below, k, patch)
  }

  lemma {:induction false} FoundIsInMemory(mem: seq<Obj>, chain: seq<RefCache>, k: Key)
    requires chain != [] && AllInMemory(mem, chain)
    ensures FindIn(chain, k).Ok? ==> FindIn(chain, k).value < |mem|
    decreases |chain|
  {
    if Find(chain[0], k) == Err(NotFound) && |chain| > 1 {
      assert forall i :: 0 <= i < |chain[1..]| ==> chain[1..][i] == chain[i + 1];
      FoundIsInMemory(mem, chain[1..], k);
    }
  }

  lemma ChainInMemory(s: State, below: seq<RefCache>)
    requires Valid(s, below)
    ensures AllInMemory(s.mem, [s.cache] + below)
  {
  }

  // ---------------------------------------------------------------------------
  // As long as nothing is shared, pointers do not matter
  // ---------------------------------------------------------------------------

  /** No own entry holds an object that another own entry or a delegate holds. */
  ghost predicate Apart(s: State, below: seq<RefCache>) {
    && (forall k, j :: k in s.cache && j in s.cache && k != j ==> s.cache[k].obj != s.cache[j].obj)
    && (forall k :: k in s.cache ==> !Holds(below, s.cache[k].obj))
  }

  /** The memory grew, and at most the object at `r` changed. */
  ghost predicate OnlyAt(mem: seq<Obj>, mem': seq<Obj>, r: Ref) {
    |mem| <= |mem'| && forall i :: 0 <= i < |mem| && i != r ==> mem'[i] == mem[i]
  }

  lemma FindDerefs(mem: seq<Obj>, c: RefCache, k: Key)
    requires InMemory(mem, c)
    ensures GetByKey(Deref(mem, c), k) == match Find(c, k) case Err(e) => Err(e) case Ok(r) => Ok(mem[r])
  {
  }

  lemma {:induction false} FindInDerefs(mem: seq<Obj>, chain: seq<RefCache>, k: Key)
    requires chain != [] && AllInMemory(mem, chain)
    ensures FindIn(chain, k).Ok? ==> FindIn(chain, k).value < |mem|
    ensures Lookup(DerefAll(mem, chain), k) == match FindIn(chain, k) case Err(e) => Err(e) case Ok(r) => Ok(mem[r])
    decreases |chain|
  {
    FoundIsInMemory(mem, chain, k);
    FindDerefs(mem, chain[0], k);
    if Find(chain[0], k) == Err(NotFound) && |chain| > 1 {
      assert forall i :: 0 <= i < |chain[1..]| ==> chain[1..][i] == chain[i + 1];
      assert DerefAll(mem, chain)[1..] == DerefAll(mem, chain[1..]);
      FindInDerefs(mem, chain[1..], k);
    }
  }

  lemma TopDerefs(s: State, below: seq<RefCache>, k: Key)
    requires Valid(s, below)
    ensures AllInMemory(s.mem, [s.cache] + below)
    ensures FindIn([s.cache] + below, k).Ok? ==> FindIn([s.cache] + below, k).value < |s.mem|
    ensures Lookup([Deref(s.mem, s.cache)] + DerefAll(s.mem, below), k) ==
      match FindIn([s.cache] + below, k) case Err(e) => Err(e) case Ok(r) => Ok(s.mem[r])
  {
    ChainInMemory(s, below);
    FindInDerefs(s.mem, [s.cache] + below, k);
    assert DerefAll(s.mem, [s.cache] + below) == [Deref(s.mem, s.cache)] + DerefAll(s.mem, below);
  }

  /** `s'` shows in the sandbox what `l` is, has left the delegates' objects and shares nothing. */
  ghost predicate Shows(s: State, s': State, below: seq<RefCache>, l: Local)
    requires Valid(s, below)
  {
    && Valid(s', below) && ValueOf(s') == l
    && DerefAll(s'.mem, below) == DerefAll(s.mem, below) && Apart(s', below)
  }

  lemma NewIsHeldByNobody(mem: seq<Obj>, below: seq<RefCache>)
    requires AllInMemory(mem, below)
    ensures !Holds(below, |mem|)
  {
  }

  lemma GrownDerefs(mem: seq<Obj>, mem': seq<Obj>, c: RefCache)
    requires InMemory(mem, c) && |mem| <= |mem'| && mem'[..|mem|] == mem
    ensures InMemory(mem', c) && Deref(mem', c) == Deref(mem, c)
  {
    forall k | k in c ensures c[k].obj < |mem'| && mem'[c[k].obj] == mem[c[k].obj] {
      assert mem'[c[k].obj] == mem'[..|mem|][c[k].obj];
    }
  }

  lemma GrownDerefsAll(mem: seq<Obj>, mem': seq<Obj>, chain: seq<RefCache>)
    requires AllInMemory(mem, chain) && |mem| <= |mem'| && mem'[..|mem|] == mem
    ensures AllInMemory(mem', chain) && DerefAll(mem', chain) == DerefAll(mem, chain)
  {
    forall i | 0 <= i < |chain| ensures InMemory(mem', chain[i]) && Deref(mem', chain[i]) == Deref(mem, chain[i]) {
      GrownDerefs(mem, mem', chain[i]);
    }
  }

  lemma PutNewShows(s: State, below: seq<RefCache>, o: Obj)
    requires Valid(s, below) && Apart(s, below)
    ensures Shows(s, PutNew(s, o), below, Put(ValueOf(s), o))
  {
    var s' := PutNew(s, o);
    assert s'.mem[..|s.mem|] == s.mem;
    GrownDerefsAll(s.mem, s'.mem, below);
    GrownDerefs(s.mem, s'.mem, s.cache);
    NewIsHeldByNobody(s.mem, below);
    assert Deref(s'.mem, s'.cache) == Deref(s'.mem, s.cache)[o.key := Live(o.(version := s.counter + 1))];
  }

  lemma ShowsAfter(s: State, s1: State, s2: State, below: seq<RefCache>, l1: Local, l2: Local)
    requires Valid(s, below) && Shows(s, s1, below, l1) && Shows(s1, s2, below, l2)
    ensures Shows(s, s2, below, l2)
  {
  }

  /** Editing an object changes what the delegates show exactly if they hold it and it is not as
      it was. */
  lemma EditSeenIff(mem: seq<Obj>, mem': seq<Obj>, below: seq<RefCache>, r: Ref)
    requires AllInMemory(mem, below) && OnlyAt(mem, mem', r)
    ensures AllInMemory(mem', below)
    ensures DerefAll(mem', below) == DerefAll(mem, below) <==> !(Holds(below, r) && mem'[r] != mem[r])
  {
    forall i | 0 <= i < |below| ensures InMemory(mem', below[i]) {
      assert InMemory(mem, below[i]);
    }
    if Holds(below, r) && mem'[r] != mem[r] {
      var i, k :| 0 <= i < |below| && k in below[i] && below[i][k].obj == r;
      assert DerefAll(mem', below)[i][k] != DerefAll(mem, below)[i][k];
    } else {
      forall i | 0 <= i < |below| ensures Deref(mem', below[i]) == Deref(mem, below[i]) {
        EditUnseen(mem, mem', below, r, i);
      }
    }
  }

  lemma EditUnseen(mem: seq<Obj>, mem': seq<Obj>, below: seq<RefCache>, r: Ref, i: nat)
    requires i < |below| && AllInMemory(mem, below) && InMemory(mem', below[i]) && OnlyAt(mem, mem', r)
    requires Holds(below, r) ==> mem'[r] == mem[r]
    ensures Deref(mem', below[i]) == Deref(mem, below[i])
  {
    forall j | j in below[i] ensures mem'[below[i][j].obj] == mem[below[i][j].obj] {
      assert below[i][j].obj == r ==> Holds(below, r);
    }
  }

  lemma EntombedApart(s: State, below: seq<RefCache>, k: Key)
    requires Valid(s, below) && Apart(s, below) && k in s.cache
    ensures Apart(Entombed(s, k), below)
  {
  }

  lemma EntombedDerefs(s: State, below: seq<RefCache>, k: Key)
    requires Valid(s, below) && Apart(s, below) && k in s.cache
    ensures var s' := Entombed(s, k);
      InMemory(s'.mem, s'.cache) &&
        Deref(s'.mem, s'.cache) == Deref(s.mem, s.cache)[k := Tombstone(s'.mem[s.cache[k].obj])]
  {
  }

  lemma EntombedShows(s: State, below: seq<RefCache>, k: Key)
    requires Valid(s, below) && Apart(s, below) && k in s.cache
    ensures Shows(s, Entombed(s, k), below, Entomb(ValueOf(s), k))
  {
    var s', r := Entombed(s, k), s.cache[k].obj;
    EditSeenIff(s.mem, s'.mem, below, r);
    EntombedApart(s, below, k);
    EntombedDerefs(s, below, k);
  }

  lemma CreateShows(s: State, below: seq<RefCache>, o: Obj, suffix: Suffix)
    requires Valid(s, below) && Apart(s, below)
    ensures var (s', out) := Do(s, below, Call.Create(o, suffix));
      var (l', out') := OverlaySpec.Create(ValueOf(s), o, suffix);
      Shows(s, s', below, l') && out == out'
  {
    PutNewShows(s, below, Stored(o, suffix));
  }

  lemma UpdateHereShows(s: State, below: seq<RefCache>, o: Obj)
    requires Valid(s, below) && Apart(s, below)
    ensures var (s', out) := UpdateHereNew(s, o);
      var (l', out') := UpdateHere(ValueOf(s), o);
      Shows(s, s', below, l') && out == out'
  {
    FindDerefs(s.mem, s.cache, o.key);
    PutNewShows(s, below, o);
  }

  lemma UpdateShows(s: State, below: seq<RefCache>, o: Obj)
    requires Valid(s, below) && Apart(s, below)
    ensures var (s', out) := UpdateNew(s, below, o);
      var (l', out') := OverlaySpec.Update(ValueOf(s), DerefAll(s.mem, below), o);
      Shows(s, s', below, l') && out == out'
  {
    UpdateHereShows(s, below, o);
    FindInDerefs(s.mem, below, o.key);
    if Find(s.cache, o.key) == Err(NotFound) && FindIn(below, o.key).Ok? {
      var d := s.mem[FindIn(below, o.key).value];
      PutNewShows(s, below, d);
      UpdateHereShows(PutNew(s, d), below, o);
      ShowsAfter(s, PutNew(s, d), UpdateHereNew(PutNew(s, d), o).0, below,
                 Put(ValueOf(s), d), UpdateHere(Put(ValueOf(s), d), o).0);
    }
  }

  lemma DeleteShows(s: State, below: seq<RefCache>, k: Key)
    requires Valid(s, below) && Apart(s, below)
    ensures var (s', out) := DeleteThrough(s, below, k);
      var (l', out') := OverlaySpec.Delete(ValueOf(s), DerefAll(s.mem, below), k);
      Shows(s, s', below, l') && out == out'
  {
    FindDerefs(s.mem, s.cache, k);
    FindInDerefs(s.mem, below, k);
    if Find(s.cache, k).Ok? {
      EntombedShows(s, below, k);
    } else if Find(s.cache, k) == Err(NotFound) && FindIn(below, k).Ok? {
      var d := s.mem[FindIn(below, k).value];
      PutNewShows(s, below, d);
      if d.key == k {
        EntombedShows(PutNew(s, d), below, k);
        ShowsAfter(s, PutNew(s, d), Entombed(PutNew(s, d), k), below, Put(ValueOf(s), d),
          Entomb(Put(ValueOf(s), d), k));
      }
    }
  }

  lemma BindFiledShows(s: State, below: seq<RefCache>, pod: Obj, node: string)
    requires Valid(s, below) && Apart(s, below)
    ensures var (s', out) := BindFiled(s, below, pod, node);
      var (l', out') := BindStored(ValueOf(s), DerefAll(s.mem, below), pod, node);
      Shows(s, s', below, l') && out == out'
  {
    TopDerefs(s, below, pod.key);
    UpdateShows(s, below, pod.(nodeName := node, podScheduled := true));
  }

  lemma BindShows(s: State, below: seq<RefCache>, k: Key, node: string)
    requires Valid(s, below) && Apart(s, below)
    ensures var (s', out) := BindThrough(s, below, k, node);
      var (l', out') := OverlaySpec.Bind(ValueOf(s), DerefAll(s.mem, below), k, node);
      Shows(s, s', below, l') && out == out'
  {
    FindDerefs(s.mem, s.cache, k);
    FindInDerefs(s.mem, below, k);
    if Find(s.cache, k).Ok? {
      BindFiledShows(s, below, s.mem[s.cache[k].obj], node);
    } else if Find(s.cache, k) == Err(NotFound) && FindIn(below, k).Ok? {
      var d := s.mem[FindIn(below, k).value];
      var s1, pod := PutNew(s, d), d.(version := s.counter + 1);
      PutNewShows(s, below, d);
      BindFiledShows(s1, below, pod, node);
      ShowsAfter(s, s1, BindFiled(s1, below, pod, node).0, below, Put(ValueOf(s), d),
                 BindStored(Put(ValueOf(s), d), DerefAll(s.mem, below), pod, node).0);
    }
  }

  lemma PatchStatusShows(s: State, below: seq<RefCache>, k: Key, patch: int -> Option<int>)
    requires Valid(s, below) && Apart(s, below)
    ensures var (s', out) := PatchStatusThrough(s, below, k, patch);
      var (l', out') := OverlaySpec.PatchStatus(ValueOf(s), DerefAll(s.mem, below), k, patch);
      Shows(s, s', below, l') && out == out'
  {
    TopDerefs(s, below, k);
    var found := FindIn([s.cache] + below, k);
    if found.Ok? && patch(s.mem[found.value].status).Some? {
      UpdateShows(s, below, s.mem[found.value].(status := patch(s.mem[found.value].status).value));
    }
  }

  ghost function ActionOf(c: Call): Action
    requires !c.PatchObject?
  {
    match c
    case Create(o, suffix) => CreateObject(o, suffix)
    case Update(o) => UpdateObject(o)
    case Delete(k) => DeleteObject(k)
    case Bind(k, node) => BindPod(k, node)
    case PatchStatus(k, status) => PatchObjectStatus(k, status)
  }

  /** While the sandbox shares nothing, every call but PatchObject does to the objects what it does
      to values, leaves the delegates' objects alone, and goes on sharing nothing. */
  lemma CallsOnValues(s: State, below: seq<RefCache>, c: Call)
    requires Valid(s, below) && Apart(s, below) && !c.PatchObject?
    ensures var (s', out) := Do(s, below, c);
      var (l', out') := Apply(ValueOf(s), DerefAll(s.mem, below), ActionOf(c));
      Shows(s, s', below, l') && out == out'
  {
    match c
    case Create(o, suffix) => CreateShows(s, below, o, suffix);
    case Update(o) => UpdateShows(s, below, o);
    case Delete(k) => DeleteShows(s, below, k);
    case Bind(k, node) => BindShows(s, below, k, node);
    case PatchStatus(k, status) => PatchStatusShows(s, below, k, status);
  }
}
