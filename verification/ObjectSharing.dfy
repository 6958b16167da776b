/** Which calls through a sandbox change objects of its delegates: exactly when a call does, when
    two views come to share an object, and what that means for runs of calls. */
module ObjectSharing {
  import opened ApiObjects
  import opened OverlaySpec
  import opened SharedObjects

  // ---------------------------------------------------------------------------
  // Which calls reach the delegates
  // ---------------------------------------------------------------------------

  /** The sandbox has its own entry for the name, and it is an object that a delegate holds. */
  ghost predicate Shared(s: State, below: seq<RefCache>, k: Key) {
    k in s.cache && Holds(below, s.cache[k].obj)
  }

  /** No object has a version that was not handed out yet. */
  ghost predicate Versioned(s: State) {
    forall r :: 0 <= r < |s.mem| ==> s.mem[r].version <= s.counter
  }

  lemma {:induction false} FoundIsHeld(chain: seq<RefCache>, k: Key)
    requires chain != [] && FindIn(chain, k).Ok?
    ensures Holds(chain, FindIn(chain, k).value)
    decreases |chain|
  {
    if Find(chain[0], k).Ok? {
      assert chain[0][k].obj == FindIn(chain, k).value;
    } else {
      FoundIsHeld(chain[1..], k);
      var r := FindIn(chain, k).value;
      var i, j :| 0 <= i < |chain[1..]| && j in chain[1..][i] && chain[1..][i][j].obj == r;
      assert chain[i + 1][j].obj == r;
    }
  }

  /** The object that a patch edits: the own one if there is one, else the delegates'. */
  lemma FoundOwnOrHeld(s: State, below: seq<RefCache>, k: Key)
    requires Valid(s, below) && FindIn([s.cache] + below, k).Ok?
    ensures var r := FindIn([s.cache] + below, k).value;
      r < |s.mem| && (k in s.cache ==> s.cache[k] == Live(r)) && (k !in s.cache ==> FindIn(below, k) == Ok(r)) &&
      (Holds(below, r) <==> k !in s.cache || Shared(s, below, k))
  {
    ChainInMemory(s, below);
    FoundIsInMemory(s.mem, [s.cache] + below, k);
    assert ([s.cache] + below)[1..] == below;
    if k !in s.cache {
      FoundIsHeld(below, k);
    }
  }

  /** The object as a patch leaves it: one that goes through also stamps the next version, which
      is one later if the delegate's object is copied in first. */
  function Left(s: State, k: Key, patch: Patch, o: Obj): Obj {
    var (p, ok) := patch(o);
    if ok && p.key == k then p.(version := s.counter + if k in s.cache then 1 else 2) else p
  }

  /** The call changes an object that the delegates hold.  A patch does if it edits an object of
      theirs, because the sandbox has none of its own or shares it, and leaves it different; a
      delete does if it stamps one. */
  ghost predicate Reaches(s: State, below: seq<RefCache>, c: Call)
    requires Valid(s, below)
  {
    match c
    case PatchObject(k, patch) =>
      var found := FindIn([s.cache] + below, k);
      found.Ok? && (k !in s.cache || Shared(s, below, k)) && found.value < |s.mem| &&
      Left(s, k, patch, s.mem[found.value]) != s.mem[found.value]
    case Delete(k) =>
      Find(s.cache, k).Ok? && Shared(s, below, k) && !s.mem[s.cache[k].obj].deletionStamped
    case _ => false
  }

  /** The delegates show what they showed. */
  ghost predicate Untouched(s: State, s': State, below: seq<RefCache>)
    requires Valid(s, below) && Valid(s', below)
  {
    DerefAll(s'.mem, below) == DerefAll(s.mem, below)
  }

  /** How the memory of the sandbox and its delegates moves on. */
  ghost predicate Moves(s: State, s': State, below: seq<RefCache>, r: Ref) {
    Valid(s', below) && OnlyAt(s.mem, s'.mem, r)
  }

  lemma StillValid(s: State, s': State, below: seq<RefCache>)
    requires Valid(s, below) && |s.mem| <= |s'.mem| && InMemory(s'.mem, s'.cache)
    ensures Valid(s', below)
  {
    forall i | 0 <= i < |below| ensures InMemory(s'.mem, below[i]) {
      assert InMemory(s.mem, below[i]);
    }
  }

  lemma PutNewMoves(s: State, below: seq<RefCache>, o: Obj, r: Ref)
    requires Valid(s, below)
    ensures Moves(s, PutNew(s, o), below, r)
    ensures PutNew(s, o).mem[..|s.mem|] == s.mem
  {
    StillValid(s, PutNew(s, o), below);
  }

  lemma MovesOn(s: State, s1: State, s2: State, below: seq<RefCache>, r: Ref)
    requires Moves(s, s1, below, r) && Moves(s1, s2, below, r)
    ensures Moves(s, s2, below, r)
  {
  }

  lemma UpdateNewMoves(s: State, below: seq<RefCache>, o: Obj, r: Ref)
    requires Valid(s, below)
    ensures Moves(s, UpdateNew(s, below, o).0, below, r)
  {
    PutNewMoves(s, below, o, r);
    FindInDerefs(s.mem, below, o.key);
    if FindIn(below, o.key).Ok? {
      var d := s.mem[FindIn(below, o.key).value];
      PutNewMoves(s, below, d, r);
      PutNewMoves(PutNew(s, d), below, o, r);
      MovesOn(s, PutNew(s, d), PutNew(PutNew(s, d), o), below, r);
    }
  }

  lemma BindFiledMoves(s: State, below: seq<RefCache>, pod: Obj, node: string, r: Ref)
    requires Valid(s, below)
    ensures Moves(s, BindFiled(s, below, pod, node).0, below, r)
  {
    UpdateNewMoves(s, below, pod.(nodeName := node, podScheduled := true), r);
  }

  lemma BindMoves(s: State, below: seq<RefCache>, k: Key, node: string, r: Ref)
    requires Valid(s, below)
    ensures Moves(s, BindThrough(s, below, k, node).0, below, r)
  {
    FindInDerefs(s.mem, below, k);
    if Find(s.cache, k).Ok? {
      BindFiledMoves(s, below, s.mem[s.cache[k].obj], node, r);
    } else if Find(s.cache, k) == Err(NotFound) && FindIn(below, k).Ok? {
      var d := s.mem[FindIn(below, k).value];
      var s1, pod := PutNew(s, d), d.(version := s.counter + 1);
      PutNewMoves(s, below, d, r);
      BindFiledMoves(s1, below, pod, node, r);
      MovesOn(s, s1, BindFiled(s1, below, pod, node).0, below, r);
    }
  }

  lemma PatchStatusMoves(s: State, below: seq<RefCache>, k: Key, patch: int -> Option<int>, r: Ref)
    requires Valid(s, below)
    ensures Moves(s, PatchStatusThrough(s, below, k, patch).0, below, r)
  {
    TopDerefs(s, below, k);
    var found := FindIn([s.cache] + below, k);
    if found.Ok? && patch(s.mem[found.value].status).Some? {
      UpdateNewMoves(s, below, s.mem[found.value].(status := patch(s.mem[found.value].status).value), r);
    }
  }

  /** A delete changes at most the own object, which it stamps, or a copy. */
  lemma DeleteMoves(s: State, below: seq<RefCache>, k: Key)
    requires Valid(s, below)
    ensures var s' := DeleteThrough(s, below, k).0;
      (Find(s.cache, k).Err? ==> Moves(s, s', below, |s.mem|)) &&
      (Find(s.cache, k).Ok? ==>
        var r := s.cache[k].obj;
        Moves(s, s', below, r) && s'.mem[r] == s.mem[r].(deletionStamped := true))
  {
    FindInDerefs(s.mem, below, k);
    if Find(s.cache, k).Ok? {
      StillValid(s, Entombed(s, k), below);
    } else if Find(s.cache, k) == Err(NotFound) && FindIn(below, k).Ok? {
      var d := s.mem[FindIn(below, k).value];
      PutNewMoves(s, below, d, |s.mem|);
      if d.key == k {
        StillValid(PutNew(s, d), Entombed(PutNew(s, d), k), below);
      }
    }
  }

  lemma UpdateHereSharedMoves(s: State, below: seq<RefCache>, r: Ref)
    requires Valid(s, below) && r < |s.mem|
    ensures Moves(s, UpdateHereShared(s, r).0, below, r)
  {
    StillValid(s, UpdateHereShared(s, r).0, below);
  }

  /** An update with an object that is in memory changes that object's version only; here it goes
      through, and files the object under its name. */
  lemma UpdateSharedMoves(s: State, below: seq<RefCache>, r: Ref, k: Key)
    requires Valid(s, below) && r < |s.mem| && s.mem[r].key == k
    requires if k in s.cache then s.cache[k].Live? else FindIn(below, k) == Ok(r)
    ensures var (s', out) := UpdateShared(s, below, r);
      out == Done && Moves(s, s', below, r) && k in s'.cache && s'.cache[k] == Live(r) &&
      s'.counter == s.counter + (if k in s.cache then 1 else 2) && s'.mem[r] == s.mem[r].(version := s'.counter) &&
      forall j :: j in s'.cache && j != k ==> j in s.cache && s'.cache[j] == s.cache[j]
  {
    UpdateHereSharedMoves(s, below, r);
    if k !in s.cache {
      FindInDerefs(s.mem, below, k);
      var s1 := PutNew(s, s.mem[r]);
      PutNewMoves(s, below, s.mem[r], r);
      UpdateHereSharedMoves(s1, below, r);
      MovesOn(s, s1, UpdateHereShared(s1, r).0, below, r);
    }
  }

  lemma PatchMoves(s: State, below: seq<RefCache>, k: Key, patch: Patch)
    requires Valid(s, below) && FindIn([s.cache] + below, k).Ok?
    ensures var (s', out) := PatchThrough(s, below, k, patch);
      var r := FindIn([s.cache] + below, k).value;
      r < |s.mem| && Valid(s', below) && OnlyAt(s.mem, s'.mem, r) && s'.mem[r] == Left(s, k, patch, s.mem[r]) &&
      (out.Done? <==> patch(s.mem[r]).1 && patch(s.mem[r]).0.key == k) &&
      (out.Failed? ==> s'.cache == s.cache) &&
      (out.Done? ==> k in s'.cache && s'.cache[k] == Live(r)) &&
      (forall j :: j in s'.cache && j != k ==> j in s.cache && s'.cache[j] == s.cache[j])
  {
    FoundOwnOrHeld(s, below, k);
    var r := FindIn([s.cache] + below, k).value;
    var (p, ok) := patch(s.mem[r]);
    var s1 := s.(mem := s.mem[r := p]);
    StillValid(s, s1, below);
    if ok && p.key == k {
      UpdateSharedMoves(s1, below, r, k);
    }
  }

  /** Exactly the calls that reach the delegates change what they show, whatever comes of the
      call: in particular, a patch of an object the sandbox already holds still does, if the
      object is shared. */
  lemma TouchesIffReaches(s: State, below: seq<RefCache>, c: Call)
    requires Valid(s, below)
    ensures var s' := Do(s, below, c).0;
      Valid(s', below) && (Untouched(s, s', below) <==> !Reaches(s, below, c))
  {
    var s', none := Do(s, below, c).0, |s.mem|;
    NewIsHeldByNobody(s.mem, below);
    match c
    case Create(o, suffix) =>
      PutNewMoves(s, below, Stored(o, suffix), none);
      EditSeenIff(s.mem, s'.mem, below, none);
    case Update(o) =>
      UpdateNewMoves(s, below, o, none);
      EditSeenIff(s.mem, s'.mem, below, none);
    case Bind(k, node) =>
      BindMoves(s, below, k, node, none);
      EditSeenIff(s.mem, s'.mem, below, none);
    case PatchStatus(k, status) =>
      PatchStatusMoves(s, below, k, status, none);
      EditSeenIff(s.mem, s'.mem, below, none);
    case Delete(k) =>
      DeleteMoves(s, below, k);
      EditSeenIff(s.mem, s'.mem, below, if Find(s.cache, k).Ok? then s.cache[k].obj else none);
    case PatchObject(k, patch) =>
      PatchTouchesIffReaches(s, below, k, patch);
  }

  lemma PatchTouchesIffReaches(s: State, below: seq<RefCache>, k: Key, patch: Patch)
    requires Valid(s, below)
    ensures var s' := PatchThrough(s, below, k, patch).0;
      Valid(s', below) && (Untouched(s, s', below) <==> !Reaches(s, below, PatchObject(k, patch)))
  {
    var found := FindIn([s.cache] + below, k);
    if found.Ok? {
      PatchMoves(s, below, k, patch);
      FoundOwnOrHeld(s, below, k);
      EditSeenIff(s.mem, PatchThrough(s, below, k, patch).0.mem, below, found.value);
    }
  }

  /** A patch that goes through leaves the delegates alone if and only if the sandbox has its own
      entry for the name and does not share it. */
  lemma PatchIsolationIff(s: State, below: seq<RefCache>, k: Key, patch: Patch)
    requires Valid(s, below) && Versioned(s) && PatchThrough(s, below, k, patch).1.Done?
    ensures var s' := PatchThrough(s, below, k, patch).0;
      Valid(s', below) && (Untouched(s, s', below) <==> k in s.cache && !Shared(s, below, k))
  {
    PatchTouchesIffReaches(s, below, k, patch);
    FoundOwnOrHeld(s, below, k);
    PatchMoves(s, below, k, patch);
  }

  // ---------------------------------------------------------------------------
  // Runs of calls
  // ---------------------------------------------------------------------------

  ghost function After(s: State, below: seq<RefCache>, calls: seq<Call>): (s': State)
    requires Valid(s, below)
    ensures Valid(s', below)
    decreases |calls|
  {
    if calls == [] then s
    else
      TouchesIffReaches(s, below, calls[0]);
      After(Do(s, below, calls[0]).0, below, calls[1..])
  }

  /** After every one of the calls the delegates show what they showed at `from`. */
  ghost predicate UntouchedThroughout(from: State, s: State, below: seq<RefCache>, calls: seq<Call>)
    requires Valid(from, below) && Valid(s, below)
    decreases |calls|
  {
    && Untouched(from, s, below)
    && (calls != [] ==> (
          TouchesIffReaches(s, below, calls[0]);
          UntouchedThroughout(from, Do(s, below, calls[0]).0, below, calls[1..])))
  }

  ghost predicate NoneReaches(s: State, below: seq<RefCache>, calls: seq<Call>)
    requires Valid(s, below)
    decreases |calls|
  {
    calls != [] ==>
      && !Reaches(s, below, calls[0])
      && (TouchesIffReaches(s, below, calls[0]); NoneReaches(Do(s, below, calls[0]).0, below, calls[1..]))
  }

  /** Over every run of calls through the sandbox, patches of every outcome included: the
      delegates stay as they were throughout if and only if no call reaches them. */
  lemma {:induction false} RunIsolationIff(from: State, s: State, below: seq<RefCache>, calls: seq<Call>)
    requires Valid(from, below) && Valid(s, below) && Untouched(from, s, below)
    ensures UntouchedThroughout(from, s, below, calls) <==> NoneReaches(s, below, calls)
    decreases |calls|
  {
    if calls != [] {
      TouchesIffReaches(s, below, calls[0]);
      if !Reaches(s, below, calls[0]) {
        RunIsolationIff(from, Do(s, below, calls[0]).0, below, calls[1..]);
      }
    }
  }

  /** Every own entry is as it was or holds an object made since. */
  ghost predicate OldOrNew(s: State, s': State) {
    && |s.mem| <= |s'.mem|
    && forall j :: j in s'.cache ==> s'.cache[j].obj >= |s.mem| || (j in s.cache && s'.cache[j].obj == s.cache[j].obj)
  }

  lemma NewIsNotShared(s: State, s': State, below: seq<RefCache>, j: Key)
    requires Valid(s, below) && OldOrNew(s, s') && Shared(s', below, j)
    ensures Shared(s, below, j)
  {
    var r := s'.cache[j].obj;
    var i, k :| 0 <= i < |below| && k in below[i] && below[i][k].obj == r;
    assert InMemory(s.mem, below[i]);
  }

  lemma UpdateNewOldOrNew(s: State, below: seq<RefCache>, o: Obj)
    requires Valid(s, below)
    ensures OldOrNew(s, UpdateNew(s, below, o).0)
  {
    FindInDerefs(s.mem, below, o.key);
  }

  lemma BindOldOrNew(s: State, below: seq<RefCache>, k: Key, node: string)
    requires Valid(s, below)
    ensures OldOrNew(s, BindThrough(s, below, k, node).0)
  {
    FindInDerefs(s.mem, below, k);
    if Find(s.cache, k).Ok? {
      UpdateNewOldOrNew(s, below, s.mem[s.cache[k].obj].(nodeName := node, podScheduled := true));
    } else if Find(s.cache, k) == Err(NotFound) && FindIn(below, k).Ok? {
      var d := s.mem[FindIn(below, k).value];
      PutNewMoves(s, below, d, 0);
      UpdateNewOldOrNew(PutNew(s, d), below, d.(version := s.counter + 1, nodeName := node, podScheduled := true));
    }
  }

  lemma PatchStatusOldOrNew(s: State, below: seq<RefCache>, k: Key, patch: int -> Option<int>)
    requires Valid(s, below)
    ensures OldOrNew(s, PatchStatusThrough(s, below, k, patch).0)
  {
    TopDerefs(s, below, k);
    var found := FindIn([s.cache] + below, k);
    if found.Ok? && patch(s.mem[found.value].status).Some? {
      UpdateNewOldOrNew(s, below, s.mem[found.value].(status := patch(s.mem[found.value].status).value));
    }
  }

  lemma DeleteOldOrNew(s: State, below: seq<RefCache>, k: Key)
    requires Valid(s, below)
    ensures OldOrNew(s, DeleteThrough(s, below, k).0)
  {
    FindInDerefs(s.mem, below, k);
  }

  /** Only a PatchObject of a name makes its object shared; it does so exactly when it goes through
      and the object it edits is a delegate's. */
  lemma OnlyPatchesShare(s: State, below: seq<RefCache>, c: Call, j: Key)
    requires Valid(s, below)
    ensures var (s', out) := Do(s, below, c);
      (!(c.PatchObject? && c.key == j) && Shared(s', below, j) ==> Shared(s, below, j)) &&
      (c.PatchObject? && c.key == j ==>
        (Shared(s', below, j) <==> Shared(s, below, j) || (out.Done? && j !in s.cache)))
  {
    var s' := Do(s, below, c).0;
    match c
    case Create(o, suffix) =>
    case Update(o) => UpdateNewOldOrNew(s, below, o);
    case Delete(k) => DeleteOldOrNew(s, below, k);
    case Bind(k, node) => BindOldOrNew(s, below, k, node);
    case PatchStatus(k, status) => PatchStatusOldOrNew(s, below, k, status);
    case PatchObject(k, patch) => PatchShares(s, below, k, patch, j);
    if !c.PatchObject? && Shared(s', below, j) {
      NewIsNotShared(s, s', below, j);
    }
  }

  lemma PatchShares(s: State, below: seq<RefCache>, k: Key, patch: Patch, j: Key)
    requires Valid(s, below)
    ensures var (s', out) := PatchThrough(s, below, k, patch);
      (k != j && Shared(s', below, j) ==> Shared(s, below, j)) &&
      (k == j ==> (Shared(s', below, j) <==> Shared(s, below, j) || (out.Done? && j !in s.cache)))
  {
    if FindIn([s.cache] + below, k).Ok? {
      PatchMoves(s, below, k, patch);
      FoundOwnOrHeld(s, below, k);
    }
  }

  ghost predicate Patches(c: Call, k: Key) {
    c.PatchObject? && c.key == k
  }

  /** A name that no call patches does not come to be shared. */
  lemma {:induction false} UnpatchedIsNotShared(s: State, below: seq<RefCache>, calls: seq<Call>, k: Key)
    requires Valid(s, below) && !Shared(s, below, k) && forall i :: 0 <= i < |calls| ==> !Patches(calls[i], k)
    ensures !Shared(After(s, below, calls), below, k)
    decreases |calls|
  {
    if calls != [] {
      TouchesIffReaches(s, below, calls[0]);
      OnlyPatchesShare(s, below, calls[0], k);
      UnpatchedIsNotShared(Do(s, below, calls[0]).0, below, calls[1..], k);
    }
  }

  /** Isolation, in terms of the calls alone: a sandbox that shares nothing leaves its delegates as
      they were, whatever is called through it, as long as nothing is called through PatchObject. */
  lemma {:induction false} WithoutPatchesIsolated(s: State, below: seq<RefCache>, calls: seq<Call>)
    requires Valid(s, below) && forall k :: !Shared(s, below, k)
    requires forall i :: 0 <= i < |calls| ==> !calls[i].PatchObject?
    ensures NoneReaches(s, below, calls) && UntouchedThroughout(s, s, below, calls)
    decreases |calls|
  {
    RunIsolationIff(s, s, below, calls);
    if calls != [] {
      var s' := Do(s, below, calls[0]).0;
      TouchesIffReaches(s, below, calls[0]);
      forall k ensures !Shared(s', below, k) {
        OnlyPatchesShare(s, below, calls[0], k);
      }
      WithoutPatchesIsolated(s', below, calls[1..]);
    }
  }

  lemma StampKeepsVersioned(s: State, r: Ref, o: Obj)
    requires Versioned(s) && r < |s.mem|
    ensures Versioned(PutNew(s, o))
    ensures var t := s.(mem := s.mem[r := o]); UpdateHereShared(t, r).1.Done? ==> Versioned(UpdateHereShared(t, r).0)
  {
  }

  /** A patch that goes through stamps what it edited: no version is ahead of the counter. */
  lemma PatchKeepsVersioned(s: State, below: seq<RefCache>, k: Key, patch: Patch)
    requires Valid(s, below) && Versioned(s) && PatchThrough(s, below, k, patch).1.Done?
    ensures Versioned(PatchThrough(s, below, k, patch).0)
  {
    ChainInMemory(s, below);
    FoundIsInMemory(s.mem, [s.cache] + below, k);
    var r := FindIn([s.cache] + below, k).value;
    StampKeepsVersioned(s, r, patch(s.mem[r]).0);
  }

  /** Having an own entry is not enough: the first patch of a delegate's object files that very
      object here, so a second patch of the same name reaches the delegate again, and so does a
      delete of it. */
  lemma SecondPatchReachesToo(s: State, below: seq<RefCache>, k: Key, first: Patch, second: Patch)
    requires Valid(s, below) && Versioned(s) && k !in s.cache && PatchThrough(s, below, k, first).1.Done?
    ensures var s1 := PatchThrough(s, below, k, first).0;
      Valid(s1, below) && !Untouched(s, s1, below) && k in s1.cache && Shared(s1, below, k) &&
      var (s2, out) := PatchThrough(s1, below, k, second);
      Valid(s2, below) && (out.Done? ==> !Untouched(s1, s2, below)) &&
      (!s1.mem[s1.cache[k].obj].deletionStamped ==> Reaches(s1, below, Delete(k)))
  {
    PatchIsolationIff(s, below, k, first);
    PatchShares(s, below, k, first, k);
    FoundOwnOrHeld(s, below, k);
    PatchMoves(s, below, k, first);
    var s1 := PatchThrough(s, below, k, first).0;
    PatchTouchesIffReaches(s1, below, k, second);
    PatchKeepsVersioned(s, below, k, first);
    if PatchThrough(s1, below, k, second).1.Done? {
      PatchIsolationIff(s1, below, k, second);
    }
  }

  /** A patch that renames the object is refused, but only after the delegate's object has been
      renamed: the delegate then files it under a name that it does not carry. */
  lemma RefusedRenameReaches(s: State, below: seq<RefCache>, i: nat, k: Key, patch: Patch)
    requires Valid(s, below) && k !in s.cache && i < |below| && k in below[i] && FindIn(below, k) == Ok(below[i][k].obj)
    requires InMemory(s.mem, below[i]) && patch(s.mem[below[i][k].obj]).0.key != k
    ensures var (s', out) := PatchThrough(s, below, k, patch);
      out.Failed? && Valid(s', below) && !Keyed(Deref(s'.mem, below[i]))
  {
    assert ([s.cache] + below)[1..] == below;
    PatchMoves(s, below, k, patch);
    var s' := PatchThrough(s, below, k, patch).0;
    assert InMemory(s'.mem, below[i]) && Deref(s'.mem, below[i])[k].obj.key != k;
  }

  // ---------------------------------------------------------------------------
  // The calls as they change a sandbox in place
  // ---------------------------------------------------------------------------

  class Sandbox {
    var mem: seq<Obj>
    var cache: RefCache
    var counter: nat
    var changes: nat
    const below: seq<RefCache>

    function Now(): State
      reads this
    {
      State(mem, cache, counter, changes)
    }

    constructor (mem: seq<Obj>, counter: nat, below: seq<RefCache>)
      ensures Now() == State(mem, map[], counter, 0) && this.below == below
    {
      this.mem, this.counter, this.below := mem, counter, below;
      cache, changes := map[], 0;
    }

    method GetObject(k: Key) returns (r: Result<Ref>)
      requires Valid(Now(), below)
      ensures r == FindIn([cache] + below, k)
    {
      r := Find(cache, k);
      assert ([cache] + below)[1..] == below;
      if r == Err(NotFound) {
        r := FindIn(below, k);
      }
    }

    method UpdateStored(r: Ref) returns (out: Outcome)
      requires r < |mem|
      modifies this
      ensures (Now(), out) == UpdateHereShared(old(Now()), r)
    {
      var k := mem[r].key;
      var here := Find(cache, k);
      if here.Err? {
        return Failed(here.error);
      }
      counter := counter + 1;
      mem := mem[r := mem[r].(version := counter)];
      cache := cache[k := Live(r)];
      changes := changes + 1;
      out := Done;
    }

    method PatchObject(k: Key, patch: Patch) returns (out: Outcome)
      requires Valid(Now(), below)
      modifies this
      ensures (Now(), out) == PatchThrough(old(Now()), below, k, patch)
    {
      var found := GetObject(k);
      if found.Err? {
        return Failed(found.error);
      }
      var r := found.value;
      ChainInMemory(Now(), below);
      FoundIsInMemory(mem, [cache] + below, k);
      var (patched, ok) := patch(mem[r]);
      mem := mem[r := patched];
      if !ok {
        return Failed(PatchFailed);
      }
      if patched.key != k {
        return Failed(ImmutableField);
      }
      out := UpdateStored(r);
      if out == Failed(NotFound) {
        var d := FindIn(below, k);
        if d.Err? {
          return Failed(d.error);
        }
        FoundIsInMemory(mem, below, k);
        var copy := mem[d.value];
        counter := counter + 1;
        mem := mem + [copy.(version := counter)];
        cache := cache[copy.key := Live(|mem| - 1)];
        changes := changes + 1;
        out := UpdateStored(r);
      }
    }
  }
}
