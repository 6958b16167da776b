/** Every run of calls through any views of the tree, compared with plain maps. */
module OverlayRuns {
  import opened ApiObjects
  import opened OverlaySpec
  import opened OverlayContents
  import opened OverlayFlat
  import opened OverlayWorld

  // ---------------------------------------------------------------------------
  // The reference machine: one plain map per view, versions left out
  // ---------------------------------------------------------------------------

  ghost function Unversioned(m: Contents): Contents {
    map k | k in m :: m[k].(version := 0)
  }

  /** `touched`: the names this view has answered for itself since it was opened or reset. */
  datatype PlainView = PlainView(delegate: Option<nat>, contents: Contents, touched: set<Key>)

  datatype PlainResult = PlainResult(contents: Contents, outcome: Outcome, touches: set<Key>)

  /** One action on a plain map.  The base view alone refuses a binding with an empty name. */
  ghost function Plain(m: Contents, isBase: bool, a: Action): PlainResult {
    match a
    case CreateObject(o, suffix) =>
      if o.key.name == "" && o.generateName == "" then PlainResult(m, Failed(BadRequest), {})
      else
        var o' := Stored(o, suffix).(version := 0);
        PlainResult(m[o'.key := o'], Done, {o'.key})
    case UpdateObject(o) =>
      if o.key !in m then PlainResult(m, Failed(NotFound), {})
      else PlainResult(m[o.key := o.(version := 0)], Done, {o.key})
    case DeleteObject(k) =>
      if k !in m then PlainResult(m, Failed(NotFound), {})
      else PlainResult(m - {k}, Done, {k})
    case DeleteObjects(keys) => PlainResult(m - KeySet(keys), Done, KeySet(keys) * m.Keys)
    case BindPod(k, node) =>
      if isBase && k.name == "" then PlainResult(m, Failed(EmptyPodName), {})
      else if k !in m then PlainResult(m, Failed(NotFound), {})
      else if m[k].nodeName != "" then PlainResult(m, Failed(AlreadyBound(m[k].nodeName)), {k})
      else PlainResult(m[k := m[k].(nodeName := node, podScheduled := true)], Done, {k})
    case PatchObjectStatus(k, patch) =>
      if k !in m then PlainResult(m, Failed(NotFound), {})
      else match patch(m[k].status)
        case None => PlainResult(m, Failed(PatchFailed), {})
        case Some(s) => PlainResult(m[k := m[k].(status := s)], Done, {k})
  }

  /** Outcomes agree up to the difference between a missing and a tombstoned name. */
  ghost predicate SameOutcome(a: Outcome, b: Outcome) {
    a == b || (a.Failed? && b.Failed? && IsNotFound(a.error) && IsNotFound(b.error))
  }

  /** What a view shows after its delegate came to show `from`: it keeps the names it has
      touched and reads every other name afresh. */
  ghost function Refresh(own: Contents, touched: set<Key>, from: Contents): Contents {
    map k | k in own.Keys + from.Keys && (if k in touched then k in own else k in from)
      :: if k in touched then own[k] else from[k]
  }

  ghost predicate PlainLinked(views: seq<PlainView>) {
    && views != []
    && views[0].delegate == None
    && forall v :: 0 < v < |views| ==> views[v].delegate.Some? && views[v].delegate.value < v
  }

  /** The contents of view `u` once view `v` has come to show `m`. */
  ghost function Settled(views: seq<PlainView>, v: nat, m: Contents, u: nat): Contents
    requires PlainLinked(views) && u < |views|
    decreases u
  {
    if u == v then m
    else match views[u].delegate
      case None => views[u].contents
      case Some(d) => Refresh(views[u].contents, views[u].touched, Settled(views, v, m, d))
  }

  ghost function SettleAll(views: seq<PlainView>, v: nat, m: Contents, touched: set<Key>): seq<PlainView>
    requires PlainLinked(views) && v < |views|
  {
    seq(|views|, u requires 0 <= u < |views| =>
      PlainView(views[u].delegate, Settled(views, v, m, u), if u == v then touched else views[u].touched))
  }

  ghost function PlainStep(views: seq<PlainView>, op: Op): (seq<PlainView>, Outcome)
    requires PlainLinked(views)
    requires match op case Act(v, _) => v < |views| case OpenSandbox(d) => d < |views| case ResetView(v) => v < |views|
  {
    match op
    case Act(v, a) =>
      var isBase := views[v].delegate.None?;
      var r := Plain(views[v].contents, isBase, a);
      (SettleAll(views, v, r.contents, if isBase then {} else views[v].touched + r.touches), r.outcome)
    case OpenSandbox(d) => (views + [PlainView(Some(d), views[d].contents, {})], Done)
    case ResetView(v) =>
      var m := match views[v].delegate case None => map[] case Some(d) => views[d].contents;
      (SettleAll(views, v, m, {}), Done)
  }

  // ---------------------------------------------------------------------------
  // One action on the overlay is the same action on the plain map
  // ---------------------------------------------------------------------------

  lemma UnversionedUpdate(m: Contents, k: Key, o: Obj, n: nat)
    ensures Unversioned(m[k := o.(version := n)]) == Unversioned(m)[k := o.(version := 0)]
  {
  }

  lemma UnversionedRemoval(m: Contents, k: Key)
    ensures Unversioned(m - {k}) == Unversioned(m) - {k}
  {
  }

  ghost predicate Matches(l: Local, below: seq<Cache>, base: Contents, a: Action) {
    var (l', out) := Apply(l, below, a);
    var r := Plain(Unversioned(Overlay(base, l.cache)), below == [], a);
    SameOutcome(out, r.outcome) && Unversioned(Overlay(base, l'.cache)) == r.contents
  }

  lemma PutMatches(l: Local, base: Contents, o: Obj)
    ensures Unversioned(Overlay(base, Put(l, o).cache)) ==
      Unversioned(Overlay(base, l.cache))[o.key := o.(version := 0)]
  {
    PutIsMapUpdate(l, base, o);
    UnversionedUpdate(Overlay(base, l.cache), o.key, o, l.counter + 1);
  }

  lemma CreateMatches(l: Local, below: seq<Cache>, base: Contents, o: Obj, suffix: Suffix)
    requires Sound(l, below, base)
    ensures Matches(l, below, base, CreateObject(o, suffix))
  {
    if !(o.key.name == "" && o.generateName == "") {
      var o' := Stored(o, suffix);
      PutMatches(l, base, o');
    }
  }

  lemma UpdateMatches(l: Local, below: seq<Cache>, base: Contents, o: Obj)
    requires Sound(l, below, base)
    ensures Matches(l, below, base, UpdateObject(o))
  {
    UpdateIsMapUpdate(l, below, base, o);
    UnversionedUpdate(Overlay(base, l.cache), o.key, o, Update(l, below, o).0.counter);
  }

  lemma DeleteMatches(l: Local, below: seq<Cache>, base: Contents, k: Key)
    requires Sound(l, below, base)
    ensures Matches(l, below, base, DeleteObject(k))
  {
    DeleteIsMapRemoval(l, below, base, k);
    UnversionedRemoval(Overlay(base, l.cache), k);
  }

  lemma DeleteAllMatches(l: Local, below: seq<Cache>, base: Contents, keys: seq<Key>)
    requires Sound(l, below, base)
    ensures Matches(l, below, base, DeleteObjects(keys))
  {
    DeleteAllIsMapRemoval(l, below, base, keys);
    var m := Overlay(base, l.cache);
    assert Unversioned(m - KeySet(keys)) == Unversioned(m) - KeySet(keys);
  }

  lemma BindMatches(l: Local, below: seq<Cache>, base: Contents, k: Key, node: string)
    requires Sound(l, below, base)
    ensures Matches(l, below, base, BindPod(k, node))
  {
    BindIsMapUpdate(l, below, base, k, node);
    var m := Overlay(base, l.cache);
    var n := Bind(l, below, k, node).0.counter;
    if k in m && m[k].nodeName == "" {
      UnversionedUpdate(m, k, m[k].(nodeName := node, podScheduled := true), n);
    } else if k in m {
      UnversionedUpdate(m, k, m[k], n);
      assert Unversioned(m)[k := m[k].(version := 0)] == Unversioned(m);
    }
  }

  lemma PatchStatusMatches(l: Local, below: seq<Cache>, base: Contents, k: Key, patch: int -> Option<int>)
    requires Sound(l, below, base)
    ensures Matches(l, below, base, PatchObjectStatus(k, patch))
  {
    PatchStatusIsMapUpdate(l, below, base, k, patch);
    var m := Overlay(base, l.cache);
    if k in m && patch(m[k].status).Some? {
      UnversionedUpdate(m, k, m[k].(status := patch(m[k].status).value), PatchStatus(l, below, k, patch).0.counter);
    }
  }

  lemma ActionMatches(l: Local, below: seq<Cache>, base: Contents, a: Action)
    requires Sound(l, below, base)
    ensures Matches(l, below, base, a)
  {
    match a
    case CreateObject(o, suffix) => CreateMatches(l, below, base, o, suffix);
    case UpdateObject(o) => UpdateMatches(l, below, base, o);
    case DeleteObject(k) => DeleteMatches(l, below, base, k);
    case DeleteObjects(keys) => DeleteAllMatches(l, below, base, keys);
    case BindPod(k, node) => BindMatches(l, below, base, k, node);
    case PatchObjectStatus(k, patch) => PatchStatusMatches(l, below, base, k, patch);
  }

  lemma ActionKeepsSound(l: Local, below: seq<Cache>, base: Contents, a: Action)
    requires Sound(l, below, base)
    ensures Sound(Apply(l, below, a).0, below, base) && Grows(l, Apply(l, below, a).0)
  {
    match a
    case CreateObject(o, suffix) => CreateKeepsSound(l, below, base, o, suffix);
    case UpdateObject(o) => UpdateKeepsSound(l, below, base, o);
    case DeleteObject(k) => DeleteKeepsSound(l, below, base, k);
    case DeleteObjects(keys) => DeleteAllKeepsSound(l, below, base, keys);
    case BindPod(k, node) => BindKeepsSound(l, below, base, k, node);
    case PatchObjectStatus(k, patch) => PatchStatusKeepsSound(l, below, base, k, patch);
  }

  /** In a sandbox, the names an action adds to the cache are exactly those it touches. */
  lemma ActionTouches(l: Local, below: seq<Cache>, base: Contents, a: Action)
    requires Sound(l, below, base) && below != []
    ensures var r := Plain(Unversioned(Overlay(base, l.cache)), false, a);
      Apply(l, below, a).0.cache.Keys == l.cache.Keys + r.touches
  {
    var m := Overlay(base, l.cache);
    match a
    case CreateObject(o, suffix) =>
    case UpdateObject(o) =>
      assert Answers(base, o.key, Lookup(below, o.key));
    case DeleteObject(k) =>
      DeleteTouches(l, below, base, k);
    case DeleteObjects(keys) =>
      DeleteAllTouches(l, below, base, keys);
    case BindPod(k, node) =>
      BindTouches(l, below, base, k, node);
    case PatchObjectStatus(k, patch) =>
      PatchStatusTouches(l, below, base, k, patch);
  }

  lemma DeleteTouches(l: Local, below: seq<Cache>, base: Contents, k: Key)
    requires Sound(l, below, base) && below != []
    ensures Delete(l, below, k).0.cache.Keys == l.cache.Keys + if k in Overlay(base, l.cache) then {k} else {}
  {
    assert Answers(base, k, Lookup(below, k));
  }

  lemma {:induction false} DeleteAllTouches(l: Local, below: seq<Cache>, base: Contents, keys: seq<Key>)
    requires Sound(l, below, base) && below != []
    ensures DeleteAll(l, below, keys).cache.Keys == l.cache.Keys + KeySet(keys) * Overlay(base, l.cache).Keys
    decreases |keys|
  {
    if keys != [] {
      var k, l1 := keys[0], Delete(l, below, keys[0]).0;
      DeleteTouches(l, below, base, k);
      DeleteKeepsSound(l, below, base, k);
      DeleteRemoves(l, below, base, k);
      DeleteAllTouches(l1, below, base, keys[1..]);
      TouchedOneByOne(l.cache.Keys, Overlay(base, l.cache), keys);
    }
  }

  lemma TouchedOneByOne(own: set<Key>, m: Contents, keys: seq<Key>)
    requires keys != []
    ensures var first := if keys[0] in m then {keys[0]} else {};
      own + first + KeySet(keys[1..]) * (m - {keys[0]}).Keys == own + KeySet(keys) * m.Keys
  {
    assert keys == [keys[0]] + keys[1..];
    assert KeySet(keys) == {keys[0]} + KeySet(keys[1..]);
  }

  lemma PatchStatusTouches(l: Local, below: seq<Cache>, base: Contents, k: Key, patch: int -> Option<int>)
    requires Sound(l, below, base) && below != []
    ensures var m := Overlay(base, l.cache);
      PatchStatus(l, below, k, patch).0.cache.Keys ==
      l.cache.Keys + if k in m && patch(m[k].status).Some? then {k} else {}
  {
    TopAnswers(l, below, base, k);
    assert Answers(base, k, Lookup(below, k));
  }

  lemma BindTouches(l: Local, below: seq<Cache>, base: Contents, k: Key, node: string)
    requires Sound(l, below, base) && below != []
    ensures Bind(l, below, k, node).0.cache.Keys ==
      l.cache.Keys + if k in Overlay(base, l.cache) then {k} else {}
  {
    assert Answers(base, k, Lookup(below, k));
    TopAnswers(l, below, base, k);
    if k !in l.cache && k in base {
      TopAnswers(Put(l, base[k]), below, base, k);
    }
  }

  // ---------------------------------------------------------------------------
  // The tree of views refines the tree of plain maps, over every run
  // ---------------------------------------------------------------------------

  lemma {:induction false} ChainIsKeyed(w: World, v: nat)
    requires Linked(w.views) && WorldKeyed(w) && v < |w.views|
    ensures AllKeyed(Chain(w.views, v))
    ensures AllKeyed(Below(w.views, v))
    decreases v
  {
    if w.views[v].delegate.Some? {
      ChainIsKeyed(w, w.views[v].delegate.value);
    }
  }

  lemma WorldIsSound(w: World, v: nat)
    requires Linked(w.views) && WorldKeyed(w) && v < |w.views|
    ensures Sound(LocalOf(w, v), Below(w.views, v), ShownBelow(w.views, v))
    ensures Below(w.views, v) == [] <==> w.views[v].delegate.None?
  {
    ChainIsKeyed(w, v);
    ChainShowsFlat(Below(w.views, v));
  }

  lemma ShownUnfolds(views: seq<ViewNode>, v: nat)
    requires Linked(views) && v < |views|
    ensures Shown(views, v) == Overlay(ShownBelow(views, v), views[v].cache)
    ensures views[v].delegate.Some? ==> ShownBelow(views, v) == Shown(views, views[v].delegate.value)
  {
    assert Chain(views, v)[1..] == Below(views, v);
  }

  /** A chain depends only on the views it passes through, all of them older. */
  lemma {:induction false} ChainDependsOnPrefix(views: seq<ViewNode>, views': seq<ViewNode>, u: nat)
    requires Linked(views) && Linked(views') && u < |views| && u < |views'|
    requires views[..u] == views'[..u] && views[u].delegate == views'[u].delegate
    ensures Below(views, u) == Below(views', u)
    ensures views[u] == views'[u] ==> Chain(views, u) == Chain(views', u)
    decreases u
  {
    if views[u].delegate.Some? {
      var d := views[u].delegate.value;
      assert views[d] == views[..u][d] == views'[..u][d] == views'[d];
      assert views[..d] == views[..u][..d] == views'[..u][..d] == views'[..d];
      ChainDependsOnPrefix(views, views', d);
    }
  }

  ghost function Abs(w: World): seq<PlainView>
    requires Linked(w.views)
  {
    seq(|w.views|, u requires 0 <= u < |w.views| =>
      PlainView(w.views[u].delegate, Unversioned(Shown(w.views, u)),
        if w.views[u].delegate.None? then {} else w.views[u].cache.Keys))
  }

  lemma OverlayRefreshes(was: Contents, now: Contents, c: Cache)
    ensures Unversioned(Overlay(now, c)) == Refresh(Unversioned(Overlay(was, c)), c.Keys, Unversioned(now))
  {
    var a, b := Unversioned(Overlay(now, c)), Refresh(Unversioned(Overlay(was, c)), c.Keys, Unversioned(now));
    forall k ensures (k in a <==> k in b) && (k in a ==> a[k] == b[k]) {
      OverlayRefreshesAt(was, now, c, k);
    }
  }

  lemma OverlayRefreshesAt(was: Contents, now: Contents, c: Cache, k: Key)
    ensures var a, b := Unversioned(Overlay(now, c)), Refresh(Unversioned(Overlay(was, c)), c.Keys, Unversioned(now));
      (k in a <==> k in b) && (k in a ==> a[k] == b[k])
  {
    var own := Unversioned(Overlay(was, c));
    if k in c {
      assert k in own <==> c[k].Live?;
    } else {
      assert k in Unversioned(Overlay(now, c)) <==> k in now;
    }
  }

  /** When only view `v` changed, every other view shows its refreshed contents. */
  lemma {:induction false} OthersSettle(w: World, w': World, v: nat, u: nat)
    requires Linked(w.views) && Linked(w'.views) && |w.views| == |w'.views| && v < |w.views| && u < |w.views|
    requires forall i :: 0 <= i < |w.views| ==> w'.views[i].delegate == w.views[i].delegate
    requires forall i :: 0 <= i < |w.views| && i != v ==> w'.views[i] == w.views[i]
    ensures Unversioned(Shown(w'.views, u)) == Settled(Abs(w), v, Unversioned(Shown(w'.views, v)), u)
    decreases u
  {
    if u != v {
      ShownUnfolds(w.views, u);
      ShownUnfolds(w'.views, u);
      if w.views[u].delegate.Some? {
        OthersSettle(w, w', v, w.views[u].delegate.value);
        OverlayRefreshes(ShownBelow(w.views, u), ShownBelow(w'.views, u), w.views[u].cache);
      }
    }
  }

  lemma LocalStepRefines(w: World, v: nat, l: Local, touched: set<Key>)
    requires Linked(w.views) && v < |w.views|
    requires touched == if w.views[v].delegate.None? then {} else l.cache.Keys
    ensures var w' := WithLocal(w, v, l);
      Linked(w'.views) && Abs(w') == SettleAll(Abs(w), v, Unversioned(Shown(w'.views, v)), touched)
  {
    var w' := WithLocal(w, v, l);
    forall u: nat | u < |w.views|
      ensures Abs(w')[u] == SettleAll(Abs(w), v, Unversioned(Shown(w'.views, v)), touched)[u]
    {
      OthersSettle(w, w', v, u);
    }
  }

  lemma ActRefines(w: World, v: nat, a: Action)
    requires Linked(w.views) && WorldKeyed(w) && v < |w.views|
    ensures Linked(Step(w, Act(v, a)).0.views)
    ensures var (w', out) := Step(w, Act(v, a));
      var (p', out') := PlainStep(Abs(w), Act(v, a));
      Abs(w') == p' && SameOutcome(out, out') && WorldKeyed(w')
  {
    var l, below, base := LocalOf(w, v), Below(w.views, v), ShownBelow(w.views, v);
    var l' := Apply(l, below, a).0;
    WorldIsSound(w, v);
    ActionMatches(l, below, base, a);
    ActionKeepsSound(l, below, base, a);
    ShownUnfolds(w.views, v);
    if below != [] {
      ActionTouches(l, below, base, a);
    }
    LocalStepRefines(w, v, l', if below == [] then {} else l'.cache.Keys);
    var w' := WithLocal(w, v, l');
    ChainDependsOnPrefix(w.views, w'.views, v);
    ShownUnfolds(w'.views, v);
  }

  lemma OpenRefines(w: World, d: nat)
    requires Linked(w.views) && WorldKeyed(w) && d < |w.views|
    ensures Linked(Step(w, OpenSandbox(d)).0.views)
    ensures var w' := Step(w, OpenSandbox(d)).0;
      Abs(w') == PlainStep(Abs(w), OpenSandbox(d)).0 && WorldKeyed(w')
  {
    var w' := Step(w, OpenSandbox(d)).0;
    StepKeepsLinked(w, OpenSandbox(d));
    var n := |w.views|;
    forall u: nat | u < n
      ensures Abs(w')[u] == Abs(w)[u]
    {
      assert w'.views[..u] == w.views[..u];
      ChainDependsOnPrefix(w.views, w'.views, u);
    }
    ShownUnfolds(w'.views, n);
    assert w'.views[..d] == w.views[..d];
    ChainDependsOnPrefix(w.views, w'.views, d);
    assert Overlay(Shown(w.views, d), map[]) == Shown(w.views, d);
    assert Abs(w')[n].touched == {};
    assert Abs(w') == Abs(w) + [PlainView(Some(d), Abs(w)[d].contents, {})];
  }

  lemma ResetRefines(w: World, v: nat)
    requires Linked(w.views) && WorldKeyed(w) && v < |w.views|
    ensures Linked(Step(w, ResetView(v)).0.views)
    ensures var w' := Step(w, ResetView(v)).0;
      Abs(w') == PlainStep(Abs(w), ResetView(v)).0 && WorldKeyed(w')
  {
    var l := Local(map[], w.counter, 0);
    LocalStepRefines(w, v, l, {});
    var w' := WithLocal(w, v, l);
    ChainDependsOnPrefix(w.views, w'.views, v);
    ShownUnfolds(w'.views, v);
    assert Overlay(ShownBelow(w.views, v), map[]) == ShownBelow(w.views, v);
    ShownUnfolds(w.views, v);
  }

  lemma StepRefines(w: World, op: Op)
    requires Linked(w.views) && WorldKeyed(w) && Legal(w, op)
    ensures Linked(Step(w, op).0.views)
    ensures var (w', out) := Step(w, op);
      var (p', out') := PlainStep(Abs(w), op);
      Abs(w') == p' && SameOutcome(out, out') && WorldKeyed(w')
  {
    match op
    case Act(v, a) => ActRefines(w, v, a);
    case OpenSandbox(d) => OpenRefines(w, d);
    case ResetView(v) => ResetRefines(w, v);
  }
}
