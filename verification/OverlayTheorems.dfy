/** What holds of every run of calls through any views of one tree. */
module OverlayTheorems {
  import opened ApiObjects
  import opened OverlaySpec
  import opened OverlayContents
  import opened OverlayFlat
  import opened OverlayWorld
  import opened OverlayRuns

  // ---------------------------------------------------------------------------
  // Refinement
  // ---------------------------------------------------------------------------

  ghost predicate PlainLegal(views: seq<PlainView>, op: Op) {
    match op case Act(v, _) => v < |views| case OpenSandbox(d) => d < |views| case ResetView(v) => v < |views|
  }

  lemma PlainStepKeepsLinked(views: seq<PlainView>, op: Op)
    requires PlainLinked(views) && PlainLegal(views, op)
    ensures PlainLinked(PlainStep(views, op).0)
  {
  }

  ghost predicate PlainLegalRun(views: seq<PlainView>, ops: seq<Op>)
    requires PlainLinked(views)
    decreases |ops|
  {
    ops != [] ==>
      PlainLegal(views, ops[0]) &&
      (PlainStepKeepsLinked(views, ops[0]); PlainLegalRun(PlainStep(views, ops[0]).0, ops[1..]))
  }

  ghost function PlainRun(views: seq<PlainView>, ops: seq<Op>): (seq<PlainView>, seq<Outcome>)
    requires PlainLinked(views) && PlainLegalRun(views, ops)
    decreases |ops|
  {
    if ops == [] then (views, [])
    else
      PlainStepKeepsLinked(views, ops[0]);
      var (views1, out) := PlainStep(views, ops[0]);
      var (views2, outs) := PlainRun(views1, ops[1..]);
      (views2, [out] + outs)
  }

  ghost predicate SameOutcomes(a: seq<Outcome>, b: seq<Outcome>) {
    |a| == |b| && forall i :: 0 <= i < |a| ==> SameOutcome(a[i], b[i])
  }

  /** Main theorem: over every run, through any views in any order, each view shows exactly
      what its plain map holds and each call has the plain map's outcome. */
  lemma {:induction false} RunRefinesPlainMaps(w: World, ops: seq<Op>)
    requires Linked(w.views) && WorldKeyed(w) && LegalRun(w, ops)
    ensures PlainLegalRun(Abs(w), ops)
    ensures var (w', outs) := Run(w, ops);
      var (p', outs') := PlainRun(Abs(w), ops);
      Linked(w'.views) && WorldKeyed(w') && Abs(w') == p' && SameOutcomes(outs, outs')
    decreases |ops|
  {
    if ops != [] {
      StepRefines(w, ops[0]);
      RunRefinesPlainMaps(Step(w, ops[0]).0, ops[1..]);
    }
  }

  // ---------------------------------------------------------------------------
  // Isolation
  // ---------------------------------------------------------------------------

  ghost predicate Writes(op: Op, u: nat) {
    match op case Act(v, _) => v == u case OpenSandbox(_) => false case ResetView(v) => v == u
  }

  ghost predicate NeverWritten(ops: seq<Op>, u: nat) {
    forall i :: 0 <= i < |ops| ==> !Writes(ops[i], u)
  }

  lemma StepIsLocal(w: World, op: Op, u: nat)
    requires Linked(w.views) && Legal(w, op) && u < |w.views| && !Writes(op, u)
    ensures u < |Step(w, op).0.views| && Step(w, op).0.views[u] == w.views[u]
  {
  }

  /** A view through which nothing is called keeps its objects, tombstones and change count,
      whatever is called through the sandboxes over it. */
  lemma {:induction false} UnwrittenViewIsUnchanged(w: World, ops: seq<Op>, u: nat)
    requires Linked(w.views) && LegalRun(w, ops) && u < |w.views| && NeverWritten(ops, u)
    ensures u < |Run(w, ops).0.views| && Run(w, ops).0.views[u] == w.views[u]
    decreases |ops|
  {
    if ops != [] {
      StepKeepsLinked(w, ops[0]);
      StepIsLocal(w, ops[0], u);
      UnwrittenViewIsUnchanged(Step(w, ops[0]).0, ops[1..], u);
    }
  }

  lemma {:induction false} RunKeepsLinked(w: World, ops: seq<Op>)
    requires Linked(w.views) && LegalRun(w, ops)
    ensures Linked(Run(w, ops).0.views) && |w.views| <= |Run(w, ops).0.views|
    decreases |ops|
  {
    if ops != [] {
      StepKeepsLinked(w, ops[0]);
      RunKeepsLinked(Step(w, ops[0]).0, ops[1..]);
    }
  }

  ghost function Ancestors(views: seq<ViewNode>, u: nat): set<nat>
    requires Linked(views) && u < |views|
    decreases u
  {
    {u} + match views[u].delegate case None => {} case Some(d) => Ancestors(views, d)
  }

  lemma {:induction false} SameAncestorsSameChain(views: seq<ViewNode>, views': seq<ViewNode>, u: nat)
    requires Linked(views) && Linked(views') && u < |views|
    requires forall d :: d in Ancestors(views, u) ==> d < |views| && d < |views'| && views'[d] == views[d]
    ensures u < |views'| && Chain(views', u) == Chain(views, u)
    decreases u
  {
    assert u in Ancestors(views, u);
    if views[u].delegate.Some? {
      SameAncestorsSameChain(views, views', views[u].delegate.value);
    }
  }

  lemma {:induction false} AncestorsAreOlder(views: seq<ViewNode>, u: nat)
    requires Linked(views) && u < |views|
    ensures forall d :: d in Ancestors(views, u) ==> d <= u
    decreases u
  {
    if views[u].delegate.Some? {
      AncestorsAreOlder(views, views[u].delegate.value);
    }
  }

  /** If nothing is called through a view or the views below it, it goes on showing the same. */
  lemma UnwrittenChainShowsTheSame(w: World, ops: seq<Op>, u: nat)
    requires Linked(w.views) && LegalRun(w, ops) && u < |w.views|
    requires forall d :: d in Ancestors(w.views, u) ==> NeverWritten(ops, d)
    ensures var w' := Run(w, ops).0;
      Linked(w'.views) && u < |w'.views| && Shown(w'.views, u) == Shown(w.views, u)
  {
    RunKeepsLinked(w, ops);
    AncestorsAreOlder(w.views, u);
    forall d | d in Ancestors(w.views, u)
      ensures d < |w.views| && d < |Run(w, ops).0.views| && Run(w, ops).0.views[d] == w.views[d]
    {
      UnwrittenViewIsUnchanged(w, ops, d);
    }
    SameAncestorsSameChain(w.views, Run(w, ops).0.views, u);
  }

  // ---------------------------------------------------------------------------
  // Resource versions
  // ---------------------------------------------------------------------------

  /** `l'` keeps the version of every entry but at most one, which gets a newer one. */
  ghost predicate OneFresh(l: Local, l': Local, at: Key) {
    && l.counter <= l'.counter
    && (forall k :: k in l'.cache && k != at ==> k in l.cache && l'.cache[k].obj.version == l.cache[k].obj.version)
    && (at in l'.cache ==>
          || (at in l.cache && l'.cache[at].obj.version == l.cache[at].obj.version)
          || l.counter < l'.cache[at].obj.version <= l'.counter)
  }

  /** The one name a single write is about. */
  ghost function KeyOf(a: Action): Key
    requires !a.DeleteObjects?
  {
    match a
    case CreateObject(o, suffix) => Stored(o, suffix).key
    case UpdateObject(o) => o.key
    case DeleteObject(k) => k
    case BindPod(k, _) => k
    case PatchObjectStatus(k, _) => k
  }

  lemma UpdateIsOneFresh(l: Local, below: seq<Cache>, base: Contents, o: Obj)
    requires Sound(l, below, base)
    ensures OneFresh(l, Update(l, below, o).0, o.key)
  {
    if below != [] {
      assert Answers(base, o.key, Lookup(below, o.key));
    }
  }

  lemma BindIsOneFresh(l: Local, below: seq<Cache>, base: Contents, k: Key, node: string)
    requires Sound(l, below, base)
    ensures OneFresh(l, Bind(l, below, k, node).0, k)
  {
    if GetByKey(l.cache, k).Ok? {
      UpdateIsOneFresh(l, below, base, l.cache[k].obj.(nodeName := node, podScheduled := true));
    } else if below != [] && k !in l.cache && Lookup(below, k).Ok? {
      CopyKeepsSound(l, below, base, k);
      var d := Lookup(below, k).value;
      UpdateIsOneFresh(Put(l, d), below, base, d.(version := l.counter + 1, nodeName := node, podScheduled := true));
    }
  }

  lemma ActionIsOneFresh(l: Local, below: seq<Cache>, base: Contents, a: Action)
    requires Sound(l, below, base) && !a.DeleteObjects?
    ensures OneFresh(l, Apply(l, below, a).0, KeyOf(a))
  {
    match a
    case CreateObject(o, suffix) =>
    case UpdateObject(o) => UpdateIsOneFresh(l, below, base, o);
    case DeleteObject(k) =>
      if below != [] {
        assert Answers(base, k, Lookup(below, k));
      }
    case BindPod(k, node) => BindIsOneFresh(l, below, base, k, node);
    case PatchObjectStatus(k, patch) =>
      TopAnswers(l, below, base, k);
      var r := Lookup([l.cache] + below, k);
      if r.Ok? && patch(r.value.status).Some? {
        PatchedKeepsKey(l, below, base, k);
        UpdateIsOneFresh(l, below, base, r.value.(status := patch(r.value.status).value));
      }
  }

  lemma PatchedKeepsKey(l: Local, below: seq<Cache>, base: Contents, k: Key)
    requires Sound(l, below, base) && Lookup([l.cache] + below, k).Ok?
    ensures Lookup([l.cache] + below, k).value.key == k
  {
    TopAnswers(l, below, base, k);
  }

  /** Versions are handed out once: whatever version a call stores is new to the whole tree. */
  ghost predicate NewVersionsOnly(w: World, w': World)
    requires |w.views| <= |w'.views|
  {
    && w.counter <= w'.counter
    && forall v, k :: 0 <= v < |w'.views| && k in w'.views[v].cache ==>
         || (v < |w.views| && k in w.views[v].cache &&
             w'.views[v].cache[k].obj.version == w.views[v].cache[k].obj.version)
         || w.counter < w'.views[v].cache[k].obj.version <= w'.counter
  }

  ghost predicate VersionsKept(w: World, w': World) {
    |w.views| <= |w'.views| && NewVersionsOnly(w, w') && Versioned(w') && VersionsDistinct(w')
  }

  lemma ActKeepsVersions(w: World, v: nat, a: Action)
    requires Linked(w.views) && WorldKeyed(w) && v < |w.views|
    requires Versioned(w) && VersionsDistinct(w)
    ensures VersionsKept(w, Step(w, Act(v, a)).0)
  {
    var l, below, base := LocalOf(w, v), Below(w.views, v), ShownBelow(w.views, v);
    WorldIsSound(w, v);
    if a.DeleteObjects? {
      DeleteAllKeepsVersions(w, v, l, below, base, a.keys);
    } else {
      ActionIsOneFresh(l, below, base, a);
      OneFreshKeepsVersions(w, v, Apply(l, below, a).0, KeyOf(a));
    }
  }

  lemma OpenKeepsVersions(w: World, node: ViewNode)
    requires Versioned(w) && VersionsDistinct(w) && node.cache == map[]
    ensures VersionsKept(w, World(w.counter, w.views + [node]))
  {
  }

  lemma ResetKeepsVersions(w: World, v: nat)
    requires v < |w.views| && Versioned(w) && VersionsDistinct(w)
    ensures VersionsKept(w, WithLocal(w, v, Local(map[], w.counter, 0)))
  {
  }

  lemma StepKeepsVersions(w: World, op: Op)
    requires Linked(w.views) && WorldKeyed(w) && Legal(w, op)
    requires Versioned(w) && VersionsDistinct(w)
    ensures VersionsKept(w, Step(w, op).0)
  {
    match op
    case Act(v, a) => ActKeepsVersions(w, v, a);
    case OpenSandbox(d) => OpenKeepsVersions(w, ViewNode(Some(d), map[], 0));
    case ResetView(v) => ResetKeepsVersions(w, v);
  }

  lemma NewVersionsTransitive(w: World, w1: World, w2: World)
    requires |w.views| <= |w1.views| <= |w2.views| && NewVersionsOnly(w, w1) && NewVersionsOnly(w1, w2)
    ensures NewVersionsOnly(w, w2)
  {
  }

  /** Deleting one by one, every step hands out versions above the earlier ones. */
  lemma {:induction false} DeleteAllKeepsVersions(
    w: World, v: nat, l: Local, below: seq<Cache>, base: Contents, keys: seq<Key>)
    requires v < |w.views| && l == LocalOf(w, v) && Sound(l, below, base)
    requires Versioned(w) && VersionsDistinct(w)
    ensures var w' := WithLocal(w, v, DeleteAll(l, below, keys));
      NewVersionsOnly(w, w') && Versioned(w') && VersionsDistinct(w')
    decreases |keys|
  {
    if keys == [] {
      assert WithLocal(w, v, l) == w;
    } else {
      var l1 := Delete(l, below, keys[0]).0;
      var w1 := WithLocal(w, v, l1);
      DeleteKeepsSound(l, below, base, keys[0]);
      ActionIsOneFresh(l, below, base, DeleteObject(keys[0]));
      OneFreshKeepsVersions(w, v, l1, keys[0]);
      DeleteAllKeepsVersions(w1, v, l1, below, base, keys[1..]);
      var w2 := WithLocal(w1, v, DeleteAll(l1, below, keys[1..]));
      NewVersionsTransitive(w, w1, w2);
      assert w2 == WithLocal(w, v, DeleteAll(l, below, keys));
    }
  }

  lemma OneFreshKeepsVersions(w: World, v: nat, l: Local, at: Key)
    requires v < |w.views| && Versioned(w) && VersionsDistinct(w)
    requires OneFresh(LocalOf(w, v), l, at)
    ensures var w' := WithLocal(w, v, l);
      NewVersionsOnly(w, w') && Versioned(w') && VersionsDistinct(w')
  {
    var w' := WithLocal(w, v, l);
    assert NewVersionsOnly(w, w');
    forall a, k, b, j |
      0 <= a < |w'.views| && k in w'.views[a].cache && 0 <= b < |w'.views| && j in w'.views[b].cache &&
      w'.views[a].cache[k].obj.version == w'.views[b].cache[j].obj.version
      ensures a == b && k == j
    {
      var sameA := k in w.views[a].cache && w'.views[a].cache[k].obj.version == w.views[a].cache[k].obj.version;
      var sameB := j in w.views[b].cache && w'.views[b].cache[j].obj.version == w.views[b].cache[j].obj.version;
      if !sameA || !sameB {
        assert !sameA ==> a == v && k == at;
        assert !sameB ==> b == v && j == at;
      }
    }
  }

  /** Over every run: the counter never goes back, every stored version was handed out, no two
      stored objects of the tree share one, and what the run stored is newer than everything
      handed out before it. */
  lemma {:induction false} RunKeepsVersions(w: World, ops: seq<Op>)
    requires Linked(w.views) && WorldKeyed(w) && LegalRun(w, ops)
    requires Versioned(w) && VersionsDistinct(w)
    ensures VersionsKept(w, Run(w, ops).0)
    decreases |ops|
  {
    if ops != [] {
      var w1 := Step(w, ops[0]).0;
      StepRefines(w, ops[0]);
      StepKeepsVersions(w, ops[0]);
      RunKeepsVersions(w1, ops[1..]);
      NewVersionsTransitive(w, w1, Run(w1, ops[1..]).0);
    }
  }

  // ---------------------------------------------------------------------------
  // A bound pod is never rebound
  // ---------------------------------------------------------------------------

  ghost predicate BoundKept(m: Contents, m': Contents) {
    forall k :: k in m && m[k].nodeName != "" ==> k in m' && m'[k].nodeName == m[k].nodeName
  }

  ghost predicate BindsOnly(ops: seq<Op>) {
    forall i :: 0 <= i < |ops| ==> ops[i].OpenSandbox? || (ops[i].Act? && ops[i].action.BindPod?)
  }

  lemma OverlayKeepsBound(was: Contents, now: Contents, c: Cache)
    requires BoundKept(was, now)
    ensures BoundKept(Overlay(was, c), Overlay(now, c))
  {
  }

  lemma {:induction false} BindKeepsBound(w: World, v: nat, k: Key, node: string, u: nat)
    requires Linked(w.views) && WorldKeyed(w) && v < |w.views| && u < |w.views|
    ensures var w' := Step(w, Act(v, BindPod(k, node))).0;
      Linked(w'.views) && BoundKept(Shown(w.views, u), Shown(w'.views, u))
    decreases u
  {
    var op := Act(v, BindPod(k, node));
    var w' := Step(w, op).0;
    StepKeepsLinked(w, op);
    ShownUnfolds(w.views, u);
    ShownUnfolds(w'.views, u);
    if u == v {
      WorldIsSound(w, v);
      BindIsMapUpdate(LocalOf(w, v), Below(w.views, v), ShownBelow(w.views, v), k, node);
      ChainDependsOnPrefix(w.views, w'.views, v);
    } else if w.views[u].delegate.Some? {
      BindKeepsBound(w, v, k, node, w.views[u].delegate.value);
      OverlayKeepsBound(ShownBelow(w.views, u), ShownBelow(w'.views, u), w.views[u].cache);
    }
  }

  /** However many bindings are issued through whatever views, a pod that a view shows with a
      node keeps that node in that view. */
  lemma {:induction false} BoundPodIsNeverRebound(w: World, ops: seq<Op>, u: nat)
    requires Linked(w.views) && WorldKeyed(w) && LegalRun(w, ops) && BindsOnly(ops) && u < |w.views|
    ensures var w' := Run(w, ops).0;
      Linked(w'.views) && u < |w'.views| && BoundKept(Shown(w.views, u), Shown(w'.views, u))
    decreases |ops|
  {
    if ops != [] {
      var op := ops[0];
      var w1 := Step(w, op).0;
      StepRefines(w, op);
      StepKeepsLinked(w, op);
      match op {
        case Act(v, a) => BindKeepsBound(w, v, a.key, a.node, u);
        case OpenSandbox(d) =>
          assert w1.views[..u] == w.views[..u];
          ChainDependsOnPrefix(w.views, w1.views, u);
        case ResetView(_) =>
      }
      assert BindsOnly(ops[1..]);
      BoundPodIsNeverRebound(w1, ops[1..], u);
    }
  }
}
