/** All views rooted at one base view, and what one call through any of them does. */
module OverlayWorld {
  import opened ApiObjects
  import opened OverlaySpec
  import opened OverlayContents

  /** A view: its delegate (none for the base view), its own cache, its change count. */
  datatype ViewNode = ViewNode(delegate: Option<nat>, cache: Cache, changes: nat)

  /** `counter` is the version counter every view of the tree shares. */
  datatype World = World(counter: nat, views: seq<ViewNode>)

  /** The keys of a bulk delete are those its listing gave, in the order it gave them. */
  datatype Action =
    | CreateObject(obj: Obj, suffix: Suffix)
    | UpdateObject(obj: Obj)
    | DeleteObject(key: Key)
    | DeleteObjects(keys: seq<Key>)
    | BindPod(key: Key, node: string)
    | PatchObjectStatus(key: Key, patch: int -> Option<int>)

  datatype Op =
    | Act(view: nat, action: Action)
    | OpenSandbox(delegate: nat)
    | ResetView(view: nat)

  /** View 0 is the base view; a sandbox is opened over a view that already exists. */
  ghost predicate Linked(views: seq<ViewNode>) {
    && views != []
    && views[0].delegate == None
    && forall v :: 0 < v < |views| ==> views[v].delegate.Some? && views[v].delegate.value < v
  }

  ghost function Chain(views: seq<ViewNode>, v: nat): (chain: seq<Cache>)
    requires Linked(views) && v < |views|
    ensures chain != []
    decreases v, 1
  {
    [views[v].cache] + Below(views, v)
  }

  ghost function Below(views: seq<ViewNode>, v: nat): seq<Cache>
    requires Linked(views) && v < |views|
    decreases v, 0
  {
    match views[v].delegate
    case None => []
    case Some(d) => Chain(views, d)
  }

  ghost function Shown(views: seq<ViewNode>, v: nat): Contents
    requires Linked(views) && v < |views|
  {
    Flat(Chain(views, v))
  }

  /** What the delegate of `v` shows; nothing if there is no delegate. */
  ghost function ShownBelow(views: seq<ViewNode>, v: nat): Contents
    requires Linked(views) && v < |views|
  {
    Flat(Below(views, v))
  }

  function LocalOf(w: World, v: nat): Local
    requires v < |w.views|
  {
    Local(w.views[v].cache, w.counter, w.views[v].changes)
  }

  function WithLocal(w: World, v: nat, l: Local): World
    requires v < |w.views|
  {
    World(l.counter, w.views[v := ViewNode(w.views[v].delegate, l.cache, l.changes)])
  }

  ghost function Apply(l: Local, below: seq<Cache>, a: Action): (Local, Outcome) {
    match a
    case CreateObject(o, suffix) => Create(l, o, suffix)
    case UpdateObject(o) => Update(l, below, o)
    case DeleteObject(k) => Delete(l, below, k)
    case DeleteObjects(keys) => (DeleteAll(l, below, keys), Done)
    case BindPod(k, node) => Bind(l, below, k, node)
    case PatchObjectStatus(k, patch) => PatchStatus(l, below, k, patch)
  }

  ghost predicate Legal(w: World, op: Op) {
    match op
    case Act(v, _) => v < |w.views|
    case OpenSandbox(d) => d < |w.views|
    case ResetView(v) => v < |w.views|
  }

  ghost function Step(w: World, op: Op): (World, Outcome)
    requires Linked(w.views) && Legal(w, op)
  {
    match op
    case Act(v, a) =>
      var (l, out) := Apply(LocalOf(w, v), Below(w.views, v), a);
      (WithLocal(w, v, l), out)
    case OpenSandbox(d) => (World(w.counter, w.views + [ViewNode(Some(d), map[], 0)]), Done)
    case ResetView(v) => (WithLocal(w, v, Local(map[], w.counter, 0)), Done)
  }

  ghost predicate LegalRun(w: World, ops: seq<Op>)
    requires Linked(w.views)
    decreases |ops|
  {
    ops != [] ==> Legal(w, ops[0]) && (StepKeepsLinked(w, ops[0]); LegalRun(Step(w, ops[0]).0, ops[1..]))
  }

  ghost function Run(w: World, ops: seq<Op>): (World, seq<Outcome>)
    requires Linked(w.views) && LegalRun(w, ops)
    decreases |ops|
  {
    if ops == [] then (w, [])
    else
      StepKeepsLinked(w, ops[0]);
      var (w1, out) := Step(w, ops[0]);
      var (w2, outs) := Run(w1, ops[1..]);
      (w2, [out] + outs)
  }

  /** The delegate relation stays acyclic: no call ever re-links a view. */
  lemma StepKeepsLinked(w: World, op: Op)
    requires Linked(w.views) && Legal(w, op)
    ensures Linked(Step(w, op).0.views)
    ensures |w.views| <= |Step(w, op).0.views|
    ensures forall u :: 0 <= u < |w.views| ==> Step(w, op).0.views[u].delegate == w.views[u].delegate
  {
  }

  // ---------------------------------------------------------------------------
  // Invariants of a world
  // ---------------------------------------------------------------------------

  ghost predicate WorldKeyed(w: World) {
    forall v :: 0 <= v < |w.views| ==> Keyed(w.views[v].cache)
  }

  /** Every stored object, live or tombstoned, has a version handed out earlier. */
  ghost predicate Versioned(w: World) {
    forall v, k :: 0 <= v < |w.views| && k in w.views[v].cache ==> 1 <= w.views[v].cache[k].obj.version <= w.counter
  }

  /** No two stored objects, in the same view or in different ones, share a version. */
  ghost predicate VersionsDistinct(w: World) {
    forall v, k, u, j |
      0 <= v < |w.views| && k in w.views[v].cache && 0 <= u < |w.views| && j in w.views[u].cache
      :: w.views[v].cache[k].obj.version == w.views[u].cache[j].obj.version ==> v == u && k == j
  }
}
