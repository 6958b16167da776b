/** A run of the tracker on a view of the tree is a run of the planner's model: what `PlannerSpec`
    assumes of runs is derived here, from the scheduler's writes, the events it reports and
    whatever the tracker still holds from earlier runs. */
module PlannerRefinement {
  import opened ApiObjects
  import opened OverlaySpec
  import opened OverlayContents
  import opened OverlayFlat
  import opened OverlayListing
  import opened OverlayWorld
  import opened OverlayRuns
  import opened OverlayTheorems
  import opened PlannerViews
  import PlannerSpec
  import opened RunTracker
  import opened RunRounds

  // ---------------------------------------------------------------------------
  // The planner's records of the views of a world
  // ---------------------------------------------------------------------------

  predicate Waits(e: Entry<Obj>) {
    e.Live? && e.obj.nodeName == ""
  }

  ghost function BoundIn(c: Cache, pods: set<Pod>): set<Pod> {
    set k | k in c && k in pods && !Waits(c[k])
  }

  ghost function KeptIn(c: Cache, pods: set<Pod>): set<Pod> {
    set k | k in c && k in pods && Waits(c[k])
  }

  ghost function RecordOf(node: ViewNode, pods: set<Pod>): ViewRecord {
    var over := if node.delegate.None? then 0 else node.delegate.value;
    ViewRecord(over, BoundIn(node.cache, pods), KeptIn(node.cache, pods))
  }

  ghost function Records(views: seq<ViewNode>, pods: set<Pod>): seq<ViewRecord> {
    seq(|views|, i requires 0 <= i < |views| => RecordOf(views[i], pods))
  }

  lemma UnboundInOverlay(base: Contents, c: Cache, pods: set<Pod>)
    ensures UnboundPods(Overlay(base, c)) * pods == (UnboundPods(base) * pods - BoundIn(c, pods)) + KeptIn(c, pods)
  {
    var m := Overlay(base, c);
    forall p | p in pods
      ensures p in UnboundPods(m) <==> p in (UnboundPods(base) * pods - BoundIn(c, pods)) + KeptIn(c, pods)
    {
    }
  }

  /** What the records say is unscheduled in a view is what the view shows without a node. */
  lemma {:induction false} UnscheduledIsUnbound(views: seq<ViewNode>, pods: set<Pod>, i: nat)
    requires OverlayWorld.Linked(views) && i < |views|
    ensures Ordered(Records(views, pods))
    ensures Unscheduled(Records(views, pods), pods, i) == UnboundPods(Shown(views, i)) * pods
    decreases i
  {
    var records := Records(views, pods);
    assert forall j :: 0 < j < |views| ==> records[j].over == views[j].delegate.value;
    ShownUnfolds(views, i);
    UnboundInOverlay(ShownBelow(views, i), views[i].cache, pods);
    assert KeptIn(views[i].cache, pods) * pods == KeptIn(views[i].cache, pods);
    if i > 0 {
      UnscheduledIsUnbound(views, pods, views[i].delegate.value);
    }
  }

  /** Opening a sandbox is opening a record. */
  lemma OpenIsRecorded(views: seq<ViewNode>, pods: set<Pod>, d: nat)
    ensures Records(views + [ViewNode(Some(d), map[], 0)], pods) == Open(Records(views, pods), d)
  {
    assert BoundIn(map[], pods) == {} && KeptIn(map[], pods) == {};
  }

  // ---------------------------------------------------------------------------
  // What the writes of a run do to the record of its view
  // ---------------------------------------------------------------------------

  lemma WriteKeepsKeys(l: Local, below: seq<Cache>, w: PodWrite)
    ensures l.cache.Keys <= Written(l, below, w).cache.Keys
  {
    match w
    case Assign(k, node) => BindKeepsKeys(l, below, k, node);
    case SetStatus(k, patch) =>
  }

  lemma BindKeepsKeys(l: Local, below: seq<Cache>, k: Key, node: string)
    ensures l.cache.Keys <= Bind(l, below, k, node).0.cache.Keys
  {
  }

  lemma {:induction false} WritesKeepKeys(l: Local, below: seq<Cache>, writes: seq<PodWrite>)
    ensures l.cache.Keys <= WrittenAll(l, below, writes).cache.Keys
    decreases |writes|
  {
    if writes != [] {
      WriteKeepsKeys(l, below, writes[0]);
      WritesKeepKeys(Written(l, below, writes[0]), below, writes[1..]);
    }
  }

  lemma {:induction false} RunKeepsKeys(t: Tracker, l: Local, below: seq<Cache>, rounds: seq<Round>, max: nat)
    ensures l.cache.Keys <= RunOf(t, l, below, rounds, max).own.cache.Keys
    decreases |rounds|
  {
    if rounds != [] && !rounds[0].workFails {
      WritesKeepKeys(l, below, rounds[0].writes);
      var l1 := WrittenAll(l, below, rounds[0].writes);
      RunKeepsKeys(PollOf(t, l1, below, rounds[0], max).tracker, l1, below, rounds[1..], max);
    }
  }

  ghost predicate AllLive(c: Cache) {
    forall k :: k in c ==> c[k].Live?
  }

  lemma WriteKeepsLive(l: Local, below: seq<Cache>, w: PodWrite)
    requires AllLive(l.cache)
    ensures AllLive(Written(l, below, w).cache)
  {
  }

  lemma {:induction false} WritesKeepLive(l: Local, below: seq<Cache>, writes: seq<PodWrite>)
    requires AllLive(l.cache)
    ensures AllLive(WrittenAll(l, below, writes).cache)
    decreases |writes|
  {
    if writes != [] {
      WriteKeepsLive(l, below, writes[0]);
      WritesKeepLive(Written(l, below, writes[0]), below, writes[1..]);
    }
  }

  /** A run deletes nothing. */
  lemma {:induction false} RunKeepsLive(t: Tracker, l: Local, below: seq<Cache>, rounds: seq<Round>, max: nat)
    requires AllLive(l.cache)
    ensures AllLive(RunOf(t, l, below, rounds, max).own.cache)
    decreases |rounds|
  {
    if rounds != [] && !rounds[0].workFails {
      WritesKeepLive(l, below, rounds[0].writes);
      var l1 := WrittenAll(l, below, rounds[0].writes);
      RunKeepsLive(PollOf(t, l1, below, rounds[0], max).tracker, l1, below, rounds[1..], max);
    }
  }

  /** If no entry is dropped, no binding undone and no pod appears or vanishes, the new record
      follows from the pods bound and the pods copied. */
  lemma RecordWritten(base: Contents, c: Cache, c': Cache, pods: set<Pod>)
    requires c.Keys <= c'.Keys && BoundKept(Overlay(base, c), Overlay(base, c'))
    requires Overlay(base, c').Keys == Overlay(base, c).Keys
    ensures var m, m' := Overlay(base, c), Overlay(base, c');
      var left, binds := UnboundPods(m) * pods, (UnboundPods(m) - UnboundPods(m')) * pods;
      var copies := (c'.Keys - c.Keys) * pods;
      BoundIn(c', pods) == BoundIn(c, pods) + binds + (copies - left) &&
      KeptIn(c', pods) == KeptIn(c, pods) + copies * left - binds
  {
    var m, m' := Overlay(base, c), Overlay(base, c');
    forall p | p in pods && p in c' ensures Waits(c'[p]) <==> p in UnboundPods(m') {
    }
    forall p | p in pods && p in c ensures Waits(c[p]) <==> p in UnboundPods(m) {
    }
    forall p | p in UnboundPods(m) && p !in UnboundPods(m') ensures p in c' {
      assert p in m';
    }
    forall p | p in UnboundPods(m') ensures p in UnboundPods(m) {
      assert p in m;
    }
  }

  // ---------------------------------------------------------------------------
  // The behaviour that a run amounts to
  // ---------------------------------------------------------------------------

  ghost function OnNodes(m: Contents, nodes: set<string>): set<Pod> {
    set p | p in m && m[p].nodeName in nodes
  }

  /** The run of a simulation on view `v`. */
  ghost function SimulateOn(
    w: World, v: nat, t: Tracker, nodes: set<string>, created: set<string>, rounds: seq<Round>, max: nat): Simulated
    requires OverlayWorld.Linked(w.views) && v < |w.views|
  {
    Simulate(t, nodes, LocalOf(w, v), Below(w.views, v), created, rounds, max)
  }

  /** The pods it bound, those of them on its nodes, those copied into the view, those filed. */
  ghost function BehaviourOf(w: World, v: nat, s: Simulated, pods: set<Pod>): PlannerSpec.RunBehaviour
    requires OverlayWorld.Linked(w.views) && v < |w.views|
  {
    var m, m' := Shown(w.views, v), Overlay(ShownBelow(w.views, v), s.own.cache);
    PlannerSpec.RunBehaviour(s.result.None?, UnboundPods(m) - UnboundPods(m'), OnNodes(m', s.nodes),
                             (s.own.cache.Keys - w.views[v].cache.Keys) * pods, ScheduledPods(s.tracker))
  }

  /** Pods are namespaced, and no name contains a slash. */
  ghost predicate ArePods(pods: set<Pod>) {
    forall p :: p in pods ==> p.ns != "" && PlainName(p.name)
  }

  /** A view of pods from which nothing was deleted: listing it shows what is there. */
  ghost predicate PodView(w: World, v: nat, pods: set<Pod>) {
    && OverlayWorld.Linked(w.views) && WorldKeyed(w) && v < |w.views| && ArePods(pods)
    && NoTombstones(Chain(w.views, v)) && Shown(w.views, v).Keys <= pods
  }

  /** Without tombstones, what any layer holds is visible. */
  lemma {:induction false} LayersAreVisible(chain: seq<Cache>)
    requires NoTombstones(chain)
    ensures forall i, k :: 0 <= i < |chain| && k in chain[i] ==> k in Flat(chain)
  {
    if chain != [] {
      assert forall i :: 0 <= i < |chain[1..]| ==> chain[1..][i] == chain[i + 1];
      LayersAreVisible(chain[1..]);
      forall i, k | 0 <= i < |chain| && k in chain[i] ensures k in Flat(chain) {
        if i > 0 {
          assert k in chain[1..][i - 1];
        }
      }
    }
  }

  lemma PodViewHasOneScope(w: World, v: nat, pods: set<Pod>)
    requires PodView(w, v, pods)
    ensures OneScope(Chain(w.views, v), false)
  {
    LayersAreVisible(Chain(w.views, v));
  }

  lemma ListsAll(chain: seq<Cache>)
    requires chain != [] && AllKeyed(chain) && OneScope(chain, false) && NoTombstones(chain)
    ensures ToSchedule(chain) == UnboundPods(Flat(chain))
  {
    ListByNameIsExactIffNoneExcluded(chain, MatchAll, false);
    assert Wanted(chain, MatchAll) == Flat(chain);
  }

  /** What one run does to tracker and view, whatever the tracker held before. */
  ghost predicate RanFrom(t: Tracker, m: Contents, c: Cache, m': Contents, s: Simulated) {
    && BoundKept(m, m') && m'.Keys == m.Keys && c.Keys <= s.own.cache.Keys
    && FilingsHold(s.tracker, m') && Keyed(s.own.cache) && AllLive(s.own.cache)
    && ScheduledPods(t) <= ScheduledPods(s.tracker)
    && (s.result.Some? ==> s.result.value.leftover == UnboundPods(m) - ScheduledPods(s.tracker))
    && (s.result.Some? ==> UnboundPods(m') <= s.result.value.leftover <= UnboundPods(m))
    && (s.result.Some? ==> (s.result.value.placed <==> ScheduledPods(s.tracker) * OnNodes(m', s.nodes) != {}))
  }

  lemma PlacedIff(t: Tracker, m: Contents, nodes: set<string>)
    requires FilingsHold(t, m)
    ensures AssignedTo(t, nodes) <==> ScheduledPods(t) * OnNodes(m, nodes) != {}
  {
    if AssignedTo(t, nodes) {
      var n :| n in nodes && PodsOn(t, n) != {};
      var p :| p in PodsOn(t, n);
      assert FiledUnder(t, p, n) && p in ScheduledPods(t) * OnNodes(m, nodes);
    }
    if ScheduledPods(t) * OnNodes(m, nodes) != {} {
      var p :| p in ScheduledPods(t) * OnNodes(m, nodes);
      var n :| n in t.byNode && p in t.byNode[n];
      assert FiledUnder(t, p, n) && n in nodes && p in PodsOn(t, n);
    }
  }

  lemma SimulationRuns(
    w: World, v: nat, t: Tracker, nodes: set<string>, created: set<string>, rounds: seq<Round>, max: nat,
    pods: set<Pod>)
    requires PodView(w, v, pods) && FilingsHold(t, Shown(w.views, v))
    ensures var s := SimulateOn(w, v, t, nodes, created, rounds, max);
      RanFrom(t, Shown(w.views, v), w.views[v].cache, Overlay(ShownBelow(w.views, v), s.own.cache), s) &&
      (UnboundPods(Shown(w.views, v)) == {} ==> s == Simulated(t, nodes, LocalOf(w, v), None)) &&
      (UnboundPods(Shown(w.views, v)) != {} ==> s.nodes == nodes + created)
  {
    var l, below, m := LocalOf(w, v), Below(w.views, v), Shown(w.views, v);
    ChainIsKeyed(w, v);
    ShownUnfolds(w.views, v);
    PodViewHasOneScope(w, v, pods);
    assert Chain(w.views, v) == [l.cache] + below;
    ListsAll([l.cache] + below);
    var s := SimulateOn(w, v, t, nodes, created, rounds, max);
    assert AllLive(l.cache) by {
      assert Chain(w.views, v)[0] == l.cache;
    }
    if UnboundPods(m) != {} {
      var t1 := t.(leftover := UnboundPods(m));
      SameFiling(t, t1);
      InitTracks(t, m);
      RunTracks(t1, l, below, rounds, max, UnboundPods(m));
      RunKeepsKeys(t1, l, below, rounds, max);
      RunKeepsLive(t1, l, below, rounds, max);
      RunLowersUnscheduled(s.tracker, m, Overlay(Flat(below), s.own.cache));
      PlacedIff(s.tracker, Overlay(Flat(below), s.own.cache), s.nodes);
    }
  }

  /** The planner's record of the simulation: the pods on its nodes and the pods it has filed. */
  ghost predicate Recorded(
    st: PlannerSpec.PlanState, sim: PlannerSpec.Sim, m: Contents, nodes: set<string>, t: Tracker)
  {
    && "" !in nodes && PlannerSpec.OwnOf(st, sim) == OnNodes(m, nodes)
    && PlannerSpec.FiledOf(st, sim) == ScheduledPods(t)
  }

  lemma OwnAfterRun(m: Contents, m': Contents, nodes: set<string>, created: set<string>)
    requires BoundKept(m, m') && m'.Keys == m.Keys && "" !in nodes + created
    requires forall p :: p in m ==> m[p].nodeName !in created
    ensures OnNodes(m', nodes + created) ==
      OnNodes(m, nodes) + OnNodes(m', nodes + created) * (UnboundPods(m) - UnboundPods(m'))
  {
    forall p | p in OnNodes(m', nodes + created)
      ensures p in OnNodes(m, nodes) || p in UnboundPods(m) - UnboundPods(m')
    {
      assert p in m;
    }
    forall p | p in OnNodes(m, nodes) ensures p in OnNodes(m', nodes + created) {
      assert m[p].nodeName != "" && p in m';
    }
  }

  /** How the result of a run appears to the planner. */
  ghost function ResultOf(sim: PlannerSpec.Sim, v: nat, s: Simulated): Option<PlannerSpec.SimResult> {
    match s.result
    case None => None
    case Some(x) => Some(PlannerSpec.SimResult(sim, v, x.leftover, x.placed))
  }

  lemma ViewAfterRun(w: World, v: nat, l: Local)
    requires OverlayWorld.Linked(w.views) && v < |w.views|
    ensures var w' := WithLocal(w, v, l);
      OverlayWorld.Linked(w'.views) && Shown(w'.views, v) == Overlay(ShownBelow(w.views, v), l.cache)
  {
    var w' := WithLocal(w, v, l);
    ChainDependsOnPrefix(w.views, w'.views, v);
    ShownUnfolds(w'.views, v);
  }

  /** A run that deletes nothing and makes no pod appear leaves a view of pods. */
  lemma PodViewAfterRun(w: World, v: nat, l: Local, pods: set<Pod>)
    requires PodView(w, v, pods) && Keyed(l.cache) && AllLive(l.cache)
    requires Overlay(ShownBelow(w.views, v), l.cache).Keys == Shown(w.views, v).Keys
    ensures PodView(WithLocal(w, v, l), v, pods)
  {
    var w' := WithLocal(w, v, l);
    ViewAfterRun(w, v, l);
    ChainDependsOnPrefix(w.views, w'.views, v);
    forall i, k | 0 <= i < |Chain(w'.views, v)| && k in Chain(w'.views, v)[i] ensures Chain(w'.views, v)[i][k].Live? {
      if i > 0 {
        assert Chain(w.views, v)[i] == Chain(w'.views, v)[i];
      }
    }
  }

  lemma RecordsAfterRun(w: World, v: nat, l: Local, pods: set<Pod>)
    requires OverlayWorld.Linked(w.views) && v < |w.views| && w.views[v].cache.Keys <= l.cache.Keys
    requires var m, m' := Shown(w.views, v), Overlay(ShownBelow(w.views, v), l.cache);
      BoundKept(m, m') && m'.Keys == m.Keys <= pods
    ensures var m, m' := Shown(w.views, v), Overlay(ShownBelow(w.views, v), l.cache);
      Records(WithLocal(w, v, l).views, pods) ==
        Write(Records(w.views, pods), v, UnboundPods(m), UnboundPods(m) - UnboundPods(m'),
          (l.cache.Keys - w.views[v].cache.Keys) * pods)
  {
    var base, c := ShownBelow(w.views, v), w.views[v].cache;
    ShownUnfolds(w.views, v);
    RecordWritten(base, c, l.cache, pods);
    var left := UnboundPods(Overlay(base, c));
    assert left * pods == left;
    assert (left - UnboundPods(Overlay(base, l.cache))) * pods == left - UnboundPods(Overlay(base, l.cache));
  }

  /** What the planner's model makes of a run that behaves in this way. */
  lemma ModelRun(
    st: PlannerSpec.PlanState, sim: PlannerSpec.Sim, v: nat, env: PlannerSpec.Env, b: PlannerSpec.RunBehaviour,
    left: set<Pod>, binds: set<Pod>, own: set<Pod>)
    requires PlannerSpec.Valid(st) && v < |st.views| && env.scheduler(st.runs + 1) == b
    requires PlannerSpec.LeftIn(st, env, v) == left != {} && b.binds == binds <= left && b.filed !! (left - binds)
    requires PlannerSpec.OwnOf(st, sim) + b.onNew * binds == own && PlannerSpec.FiledOf(st, sim) <= b.filed
    ensures PlannerSpec.RunSim(st, sim, v, env) ==
      (PlannerSpec.PlanState(Write(st.views, v, left, binds, b.copies), st.viewOf, st.own[sim := own],
                             st.filed[sim := b.filed], st.runs + 1),
       if b.fails then None else Some(PlannerSpec.SimResult(sim, v, left - b.filed, b.filed * own != {})))
  {
    assert b.binds * left == binds && PlannerSpec.FiledOf(st, sim) + b.filed - (left - binds) == b.filed;
  }

  lemma FiledAreBound(t: Tracker, m: Contents)
    requires FilingsHold(t, m)
    ensures ScheduledPods(t) !! UnboundPods(m)
  {
    forall p | p in ScheduledPods(t) ensures p !in UnboundPods(m) {
      var n :| n in t.byNode && p in t.byNode[n];
      assert FiledUnder(t, p, n);
    }
  }

  /** The world after the run and the planner's state after it belong together, as those before
      the run did: the next run may start from there. */
  ghost predicate Refined(w: World, v: nat, s: Simulated, st': PlannerSpec.PlanState, r: Option<PlannerSpec.SimResult>,
    sim: PlannerSpec.Sim, pods: set<Pod>)
    requires OverlayWorld.Linked(w.views) && v < |w.views|
  {
    var w' := WithLocal(w, v, s.own);
    && PodView(w', v, pods) && BoundKept(Shown(w.views, v), Shown(w'.views, v)) && PlannerSpec.Valid(st')
    && st'.views == Records(w'.views, pods) && Recorded(st', sim, Shown(w'.views, v), s.nodes, s.tracker)
    && FilingsHold(s.tracker, Shown(w'.views, v)) && r == ResultOf(sim, v, s)
  }

  /** The state of the planner and of the world before a run. */
  ghost predicate Matched(w: World, v: nat, t: Tracker, nodes: set<string>, created: set<string>,
                          st: PlannerSpec.PlanState, sim: PlannerSpec.Sim, env: PlannerSpec.Env)
  {
    && PodView(w, v, env.pods) && FilingsHold(t, Shown(w.views, v))
    && PlannerSpec.Valid(st) && st.views == Records(w.views, env.pods) && Recorded(st, sim, Shown(w.views, v), nodes, t)
    && "" !in created && (forall p :: p in Shown(w.views, v) ==> Shown(w.views, v)[p].nodeName !in created)
  }

  lemma NothingToSchedule(w: World, v: nat, t: Tracker, nodes: set<string>, created: set<string>,
    st: PlannerSpec.PlanState, sim: PlannerSpec.Sim, env: PlannerSpec.Env)
    requires Matched(w, v, t, nodes, created, st, sim, env) && UnboundPods(Shown(w.views, v)) == {}
    ensures var (st', r) := PlannerSpec.RunSim(st, sim, v, env);
      Refined(w, v, Simulated(t, nodes, LocalOf(w, v), None), st', r, sim, env.pods)
  {
    UnscheduledIsUnbound(w.views, env.pods, v);
    assert WithLocal(w, v, LocalOf(w, v)) == w;
    PlannerSpec.RunKeepsValid(st, sim, v, env);
  }

  lemma ModelOfRun(w: World, v: nat, t: Tracker, nodes: set<string>, created: set<string>, s: Simulated,
    st: PlannerSpec.PlanState, sim: PlannerSpec.Sim, env: PlannerSpec.Env)
    requires Matched(w, v, t, nodes, created, st, sim, env) && UnboundPods(Shown(w.views, v)) != {}
    requires RanFrom(t, Shown(w.views, v), w.views[v].cache, Overlay(ShownBelow(w.views, v), s.own.cache), s) &&
      s.nodes == nodes + created
    requires env.scheduler(st.runs + 1) == BehaviourOf(w, v, s, env.pods)
    ensures var m, m' := Shown(w.views, v), Overlay(ShownBelow(w.views, v), s.own.cache);
      var b := BehaviourOf(w, v, s, env.pods);
      PlannerSpec.RunSim(st, sim, v, env) ==
        (PlannerSpec.PlanState(Write(st.views, v, UnboundPods(m), b.binds, b.copies), st.viewOf,
                               st.own[sim := OnNodes(m', s.nodes)], st.filed[sim := ScheduledPods(s.tracker)],
                               st.runs + 1),
         ResultOf(sim, v, s))
  {
    var m, m' := Shown(w.views, v), Overlay(ShownBelow(w.views, v), s.own.cache);
    var left := UnboundPods(m);
    assert left * env.pods == left;
    UnscheduledIsUnbound(w.views, env.pods, v);
    OwnAfterRun(m, m', nodes, created);
    FiledAreBound(s.tracker, m');
    assert left - (left - UnboundPods(m')) <= UnboundPods(m');
    ModelRun(st, sim, v, env, BehaviourOf(w, v, s, env.pods), left, left - UnboundPods(m'), OnNodes(m', s.nodes));
  }

  lemma SomethingToSchedule(w: World, v: nat, t: Tracker, nodes: set<string>, created: set<string>, s: Simulated,
    st: PlannerSpec.PlanState, sim: PlannerSpec.Sim, env: PlannerSpec.Env)
    requires Matched(w, v, t, nodes, created, st, sim, env) && UnboundPods(Shown(w.views, v)) != {}
    requires RanFrom(t, Shown(w.views, v), w.views[v].cache, Overlay(ShownBelow(w.views, v), s.own.cache), s) &&
      s.nodes == nodes + created
    requires env.scheduler(st.runs + 1) == BehaviourOf(w, v, s, env.pods)
    ensures var (st', r) := PlannerSpec.RunSim(st, sim, v, env); Refined(w, v, s, st', r, sim, env.pods)
  {
    ModelOfRun(w, v, t, nodes, created, s, st, sim, env);
    ShownUnfolds(w.views, v);
    ViewAfterRun(w, v, s.own);
    PodViewAfterRun(w, v, s.own, env.pods);
    PlannerSpec.RunKeepsValid(st, sim, v, env);
    RecordsAfterRun(w, v, s.own, env.pods);
  }

  /** Main theorem: on every view of pods, from every state of the tracker whose filings hold -
      fresh, reset, or left as it is by a pass without winner - a run of a simulation is a run of
      the planner's model, with the same records, own pods, filed pods and result; and what was
      asked of the state before the run holds again after it. */
  lemma RunRefinesRunSim(
    w: World, v: nat, t: Tracker, nodes: set<string>, created: set<string>, rounds: seq<Round>, max: nat,
    st: PlannerSpec.PlanState, sim: PlannerSpec.Sim, env: PlannerSpec.Env)
    requires Matched(w, v, t, nodes, created, st, sim, env)
    requires var s := SimulateOn(w, v, t, nodes, created, rounds, max);
      env.scheduler(st.runs + 1) == BehaviourOf(w, v, s, env.pods)
    ensures var s := SimulateOn(w, v, t, nodes, created, rounds, max);
      var (st', r) := PlannerSpec.RunSim(st, sim, v, env);
      Refined(w, v, s, st', r, sim, env.pods)
  {
    SimulationRuns(w, v, t, nodes, created, rounds, max, env.pods);
    if UnboundPods(Shown(w.views, v)) == {} {
      NothingToSchedule(w, v, t, nodes, created, st, sim, env);
    } else {
      SomethingToSchedule(w, v, t, nodes, created, SimulateOn(w, v, t, nodes, created, rounds, max), st, sim, env);
    }
  }

  /** A reset simulation has no own nodes and nothing filed. */
  lemma ResetIsRecorded(
    st: PlannerSpec.PlanState, group: seq<PlannerSpec.Sim>, sim: PlannerSpec.Sim, m: Contents, t: Tracker)
    requires sim in group && t.byNode == map[]
    ensures Recorded(PlannerSpec.Reset(st, group), sim, m, {}, t) && FilingsHold(t, m)
  {
    assert OnNodes(m, {}) == {} && ScheduledPods(t) == {};
  }

  /** A run through one view undoes no binding that another view shows, so what another
      simulation has filed keeps holding in its own view. */
  lemma {:induction false} OtherViewsKeepBound(w: World, v: nat, l: Local, u: nat)
    requires OverlayWorld.Linked(w.views) && v < |w.views| && u < |w.views|
    requires BoundKept(Shown(w.views, v), Overlay(ShownBelow(w.views, v), l.cache))
    ensures var w' := WithLocal(w, v, l);
      OverlayWorld.Linked(w'.views) && BoundKept(Shown(w.views, u), Shown(w'.views, u)) &&
      forall t :: FilingsHold(t, Shown(w.views, u)) ==> FilingsHold(t, Shown(w'.views, u))
    decreases u
  {
    ViewAfterRun(w, v, l);
    var w' := WithLocal(w, v, l);
    if u != v {
      ShownUnfolds(w.views, u);
      ShownUnfolds(w'.views, u);
      if w.views[u].delegate.Some? {
        OtherViewsKeepBound(w, v, l, w.views[u].delegate.value);
        OverlayKeepsBound(ShownBelow(w.views, u), ShownBelow(w'.views, u), w.views[u].cache);
      }
    }
  }
}
