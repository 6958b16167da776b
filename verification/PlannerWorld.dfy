/** The planner on the views themselves: simulations with their trackers run on sandboxes of one
    tree, pass after pass.  Every pass, cycle and plan of it is one of `PlannerSpec`. */
module PlannerWorld {
  import opened ApiObjects
  import opened OverlaySpec
  import opened OverlayContents
  import opened OverlayFlat
  import opened OverlayListing
  import opened OverlayWorld
  import opened OverlayRuns
  import opened OverlayTheorems
  import opened PlannerViews
  import PlannerSpec
  import opened RunTracker
  import opened RunRounds
  import opened PlannerRefinement

  type Sim = PlannerSpec.Sim

  /** What a simulation keeps between runs: its tracker, and the nodes created since its reset. */
  datatype SimState = SimState(tracker: Tracker, nodes: set<string>)

  const RESET := SimState(Tracker({}, map[], 0, 0, 0, 0), {})

  /** `history`: what each run so far has amounted to. */
  datatype WorldState = WorldState(
    world: World,
    viewOf: map<Sim, nat>,
    sims: map<Sim, SimState>,
    history: seq<PlannerSpec.RunBehaviour>)

  /** What the environment does in one run: the new nodes, and what happens round by round. */
  datatype Feed = Feed(created: set<string>, rounds: seq<Round>)

  /** The environment may do anything in any state; `max` is the configured number of empty polls. */
  datatype WorldEnv = WorldEnv(
    pods: set<Pod>,
    feed: (WorldState, Sim, nat) -> Feed,
    pick: (nat, nat) -> nat,
    max: nat)

  function StateOf(ws: WorldState, sim: Sim): SimState {
    if sim in ws.sims then ws.sims[sim] else RESET
  }

  // ---------------------------------------------------------------------------
  // What holds of every state, and of every environment
  // ---------------------------------------------------------------------------

  /** A layer of pods that are there, each under its own name. */
  ghost predicate PodLayer(c: Cache, pods: set<Pod>) {
    Keyed(c) && AllLive(c) && c.Keys <= pods
  }

  /** The base view holds all pods; sandboxes hold copies of some. */
  ghost predicate PodTree(views: seq<ViewNode>, pods: set<Pod>) {
    && Linked(views) && ArePods(pods) && views[0].cache.Keys == pods
    && forall v :: 0 <= v < |views| ==> PodLayer(views[v].cache, pods)
  }

  /** Each simulation has a view of its own, in which what it has filed is true. */
  ghost predicate Good(ws: WorldState, pods: set<Pod>) {
    && PodTree(ws.world.views, pods)
    && (forall s :: s in ws.viewOf ==> ws.viewOf[s] < |ws.world.views|)
    && (forall s, t :: s in ws.viewOf && t in ws.viewOf && ws.viewOf[s] == ws.viewOf[t] ==> s == t)
    && ws.sims.Keys <= ws.viewOf.Keys
    && (forall s :: s in ws.sims ==> "" !in ws.sims[s].nodes)
    && (forall s :: s in ws.sims ==> FilingsHold(ws.sims[s].tracker, Shown(ws.world.views, ws.viewOf[s])))
  }

  /** The nodes that a run binds pods to. */
  ghost function Targets(rounds: seq<Round>): set<string> {
    if rounds == [] then {} else TargetsOf(rounds[0].writes) + Targets(rounds[1..])
  }

  ghost function TargetsOf(writes: seq<PodWrite>): set<string> {
    if writes == [] then {} else (if writes[0].Assign? then {writes[0].node} else {}) + TargetsOf(writes[1..])
  }

  /** New nodes have new names; and pods are not bound to nodes that simulations have created in
      later views, which this view does not show. */
  ghost predicate FeedFits(ws: WorldState, sim: Sim, v: nat, feed: Feed)
    requires Linked(ws.world.views) && v < |ws.world.views|
  {
    && "" !in feed.created
    && (forall p :: p in Shown(ws.world.views, v) ==> Shown(ws.world.views, v)[p].nodeName !in feed.created)
    && (forall s :: s in ws.sims && s in ws.viewOf && s != sim && v < ws.viewOf[s] ==>
        Targets(feed.rounds) !! ws.sims[s].nodes)
  }

  ghost predicate Fair(env: WorldEnv) {
    forall ws, sim, v: nat :: Good(ws, env.pods) && v < |ws.world.views| ==>
      FeedFits(ws, sim, v, env.feed(ws, sim, v))
  }

  // ---------------------------------------------------------------------------
  // The planner on a world
  // ---------------------------------------------------------------------------

  function GetView(ws: WorldState, sim: Sim, over: nat): (WorldState, nat) {
    if sim in ws.viewOf then (ws, ws.viewOf[sim])
    else
      var n := |ws.world.views|;
      (ws.(world := World(ws.world.counter, ws.world.views + [ViewNode(Some(over), map[], 0)]),
           viewOf := ws.viewOf[sim := n]), n)
  }

  /** The run of a simulation in its view. */
  ghost function SimulateIn(ws: WorldState, sim: Sim, v: nat, env: WorldEnv): Simulated
    requires Linked(ws.world.views) && v < |ws.world.views|
  {
    var s, feed := StateOf(ws, sim), env.feed(ws, sim, v);
    SimulateOn(ws.world, v, s.tracker, s.nodes, feed.created, feed.rounds, env.max)
  }

  ghost function RunSim(
    ws: WorldState, sim: Sim, v: nat, env: WorldEnv): (WorldState, Option<PlannerSpec.SimResult>)
    requires Linked(ws.world.views) && v < |ws.world.views|
  {
    var s := SimulateIn(ws, sim, v, env);
    var history := ws.history + [BehaviourOf(ws.world, v, s, env.pods)];
    if ToSchedule(Chain(ws.world.views, v)) == {} then (ws.(history := history), None)
    else
      (WorldState(WithLocal(ws.world, v, s.own), ws.viewOf, ws.sims[sim := SimState(s.tracker, s.nodes)], history),
       ResultOf(sim, v, s))
  }

  ghost predicate HaveViews(views: seq<ViewNode>, viewOf: map<Sim, nat>, sims: map<Sim, SimState>) {
    Linked(views) && forall s :: s in sims ==> s in viewOf && viewOf[s] < |views|
  }

  ghost function OwnPods(
    views: seq<ViewNode>, viewOf: map<Sim, nat>, sims: map<Sim, SimState>): map<Sim, set<Pod>>
    requires HaveViews(views, viewOf, sims)
  {
    map s | s in sims :: OnNodes(Shown(views, viewOf[s]), sims[s].nodes)
  }

  ghost function FiledPods(sims: map<Sim, SimState>): map<Sim, set<Pod>> {
    map s | s in sims :: ScheduledPods(sims[s].tracker)
  }

  /** The state of the planner's model that a state stands for. */
  ghost function Modelled(ws: WorldState, pods: set<Pod>): PlannerSpec.PlanState
    requires Good(ws, pods)
  {
    PlannerSpec.PlanState(
      Records(ws.world.views, pods), ws.viewOf, OwnPods(ws.world.views, ws.viewOf, ws.sims), FiledPods(ws.sims),
      |ws.history|)
  }

  // ---------------------------------------------------------------------------
  // Views of pods
  // ---------------------------------------------------------------------------

  lemma {:induction false} TreeShowsPods(w: World, pods: set<Pod>, v: nat)
    requires PodTree(w.views, pods) && v < |w.views|
    ensures PodView(w, v, pods) && Shown(w.views, v).Keys == pods
    decreases v
  {
    ShownUnfolds(w.views, v);
    if w.views[v].delegate.Some? {
      var d := w.views[v].delegate.value;
      TreeShowsPods(w, pods, d);
      forall i, k | 0 <= i < |Chain(w.views, v)| && k in Chain(w.views, v)[i] ensures Chain(w.views, v)[i][k].Live? {
        assert i > 0 ==> Chain(w.views, v)[i] == Chain(w.views, d)[i - 1];
      }
    }
  }

  lemma GoodIsValid(ws: WorldState, pods: set<Pod>)
    requires Good(ws, pods)
    ensures PlannerSpec.Valid(Modelled(ws, pods))
  {
    UnscheduledIsUnbound(ws.world.views, pods, 0);
  }

  lemma GoodMatches(ws: WorldState, sim: Sim, v: nat, created: set<string>, env: PlannerSpec.Env)
    requires Good(ws, env.pods) && sim in ws.viewOf && ws.viewOf[sim] == v && "" !in created
    requires forall p :: p in Shown(ws.world.views, v) ==> Shown(ws.world.views, v)[p].nodeName !in created
    ensures var s := StateOf(ws, sim);
      Matched(ws.world, v, s.tracker, s.nodes, created, Modelled(ws, env.pods), sim, env)
  {
    TreeShowsPods(ws.world, env.pods, v);
    GoodIsValid(ws, env.pods);
    var m := Shown(ws.world.views, v);
    assert OnNodes(m, {}) == {} && ScheduledPods(RESET.tracker) == {};
  }

  // ---------------------------------------------------------------------------
  // What a run does to other views
  // ---------------------------------------------------------------------------

  /** No pod appears or vanishes, no binding is undone, and pods are bound only to `targets`. */
  ghost predicate Moves(m: Contents, m': Contents, targets: set<string>) {
    && m'.Keys == m.Keys && BoundKept(m, m')
    && forall p :: p in m ==> m'[p].nodeName == m[p].nodeName || m'[p].nodeName in targets
  }

  lemma MovesTransitive(a: Contents, b: Contents, c: Contents, t: set<string>, u: set<string>)
    requires Moves(a, b, t) && Moves(b, c, u)
    ensures Moves(a, c, t + u)
  {
  }

  lemma WriteMoves(l: Local, below: seq<Cache>, base: Contents, w: PodWrite)
    requires Sound(l, below, base)
    ensures var l' := Written(l, below, w);
      Sound(l', below, base) &&
      Moves(Overlay(base, l.cache), Overlay(base, l'.cache), if w.Assign? then {w.node} else {})
  {
    WriteKeepsBound(l, below, base, w);
    match w
    case Assign(k, node) => BindIsMapUpdate(l, below, base, k, node);
    case SetStatus(k, patch) => PatchStatusIsMapUpdate(l, below, base, k, patch);
  }

  lemma {:induction false} WritesMove(l: Local, below: seq<Cache>, base: Contents, writes: seq<PodWrite>)
    requires Sound(l, below, base)
    ensures var l' := WrittenAll(l, below, writes);
      Sound(l', below, base) && Moves(Overlay(base, l.cache), Overlay(base, l'.cache), TargetsOf(writes))
    decreases |writes|
  {
    if writes != [] {
      var l1 := Written(l, below, writes[0]);
      WriteMoves(l, below, base, writes[0]);
      WritesMove(l1, below, base, writes[1..]);
      MovesTransitive(Overlay(base, l.cache), Overlay(base, l1.cache),
        Overlay(base, WrittenAll(l, below, writes).cache), if writes[0].Assign? then {writes[0].node} else {},
        TargetsOf(writes[1..]));
    }
  }

  lemma MovesMore(m: Contents, m': Contents, t: set<string>, u: set<string>)
    requires Moves(m, m', t) && t <= u
    ensures Moves(m, m', u)
  {
  }

  lemma {:induction false} RunMoves(
    t: Tracker, l: Local, below: seq<Cache>, base: Contents, rounds: seq<Round>, max: nat)
    requires Sound(l, below, base)
    ensures Moves(Overlay(base, l.cache), Overlay(base, RunOf(t, l, below, rounds, max).own.cache), Targets(rounds))
    decreases |rounds|
  {
    if rounds != [] && !rounds[0].workFails {
      var l1 := WrittenAll(l, below, rounds[0].writes);
      var p := PollOf(t, l1, below, rounds[0], max);
      WritesMove(l, below, base, rounds[0].writes);
      MovesMore(Overlay(base, l.cache), Overlay(base, l1.cache), TargetsOf(rounds[0].writes), Targets(rounds));
      if p.error.None? && !p.stabilized && p.tracker.leftover != {} {
        RunMoves(p.tracker, l1, below, base, rounds[1..], max);
        MovesTransitive(Overlay(base, l.cache), Overlay(base, l1.cache),
          Overlay(base, RunOf(t, l, below, rounds, max).own.cache), TargetsOf(rounds[0].writes), Targets(rounds[1..]));
      }
    }
  }

  lemma OverlayMoves(base: Contents, base': Contents, c: Cache, targets: set<string>)
    requires Moves(base, base', targets)
    ensures Moves(Overlay(base, c), Overlay(base', c), targets)
  {
  }

  /** What a run through one view does to what another shows. */
  lemma {:induction false} OtherViewsMove(w: World, v: nat, l: Local, targets: set<string>, u: nat)
    requires Linked(w.views) && v < |w.views| && u < |w.views|
    requires Moves(Shown(w.views, v), Overlay(ShownBelow(w.views, v), l.cache), targets)
    ensures var w' := WithLocal(w, v, l);
      Linked(w'.views) && Moves(Shown(w.views, u), Shown(w'.views, u), targets) &&
      (u < v ==> Shown(w'.views, u) == Shown(w.views, u))
    decreases u
  {
    ViewAfterRun(w, v, l);
    var w' := WithLocal(w, v, l);
    if u != v {
      ShownUnfolds(w.views, u);
      ShownUnfolds(w'.views, u);
      if w.views[u].delegate.Some? {
        OtherViewsMove(w, v, l, targets, w.views[u].delegate.value);
        OverlayMoves(ShownBelow(w.views, u), ShownBelow(w'.views, u), w.views[u].cache, targets);
      }
    }
  }

  lemma OwnPodsStay(m: Contents, m': Contents, targets: set<string>, nodes: set<string>, t: Tracker)
    requires Moves(m, m', targets) && "" !in nodes && FilingsHold(t, m)
    ensures targets !! nodes ==> OnNodes(m', nodes) == OnNodes(m, nodes)
    ensures FilingsHold(t, m')
  {
    if targets !! nodes {
      forall p ensures p in OnNodes(m', nodes) <==> p in OnNodes(m, nodes) {
      }
    }
  }

  // ---------------------------------------------------------------------------
  // One run
  // ---------------------------------------------------------------------------

  lemma ToScheduleIsUnbound(w: World, v: nat, pods: set<Pod>)
    requires PodView(w, v, pods)
    ensures ToSchedule(Chain(w.views, v)) == UnboundPods(Shown(w.views, v))
  {
    PodViewHasOneScope(w, v, pods);
    ChainIsKeyed(w, v);
    ListsAll(Chain(w.views, v));
  }

  lemma RunMovesView(ws: WorldState, sim: Sim, v: nat, env: WorldEnv)
    requires Good(ws, env.pods) && v < |ws.world.views|
    ensures var s := SimulateIn(ws, sim, v, env);
      Moves(Shown(ws.world.views, v), Overlay(ShownBelow(ws.world.views, v), s.own.cache),
        Targets(env.feed(ws, sim, v).rounds))
  {
    var w, t, feed := ws.world, StateOf(ws, sim).tracker, env.feed(ws, sim, v);
    TreeShowsPods(w, env.pods, v);
    ShownUnfolds(w.views, v);
    WorldIsSound(w, v);
    var l, below := LocalOf(w, v), Below(w.views, v);
    assert [l.cache] + below == Chain(w.views, v);
    RunMoves(t.(leftover := ToSchedule([l.cache] + below)), l, below, ShownBelow(w.views, v), feed.rounds, env.max);
  }

  lemma TreeAfterRun(w: World, v: nat, l: Local, pods: set<Pod>)
    requires PodTree(w.views, pods) && v < |w.views| && Keyed(l.cache) && AllLive(l.cache)
    requires w.views[v].cache.Keys <= l.cache.Keys
    requires Overlay(ShownBelow(w.views, v), l.cache).Keys == Shown(w.views, v).Keys <= pods
    ensures PodTree(WithLocal(w, v, l).views, pods)
  {
    forall k | k in l.cache ensures k in pods {
      assert k in Overlay(ShownBelow(w.views, v), l.cache);
    }
  }

  /** The other simulations, after a run: nothing changes for them. */
  lemma OthersAfterRun(ws: WorldState, sim: Sim, v: nat, l: Local, feed: Feed, pods: set<Pod>, s: Sim)
    requires Good(ws, pods) && v < |ws.world.views| && sim in ws.viewOf && ws.viewOf[sim] == v
    requires FeedFits(ws, sim, v, feed) && s in ws.sims && s != sim
    requires Moves(Shown(ws.world.views, v), Overlay(ShownBelow(ws.world.views, v), l.cache), Targets(feed.rounds))
    ensures var views' := WithLocal(ws.world, v, l).views;
      Linked(views') &&
      OnNodes(Shown(views', ws.viewOf[s]), ws.sims[s].nodes) ==
        OnNodes(Shown(ws.world.views, ws.viewOf[s]), ws.sims[s].nodes) &&
      FilingsHold(ws.sims[s].tracker, Shown(views', ws.viewOf[s]))
  {
    var u, views' := ws.viewOf[s], WithLocal(ws.world, v, l).views;
    OtherViewsMove(ws.world, v, l, Targets(feed.rounds), u);
    OwnPodsStay(Shown(ws.world.views, u), Shown(views', u), Targets(feed.rounds), ws.sims[s].nodes, ws.sims[s].tracker);
  }

  ghost predicate FilingsAllHold(views: seq<ViewNode>, viewOf: map<Sim, nat>, sims: map<Sim, SimState>) {
    HaveViews(views, viewOf, sims) &&
    forall s :: s in sims ==> "" !in sims[s].nodes && FilingsHold(sims[s].tracker, Shown(views, viewOf[s]))
  }

  lemma FilingsAfterRun(ws: WorldState, sim: Sim, v: nat, l: Local, feed: Feed, pods: set<Pod>, n: SimState)
    requires Good(ws, pods) && v < |ws.world.views| && sim in ws.viewOf && ws.viewOf[sim] == v
    requires FeedFits(ws, sim, v, feed) && "" !in n.nodes
    requires Moves(Shown(ws.world.views, v), Overlay(ShownBelow(ws.world.views, v), l.cache), Targets(feed.rounds))
    requires FilingsHold(n.tracker, Overlay(ShownBelow(ws.world.views, v), l.cache))
    ensures FilingsAllHold(WithLocal(ws.world, v, l).views, ws.viewOf, ws.sims[sim := n])
  {
    ViewAfterRun(ws.world, v, l);
    forall o | o in ws.sims && o != sim
      ensures FilingsHold(ws.sims[o].tracker, Shown(WithLocal(ws.world, v, l).views, ws.viewOf[o]))
    {
      OthersAfterRun(ws, sim, v, l, feed, pods, o);
    }
  }

  lemma RunOfGood(ws: WorldState, sim: Sim, v: nat, env: WorldEnv)
    requires Good(ws, env.pods) && sim in ws.viewOf && ws.viewOf[sim] == v
    ensures var w, s := ws.world, SimulateIn(ws, sim, v, env);
      PodView(w, v, env.pods) && ToSchedule(Chain(w.views, v)) == UnboundPods(Shown(w.views, v)) &&
      RanFrom(StateOf(ws, sim).tracker, Shown(w.views, v), w.views[v].cache,
        Overlay(ShownBelow(w.views, v), s.own.cache), s) &&
      s.nodes <= StateOf(ws, sim).nodes + env.feed(ws, sim, v).created
  {
    var w, st, feed := ws.world, StateOf(ws, sim), env.feed(ws, sim, v);
    TreeShowsPods(w, env.pods, v);
    ToScheduleIsUnbound(w, v, env.pods);
    SimulationRuns(w, v, st.tracker, st.nodes, feed.created, feed.rounds, env.max, env.pods);
  }

  /** A run keeps the state good. */
  lemma RunKeepsGood(ws: WorldState, sim: Sim, v: nat, env: WorldEnv)
    requires Good(ws, env.pods) && sim in ws.viewOf && ws.viewOf[sim] == v
    requires FeedFits(ws, sim, v, env.feed(ws, sim, v))
    ensures Good(RunSim(ws, sim, v, env).0, env.pods)
  {
    var s := SimulateIn(ws, sim, v, env);
    RunOfGood(ws, sim, v, env);
    RunMovesView(ws, sim, v, env);
    TreeAfterRun(ws.world, v, s.own, env.pods);
    FilingsAfterRun(ws, sim, v, s.own, env.feed(ws, sim, v), env.pods, SimState(s.tracker, s.nodes));
  }

  lemma OwnPodsUpdated(
    views: seq<ViewNode>, views': seq<ViewNode>, viewOf: map<Sim, nat>, sims: map<Sim, SimState>, sim: Sim, n: SimState)
    requires HaveViews(views, viewOf, sims) && HaveViews(views', viewOf, sims[sim := n])
    requires forall o :: o in sims && o != sim ==>
      OnNodes(Shown(views', viewOf[o]), sims[o].nodes) == OnNodes(Shown(views, viewOf[o]), sims[o].nodes)
    ensures OwnPods(views', viewOf, sims[sim := n]) ==
      OwnPods(views, viewOf, sims)[sim := OnNodes(Shown(views', viewOf[sim]), n.nodes)]
  {
  }

  lemma OwnPodsAfterRun(ws: WorldState, sim: Sim, v: nat, env: WorldEnv, n: SimState)
    requires Good(ws, env.pods) && sim in ws.viewOf && ws.viewOf[sim] == v
    requires FeedFits(ws, sim, v, env.feed(ws, sim, v))
    ensures var l := SimulateIn(ws, sim, v, env).own;
      var views' := WithLocal(ws.world, v, l).views;
      HaveViews(views', ws.viewOf, ws.sims[sim := n]) &&
      OwnPods(views', ws.viewOf, ws.sims[sim := n]) == OwnPods(ws.world.views, ws.viewOf, ws.sims)[sim :=
        OnNodes(Overlay(ShownBelow(ws.world.views, v), l.cache), n.nodes)]
  {
    var w, feed, l := ws.world, env.feed(ws, sim, v), SimulateIn(ws, sim, v, env).own;
    var views' := WithLocal(w, v, l).views;
    RunMovesView(ws, sim, v, env);
    ViewAfterRun(w, v, l);
    forall o | o in ws.sims && o != sim
      ensures OnNodes(Shown(views', ws.viewOf[o]), ws.sims[o].nodes) ==
        OnNodes(Shown(w.views, ws.viewOf[o]), ws.sims[o].nodes)
    {
      OthersAfterRun(ws, sim, v, l, feed, env.pods, o);
    }
    OwnPodsUpdated(w.views, views', ws.viewOf, ws.sims, sim, n);
  }

  lemma FiledPodsAfterRun(sims: map<Sim, SimState>, sim: Sim, s: SimState)
    ensures FiledPods(sims[sim := s]) == FiledPods(sims)[sim := ScheduledPods(s.tracker)]
  {
  }

  lemma RecordsAfterSim(ws: WorldState, sim: Sim, v: nat, env: WorldEnv)
    requires Good(ws, env.pods) && sim in ws.viewOf && ws.viewOf[sim] == v
    ensures var s := SimulateIn(ws, sim, v, env);
      var m, b := Shown(ws.world.views, v), BehaviourOf(ws.world, v, s, env.pods);
      Records(WithLocal(ws.world, v, s.own).views, env.pods) ==
        Write(Records(ws.world.views, env.pods), v, UnboundPods(m), b.binds, b.copies)
  {
    var w, st, feed := ws.world, StateOf(ws, sim), env.feed(ws, sim, v);
    TreeShowsPods(w, env.pods, v);
    assert FilingsHold(st.tracker, Shown(w.views, v));
    SimulationRuns(w, v, st.tracker, st.nodes, feed.created, feed.rounds, env.max, env.pods);
    RecordsAfterRun(w, v, SimulateIn(ws, sim, v, env).own, env.pods);
  }

  lemma AbsAfterRun(ws: WorldState, sim: Sim, v: nat, env: WorldEnv)
    requires Good(ws, env.pods) && sim in ws.viewOf && ws.viewOf[sim] == v
    requires FeedFits(ws, sim, v, env.feed(ws, sim, v)) && ToSchedule(Chain(ws.world.views, v)) != {}
    ensures Good(RunSim(ws, sim, v, env).0, env.pods)
    ensures var s, ws' := SimulateIn(ws, sim, v, env), RunSim(ws, sim, v, env).0;
      var was, m' := Modelled(ws, env.pods), Overlay(ShownBelow(ws.world.views, v), s.own.cache);
      var b := BehaviourOf(ws.world, v, s, env.pods);
      Modelled(ws', env.pods) == PlannerSpec.PlanState(
        Write(was.views, v, UnboundPods(Shown(ws.world.views, v)), b.binds, b.copies), was.viewOf,
        was.own[sim := OnNodes(m', s.nodes)], was.filed[sim := ScheduledPods(s.tracker)], was.runs + 1)
  {
    var s := SimulateIn(ws, sim, v, env);
    RunKeepsGood(ws, sim, v, env);
    OwnPodsAfterRun(ws, sim, v, env, SimState(s.tracker, s.nodes));
    RecordsAfterSim(ws, sim, v, env);
    FiledPodsAfterRun(ws.sims, sim, SimState(s.tracker, s.nodes));
  }

  /** What the planner's environment has to be like for its next run to be that of the world. */
  ghost predicate NextRunIs(ws: WorldState, sim: Sim, v: nat, env: WorldEnv, model: PlannerSpec.Env)
    requires Linked(ws.world.views) && v < |ws.world.views|
  {
    model.pods == env.pods &&
    model.scheduler(|ws.history| + 1) == BehaviourOf(ws.world, v, SimulateIn(ws, sim, v, env), env.pods)
  }

  /** One run. */
  lemma RunRefines(ws: WorldState, sim: Sim, v: nat, env: WorldEnv, model: PlannerSpec.Env)
    requires Good(ws, env.pods) && sim in ws.viewOf && ws.viewOf[sim] == v
    requires FeedFits(ws, sim, v, env.feed(ws, sim, v)) && NextRunIs(ws, sim, v, env, model)
    ensures Good(RunSim(ws, sim, v, env).0, env.pods) && PlannerSpec.Valid(Modelled(ws, env.pods))
    ensures var (ws', r) := RunSim(ws, sim, v, env);
      PlannerSpec.RunSim(Modelled(ws, env.pods), sim, v, model) == (Modelled(ws', env.pods), r)
  {
    var w, st, feed, s := ws.world, StateOf(ws, sim), env.feed(ws, sim, v), SimulateIn(ws, sim, v, env);
    GoodIsValid(ws, env.pods);
    RunKeepsGood(ws, sim, v, env);
    TreeShowsPods(w, env.pods, v);
    ToScheduleIsUnbound(w, v, env.pods);
    GoodMatches(ws, sim, v, feed.created, model);
    if UnboundPods(Shown(w.views, v)) == {} {
      UnscheduledIsUnbound(w.views, env.pods, v);
    } else {
      SimulationRuns(w, v, st.tracker, st.nodes, feed.created, feed.rounds, env.max, env.pods);
      ModelOfRun(w, v, st.tracker, st.nodes, feed.created, s, Modelled(ws, env.pods), sim, model);
      AbsAfterRun(ws, sim, v, env);
    }
  }
}
