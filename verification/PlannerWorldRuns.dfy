/** Passes, cycles and plans on the views themselves, and their refinement of `PlannerSpec`: whatever
    the environment does round by round, the planner's model gives the same winners and leftover
    pods, for the scheduler that the runs amounted to. */
module PlannerWorldRuns {
  import opened ApiObjects
  import opened OverlaySpec
  import opened OverlayContents
  import opened OverlayWorld
  import opened OverlayRuns
  import opened PlannerViews
  import PlannerSpec
  import opened RunTracker
  import opened RunRounds
  import opened PlannerRefinement
  import opened PlannerWorld

  type SimResult = PlannerSpec.SimResult

  /** A state from which groups can be run over `over`. */
  ghost predicate Ready(ws: WorldState, over: nat, env: WorldEnv) {
    Good(ws, env.pods) && over < |ws.world.views| && Fair(env)
  }

  /** The model has the same pods and choices, and its scheduler does what the runs amounted to. */
  ghost predicate Follows(model: PlannerSpec.Env, env: WorldEnv, history: seq<PlannerSpec.RunBehaviour>) {
    && model.pods == env.pods && model.pick == env.pick
    && forall n :: 0 <= n < |history| ==> model.scheduler(n + 1) == history[n]
  }

  function ModelOf(env: WorldEnv, history: seq<PlannerSpec.RunBehaviour>): PlannerSpec.Env {
    PlannerSpec.Env(
      env.pods,
      (n: nat) => if 0 < n <= |history| then history[n - 1] else PlannerSpec.RunBehaviour(false, {}, {}, {}, {}),
      env.pick)
  }

  /** A run of the simulation in its view is, for the model, the run with the next number. */
  ghost predicate MirroredAt(ws: WorldState, sim: Sim, v: nat, env: WorldEnv, model: PlannerSpec.Env) {
    Good(ws, env.pods) && sim in ws.viewOf && ws.viewOf[sim] == v &&
    Good(RunSim(ws, sim, v, env).0, env.pods) && PlannerSpec.Valid(Modelled(ws, env.pods)) &&
    var (ws', r) := RunSim(ws, sim, v, env);
    PlannerSpec.RunSim(Modelled(ws, env.pods), sim, v, model) == (Modelled(ws', env.pods), r)
  }

  ghost predicate InHistory(
    ws: WorldState, sim: Sim, v: nat, env: WorldEnv, history: seq<PlannerSpec.RunBehaviour>)
  {
    Good(ws, env.pods) && sim in ws.viewOf && ws.viewOf[sim] == v && RunSim(ws, sim, v, env).0.history <= history
  }

  /** So it is for every run that the history tells of. */
  ghost predicate Mirrors(model: PlannerSpec.Env, env: WorldEnv, history: seq<PlannerSpec.RunBehaviour>) {
    && model.pods == env.pods && model.pick == env.pick
    && forall ws, sim, v: nat :: InHistory(ws, sim, v, env, history) ==> MirroredAt(ws, sim, v, env, model)
  }

  lemma FollowsThenMirrors(model: PlannerSpec.Env, env: WorldEnv, history: seq<PlannerSpec.RunBehaviour>)
    requires Fair(env) && Follows(model, env, history)
    ensures Mirrors(model, env, history)
  {
    forall ws, sim, v: nat | InHistory(ws, sim, v, env, history) ensures MirroredAt(ws, sim, v, env, model) {
      assert RunSim(ws, sim, v, env).0.history[|ws.history|] ==
        BehaviourOf(ws.world, v, SimulateIn(ws, sim, v, env), env.pods);
      RunRefines(ws, sim, v, env, model);
    }
  }

  lemma ModelMirrors(env: WorldEnv, history: seq<PlannerSpec.RunBehaviour>)
    requires Fair(env)
    ensures Mirrors(ModelOf(env, history), env, history)
  {
    FollowsThenMirrors(ModelOf(env, history), env, history);
  }

  // ---------------------------------------------------------------------------
  // Getting a view
  // ---------------------------------------------------------------------------

  lemma OpenedViews(views: seq<ViewNode>, over: nat, u: nat)
    requires Linked(views) && over < |views| && u < |views|
    ensures var views' := views + [ViewNode(Some(over), map[], 0)];
      Linked(views') && Shown(views', u) == Shown(views, u)
  {
    var views' := views + [ViewNode(Some(over), map[], 0)];
    assert views'[..u] == views[..u] && views'[u] == views[u];
    ChainDependsOnPrefix(views, views', u);
  }

  lemma ViewKeepsGood(ws: WorldState, sim: Sim, over: nat, pods: set<Pod>)
    requires Good(ws, pods) && over < |ws.world.views|
    ensures var (ws', v) := GetView(ws, sim, over);
      Good(ws', pods) && sim in ws'.viewOf && ws'.viewOf[sim] == v && over < |ws'.world.views| &&
      ws'.history == ws.history
  {
    if sim !in ws.viewOf {
      var ws' := GetView(ws, sim, over).0;
      forall s | s in ws.sims
        ensures Linked(ws'.world.views) &&
          Shown(ws'.world.views, ws.viewOf[s]) == Shown(ws.world.views, ws.viewOf[s])
      {
        OpenedViews(ws.world.views, over, ws.viewOf[s]);
      }
    }
  }

  lemma OwnPodsOfSameViews(
    views: seq<ViewNode>, views': seq<ViewNode>, viewOf: map<Sim, nat>, viewOf': map<Sim, nat>,
    sims: map<Sim, SimState>)
    requires HaveViews(views, viewOf, sims) && HaveViews(views', viewOf', sims)
    requires forall s :: s in sims ==> Shown(views', viewOf'[s]) == Shown(views, viewOf[s])
    ensures OwnPods(views', viewOf', sims) == OwnPods(views, viewOf, sims)
  {
  }

  lemma ViewRefines(ws: WorldState, sim: Sim, over: nat, pods: set<Pod>)
    requires Good(ws, pods) && over < |ws.world.views|
    ensures Good(GetView(ws, sim, over).0, pods)
    ensures var (ws', v) := GetView(ws, sim, over);
      PlannerSpec.GetView(Modelled(ws, pods), sim, over) == (Modelled(ws', pods), v)
  {
    ViewKeepsGood(ws, sim, over, pods);
    if sim !in ws.viewOf {
      var ws' := GetView(ws, sim, over).0;
      OpenIsRecorded(ws.world.views, pods, over);
      forall s | s in ws.sims
        ensures Shown(ws'.world.views, ws.viewOf[s]) == Shown(ws.world.views, ws.viewOf[s])
      {
        OpenedViews(ws.world.views, over, ws.viewOf[s]);
      }
      OwnPodsOfSameViews(ws.world.views, ws'.world.views, ws.viewOf, ws'.viewOf, ws.sims);
    }
  }

  // ---------------------------------------------------------------------------
  // The runs of a group
  // ---------------------------------------------------------------------------

  /** One simulation: get its view, run it. */
  ghost function OneSim(ws: WorldState, sim: Sim, over: nat, env: WorldEnv): (WorldState, Option<SimResult>)
    requires Ready(ws, over, env)
  {
    ViewKeepsGood(ws, sim, over, env.pods);
    var (ws1, v) := GetView(ws, sim, over);
    RunSim(ws1, sim, v, env)
  }

  lemma OneSimKeepsReady(ws: WorldState, sim: Sim, over: nat, env: WorldEnv)
    requires Ready(ws, over, env)
    ensures var ws' := OneSim(ws, sim, over, env).0;
      Ready(ws', over, env) && |ws'.history| == |ws.history| + 1 && ws.history <= ws'.history
  {
    ViewKeepsGood(ws, sim, over, env.pods);
    var (ws1, v) := GetView(ws, sim, over);
    RunKeepsGood(ws1, sim, v, env);
  }

  ghost function RunSims(
    ws: WorldState, group: seq<Sim>, over: nat, env: WorldEnv): (WorldState, Option<seq<SimResult>>)
    requires Ready(ws, over, env)
    decreases |group|
  {
    if group == [] then (ws, Some([]))
    else
      OneSimKeepsReady(ws, group[0], over, env);
      var (ws1, r) := OneSim(ws, group[0], over, env);
      if r.None? then (ws1, None)
      else
        var (ws2, rest) := RunSims(ws1, group[1..], over, env);
        (ws2, if rest.None? then None else Some([r.value] + rest.value))
  }

  lemma {:induction false} RunSimsKeepReady(ws: WorldState, group: seq<Sim>, over: nat, env: WorldEnv)
    requires Ready(ws, over, env)
    ensures var ws' := RunSims(ws, group, over, env).0; Ready(ws', over, env) && ws.history <= ws'.history
    decreases |group|
  {
    if group != [] {
      OneSimKeepsReady(ws, group[0], over, env);
      var (ws1, r) := OneSim(ws, group[0], over, env);
      if r.Some? {
        RunSimsKeepReady(ws1, group[1..], over, env);
      }
    }
  }

  lemma MirrorsPrefix(
    model: PlannerSpec.Env, env: WorldEnv, h: seq<PlannerSpec.RunBehaviour>, h': seq<PlannerSpec.RunBehaviour>)
    requires Mirrors(model, env, h') && h <= h'
    ensures Mirrors(model, env, h)
  {
    forall ws, sim, v: nat | InHistory(ws, sim, v, env, h) ensures MirroredAt(ws, sim, v, env, model) {
      assert InHistory(ws, sim, v, env, h');
    }
  }

  lemma OneSimRefines(ws: WorldState, sim: Sim, over: nat, env: WorldEnv, model: PlannerSpec.Env)
    requires Ready(ws, over, env) && Mirrors(model, env, OneSim(ws, sim, over, env).0.history)
    ensures Ready(OneSim(ws, sim, over, env).0, over, env)
    ensures var (st1, v) := PlannerSpec.GetView(Modelled(ws, env.pods), sim, over);
      PlannerSpec.Valid(st1) && v < |st1.views| &&
      var (ws2, r) := OneSim(ws, sim, over, env);
      PlannerSpec.RunSim(st1, sim, v, model) == (Modelled(ws2, env.pods), r)
  {
    OneSimKeepsReady(ws, sim, over, env);
    ViewKeepsGood(ws, sim, over, env.pods);
    ViewRefines(ws, sim, over, env.pods);
    var (ws1, v) := GetView(ws, sim, over);
    assert InHistory(ws1, sim, v, env, OneSim(ws, sim, over, env).0.history);
    assert MirroredAt(ws1, sim, v, env, model);
  }

  lemma {:induction false} RunSimsRefine(
    ws: WorldState, group: seq<Sim>, over: nat, env: WorldEnv, model: PlannerSpec.Env)
    requires Ready(ws, over, env) && Mirrors(model, env, RunSims(ws, group, over, env).0.history)
    ensures Ready(RunSims(ws, group, over, env).0, over, env) && PlannerSpec.Valid(Modelled(ws, env.pods))
    ensures var (ws', results) := RunSims(ws, group, over, env);
      PlannerSpec.RunSims(Modelled(ws, env.pods), group, over, model) == (Modelled(ws', env.pods), results)
    decreases |group|
  {
    GoodIsValid(ws, env.pods);
    RunSimsKeepReady(ws, group, over, env);
    if group != [] {
      FirstOfGroup(ws, group, over, env, model);
      var (ws1, r) := OneSim(ws, group[0], over, env);
      if r.Some? {
        RunSimsRefine(ws1, group[1..], over, env, model);
      }
      GroupUnfolds(Modelled(ws, env.pods), group, over, model, Modelled(ws1, env.pods), r);
    }
  }

  /** The runs of a group in the model, by its first run. */
  lemma GroupUnfolds(
    st: PlannerSpec.PlanState, group: seq<Sim>, over: nat, model: PlannerSpec.Env, st2: PlannerSpec.PlanState,
    r: Option<SimResult>)
    requires PlannerSpec.Valid(st) && over < |st.views| && group != []
    requires var (st1, v) := PlannerSpec.GetView(st, group[0], over);
      PlannerSpec.Valid(st1) && v < |st1.views| && PlannerSpec.RunSim(st1, group[0], v, model) == (st2, r)
    ensures PlannerSpec.Valid(st2) && over < |st2.views|
    ensures PlannerSpec.RunSims(st, group, over, model) ==
      if r.None? then (st2, None)
      else
        var (st3, rest) := PlannerSpec.RunSims(st2, group[1..], over, model);
        (st3, if rest.None? then None else Some([r.value] + rest.value))
  {
    var (st1, v) := PlannerSpec.GetView(st, group[0], over);
    PlannerSpec.ViewIsThere(st, group[0], over);
    PlannerSpec.RunKeepsValid(st1, group[0], v, model);
  }

  /** The first run of a group, and what is left to show of the others. */
  lemma FirstOfGroup(ws: WorldState, group: seq<Sim>, over: nat, env: WorldEnv, model: PlannerSpec.Env)
    requires Ready(ws, over, env) && group != [] && Mirrors(model, env, RunSims(ws, group, over, env).0.history)
    ensures var (ws1, r) := OneSim(ws, group[0], over, env);
      Ready(ws1, over, env) &&
      (r.Some? ==> Mirrors(model, env, RunSims(ws1, group[1..], over, env).0.history)) &&
      var (st1, v) := PlannerSpec.GetView(Modelled(ws, env.pods), group[0], over);
      PlannerSpec.Valid(st1) && v < |st1.views| &&
      PlannerSpec.RunSim(st1, group[0], v, model) == (Modelled(ws1, env.pods), r)
  {
    OneSimKeepsReady(ws, group[0], over, env);
    var (ws1, r) := OneSim(ws, group[0], over, env);
    if r.Some? {
      RunSimsKeepReady(ws1, group[1..], over, env);
    }
    MirrorsPrefix(model, env, ws1.history, RunSims(ws, group, over, env).0.history);
    OneSimRefines(ws, group[0], over, env, model);
  }

  // ---------------------------------------------------------------------------
  // A pass
  // ---------------------------------------------------------------------------

  function Without<T>(m: map<Sim, T>, group: seq<Sim>): map<Sim, T> {
    map s | s in m && s !in group :: m[s]
  }

  function Reset(ws: WorldState, group: seq<Sim>): WorldState {
    ws.(sims := Without(ws.sims, group))
  }

  lemma OwnPodsWithout(views: seq<ViewNode>, viewOf: map<Sim, nat>, sims: map<Sim, SimState>, group: seq<Sim>)
    requires HaveViews(views, viewOf, sims)
    ensures HaveViews(views, viewOf, Without(sims, group))
    ensures OwnPods(views, viewOf, Without(sims, group)) == Without(OwnPods(views, viewOf, sims), group)
  {
  }

  lemma FiledPodsWithout(sims: map<Sim, SimState>, group: seq<Sim>)
    ensures FiledPods(Without(sims, group)) == Without(FiledPods(sims), group)
  {
  }

  lemma ResetRefines(ws: WorldState, group: seq<Sim>, pods: set<Pod>)
    requires Good(ws, pods)
    ensures Good(Reset(ws, group), pods)
    ensures Modelled(Reset(ws, group), pods) == PlannerSpec.Reset(Modelled(ws, pods), group)
  {
    OwnPodsWithout(ws.world.views, ws.viewOf, ws.sims, group);
    FiledPodsWithout(ws.sims, group);
  }

  datatype PassResult = PassResult(state: WorldState, ok: bool, next: nat, winner: Option<SimResult>)

  ghost function Pass(ws: WorldState, group: seq<Sim>, over: nat, env: WorldEnv): PassResult
    requires Ready(ws, over, env)
  {
    var (ws', results) := RunSims(ws, group, over, env);
    if results.None? then PassResult(ws', false, over, None)
    else
      var won := PlannerSpec.Assigned(results.value);
      if won == [] then PassResult(ws', true, over, None)
      else
        var w := won[env.pick(|ws'.history|, |won|) % |won|];
        PassResult(Reset(ws', group), true, w.view, Some(w))
  }

  ghost function ModelledPass(p: PassResult, pods: set<Pod>): PlannerSpec.PassResult
    requires Good(p.state, pods)
  {
    PlannerSpec.PassResult(Modelled(p.state, pods), p.ok, p.next, p.winner)
  }

  lemma PassKeepsGood(ws: WorldState, group: seq<Sim>, over: nat, env: WorldEnv)
    requires Ready(ws, over, env)
    ensures var p := Pass(ws, group, over, env); Good(p.state, env.pods) && ws.history <= p.state.history
  {
    RunSimsKeepReady(ws, group, over, env);
    ResetRefines(RunSims(ws, group, over, env).0, group, env.pods);
  }

  /** A pass on the views is a pass of the model. */
  lemma PassRefines(ws: WorldState, group: seq<Sim>, over: nat, env: WorldEnv, model: PlannerSpec.Env)
    requires Ready(ws, over, env) && Mirrors(model, env, Pass(ws, group, over, env).state.history)
    ensures Good(Pass(ws, group, over, env).state, env.pods) && PlannerSpec.Valid(Modelled(ws, env.pods))
    ensures PlannerSpec.Pass(Modelled(ws, env.pods), group, over, model) ==
      ModelledPass(Pass(ws, group, over, env), env.pods)
  {
    PassKeepsGood(ws, group, over, env);
    RunSimsRefine(ws, group, over, env, model);
    ResetRefines(RunSims(ws, group, over, env).0, group, env.pods);
  }

  lemma OwnAreAmongPods(ws: WorldState, over: nat, env: WorldEnv, model: PlannerSpec.Env)
    requires Ready(ws, over, env) && model.pods == env.pods
    ensures PlannerSpec.Ready(Modelled(ws, env.pods), over, model)
  {
    GoodIsValid(ws, env.pods);
    forall s | s in ws.sims
      ensures OnNodes(Shown(ws.world.views, ws.viewOf[s]), ws.sims[s].nodes) <= env.pods
    {
      TreeShowsPods(ws.world, env.pods, ws.viewOf[s]);
    }
  }

  /** A winning pass goes on over the winner's view, which is there. */
  lemma PassKeepsReady(ws: WorldState, group: seq<Sim>, over: nat, env: WorldEnv)
    requires Ready(ws, over, env)
    ensures var p := Pass(ws, group, over, env); Ready(p.state, p.next, env) && ws.history <= p.state.history
  {
    var p := Pass(ws, group, over, env);
    PassKeepsGood(ws, group, over, env);
    var model := ModelOf(env, p.state.history);
    ModelMirrors(env, p.state.history);
    PassRefines(ws, group, over, env, model);
    OwnAreAmongPods(ws, over, env, model);
    PlannerSpec.PassLowersWinner(Modelled(ws, env.pods), group, over, model);
  }

  // ---------------------------------------------------------------------------
  // A cycle
  // ---------------------------------------------------------------------------

  lemma {:induction false} TotalIsOfPods(
    st: PlannerSpec.PlanState, a: PlannerSpec.Env, b: PlannerSpec.Env, sims: seq<Sim>)
    requires PlannerSpec.Valid(st) && a.pods == b.pods
    ensures PlannerSpec.Total(st, a, sims) == PlannerSpec.Total(st, b, sims)
  {
    if sims != [] {
      TotalIsOfPods(st, a, b, sims[1..]);
    }
  }

  /** What the simulations of the group can still win. */
  ghost function Measure(ws: WorldState, group: seq<Sim>, env: WorldEnv): nat
    requires Good(ws, env.pods)
  {
    GoodIsValid(ws, env.pods);
    PlannerSpec.Total(Modelled(ws, env.pods), ModelOf(env, []), group)
  }

  lemma PassLowersMeasure(ws: WorldState, group: seq<Sim>, over: nat, env: WorldEnv)
    requires Ready(ws, over, env)
    ensures var p := Pass(ws, group, over, env);
      Ready(p.state, p.next, env) && ws.history <= p.state.history &&
      (p.winner.Some? ==> Measure(p.state, group, env) < Measure(ws, group, env))
  {
    PassKeepsReady(ws, group, over, env);
    var p := Pass(ws, group, over, env);
    var model, any := ModelOf(env, p.state.history), ModelOf(env, []);
    ModelMirrors(env, p.state.history);
    PassRefines(ws, group, over, env, model);
    OwnAreAmongPods(ws, over, env, model);
    PlannerSpec.PassLowersTotal(Modelled(ws, env.pods), group, over, model, group);
    TotalIsOfPods(Modelled(ws, env.pods), model, any, group);
    TotalIsOfPods(Modelled(p.state, env.pods), model, any, group);
  }

  datatype CycleResult =
    CycleResult(state: WorldState, ok: bool, next: nat, winners: seq<SimResult>, leftover: set<Pod>)

  ghost function Cycle(ws: WorldState, group: seq<Sim>, over: nat, env: WorldEnv): CycleResult
    requires Ready(ws, over, env)
    decreases Measure(ws, group, env)
  {
    var p := Pass(ws, group, over, env);
    PassLowersMeasure(ws, group, over, env);
    if !p.ok || p.winner.None? then CycleResult(p.state, p.ok, p.next, [], {})
    else if p.winner.value.leftover == {} then CycleResult(p.state, true, p.next, [p.winner.value], {})
    else
      var rest := Cycle(p.state, group, p.next, env);
      CycleResult(rest.state, rest.ok, rest.next, [p.winner.value] + rest.winners,
        if rest.winners == [] then p.winner.value.leftover else rest.leftover)
  }

  ghost function ModelledCycle(c: CycleResult, pods: set<Pod>): PlannerSpec.CycleResult
    requires Good(c.state, pods)
  {
    PlannerSpec.CycleResult(Modelled(c.state, pods), c.ok, c.next, c.winners, c.leftover)
  }

  lemma {:induction false} CycleKeepsReady(ws: WorldState, group: seq<Sim>, over: nat, env: WorldEnv)
    requires Ready(ws, over, env)
    ensures var c := Cycle(ws, group, over, env); Ready(c.state, c.next, env) && ws.history <= c.state.history
    decreases Measure(ws, group, env)
  {
    var p := Pass(ws, group, over, env);
    PassLowersMeasure(ws, group, over, env);
    if p.ok && p.winner.Some? && p.winner.value.leftover != {} {
      CycleKeepsReady(p.state, group, p.next, env);
    }
  }

  /** A cycle on the views is a cycle of the model. */
  lemma {:induction false} CycleRefines(
    ws: WorldState, group: seq<Sim>, over: nat, env: WorldEnv, model: PlannerSpec.Env)
    requires Ready(ws, over, env) && Mirrors(model, env, Cycle(ws, group, over, env).state.history)
    ensures Good(Cycle(ws, group, over, env).state, env.pods) && PlannerSpec.Ready(Modelled(ws, env.pods), over, model)
    ensures PlannerSpec.Cycle(Modelled(ws, env.pods), group, over, model) ==
      ModelledCycle(Cycle(ws, group, over, env), env.pods)
    decreases Measure(ws, group, env)
  {
    var st, p, c := Modelled(ws, env.pods), Pass(ws, group, over, env), Cycle(ws, group, over, env);
    CycleKeepsReady(ws, group, over, env);
    PassLowersMeasure(ws, group, over, env);
    OwnAreAmongPods(ws, over, env, model);
    var goesOn := p.ok && p.winner.Some? && p.winner.value.leftover != {};
    if goesOn {
      CycleKeepsReady(p.state, group, p.next, env);
    }
    MirrorsPrefix(model, env, p.state.history, c.state.history);
    PassRefines(ws, group, over, env, model);
    if goesOn {
      CycleRefines(p.state, group, p.next, env, model);
      PlannerSpec.CycleGoesOn(st, group, over, model);
    } else {
      PlannerSpec.CycleStops(st, group, over, model);
    }
  }
}
