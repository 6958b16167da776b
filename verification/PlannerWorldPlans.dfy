/** Whole plans on the views themselves. */
module PlannerWorldPlans {
  import opened ApiObjects
  import opened OverlayWorld
  import opened PlannerViews
  import PlannerSpec
  import PlannerTheorems
  import opened RunTracker
  import opened PlannerRefinement
  import opened PlannerWorld
  import opened PlannerWorldRuns

  lemma CycleLowersMeasure(ws: WorldState, group: seq<Sim>, over: nat, env: WorldEnv)
    requires Ready(ws, over, env)
    ensures var c := Cycle(ws, group, over, env);
      Ready(c.state, c.next, env) && ws.history <= c.state.history &&
      (c.winners != [] ==> Measure(c.state, group, env) < Measure(ws, group, env))
  {
    CycleKeepsReady(ws, group, over, env);
    var c := Cycle(ws, group, over, env);
    var model, any := ModelOf(env, c.state.history), ModelOf(env, []);
    ModelMirrors(env, c.state.history);
    CycleRefines(ws, group, over, env, model);
    PlannerSpec.CycleWinnersBounded(Modelled(ws, env.pods), group, over, model, group);
    TotalIsOfPods(Modelled(ws, env.pods), model, any, group);
    TotalIsOfPods(Modelled(c.state, env.pods), model, any, group);
  }

  /** `cycles`: those that had a winner, with the states they stand for. */
  datatype PlanResult = PlanResult(state: WorldState, ok: bool, next: nat, cycles: seq<PlannerSpec.CycleResult>)

  ghost function GroupMeasure(ws: WorldState, groups: seq<seq<Sim>>, env: WorldEnv): nat
    requires Good(ws, env.pods)
  {
    if groups == [] then 0 else Measure(ws, groups[0], env)
  }

  ghost function Plan(ws: WorldState, groups: seq<seq<Sim>>, over: nat, env: WorldEnv): PlanResult
    requires Ready(ws, over, env)
    decreases |groups|, GroupMeasure(ws, groups, env)
  {
    if groups == [] then PlanResult(ws, true, over, [])
    else
      var c := Cycle(ws, groups[0], over, env);
      CycleLowersMeasure(ws, groups[0], over, env);
      if !c.ok then PlanResult(c.state, false, c.next, [])
      else if c.winners == [] then Plan(c.state, groups[1..], c.next, env)
      else if c.leftover == {} then PlanResult(c.state, true, c.next, [ModelledCycle(c, env.pods)])
      else
        var rest := Plan(c.state, groups, c.next, env);
        PlanResult(rest.state, rest.ok, rest.next, [ModelledCycle(c, env.pods)] + rest.cycles)
  }

  ghost function ModelledPlan(p: PlanResult, pods: set<Pod>): PlannerSpec.PlanResult
    requires Good(p.state, pods)
  {
    PlannerSpec.PlanResult(Modelled(p.state, pods), p.ok, p.next, p.cycles)
  }

  /** The state from which a plan goes on after its first cycle, and the groups left. */
  ghost predicate GoesOn(c: CycleResult) {
    c.ok && (c.winners == [] || c.leftover != {})
  }

  ghost function GroupsAfter(c: CycleResult, groups: seq<seq<Sim>>): seq<seq<Sim>>
    requires groups != []
  {
    if c.winners == [] then groups[1..] else groups
  }

  lemma {:induction false} PlanKeepsReady(ws: WorldState, groups: seq<seq<Sim>>, over: nat, env: WorldEnv)
    requires Ready(ws, over, env)
    ensures var p := Plan(ws, groups, over, env); Ready(p.state, p.next, env) && ws.history <= p.state.history
    decreases |groups|, GroupMeasure(ws, groups, env)
  {
    if groups != [] {
      var c := Cycle(ws, groups[0], over, env);
      CycleLowersMeasure(ws, groups[0], over, env);
      if GoesOn(c) {
        PlanKeepsReady(c.state, GroupsAfter(c, groups), c.next, env);
      }
    }
  }

  /** Main theorem: whatever a fair environment does round by round in each run, the plan made on the
      views is the plan of the model, for every model that mirrors the runs. */
  lemma {:induction false} PlanRefines(
    ws: WorldState, groups: seq<seq<Sim>>, over: nat, env: WorldEnv, model: PlannerSpec.Env)
    requires Ready(ws, over, env) && Mirrors(model, env, Plan(ws, groups, over, env).state.history)
    ensures Good(Plan(ws, groups, over, env).state, env.pods)
    ensures PlannerSpec.Ready(Modelled(ws, env.pods), over, model)
    ensures PlannerSpec.Plan(Modelled(ws, env.pods), groups, over, model) ==
      ModelledPlan(Plan(ws, groups, over, env), env.pods)
    decreases |groups|, GroupMeasure(ws, groups, env)
  {
    OwnAreAmongPods(ws, over, env, model);
    PlanKeepsReady(ws, groups, over, env);
    if groups != [] {
      var c := Cycle(ws, groups[0], over, env);
      CycleLowersMeasure(ws, groups[0], over, env);
      if GoesOn(c) {
        PlanKeepsReady(c.state, GroupsAfter(c, groups), c.next, env);
      }
      MirrorsPrefix(model, env, c.state.history, Plan(ws, groups, over, env).state.history);
      CycleRefines(ws, groups[0], over, env, model);
      if GoesOn(c) {
        PlanRefines(c.state, GroupsAfter(c, groups), c.next, env, model);
      }
    }
  }

  /** No simulation has run; what is unscheduled in the base view. */
  ghost predicate Fresh(ws: WorldState, pods: set<Pod>) {
    Good(ws, pods) && |ws.world.views| == 1 && ws.viewOf == map[] && ws.sims == map[] && ws.history == []
  }

  ghost function Asked(ws: WorldState): set<Pod>
    requires Linked(ws.world.views)
  {
    UnboundPods(Shown(ws.world.views, 0))
  }

  lemma FreshStart(ws: WorldState, env: WorldEnv, model: PlannerSpec.Env)
    requires Fresh(ws, env.pods) && Fair(env) && model.pods == env.pods
    ensures PlannerSpec.Ready(Modelled(ws, env.pods), 0, model)
    ensures PlannerSpec.LeftIn(Modelled(ws, env.pods), model, 0) == Asked(ws)
    ensures forall groups :: PlannerTheorems.NotRun(Modelled(ws, env.pods), groups)
  {
    OwnAreAmongPods(ws, 0, env, model);
    UnscheduledIsUnbound(ws.world.views, env.pods, 0);
    TreeShowsPods(ws.world, env.pods, 0);
    assert UnboundPods(Shown(ws.world.views, 0)) * env.pods == UnboundPods(Shown(ws.world.views, 0));
  }

  /** On the views: at most one simulation per group asks for at most one node per unscheduled pod. */
  lemma SmallGroupsBounded(ws: WorldState, groups: seq<seq<Sim>>, env: WorldEnv)
    requires Fresh(ws, env.pods) && Fair(env)
    requires PlannerTheorems.SmallGroups(groups) && PlannerTheorems.DistinctSims(groups)
    ensures PlannerSpec.Winners(Plan(ws, groups, 0, env).cycles) <= |Asked(ws)|
  {
    var p := Plan(ws, groups, 0, env);
    var model := ModelOf(env, p.state.history);
    ModelMirrors(env, p.state.history);
    PlanRefines(ws, groups, 0, env, model);
    FreshStart(ws, env, model);
    PlannerTheorems.UnrunNeverOvershoot(Modelled(ws, env.pods), groups, 0, model);
  }
}
