/** The planner's theorems, said of the views themselves and of environments that act round by round. */
module PlannerWorldTheorems {
  import opened ApiObjects
  import opened OverlaySpec
  import opened OverlayContents
  import opened OverlayWorld
  import opened OverlayRuns
  import opened OverlayListing
  import opened PlannerViews
  import PlannerSpec
  import PlannerTheorems
  import PlannerOvershoot
  import PlannerLateWins
  import opened RunTracker
  import opened BehaviourRounds
  import opened PlannerRefinement
  import opened PlannerWorld
  import opened PlannerWorldRuns
  import opened PlannerWorldPlans
  import opened PlannerRealisation

  // ---------------------------------------------------------------------------
  // A snapshot of unscheduled pods
  // ---------------------------------------------------------------------------

  function Waiting(p: Pod): Obj {
    Obj(p, "", map[], 0, "", false, 0, 0, false)
  }

  /** One base view that holds these pods, without nodes. */
  function Snapshot(pods: set<Pod>): WorldState {
    var cache := map p | p in pods :: Live(Waiting(p));
    WorldState(World(0, [ViewNode(None, cache, 0)]), map[], map[], [])
  }

  ghost predicate NamedPods(pods: set<Pod>) {
    ArePods(pods) && forall p :: p in pods ==> p.name != ""
  }

  lemma SnapshotIsFresh(pods: set<Pod>)
    requires NamedPods(pods)
    ensures Fresh(Snapshot(pods), pods) && Asked(Snapshot(pods)) == pods
    ensures Modelled(Snapshot(pods), pods) == PlannerTheorems.Fresh(pods)
  {
    var ws := Snapshot(pods);
    var views := ws.world.views;
    ShownUnfolds(views, 0);
    assert BoundIn(views[0].cache, pods) == {} && KeptIn(views[0].cache, pods) == pods;
    assert Records(views, pods) == [ViewRecord(0, {}, pods)];
    assert OwnPods(views, ws.viewOf, ws.sims) == map[] && FiledPods(ws.sims) == map[];
  }

  // ---------------------------------------------------------------------------
  // At most one node per pod
  // ---------------------------------------------------------------------------

  /** A snapshot before any run, and an environment that is fair. */
  ghost predicate Starts(ws: WorldState, env: WorldEnv, max: nat) {
    env.max == max && Fresh(ws, env.pods) && Fair(env)
  }

  /** More nodes are asked for than there are unscheduled pods. */
  ghost predicate Overshoots(ws: WorldState, groups: seq<seq<Sim>>, env: WorldEnv, max: nat) {
    Starts(ws, env, max) && PlannerSpec.Winners(Plan(ws, groups, 0, env).cycles) > |Asked(ws)|
  }

  lemma TakingTurnsIsOfPods(k: nat, m: nat)
    ensures ModelOfPods(PlannerOvershoot.TakingTurns(k, m))
  {
    var model := PlannerOvershoot.TakingTurns(k, m);
    forall n: nat ensures OfPods(model.scheduler(n), model.pods) {
      PlannerOvershoot.TurnsAreOfPods(k, m, n);
    }
  }

  lemma TwoPodsAreNamed()
    ensures NamedPods({PlannerOvershoot.P, PlannerOvershoot.Q})
  {
    assert PlannerOvershoot.P.name == ['p'] && PlannerOvershoot.Q.name == ['q'];
    assert |PlannerOvershoot.P.ns| == 7 && |PlannerOvershoot.Q.ns| == 7;
  }

  /** A big group overshoots on the views: some environment that is fair makes it ask for three nodes
      for two pods. */
  lemma BigGroupOvershoots(groups: seq<seq<Sim>>, max: nat)
    requires PlannerTheorems.DistinctSims(groups) && !PlannerTheorems.SmallGroups(groups)
    ensures exists ws, env :: Overshoots(ws, groups, env, max)
  {
    var g := PlannerOvershoot.FirstBigOf(groups);
    var model := PlannerOvershoot.TakingTurns(PlannerOvershoot.RunsBefore(groups[..g]), |groups[g]|);
    TwoPodsAreNamed();
    TakingTurnsIsOfPods(PlannerOvershoot.RunsBefore(groups[..g]), |groups[g]|);
    var ws, env := Snapshot(model.pods), Realising(model, max);
    SnapshotIsFresh(model.pods);
    RealisingIsFair(model, max);
    PlanRealised(ws, groups, 0, model, max);
    PlannerTheorems.FreshIsReady(model.pods, model);
    PlannerOvershoot.BigGroupOvershoots(PlannerTheorems.Fresh(model.pods), groups, 0, model, g);
    PlannerOvershoot.PodSets();
    assert |Asked(ws)| == 2;
    assert Overshoots(ws, groups, env, max);
  }

  /** On the views, whatever the scheduler writes and reports round by round and whoever is picked:
      never more nodes than unscheduled pods, if and only if no group has two simulations. */
  lemma NeverOvershootsIffSmallGroups(groups: seq<seq<Sim>>, max: nat)
    requires PlannerTheorems.DistinctSims(groups)
    ensures (forall ws, env :: !Overshoots(ws, groups, env, max)) <==> PlannerTheorems.SmallGroups(groups)
  {
    if PlannerTheorems.SmallGroups(groups) {
      forall ws, env | Starts(ws, env, max) ensures !Overshoots(ws, groups, env, max) {
        SmallGroupsBounded(ws, groups, env);
      }
    } else {
      BigGroupOvershoots(groups, max);
    }
  }

  // ---------------------------------------------------------------------------
  // A win that lowers nothing
  // ---------------------------------------------------------------------------

  lemma LateIsOfPods()
    ensures ModelOfPods(PlannerLateWins.LateEnv()) && NamedPods(PlannerLateWins.LateEnv().pods)
  {
    assert PlannerLateWins.P.name == ['p'] && PlannerLateWins.Q.name == ['q'] && PlannerLateWins.R.name == ['r'];
    assert |PlannerLateWins.P.ns| == 7 && |PlannerLateWins.Q.ns| == 7 && |PlannerLateWins.R.ns| == 7;
  }

  /** The environment in which `PlannerLateWins.LateWin` happens, round by round. */
  ghost function LateWorld(max: nat): WorldEnv {
    Realising(PlannerLateWins.LateEnv(), max)
  }

  lemma LateMirrors(max: nat, history: seq<PlannerSpec.RunBehaviour>)
    ensures Fair(LateWorld(max)) && Mirrors(PlannerLateWins.LateEnv(), LateWorld(max), history)
  {
    LateIsOfPods();
    RealisingIsFair(PlannerLateWins.LateEnv(), max);
    forall ws, sim, v: nat | InHistory(ws, sim, v, LateWorld(max), history)
      ensures MirroredAt(ws, sim, v, LateWorld(max), PlannerLateWins.LateEnv())
    {
      RealisingMirrors(ws, sim, v, PlannerLateWins.LateEnv(), max);
    }
  }

  /** The same pods are unscheduled in the view before and after. */
  ghost predicate NothingLowered(ws: WorldState, ws': WorldState, v: nat) {
    && Linked(ws.world.views) && Linked(ws'.world.views) && v < |ws.world.views| && v < |ws'.world.views|
    && UnboundPods(Shown(ws'.world.views, v)) == UnboundPods(Shown(ws.world.views, v)) != {}
  }

  lemma LeftIsUnbound(ws: WorldState, v: nat, model: PlannerSpec.Env)
    requires Good(ws, model.pods) && v < |ws.world.views|
    ensures PlannerSpec.Valid(Modelled(ws, model.pods))
    ensures PlannerSpec.LeftIn(Modelled(ws, model.pods), model, v) == UnboundPods(Shown(ws.world.views, v))
  {
    GoodIsValid(ws, model.pods);
    UnscheduledIsUnbound(ws.world.views, model.pods, v);
    TreeShowsPods(ws.world, model.pods, v);
    assert UnboundPods(Shown(ws.world.views, v)) * model.pods == UnboundPods(Shown(ws.world.views, v));
  }

  /** From the snapshot of three pods, with one simulation: a cycle has a winner and leaves pods over,
      so the group is run again, and the next pass wins although the winner's view shows the same
      pods as unscheduled as before. */
  lemma LateWin(sim: Sim, max: nat)
    ensures var ws, env := Snapshot(PlannerLateWins.LateEnv().pods), LateWorld(max);
      Ready(ws, 0, env) &&
      var c := Cycle(ws, [sim], 0, env);
      c.ok && c.winners != [] && c.leftover != {} && Ready(c.state, c.next, env) &&
      var p := Pass(c.state, [sim], c.next, env);
      p.ok && p.winner.Some? && sim in c.state.viewOf && c.state.viewOf[sim] == p.next &&
      NothingLowered(c.state, p.state, p.next)
  {
    var model, env := PlannerLateWins.LateEnv(), LateWorld(max);
    var ws := Snapshot(model.pods);
    LateIsOfPods();
    SnapshotIsFresh(model.pods);
    LateMirrors(max, []);
    PlannerLateWins.LateWin(sim);
    var c := Cycle(ws, [sim], 0, env);
    CycleKeepsReady(ws, [sim], 0, env);
    LateMirrors(max, c.state.history);
    CycleRefines(ws, [sim], 0, env, model);
    var p := Pass(c.state, [sim], c.next, env);
    PassKeepsReady(c.state, [sim], c.next, env);
    LateMirrors(max, p.state.history);
    PassRefines(c.state, [sim], c.next, env, model);
    LeftIsUnbound(c.state, p.next, model);
    LeftIsUnbound(p.state, p.next, model);
  }
}
