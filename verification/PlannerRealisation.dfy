/** The converse of the refinement: whatever run the planner's model allows, some rounds of scheduler
    writes and events make a simulation on the views do just that.  So what is proved of all
    schedulers of the model, and every counterexample to it, is about the views themselves. */
module PlannerRealisation {
  import opened ApiObjects
  import opened OverlaySpec
  import opened OverlayContents
  import opened OverlayWorld
  import opened OverlayRuns
  import opened PlannerViews
  import PlannerSpec
  import opened RunTracker
  import opened RunRounds
  import opened RunFeeds
  import opened BehaviourRounds
  import opened PlannerRefinement
  import opened PlannerWorld
  import opened PlannerWorldRuns
  import opened PlannerWorldPlans

  // ---------------------------------------------------------------------------
  // New nodes, and why the rounds are fair
  // ---------------------------------------------------------------------------

  /** The nodes that pods are on in the view, and those that simulations have created. */
  ghost function Taken(ws: WorldState, v: nat): set<string>
    requires Linked(ws.world.views) && v < |ws.world.views|
  {
    var m := Shown(ws.world.views, v);
    (set p | p in m :: m[p].nodeName) + (set s, n | s in ws.sims && n in ws.sims[s].nodes :: n)
  }

  ghost function NewNode(ws: WorldState, v: nat): string
    requires Linked(ws.world.views) && v < |ws.world.views|
  {
    Longer(Taken(ws, v))
  }

  /** Stands for any node that the simulation did not create. */
  ghost function OtherNode(ws: WorldState, v: nat): string
    requires Linked(ws.world.views) && v < |ws.world.views|
  {
    Longer(Taken(ws, v) + {NewNode(ws, v)})
  }

  ghost function FeedFor(ws: WorldState, v: nat, b: RunBehaviour, max: nat): Feed
    requires Linked(ws.world.views) && v < |ws.world.views|
  {
    Feed({NewNode(ws, v)}, RoundsFor(ws.world, v, b, NewNode(ws, v), OtherNode(ws, v), max))
  }

  lemma NodesAreNew(ws: WorldState, v: nat)
    requires Linked(ws.world.views) && v < |ws.world.views|
    ensures NewNode(ws, v) !in Taken(ws, v) && OtherNode(ws, v) !in Taken(ws, v)
    ensures NewNode(ws, v) != OtherNode(ws, v) && NewNode(ws, v) != "" && OtherNode(ws, v) != ""
  {
    LongerIsNew(Taken(ws, v));
    LongerIsNew(Taken(ws, v) + {NewNode(ws, v)});
  }

  lemma {:induction false} TargetsOfTwo(a: seq<PodWrite>, b: seq<PodWrite>)
    ensures TargetsOf(a + b) == TargetsOf(a) + TargetsOf(b)
    decreases |a|
  {
    if a == [] {
      assert a + b == b;
    } else {
      assert (a + b)[0] == a[0] && (a + b)[1..] == a[1..] + b;
      TargetsOfTwo(a[1..], b);
    }
  }

  lemma {:induction false} TargetsOfAssigns(xs: seq<Key>, node: string)
    ensures TargetsOf(Assigns(xs, node)) <= {node}
    decreases |xs|
  {
    if xs != [] {
      assert Assigns(xs, node)[1..] == Assigns(xs[1..], node);
      TargetsOfAssigns(xs[1..], node);
    }
  }

  lemma {:induction false} TargetsOfTouches(xs: seq<Key>)
    ensures TargetsOf(Touches(xs)) == {}
    decreases |xs|
  {
    if xs != [] {
      assert Touches(xs)[1..] == Touches(xs[1..]);
      TargetsOfTouches(xs[1..]);
    }
  }

  lemma {:induction false} TargetsOfQuiet(n: nat)
    ensures Targets(Quiet(n)) == {}
  {
    if n > 0 {
      assert Quiet(n)[1..] == Quiet(n - 1) && Quiet(n)[0].writes == [];
      TargetsOfQuiet(n - 1);
    }
  }

  lemma TargetsOfRounds(w: World, v: nat, b: RunBehaviour, n: string, o: string, max: nat)
    requires Linked(w.views) && v < |w.views|
    ensures Targets(RoundsFor(w, v, b, n, o, max)) <= {n, o}
  {
    var rounds, binds := RoundsFor(w, v, b, n, o, max), BindsFor(w, v, b);
    assert rounds[0].writes == WritesFor(w, v, b, n, o) && rounds[1..] == Quiet(max + 1);
    TargetsOfQuiet(max + 1);
    var x, y := Assigns(SeqOf(binds * b.onNew), n), Assigns(SeqOf(binds - b.onNew), o);
    TargetsOfTwo(x + y, Touches(SeqOf(b.copies)));
    TargetsOfTwo(x, y);
    TargetsOfAssigns(SeqOf(binds * b.onNew), n);
    TargetsOfAssigns(SeqOf(binds - b.onNew), o);
    TargetsOfTouches(SeqOf(b.copies));
  }

  lemma FeedForFits(ws: WorldState, sim: Sim, v: nat, b: RunBehaviour, max: nat)
    requires Linked(ws.world.views) && v < |ws.world.views|
    ensures FeedFits(ws, sim, v, FeedFor(ws, v, b, max))
  {
    NodesAreNew(ws, v);
    TargetsOfRounds(ws.world, v, b, NewNode(ws, v), OtherNode(ws, v), max);
    var m := Shown(ws.world.views, v);
    assert forall p :: p in m ==> m[p].nodeName in Taken(ws, v);
    assert forall s, n :: s in ws.sims && n in ws.sims[s].nodes ==> n in Taken(ws, v);
  }

  // ---------------------------------------------------------------------------
  // The behaviour of such a run
  // ---------------------------------------------------------------------------

  /** What a simulation has become by a run of these rounds. */
  ghost predicate Does(w: World, v: nat, t: Tracker, nodes: set<string>, b: RunBehaviour, n: string, o: string,
                       s: Simulated)
    requires Linked(w.views) && v < |w.views|
  {
    && BoundAs(w, v, b, n, o, Overlay(ShownBelow(w.views, v), s.own.cache))
    && s.own.cache.Keys == w.views[v].cache.Keys + BindsFor(w, v, b) + b.copies
    && ScheduledPods(s.tracker) == ScheduledPods(t) + FilesFor(w, v, b)
    && s.nodes == nodes + {n}
    && (s.result.None? <==> b.fails)
  }

  lemma SimulationDoes(
    w: World, v: nat, t: Tracker, nodes: set<string>, b: RunBehaviour, n: string, o: string, max: nat, pods: set<Pod>)
    requires ShowsPods(w, v, pods) && OfPods(b, pods) && n != "" && o != "" && UnboundPods(Shown(w.views, v)) != {}
    ensures Does(w, v, t, nodes, b, n, o, SimulateOn(w, v, t, nodes, {n}, RoundsFor(w, v, b, n, o, max), max))
  {
    ToScheduleIsUnbound(w, v, pods);
    assert [w.views[v].cache] + Below(w.views, v) == Chain(w.views, v);
    var t1 := t.(leftover := UnboundPods(Shown(w.views, v)));
    SameFiling(t, t1);
    WritesDo(w, v, b, n, o, pods);
    RoundsDo(w, v, b, n, o, pods, t1, max);
  }

  /** To the planner's model, two behaviours of a run come to the same. */
  ghost predicate AsGood(w: World, v: nat, t: Tracker, b: RunBehaviour, b': RunBehaviour, pods: set<Pod>)
    requires Linked(w.views) && v < |w.views|
  {
    var binds := BindsFor(w, v, b);
    && b'.fails == b.fails && b'.binds == binds && b'.onNew * binds == b.onNew * binds
    && b'.copies == (binds + b.copies - w.views[v].cache.Keys) * pods
    && b'.filed == ScheduledPods(t) + FilesFor(w, v, b)
  }

  lemma OnlyTheseBound(m: Contents, m': Contents, xs: set<Key>, n: string, ys: set<Key>, o: string, nodes: set<string>)
    requires NowOnTwo(m, m', xs, n, ys, o) && n != "" && o != "" && xs + ys <= UnboundPods(m) && xs !! ys
    requires n in nodes && o !in nodes
    ensures UnboundPods(m) - UnboundPods(m') == xs + ys
    ensures OnNodes(m', nodes) * (xs + ys) == xs
  {
    forall p | p in m ensures p in UnboundPods(m) - UnboundPods(m') <==> p in xs + ys {
    }
    forall p | p in xs + ys ensures p in OnNodes(m', nodes) <==> p in xs {
      assert p in m && p in m';
    }
  }

  lemma BehavesAsGood(
    w: World, v: nat, t: Tracker, nodes: set<string>, b: RunBehaviour, n: string, o: string, s: Simulated,
    pods: set<Pod>)
    requires ShowsPods(w, v, pods) && n != "" && o != "" && n != o && o !in nodes
    requires Does(w, v, t, nodes, b, n, o, s)
    ensures AsGood(w, v, t, b, BehaviourOf(w, v, s, pods), pods)
  {
    var m, m', binds := Shown(w.views, v), Overlay(ShownBelow(w.views, v), s.own.cache), BindsFor(w, v, b);
    OnlyTheseBound(m, m', binds * b.onNew, n, binds - b.onNew, o, nodes + {n});
    assert binds * b.onNew + (binds - b.onNew) == binds;
  }

  lemma SameWrite(r: ViewRecord, left: set<Pod>, binds: set<Pod>, copies: set<Pod>, copies': set<Pod>, own: set<Pod>)
    requires binds <= left && copies' == binds + copies - own
    requires forall p :: p in own && p in copies ==> (p in left ==> p in r.kept) && (p !in left ==> p in r.bound)
    ensures r.bound + binds + (copies' - left) == r.bound + binds + (copies - left)
    ensures r.kept + copies' * left - binds == r.kept + copies * left - binds
  {
  }

  lemma HeldPods(w: World, v: nat, pods: set<Pod>, p: Pod)
    requires ShowsPods(w, v, pods) && p in w.views[v].cache && p in pods
    ensures var r, left := RecordOf(w.views[v], pods), UnboundPods(Shown(w.views, v));
      (p in left ==> p in r.kept) && (p !in left ==> p in r.bound)
  {
    ShownUnfolds(w.views, v);
    assert Chain(w.views, v)[0] == w.views[v].cache;
  }

  lemma SameRecords(w: World, v: nat, pods: set<Pod>, binds: set<Pod>, copies: set<Pod>, copies': set<Pod>)
    requires ShowsPods(w, v, pods) && binds <= UnboundPods(Shown(w.views, v)) && copies <= pods
    requires copies' == binds + copies - w.views[v].cache.Keys
    ensures var views, left := Records(w.views, pods), UnboundPods(Shown(w.views, v));
      Write(views, v, left, binds, copies') == Write(views, v, left, binds, copies)
  {
    var left := UnboundPods(Shown(w.views, v));
    forall p | p in w.views[v].cache.Keys && p in copies
      ensures (p in left ==> p in RecordOf(w.views[v], pods).kept) &&
        (p !in left ==> p in RecordOf(w.views[v], pods).bound)
    {
      HeldPods(w, v, pods, p);
    }
    SameWrite(RecordOf(w.views[v], pods), left, binds, copies, copies', w.views[v].cache.Keys);
  }

  /** Runs that come to the same are the same to the planner's model. */
  lemma SameRun(
    w: World, v: nat, t: Tracker, st: PlannerSpec.PlanState, sim: Sim, model: PlannerSpec.Env, model': PlannerSpec.Env)
    requires ShowsPods(w, v, model.pods) && model'.pods == model.pods && PlannerSpec.Valid(st)
    requires st.views == Records(w.views, model.pods) && PlannerSpec.FiledOf(st, sim) == ScheduledPods(t)
    requires var b, b' := model.scheduler(st.runs + 1), model'.scheduler(st.runs + 1);
      OfPods(b, model.pods) && AsGood(w, v, t, b, b', model.pods)
    ensures PlannerSpec.RunSim(st, sim, v, model') == PlannerSpec.RunSim(st, sim, v, model)
  {
    var b, b' := model.scheduler(st.runs + 1), model'.scheduler(st.runs + 1);
    var left, binds := UnboundPods(Shown(w.views, v)), BindsFor(w, v, b);
    UnscheduledIsUnbound(w.views, model.pods, v);
    assert left * model.pods == left;
    CopiesOfPods(binds, b.copies, w.views[v].cache.Keys, b'.copies, left, model.pods);
    SameRecords(w, v, model.pods, binds, b.copies, b'.copies);
    SameSets(left, b.binds, ScheduledPods(t), b.filed, b'.filed);
    SameBehaviour(st, sim, v, model, model', left);
  }

  lemma CopiesOfPods(
    binds: set<Pod>, copies: set<Pod>, own: set<Pod>, copies': set<Pod>, left: set<Pod>, pods: set<Pod>)
    requires binds <= left <= pods && copies <= pods && copies' == (binds + copies - own) * pods
    ensures copies' == binds + copies - own
  {
  }

  lemma SameSets(left: set<Pod>, binds: set<Pod>, was: set<Pod>, filed: set<Pod>, filed': set<Pod>)
    requires filed' == was + (filed - (left - binds * left))
    ensures (binds * left) * left == binds * left
    ensures was + filed' - (left - binds * left) == was + filed - (left - binds * left)
  {
  }

  lemma SameBehaviour(
    st: PlannerSpec.PlanState, sim: Sim, v: nat, model: PlannerSpec.Env, model': PlannerSpec.Env, left: set<Pod>)
    requires PlannerSpec.Valid(st) && v < |st.views| && model'.pods == model.pods
    requires PlannerSpec.LeftIn(st, model, v) == left
    requires var b, b' := model.scheduler(st.runs + 1), model'.scheduler(st.runs + 1);
      var binds, was := b.binds * left, PlannerSpec.FiledOf(st, sim);
      b'.fails == b.fails && b'.binds * left == binds && b'.onNew * binds == b.onNew * binds &&
      was + b'.filed - (left - binds) == was + b.filed - (left - binds) &&
      Write(st.views, v, left, binds, b'.copies) == Write(st.views, v, left, binds, b.copies)
    ensures PlannerSpec.RunSim(st, sim, v, model') == PlannerSpec.RunSim(st, sim, v, model)
  {
  }

  // ---------------------------------------------------------------------------
  // An environment for every model
  // ---------------------------------------------------------------------------

  ghost predicate ModelOfPods(model: PlannerSpec.Env) {
    forall n: nat :: OfPods(model.scheduler(n), model.pods)
  }

  /** In each run it makes the simulation do what the model's scheduler says. */
  ghost function Realising(model: PlannerSpec.Env, max: nat): WorldEnv {
    WorldEnv(model.pods,
      (ws: WorldState, sim: Sim, v: nat) =>
        if Linked(ws.world.views) && v < |ws.world.views|
        then FeedFor(ws, v, model.scheduler(|ws.history| + 1), max)
        else Feed({}, []),
      model.pick, max)
  }

  lemma RealisingIsFair(model: PlannerSpec.Env, max: nat)
    ensures Fair(Realising(model, max))
  {
    var env := Realising(model, max);
    forall ws, sim, v: nat | Good(ws, env.pods) && v < |ws.world.views|
      ensures FeedFits(ws, sim, v, env.feed(ws, sim, v))
    {
      FeedForFits(ws, sim, v, model.scheduler(|ws.history| + 1), max);
    }
  }

  lemma OwnNodesAreTaken(ws: WorldState, sim: Sim, v: nat)
    requires Linked(ws.world.views) && v < |ws.world.views|
    ensures StateOf(ws, sim).nodes <= Taken(ws, v)
  {
  }

  lemma RunIsAsGood(ws: WorldState, sim: Sim, v: nat, model: PlannerSpec.Env, max: nat)
    requires Good(ws, model.pods) && sim in ws.viewOf && ws.viewOf[sim] == v && ModelOfPods(model)
    requires UnboundPods(Shown(ws.world.views, v)) != {}
    ensures ShowsPods(ws.world, v, model.pods)
    ensures var b := model.scheduler(|ws.history| + 1);
      AsGood(ws.world, v, StateOf(ws, sim).tracker, b,
        BehaviourOf(ws.world, v, SimulateIn(ws, sim, v, Realising(model, max)), model.pods), model.pods)
  {
    var b, s := model.scheduler(|ws.history| + 1), StateOf(ws, sim);
    var n, o := NewNode(ws, v), OtherNode(ws, v);
    TreeShowsPods(ws.world, model.pods, v);
    NodesAreNew(ws, v);
    OwnNodesAreTaken(ws, sim, v);
    SimulationDoes(ws.world, v, s.tracker, s.nodes, b, n, o, max, model.pods);
    BehavesAsGood(ws.world, v, s.tracker, s.nodes, b, n, o, SimulateIn(ws, sim, v, Realising(model, max)), model.pods);
  }

  lemma NothingLeftIsSame(st: PlannerSpec.PlanState, sim: Sim, v: nat, a: PlannerSpec.Env, b: PlannerSpec.Env)
    requires PlannerSpec.Valid(st) && v < |st.views| && a.pods == b.pods && PlannerSpec.LeftIn(st, a, v) == {}
    ensures PlannerSpec.RunSim(st, sim, v, a) == PlannerSpec.RunSim(st, sim, v, b)
  {
  }

  /** A run in the realising environment is the model's run. */
  lemma RealisingMirrors(ws: WorldState, sim: Sim, v: nat, model: PlannerSpec.Env, max: nat)
    requires Good(ws, model.pods) && sim in ws.viewOf && ws.viewOf[sim] == v && ModelOfPods(model)
    ensures MirroredAt(ws, sim, v, Realising(model, max), model)
  {
    var env, st := Realising(model, max), Modelled(ws, model.pods);
    RealisingIsFair(model, max);
    var model' := ModelOf(env, RunSim(ws, sim, v, env).0.history);
    assert RunSim(ws, sim, v, env).0.history[|ws.history|] ==
      BehaviourOf(ws.world, v, SimulateIn(ws, sim, v, env), env.pods);
    RunRefines(ws, sim, v, env, model');
    if UnboundPods(Shown(ws.world.views, v)) == {} {
      UnscheduledIsUnbound(ws.world.views, model.pods, v);
      NothingLeftIsSame(st, sim, v, model, model');
    } else {
      RunIsAsGood(ws, sim, v, model, max);
      FiledIsScheduled(ws, sim, model.pods);
      SameRun(ws.world, v, StateOf(ws, sim).tracker, st, sim, model, model');
    }
  }

  lemma FiledIsScheduled(ws: WorldState, sim: Sim, pods: set<Pod>)
    requires Good(ws, pods)
    ensures PlannerSpec.FiledOf(Modelled(ws, pods), sim) == ScheduledPods(StateOf(ws, sim).tracker)
  {
    assert ScheduledPods(RESET.tracker) == {};
  }

  /** Main theorem: every plan of the model, whatever its scheduler does with the pods, is made on the
      views by some fair environment, round by round. */
  lemma PlanRealised(ws: WorldState, groups: seq<seq<Sim>>, over: nat, model: PlannerSpec.Env, max: nat)
    requires Good(ws, model.pods) && over < |ws.world.views| && ModelOfPods(model)
    ensures Ready(ws, over, Realising(model, max)) && PlannerSpec.Ready(Modelled(ws, model.pods), over, model)
    ensures var p := Plan(ws, groups, over, Realising(model, max));
      Good(p.state, model.pods) &&
      PlannerSpec.Plan(Modelled(ws, model.pods), groups, over, model) == ModelledPlan(p, model.pods)
  {
    var env := Realising(model, max);
    RealisingIsFair(model, max);
    var history := Plan(ws, groups, over, env).state.history;
    forall s, sim, v: nat | InHistory(s, sim, v, env, history) ensures MirroredAt(s, sim, v, env, model) {
      RealisingMirrors(s, sim, v, model, max);
    }
    PlanRefines(ws, groups, over, env, model);
  }
}
