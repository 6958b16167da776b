/** The loops of the single-node simulator: groups, cycles, passes.  Their termination is
    proved here, for every scheduler and every choice of the scorer. */
module PlannerLoops {
  import opened ApiObjects
  import opened PlannerViews
  import opened PlannerSpec
  import opened PlannerTheorems

  datatype Planned = PlanFailed | NoScaleOutPlan | Cycles(cycles: seq<CycleResult>)

  class Simulator {
    const env: Env
    const groups: seq<seq<Sim>>
    var views: seq<ViewRecord>
    var viewOf: map<Sim, nat>
    var own: map<Sim, set<Pod>>
    var filed: map<Sim, set<Pod>>
    var runs: nat

    function State(): PlanState
      reads this
    {
      PlanState(views, viewOf, own, filed, runs)
    }

    ghost predicate ReadyOver(over: nat)
      reads this
    {
      Ready(State(), over, env)
    }

    constructor (env: Env, groups: seq<seq<Sim>>)
      ensures this.env == env && this.groups == groups
      ensures State() == Fresh(env.pods) && ReadyOver(0)
    {
      this.env, this.groups := env, groups;
      views, viewOf, own, filed, runs := [ViewRecord(0, {}, env.pods)], map[], map[], map[], 0;
    }

    method GetOrOpenView(sim: Sim, over: nat) returns (view: nat)
      requires Valid(State()) && over < |views|
      modifies this
      ensures (State(), view) == GetView(old(State()), sim, over)
      ensures Valid(State()) && view < |views|
    {
      ViewIsThere(State(), sim, over);
      if sim in viewOf {
        return viewOf[sim];
      }
      view := |views|;
      views := Open(views, over);
      viewOf := viewOf[sim := view];
    }

    method RunSimulation(sim: Sim, view: nat) returns (r: Option<SimResult>)
      requires Valid(State()) && view < |views|
      modifies this
      ensures (State(), r) == RunSim(old(State()), sim, view, env)
      ensures Valid(State())
    {
      RunKeepsValid(State(), sim, view, env);
      runs := runs + 1;
      var left := Unscheduled(views, env.pods, view);
      if left == {} {
        return None;
      }
      var b := env.scheduler(runs);
      var binds := b.binds * left;
      var mine := (if sim in own then own[sim] else {}) + b.onNew * binds;
      var seen := (if sim in filed then filed[sim] else {}) + b.filed - (left - binds);
      views := Write(views, view, left, binds, b.copies);
      own, filed := own[sim := mine], filed[sim := seen];
      if b.fails {
        return None;
      }
      r := Some(SimResult(sim, view, left - seen, seen * mine != {}));
    }

    method RunGroup(group: seq<Sim>, over: nat) returns (results: Option<seq<SimResult>>)
      requires ReadyOver(over)
      modifies this
      ensures (State(), results) == RunSims(old(State()), group, over, env)
      ensures ReadyOver(over)
    {
      ghost var want := RunSims(State(), group, over, env);
      RunSimsFit(State(), group, over, env);
      var done: seq<SimResult> := [];
      assert group[0..] == group;
      AfterNothing(want);
      for i := 0 to |group|
        invariant ReadyOver(over)
        invariant After(done, RunSims(State(), group[i..], over, env)) == want
      {
        AfterOne(done, State(), group, i, over, env);
        var view := GetOrOpenView(group[i], over);
        var r := RunSimulation(group[i], view);
        if r.None? {
          return None;
        }
        done := done + [r.value];
      }
      assert group[|group|..] == [] && done + [] == done;
      results := Some(done);
    }

    method RunPassForGroup(group: seq<Sim>, over: nat) returns (ok: bool, next: nat, winner: Option<SimResult>)
      requires ReadyOver(over)
      modifies this
      ensures PassResult(State(), ok, next, winner) == Pass(old(State()), group, over, env)
      ensures ReadyOver(next)
    {
      PassLowersWinner(State(), group, over, env);
      var results := RunGroup(group, over);
      if results.None? {
        return false, over, None;
      }
      var won := Assigned(results.value);
      if won == [] {
        return true, over, None;
      }
      var w := won[env.pick(runs, |won|) % |won|];
      own := map s | s in own && s !in group :: own[s];
      filed := map s | s in filed && s !in group :: filed[s];
      return true, w.view, Some(w);
    }

    method RunStabilizationCycleForGroup(group: seq<Sim>, over: nat)
        returns (ok: bool, next: nat, winners: seq<SimResult>, leftover: set<Pod>)
      requires ReadyOver(over)
      modifies this
      ensures CycleResult(State(), ok, next, winners, leftover) == Cycle(old(State()), group, over, env)
      ensures ReadyOver(next)
    {
      ghost var want := Cycle(State(), group, over, env);
      next, winners, leftover := over, [], {};
      while true
        invariant ReadyOver(next)
        invariant MorePasses(winners, leftover, Cycle(State(), group, next, env)) == want
        decreases Total(State(), env, group)
      {
        PassLowersTotal(State(), group, next, env, group);
        ghost var before := winners;
        var winner;
        ok, next, winner := RunPassForGroup(group, next);
        if !ok || winner.None? {
          return;
        }
        winners := winners + [winner.value];
        leftover := winner.value.leftover;
        if leftover == {} {
          return;
        }
        ghost var rest := Cycle(State(), group, next, env);
        assert before + ([winner.value] + rest.winners) == winners + rest.winners;
      }
    }

    method RunStabilizationCyclesForAllGroups() returns (result: Planned)
      requires ReadyOver(0)
      modifies this
      ensures var p := Plan(old(State()), groups, 0, env);
        State() == p.state &&
        result == if !p.ok then PlanFailed else if p.cycles == [] then NoScaleOutPlan else Cycles(p.cycles)
    {
      ghost var want := Plan(State(), groups, 0, env);
      var groupIndex: nat, next: nat := 0, 0;
      var cycles: seq<CycleResult> := [];
      assert groups[0..] == groups;
      assert [] + want.cycles == want.cycles;
      while groupIndex < |groups|
        invariant groupIndex <= |groups|
        invariant ReadyOver(next)
        invariant MoreCycles(cycles, Plan(State(), groups[groupIndex..], next, env)) == want
        decreases |groups| - groupIndex, GroupTotal(State(), env, groups[groupIndex..])
      {
        var group := groups[groupIndex];
        ghost var left := groups[groupIndex..];
        assert left[0] == group && left[1..] == groups[groupIndex + 1..];
        OneMoreCycle(cycles, State(), left, next, env);
        var ok, winners, leftover;
        ok, next, winners, leftover := RunStabilizationCycleForGroup(group, next);
        if !ok {
          return PlanFailed;
        }
        if winners == [] {
          groupIndex := groupIndex + 1;
          continue;
        }
        cycles := cycles + [CycleResult(State(), ok, next, winners, leftover)];
        if leftover == {} {
          break;
        }
      }
      result := if cycles == [] then NoScaleOutPlan else Cycles(cycles);
    }
  }

  ghost function After(
    done: seq<SimResult>, rest: (PlanState, Option<seq<SimResult>>)): (PlanState, Option<seq<SimResult>>)
  {
    (rest.0, if rest.1.None? then None else Some(done + rest.1.value))
  }

  lemma AfterNothing(rest: (PlanState, Option<seq<SimResult>>))
    ensures After([], rest) == rest
  {
    assert rest.1.Some? ==> [] + rest.1.value == rest.1.value;
  }

  lemma AfterOne(done: seq<SimResult>, st: PlanState, group: seq<Sim>, i: nat, over: nat, env: Env)
    requires Ready(st, over, env) && i < |group|
    ensures var (st1, view) := GetView(st, group[i], over);
      Valid(st1) && view < |st1.views| &&
      var (st2, r) := RunSim(st1, group[i], view, env);
      Ready(st2, over, env) &&
      After(done, RunSims(st, group[i..], over, env)) ==
        if r.None? then (st2, None) else After(done + [r.value], RunSims(st2, group[i + 1..], over, env))
  {
    assert group[i..][0] == group[i] && group[i..][1..] == group[i + 1..];
    OneSimFits(st, group[i], over, env);
    var (st1, view) := GetView(st, group[i], over);
    var (st2, r) := RunSim(st1, group[i], view, env);
    if r.Some? {
      var rest := RunSims(st2, group[i + 1..], over, env).1;
      assert rest.Some? ==> done + ([r.value] + rest.value) == done + [r.value] + rest.value;
    }
  }

  /** The rest of a plan, by how its first cycle goes. */
  ghost function Going(cycles: seq<CycleResult>, c: CycleResult, groups: seq<seq<Sim>>, env: Env): PlanResult
    requires Ready(c.state, c.next, env) && groups != []
  {
    if !c.ok then PlanResult(c.state, false, c.next, cycles)
    else if c.winners == [] then MoreCycles(cycles, Plan(c.state, groups[1..], c.next, env))
    else if c.leftover == {} then PlanResult(c.state, true, c.next, cycles + [c])
    else MoreCycles(cycles + [c], Plan(c.state, groups, c.next, env))
  }

  lemma OneMoreCycle(cycles: seq<CycleResult>, st: PlanState, groups: seq<seq<Sim>>, over: nat, env: Env)
    requires Ready(st, over, env) && groups != []
    ensures var c := Cycle(st, groups[0], over, env);
      Ready(c.state, c.next, env) &&
      (c.winners != [] ==> GroupTotal(c.state, env, groups) < GroupTotal(st, env, groups)) &&
      MoreCycles(cycles, Plan(st, groups, over, env)) == Going(cycles, c, groups, env)
  {
    CycleWinnersBounded(st, groups[0], over, env, groups[0]);
    var c := Cycle(st, groups[0], over, env);
    if !c.ok {
      PlanAfterFailure(st, groups, over, env);
      assert cycles + [] == cycles;
    } else if c.winners == [] {
      PlanAfterLosing(st, groups, over, env);
    } else if c.leftover == {} {
      PlanAfterLast(st, groups, over, env);
    } else {
      PlanAfterWinning(st, groups, over, env);
      OneMoreInFront(cycles, c, Plan(st, groups, over, env), Plan(c.state, groups, c.next, env));
    }
  }

  lemma OneMoreInFront(cycles: seq<CycleResult>, c: CycleResult, p: PlanResult, rest: PlanResult)
    requires p == PlanResult(rest.state, rest.ok, rest.next, [c] + rest.cycles)
    ensures MoreCycles(cycles, p) == MoreCycles(cycles + [c], rest)
  {
    assert cycles + ([c] + rest.cycles) == cycles + [c] + rest.cycles;
  }

  ghost function MorePasses(winners: seq<SimResult>, leftover: set<Pod>, rest: CycleResult): CycleResult {
    rest.(winners := winners + rest.winners, leftover := if rest.winners == [] then leftover else rest.leftover)
  }

  ghost function MoreCycles(cycles: seq<CycleResult>, rest: PlanResult): PlanResult {
    rest.(cycles := cycles + rest.cycles)
  }
}
