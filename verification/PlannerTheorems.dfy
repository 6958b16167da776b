/** With at most one simulation per group, the planner asks for at most one node per pod. */
module PlannerTheorems {
  import opened ApiObjects
  import opened PlannerViews
  import opened PlannerSpec

  // ---------------------------------------------------------------------------
  // At most one simulation per group
  // ---------------------------------------------------------------------------

  /** The simulation has no view yet, or its view is the current one. */
  ghost predicate Aligned(st: PlanState, sim: Sim, over: nat) {
    if sim in st.viewOf then st.viewOf[sim] == over else sim !in st.own
  }

  /** Only `sim` may have come to have a view or pods on own nodes. */
  ghost predicate OnlyAdds(st: PlanState, st': PlanState, sim: Sim) {
    st'.viewOf.Keys <= st.viewOf.Keys + {sim} && st'.own.Keys <= st.own.Keys + {sim}
  }

  /** What a simulation can win with when it is run over `over`. */
  ghost function Chances(st: PlanState, env: Env, sim: Sim, over: nat): set<Pod>
    requires Valid(st) && over < |st.views|
  {
    LeftIn(st, env, over) + OwnOf(st, sim)
  }

  lemma RunSimsOfOne(st: PlanState, sim: Sim, over: nat, env: Env)
    requires Ready(st, over, env)
    ensures var (st1, view) := GetView(st, sim, over);
      Valid(st1) && view < |st1.views| &&
      var (st2, r) := RunSim(st1, sim, view, env);
      RunSims(st, [sim], over, env) == (st2, if r.None? then None else Some([r.value]))
  {
    OneSimFits(st, sim, over, env);
    assert [sim][1..] == [];
    var (st1, view) := GetView(st, sim, over);
    var (st2, r) := RunSim(st1, sim, view, env);
    assert r.Some? ==> RunSims(st2, [], over, env).1 == Some([]) && [r.value] + [] == [r.value];
  }

  lemma RunOfOne(st: PlanState, sim: Sim, over: nat, env: Env)
    requires Ready(st, over, env) && Aligned(st, sim, over)
    ensures var (st', results) := RunSims(st, [sim], over, env);
      Valid(st') && over < |st'.views| && OnlyAdds(st, st', sim) &&
      sim in st'.viewOf && (sim in st.viewOf ==> st'.viewOf[sim] == over) &&
      LeftIn(st', env, st'.viewOf[sim]) + OwnOf(st', sim) <= Chances(st, env, sim, over) &&
      Chances(st', env, sim, over) <= Chances(st, env, sim, over) &&
      (results.Some? ==>
        && |results.value| == 1 && results.value[0].view == st'.viewOf[sim]
        && (results.value[0].scored ==> LeftIn(st', env, st'.viewOf[sim]) < Chances(st, env, sim, over)))
  {
    RunSimsOfOne(st, sim, over, env);
    ViewIsThere(st, sim, over);
    ViewRaisesNone(st, sim, over, env);
    var (st1, view) := GetView(st, sim, over);
    RunLowersOwnView(st1, sim, view, env);
    var (st2, r) := RunSim(st1, sim, view, env);
    assert LeftIn(st1, env, view) == LeftIn(st, env, over) && OwnOf(st1, sim) == OwnOf(st, sim);
    assert LeftIn(st2, env, over) <= LeftIn(st1, env, over) <= LeftIn(st, env, over);
    assert OwnOf(st2, sim) <= OwnOf(st, sim) + LeftIn(st1, env, view);
    if r.Some? && r.value.scored {
      var p := ScoredRunHasPod(st1, sim, view, env);
      assert p in Chances(st, env, sim, over) && p !in LeftIn(st2, env, view);
    }
  }

  /** What one pass of a single simulation does to its chances. */
  ghost predicate Uses(st: PlanState, st': PlanState, env: Env, sim: Sim, over: nat, next: nat, winners: nat)
    requires Valid(st) && over < |st.views|
  {
    && Ready(st', next, env) && OnlyAdds(st, st', sim)
    && winners + |Chances(st', env, sim, next)| <= |Chances(st, env, sim, over)|
    && (winners > 0 || sim in st.viewOf ==> sim in st'.viewOf && st'.viewOf[sim] == next)
    && (winners == 0 ==> next == over)
  }

  lemma LosingPassOfOne(st: PlanState, sim: Sim, over: nat, env: Env)
    requires Ready(st, over, env) && Aligned(st, sim, over) && Pass(st, [sim], over, env).winner.None?
    ensures var p := Pass(st, [sim], over, env); Uses(st, p.state, env, sim, over, p.next, 0)
  {
    RunOfOne(st, sim, over, env);
    RunSimsFit(st, [sim], over, env);
    var st' := RunSims(st, [sim], over, env).0;
    SmallerSet(Chances(st', env, sim, over), Chances(st, env, sim, over));
  }

  lemma WinningPassOfOne(st: PlanState, sim: Sim, over: nat, env: Env)
    requires Ready(st, over, env) && Aligned(st, sim, over) && Pass(st, [sim], over, env).winner.Some?
    ensures var p := Pass(st, [sim], over, env); Uses(st, p.state, env, sim, over, p.next, 1)
  {
    RunOfOne(st, sim, over, env);
    RunSimsFit(st, [sim], over, env);
    var (st', results) := RunSims(st, [sim], over, env);
    var r := results.value[0];
    assert results.value == [r] && [r][1..] == [];
    assert Assigned([r]) == if r.scored then [r] else [];
    ResetRaisesNone(st', [sim], env);
    var st'' := Reset(st', [sim]);
    assert sim in [sim];
    assert Chances(st'', env, sim, r.view) == LeftIn(st', env, r.view);
    SmallerSet(LeftIn(st', env, r.view), Chances(st, env, sim, over));
  }

  lemma PassOfOne(st: PlanState, sim: Sim, over: nat, env: Env)
    requires Ready(st, over, env) && Aligned(st, sim, over)
    ensures var p := Pass(st, [sim], over, env);
      Uses(st, p.state, env, sim, over, p.next, if p.winner.Some? then 1 else 0)
  {
    if Pass(st, [sim], over, env).winner.Some? {
      WinningPassOfOne(st, sim, over, env);
    } else {
      LosingPassOfOne(st, sim, over, env);
    }
  }

  lemma UsesTransitive(
    st: PlanState, st1: PlanState, st2: PlanState, env: Env, sim: Sim, over: nat, mid: nat, next: nat, n: nat)
    requires Valid(st) && over < |st.views| && Uses(st, st1, env, sim, over, mid, 1) &&
      Uses(st1, st2, env, sim, mid, next, n)
    ensures Uses(st, st2, env, sim, over, next, n + 1)
  {
  }

  lemma {:induction false} CycleOfOne(st: PlanState, sim: Sim, over: nat, env: Env)
    requires Ready(st, over, env) && Aligned(st, sim, over)
    ensures var c := Cycle(st, [sim], over, env); Uses(st, c.state, env, sim, over, c.next, |c.winners|)
    decreases Total(st, env, [sim])
  {
    PassOfOne(st, sim, over, env);
    PassLowersTotal(st, [sim], over, env, [sim]);
    var p := Pass(st, [sim], over, env);
    if p.ok && p.winner.Some? && p.winner.value.leftover != {} {
      CycleOfOne(p.state, sim, p.next, env);
      CycleGoesOn(st, [sim], over, env);
      var rest := Cycle(p.state, [sim], p.next, env);
      UsesTransitive(st, p.state, rest.state, env, sim, over, p.next, rest.next, |rest.winners|);
    } else {
      CycleStops(st, [sim], over, env);
    }
  }

  lemma CycleOfNone(st: PlanState, over: nat, env: Env)
    requires Ready(st, over, env)
    ensures Cycle(st, [], over, env) == CycleResult(st, true, over, [], {})
  {
    assert Assigned([]) == [];
  }

  ghost predicate SmallGroups(groups: seq<seq<Sim>>) {
    forall i :: 0 <= i < |groups| ==> |groups[i]| <= 1
  }

  /** All simulations of all groups are different. */
  ghost predicate DistinctSims(groups: seq<seq<Sim>>) {
    && (forall g, i, j :: 0 <= g < |groups| && 0 <= i < j < |groups[g]| ==> groups[g][i] != groups[g][j])
    && (forall g, h, s :: 0 <= g < h < |groups| && s in groups[g] ==> s !in groups[h])
  }

  /** None of the simulations of these groups has run. */
  ghost predicate NotRun(st: PlanState, groups: seq<seq<Sim>>) {
    forall g, s :: 0 <= g < |groups| && s in groups[g] ==> s !in st.viewOf && s !in st.own
  }

  lemma LaterGroups(groups: seq<seq<Sim>>)
    requires groups != [] && DistinctSims(groups)
    ensures DistinctSims(groups[1..])
    ensures forall s :: s in groups[0] ==> forall g :: 0 <= g < |groups[1..]| ==> s !in groups[1..][g]
  {
    forall g, h, s | 0 <= g < h < |groups[1..]| && s in groups[1..][g] ensures s !in groups[1..][h] {
      assert s in groups[g + 1];
    }
    forall s, g | s in groups[0] && 0 <= g < |groups[1..]| ensures s !in groups[1..][g] {
      assert groups[1..][g] == groups[g + 1];
    }
  }

  lemma StillNotRun(st: PlanState, st': PlanState, groups: seq<seq<Sim>>, sim: Sim)
    requires NotRun(st, groups) && OnlyAdds(st, st', sim) && forall g :: 0 <= g < |groups| ==> sim !in groups[g]
    ensures NotRun(st', groups)
  {
  }

  /** What the first group's simulation can win with. */
  ghost function FirstChances(st: PlanState, env: Env, groups: seq<seq<Sim>>, over: nat): set<Pod>
    requires Valid(st) && over < |st.views|
  {
    if groups == [] || groups[0] == [] then LeftIn(st, env, over) else Chances(st, env, groups[0][0], over)
  }

  lemma UnrunChances(st: PlanState, env: Env, groups: seq<seq<Sim>>, over: nat)
    requires Valid(st) && over < |st.views| && NotRun(st, groups)
    ensures FirstChances(st, env, groups, over) == LeftIn(st, env, over)
    ensures groups != [] && groups[0] != [] ==> Aligned(st, groups[0][0], over)
  {
    if groups != [] && groups[0] != [] {
      assert groups[0][0] in groups[0];
    }
  }

  /** A plan from here on asks for so few nodes that, with the pods left over, there are at most `n`. */
  ghost predicate AtMost(st: PlanState, groups: seq<seq<Sim>>, over: nat, env: Env, n: nat)
    requires Ready(st, over, env)
  {
    var p := Plan(st, groups, over, env);
    Valid(p.state) && p.next < |p.state.views| && Winners(p.cycles) + |LeftIn(p.state, env, p.next)| <= n
  }

  /** With at most one simulation per group, the nodes asked for and the pods left in the last
      view together never exceed the pods that could be won at the start. */
  lemma {:induction false} SmallGroupsNeverOvershoot(st: PlanState, groups: seq<seq<Sim>>, over: nat, env: Env)
    requires Ready(st, over, env) && SmallGroups(groups) && DistinctSims(groups)
    requires groups != [] ==> NotRun(st, groups[1..]) && (groups[0] != [] ==> Aligned(st, groups[0][0], over))
    ensures AtMost(st, groups, over, env, |FirstChances(st, env, groups, over)|)
    decreases |groups|, GroupTotal(st, env, groups), 0
  {
    if groups != [] {
      LaterGroups(groups);
      assert SmallGroups(groups[1..]);
      if groups[0] == [] {
        CycleOfNone(st, over, env);
        PlanAfterLosing(st, groups, over, env);
        UnrunNeverOvershoot(st, groups[1..], over, env);
      } else {
        var sim := groups[0][0];
        assert groups[0] == [sim] && sim in groups[0];
        CycleOfOne(st, sim, over, env);
        CycleWinnersBounded(st, [sim], over, env, [sim]);
        var c := Cycle(st, [sim], over, env);
        StillNotRun(st, c.state, groups[1..], sim);
        SmallerSet(LeftIn(c.state, env, c.next), Chances(c.state, env, sim, c.next));
        if !c.ok {
          PlanAfterFailure(st, groups, over, env);
        } else if c.winners == [] {
          PlanAfterLosing(st, groups, over, env);
          UnrunNeverOvershoot(c.state, groups[1..], c.next, env);
        } else if c.leftover == {} {
          PlanAfterLast(st, groups, over, env);
        } else {
          PlanAfterWinning(st, groups, over, env);
          SmallGroupsNeverOvershoot(c.state, groups, c.next, env);
        }
      }
    }
  }

  lemma {:induction false} UnrunNeverOvershoot(st: PlanState, groups: seq<seq<Sim>>, over: nat, env: Env)
    requires Ready(st, over, env) && SmallGroups(groups) && DistinctSims(groups) && NotRun(st, groups)
    ensures AtMost(st, groups, over, env, |LeftIn(st, env, over)|)
    decreases |groups|, GroupTotal(st, env, groups), 1
  {
    UnrunChances(st, env, groups, over);
    assert groups != [] ==> NotRun(st, groups[1..]);
    SmallGroupsNeverOvershoot(st, groups, over, env);
  }

  /** The planner at its start: one view, which shows the request's pods as unscheduled. */
  function Fresh(pods: set<Pod>): PlanState {
    PlanState([ViewRecord(0, {}, pods)], map[], map[], map[], 0)
  }

  lemma FreshIsReady(pods: set<Pod>, env: Env)
    requires env.pods == pods
    ensures Ready(Fresh(pods), 0, env) && LeftIn(Fresh(pods), env, 0) == pods
  {
  }

  /** From the snapshot: at most one node per unscheduled pod. */
  lemma PlanOfSinglesIsBounded(groups: seq<seq<Sim>>, env: Env)
    requires SmallGroups(groups) && DistinctSims(groups)
    ensures Ready(Fresh(env.pods), 0, env) && Winners(Plan(Fresh(env.pods), groups, 0, env).cycles) <= |env.pods|
  {
    FreshIsReady(env.pods, env);
    UnrunNeverOvershoot(Fresh(env.pods), groups, 0, env);
  }
}
