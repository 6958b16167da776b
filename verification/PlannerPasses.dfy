/** What a pass answers and leaves behind, told by the runs of its group alone. */
module PlannerPasses {
  import opened ApiObjects
  import opened PlannerViews
  import opened PlannerSpec

  /** The runs do not depend on which of the scored results the scorer picks. */
  lemma {:induction false} RunsIgnorePick(
    st: PlanState, group: seq<Sim>, over: nat, env: Env, pick: (nat, nat) -> nat)
    requires Ready(st, over, env)
    ensures RunSims(st, group, over, env.(pick := pick)) == RunSims(st, group, over, env)
    decreases |group|
  {
    if group != [] {
      OneSimFits(st, group[0], over, env);
      var (st1, view) := GetView(st, group[0], over);
      var st2 := RunSim(st1, group[0], view, env).0;
      RunsIgnorePick(st2, group[1..], over, env, pick);
    }
  }

  /** The scored results in their order: `won` holds them all, and each once. */
  lemma {:induction false} AssignedAt(results: seq<SimResult>, j: nat)
    requires j < |results| && results[j].scored
    ensures |Assigned(results[..j])| < |Assigned(results)|
    ensures Assigned(results)[|Assigned(results[..j])|] == results[j]
  {
    if j == 0 {
      assert Assigned(results[..0]) == [];
    } else {
      AssignedAt(results[1..], j - 1);
      assert results[..j][0] == results[0] && results[..j][1..] == results[1..][..j - 1];
    }
  }

  /** A pass succeeds exactly if every run of the group does.  Then it has a winner exactly if some
      result is scored; the winner is a scored result, and the next pass runs over its view. */
  lemma PassHasWinnerIffScored(st: PlanState, group: seq<Sim>, over: nat, env: Env)
    requires Ready(st, over, env)
    ensures var (st', results) := RunSims(st, group, over, env);
      var p := Pass(st, group, over, env);
      p.ok == results.Some? &&
      (results.Some? ==> (p.winner.Some? <==> exists i :: 0 <= i < |results.value| && results.value[i].scored)) &&
      (p.winner.Some? ==>
        results.Some? && p.winner.value in results.value && p.winner.value.scored && p.next == p.winner.value.view) &&
      (p.winner.None? ==> p.state == st' && p.next == over)
  {
    var results := RunSims(st, group, over, env).1;
    if results.Some? && exists i :: 0 <= i < |results.value| && results.value[i].scored {
      var i: nat :| i < |results.value| && results.value[i].scored;
      AssignedAt(results.value, i);
    }
  }

  lemma PickInRange(i: nat, n: nat)
    requires i < n
    ensures i % n == i
  {
  }

  /** The winner is the scored result that the scorer picks. */
  lemma PickedWins(st: PlanState, group: seq<Sim>, over: nat, env: Env, won: seq<SimResult>, at: nat)
    requires Ready(st, over, env) && at < |won|
    requires var (st', results) := RunSims(st, group, over, env);
      results.Some? && Assigned(results.value) == won && env.pick(st'.runs, |won|) == at
    ensures Pass(st, group, over, env).winner == Some(won[at])
  {
    PickInRange(at, |won|);
  }

  /** Every scored result is the winner for some choice of the scorer. */
  lemma EveryScoredCanWin(st: PlanState, group: seq<Sim>, over: nat, env: Env, results: seq<SimResult>, i: nat)
      returns (pick: (nat, nat) -> nat)
    requires Ready(st, over, env) && RunSims(st, group, over, env).1 == Some(results)
    requires i < |results| && results[i].scored
    ensures Ready(st, over, env.(pick := pick))
    ensures Pass(st, group, over, env.(pick := pick)).winner == Some(results[i])
  {
    var at := |Assigned(results[..i])|;
    pick := (_, _) => at;
    RunsIgnorePick(st, group, over, env, pick);
    AssignedAt(results, i);
    PickedWins(st, group, over, env.(pick := pick), Assigned(results), at);
  }

  /** A winning pass forgets what the simulations of the group bound to nodes of their own and what
      was filed for them, and touches nothing else: no view, and no simulation outside the group. */
  lemma WinResetsGroup(st: PlanState, group: seq<Sim>, over: nat, env: Env, s: Sim)
    requires Ready(st, over, env) && Pass(st, group, over, env).winner.Some?
    ensures var st', p := RunSims(st, group, over, env).0, Pass(st, group, over, env);
      p.state.views == st'.views && p.state.viewOf == st'.viewOf && p.state.runs == st'.runs &&
      OwnOf(p.state, s) == (if s in group then {} else OwnOf(st', s)) &&
      FiledOf(p.state, s) == (if s in group then {} else FiledOf(st', s))
  {
  }

  /** The runs of a group leave alone what was recorded of any other simulation. */
  lemma {:induction false} RunsLeaveOthers(st: PlanState, group: seq<Sim>, over: nat, env: Env, s: Sim)
    requires Ready(st, over, env) && s !in group
    ensures var st' := RunSims(st, group, over, env).0;
      OwnOf(st', s) == OwnOf(st, s) && FiledOf(st', s) == FiledOf(st, s) &&
      (s in st'.viewOf <==> s in st.viewOf) && (s in st.viewOf ==> st'.viewOf[s] == st.viewOf[s])
    decreases |group|
  {
    if group != [] {
      OneSimFits(st, group[0], over, env);
      var (st1, view) := GetView(st, group[0], over);
      var (st2, r) := RunSim(st1, group[0], view, env);
      assert s != group[0] && s !in group[1..];
      if r.Some? {
        RunsLeaveOthers(st2, group[1..], over, env, s);
      }
    }
  }

  /** What a cycle leaves over is what its last winner leaves over, and none of the earlier ones leaves
      nothing. */
  ghost predicate EndsWithLast(c: CycleResult) {
    var n := |c.winners| - 1;
    && c.leftover == (if c.winners == [] then {} else c.winners[n].leftover)
    && (forall i :: 0 <= i < n ==> c.winners[i].leftover != {})
    && (c.winners != [] && c.leftover == {} ==> c.ok && c.next == c.winners[n].view)
  }

  lemma EndsLater(w: SimResult, rest: CycleResult, c: CycleResult)
    requires w.leftover != {} && EndsWithLast(rest)
    requires c == CycleResult(rest.state, rest.ok, rest.next, [w] + rest.winners,
                              if rest.winners == [] then w.leftover else rest.leftover)
    ensures EndsWithLast(c)
  {
  }

  lemma {:induction false} CycleEndsWithLast(st: PlanState, group: seq<Sim>, over: nat, env: Env)
    requires Ready(st, over, env)
    ensures EndsWithLast(Cycle(st, group, over, env))
    decreases Total(st, env, group)
  {
    var p := Pass(st, group, over, env);
    if p.ok && p.winner.Some? && p.winner.value.leftover != {} {
      CycleGoesOn(st, group, over, env);
      PassLowersTotal(st, group, over, env, group);
      CycleEndsWithLast(p.state, group, p.next, env);
      EndsLater(p.winner.value, Cycle(p.state, group, p.next, env), Cycle(st, group, over, env));
    } else {
      CycleStops(st, group, over, env);
      PassHasWinnerIffScored(st, group, over, env);
    }
  }
}
