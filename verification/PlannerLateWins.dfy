/** A win that lowers nothing.  A pass without winner resets no simulation, so a pod that was bound in
    it without being reported can make the simulation win in a later pass, in which nothing is bound. */
module PlannerLateWins {
  import opened ApiObjects
  import opened PlannerViews
  import opened PlannerSpec
  import opened PlannerTheorems

  const P := Key("default", "p")
  const Q := Key("default", "q")
  const R := Key("default", "r")

  lemma PodsDiffer()
    ensures P != Q && P != R && Q != R
  {
    assert P.name[0] == 'p' && Q.name[0] == 'q' && R.name[0] == 'r';
  }

  /** The first run places P and reports it, the second binds Q to its node and reports nothing, the
      third binds nothing and reports Q. */
  function Late(n: nat): RunBehaviour {
    if n == 1 then RunBehaviour(false, {P}, {P}, {}, {P})
    else if n == 2 then RunBehaviour(false, {Q}, {Q}, {}, {})
    else RunBehaviour(false, {}, {}, {}, {Q})
  }

  function LateEnv(): Env {
    Env({P, Q, R}, Late, (_, _) => 0)
  }

  /** A pass of one simulation, by how its run goes. */
  lemma PassOfOneSim(st: PlanState, sim: Sim, over: nat, env: Env)
    requires Ready(st, over, env)
    ensures var (st1, v) := GetView(st, sim, over);
      Valid(st1) && v < |st1.views| &&
      var (st2, r) := RunSim(st1, sim, v, env);
      var p := Pass(st, [sim], over, env);
      (r.Some? && r.value.scored ==> p == PassResult(Reset(st2, [sim]), true, r.value.view, r)) &&
      (r.Some? && !r.value.scored ==> p == PassResult(st2, true, over, None))
  {
    RunSimsOfOne(st, sim, over, env);
    ViewIsThere(st, sim, over);
    var (st1, v) := GetView(st, sim, over);
    var (st2, r) := RunSim(st1, sim, v, env);
    if r.Some? {
      assert [r.value][1..] == [];
      assert Assigned([r.value]) == if r.value.scored then [r.value] else [];
    }
  }

  /** The planner with one simulation, whose view is the only sandbox and shows `left`. */
  ghost predicate At(st: PlanState, env: Env, sim: Sim, left: set<Pod>, own: set<Pod>, filed: set<Pod>, runs: nat) {
    && Ready(st, 1, env) && sim in st.viewOf && st.viewOf[sim] == 1 && st.runs == runs
    && LeftIn(st, env, 1) == left && OwnOf(st, sim) == own && FiledOf(st, sim) == filed
  }

  lemma RunOfThree(
    st: PlanState, env: Env, sim: Sim, left: set<Pod>, own: set<Pod>, filed: set<Pod>, runs: nat, b: RunBehaviour)
    requires At(st, env, sim, left, own, filed, runs) && left != {} && env.scheduler(runs + 1) == b && !b.fails
    ensures var own' := own + b.onNew * (b.binds * left);
      var filed' := filed + b.filed - (left - b.binds * left);
      var (st', r) := RunSim(st, sim, 1, env);
      r == Some(SimResult(sim, 1, left - filed', filed' * own' != {})) &&
      At(st', env, sim, left - b.binds, own', filed', runs + 1)
  {
    RunLowersOwnView(st, sim, 1, env);
    RunKeepsOwnAmongPods(st, sim, 1, env);
  }

  lemma PassOfThree(
    st: PlanState, env: Env, sim: Sim, left: set<Pod>, own: set<Pod>, filed: set<Pod>, runs: nat, b: RunBehaviour)
    requires At(st, env, sim, left, own, filed, runs) && left != {} && env.scheduler(runs + 1) == b && !b.fails
    ensures var own' := own + b.onNew * (b.binds * left);
      var filed' := filed + b.filed - (left - b.binds * left);
      var p := Pass(st, [sim], 1, env);
      p.ok && p.next == 1 &&
      (if filed' * own' != {} then
         p.winner == Some(SimResult(sim, 1, left - filed', true)) &&
         At(p.state, env, sim, left - b.binds, {}, {}, runs + 1)
       else p.winner.None? && At(p.state, env, sim, left - b.binds, own', filed', runs + 1))
  {
    PassOfOneSim(st, sim, 1, env);
    RunOfThree(st, env, sim, left, own, filed, runs, b);
    ResetRaisesNone(RunSim(st, sim, 1, env).0, [sim], env);
    assert sim in [sim];
  }

  /** The first pass opens the view; otherwise it is as if the view had been there. */
  lemma FirstOpens(st: PlanState, env: Env, sim: Sim)
    requires Ready(st, 0, env) && |st.views| == 1 && sim !in st.viewOf
    ensures var (st1, v) := GetView(st, sim, 0);
      v == 1 && At(st1, env, sim, LeftIn(st, env, 0), OwnOf(st, sim), FiledOf(st, sim), st.runs) &&
      Pass(st1, [sim], 1, env) == Pass(st, [sim], 0, env).(next := Pass(st1, [sim], 1, env).next)
  {
    ViewIsThere(st, sim, 0);
    ViewRaisesNone(st, sim, 0, env);
    var (st1, v) := GetView(st, sim, 0);
    assert forall s :: OwnOf(st1, s) == OwnOf(st, s);
    RunSimsOfOne(st, sim, 0, env);
    RunSimsOfOne(st1, sim, 1, env);
  }

  lemma FirstPass(sim: Sim)
    ensures var env := LateEnv();
      Ready(Fresh(env.pods), 0, env) &&
      var p := Pass(Fresh(env.pods), [sim], 0, env);
      p.ok && p.winner.Some? && p.next == 1 && p.winner.value.leftover == {Q, R} &&
      At(p.state, env, sim, {Q, R}, {}, {}, 1)
  {
    var env := LateEnv();
    var st := Fresh(env.pods);
    FreshIsReady(env.pods, env);
    FirstOpens(st, env, sim);
    var b, left := Late(1), env.pods;
    PassOfThree(GetView(st, sim, 0).0, env, sim, left, {}, {}, 0, b);
    PassOfOneSim(st, sim, 0, env);
    PodsDiffer();
    assert b.binds * left == {P} && left - {P} == {Q, R};
    assert {} + b.filed - (left - {P}) == {P} && {} + b.onNew * {P} == {P};
    assert P in {P} * {P};
  }

  lemma SecondPass(st: PlanState, sim: Sim)
    requires At(st, LateEnv(), sim, {Q, R}, {}, {}, 1)
    ensures var p := Pass(st, [sim], 1, LateEnv());
      p.ok && p.winner.None? && p.next == 1 && At(p.state, LateEnv(), sim, {R}, {Q}, {}, 2)
  {
    var b, left := Late(2), {Q, R};
    PassOfThree(st, LateEnv(), sim, left, {}, {}, 1, b);
    PodsDiffer();
    assert b.binds * left == {Q} && left - {Q} == {R};
    assert {} + b.filed - (left - {Q}) == {} && {} + b.onNew * {Q} == {Q};
  }

  lemma ThirdPass(st: PlanState, sim: Sim)
    requires At(st, LateEnv(), sim, {R}, {Q}, {}, 2)
    ensures var p := Pass(st, [sim], 1, LateEnv());
      p.ok && p.winner.Some? && p.next == 1 && At(p.state, LateEnv(), sim, {R}, {}, {}, 3)
  {
    var b, left := Late(3), {R};
    PassOfThree(st, LateEnv(), sim, left, {Q}, {}, 2, b);
    PodsDiffer();
    assert b.binds * left == {} && left - {} == {R} && left - b.binds == {R};
    assert {} + b.filed - (left - {}) == {Q} && {Q} + b.onNew * {} == {Q};
    assert Q in {Q} * {Q};
  }

  /** A cycle that has a winner, after which the group is run again: the first pass of the next cycle
      wins over its own cached view, and that view shows what it showed before. */
  ghost predicate WinsWithoutLowering(st: PlanState, sim: Sim, env: Env)
    requires Ready(st, 0, env)
  {
    var c := Cycle(st, [sim], 0, env);
    && c.ok && c.winners != [] && c.leftover != {} && Ready(c.state, c.next, env)
    && var p := Pass(c.state, [sim], c.next, env);
    && p.ok && p.winner.Some? && p.next == c.next && sim in c.state.viewOf && c.state.viewOf[sim] == p.next
    && Ready(p.state, p.next, env) && LeftIn(p.state, env, p.next) == LeftIn(c.state, env, p.next) != {}
  }

  lemma LateWin(sim: Sim)
    ensures Ready(Fresh(LateEnv().pods), 0, LateEnv()) && WinsWithoutLowering(Fresh(LateEnv().pods), sim, LateEnv())
  {
    var env := LateEnv();
    var st := Fresh(env.pods);
    FirstPass(sim);
    var p1 := Pass(st, [sim], 0, env);
    SecondPass(p1.state, sim);
    var p2 := Pass(p1.state, [sim], 1, env);
    CycleStops(p1.state, [sim], 1, env);
    assert Q in {Q, R};
    CycleGoesOn(st, [sim], 0, env);
    ThirdPass(p2.state, sim);
    assert R in {R};
  }
}
