/** The planner asks for at most one node per pod, for every scheduler, if and only if no group
    has two simulations: the simulations of one group keep separate views, so a pod that one of
    them has already scheduled is still unscheduled in the other's. */
module PlannerOvershoot {
  import opened ApiObjects
  import opened PlannerViews
  import opened PlannerSpec
  import opened PlannerTheorems

  // ---------------------------------------------------------------------------
  // Simulations side by side
  // ---------------------------------------------------------------------------

  const Idle := RunBehaviour(false, {}, {}, {}, {})

  /** Binds `x`, all of it to the new node, and files it. */
  function Placing(x: set<Pod>): RunBehaviour {
    RunBehaviour(false, x, x, {}, x)
  }

  /** What a simulation would start from. */
  ghost function StartOf(st: PlanState, env: Env, root: nat, s: Sim): set<Pod>
    requires Valid(st) && root < |st.views|
  {
    if s in st.viewOf then LeftIn(st, env, st.viewOf[s]) else LeftIn(st, env, root)
  }

  ghost predicate HangsOn(st: PlanState, root: nat, s: Sim)
    requires Valid(st) && s in st.viewOf
  {
    root < st.viewOf[s] && st.views[st.viewOf[s]].over == root
  }

  /** The views of the simulations in `f` hang side by side over `root`, and `f` says what each
      of them starts from. */
  ghost predicate At(st: PlanState, env: Env, root: nat, f: map<Sim, set<Pod>>) {
    && Valid(st) && root < |st.views|
    && (forall s :: s in f && s in st.viewOf ==> HangsOn(st, root, s))
    && (forall s, t :: s in f && t in f && s in st.viewOf && t in st.viewOf && s != t ==> st.viewOf[s] != st.viewOf[t])
    && (forall s :: s in f ==> StartOf(st, env, root, s) == f[s])
  }

  ghost predicate CanOpen(st: PlanState, s: Sim, root: nat, over: nat) {
    over < |st.views| && (s in st.viewOf || over == root)
  }

  lemma Opens(st: PlanState, env: Env, root: nat, f: map<Sim, set<Pod>>, s: Sim, over: nat)
    requires At(st, env, root, f) && s in f && CanOpen(st, s, root, over)
    ensures var (st1, view) := GetView(st, s, over);
      At(st1, env, root, f) && s in st1.viewOf && st1.viewOf[s] == view &&
        LeftIn(st1, env, root) == LeftIn(st, env, root)
  {
    ViewIsThere(st, s, over);
    if s !in st.viewOf {
      var st1 := GetView(st, s, over).0;
      forall i: nat | i <= |st.views|
        ensures LeftIn(st1, env, i) == LeftIn(st, env, if i == |st.views| then over else i)
      {
        OpenKeepsUnscheduled(st.views, env.pods, over, i);
      }
    }
  }

  /** Writes through one of the views change nothing for the others. */
  lemma OthersStay(st: PlanState, env: Env, root: nat, s: Sim, t: Sim, x: set<Pod>)
    requires Valid(st) && s in st.viewOf && t in st.viewOf && HangsOn(st, root, s) && HangsOn(st, root, t)
    requires st.viewOf[s] != st.viewOf[t] && x <= LeftIn(st, env, st.viewOf[s])
    ensures var views' := Write(st.views, st.viewOf[s], LeftIn(st, env, st.viewOf[s]), x, {});
      Ordered(views') && Unscheduled(views', env.pods, st.viewOf[t]) == LeftIn(st, env, st.viewOf[t])
  {
    WriteLowersUnscheduled(st.views, env.pods, st.viewOf[s], x, {}, root);
  }

  lemma AtAfterWrite(st: PlanState, st': PlanState, env: Env, root: nat, f: map<Sim, set<Pod>>, s: Sim, x: set<Pod>)
    requires At(st, env, root, f) && s in f && s in st.viewOf && x <= f[s] && st'.viewOf == st.viewOf
    requires st'.views == Write(st.views, st.viewOf[s], f[s], x, {})
    ensures At(st', env, root, f[s := f[s] - x]) && LeftIn(st', env, root) == LeftIn(st, env, root)
  {
    var view := st.viewOf[s];
    WriteLowersUnscheduled(st.views, env.pods, view, x, {}, root);
    WriteLowersUnscheduled(st.views, env.pods, view, x, {}, view);
    forall t | t in f && t != s && t in st.viewOf
      ensures LeftIn(st', env, st.viewOf[t]) == LeftIn(st, env, st.viewOf[t])
    {
      OthersStay(st, env, root, s, t, x);
    }
  }

  lemma RunsAlone(st: PlanState, env: Env, root: nat, f: map<Sim, set<Pod>>, s: Sim, x: set<Pod>)
    requires At(st, env, root, f) && s in f && s in st.viewOf && x <= f[s] != {} && OwnOf(st, s) == {}
    requires env.scheduler(st.runs + 1) == if x == {} then Idle else Placing(x)
    ensures var view := st.viewOf[s];
      view < |st.views| &&
      var (st', r) := RunSim(st, s, view, env);
      r == Some(SimResult(s, view, f[s] - x, x != {})) &&
      At(st', env, root, f[s := f[s] - x]) && LeftIn(st', env, root) == LeftIn(st, env, root)
  {
    var view := st.viewOf[s];
    assert StartOf(st, env, root, s) == f[s];
    RunSpelledOut(st, s, view, env, x);
    AtAfterWrite(st, RunSim(st, s, view, env).0, env, root, f, s, x);
  }

  lemma RunSpelledOut(st: PlanState, s: Sim, view: nat, env: Env, x: set<Pod>)
    requires Valid(st) && view < |st.views| && x <= LeftIn(st, env, view) != {} && OwnOf(st, s) == {}
    requires env.scheduler(st.runs + 1) == if x == {} then Idle else Placing(x)
    ensures var left := LeftIn(st, env, view);
      RunSim(st, s, view, env) ==
        (PlanState(Write(st.views, view, left, x, {}), st.viewOf, st.own[s := OwnOf(st, s) + x],
                   st.filed[s := FiledOf(st, s) + x - (left - x)], st.runs + 1),
         Some(SimResult(s, view, left - x, x != {})))
  {
    var left, filed := LeftIn(st, env, view), FiledOf(st, s) + x - (LeftIn(st, env, view) - x);
    assert x * left == x && x * x == x && left - filed == left - x;
    assert filed * (OwnOf(st, s) + x) == x;
  }

  /** What a turn does besides: one more run, and only `s` comes to have a view. */
  ghost predicate TurnTaken(st: PlanState, st': PlanState, sims: set<Sim>, runs: nat) {
    && |st.views| <= |st'.views| && st'.runs == st.runs + runs
    && st'.viewOf.Keys == st.viewOf.Keys + sims && st'.own.Keys <= st.own.Keys + sims
    && (forall s :: s !in sims ==> OwnOf(st', s) == OwnOf(st, s))
  }

  lemma TurnIsTaken(st: PlanState, env: Env, s: Sim, over: nat, x: set<Pod>)
    requires Valid(st) && over < |st.views| && OwnOf(st, s) == {}
    requires env.scheduler(st.runs + 1) == if x == {} then Idle else Placing(x)
    requires var (st1, view) := GetView(st, s, over);
      Valid(st1) && view < |st1.views| && x <= LeftIn(st1, env, view) != {}
    ensures var (st1, view) := GetView(st, s, over); TurnTaken(st, RunSim(st1, s, view, env).0, {s}, 1)
  {
    var (st1, view) := GetView(st, s, over);
    RunSpelledOut(st1, s, view, env, x);
  }

  lemma TakesTurn(st: PlanState, env: Env, root: nat, f: map<Sim, set<Pod>>, s: Sim, over: nat, x: set<Pod>)
    requires At(st, env, root, f) && s in f && CanOpen(st, s, root, over) && x <= f[s] != {} && OwnOf(st, s) == {}
    requires env.scheduler(st.runs + 1) == if x == {} then Idle else Placing(x)
    ensures var (st1, view) := GetView(st, s, over);
      Valid(st1) && view < |st1.views| &&
      var (st2, r) := RunSim(st1, s, view, env);
      r == Some(SimResult(s, view, f[s] - x, x != {})) && TurnTaken(st, st2, {s}, 1) &&
      At(st2, env, root, f[s := f[s] - x]) && LeftIn(st2, env, root) == LeftIn(st, env, root)
  {
    Opens(st, env, root, f, s, over);
    var (st1, view) := GetView(st, s, over);
    assert StartOf(st1, env, root, s) == f[s];
    TurnIsTaken(st, env, s, over, x);
    RunsAlone(st1, env, root, f, s, x);
  }

  // ---------------------------------------------------------------------------
  // A pass in which at most one simulation does something
  // ---------------------------------------------------------------------------

  /** Of the `size` runs from `first` on, the one at `at` places `x` and the others are idle. */
  ghost predicate Scheduled(env: Env, first: nat, size: nat, at: int, x: set<Pod>) {
    forall n: nat :: first <= n < first + size ==> env.scheduler(n) == if n == first + at then Placing(x) else Idle
  }

  ghost predicate Distinct(group: seq<Sim>) {
    forall i, j :: 0 <= i < j < |group| ==> group[i] != group[j]
  }

  function SetOf(group: seq<Sim>): set<Sim> {
    set s | s in group
  }

  ghost predicate OwnNothing(st: PlanState, group: seq<Sim>) {
    forall s :: s in group ==> OwnOf(st, s) == {}
  }

  /** The simulations of the group can run now, the one at `at` placing `x`. */
  ghost predicate CanRun(
    st: PlanState, root: nat, f: map<Sim, set<Pod>>, group: seq<Sim>, over: nat, at: int, x: set<Pod>)
  {
    && Distinct(group) && x != {}
    && (forall s :: s in group ==> s in f && f[s] != {} && CanOpen(st, s, root, over))
    && OwnNothing(st, group)
    && (0 <= at < |group| ==> group[at] in f && x <= f[group[at]])
  }

  function Placed(f: map<Sim, set<Pod>>, group: seq<Sim>, at: int, x: set<Pod>): map<Sim, set<Pod>> {
    if 0 <= at < |group| && group[at] in f then f[group[at] := f[group[at]] - x] else f
  }

  ghost predicate OnlyOneScored(results: seq<SimResult>, f: map<Sim, set<Pod>>, group: seq<Sim>, at: int, x: set<Pod>) {
    && |results| == |group|
    && (forall i :: 0 <= i < |results| ==> results[i].scored == (i == at))
    && (0 <= at < |group| && group[at] in f ==> results[at].leftover == f[group[at]] - x)
  }

  lemma CanRunRest(
    st: PlanState, st': PlanState, root: nat, f: map<Sim, set<Pod>>, group: seq<Sim>, over: nat, at: int, x: set<Pod>)
    requires group != [] && CanRun(st, root, f, group, over, at, x) && TurnTaken(st, st', {group[0]}, 1)
    ensures var y := if at == 0 then x else {};
      group[0] in f && CanRun(st', root, f[group[0] := f[group[0]] - y], group[1..], over, at - 1, x)
  {
    assert group[0] in group;
    forall s | s in group[1..] ensures s in group && s != group[0] {
      var i :| 0 <= i < |group[1..]| && group[1..][i] == s;
      assert group[i + 1] == s;
    }
  }

  lemma PlacedRest(f: map<Sim, set<Pod>>, group: seq<Sim>, at: int, x: set<Pod>)
    requires group != [] && Distinct(group) && forall s :: s in group ==> s in f
    ensures group[0] in f
    ensures var f1 := f[group[0] := f[group[0]] - if at == 0 then x else {}];
      Placed(f1, group[1..], at - 1, x) == Placed(f, group, at, x) &&
      (0 < at < |group| ==> group[at] in f && f1[group[1..][at - 1]] == f[group[at]])
  {
    assert group[0] in group;
    var f1 := f[group[0] := f[group[0]] - if at == 0 then x else {}];
    if at != 0 {
      assert f[group[0]] - {} == f[group[0]];
      assert f1 == f;
    }
    if 0 < at < |group| {
      assert group[1..][at - 1] == group[at] && group[at] in group;
    }
  }

  lemma RunSimsOneMore(
    st: PlanState, group: seq<Sim>, over: nat, env: Env, st2: PlanState, r: SimResult, st3: PlanState,
    rest: seq<SimResult>)
    requires Valid(st) && over < |st.views| && group != []
    requires var (st1, view) := GetView(st, group[0], over);
      Valid(st1) && view < |st1.views| && RunSim(st1, group[0], view, env) == (st2, Some(r))
    requires Valid(st2) && over < |st2.views| && RunSims(st2, group[1..], over, env) == (st3, Some(rest))
    ensures RunSims(st, group, over, env) == (st3, Some([r] + rest))
  {
  }

  lemma ScheduledRest(env: Env, first: nat, size: nat, at: int, x: set<Pod>)
    requires Scheduled(env, first, size, at, x) && size > 0
    ensures env.scheduler(first) == if at == 0 then Placing(x) else Idle
    ensures Scheduled(env, first + 1, size - 1, at - 1, x)
  {
  }

  /** The runs of a group of which the simulation at `at` places `x`. */
  ghost predicate OneActive(
    st: PlanState, st': PlanState, results: seq<SimResult>, env: Env, root: nat, f: map<Sim, set<Pod>>,
    group: seq<Sim>, at: int, x: set<Pod>)
    requires Valid(st) && root < |st.views|
  {
    && OnlyOneScored(results, f, group, at, x) && TurnTaken(st, st', SetOf(group), |group|)
    && At(st', env, root, Placed(f, group, at, x)) && LeftIn(st', env, root) == LeftIn(st, env, root)
  }

  lemma OneMoreActive(
    st: PlanState, st2: PlanState, st3: PlanState, r: SimResult, rest: seq<SimResult>, env: Env, root: nat,
    f: map<Sim, set<Pod>>, group: seq<Sim>, at: int, x: set<Pod>)
    requires Valid(st) && root < |st.views| && Valid(st2) && root < |st2.views|
    requires group != [] && Distinct(group) && forall s :: s in group ==> s in f
    requires TurnTaken(st, st2, {group[0]}, 1) && LeftIn(st2, env, root) == LeftIn(st, env, root)
    requires group[0] in group && r.scored == (at == 0) && r.leftover == f[group[0]] - if at == 0 then x else {}
    requires OneActive(st2, st3, rest, env, root, After(f, group[0], if at == 0 then x else {}), group[1..], at - 1, x)
    ensures OneActive(st, st3, [r] + rest, env, root, f, group, at, x)
  {
    PlacedRest(f, group, at, x);
    ScoredOneMore(r, rest, f, f[group[0] := f[group[0]] - if at == 0 then x else {}], group, at, x);
    assert SetOf(group) == {group[0]} + SetOf(group[1..]) by {
      assert group == [group[0]] + group[1..];
    }
  }

  ghost predicate CanGo(
    st: PlanState, env: Env, root: nat, f: map<Sim, set<Pod>>, group: seq<Sim>, over: nat, at: int, x: set<Pod>)
  {
    && over < |st.views| && At(st, env, root, f) && CanRun(st, root, f, group, over, at, x)
    && Scheduled(env, st.runs + 1, |group|, at, x)
  }

  function After(f: map<Sim, set<Pod>>, s: Sim, y: set<Pod>): map<Sim, set<Pod>>
    requires s in f
  {
    f[s := f[s] - y]
  }

  lemma FirstTurn(
    st: PlanState, env: Env, root: nat, f: map<Sim, set<Pod>>, group: seq<Sim>, over: nat, at: int, x: set<Pod>)
      returns (st2: PlanState, r: SimResult)
    requires group != [] && CanGo(st, env, root, f, group, over, at, x)
    ensures group[0] in f &&
      CanGo(st2, env, root, After(f, group[0], if at == 0 then x else {}), group[1..], over, at - 1, x)
    ensures var (st1, view) := GetView(st, group[0], over);
      Valid(st1) && view < |st1.views| && RunSim(st1, group[0], view, env) == (st2, Some(r))
    ensures TurnTaken(st, st2, {group[0]}, 1) && LeftIn(st2, env, root) == LeftIn(st, env, root)
    ensures r.scored == (at == 0) && r.leftover == f[group[0]] - if at == 0 then x else {}
  {
    var s, y := group[0], if at == 0 then x else {};
    assert s in group;
    ScheduledRest(env, st.runs + 1, |group|, at, x);
    TakesTurn(st, env, root, f, s, over, y);
    var (st1, view) := GetView(st, s, over);
    var run := RunSim(st1, s, view, env);
    st2, r := run.0, run.1.value;
    CanRunRest(st, st2, root, f, group, over, at, x);
  }

  lemma {:induction false} RunSimsOneActive(
    st: PlanState, env: Env, root: nat, f: map<Sim, set<Pod>>, group: seq<Sim>,
    over: nat, at: int, x: set<Pod>)
    requires CanGo(st, env, root, f, group, over, at, x)
    ensures var (st', results) := RunSims(st, group, over, env);
      results.Some? && OneActive(st, st', results.value, env, root, f, group, at, x)
    decreases |group|
  {
    if group == [] {
      assert SetOf(group) == {};
    } else {
      var st2, r := FirstTurn(st, env, root, f, group, over, at, x);
      RunSimsOneActive(st2, env, root, After(f, group[0], if at == 0 then x else {}), group[1..], over, at - 1, x);
      var (st3, rest) := RunSims(st2, group[1..], over, env);
      RunSimsOneMore(st, group, over, env, st2, r, st3, rest.value);
      assert group[0] in group;
      OneMoreActive(st, st2, st3, r, rest.value, env, root, f, group, at, x);
    }
  }

  lemma ScoredOneMore(
    r: SimResult, rest: seq<SimResult>, f: map<Sim, set<Pod>>, f1: map<Sim, set<Pod>>, group: seq<Sim>,
    at: int, x: set<Pod>)
    requires group != [] && OnlyOneScored(rest, f1, group[1..], at - 1, x)
    requires group[0] in f && r.scored == (at == 0) && r.leftover == f[group[0]] - if at == 0 then x else {}
    requires 0 < at < |group| ==> group[at] in f && group[1..][at - 1] in f1 && f1[group[1..][at - 1]] == f[group[at]]
    ensures OnlyOneScored([r] + rest, f, group, at, x)
  {
  }

  lemma {:induction false} OneScored(results: seq<SimResult>, at: int)
    requires forall i :: 0 <= i < |results| ==> results[i].scored == (i == at)
    ensures Assigned(results) == if 0 <= at < |results| then [results[at]] else []
    decreases |results|
  {
    if results != [] {
      OneScored(results[1..], at - 1);
    }
  }

  /** The simulation that places `x` wins, and nothing else moves. */
  lemma PassOneActive(
    st: PlanState, env: Env, root: nat, f: map<Sim, set<Pod>>, group: seq<Sim>, over: nat, at: nat, x: set<Pod>)
    requires At(st, env, root, f) && CanRun(st, root, f, group, over, at, x) &&
      Scheduled(env, st.runs + 1, |group|, at, x)
    requires over < |st.views| && at < |group|
    ensures var p := Pass(st, group, over, env);
      p.ok && p.winner.Some? && group[at] in f && p.winner.value.leftover == f[group[at]] - x &&
      p.state.runs == st.runs + |group| && p.state.viewOf.Keys == st.viewOf.Keys + SetOf(group) &&
      At(p.state, env, root, Placed(f, group, at, x))
  {
    RunSimsOneActive(st, env, root, f, group, over, at, x);
    var (st', results) := RunSims(st, group, over, env);
    OneScored(results.value, at);
    SameViewsSameAt(st', Reset(st', group), env, root, Placed(f, group, at, x));
  }

  lemma SameViewsSameAt(st: PlanState, st': PlanState, env: Env, root: nat, f: map<Sim, set<Pod>>)
    requires At(st, env, root, f) && st'.views == st.views && st'.viewOf == st.viewOf
    ensures At(st', env, root, f)
  {
  }

  /** A pass in which nobody does anything. */
  lemma PassAllIdle(st: PlanState, env: Env, f: map<Sim, set<Pod>>, group: seq<Sim>, over: nat)
    requires Ready(st, over, env) && LeftIn(st, env, over) != {} && At(st, env, over, f)
    requires CanRun(st, over, f, group, over, -1, LeftIn(st, env, over))
    requires Scheduled(env, st.runs + 1, |group|, -1, LeftIn(st, env, over))
    ensures var p := Pass(st, group, over, env);
      p.ok && p.winner.None? && p.next == over && TurnTaken(st, p.state, SetOf(group), |group|) &&
      Valid(p.state) && over < |p.state.views| && LeftIn(p.state, env, over) == LeftIn(st, env, over)
  {
    RunSimsOneActive(st, env, over, f, group, over, -1, LeftIn(st, env, over));
    OneScored(RunSims(st, group, over, env).1.value, -1);
  }

  // ---------------------------------------------------------------------------
  // Three winners for two pods
  // ---------------------------------------------------------------------------

  const P := Key("default", "p")
  const Q := Key("default", "q")

  /** `k` idle runs, then passes of `m` runs: the first simulation places P, then the second one
      places P, then the first one places Q. */
  function Turns(k: nat, m: nat): nat -> RunBehaviour {
    n =>
      if n == k + 1 || n == k + m + 2 then Placing({P})
      else if n == k + 2 * m + 1 then Placing({Q})
      else Idle
  }

  function TakingTurns(k: nat, m: nat): Env {
    Env({P, Q}, Turns(k, m), (_, _) => 0)
  }

  lemma TurnsAreScheduled(k: nat, m: nat)
    requires m >= 2
    ensures var env := TakingTurns(k, m);
      Scheduled(env, k + 1, m, 0, {P}) && Scheduled(env, k + m + 1, m, 1, {P}) &&
        Scheduled(env, k + 2 * m + 1, m, 0, {Q})
  {
  }

  lemma TurnsAreOfPods(k: nat, m: nat, n: nat)
    ensures var b := TakingTurns(k, m).scheduler(n); b.copies <= {P, Q} && b.filed <= {P, Q}
  {
    var b := Turns(k, m)(n);
    assert b == Placing({P}) || b == Placing({Q}) || b == Idle;
  }

  function StartAll(group: seq<Sim>): map<Sim, set<Pod>> {
    map s | s in SetOf(group) :: {P, Q}
  }

  ghost predicate Unrun(st: PlanState, group: seq<Sim>) {
    forall s :: s in group ==> s !in st.viewOf && s !in st.own
  }

  lemma AllUnseen(st: PlanState, env: Env, group: seq<Sim>, over: nat)
    requires Valid(st) && over < |st.views| && LeftIn(st, env, over) == {P, Q}
    requires Unrun(st, group)
    ensures At(st, env, over, StartAll(group))
  {
  }

  /** A pass of the group was won and left `left` over; `f` says where the simulations are now. */
  ghost predicate WonPass(
    st: PlanState, p: PassResult, group: seq<Sim>, env: Env, root: nat, f: map<Sim, set<Pod>>, left: set<Pod>)
  {
    && p.ok && p.winner.Some? && p.winner.value.leftover == left
    && Ready(p.state, p.next, env) && At(p.state, env, root, f)
    && p.state.runs == st.runs + |group| && SetOf(group) <= p.state.viewOf.Keys
    && OwnNothing(p.state, group)
  }

  lemma WinsPass(
    st: PlanState, env: Env, root: nat, f: map<Sim, set<Pod>>, group: seq<Sim>, over: nat, at: nat, x: set<Pod>)
    requires Ready(st, over, env) && At(st, env, root, f) && CanRun(st, root, f, group, over, at, x)
    requires Scheduled(env, st.runs + 1, |group|, at, x) && at < |group|
    ensures group[at] in f &&
      WonPass(st, Pass(st, group, over, env), group, env, root, Placed(f, group, at, x), f[group[at]] - x)
  {
    PassOneActive(st, env, root, f, group, over, at, x);
    PassLowersTotal(st, group, over, env, group);
  }

  /** The cycle of a group of two or more that nobody has run yet. */
  lemma ThreePasses(st: PlanState, group: seq<Sim>, over: nat, env: Env)
    requires |group| >= 2 && Distinct(group) && env == TakingTurns(st.runs, |group|) && Ready(st, over, env)
    requires LeftIn(st, env, over) == {P, Q} && Unrun(st, group)
    ensures var c := Cycle(st, group, over, env); c.ok && |c.winners| == 3 && c.leftover == {}
  {
    FirstPass(st, group, over, env);
    var p := Pass(st, group, over, env);
    TurnsAreScheduled(st.runs, |group|);
    PodSets();
    TwoMorePasses(p.state, group, over, p.next, env);
    CycleGoesOn(st, group, over, env);
  }

  lemma FirstPass(st: PlanState, group: seq<Sim>, over: nat, env: Env)
    requires |group| >= 2 && Distinct(group) && env == TakingTurns(st.runs, |group|) && Ready(st, over, env)
    requires LeftIn(st, env, over) == {P, Q} && Unrun(st, group)
    ensures WonPass(st, Pass(st, group, over, env), group, env, over, StartAll(group)[group[0] := {Q}], {Q})
  {
    assert group[0] in group;
    TurnsAreScheduled(st.runs, |group|);
    AllUnseen(st, env, group, over);
    PodSets();
    WinsPass(st, env, over, StartAll(group), group, over, 0, {P});
  }

  lemma PodSets()
    ensures P != Q && {P, Q} - {P} == {Q} && {Q} - {Q} == {} && {P} != {} && {Q} != {}
  {
    assert P.name[0] == 'p' && Q.name[0] == 'q';
  }

  lemma TwoMorePasses(st: PlanState, group: seq<Sim>, root: nat, over: nat, env: Env)
    requires |group| >= 2 && Distinct(group) && Ready(st, over, env) &&
      At(st, env, root, StartAll(group)[group[0] := {Q}])
    requires SetOf(group) <= st.viewOf.Keys && OwnNothing(st, group)
    requires Scheduled(env, st.runs + 1, |group|, 1, {P}) && Scheduled(env, st.runs + |group| + 1, |group|, 0, {Q})
    ensures var c := Cycle(st, group, over, env); c.ok && |c.winners| == 2 && c.leftover == {}
  {
    SecondPass(st, group, root, over, env);
    var p := Pass(st, group, over, env);
    PodSets();
    LastPass(p.state, group, root, p.next, env);
    CycleGoesOn(st, group, over, env);
  }

  lemma SecondPass(st: PlanState, group: seq<Sim>, root: nat, over: nat, env: Env)
    requires |group| >= 2 && Distinct(group) && Ready(st, over, env) &&
      At(st, env, root, StartAll(group)[group[0] := {Q}])
    requires SetOf(group) <= st.viewOf.Keys && OwnNothing(st, group) && Scheduled(env, st.runs + 1, |group|, 1, {P})
    ensures WonPass(st, Pass(st, group, over, env), group, env, root,
      StartAll(group)[group[0] := {Q}][group[1] := {Q}], {Q})
  {
    assert group[0] in group && group[1] in group && group[0] != group[1];
    PodSets();
    assert forall s :: s in group ==> s in SetOf(group);
    WinsPass(st, env, root, StartAll(group)[group[0] := {Q}], group, over, 1, {P});
  }

  lemma LastPass(st: PlanState, group: seq<Sim>, root: nat, over: nat, env: Env)
    requires |group| >= 2 && Distinct(group) && Ready(st, over, env)
    requires At(st, env, root, StartAll(group)[group[0] := {Q}][group[1] := {Q}])
    requires SetOf(group) <= st.viewOf.Keys && OwnNothing(st, group) && Scheduled(env, st.runs + 1, |group|, 0, {Q})
    ensures var c := Cycle(st, group, over, env); c.ok && |c.winners| == 1 && c.leftover == {}
  {
    assert group[0] in group && group[0] != group[1];
    PodSets();
    assert forall s :: s in group ==> s in SetOf(group);
    WinsPass(st, env, root, StartAll(group)[group[0] := {Q}][group[1] := {Q}], group, over, 0, {Q});
    CycleStops(st, group, over, env);
  }

  // ---------------------------------------------------------------------------
  // Whatever groups come before and after
  // ---------------------------------------------------------------------------

  ghost function RunsBefore(groups: seq<seq<Sim>>): nat {
    if groups == [] then 0 else |groups[0]| + RunsBefore(groups[1..])
  }

  /** The first group of two or more, after groups of at most one. */
  ghost predicate FirstBig(groups: seq<seq<Sim>>, g: nat) {
    g < |groups| && |groups[g]| >= 2 && forall i :: 0 <= i < g ==> |groups[i]| <= 1
  }

  lemma BeforeUnfolds(groups: seq<seq<Sim>>, g: nat)
    requires FirstBig(groups, g) && g > 0
    ensures FirstBig(groups[1..], g - 1) && groups[1..][g - 1] == groups[g]
    ensures RunsBefore(groups[..g]) == |groups[0]| + RunsBefore(groups[1..][..g - 1])
  {
    assert groups[..g][0] == groups[0] && groups[..g][1..] == groups[1..][..g - 1];
    forall i | 0 <= i < g - 1 ensures |groups[1..][i]| <= 1 {
      assert groups[1..][i] == groups[i + 1];
    }
  }

  lemma NotRunLater(st: PlanState, st': PlanState, groups: seq<seq<Sim>>)
    requires groups != [] && DistinctSims(groups) && NotRun(st, groups) &&
      TurnTaken(st, st', SetOf(groups[0]), |groups[0]|)
    ensures NotRun(st', groups[1..])
  {
    forall h, s | 0 <= h < |groups[1..]| && s in groups[1..][h] ensures s !in st'.viewOf && s !in st'.own {
      assert s in groups[h + 1] && s !in groups[0];
    }
  }

  lemma IdleCycle(st: PlanState, group: seq<Sim>, over: nat, env: Env)
    requires Distinct(group) && Ready(st, over, env) && LeftIn(st, env, over) == {P, Q} &&
      Unrun(st, group)
    requires Scheduled(env, st.runs + 1, |group|, -1, {P, Q})
    ensures var c := Cycle(st, group, over, env);
      c.ok && c.winners == [] && c.next == over && Ready(c.state, over, env) &&
      TurnTaken(st, c.state, SetOf(group), |group|) && LeftIn(c.state, env, over) == {P, Q}
  {
    AllUnseen(st, env, group, over);
    PassAllIdle(st, env, StartAll(group), group, over);
    PassLowersTotal(st, group, over, env, group);
    CycleStops(st, group, over, env);
  }

  lemma EarlyRunsIdle(k: nat, m: nat, first: nat, size: nat)
    requires first + size <= k + 1
    ensures Scheduled(TakingTurns(k, m), first, size, -1, {P, Q})
  {
  }

  lemma FirstNotRun(st: PlanState, groups: seq<seq<Sim>>)
    requires groups != [] && DistinctSims(groups) && NotRun(st, groups)
    ensures Distinct(groups[0]) && Unrun(st, groups[0])
  {
  }

  /** Group `g` will be the first of two or more to run, and the schedule is made for it. */
  ghost predicate Awaits(st: PlanState, groups: seq<seq<Sim>>, over: nat, env: Env, g: nat) {
    && FirstBig(groups, g) && DistinctSims(groups) && NotRun(st, groups)
    && env == TakingTurns(st.runs + RunsBefore(groups[..g]), |groups[g]|)
    && Ready(st, over, env) && LeftIn(st, env, over) == {P, Q}
  }

  lemma BigGroupFirst(st: PlanState, groups: seq<seq<Sim>>, over: nat, env: Env)
    requires Awaits(st, groups, over, env, 0)
    ensures Winners(Plan(st, groups, over, env).cycles) == 3
  {
    assert groups[..0] == [];
    FirstNotRun(st, groups);
    ThreePasses(st, groups[0], over, env);
    PlanAfterLast(st, groups, over, env);
  }

  lemma SmallGroupFirst(st: PlanState, groups: seq<seq<Sim>>, over: nat, env: Env, g: nat)
    requires g > 0 && Awaits(st, groups, over, env, g)
    ensures var c := Cycle(st, groups[0], over, env);
      c.ok && c.winners == [] && c.next == over && Awaits(c.state, groups[1..], over, env, g - 1)
  {
    FirstNotRun(st, groups);
    BeforeUnfolds(groups, g);
    EarlyRunsIdle(st.runs + RunsBefore(groups[..g]), |groups[g]|, st.runs + 1, |groups[0]|);
    IdleCycle(st, groups[0], over, env);
    NotRunLater(st, Cycle(st, groups[0], over, env).state, groups);
    LaterGroups(groups);
  }

  /** A group of two simulations gets three winners out of two pods. */
  lemma {:induction false} BigGroupOvershoots(st: PlanState, groups: seq<seq<Sim>>, over: nat, env: Env, g: nat)
    requires Awaits(st, groups, over, env, g)
    ensures Winners(Plan(st, groups, over, env).cycles) == 3
    decreases g
  {
    if g == 0 {
      BigGroupFirst(st, groups, over, env);
    } else {
      SmallGroupFirst(st, groups, over, env, g);
      PlanAfterLosing(st, groups, over, env);
      BigGroupOvershoots(Cycle(st, groups[0], over, env).state, groups[1..], over, env, g - 1);
    }
  }

  ghost function FirstBigOf(groups: seq<seq<Sim>>): (g: nat)
    requires !SmallGroups(groups)
    ensures FirstBig(groups, g)
  {
    if |groups[0]| >= 2 then 0
    else
      assert !SmallGroups(groups[1..]) by {
        var i :| 0 <= i < |groups| && |groups[i]| > 1;
        assert groups[1..][i - 1] == groups[i];
      }
      FirstBigOf(groups[1..]) + 1
  }

  ghost predicate Overshoots(groups: seq<seq<Sim>>, env: Env) {
    FreshIsReady(env.pods, env);
    Winners(Plan(Fresh(env.pods), groups, 0, env).cycles) > |env.pods|
  }

  /** For every scheduler and every choice of winners at most one node per pod, if and only if no
      group has two simulations. */
  lemma NeverOvershootsIffSmallGroups(groups: seq<seq<Sim>>)
    requires DistinctSims(groups)
    ensures (forall env: Env :: !Overshoots(groups, env)) <==> SmallGroups(groups)
  {
    if SmallGroups(groups) {
      forall env: Env ensures !Overshoots(groups, env) {
        PlanOfSinglesIsBounded(groups, env);
      }
    } else {
      var g := FirstBigOf(groups);
      var env := TakingTurns(RunsBefore(groups[..g]), |groups[g]|);
      FreshIsReady(env.pods, env);
      BigGroupOvershoots(Fresh(env.pods), groups, 0, env, g);
      PodSets();
      assert |{P, Q}| == 2;
      assert Overshoots(groups, env);
    }
  }
}
