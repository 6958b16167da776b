/** The scale-out planner's passes, cycles and groups as functions of values.

    A pass runs every simulation of a group once and picks a winner among those that put a
    pod on a new node.  A cycle repeats passes until one has no winner or the winner leaves
    no pod over.  Groups are taken in order; a group is run again until a cycle of it has no
    winner.  The scheduler and the scorer's choice are arbitrary functions of the run number. */
module PlannerSpec {
  import opened ApiObjects
  import opened PlannerViews

  type Sim = string

  /** What one run does: the pods it binds, which of these go to the new node, the pods of which
      a copy comes into the view, and the pods the tracker files.  That every run of the tracker on
      a view behaves in such a way is `PlannerRefinement`; that every such behaviour is that of some
      run of the tracker is `PlannerRealisation`. */
  datatype RunBehaviour =
    RunBehaviour(fails: bool, binds: set<Pod>, onNew: set<Pod>, copies: set<Pod>, filed: set<Pod>)

  datatype Env = Env(pods: set<Pod>, scheduler: nat -> RunBehaviour, pick: (nat, nat) -> nat)

  /** `viewOf`: the view cached under a simulation's name; `own`: the pods that its view has bound
      to nodes which the simulation created since it was last reset; `filed`: the pods its tracker
      has filed since then. */
  datatype PlanState = PlanState(
    views: seq<ViewRecord>,
    viewOf: map<Sim, nat>,
    own: map<Sim, set<Pod>>,
    filed: map<Sim, set<Pod>>,
    runs: nat)

  datatype SimResult = SimResult(sim: Sim, view: nat, leftover: set<Pod>, scored: bool)

  ghost predicate Valid(st: PlanState) {
    Ordered(st.views) && forall s :: s in st.viewOf ==> st.viewOf[s] < |st.views|
  }

  function LeftIn(st: PlanState, env: Env, view: nat): set<Pod>
    requires Valid(st) && view < |st.views|
  {
    Unscheduled(st.views, env.pods, view)
  }

  function OwnOf(st: PlanState, sim: Sim): set<Pod> {
    if sim in st.own then st.own[sim] else {}
  }

  function FiledOf(st: PlanState, sim: Sim): set<Pod> {
    if sim in st.filed then st.filed[sim] else {}
  }

  // ---------------------------------------------------------------------------
  // One simulation, one group, one pass
  // ---------------------------------------------------------------------------

  /** The view cached under the name, or a new one over the current view. */
  function GetView(st: PlanState, sim: Sim, over: nat): (PlanState, nat) {
    if sim in st.viewOf then (st, st.viewOf[sim])
    else (st.(views := Open(st.views, over), viewOf := st.viewOf[sim := |st.views|]), |st.views|)
  }

  /** A run fails at once if its view shows no unscheduled pod.  Only a pod that the view shows
      as bound can have been filed; the run is scored if one of those is on a node of its own. */
  function RunSim(st: PlanState, sim: Sim, view: nat, env: Env): (PlanState, Option<SimResult>)
    requires Valid(st) && view < |st.views|
  {
    var left := LeftIn(st, env, view);
    var b := env.scheduler(st.runs + 1);
    if left == {} then (st.(runs := st.runs + 1), None)
    else
      var binds := b.binds * left;
      var own := OwnOf(st, sim) + b.onNew * binds;
      var filed := FiledOf(st, sim) + b.filed - (left - binds);
      (PlanState(Write(st.views, view, left, binds, b.copies), st.viewOf, st.own[sim := own], st.filed[sim := filed],
                 st.runs + 1),
       if b.fails then None else Some(SimResult(sim, view, left - filed, filed * own != {})))
  }

  function RunSims(st: PlanState, group: seq<Sim>, over: nat, env: Env): (PlanState, Option<seq<SimResult>>)
    requires Valid(st) && over < |st.views|
    decreases |group|
  {
    if group == [] then (st, Some([]))
    else
      ViewIsThere(st, group[0], over);
      var (st1, view) := GetView(st, group[0], over);
      RunKeepsValid(st1, group[0], view, env);
      var (st2, r) := RunSim(st1, group[0], view, env);
      if r.None? then (st2, None)
      else
        var (st3, rest) := RunSims(st2, group[1..], over, env);
        (st3, if rest.None? then None else Some([r.value] + rest.value))
  }

  function Assigned(results: seq<SimResult>): (won: seq<SimResult>)
    ensures forall i :: 0 <= i < |won| ==> won[i].scored && won[i] in results
  {
    if results == [] then []
    else (if results[0].scored then [results[0]] else []) + Assigned(results[1..])
  }

  /** A winning pass resets every simulation of the group; a pass without winner resets none. */
  function Reset(st: PlanState, group: seq<Sim>): PlanState {
    st.(own := map s | s in st.own && s !in group :: st.own[s],
        filed := map s | s in st.filed && s !in group :: st.filed[s])
  }

  datatype PassResult = PassResult(state: PlanState, ok: bool, next: nat, winner: Option<SimResult>)

  function Pass(st: PlanState, group: seq<Sim>, over: nat, env: Env): PassResult
    requires Valid(st) && over < |st.views|
  {
    var (st', results) := RunSims(st, group, over, env);
    if results.None? then PassResult(st', false, over, None)
    else
      var won := Assigned(results.value);
      if won == [] then PassResult(st', true, over, None)
      else
        var w := won[env.pick(st'.runs, |won|) % |won|];
        PassResult(Reset(st', group), true, w.view, Some(w))
  }

  // ---------------------------------------------------------------------------
  // The measure: pods a simulation can still win with
  // ---------------------------------------------------------------------------

  /** Unscheduled in its view, or bound there to one of its own nodes and perhaps not filed yet. */
  ghost function Winnable(st: PlanState, env: Env, sim: Sim): set<Pod>
    requires Valid(st)
  {
    if sim in st.viewOf then LeftIn(st, env, st.viewOf[sim]) + OwnOf(st, sim) * env.pods else env.pods
  }

  ghost function Total(st: PlanState, env: Env, sims: seq<Sim>): nat
    requires Valid(st)
  {
    if sims == [] then 0 else |Winnable(st, env, sims[0])| + Total(st, env, sims[1..])
  }

  /** No view has gained an unscheduled pod, and no simulation one that it can win with. */
  ghost predicate NoneRaised(st: PlanState, st': PlanState, env: Env)
    requires Valid(st) && Valid(st')
  {
    && |st.views| <= |st'.views|
    && (forall s :: s in st.viewOf ==> s in st'.viewOf && st'.viewOf[s] == st.viewOf[s])
    && (forall i: nat :: i < |st.views| ==> LeftIn(st', env, i) <= LeftIn(st, env, i))
    && (forall s :: Winnable(st', env, s) <= Winnable(st, env, s))
  }

  lemma SmallerSet(a: set<Pod>, b: set<Pod>)
    requires a <= b
    ensures |a| <= |b|
    ensures a != b ==> |a| < |b|
  {
    assert b == a + (b - a);
    assert |b| == |a| + |b - a|;
    if a != b {
      var x :| x in b - a;
      assert |b - a| > 0;
    }
  }

  lemma {:induction false} TotalNotRaised(st: PlanState, st': PlanState, env: Env, sims: seq<Sim>)
    requires Valid(st) && Valid(st') && NoneRaised(st, st', env)
    ensures Total(st', env, sims) <= Total(st, env, sims)
    ensures (exists s :: s in sims && Winnable(st', env, s) != Winnable(st, env, s)) ==>
      Total(st', env, sims) < Total(st, env, sims)
  {
    if sims != [] {
      SmallerSet(Winnable(st', env, sims[0]), Winnable(st, env, sims[0]));
      TotalNotRaised(st, st', env, sims[1..]);
    }
  }

  lemma WinnableAmongPods(st: PlanState, env: Env, sim: Sim)
    requires Valid(st)
    ensures |Winnable(st, env, sim)| <= |env.pods|
  {
    SmallerSet(Winnable(st, env, sim), env.pods);
  }

  lemma {:induction false} TotalBound(st: PlanState, env: Env, sims: seq<Sim>)
    requires Valid(st)
    ensures Total(st, env, sims) <= |sims| * |env.pods|
  {
    if sims != [] {
      TotalBound(st, env, sims[1..]);
      WinnableAmongPods(st, env, sims[0]);
      OneMoreTime(|sims|, |env.pods|);
    }
  }

  lemma OneMoreTime(n: nat, p: nat)
    requires n > 0
    ensures n * p == p + (n - 1) * p
  {
  }

  // ---------------------------------------------------------------------------
  // What a run and a pass do to the views
  // ---------------------------------------------------------------------------

  lemma ViewIsThere(st: PlanState, sim: Sim, over: nat)
    requires Valid(st) && over < |st.views|
    ensures var (st', view) := GetView(st, sim, over);
      Valid(st') && view < |st'.views| && sim in st'.viewOf && st'.viewOf[sim] == view && over < |st'.views|
  {
    if sim !in st.viewOf {
      OpenKeepsUnscheduled(st.views, {}, over, 0);
    }
  }

  lemma ViewRaisesNone(st: PlanState, sim: Sim, over: nat, env: Env)
    requires Valid(st) && over < |st.views|
    ensures Valid(GetView(st, sim, over).0) && GetView(st, sim, over).1 < |GetView(st, sim, over).0.views|
    ensures var (st', view) := GetView(st, sim, over);
      NoneRaised(st, st', env) &&
      LeftIn(st', env, view) == LeftIn(st, env, if sim in st.viewOf then st.viewOf[sim] else over)
  {
    ViewIsThere(st, sim, over);
    if sim !in st.viewOf {
      forall i: nat | i <= |st.views|
        ensures Unscheduled(Open(st.views, over), env.pods, i) ==
          Unscheduled(st.views, env.pods, if i == |st.views| then over else i)
      {
        OpenKeepsUnscheduled(st.views, env.pods, over, i);
      }
    }
  }

  lemma RunKeepsValid(st: PlanState, sim: Sim, view: nat, env: Env)
    requires Valid(st) && view < |st.views|
    ensures Valid(RunSim(st, sim, view, env).0) && |RunSim(st, sim, view, env).0.views| == |st.views|
    ensures RunSim(st, sim, view, env).0.viewOf == st.viewOf
  {
    WriteLowersUnscheduled(st.views, env.pods, view, {}, {}, 0);
  }

  /** A run raises no view; what it leaves over lies between what its view showed before and
      what it shows now. */
  lemma RunLowersOwnView(st: PlanState, sim: Sim, view: nat, env: Env)
    requires Valid(st) && view < |st.views|
    ensures Valid(RunSim(st, sim, view, env).0)
    ensures var (st', r) := RunSim(st, sim, view, env);
      |st'.views| == |st.views| && st'.viewOf == st.viewOf &&
      (forall i: nat :: i < |st.views| ==> LeftIn(st', env, i) <= LeftIn(st, env, i)) &&
      LeftIn(st', env, view) == LeftIn(st, env, view) - env.scheduler(st.runs + 1).binds &&
      (r.Some? ==> r.value.sim == sim && r.value.view == view) &&
      (r.Some? ==> LeftIn(st', env, view) <= r.value.leftover <= LeftIn(st, env, view))
  {
    RunKeepsValid(st, sim, view, env);
    var left, b := LeftIn(st, env, view), env.scheduler(st.runs + 1);
    if left != {} {
      forall i: nat | i < |st.views|
        ensures var views' := Write(st.views, view, left, b.binds * left, b.copies);
          Ordered(views') && Unscheduled(views', env.pods, i) <= Unscheduled(st.views, env.pods, i)
      {
        WriteLowersUnscheduled(st.views, env.pods, view, b.binds * left, b.copies, i);
      }
      WriteLowersUnscheduled(st.views, env.pods, view, b.binds * left, b.copies, view);
    }
  }

  /** A scored run has a pod in its favour that could be won before it and is not unscheduled
      after it. */
  lemma ScoredRunHasPod(st: PlanState, sim: Sim, view: nat, env: Env) returns (p: Pod)
    requires Valid(st) && view < |st.views|
    requires var r := RunSim(st, sim, view, env).1; r.Some? && r.value.scored
    ensures p in LeftIn(st, env, view) + OwnOf(st, sim)
    ensures p !in LeftIn(st, env, view) - env.scheduler(st.runs + 1).binds
  {
    var left, b := LeftIn(st, env, view), env.scheduler(st.runs + 1);
    var binds := b.binds * left;
    var filed, own := FiledOf(st, sim) + b.filed - (left - binds), OwnOf(st, sim) + b.onNew * binds;
    assert filed * own != {};
    p :| p in filed * own;
  }

  lemma NoneRaisedTransitive(a: PlanState, b: PlanState, c: PlanState, env: Env)
    requires Valid(a) && Valid(b) && Valid(c) && NoneRaised(a, b, env) && NoneRaised(b, c, env)
    ensures NoneRaised(a, c, env)
  {
    forall i: nat | i < |a.views| ensures LeftIn(c, env, i) <= LeftIn(a, env, i) {
      assert LeftIn(b, env, i) <= LeftIn(a, env, i);
    }
    forall s ensures Winnable(c, env, s) <= Winnable(a, env, s) {
      assert Winnable(b, env, s) <= Winnable(a, env, s);
    }
  }

  /** A run of a simulation on the view cached for it raises nothing. */
  lemma RunRaisesNone(st: PlanState, sim: Sim, view: nat, env: Env)
    requires Valid(st) && view < |st.views| && sim in st.viewOf && st.viewOf[sim] == view
    ensures Valid(RunSim(st, sim, view, env).0)
    ensures NoneRaised(st, RunSim(st, sim, view, env).0, env)
  {
    RunLowersOwnView(st, sim, view, env);
    var st' := RunSim(st, sim, view, env).0;
    forall s ensures Winnable(st', env, s) <= Winnable(st, env, s) {
      if s in st.viewOf {
        assert LeftIn(st', env, st.viewOf[s]) <= LeftIn(st, env, st.viewOf[s]);
        assert OwnOf(st', s) <= OwnOf(st, s) + if s == sim then LeftIn(st, env, view) else {};
      }
    }
  }

  /** The result of a simulation as its group's run leaves it: a scored one has used up a pod
      that could be won. */
  ghost predicate Fits(st: PlanState, st': PlanState, env: Env, r: SimResult)
    requires Valid(st) && Valid(st')
  {
    && r.sim in st'.viewOf && st'.viewOf[r.sim] == r.view
    && LeftIn(st', env, r.view) <= r.leftover
    && (r.scored ==> exists p :: p in Winnable(st, env, r.sim) && p !in LeftIn(st', env, r.view))
  }

  lemma FitsLater(st: PlanState, st1: PlanState, st2: PlanState, env: Env, r: SimResult)
    requires Valid(st) && Valid(st1) && Valid(st2) && NoneRaised(st1, st2, env)
    requires Fits(st, st1, env, r)
    ensures Fits(st, st2, env, r)
  {
    assert LeftIn(st2, env, r.view) <= LeftIn(st1, env, r.view);
  }

  lemma FitsEarlier(st: PlanState, st1: PlanState, st2: PlanState, env: Env, r: SimResult)
    requires Valid(st) && Valid(st1) && Valid(st2) && NoneRaised(st, st1, env)
    requires Fits(st1, st2, env, r)
    ensures Fits(st, st2, env, r)
  {
    assert Winnable(st1, env, r.sim) <= Winnable(st, env, r.sim);
  }

  /** A run on the cached view fits; own pods are among `env.pods` because they were left once. */
  lemma RunFits(st: PlanState, sim: Sim, view: nat, env: Env)
    requires Valid(st) && view < |st.views| && sim in st.viewOf && st.viewOf[sim] == view && OwnOf(st, sim) <= env.pods
    ensures Valid(RunSim(st, sim, view, env).0)
    ensures var (st', r) := RunSim(st, sim, view, env); r.Some? ==> r.value.sim == sim && Fits(st, st', env, r.value)
  {
    RunLowersOwnView(st, sim, view, env);
    var (st', r) := RunSim(st, sim, view, env);
    if r.Some? && r.value.scored {
      var p := ScoredRunHasPod(st, sim, view, env);
      assert p in Winnable(st, env, sim) && p !in LeftIn(st', env, view);
    }
  }

  /** Only pods of the request are on a simulation's own nodes. */
  ghost predicate OwnAmongPods(st: PlanState, env: Env) {
    forall s :: OwnOf(st, s) <= env.pods
  }

  lemma RunKeepsOwnAmongPods(st: PlanState, sim: Sim, view: nat, env: Env)
    requires Valid(st) && view < |st.views| && OwnAmongPods(st, env)
    ensures OwnAmongPods(RunSim(st, sim, view, env).0, env)
  {
    var st' := RunSim(st, sim, view, env).0;
    forall s ensures OwnOf(st', s) <= env.pods {
      assert OwnOf(st', s) <= OwnOf(st, s) + LeftIn(st, env, view);
    }
  }

  /** One simulation: get its view, run it. */
  lemma OneSimFits(st: PlanState, sim: Sim, over: nat, env: Env)
    requires Valid(st) && over < |st.views| && OwnAmongPods(st, env)
    ensures var (st1, view) := GetView(st, sim, over);
      Valid(st1) && view < |st1.views| &&
      var (st2, r) := RunSim(st1, sim, view, env);
      Valid(st2) && over < |st2.views| && NoneRaised(st, st2, env) && OwnAmongPods(st2, env) &&
      (r.Some? ==> r.value.sim == sim && Fits(st, st2, env, r.value))
  {
    ViewIsThere(st, sim, over);
    ViewRaisesNone(st, sim, over, env);
    var (st1, view) := GetView(st, sim, over);
    assert OwnAmongPods(st1, env) by {
      assert forall s :: OwnOf(st1, s) == OwnOf(st, s);
    }
    RunKeepsValid(st1, sim, view, env);
    RunRaisesNone(st1, sim, view, env);
    RunFits(st1, sim, view, env);
    RunKeepsOwnAmongPods(st1, sim, view, env);
    var (st2, r) := RunSim(st1, sim, view, env);
    NoneRaisedTransitive(st, st1, st2, env);
    if r.Some? {
      FitsEarlier(st, st1, st2, env, r.value);
    }
  }

  lemma {:induction false} RunSimsFit(st: PlanState, group: seq<Sim>, over: nat, env: Env)
    requires Valid(st) && over < |st.views| && OwnAmongPods(st, env)
    ensures var (st', results) := RunSims(st, group, over, env);
      Valid(st') && over < |st'.views| && NoneRaised(st, st', env) && OwnAmongPods(st', env) &&
      (results.Some? ==> |results.value| == |group|) &&
      (results.Some? ==>
        forall i :: 0 <= i < |group| ==> results.value[i].sim == group[i] && Fits(st, st', env, results.value[i]))
    decreases |group|
  {
    if group != [] {
      OneSimFits(st, group[0], over, env);
      var (st1, view) := GetView(st, group[0], over);
      var (st2, r) := RunSim(st1, group[0], view, env);
      if r.Some? {
        RunSimsFit(st2, group[1..], over, env);
        var (st3, rest) := RunSims(st2, group[1..], over, env);
        NoneRaisedTransitive(st, st2, st3, env);
        if rest.Some? {
          FitsLater(st, st2, st3, env, r.value);
          forall i | 0 <= i < |rest.value| ensures Fits(st, st3, env, rest.value[i]) {
            FitsEarlier(st, st2, st3, env, rest.value[i]);
          }
        }
      }
    }
  }

  lemma ResetRaisesNone(st: PlanState, group: seq<Sim>, env: Env)
    requires Valid(st) && OwnAmongPods(st, env)
    ensures Valid(Reset(st, group)) && NoneRaised(st, Reset(st, group), env) && OwnAmongPods(Reset(st, group), env)
    ensures forall s :: s in group ==> OwnOf(Reset(st, group), s) == {}
  {
    var st' := Reset(st, group);
    forall s ensures OwnOf(st', s) <= OwnOf(st, s) && Winnable(st', env, s) <= Winnable(st, env, s) {
      if s in st.viewOf {
        assert LeftIn(st', env, st.viewOf[s]) == LeftIn(st, env, st.viewOf[s]);
      }
    }
  }

  /** What a pass does: nothing is raised; without a winner the view stays, with one the next pass
      runs over the winner's own cached view, and the winner has fewer pods left to win with. */
  ghost predicate PassFits(st: PlanState, group: seq<Sim>, over: nat, env: Env, p: PassResult)
    requires Valid(st)
  {
    && Valid(p.state) && p.next < |p.state.views| && NoneRaised(st, p.state, env) && OwnAmongPods(p.state, env)
    && (p.winner.None? ==> p.next == over)
    && (p.winner.Some? ==>
        var w := p.winner.value;
        && w.sim in group && w.sim in p.state.viewOf && p.next == p.state.viewOf[w.sim]
        && LeftIn(p.state, env, p.next) <= w.leftover
        && Winnable(p.state, env, w.sim) == LeftIn(p.state, env, p.next) < Winnable(st, env, w.sim))
  }

  lemma PassLowersWinner(st: PlanState, group: seq<Sim>, over: nat, env: Env)
    requires Valid(st) && over < |st.views| && OwnAmongPods(st, env)
    ensures PassFits(st, group, over, env, Pass(st, group, over, env))
  {
    RunSimsFit(st, group, over, env);
    var p := Pass(st, group, over, env);
    var st' := RunSims(st, group, over, env).0;
    if p.winner.Some? {
      var w := p.winner.value;
      ResetRaisesNone(st', group, env);
      NoneRaisedTransitive(st, st', p.state, env);
      assert w.sim in group && Fits(st, st', env, w);
      FitsLater(st, st', p.state, env, w);
      assert Winnable(p.state, env, w.sim) == LeftIn(p.state, env, p.next);
      assert Winnable(p.state, env, w.sim) <= Winnable(st, env, w.sim);
    }
  }

  lemma PassLowersTotal(st: PlanState, group: seq<Sim>, over: nat, env: Env, sims: seq<Sim>)
    requires Valid(st) && over < |st.views| && OwnAmongPods(st, env) && (forall s :: s in group ==> s in sims)
    ensures var p := Pass(st, group, over, env);
      Valid(p.state) && p.next < |p.state.views| && OwnAmongPods(p.state, env) &&
      Total(p.state, env, sims) <= Total(st, env, sims) &&
      (p.winner.Some? ==> Total(p.state, env, sims) < Total(st, env, sims))
  {
    PassLowersWinner(st, group, over, env);
    TotalNotRaised(st, Pass(st, group, over, env).state, env, sims);
  }

  // ---------------------------------------------------------------------------
  // When a win lowers the winner's own view
  // ---------------------------------------------------------------------------

  /** Whatever the run does, being scored means fewer unscheduled pods in its view, if and only if
      every pod on the simulation's own nodes is still unscheduled there: after a reset, say, when
      there is none.  Otherwise an event about such a pod that an earlier run did not poll makes
      the simulation win without binding anything. */
  lemma WinLowersViewIff(st: PlanState, sim: Sim, view: nat, pods: set<Pod>)
    requires Valid(st) && view < |st.views| && Unscheduled(st.views, pods, view) != {}
    ensures (forall env: Env :: env.pods == pods ==> WinLowersView(st, sim, view, env)) <==>
      OwnOf(st, sim) <= Unscheduled(st.views, pods, view)
  {
    var left := Unscheduled(st.views, pods, view);
    if OwnOf(st, sim) <= left {
      forall env: Env | env.pods == pods ensures WinLowersView(st, sim, view, env) {
        OwnLeftMeansLowered(st, sim, view, env);
      }
    } else {
      var p :| p in OwnOf(st, sim) && p !in left;
      var env := Env(pods, n => RunBehaviour(false, {}, {}, {}, {p}), (_, _) => 0);
      RunLowersOwnView(st, sim, view, env);
      assert p in (FiledOf(st, sim) + {p} - (left - {} * left)) * (OwnOf(st, sim) + {} * ({} * left));
      assert !WinLowersView(st, sim, view, env);
    }
  }

  ghost predicate WinLowersView(st: PlanState, sim: Sim, view: nat, env: Env)
    requires Valid(st) && view < |st.views|
  {
    RunKeepsValid(st, sim, view, env);
    var (st', r) := RunSim(st, sim, view, env);
    r.Some? && r.value.scored ==> LeftIn(st', env, view) < LeftIn(st, env, view)
  }

  lemma OwnLeftMeansLowered(st: PlanState, sim: Sim, view: nat, env: Env)
    requires Valid(st) && view < |st.views| && OwnOf(st, sim) <= LeftIn(st, env, view)
    ensures WinLowersView(st, sim, view, env)
  {
    RunLowersOwnView(st, sim, view, env);
    var r := RunSim(st, sim, view, env).1;
    if r.Some? && r.value.scored {
      var p := ScoredRunHasPod(st, sim, view, env);
    }
  }

  // ---------------------------------------------------------------------------
  // Cycles and groups
  // ---------------------------------------------------------------------------

  datatype CycleResult = CycleResult(state: PlanState, ok: bool, next: nat, winners: seq<SimResult>, leftover: set<Pod>)

  /** What every state of the planner satisfies. */
  ghost predicate Ready(st: PlanState, over: nat, env: Env) {
    Valid(st) && over < |st.views| && OwnAmongPods(st, env)
  }

  /** Passes until there is no winner or nothing is left over. */
  ghost function Cycle(st: PlanState, group: seq<Sim>, over: nat, env: Env): CycleResult
    requires Ready(st, over, env)
    decreases Total(st, env, group)
  {
    var p := Pass(st, group, over, env);
    PassLowersTotal(st, group, over, env, group);
    if !p.ok || p.winner.None? then CycleResult(p.state, p.ok, p.next, [], {})
    else if p.winner.value.leftover == {} then CycleResult(p.state, true, p.next, [p.winner.value], {})
    else
      var rest := Cycle(p.state, group, p.next, env);
      CycleResult(rest.state, rest.ok, rest.next, [p.winner.value] + rest.winners,
        if rest.winners == [] then p.winner.value.leftover else rest.leftover)
  }

  lemma CycleStops(st: PlanState, group: seq<Sim>, over: nat, env: Env)
    requires Ready(st, over, env)
    requires var p := Pass(st, group, over, env); !(p.ok && p.winner.Some? && p.winner.value.leftover != {})
    ensures var p, c := Pass(st, group, over, env), Cycle(st, group, over, env);
      c.state == p.state && c.ok == p.ok && c.next == p.next && c.leftover == {} &&
      c.winners == if p.winner.Some? then [p.winner.value] else []
  {
  }

  lemma CycleGoesOn(st: PlanState, group: seq<Sim>, over: nat, env: Env)
    requires Ready(st, over, env)
    requires var p := Pass(st, group, over, env); p.ok && p.winner.Some? && p.winner.value.leftover != {}
    ensures var p := Pass(st, group, over, env);
      Ready(p.state, p.next, env) &&
      var rest, c := Cycle(p.state, group, p.next, env), Cycle(st, group, over, env);
      c.state == rest.state && c.ok == rest.ok && c.next == rest.next && c.winners == [p.winner.value] + rest.winners &&
      c.leftover == if rest.winners == [] then p.winner.value.leftover else rest.leftover
  {
    PassLowersTotal(st, group, over, env, group);
  }

  /** Every winner of a cycle uses up at least one unit of the measure. */
  lemma {:induction false} CycleWinnersBounded(st: PlanState, group: seq<Sim>, over: nat, env: Env, sims: seq<Sim>)
    requires Ready(st, over, env) && (forall s :: s in group ==> s in sims)
    ensures var c := Cycle(st, group, over, env);
      Ready(c.state, c.next, env) &&
      |c.winners| + Total(c.state, env, sims) <= Total(st, env, sims) &&
      (c.winners == [] && c.ok ==> c.next == over)
    decreases Total(st, env, group)
  {
    PassLowersWinner(st, group, over, env);
    PassLowersTotal(st, group, over, env, sims);
    PassLowersTotal(st, group, over, env, group);
    var p := Pass(st, group, over, env);
    if p.ok && p.winner.Some? && p.winner.value.leftover != {} {
      CycleWinnersBounded(p.state, group, p.next, env, sims);
    }
  }

  datatype PlanResult = PlanResult(state: PlanState, ok: bool, next: nat, cycles: seq<CycleResult>)

  ghost function GroupTotal(st: PlanState, env: Env, groups: seq<seq<Sim>>): nat
    requires Valid(st)
  {
    if groups == [] then 0 else Total(st, env, groups[0])
  }

  /** The groups in order; `cycles` are the cycles that had a winner. */
  ghost function Plan(st: PlanState, groups: seq<seq<Sim>>, over: nat, env: Env): PlanResult
    requires Ready(st, over, env)
    decreases |groups|, GroupTotal(st, env, groups)
  {
    if groups == [] then PlanResult(st, true, over, [])
    else
      var c := Cycle(st, groups[0], over, env);
      CycleWinnersBounded(st, groups[0], over, env, groups[0]);
      if !c.ok then PlanResult(c.state, false, c.next, [])
      else if c.winners == [] then Plan(c.state, groups[1..], c.next, env)
      else if c.leftover == {} then PlanResult(c.state, true, c.next, [c])
      else
        var rest := Plan(c.state, groups, c.next, env);
        PlanResult(rest.state, rest.ok, rest.next, [c] + rest.cycles)
  }

  ghost function Winners(cycles: seq<CycleResult>): nat {
    if cycles == [] then 0 else |cycles[0].winners| + Winners(cycles[1..])
  }

  lemma WinnersOneMore(c: CycleResult, rest: seq<CycleResult>)
    ensures Winners([c] + rest) == |c.winners| + Winners(rest)
  {
    assert ([c] + rest)[1..] == rest;
  }

  /** A plan, unfolded by its first cycle. */
  lemma PlanAfterFailure(st: PlanState, groups: seq<seq<Sim>>, over: nat, env: Env)
    requires Ready(st, over, env) && groups != [] && !Cycle(st, groups[0], over, env).ok
    ensures var c := Cycle(st, groups[0], over, env);
      Plan(st, groups, over, env) == PlanResult(c.state, false, c.next, [])
  {
  }

  lemma PlanAfterLosing(st: PlanState, groups: seq<seq<Sim>>, over: nat, env: Env)
    requires Ready(st, over, env) && groups != []
    requires Cycle(st, groups[0], over, env).ok && Cycle(st, groups[0], over, env).winners == []
    ensures var c := Cycle(st, groups[0], over, env);
      Ready(c.state, c.next, env) && Plan(st, groups, over, env) == Plan(c.state, groups[1..], c.next, env)
  {
    CycleWinnersBounded(st, groups[0], over, env, groups[0]);
  }

  lemma PlanAfterLast(st: PlanState, groups: seq<seq<Sim>>, over: nat, env: Env)
    requires Ready(st, over, env) && groups != []
    requires var c := Cycle(st, groups[0], over, env); c.ok && c.winners != [] && c.leftover == {}
    ensures var c, p := Cycle(st, groups[0], over, env), Plan(st, groups, over, env);
      p == PlanResult(c.state, true, c.next, [c]) && Winners(p.cycles) == |c.winners|
  {
    WinnersOneMore(Cycle(st, groups[0], over, env), []);
  }

  lemma PlanAfterWinning(st: PlanState, groups: seq<seq<Sim>>, over: nat, env: Env)
    requires Ready(st, over, env) && groups != []
    requires var c := Cycle(st, groups[0], over, env); c.ok && c.winners != [] && c.leftover != {}
    ensures var c := Cycle(st, groups[0], over, env);
      Ready(c.state, c.next, env) && GroupTotal(c.state, env, groups) < GroupTotal(st, env, groups) &&
      var p, rest := Plan(st, groups, over, env), Plan(c.state, groups, c.next, env);
      p == PlanResult(rest.state, rest.ok, rest.next, [c] + rest.cycles) &&
        Winners(p.cycles) == |c.winners| + Winners(rest.cycles)
  {
    CycleWinnersBounded(st, groups[0], over, env, groups[0]);
    var c := Cycle(st, groups[0], over, env);
    WinnersOneMore(c, Plan(c.state, groups, c.next, env).cycles);
  }

  /** For any number of simulations per group: never more winners than pods times
      simulations, whatever the scheduler does. */
  lemma {:induction false} PlanWinnersBounded(st: PlanState, groups: seq<seq<Sim>>, over: nat, env: Env, sims: seq<Sim>)
    requires Ready(st, over, env)
    requires forall g, s :: g in groups && s in g ==> s in sims
    ensures var p := Plan(st, groups, over, env);
      Valid(p.state) && Winners(p.cycles) + Total(p.state, env, sims) <= Total(st, env, sims)
    ensures Winners(Plan(st, groups, over, env).cycles) <= |sims| * |env.pods|
    decreases |groups|, GroupTotal(st, env, groups)
  {
    TotalBound(st, env, sims);
    if groups != [] {
      assert groups[0] in groups;
      CycleWinnersBounded(st, groups[0], over, env, sims);
      CycleWinnersBounded(st, groups[0], over, env, groups[0]);
      var c := Cycle(st, groups[0], over, env);
      if !c.ok {
        PlanAfterFailure(st, groups, over, env);
      } else if c.winners == [] {
        PlanAfterLosing(st, groups, over, env);
        PlanWinnersBounded(c.state, groups[1..], c.next, env, sims);
      } else if c.leftover == {} {
        PlanAfterLast(st, groups, over, env);
      } else {
        PlanAfterWinning(st, groups, over, env);
        PlanWinnersBounded(c.state, groups, c.next, env, sims);
      }
    }
  }
}
