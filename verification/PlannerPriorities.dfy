/** From node pools to the bound on plans: the groups that the planner runs are those of the
    simulations by priority, so their sizes are a matter of the priorities alone. */
module PlannerPriorities {
  import opened SimGroups
  import opened SimContents
  import PlannerTheorems
  import PlannerWorldTheorems

  function Names(sims: seq<Sim>): seq<string> {
    seq(|sims|, i requires 0 <= i < |sims| => sims[i].name)
  }

  /** What the planner runs: for each key, the simulations with that key, by their names. */
  ghost function GroupsOf(keys: seq<PriorityKey>, sims: seq<Sim>): seq<seq<string>> {
    seq(|keys|, i requires 0 <= i < |keys| => Names(WithKey(sims, keys[i])))
  }

  lemma {:induction false} WithKeyDistinct(sims: seq<Sim>, k: PriorityKey)
    requires DistinctNames(sims)
    ensures DistinctNames(WithKey(sims, k))
  {
    if sims != [] {
      var n := |sims| - 1;
      WithKeyDistinct(sims[..n], k);
      var before := WithKey(sims[..n], k);
      forall i | 0 <= i < |before| ensures before[i].name != sims[n].name {
        WithKeyHas(sims[..n], k, before[i]);
        assert before[i] in before;
        var j :| 0 <= j < n && sims[..n][j] == before[i];
      }
    }
  }

  lemma NameIsOfOneSim(sims: seq<Sim>, a: Sim, b: Sim)
    requires DistinctNames(sims) && a in sims && b in sims && a.name == b.name
    ensures a == b
  {
    var i :| 0 <= i < |sims| && sims[i] == a;
    var j :| 0 <= j < |sims| && sims[j] == b;
  }

  /** Simulations with different names are in groups without a name in common, and no name is twice in
      one group. */
  lemma GroupsAreDistinct(keys: seq<PriorityKey>, sims: seq<Sim>)
    requires GroupKeys(keys, sims) && DistinctNames(sims)
    ensures PlannerTheorems.DistinctSims(GroupsOf(keys, sims))
  {
    var groups := GroupsOf(keys, sims);
    forall g, i, j | 0 <= g < |groups| && 0 <= i < j < |groups[g]| ensures groups[g][i] != groups[g][j] {
      WithKeyDistinct(sims, keys[g]);
    }
    forall g, h, s | 0 <= g < h < |groups| && s in groups[g] ensures s !in groups[h] {
      assert Higher(keys[g], keys[h]);
      if s in groups[h] {
        var a :| 0 <= a < |groups[g]| && groups[g][a] == s;
        var b :| 0 <= b < |groups[h]| && groups[h][b] == s;
        var x, y := WithKey(sims, keys[g])[a], WithKey(sims, keys[h])[b];
        WithKeyHas(sims, keys[g], x);
        WithKeyHas(sims, keys[h], y);
        NameIsOfOneSim(sims, x, y);
      }
    }
  }

  ghost predicate PrioritiesDiffer(sims: seq<Sim>) {
    forall i, j :: 0 <= i < j < |sims| ==>
      sims[i].template.key.first != sims[j].template.key.first ||
      sims[i].template.key.second != sims[j].template.key.second
  }

  lemma {:induction false} SmallIffOnce(sims: seq<Sim>, k: PriorityKey)
    ensures |WithKey(sims, k)| <= 1 <==>
      forall i, j :: 0 <= i < j < |sims| ==> !(sims[i].template.key == k && sims[j].template.key == k)
  {
    if sims != [] {
      var n := |sims| - 1;
      SmallIffOnce(sims[..n], k);
      if i, j :| 0 <= i < j < |sims| && sims[i].template.key == k && sims[j].template.key == k {
        if j < n {
          assert sims[..n][i].template.key == k && sims[..n][j].template.key == k;
        } else {
          WithKeyHas(sims[..n], k, sims[i]);
          assert sims[..n][i] in sims[..n];
        }
      }
      if WithKey(sims[..n], k) != [] && sims[n].template.key == k {
        var x := WithKey(sims[..n], k)[0];
        WithKeyHas(sims[..n], k, x);
        var i :| 0 <= i < n && sims[..n][i] == x;
        assert sims[i].template.key == k && sims[n].template.key == k;
      }
    }
  }

  lemma SmallIffPrioritiesDiffer(keys: seq<PriorityKey>, sims: seq<Sim>)
    requires GroupKeys(keys, sims)
    ensures PlannerTheorems.SmallGroups(GroupsOf(keys, sims)) <==> PrioritiesDiffer(sims)
  {
    forall k ensures |WithKey(sims, k)| <= 1 <==>
      forall i, j :: 0 <= i < j < |sims| ==> !(sims[i].template.key == k && sims[j].template.key == k)
    {
      SmallIffOnce(sims, k);
    }
    if i, j :| 0 <= i < j < |sims| && sims[i].template.key == sims[j].template.key {
      var k := sims[i].template.key;
      assert |WithKey(sims, k)| > 1 && k in keys;
      var g :| 0 <= g < |keys| && keys[g] == k;
      assert |GroupsOf(keys, sims)[g]| > 1;
    }
  }

  /** Whatever scheduler and scorer do, a plan asks for no more nodes than there are unscheduled pods, if
      and only if no two simulations have the same pool and template priorities. */
  lemma NeverOvershootsIffPrioritiesDiffer(keys: seq<PriorityKey>, sims: seq<Sim>, max: nat)
    requires GroupKeys(keys, sims) && DistinctNames(sims)
    ensures (forall ws, env :: !PlannerWorldTheorems.Overshoots(ws, GroupsOf(keys, sims), env, max)) <==>
      PrioritiesDiffer(sims)
  {
    GroupsAreDistinct(keys, sims);
    SmallIffPrioritiesDiffer(keys, sims);
    PlannerWorldTheorems.NeverOvershootsIffSmallGroups(GroupsOf(keys, sims), max);
  }
}
