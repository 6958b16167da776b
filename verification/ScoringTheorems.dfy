/** Scores as functions of the multiset of scheduled pods. */
module ScoringTheorems {
  import opened ApiObjects
  import opened ScoringSpec

  // ---------------------------------------------------------------------------
  // The weighted sum does not depend on the order it is taken in
  // ---------------------------------------------------------------------------

  lemma {:induction false} UnitsPick(m: Resources, w: Weights, keys: set<string>, k: string)
    requires keys <= w.Keys && k in keys
    ensures UnitsOver(m, w, keys) == Weighed(m, w, k) + UnitsOver(m, w, keys - {k})
    decreases keys
  {
    var j :| j in keys && UnitsOver(m, w, keys) == Weighed(m, w, j) + UnitsOver(m, w, keys - {j});
    if j != k {
      UnitsPick(m, w, keys - {j}, k);
      UnitsPick(m, w, keys - {k}, j);
      assert keys - {j} - {k} == keys - {k} - {j};
    }
  }

  /** Resources the map does not have add nothing. */
  lemma {:induction false} UnitsElsewhere(m: Resources, w: Weights, keys: set<string>)
    requires keys <= w.Keys
    ensures UnitsOver(m, w, keys) == UnitsOver(m, w, keys * m.Keys)
    decreases keys
  {
    if keys != {} {
      var k :| k in keys;
      UnitsPick(m, w, keys, k);
      UnitsElsewhere(m, w, keys - {k});
      if k in m {
        UnitsPick(m, w, keys * m.Keys, k);
        assert keys * m.Keys - {k} == (keys - {k}) * m.Keys;
      } else {
        assert keys * m.Keys == (keys - {k}) * m.Keys;
      }
    }
  }

  /** Weighing is additive: `c` is `a` plus `b`, resource by resource. */
  lemma {:induction false} UnitsAdditive(a: Resources, b: Resources, c: Resources, w: Weights, keys: set<string>)
    requires keys <= w.Keys
    requires forall r :: r in keys ==> Amount(c, r) == Amount(a, r) + Amount(b, r)
    ensures UnitsOver(c, w, keys) == UnitsOver(a, w, keys) + UnitsOver(b, w, keys)
    decreases keys
  {
    if keys != {} {
      var k :| k in keys;
      UnitsPick(a, w, keys, k);
      UnitsPick(b, w, keys, k);
      UnitsPick(c, w, keys, k);
      UnitsAdditive(a, b, c, w, keys - {k});
      WeighedAdditive(a, b, c, w, k);
    }
  }

  lemma WeighedAdditive(a: Resources, b: Resources, c: Resources, w: Weights, r: string)
    requires r in w && Amount(c, r) == Amount(a, r) + Amount(b, r)
    ensures Weighed(c, w, r) == Weighed(a, w, r) + Weighed(b, w, r)
  {
  }

  lemma UnitsPlus(a: Resources, b: Resources, w: Weights)
    ensures Units(Plus(a, b), w) == Units(a, w) + Units(b, w)
  {
    UnitsAdditive(a, b, Plus(a, b), w, w.Keys);
  }

  /** The part of `m` that a node offers. */
  function Offered(m: Resources, allocatable: Resources): Resources {
    map r | r in m && r in allocatable :: m[r]
  }

  lemma UnitsMinus(a: Resources, b: Resources, w: Weights)
    ensures Units(Minus(a, b), w) == Units(a, w) - Units(Offered(b, a), w)
  {
    UnitsAdditive(Minus(a, b), Offered(b, a), a, w, w.Keys);
  }

  lemma {:induction false} UnitsNonNegative(m: Resources, w: Weights, keys: set<string>)
    requires keys <= w.Keys
    requires forall r :: r in w ==> w[r] >= 0.0
    requires forall r :: r in m ==> m[r] >= 0.0
    ensures UnitsOver(m, w, keys) >= 0.0
    decreases keys
  {
    if keys != {} {
      var k :| k in keys;
      UnitsPick(m, w, keys, k);
      UnitsNonNegative(m, w, keys - {k});
      assert Weighed(m, w, k) >= 0.0;
    }
  }

  // ---------------------------------------------------------------------------
  // Totals over pods
  // ---------------------------------------------------------------------------

  /** The units of each pod's requests (only offered resources, if `only` is given), added up. */
  ghost function PodUnits(p: PodResources, only: Option<Resources>, w: Weights): real {
    Units(if only.Some? then Offered(p.requests, only.value) else p.requests, w)
  }

  ghost function TotalUnits(pods: seq<PodResources>, only: Option<Resources>, w: Weights): real {
    if pods == [] then 0.0
    else TotalUnits(pods[..|pods| - 1], only, w) + PodUnits(pods[|pods| - 1], only, w)
  }

  lemma {:induction false} UnitsOfNothing(w: Weights, keys: set<string>)
    requires keys <= w.Keys
    ensures UnitsOver(map[], w, keys) == 0.0
  {
    var nothing: Resources := map[];
    UnitsElsewhere(nothing, w, keys);
    assert keys * nothing.Keys == {};
  }

  /** Adding up resources first and weighing once is weighing each pod and adding up. */
  lemma {:induction false} UnitsOfRequested(pods: seq<PodResources>, w: Weights)
    ensures Units(Requested(pods), w) == TotalUnits(pods, None, w)
  {
    if pods == [] {
      UnitsOfNothing(w, w.Keys);
    } else {
      var n := |pods| - 1;
      UnitsOfRequested(pods[..n], w);
      UnitsPlus(Requested(pods[..n]), pods[n].requests, w);
    }
  }

  lemma OfferedPlus(x: Resources, y: Resources, a: Resources)
    ensures Offered(Plus(x, y), a) == Plus(Offered(x, a), Offered(y, a))
  {
  }

  lemma {:induction false} UnitsOfOffered(pods: seq<PodResources>, a: Resources, w: Weights)
    ensures Units(Offered(Requested(pods), a), w) == TotalUnits(pods, Some(a), w)
  {
    if pods == [] {
      assert Offered(map[], a) == map[];
      UnitsOfNothing(w, w.Keys);
    } else {
      var n := |pods| - 1;
      UnitsOfOffered(pods[..n], a, w);
      UnitsPlus(Offered(Requested(pods[..n]), a), Offered(pods[n].requests, a), w);
      OfferedPlus(Requested(pods[..n]), pods[n].requests, a);
    }
  }

  lemma {:induction false} TotalAppend(a: seq<PodResources>, b: seq<PodResources>, only: Option<Resources>, w: Weights)
    ensures TotalUnits(a + b, only, w) == TotalUnits(a, only, w) + TotalUnits(b, only, w)
    decreases |b|
  {
    if b == [] {
      assert a + b == a;
    } else {
      var n := |b| - 1;
      assert (a + b)[..|a + b| - 1] == a + b[..n];
      TotalAppend(a, b[..n], only, w);
    }
  }

  lemma TotalOfOne(p: PodResources, only: Option<Resources>, w: Weights)
    ensures TotalUnits([p], only, w) == PodUnits(p, only, w)
  {
    assert [p][..0] == [];
  }

  lemma Removed(pods: seq<PodResources>, i: nat)
    requires i < |pods|
    ensures multiset(pods[..i] + pods[i + 1..]) == multiset(pods) - multiset{pods[i]}
  {
    assert pods == pods[..i] + [pods[i]] + pods[i + 1..];
  }

  lemma TotalWithout(pods: seq<PodResources>, i: nat, only: Option<Resources>, w: Weights)
    requires i < |pods|
    ensures TotalUnits(pods, only, w) == TotalUnits(pods[..i] + pods[i + 1..], only, w) + PodUnits(pods[i], only, w)
  {
    assert pods == pods[..i] + [pods[i]] + pods[i + 1..];
    TotalAppend(pods[..i] + [pods[i]], pods[i + 1..], only, w);
    TotalAppend(pods[..i], [pods[i]], only, w);
    TotalAppend(pods[..i], pods[i + 1..], only, w);
    TotalOfOne(pods[i], only, w);
  }

  lemma LastIsIn(a: seq<PodResources>, b: seq<PodResources>) returns (i: nat)
    requires multiset(a) == multiset(b) && a != []
    ensures i < |b| && b[i] == a[|a| - 1]
    ensures multiset(a[..|a| - 1]) == multiset(b[..i] + b[i + 1..])
  {
    var n := |a| - 1;
    assert a[n] in multiset(b);
    i :| 0 <= i < |b| && b[i] == a[n];
    assert a[..n] + a[n + 1..] == a[..n];
    Removed(a, n);
    Removed(b, i);
  }

  /** The total depends only on which pods there are, and how often. */
  lemma {:induction false} TotalOfMultiset(
    a: seq<PodResources>, b: seq<PodResources>, only: Option<Resources>, w: Weights)
    requires multiset(a) == multiset(b)
    ensures TotalUnits(a, only, w) == TotalUnits(b, only, w)
    decreases |a|
  {
    if a == [] {
      assert multiset(b) == multiset{};
      assert b == [];
    } else {
      var n := |a| - 1;
      var i := LastIsIn(a, b);
      TotalWithout(b, i, only, w);
      TotalOfMultiset(a[..n], b[..i] + b[i + 1..], only, w);
    }
  }

  // ---------------------------------------------------------------------------
  // The scores
  // ---------------------------------------------------------------------------

  /** Closed forms: the cost score weighs each pod on its own; the waste score takes from the
      node's units those of each pod's requests for resources the node offers. */
  lemma ValuesInClosedForm(allocatable: Resources, pods: seq<PodResources>, w: Weights, price: real)
    ensures CostValue(pods, w, price) == if price == 0.0 then -1 else Round(TotalUnits(pods, None, w) * 100.0 / price)
    ensures WasteValue(allocatable, pods, w) ==
      Truncate((Units(allocatable, w) - TotalUnits(pods, Some(allocatable), w)) * 100.0)
  {
    UnitsOfRequested(pods, w);
    UnitsMinus(allocatable, Requested(pods), w);
    UnitsOfOffered(pods, allocatable, w);
  }

  lemma ValuesDependOnMultiset(a: Resources, pods: seq<PodResources>, pods': seq<PodResources>, w: Weights, price: real)
    requires multiset(pods) == multiset(pods')
    ensures CostValue(pods, w, price) == CostValue(pods', w, price)
    ensures WasteValue(a, pods, w) == WasteValue(a, pods', w)
  {
    ValuesInClosedForm(a, pods, w, price);
    ValuesInClosedForm(a, pods', w, price);
    TotalOfMultiset(pods, pods', None, w);
    TotalOfMultiset(pods, pods', Some(a), w);
  }

  /** Reordering pods, moving them between assignments, or adding assignments without pods
      changes neither score. */
  lemma ScoresDependOnMultiset(args: ScorerArgs, args': ScorerArgs, w: Weights, price: real)
    requires args.scaled.allocatable == args'.scaled.allocatable
    requires multiset(Scheduled(args)) == multiset(Scheduled(args'))
    ensures CostValue(Scheduled(args), w, price) == CostValue(Scheduled(args'), w, price)
    ensures WasteValue(args.scaled.allocatable, Scheduled(args), w) ==
      WasteValue(args.scaled.allocatable, Scheduled(args'), w)
  {
    ValuesDependOnMultiset(args.scaled.allocatable, Scheduled(args), Scheduled(args'), w, price);
  }

  /** Assignments that hold no pod, such as the zero values at the head of the list of other
      assignments, contribute no pod. */
  lemma {:induction false} EmptyAssignmentsAddNoPod(others: seq<NodePodAssignment>, zeros: seq<NodePodAssignment>)
    requires forall z :: z in zeros ==> z.pods == []
    ensures PodsOf(zeros + others) == PodsOf(others)
    decreases |zeros| + |others|
  {
    if others != [] {
      var n := |others| - 1;
      assert (zeros + others)[..|zeros + others| - 1] == zeros + others[..n];
      EmptyAssignmentsAddNoPod(others[..n], zeros);
    } else if zeros != [] {
      assert zeros + others == zeros;
      var n := |zeros| - 1;
      assert zeros[n] in zeros;
      assert zeros[..n] + [] == zeros[..n];
      EmptyAssignmentsAddNoPod([], zeros[..n]);
    }
  }

  lemma RoundMonotone(x: real, y: real)
    requires x <= y
    ensures Round(x) <= Round(y)
  {
  }

  lemma TruncateMonotone(x: real, y: real)
    requires x <= y
    ensures Truncate(x) <= Truncate(y)
  {
  }

  lemma DivideMonotone(x: real, y: real, d: real)
    requires x <= y && d > 0.0
    ensures x / d <= y / d
  {
  }

  /** With non-negative weights and requests and a positive price, one more pod never lowers
      the cost score and never raises the waste score, wherever it is put. */
  lemma ExtraPodIsMonotone(
    allocatable: Resources, pods: seq<PodResources>, p: PodResources, pods': seq<PodResources>, w: Weights, price: real)
    requires multiset(pods') == multiset(pods) + multiset{p}
    requires (forall r :: r in w ==> w[r] >= 0.0) && (forall r :: r in p.requests ==> p.requests[r] >= 0.0)
    requires price > 0.0
    ensures CostValue(pods, w, price) <= CostValue(pods', w, price)
    ensures WasteValue(allocatable, pods', w) <= WasteValue(allocatable, pods, w)
  {
    var offered := Some(allocatable);
    ValuesInClosedForm(allocatable, pods, w, price);
    ValuesInClosedForm(allocatable, pods', w, price);
    assert multiset(pods + [p]) == multiset(pods');
    ExtraPodAdds(pods, p, pods', None, w);
    ExtraPodAdds(pods, p, pods', offered, w);
    var x, y := TotalUnits(pods, None, w) * 100.0, TotalUnits(pods', None, w) * 100.0;
    DivideMonotone(x, y, price);
    RoundMonotone(x / price, y / price);
    TruncateMonotone((Units(allocatable, w) - TotalUnits(pods', offered, w)) * 100.0,
                     (Units(allocatable, w) - TotalUnits(pods, offered, w)) * 100.0);
  }

  lemma ExtraPodAdds(
    pods: seq<PodResources>, p: PodResources, pods': seq<PodResources>, only: Option<Resources>, w: Weights)
    requires multiset(pods + [p]) == multiset(pods')
    requires (forall r :: r in w ==> w[r] >= 0.0) && (forall r :: r in p.requests ==> p.requests[r] >= 0.0)
    ensures TotalUnits(pods', only, w) >= TotalUnits(pods, only, w)
  {
    TotalOfMultiset(pods', pods + [p], only, w);
    TotalAppend(pods, [p], only, w);
    TotalOfOne(p, only, w);
    UnitsNonNegative(if only.Some? then Offered(p.requests, only.value) else p.requests, w, w.Keys);
  }
}
