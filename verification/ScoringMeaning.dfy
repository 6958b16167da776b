/** Scores and choices in plain numbers: weights times quantities, roundings, prices. */
module ScoringMeaning {
  import opened ApiObjects
  import opened ScoringSpec
  import opened ScoringTheorems
  import opened SelectionSpec
  import opened NodeScorers

  // ---------------------------------------------------------------------------
  // Units
  // ---------------------------------------------------------------------------

  /** A quantity counts with its weight; a resource without weight counts nothing. */
  lemma UnitsOfOne(r: string, q: real, w: Weights)
    ensures Units(map[r := q], w) == if r in w then w[r] * q else 0.0
  {
    var m: Resources := map[r := q];
    UnitsElsewhere(m, w, w.Keys);
    if r in w {
      assert w.Keys * m.Keys == {r};
      UnitsPick(m, w, {r}, r);
    } else {
      assert w.Keys * m.Keys == {};
    }
  }

  /** Together with the units of nothing, this fixes the units of every list of resources. */
  lemma UnitsByResource(m: Resources, r: string, w: Weights)
    requires r in m
    ensures Units(map[], w) == 0.0
    ensures Units(m, w) == (if r in w then w[r] * m[r] else 0.0) + Units(m - {r}, w)
  {
    UnitsOfNothing(w, w.Keys);
    UnitsOfOne(r, m[r], w);
    UnitsPlus(map[r := m[r]], m - {r}, w);
    assert Plus(map[r := m[r]], m - {r}) == m;
  }

  // ---------------------------------------------------------------------------
  // Roundings
  // ---------------------------------------------------------------------------

  /** To the nearest integer, and from halfway away from zero. */
  lemma RoundIsNearest(x: real)
    ensures x >= 0.0 ==> -0.5 < Round(x) as real - x <= 0.5
    ensures x <= 0.0 ==> -0.5 <= Round(x) as real - x < 0.5
  {
  }

  /** To the next integer on the side of zero. */
  lemma TruncateIsTowardZero(x: real)
    ensures x >= 0.0 ==> 0 <= Truncate(x) && 0.0 <= x - Truncate(x) as real < 1.0
    ensures x <= 0.0 ==> Truncate(x) <= 0 && -1.0 < x - Truncate(x) as real <= 0.0
  {
  }

  // ---------------------------------------------------------------------------
  // The score of a simulation's outcome
  // ---------------------------------------------------------------------------

  /** The pods that count: those of the first assignment to a new node, then those of every other
      assignment. */
  lemma ScheduledInParts(args: ScorerArgs, others: seq<NodePodAssignment>, last: NodePodAssignment)
    ensures args.others == [] ==> Scheduled(args) == args.scaled.pods
    ensures args.others == others + [last] ==>
      Scheduled(args) == args.scaled.pods + PodsOf(others) + last.pods
    ensures PodsOf([]) == [] && PodsOf(others + [last]) == PodsOf(others) + last.pods
  {
    assert (others + [last])[..|others|] == others;
  }

  /** The score carries the name, the placement and the leftover pods of the outcome, and what its
      first new node can allocate; the value is the units of the scheduled pods per price, or the
      units of the node that none of them asks for. */
  lemma ScoreOfOutcome(st: Strategy, o: SimOutcome, t: Tables)
    requires o.assignments != []
    ensures var score, i := ScoreFor(st, o, t), o.placement.instanceType;
      var at := (o.placement.region, i);
      var node, pods := o.assignments[0], o.assignments[0].pods + PodsOf(o.others);
      (i !in t.weights ==> score == NoWeights(i)) &&
      (i in t.weights && st == LeastCost && at !in t.prices ==> score == NoPrice(i)) &&
      (i in t.weights && (st == LeastCost ==> at in t.prices) ==>
        score.Scored? && var x := score.value;
        x.name == o.name && x.placement == o.placement &&
        x.allocatable == node.allocatable && x.unscheduled == o.leftover &&
        x.value ==
          if st == LeastWaste then
            var offered := Some(node.allocatable);
            Truncate((Units(node.allocatable, t.weights[i]) - TotalUnits(pods, offered, t.weights[i])) * 100.0)
          else if t.prices[at] == 0.0 then -1
          else Round(TotalUnits(pods, None, t.weights[i]) * 100.0 / t.prices[at]))
  {
    var i, at := o.placement.instanceType, (o.placement.region, o.placement.instanceType);
    if i in t.weights {
      ValuesInClosedForm(o.assignments[0].allocatable, o.assignments[0].pods + PodsOf(o.others), t.weights[i],
        if at in t.prices then t.prices[at] else 0.0);
    }
  }

  // ---------------------------------------------------------------------------
  // The choice
  // ---------------------------------------------------------------------------

  lemma WinnerIsOptimal(st: Strategy, t: Tables, s: seq<NodeScore>, rand: nat, x: NodeScore)
    requires Choice(st, t, s, rand) == Scored(x)
    ensures Selectable(st, t, s) && Optimal(st, t, s, x)
  {
    SelectAnswersIff(st, t, s, rand);
    WinnersAreOptima(st, t, s, x);
  }

  lemma KnownAtBest(st: Strategy, t: Tables, s: seq<NodeScore>, rand: nat, x: NodeScore, y: NodeScore)
    requires |s| >= 2 && Choice(st, t, s, rand) == Scored(x) && y in s && y.value == x.value
    ensures Known(st, t, x) && Known(st, t, y)
  {
    WinnerIsOptimal(st, t, s, rand, x);
    assert HasBestValue(st, s, x) && HasBestValue(st, s, y);
  }

  /** Least cost: no score has a higher value than the winner, and none of its value a node with more
      weighted units to allocate. */
  lemma LeastCostWinner(t: Tables, s: seq<NodeScore>, rand: nat, x: NodeScore, y: NodeScore)
    requires Choice(LeastCost, t, s, rand) == Scored(x) && y in s
    ensures x in s && y.value <= x.value
    ensures |s| >= 2 && y.value == x.value ==>
      var i, j := x.placement.instanceType, y.placement.instanceType;
      i in t.weights && j in t.weights && Units(y.allocatable, t.weights[j]) <= Units(x.allocatable, t.weights[i])
  {
    WinnerIsOptimal(LeastCost, t, s, rand, x);
    assert AtLeastAsGood(LeastCost, t, x, y);
    if |s| >= 2 && y.value == x.value {
      KnownAtBest(LeastCost, t, s, rand, x, y);
    }
  }

  /** Least waste: no score has a lower value than the winner, and none of its value a lower price. */
  lemma LeastWasteWinner(t: Tables, s: seq<NodeScore>, rand: nat, x: NodeScore, y: NodeScore)
    requires Choice(LeastWaste, t, s, rand) == Scored(x) && y in s
    ensures x in s && x.value <= y.value
    ensures |s| >= 2 && y.value == x.value ==>
      var i, j := (x.placement.region, x.placement.instanceType), (y.placement.region, y.placement.instanceType);
      i in t.prices && j in t.prices && t.prices[i] <= t.prices[j]
  {
    WinnerIsOptimal(LeastWaste, t, s, rand, x);
    assert AtLeastAsGood(LeastWaste, t, x, y);
    if |s| >= 2 && y.value == x.value {
      KnownAtBest(LeastWaste, t, s, rand, x, y);
    }
  }

  predicate Blames(st: Strategy, t: Tables, answer: Answer<NodeScore>, p: NodePlacement) {
    match st
    case LeastCost => p.instanceType !in t.weights && answer == NoWeights(p.instanceType)
    case LeastWaste => (p.region, p.instanceType) !in t.prices && answer == NoPrice(p.instanceType)
  }

  /** What a failed choice says: there was nothing to choose from, or it names the instance type of the
      first best-valued score that has no weights (least cost) or no price (least waste). */
  lemma ChoiceError(st: Strategy, t: Tables, s: seq<NodeScore>, rand: nat)
    requires !Choice(st, t, s, rand).Scored?
    ensures s == [] ==> Choice(st, t, s, rand) == NoScores
    ensures s != [] ==> exists y :: HasBestValue(st, s, y) && Blames(st, t, Choice(st, t, s, rand), y.placement)
  {
    if s != [] {
      var run := WithValue(s, BestValue(st, s));
      var y := FirstUnknownOf(st, t, run);
      RunIsBest(st, s, y);
      assert HasBestValue(st, s, y);
    }
  }

  lemma {:induction false} FirstUnknownOf(st: Strategy, t: Tables, run: seq<NodeScore>) returns (y: NodeScore)
    requires !AllKnown(st, t, run)
    ensures y in run && !Known(st, t, y) && FirstUnknown(st, t, run) == Unknown(st, y)
  {
    if Known(st, t, run[0]) {
      var i :| 0 <= i < |run| && !Known(st, t, run[i]);
      assert run[1..][i - 1] == run[i];
      y := FirstUnknownOf(st, t, run[1..]);
    } else {
      y := run[0];
    }
  }
}
