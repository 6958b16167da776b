/** The scorers' loops, and the choice of the view the next pass runs over. */
module NodeScorers {
  import opened ApiObjects
  import opened ScoringSpec
  import opened ScoringTheorems
  import opened SelectionSpec

  // ---------------------------------------------------------------------------
  // Scores
  // ---------------------------------------------------------------------------

  /** The resources are visited in an arbitrary order. */
  method NormalizedAggregate(m: Resources, w: Weights) returns (nru: real)
    ensures nru == Units(m, w)
  {
    nru := 0.0;
    var rest := m.Keys;
    ghost var done: set<string> := {};
    while rest != {}
      invariant done == w.Keys * (m.Keys - rest) && rest <= m.Keys
      invariant nru == UnitsOver(m, w, done)
      decreases rest
    {
      var r :| r in rest;
      rest := rest - {r};
      if r in w {
        UnitsPick(m, w, done + {r}, r);
        assert done + {r} - {r} == done;
        nru := nru + w[r] * m[r];
        done := done + {r};
      }
    }
    assert done == w.Keys * m.Keys;
    UnitsElsewhere(m, w, w.Keys);
  }

  method AddPodRequests(requests: Resources, aggregate: Resources) returns (aggregate': Resources)
    ensures aggregate' == Plus(aggregate, requests)
  {
    aggregate' := aggregate;
    var rest := requests.Keys;
    while rest != {}
      invariant rest <= requests.Keys
      invariant aggregate'.Keys == aggregate.Keys + (requests.Keys - rest)
      invariant forall r :: r in aggregate' ==>
        aggregate'[r] == if r in rest then aggregate[r] else Amount(aggregate, r) + Amount(requests, r)
      decreases rest
    {
      var r :| r in rest;
      rest := rest - {r};
      if r in aggregate' {
        aggregate' := aggregate'[r := aggregate'[r] + requests[r]];
      } else {
        aggregate' := aggregate'[r := requests[r]];
      }
    }
  }

  lemma OneMoreRequest(a: seq<PodResources>, p: PodResources)
    ensures Requested(a + [p]) == Plus(Requested(a), p.requests)
  {
    assert (a + [p])[..|a|] == a;
  }

  method AddRequestsOf(ghost before: seq<PodResources>, pods: seq<PodResources>, aggregate: Resources)
    returns (aggregate': Resources)
    requires aggregate == Requested(before)
    ensures aggregate' == Requested(before + pods)
  {
    aggregate' := aggregate;
    ghost var done := before;
    for i := 0 to |pods|
      invariant done == before + pods[..i]
      invariant aggregate' == Requested(done)
    {
      aggregate' := AddPodRequests(pods[i].requests, aggregate');
      OneMoreRequest(done, pods[i]);
      done := done + [pods[i]];
    }
    assert done == before + pods;
  }

  lemma PodsOneMore(others: seq<NodePodAssignment>, i: nat, first: seq<PodResources>)
    requires i < |others|
    ensures first + PodsOf(others[..i + 1]) == (first + PodsOf(others[..i])) + others[i].pods
  {
    assert others[..i + 1][..i] == others[..i];
  }

  /** The new node's pods, then those of every other assignment. */
  method AggregatedScheduledPodsResources(args: ScorerArgs) returns (aggregate: Resources)
    ensures aggregate == Requested(Scheduled(args))
  {
    var first, others := args.scaled.pods, args.others;
    aggregate := AddRequestsOf([], first, map[]);
    assert [] + first == first && first + PodsOf(others[..0]) == first;
    for i := 0 to |others|
      invariant aggregate == Requested(first + PodsOf(others[..i]))
    {
      aggregate := AddRequestsOf(first + PodsOf(others[..i]), others[i].pods, aggregate);
      PodsOneMore(others, i, first);
    }
    assert others[..|others|] == others;
  }

  method SubtractRequests(wastage: Resources, requests: Resources) returns (wastage': Resources)
    ensures wastage' == Minus(wastage, requests)
  {
    wastage' := wastage;
    var rest := requests.Keys;
    while rest != {}
      invariant rest <= requests.Keys
      invariant wastage'.Keys == wastage.Keys
      invariant forall r :: r in wastage ==>
        wastage'[r] == if r in rest then wastage[r] else wastage[r] - Amount(requests, r)
      decreases rest
    {
      var r :| r in rest;
      rest := rest - {r};
      if r in wastage' {
        wastage' := wastage'[r := wastage'[r] - requests[r]];
      }
    }
  }

  predicate Describes(x: NodeScore, args: ScorerArgs) {
    && x.name == args.id && x.placement == args.placement
    && x.allocatable == args.scaled.allocatable && x.unscheduled == args.leftover
  }

  /** The weights are looked up before the price; a zero price scores -1. */
  method ComputeLeastCost(args: ScorerArgs, t: Tables) returns (r: Answer<NodeScore>)
    ensures !t.Weighs(args.placement) ==> r == NoWeights(args.placement.instanceType)
    ensures t.Weighs(args.placement) && !t.Prices(args.placement) ==> r == NoPrice(args.placement.instanceType)
    ensures t.Weighs(args.placement) && t.Prices(args.placement) ==>
      r == Scored(ScoreOf(args,
        CostValue(Scheduled(args), t.weights[args.placement.instanceType], t.Price(args.placement))))
    ensures r.Scored? ==> Describes(r.value, args)
  {
    var aggregate := AggregatedScheduledPodsResources(args);
    if !t.Weighs(args.placement) {
      return NoWeights(args.placement.instanceType);
    }
    var nru := NormalizedAggregate(aggregate, t.weights[args.placement.instanceType]);
    if !t.Prices(args.placement) {
      return NoPrice(args.placement.instanceType);
    }
    var price := t.Price(args.placement);
    r := Scored(ScoreOf(args, if price == 0.0 then -1 else Round(nru * 100.0 / price)));
  }

  method ComputeLeastWaste(args: ScorerArgs, t: Tables) returns (r: Answer<NodeScore>)
    ensures !t.Weighs(args.placement) ==> r == NoWeights(args.placement.instanceType)
    ensures t.Weighs(args.placement) ==>
      r == Scored(ScoreOf(args,
        WasteValue(args.scaled.allocatable, Scheduled(args), t.weights[args.placement.instanceType])))
    ensures r.Scored? ==> Describes(r.value, args)
  {
    var aggregate := AggregatedScheduledPodsResources(args);
    var wastage := SubtractRequests(args.scaled.allocatable, aggregate);
    if !t.Weighs(args.placement) {
      return NoWeights(args.placement.instanceType);
    }
    var nru := NormalizedAggregate(wastage, t.weights[args.placement.instanceType]);
    r := Scored(ScoreOf(args, Truncate(nru * 100.0)));
  }

  // ---------------------------------------------------------------------------
  // Stable sort in place
  // ---------------------------------------------------------------------------

  ghost predicate Ordered(st: Strategy, s: seq<NodeScore>) {
    forall p, q :: 0 <= p < q < |s| ==> !Before(st, s[q].value, s[p].value)
  }

  /** Stable: the scores of any one value keep their order. */
  ghost predicate SameOrder(s: seq<NodeScore>, s': seq<NodeScore>) {
    |s| == |s'| && forall v :: WithValue(s, v) == WithValue(s', v)
  }

  lemma {:induction false} WithValueAppend(a: seq<NodeScore>, b: seq<NodeScore>, v: int)
    ensures WithValue(a + b, v) == WithValue(a, v) + WithValue(b, v)
    decreases |b|
  {
    if b == [] {
      assert a + b == a;
    } else {
      var n := |b| - 1;
      assert (a + b)[..|a + b| - 1] == a + b[..n];
      WithValueAppend(a, b[..n], v);
    }
  }

  lemma WithValueOfTwo(x: NodeScore, y: NodeScore, v: int)
    requires x.value != y.value
    ensures WithValue([x, y], v) == WithValue([y, x], v)
  {
    assert [x, y][..1] == [x] && [y, x][..1] == [y];
    assert [x][..0] == [] && [y][..0] == [];
  }

  /** Swapping neighbours of different values is stable. */
  lemma SwapIsStable(s: seq<NodeScore>, j: nat)
    requires 0 < j < |s| && s[j - 1].value != s[j].value
    ensures SameOrder(s, s[j - 1 := s[j]][j := s[j - 1]])
  {
    var x, y := s[j - 1], s[j];
    var a, b := s[..j - 1], s[j + 1..];
    var s' := s[j - 1 := s[j]][j := s[j - 1]];
    assert s == a + [x, y] + b && s' == a + [y, x] + b;
    forall v ensures WithValue(s, v) == WithValue(s', v) {
      WithValueAppend(a + [x, y], b, v);
      WithValueAppend(a + [y, x], b, v);
      WithValueAppend(a, [x, y], v);
      WithValueAppend(a, [y, x], v);
      WithValueOfTwo(x, y, v);
    }
  }

  /** Moves the score at `i` down past those it goes before. */
  method SiftDown(a: array<NodeScore>, st: Strategy, i: nat)
    requires i < a.Length && Ordered(st, a[..i])
    modifies a
    ensures Ordered(st, a[..i + 1])
    ensures SameOrder(old(a[..]), a[..])
  {
    var j := i;
    while 0 < j && Before(st, a[j].value, a[j - 1].value)
      invariant 0 <= j <= i
      invariant forall p, q :: 0 <= p < q <= i && q != j ==> !Before(st, a[q].value, a[p].value)
      invariant SameOrder(old(a[..]), a[..])
    {
      ghost var was := a[..];
      SwapIsStable(was, j);
      a[j], a[j - 1] := a[j - 1], a[j];
      assert a[..] == was[j - 1 := was[j]][j := was[j - 1]];
      j := j - 1;
    }
  }

  /** Insertion sort, standing in for the library's stable sort. */
  method SortStable(a: array<NodeScore>, st: Strategy)
    modifies a
    ensures Ordered(st, a[..])
    ensures SameOrder(old(a[..]), a[..])
  {
    for i := 0 to a.Length
      invariant Ordered(st, a[..i])
      invariant SameOrder(old(a[..]), a[..])
    {
      SiftDown(a, st, i);
    }
    assert a[..a.Length] == a[..];
  }

  // ---------------------------------------------------------------------------
  // Selection
  // ---------------------------------------------------------------------------

  lemma {:induction false} NoneWithValue(s: seq<NodeScore>, v: int)
    requires forall k :: 0 <= k < |s| ==> s[k].value != v
    ensures WithValue(s, v) == []
  {
    if s != [] {
      NoneWithValue(s[..|s| - 1], v);
    }
  }

  lemma {:induction false} AllWithValue(s: seq<NodeScore>, v: int)
    requires forall k :: 0 <= k < |s| ==> s[k].value == v
    ensures WithValue(s, v) == s
  {
    if s != [] {
      AllWithValue(s[..|s| - 1], v);
    }
  }

  /** The head of the sorted scores is the run of best-valued ones, in their first order. */
  lemma HeadIsRun(st: Strategy, s: seq<NodeScore>, sorted: seq<NodeScore>, i: nat)
    requires s != [] && Ordered(st, sorted) && SameOrder(s, sorted) && 0 < i <= |sorted|
    requires forall k :: 0 <= k < |sorted[..i]| ==> sorted[..i][k].value == sorted[0].value
    requires i < |sorted| ==> sorted[i].value != sorted[0].value
    ensures sorted[..i] == WithValue(s, BestValue(st, s))
  {
    var v := sorted[0].value;
    WithValueAppend(sorted[..i], sorted[i..], v);
    assert sorted == sorted[..i] + sorted[i..];
    AllWithValue(sorted[..i], v);
    TailHasOther(st, sorted, i);
    NoneWithValue(sorted[i..], v);
    HeadHasBestValue(st, s, sorted);
    assert WithValue(s, v) == WithValue(sorted, v);
  }

  lemma TailHasOther(st: Strategy, sorted: seq<NodeScore>, i: nat)
    requires Ordered(st, sorted) && 0 < i <= |sorted|
    requires i < |sorted| ==> sorted[i].value != sorted[0].value
    ensures forall k :: 0 <= k < |sorted[i..]| ==> sorted[i..][k].value != sorted[0].value
  {
    forall k | i <= k < |sorted| ensures sorted[k].value != sorted[0].value {
      assert !Before(st, sorted[i].value, sorted[0].value);
      assert k > i ==> !Before(st, sorted[k].value, sorted[i].value);
    }
  }

  lemma HeadHasBestValue(st: Strategy, s: seq<NodeScore>, sorted: seq<NodeScore>)
    requires s != [] && Ordered(st, sorted) && SameOrder(s, sorted)
    ensures BestValue(st, s) == sorted[0].value
  {
    var v := BestValue(st, s);
    BestValueIsBest(st, s);
    var x := WithValue(sorted, v)[0];
    WithValueAt(sorted, v, x);
    WithValueAt(sorted, sorted[0].value, sorted[0]);
    WithValueAt(s, sorted[0].value, sorted[0]);
    assert sorted[0] in sorted && sorted[0] in s;
    var k :| 0 <= k < |sorted| && sorted[k] == x;
    assert k > 0 ==> !Before(st, sorted[k].value, sorted[0].value);
  }

  method BestOf(st: Strategy, keys: seq<real>) returns (best: real)
    requires keys != []
    ensures best == BestKey(st, keys)
  {
    best := keys[0];
    for i := 1 to |keys|
      invariant best == BestKey(st, keys[..i])
    {
      if Better(st, keys[i], best) {
        best := keys[i];
      }
      assert keys[..i + 1][..i] == keys[..i];
    }
    assert keys[..|keys|] == keys;
  }

  /** The indices of the best keys, and one of them at random. */
  method PickWinner(run: seq<NodeScore>, keys: seq<real>, best: real, rand: nat) returns (winner: NodeScore)
    requires |run| == |keys| && best in keys
    ensures WithKey(run, keys, best) != []
    ensures winner == WithKey(run, keys, best)[rand % |WithKey(run, keys, best)|]
  {
    var indices: seq<nat> := [];
    for i := 0 to |keys|
      invariant |indices| == |WithKey(run[..i], keys[..i], best)|
      invariant forall k :: 0 <= k < |indices| ==>
        indices[k] < i && run[indices[k]] == WithKey(run[..i], keys[..i], best)[k]
    {
      assert run[..i + 1][..i] == run[..i] && keys[..i + 1][..i] == keys[..i];
      if keys[i] == best {
        indices := indices + [i];
      }
    }
    assert run[..|keys|] == run && keys[..|keys|] == keys;
    ghost var b :| 0 <= b < |keys| && keys[b] == best;
    WithKeyAt(run, keys, best, run[b]);
    winner := run[indices[rand % |indices|]];
  }

  lemma {:induction false} FirstUnknownAt(st: Strategy, t: Tables, s: seq<NodeScore>, i: nat)
    requires i < |s| && AllKnown(st, t, s[..i]) && !Known(st, t, s[i])
    ensures FirstUnknown(st, t, s) == Unknown(st, s[i])
    decreases i
  {
    if i > 0 {
      assert Known(st, t, s[..i][0]);
      assert s[1..][..i - 1] == s[..i][1..];
      FirstUnknownAt(st, t, s[1..], i - 1);
    }
  }

  /** The choice, once the run of best-valued scores and its tie keys are known. */
  lemma ChoiceFromRun(st: Strategy, t: Tables, s: seq<NodeScore>, run: seq<NodeScore>, rand: nat)
    requires |s| >= 2 && run == WithValue(s, BestValue(st, s)) && AllKnown(st, t, run)
    ensures run != [] && Candidates(st, t, run) != []
    ensures Choice(st, t, s, rand) == Scored(Candidates(st, t, run)[rand % |Candidates(st, t, run)|])
  {
    BestValueIsBest(st, s);
    CandidatesNotEmpty(st, t, run);
  }

  /** An unknown score in the head of the sorted scores, before any value changes, is the
      first unknown one of the run. */
  lemma UnknownInHead(st: Strategy, t: Tables, s: seq<NodeScore>, sorted: seq<NodeScore>, i: nat)
    requires |s| >= 2 && Ordered(st, sorted) && SameOrder(s, sorted) && i < |sorted|
    requires AllKnown(st, t, sorted[..i]) && !Known(st, t, sorted[i])
    requires forall k :: 0 <= k <= i ==> sorted[k].value == sorted[0].value
    ensures forall rand :: Choice(st, t, s, rand) == Unknown(st, sorted[i])
  {
    var j := i + 1;
    while j < |sorted| && sorted[j].value == sorted[0].value
      invariant i < j <= |sorted|
      invariant forall k :: 0 <= k < j ==> sorted[k].value == sorted[0].value
    {
      j := j + 1;
    }
    HeadIsRun(st, s, sorted, j);
    assert sorted[..j][..i] == sorted[..i] && sorted[..j][i] == sorted[i];
    FirstUnknownAt(st, t, sorted[..j], i);
    assert !AllKnown(st, t, sorted[..j]);
  }

  /** How far the best value reaches, or the first score of it whose key is not known. */
  method BestRun(a: array<NodeScore>, st: Strategy, t: Tables) returns (i: nat, known: bool)
    requires a.Length >= 2
    ensures 0 < i <= a.Length || (i == 0 && !known)
    ensures AllKnown(st, t, a[..i])
    ensures forall k :: 0 <= k < i ==> a[k].value == a[0].value
    ensures known && i < a.Length ==> a[i].value != a[0].value
    ensures !known ==> i < a.Length && a[i].value == a[0].value && !Known(st, t, a[i])
  {
    i, known := 0, true;
    while i < a.Length
      invariant 0 <= i <= a.Length
      invariant AllKnown(st, t, a[..i])
      invariant forall k :: 0 <= k < i ==> a[k].value == a[0].value
      decreases a.Length - i
    {
      if a[i].value != a[0].value {
        return;
      }
      if !Known(st, t, a[i]) {
        known := false;
        return;
      }
      i := i + 1;
    }
  }

  /** Sorts the scores in place, then breaks ties by weighted allocatable. */
  method SelectLeastCost(a: array<NodeScore>, t: Tables, rand: nat) returns (r: Answer<NodeScore>)
    modifies a
    ensures SameOrder(old(a[..]), a[..])
    ensures r == Choice(LeastCost, t, old(a[..]), rand)
  {
    ghost var s := a[..];
    if a.Length == 0 {
      return NoScores;
    }
    if a.Length == 1 {
      return Scored(a[0]);
    }
    SortStable(a, LeastCost);
    var i, known := BestRun(a, LeastCost, t);
    if !known {
      UnknownInHead(LeastCost, t, s, a[..], i);
      return NoWeights(a[i].placement.instanceType);
    }
    var run := a[..i];
    HeadIsRun(LeastCost, s, a[..], i);
    var allocs := WeighAll(run, t);
    var best := BestOf(LeastCost, allocs);
    BestKeyIsBest(LeastCost, allocs);
    ChoiceFromRun(LeastCost, t, s, run, rand);
    var winner := PickWinner(run, allocs, best, rand);
    r := Scored(winner);
  }

  method WeighAll(run: seq<NodeScore>, t: Tables) returns (allocs: seq<real>)
    requires AllKnown(LeastCost, t, run)
    ensures allocs == TieKeys(LeastCost, t, run)
  {
    allocs := [];
    for k := 0 to |run|
      invariant allocs == TieKeys(LeastCost, t, run)[..k]
    {
      var alloc := NormalizedAggregate(run[k].allocatable, t.weights[run[k].placement.instanceType]);
      allocs := allocs + [alloc];
    }
  }

  method PriceAll(run: seq<NodeScore>, t: Tables) returns (prices: seq<real>)
    requires AllKnown(LeastWaste, t, run)
    ensures prices == TieKeys(LeastWaste, t, run)
  {
    prices := [];
    for k := 0 to |run|
      invariant prices == TieKeys(LeastWaste, t, run)[..k]
    {
      prices := prices + [t.Price(run[k].placement)];
    }
  }

  /** Sorts the scores in place, then breaks ties by price. */
  method SelectLeastWaste(a: array<NodeScore>, t: Tables, rand: nat) returns (r: Answer<NodeScore>)
    modifies a
    ensures SameOrder(old(a[..]), a[..])
    ensures r == Choice(LeastWaste, t, old(a[..]), rand)
  {
    ghost var s := a[..];
    if a.Length == 0 {
      return NoScores;
    }
    if a.Length == 1 {
      return Scored(a[0]);
    }
    SortStable(a, LeastWaste);
    var i, known := BestRun(a, LeastWaste, t);
    if !known {
      UnknownInHead(LeastWaste, t, s, a[..], i);
      return NoPrice(a[i].placement.instanceType);
    }
    var run := a[..i];
    HeadIsRun(LeastWaste, s, a[..], i);
    var prices := PriceAll(run, t);
    var best := BestOf(LeastWaste, prices);
    BestKeyIsBest(LeastWaste, prices);
    ChoiceFromRun(LeastWaste, t, s, run, rand);
    var winner := PickWinner(run, prices, best, rand);
    r := Scored(winner);
  }

  // ---------------------------------------------------------------------------
  // The view of the winner
  // ---------------------------------------------------------------------------

  /** The outcome of one simulation; `view` identifies its sandbox. */
  datatype SimOutcome = SimOutcome(
    name: string,
    view: nat,
    placement: NodePlacement,
    assignments: seq<NodePodAssignment>,
    others: seq<NodePodAssignment>,
    leftover: seq<Key>)
  {
    function Args(): ScorerArgs
      requires assignments != []
    {
      ScorerArgs(name, placement, assignments[0], others, leftover)
    }
  }

  ghost predicate Named(outcomes: seq<SimOutcome>) {
    forall i, j :: 0 <= i < j < |outcomes| ==> outcomes[i].name != outcomes[j].name
  }

  ghost function ScoreFor(st: Strategy, o: SimOutcome, t: Tables): Answer<NodeScore>
    requires o.assignments != []
  {
    var p := o.placement;
    var args := o.Args();
    if !t.Weighs(p) then NoWeights(p.instanceType)
    else
      var w := t.weights[p.instanceType];
      match st
      case LeastWaste => Scored(ScoreOf(args, WasteValue(args.scaled.allocatable, Scheduled(args), w)))
      case LeastCost =>
        if !t.Prices(p) then NoPrice(p.instanceType)
        else Scored(ScoreOf(args, CostValue(Scheduled(args), w, t.Price(p))))
  }

  method Compute(st: Strategy, o: SimOutcome, t: Tables) returns (r: Answer<NodeScore>)
    requires o.assignments != []
    ensures r == ScoreFor(st, o, t)
  {
    match st
    case LeastCost => r := ComputeLeastCost(o.Args(), t);
    case LeastWaste => r := ComputeLeastWaste(o.Args(), t);
  }

  method Select(st: Strategy, scores: seq<NodeScore>, t: Tables, rand: nat) returns (r: Answer<NodeScore>)
    ensures r == Choice(st, t, scores, rand)
  {
    var a := new NodeScore[|scores|](i requires 0 <= i < |scores| => scores[i]);
    assert a[..] == scores;
    match st
    case LeastCost => r := SelectLeastCost(a, t, rand);
    case LeastWaste => r := SelectLeastWaste(a, t, rand);
  }

  ghost predicate Scores(st: Strategy, t: Tables, o: SimOutcome, x: NodeScore) {
    o.assignments != [] && ScoreFor(st, o, t) == Scored(x)
  }

  predicate Assigns(o: SimOutcome) {
    o.assignments != []
  }

  /** Every outcome that placed a pod on its new node has a score. */
  ghost predicate AllScore(st: Strategy, t: Tables, outcomes: seq<SimOutcome>) {
    forall o :: o in outcomes && Assigns(o) ==> ScoreFor(st, o, t).Scored?
  }

  /** The scores of the outcomes that placed a pod on their new node, in order. */
  ghost function ScoresIn(st: Strategy, t: Tables, outcomes: seq<SimOutcome>): seq<NodeScore> {
    if outcomes == [] then []
    else
      var n := |outcomes| - 1;
      ScoresIn(st, t, outcomes[..n]) +
      if Assigns(outcomes[n]) && ScoreFor(st, outcomes[n], t).Scored? then [ScoreFor(st, outcomes[n], t).value] else []
  }

  lemma ScoresOneMore(st: Strategy, t: Tables, outcomes: seq<SimOutcome>, i: nat)
    requires i < |outcomes|
    ensures outcomes[..i + 1] == outcomes[..i] + [outcomes[i]]
    ensures ScoresIn(st, t, outcomes[..i + 1]) == ScoresIn(st, t, outcomes[..i]) +
      if Assigns(outcomes[i]) && ScoreFor(st, outcomes[i], t).Scored? then [ScoreFor(st, outcomes[i], t).value] else []
  {
    assert outcomes[..i + 1][..i] == outcomes[..i];
  }

  /** Which scores there are. */
  lemma {:induction false} ScoresInAt(st: Strategy, t: Tables, outcomes: seq<SimOutcome>, x: NodeScore)
    ensures x in ScoresIn(st, t, outcomes) <==> exists o :: o in outcomes && Scores(st, t, o, x)
  {
    if outcomes != [] {
      var n := |outcomes| - 1;
      var last := outcomes[n];
      ScoresInAt(st, t, outcomes[..n], x);
      assert outcomes == outcomes[..n] + [last];
      if o :| o in outcomes && Scores(st, t, o, x) {
        assert o in outcomes[..n] || o == last;
      }
      if o :| o in outcomes[..n] && Scores(st, t, o, x) {
        assert o in outcomes;
      }
      if Scores(st, t, last, x) {
        assert last in outcomes;
      }
    }
  }

  /** The answer of a pass: the first error in scoring, else the choice among the scores. */
  ghost function PassAnswer(st: Strategy, t: Tables, outcomes: seq<SimOutcome>, rand: nat): Answer<NodeScore> {
    if AllScore(st, t, outcomes) then Choice(st, t, ScoresIn(st, t, outcomes), rand) else FirstError(st, t, outcomes)
  }

  ghost function FirstError(st: Strategy, t: Tables, outcomes: seq<SimOutcome>): Answer<NodeScore> {
    if outcomes == [] then NoScores
    else if Assigns(outcomes[0]) && !ScoreFor(st, outcomes[0], t).Scored? then ScoreFor(st, outcomes[0], t)
    else FirstError(st, t, outcomes[1..])
  }

  lemma {:induction false} FirstErrorAt(st: Strategy, t: Tables, outcomes: seq<SimOutcome>, i: nat)
    requires i < |outcomes| && AllScore(st, t, outcomes[..i])
    requires Assigns(outcomes[i]) && !ScoreFor(st, outcomes[i], t).Scored?
    ensures !AllScore(st, t, outcomes) && FirstError(st, t, outcomes) == ScoreFor(st, outcomes[i], t)
    decreases i
  {
    assert outcomes[i] in outcomes;
    if i > 0 {
      assert outcomes[0] in outcomes[..i];
      assert outcomes[1..][..i - 1] == outcomes[..i][1..];
      FirstErrorAt(st, t, outcomes[1..], i - 1);
    }
  }

  /** Scores every outcome that placed a pod on the new node; the first error stops it. */
  method ComputeAll(st: Strategy, outcomes: seq<SimOutcome>, t: Tables)
    returns (ok: bool, error: Answer<NodeScore>, scores: seq<NodeScore>)
    ensures ok <==> AllScore(st, t, outcomes)
    ensures ok ==> scores == ScoresIn(st, t, outcomes)
    ensures !ok ==> error == FirstError(st, t, outcomes) && !error.Scored? && !error.NoScores?
  {
    scores := [];
    for i := 0 to |outcomes|
      invariant AllScore(st, t, outcomes[..i]) && scores == ScoresIn(st, t, outcomes[..i])
    {
      var o := outcomes[i];
      ScoresOneMore(st, t, outcomes, i);
      if Assigns(o) {
        var score := Compute(st, o, t);
        if !score.Scored? {
          FirstErrorAt(st, t, outcomes, i);
          return false, score, scores;
        }
        scores := scores + [score.value];
      }
    }
    assert outcomes[..|outcomes|] == outcomes;
    return true, NoScores, scores;
  }

  method ViewNamed(outcomes: seq<SimOutcome>, name: string) returns (view: Option<nat>)
    ensures view.None? <==> forall i :: 0 <= i < |outcomes| ==> outcomes[i].name != name
    ensures view.Some? ==> exists i :: 0 <= i < |outcomes| && outcomes[i].name == name && view == Some(outcomes[i].view)
  {
    for i := 0 to |outcomes|
      invariant forall k :: 0 <= k < i ==> outcomes[k].name != name
    {
      if outcomes[i].name == name {
        return Some(outcomes[i].view);
      }
    }
    return None;
  }

  /** The score that is chosen belongs to an outcome of its name. */
  lemma WinnerHasOutcome(st: Strategy, t: Tables, outcomes: seq<SimOutcome>, rand: nat, x: NodeScore)
    requires Choice(st, t, ScoresIn(st, t, outcomes), rand) == Scored(x)
    ensures exists i :: 0 <= i < |outcomes| && outcomes[i].name == x.name && Scores(st, t, outcomes[i], x)
  {
    SelectAnswersIff(st, t, ScoresIn(st, t, outcomes), rand);
    WinnersAreOptima(st, t, ScoresIn(st, t, outcomes), x);
    ScoresInAt(st, t, outcomes, x);
    var o :| o in outcomes && Scores(st, t, o, x);
    var i :| 0 <= i < |outcomes| && outcomes[i] == o;
    assert outcomes[i].name == x.name;
  }

  /** The answer of a pass, and the view the next pass runs over. */
  method ProcessResults(st: Strategy, outcomes: seq<SimOutcome>, t: Tables, rand: nat)
    returns (r: Answer<NodeScore>, view: Option<nat>)
    ensures r == PassAnswer(st, t, outcomes, rand)
    ensures r.Scored? <==> view.Some?
    ensures r.Scored? ==>
      exists i :: 0 <= i < |outcomes| && outcomes[i].name == r.value.name && view == Some(outcomes[i].view)
    ensures r.Scored? && Named(outcomes) ==>
      exists o :: o in outcomes && view == Some(o.view) && Scores(st, t, o, r.value)
  {
    view := None;
    var ok, error, scores := ComputeAll(st, outcomes, t);
    if !ok {
      return error, None;
    }
    r := NoScores;
    if |scores| > 0 {
      r := Select(st, scores, t, rand);
    }
    if r.Scored? {
      WinnerHasOutcome(st, t, outcomes, rand, r.value);
      view := ViewNamed(outcomes, r.value.name);
    }
  }

  /** There is a winner if and only if some outcome placed a pod on its new node, all those have
      a score, and the scores can be chosen from; nobody wins, without an error, exactly when no
      outcome placed one. */
  lemma PassHasWinnerIff(st: Strategy, t: Tables, outcomes: seq<SimOutcome>, rand: nat)
    ensures PassAnswer(st, t, outcomes, rand).Scored? <==>
      && (exists o :: o in outcomes && o.assignments != [])
      && AllScore(st, t, outcomes) && Selectable(st, t, ScoresIn(st, t, outcomes))
    ensures PassAnswer(st, t, outcomes, rand) == NoScores <==> forall o :: o in outcomes ==> o.assignments == []
  {
    var scores := ScoresIn(st, t, outcomes);
    SelectAnswersIff(st, t, scores, rand);
    if !AllScore(st, t, outcomes) {
      FirstErrorIsError(st, t, outcomes);
    } else {
      NoScoresIff(st, t, outcomes);
      if scores != [] {
        SelectErrorIsNotEmpty(st, t, scores, rand);
      }
    }
  }

  lemma {:induction false} FirstErrorIsError(st: Strategy, t: Tables, outcomes: seq<SimOutcome>)
    requires !AllScore(st, t, outcomes)
    ensures !FirstError(st, t, outcomes).Scored? && FirstError(st, t, outcomes) != NoScores
    ensures exists o :: o in outcomes && Assigns(o)
  {
    var o :| o in outcomes && Assigns(o) && !ScoreFor(st, o, t).Scored?;
    if !(Assigns(outcomes[0]) && !ScoreFor(st, outcomes[0], t).Scored?) {
      assert outcomes == [outcomes[0]] + outcomes[1..];
      assert o in outcomes[1..];
      FirstErrorIsError(st, t, outcomes[1..]);
    }
  }

  lemma NoScoresIff(st: Strategy, t: Tables, outcomes: seq<SimOutcome>)
    requires AllScore(st, t, outcomes)
    ensures ScoresIn(st, t, outcomes) == [] <==> forall o :: o in outcomes ==> !Assigns(o)
  {
    if o :| o in outcomes && Assigns(o) {
      assert Scores(st, t, o, ScoreFor(st, o, t).value);
      ScoresInAt(st, t, outcomes, ScoreFor(st, o, t).value);
    }
    if ScoresIn(st, t, outcomes) != [] {
      ScoresInAt(st, t, outcomes, ScoresIn(st, t, outcomes)[0]);
    }
  }

  /** The winner is at least as good as the score of every outcome that placed a pod on its new
      node. */
  lemma WinnerIsBest(st: Strategy, t: Tables, outcomes: seq<SimOutcome>, rand: nat, o: SimOutcome)
    requires PassAnswer(st, t, outcomes, rand).Scored? && o in outcomes && o.assignments != []
    ensures ScoreFor(st, o, t).Scored?
    ensures AtLeastAsGood(st, t, PassAnswer(st, t, outcomes, rand).value, ScoreFor(st, o, t).value)
  {
    PassHasWinnerIff(st, t, outcomes, rand);
    var scores, x := ScoresIn(st, t, outcomes), PassAnswer(st, t, outcomes, rand).value;
    WinnersAreOptima(st, t, scores, x);
    assert Scores(st, t, o, ScoreFor(st, o, t).value);
    ScoresInAt(st, t, outcomes, ScoreFor(st, o, t).value);
  }

  lemma SelectErrorIsNotEmpty(st: Strategy, t: Tables, s: seq<NodeScore>, rand: nat)
    requires s != []
    ensures Choice(st, t, s, rand) != NoScores
  {
    if |s| >= 2 {
      var run := WithValue(s, BestValue(st, s));
      if !AllKnown(st, t, run) {
        FirstUnknownIsNotEmpty(st, t, run);
      }
    }
  }

  lemma {:induction false} FirstUnknownIsNotEmpty(st: Strategy, t: Tables, s: seq<NodeScore>)
    requires !AllKnown(st, t, s)
    ensures FirstUnknown(st, t, s) != NoScores
  {
    if Known(st, t, s[0]) {
      var i :| 0 <= i < |s| && !Known(st, t, s[i]);
      assert !Known(st, t, s[1..][i - 1]);
      FirstUnknownIsNotEmpty(st, t, s[1..]);
    }
  }
}
