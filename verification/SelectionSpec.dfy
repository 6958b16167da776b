/** Choosing the winner among node scores: best value first, ties broken by a second key. */
module SelectionSpec {
  import opened ScoringSpec

  datatype Strategy = LeastCost | LeastWaste

  /** Least-cost wants high values, least-waste low ones. */
  predicate Before(st: Strategy, x: int, y: int) {
    match st
    case LeastCost => x > y
    case LeastWaste => x < y
  }

  /** Ties: least-cost wants the larger node, least-waste the cheaper one. */
  predicate Better(st: Strategy, x: real, y: real) {
    match st
    case LeastCost => x > y
    case LeastWaste => x < y
  }

  predicate Known(st: Strategy, t: Tables, x: NodeScore) {
    match st
    case LeastCost => t.Weighs(x.placement)
    case LeastWaste => t.Prices(x.placement)
  }

  /** The key that breaks ties; irrelevant where it is not known. */
  ghost function TieKey(st: Strategy, t: Tables, x: NodeScore): real {
    if !Known(st, t, x) then 0.0
    else
      match st
      case LeastCost => Units(x.allocatable, t.weights[x.placement.instanceType])
      case LeastWaste => t.Price(x.placement)
  }

  function Unknown(st: Strategy, x: NodeScore): Answer<NodeScore> {
    match st
    case LeastCost => NoWeights(x.placement.instanceType)
    case LeastWaste => NoPrice(x.placement.instanceType)
  }

  /** The scores with value `v`, in order. */
  function WithValue(s: seq<NodeScore>, v: int): seq<NodeScore> {
    if s == [] then []
    else WithValue(s[..|s| - 1], v) + if s[|s| - 1].value == v then [s[|s| - 1]] else []
  }

  function BestValue(st: Strategy, s: seq<NodeScore>): int
    requires s != []
  {
    if |s| == 1 then s[0].value
    else
      var v, x := BestValue(st, s[..|s| - 1]), s[|s| - 1].value;
      if Before(st, x, v) then x else v
  }

  function BestKey(st: Strategy, keys: seq<real>): real
    requires keys != []
  {
    if |keys| == 1 then keys[0]
    else
      var v, x := BestKey(st, keys[..|keys| - 1]), keys[|keys| - 1];
      if Better(st, x, v) then x else v
  }

  ghost function TieKeys(st: Strategy, t: Tables, s: seq<NodeScore>): seq<real> {
    seq(|s|, i requires 0 <= i < |s| => TieKey(st, t, s[i]))
  }

  function FirstUnknown(st: Strategy, t: Tables, s: seq<NodeScore>): Answer<NodeScore> {
    if s == [] then NoScores
    else if !Known(st, t, s[0]) then Unknown(st, s[0])
    else FirstUnknown(st, t, s[1..])
  }

  /** The scores whose key is `best`, in order. */
  function WithKey(s: seq<NodeScore>, keys: seq<real>, best: real): seq<NodeScore>
    requires |s| == |keys|
  {
    if s == [] then []
    else
      var n := |s| - 1;
      WithKey(s[..n], keys[..n], best) + if keys[n] == best then [s[n]] else []
  }

  ghost function Candidates(st: Strategy, t: Tables, run: seq<NodeScore>): seq<NodeScore>
    requires run != []
  {
    var keys := TieKeys(st, t, run);
    WithKey(run, keys, BestKey(st, keys))
  }

  predicate AllKnown(st: Strategy, t: Tables, s: seq<NodeScore>) {
    forall i :: 0 <= i < |s| ==> Known(st, t, s[i])
  }

  lemma {:induction false} WithValueAt(s: seq<NodeScore>, v: int, x: NodeScore)
    ensures x in WithValue(s, v) <==> x in s && x.value == v
  {
    if s != [] {
      var n := |s| - 1;
      WithValueAt(s[..n], v, x);
      assert s == s[..n] + [s[n]];
    }
  }

  lemma {:induction false} BestValueIsBest(st: Strategy, s: seq<NodeScore>)
    requires s != []
    ensures WithValue(s, BestValue(st, s)) != []
    ensures forall x :: x in s ==> !Before(st, x.value, BestValue(st, s))
  {
    var n := |s| - 1;
    assert s == s[..n] + [s[n]];
    if n > 0 {
      BestValueIsBest(st, s[..n]);
    }
  }

  lemma {:induction false} BestKeyIsBest(st: Strategy, keys: seq<real>)
    requires keys != []
    ensures BestKey(st, keys) in keys
    ensures forall x :: x in keys ==> !Better(st, x, BestKey(st, keys))
  {
    var n := |keys| - 1;
    assert keys == keys[..n] + [keys[n]];
    if n > 0 {
      BestKeyIsBest(st, keys[..n]);
    }
  }

  lemma {:induction false} WithKeyAt(s: seq<NodeScore>, keys: seq<real>, best: real, x: NodeScore)
    requires |s| == |keys|
    ensures x in WithKey(s, keys, best) <==> exists i :: 0 <= i < |s| && s[i] == x && keys[i] == best
  {
    if s != [] {
      var n := |s| - 1;
      WithKeyAt(s[..n], keys[..n], best, x);
      if i :| 0 <= i < |s| && s[i] == x && keys[i] == best {
        assert i < n ==> s[..n][i] == x && keys[..n][i] == best;
      }
    }
  }

  lemma CandidatesNotEmpty(st: Strategy, t: Tables, run: seq<NodeScore>)
    requires run != []
    ensures Candidates(st, t, run) != []
  {
    var keys := TieKeys(st, t, run);
    BestKeyIsBest(st, keys);
    var i :| 0 <= i < |keys| && keys[i] == BestKey(st, keys);
    WithKeyAt(run, keys, BestKey(st, keys), run[i]);
  }

  /** What selection answers when the random index is `rand` modulo the number of candidates. */
  ghost function Choice(st: Strategy, t: Tables, s: seq<NodeScore>, rand: nat): Answer<NodeScore> {
    if |s| == 0 then NoScores
    else if |s| == 1 then Scored(s[0])
    else
      BestValueIsBest(st, s);
      var run := WithValue(s, BestValue(st, s));
      if !AllKnown(st, t, run) then FirstUnknown(st, t, run)
      else
        CandidatesNotEmpty(st, t, run);
        var cs := Candidates(st, t, run);
        Scored(cs[rand % |cs|])
  }

  // ---------------------------------------------------------------------------
  // What the choice means
  // ---------------------------------------------------------------------------

  ghost predicate AtLeastAsGood(st: Strategy, t: Tables, x: NodeScore, y: NodeScore) {
    Before(st, x.value, y.value) || (x.value == y.value && !Better(st, TieKey(st, t, y), TieKey(st, t, x)))
  }

  /** Lexicographically first: by value, then by the tie key. */
  ghost predicate Optimal(st: Strategy, t: Tables, s: seq<NodeScore>, x: NodeScore) {
    && x in s
    && (forall y :: y in s ==> AtLeastAsGood(st, t, x, y))
  }

  ghost predicate CanWin(st: Strategy, t: Tables, s: seq<NodeScore>, x: NodeScore) {
    exists rand: nat :: Choice(st, t, s, rand) == Scored(x)
  }

  ghost predicate HasBestValue(st: Strategy, s: seq<NodeScore>, x: NodeScore) {
    x in s && forall y :: y in s ==> !Before(st, y.value, x.value)
  }

  /** Selection can answer at all. */
  ghost predicate Selectable(st: Strategy, t: Tables, s: seq<NodeScore>) {
    s != [] && (|s| >= 2 ==> forall x :: HasBestValue(st, s, x) ==> Known(st, t, x))
  }

  lemma RunIsBest(st: Strategy, s: seq<NodeScore>, x: NodeScore)
    requires s != []
    ensures x in WithValue(s, BestValue(st, s)) <==> HasBestValue(st, s, x)
  {
    var v := BestValue(st, s);
    BestValueIsBest(st, s);
    WithValueAt(s, v, x);
    var y := WithValue(s, v)[0];
    WithValueAt(s, v, y);
    assert y in s && y.value == v;
  }

  lemma {:induction false} FirstUnknownIsError(st: Strategy, t: Tables, s: seq<NodeScore>)
    ensures !FirstUnknown(st, t, s).Scored?
  {
    if s != [] {
      FirstUnknownIsError(st, t, s[1..]);
    }
  }

  lemma SelectableIffRunKnown(st: Strategy, t: Tables, s: seq<NodeScore>)
    requires |s| >= 2
    ensures Selectable(st, t, s) <==> AllKnown(st, t, WithValue(s, BestValue(st, s)))
  {
    var run := WithValue(s, BestValue(st, s));
    if AllKnown(st, t, run) {
      forall x | HasBestValue(st, s, x) ensures Known(st, t, x) {
        RunIsBest(st, s, x);
        var i :| 0 <= i < |run| && run[i] == x;
      }
    }
    if Selectable(st, t, s) {
      forall i | 0 <= i < |run| ensures Known(st, t, run[i]) {
        assert run[i] in run;
        RunIsBest(st, s, run[i]);
      }
    }
  }

  /** Selection fails exactly on an empty list, and on two or more scores of which a
      best-valued one has no weights or no price. */
  lemma SelectAnswersIff(st: Strategy, t: Tables, s: seq<NodeScore>, rand: nat)
    ensures Choice(st, t, s, rand).Scored? <==> Selectable(st, t, s)
  {
    if |s| >= 2 {
      SelectableIffRunKnown(st, t, s);
      FirstUnknownIsError(st, t, WithValue(s, BestValue(st, s)));
    }
  }

  lemma CandidateIffOptimal(st: Strategy, t: Tables, s: seq<NodeScore>, x: NodeScore)
    requires s != [] && WithValue(s, BestValue(st, s)) != []
    ensures x in Candidates(st, t, WithValue(s, BestValue(st, s))) <==> Optimal(st, t, s, x)
  {
    var run := WithValue(s, BestValue(st, s));
    var keys := TieKeys(st, t, run);
    var best := BestKey(st, keys);
    BestKeyIsBest(st, keys);
    WithKeyAt(run, keys, best, x);
    forall y ensures y in run <==> HasBestValue(st, s, y) { RunIsBest(st, s, y); }
    forall y ensures y in run <==> y in s && y.value == BestValue(st, s) { WithValueAt(s, BestValue(st, s), y); }
    if x in Candidates(st, t, run) {
      var i :| 0 <= i < |run| && run[i] == x && keys[i] == best;
      forall y | y in run ensures !Better(st, TieKey(st, t, y), best) {
        var j :| 0 <= j < |run| && run[j] == y;
        assert keys[j] in keys;
      }
    }
    if Optimal(st, t, s, x) {
      assert x in run;
      var i :| 0 <= i < |run| && run[i] == x;
      var j :| 0 <= j < |keys| && keys[j] == best;
      assert run[j] in run;
      assert keys[i] in keys;
    }
  }

  lemma Reachable(cs: seq<NodeScore>, x: NodeScore) returns (rand: nat)
    requires x in cs
    ensures cs[rand % |cs|] == x
  {
    rand :| rand < |cs| && cs[rand] == x;
  }

  /** The possible winners are exactly the lexicographic optima. */
  lemma WinnersAreOptima(st: Strategy, t: Tables, s: seq<NodeScore>, x: NodeScore)
    requires Selectable(st, t, s)
    ensures CanWin(st, t, s, x) <==> Optimal(st, t, s, x)
  {
    if |s| == 1 {
      assert Choice(st, t, s, 0) == Scored(s[0]);
    } else {
      SelectableIffRunKnown(st, t, s);
      BestValueIsBest(st, s);
      var run := WithValue(s, BestValue(st, s));
      CandidateIffOptimal(st, t, s, x);
      CandidatesNotEmpty(st, t, run);
      if Optimal(st, t, s, x) {
        var rand := Reachable(Candidates(st, t, run), x);
        assert Choice(st, t, s, rand) == Scored(x);
      }
    }
  }

  /** Reordering the scores changes neither whether selection answers nor who can win. */
  lemma SelectIgnoresOrder(st: Strategy, t: Tables, s: seq<NodeScore>, s': seq<NodeScore>, x: NodeScore)
    requires multiset(s) == multiset(s')
    ensures Selectable(st, t, s) <==> Selectable(st, t, s')
    ensures Selectable(st, t, s) ==> (CanWin(st, t, s, x) <==> CanWin(st, t, s', x))
  {
    assert |s| == |multiset(s)| == |multiset(s')| == |s'|;
    assert forall y :: y in s <==> y in multiset(s);
    assert forall y :: y in s' <==> y in multiset(s');
    assert forall y :: HasBestValue(st, s, y) <==> HasBestValue(st, s', y);
    if Selectable(st, t, s) {
      WinnersAreOptima(st, t, s, x);
      WinnersAreOptima(st, t, s', x);
    }
  }
}
