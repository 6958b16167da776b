/** Snapshot variants without the newest nodes: all variants edit one shared array of pods. */
module SnapshotVariants {

  datatype Pod = Pod(name: string, nodeName: string)

  datatype Variant = Variant(count: nat, nodes: seq<string>, pods: seq<Pod>)

  /** Pods on the first `n` nodes lose their node. */
  function Unbound(pods: seq<Pod>, nodes: seq<string>, n: nat): (r: seq<Pod>)
    requires n <= |nodes|
    ensures |r| == |pods|
    ensures forall i :: 0 <= i < |r| ==> r[i].name == pods[i].name
    ensures forall i :: 0 <= i < |r| ==>
      (r[i].nodeName == "" <==> pods[i].nodeName == "" || pods[i].nodeName in nodes[..n])
    ensures forall i :: 0 <= i < |r| && r[i].nodeName != "" ==> r[i] == pods[i]
  {
    seq(|pods|, i requires 0 <= i < |pods| =>
      if pods[i].nodeName in nodes[..n] then pods[i].(nodeName := "") else pods[i])
  }

  /** The variant a fresh copy of the baseline would give. */
  function FreshVariant(pods: seq<Pod>, nodes: seq<string>, n: nat): Variant
    requires n <= |nodes|
  {
    Variant(n, nodes[n..], Unbound(pods, nodes, n))
  }

  function Min(a: nat, b: nat): nat {
    if a <= b then a else b
  }

  function Max(a: nat, b: nat): nat {
    if a >= b then a else b
  }

  /** Unbinding twice is unbinding for the larger count. */
  lemma UnboundTwice(pods: seq<Pod>, nodes: seq<string>, m: nat, n: nat)
    requires m <= |nodes| && n <= |nodes|
    ensures Unbound(Unbound(pods, nodes, m), nodes, n) == Unbound(pods, nodes, Max(m, n))
  {
    var lo, hi := nodes[..Min(m, n)], nodes[..Max(m, n)];
    assert forall x :: x in lo ==> x in hi;
    var r := Unbound(pods, nodes, m);
    var a, b := Unbound(r, nodes, n), Unbound(pods, nodes, Max(m, n));
    forall i | 0 <= i < |pods| ensures a[i] == b[i] {
      assert a[i].nodeName == "" <==> b[i].nodeName == "";
    }
  }

  /** Edits the shared pods; the returned variant is what is written out at that moment. */
  method RemoveNodes(nodes: seq<string>, pods: array<Pod>, count: nat) returns (v: Variant)
    requires count <= |nodes|
    modifies pods
    ensures pods[..] == Unbound(old(pods[..]), nodes, count)
    ensures v == Variant(count, nodes[count..], pods[..])
  {
    var removed := nodes[..count];
    for i := 0 to pods.Length
      invariant forall k :: 0 <= k < i ==> pods[k] == Unbound(old(pods[..]), nodes, count)[k]
      invariant forall k :: i <= k < pods.Length ==> pods[k] == old(pods[k])
    {
      if pods[i].nodeName in removed {
        pods[i] := pods[i].(nodeName := "");
      }
    }
    v := Variant(count, nodes[count..], pods[..]);
  }

  /** The counts that are run: cut down to the number of nodes, and skipped when a file for
      that count is already there. */
  function Ran(counts: seq<nat>, n: nat, existing: set<nat>): (r: seq<nat>)
    ensures forall k :: 0 <= k < |r| ==> r[k] <= n
  {
    if counts == [] then []
    else
      var before := Ran(counts[..|counts| - 1], n, existing);
      var c := Min(counts[|counts| - 1], n);
      if c in existing || c in before then before else before + [c]
  }

  /** Exactly the counts that have no file yet, cut down where there are not so many nodes, each once. */
  lemma {:induction false} RanIff(counts: seq<nat>, n: nat, existing: set<nat>, c: nat)
    ensures c in Ran(counts, n, existing) <==>
      c !in existing && exists i :: 0 <= i < |counts| && (if counts[i] <= n then c == counts[i] else c == n)
    ensures forall j, k :: 0 <= j < k < |Ran(counts, n, existing)| ==>
      Ran(counts, n, existing)[j] != Ran(counts, n, existing)[k]
  {
    if counts != [] {
      var last := |counts| - 1;
      RanIff(counts[..last], n, existing, c);
      if i :| 0 <= i < |counts| && (if counts[i] <= n then c == counts[i] else c == n) {
        assert i < last ==> counts[..last][i] == counts[i];
      }
    }
  }

  /** They come in the order of the list: what more counts add comes after. */
  lemma {:induction false} RanInOrder(counts: seq<nat>, n: nat, existing: set<nat>, i: nat)
    requires i <= |counts|
    ensures Ran(counts[..i], n, existing) <= Ran(counts, n, existing)
    decreases |counts|
  {
    if i < |counts| {
      var last := |counts| - 1;
      RanInOrder(counts[..last], n, existing, i);
      assert counts[..last][..i] == counts[..i];
    } else {
      assert counts[..i] == counts;
    }
  }

  function Highest(counts: seq<nat>): nat {
    if counts == [] then 0 else Max(Highest(counts[..|counts| - 1]), counts[|counts| - 1])
  }

  ghost predicate NonDecreasing(counts: seq<nat>) {
    forall i, j :: 0 <= i < j < |counts| ==> counts[i] <= counts[j]
  }

  lemma {:induction false} HighestBounded(counts: seq<nat>, n: nat)
    requires forall k :: 0 <= k < |counts| ==> counts[k] <= n
    ensures Highest(counts) <= n
  {
    if counts != [] {
      HighestBounded(counts[..|counts| - 1], n);
    }
  }

  ghost predicate SharedVariant(v: Variant, c: nat, highest: nat, pods: seq<Pod>, nodes: seq<string>) {
    c <= |nodes| && highest <= |nodes| && v == Variant(c, nodes[c..], Unbound(pods, nodes, highest))
  }

  /** Each variant shows the pods unbound for the highest count so far. */
  ghost predicate SharedVariants(variants: seq<Variant>, ran: seq<nat>, pods: seq<Pod>, nodes: seq<string>) {
    && |variants| == |ran|
    && (forall k :: 0 <= k < |ran| ==> SharedVariant(variants[k], ran[k], Highest(ran[..k + 1]), pods, nodes))
  }

  lemma OneMoreVariant(variants: seq<Variant>, ran: seq<nat>, pods: seq<Pod>, nodes: seq<string>, c: nat, v: Variant)
    requires SharedVariants(variants, ran, pods, nodes) && c <= |nodes| && Highest(ran) <= |nodes|
    requires v == Variant(c, nodes[c..], Unbound(pods, nodes, Max(Highest(ran), c)))
    ensures SharedVariants(variants + [v], ran + [c], pods, nodes)
  {
    var ran' := ran + [c];
    var variants' := variants + [v];
    assert ran'[..|ran|] == ran;
    forall k | 0 <= k < |ran'| ensures SharedVariant(variants'[k], ran'[k], Highest(ran'[..k + 1]), pods, nodes) {
      if k < |ran| {
        assert ran'[..k + 1] == ran[..k + 1];
      } else {
        assert ran'[..k + 1] == ran';
      }
    }
  }

  lemma {:induction false} RanNonDecreasing(counts: seq<nat>, n: nat, existing: set<nat>)
    requires NonDecreasing(counts)
    ensures NonDecreasing(Ran(counts, n, existing))
    ensures counts != [] ==> forall k :: 0 <= k < |Ran(counts, n, existing)| ==>
      Ran(counts, n, existing)[k] <= Min(counts[|counts| - 1], n)
  {
    if counts != [] {
      RanNonDecreasing(counts[..|counts| - 1], n, existing);
    }
  }

  lemma {:induction false} HighestOfNonDecreasing(counts: seq<nat>)
    requires NonDecreasing(counts) && counts != []
    ensures Highest(counts) == counts[|counts| - 1]
  {
    var n := |counts| - 1;
    assert forall k :: 0 <= k < |counts[..n]| ==> counts[..n][k] <= counts[n];
    HighestBounded(counts[..n], counts[n]);
  }

  /** Counts that never go down give the variants that fresh copies would give. */
  lemma NonDecreasingIsFresh(variants: seq<Variant>, ran: seq<nat>, pods: seq<Pod>, nodes: seq<string>, k: nat)
    requires SharedVariants(variants, ran, pods, nodes) && NonDecreasing(ran) && k < |ran|
    ensures variants[k] == FreshVariant(pods, nodes, ran[k])
  {
    HighestOfNonDecreasing(ran[..k + 1]);
  }

  /** In general a variant is the fresh one exactly when no pod was on a node that an earlier,
      higher count removed and this one keeps. */
  lemma VariantIsFreshIff(variants: seq<Variant>, ran: seq<nat>, pods: seq<Pod>, nodes: seq<string>, k: nat)
    requires SharedVariants(variants, ran, pods, nodes) && k < |ran|
    ensures variants[k] == FreshVariant(pods, nodes, ran[k]) <==>
      forall i :: 0 <= i < |pods| && pods[i].nodeName in nodes[..Highest(ran[..k + 1])] ==>
        pods[i].nodeName == "" || pods[i].nodeName in nodes[..ran[k]]
  {
    var h := Highest(ran[..k + 1]);
    assert ran[..k + 1][..k] == ran[..k];
    assert ran[k] <= h;
    assert forall x :: x in nodes[..ran[k]] ==> x in nodes[..h];
    SameUnboundIff(pods, nodes, ran[k], h);
  }

  lemma SameUnboundIff(pods: seq<Pod>, nodes: seq<string>, n: nat, h: nat)
    requires n <= h <= |nodes|
    requires forall x :: x in nodes[..n] ==> x in nodes[..h]
    ensures Unbound(pods, nodes, h) == Unbound(pods, nodes, n) <==>
      forall i :: 0 <= i < |pods| && pods[i].nodeName in nodes[..h] ==>
        pods[i].nodeName == "" || pods[i].nodeName in nodes[..n]
  {
    var a, b := Unbound(pods, nodes, h), Unbound(pods, nodes, n);
    if forall i :: 0 <= i < |pods| && pods[i].nodeName in nodes[..h] ==>
      pods[i].nodeName == "" || pods[i].nodeName in nodes[..n]
    {
      forall i | 0 <= i < |pods| ensures a[i] == b[i] {
        assert a[i].nodeName == "" <==> b[i].nodeName == "";
      }
      assert a == b;
    }
    if a == b {
      forall i | 0 <= i < |pods| && pods[i].nodeName in nodes[..h]
        ensures pods[i].nodeName == "" || pods[i].nodeName in nodes[..n]
      {
        assert a[i].nodeName == "" && b[i].nodeName == "";
      }
    }
  }

  /** One run over the counts, writing a variant for each that has no file yet. */
  method GenSnapshotVariants(nodes: seq<string>, pods: array<Pod>, counts: seq<nat>, existing: set<nat>)
    returns (variants: seq<Variant>)
    modifies pods
    ensures SharedVariants(variants, Ran(counts, |nodes|, existing), old(pods[..]), nodes)
    ensures Highest(Ran(counts, |nodes|, existing)) <= |nodes| &&
      pods[..] == Unbound(old(pods[..]), nodes, Highest(Ran(counts, |nodes|, existing)))
    ensures NonDecreasing(counts) ==>
      forall k :: 0 <= k < |variants| ==>
        variants[k] == FreshVariant(old(pods[..]), nodes, Ran(counts, |nodes|, existing)[k])
  {
    variants := [];
    ghost var was := pods[..];
    var ran: seq<nat> := [];
    assert Unbound(was, nodes, 0) == was;
    for i := 0 to |counts|
      invariant ran == Ran(counts[..i], |nodes|, existing)
      invariant SharedVariants(variants, ran, was, nodes)
      invariant Highest(ran) <= |nodes| && pods[..] == Unbound(was, nodes, Highest(ran))
    {
      var c := Min(counts[i], |nodes|);
      assert counts[..i + 1][..i] == counts[..i];
      if c !in existing && c !in ran {
        UnboundTwice(was, nodes, Highest(ran), c);
        var v := RemoveNodes(nodes, pods, c);
        OneMoreVariant(variants, ran, was, nodes, c, v);
        assert (ran + [c])[..|ran|] == ran;
        variants, ran := variants + [v], ran + [c];
      }
    }
    assert counts[..|counts|] == counts;
    if NonDecreasing(counts) {
      RanNonDecreasing(counts, |nodes|, existing);
      forall k | 0 <= k < |variants| ensures variants[k] == FreshVariant(was, nodes, ran[k]) {
        NonDecreasingIsFresh(variants, ran, was, nodes, k);
      }
    }
  }

  /** The numbers of nodes that are removed. */
  const REMOVAL_COUNTS: seq<nat> := [1, 5, 10, 20]

  /** With these, every variant is the fresh one, whichever of them already have a file. */
  lemma RemovalCountsAreFresh(variants: seq<Variant>, existing: set<nat>, pods: seq<Pod>, nodes: seq<string>, k: nat)
    requires SharedVariants(variants, Ran(REMOVAL_COUNTS, |nodes|, existing), pods, nodes) && k < |variants|
    ensures variants[k] == FreshVariant(pods, nodes, Ran(REMOVAL_COUNTS, |nodes|, existing)[k])
  {
    RanNonDecreasing(REMOVAL_COUNTS, |nodes|, existing);
    NonDecreasingIsFresh(variants, Ran(REMOVAL_COUNTS, |nodes|, existing), pods, nodes, k);
  }

  ghost predicate AllFresh(variants: seq<Variant>, ran: seq<nat>, pods: seq<Pod>, nodes: seq<string>)
    requires forall k :: 0 <= k < |ran| ==> ran[k] <= |nodes|
  {
    |variants| == |ran| && forall k :: 0 <= k < |ran| ==> variants[k] == FreshVariant(pods, nodes, ran[k])
  }

  /** The variants that editing the shared pods gives. */
  ghost function Shared(ran: seq<nat>, pods: seq<Pod>, nodes: seq<string>): (variants: seq<Variant>)
    requires forall k :: 0 <= k < |ran| ==> ran[k] <= |nodes|
    ensures SharedVariants(variants, ran, pods, nodes)
  {
    if ran == [] then []
    else
      var n := |ran| - 1;
      HighestBounded(ran[..n], |nodes|);
      var v := Variant(ran[n], nodes[ran[n]..], Unbound(pods, nodes, Max(Highest(ran[..n]), ran[n])));
      OneMoreVariant(Shared(ran[..n], pods, nodes), ran[..n], pods, nodes, ran[n], v);
      assert ran[..n] + [ran[n]] == ran;
      Shared(ran[..n], pods, nodes) + [v]
  }

  lemma {:induction false} HighestCovers(counts: seq<nat>, k: nat)
    requires k < |counts|
    ensures counts[k] <= Highest(counts)
  {
    if k < |counts| - 1 {
      HighestCovers(counts[..|counts| - 1], k);
    }
  }

  /** A count below an earlier one goes wrong for a pod on the first node it keeps. */
  lemma LowerCountIsStale(ran: seq<nat>, nodes: seq<string>, i: nat, j: nat)
    requires forall k :: 0 <= k < |ran| ==> ran[k] <= |nodes|
    requires "" !in nodes && forall x, y :: 0 <= x < y < |nodes| ==> nodes[x] != nodes[y]
    requires i < j < |ran| && ran[i] > ran[j]
    ensures var pods := [Pod("p", nodes[ran[j]])];
      Shared(ran, pods, nodes)[j] != FreshVariant(pods, nodes, ran[j])
  {
    var kept := nodes[ran[j]];
    var pods, h := [Pod("p", kept)], Highest(ran[..j + 1]);
    HighestCovers(ran[..j + 1], i);
    assert SharedVariant(Shared(ran, pods, nodes)[j], ran[j], h, pods, nodes);
    assert nodes[..h][ran[j]] == kept;
    assert Unbound(pods, nodes, h)[0].nodeName == "";
    assert kept !in nodes[..ran[j]];
    assert Unbound(pods, nodes, ran[j])[0].nodeName == kept;
  }

  /** Which lists of counts give the fresh variants for every set of pods: those that never go
      down, and no others. */
  lemma AlwaysFreshIffNonDecreasing(ran: seq<nat>, nodes: seq<string>)
    requires forall k :: 0 <= k < |ran| ==> ran[k] <= |nodes|
    requires "" !in nodes && forall x, y :: 0 <= x < y < |nodes| ==> nodes[x] != nodes[y]
    ensures (forall pods :: AllFresh(Shared(ran, pods, nodes), ran, pods, nodes)) <==> NonDecreasing(ran)
  {
    if NonDecreasing(ran) {
      forall pods ensures AllFresh(Shared(ran, pods, nodes), ran, pods, nodes) {
        forall k: nat | k < |ran| ensures Shared(ran, pods, nodes)[k] == FreshVariant(pods, nodes, ran[k]) {
          NonDecreasingIsFresh(Shared(ran, pods, nodes), ran, pods, nodes, k);
        }
      }
    } else {
      var i, j :| 0 <= i < j < |ran| && ran[i] > ran[j];
      LowerCountIsStale(ran, nodes, i, j);
      assert !AllFresh(Shared(ran, [Pod("p", nodes[ran[j]])], nodes), ran, [Pod("p", nodes[ran[j]])], nodes);
    }
  }
}
