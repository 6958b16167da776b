/** Rounds that make a run do a given thing: bind some pods, copy some, report some, and then either
    fail or come to rest. */
module RunFeeds {
  import opened ApiObjects
  import opened OverlaySpec
  import opened OverlayContents
  import opened OverlayFlat
  import opened OverlayTheorems
  import opened RunTracker
  import opened RunRounds

  // ---------------------------------------------------------------------------
  // Sets as sequences, and names that are not taken
  // ---------------------------------------------------------------------------

  ghost function SeqOf(s: set<Key>): (xs: seq<Key>)
    ensures forall x :: x in xs <==> x in s
    ensures forall i, j :: 0 <= i < j < |xs| ==> xs[i] != xs[j]
  {
    if s == {} then []
    else
      var x :| x in s;
      [x] + SeqOf(s - {x})
  }

  function SetOf(xs: seq<Key>): set<Key> {
    set x | x in xs
  }

  lemma SetOfUnfolds(xs: seq<Key>)
    requires xs != []
    ensures SetOf(xs) == {xs[0]} + SetOf(xs[1..])
  {
    assert xs == [xs[0]] + xs[1..];
  }

  /** Longer than every name taken. */
  ghost function Longer(taken: set<string>): (name: string)
    ensures name != "" && forall t :: t in taken ==> |t| < |name|
  {
    if taken == {} then "n"
    else
      var t :| t in taken;
      t + Longer(taken - {t})
  }

  lemma LongerIsNew(taken: set<string>)
    ensures Longer(taken) !in taken
  {
  }

  // ---------------------------------------------------------------------------
  // Writes
  // ---------------------------------------------------------------------------

  function Assigns(pods: seq<Key>, node: string): seq<PodWrite> {
    seq(|pods|, i requires 0 <= i < |pods| => Assign(pods[i], node))
  }

  const KEEP: int -> Option<int> := x => Some(x)

  /** Status patches that change nothing but make a copy. */
  function Touches(pods: seq<Key>): seq<PodWrite> {
    seq(|pods|, i requires 0 <= i < |pods| => SetStatus(pods[i], KEEP))
  }

  lemma {:induction false} WrittenInTwo(l: Local, below: seq<Cache>, a: seq<PodWrite>, b: seq<PodWrite>)
    ensures WrittenAll(l, below, a + b) == WrittenAll(WrittenAll(l, below, a), below, b)
    decreases |a|
  {
    if a == [] {
      assert a + b == b;
    } else {
      assert (a + b)[0] == a[0] && (a + b)[1..] == a[1..] + b;
      WrittenInTwo(Written(l, below, a[0]), below, a[1..], b);
    }
  }

  /** The same pods, bound as before except that those in `xs` are now on `node`. */
  ghost predicate NowOn(m: Contents, m': Contents, xs: set<Key>, node: string) {
    m'.Keys == m.Keys && forall p :: p in m ==> m'[p].nodeName == if p in xs then node else m[p].nodeName
  }

  /** Writes have made copies of `added`, and put the pods `xs` on `node`. */
  ghost predicate Wrote(
    l: Local, l': Local, below: seq<Cache>, base: Contents, added: set<Key>, xs: set<Key>, node: string)
  {
    && Sound(l', below, base) && l'.cache.Keys == l.cache.Keys + added
    && NowOn(Overlay(base, l.cache), Overlay(base, l'.cache), xs, node)
  }

  lemma NowOnTransitive(a: Contents, b: Contents, c: Contents, xs: set<Key>, ys: set<Key>, node: string)
    requires NowOn(a, b, xs, node) && NowOn(b, c, ys, node)
    ensures NowOn(a, c, xs + ys, node)
  {
  }

  lemma WroteMore(
    l: Local, l1: Local, l2: Local, below: seq<Cache>, base: Contents, a: set<Key>, b: set<Key>, xs: set<Key>,
    ys: set<Key>, node: string)
    requires Wrote(l, l1, below, base, a, xs, node) && Wrote(l1, l2, below, base, b, ys, node)
    ensures Wrote(l, l2, below, base, a + b, xs + ys, node)
  {
    NowOnTransitive(Overlay(base, l.cache), Overlay(base, l1.cache), Overlay(base, l2.cache), xs, ys, node);
  }

  lemma WroteNothing(l: Local, below: seq<Cache>, base: Contents, node: string)
    requires Sound(l, below, base)
    ensures Wrote(l, l, below, base, {}, {}, node)
  {
  }

  lemma AssignOne(l: Local, below: seq<Cache>, base: Contents, k: Key, node: string)
    requires Sound(l, below, base) && k in Overlay(base, l.cache) && Overlay(base, l.cache)[k].nodeName == ""
    ensures Wrote(l, Written(l, below, Assign(k, node)), below, base, {k}, {k}, node)
  {
    BindKeepsSound(l, below, base, k, node);
    BindIsMapUpdate(l, below, base, k, node);
    BindAdds(l, below, base, k, node);
  }

  lemma BindAdds(l: Local, below: seq<Cache>, base: Contents, k: Key, node: string)
    requires Sound(l, below, base) && k in Overlay(base, l.cache) && Overlay(base, l.cache)[k].nodeName == ""
    ensures Bind(l, below, k, node).0.cache.Keys == l.cache.Keys + {k}
  {
    TopAnswers(l, below, base, k);
    if k !in l.cache {
      assert Answers(base, k, Lookup(below, k));
      var d := Lookup(below, k).value;
      CopyKeepsSound(l, below, base, k);
      TopAnswers(Put(l, d), below, base, k);
    }
  }

  ghost predicate AllUnbound(m: Contents, xs: seq<Key>) {
    forall i :: 0 <= i < |xs| ==> xs[i] in m && m[xs[i]].nodeName == ""
  }

  ghost predicate Distinct(xs: seq<Key>) {
    forall i, j :: 0 <= i < j < |xs| ==> xs[i] != xs[j]
  }

  lemma RestUnbound(m: Contents, m': Contents, xs: seq<Key>, node: string)
    requires xs != [] && Distinct(xs) && AllUnbound(m, xs) && NowOn(m, m', {xs[0]}, node)
    ensures Distinct(xs[1..]) && AllUnbound(m', xs[1..])
  {
  }

  lemma {:induction false} AssignAll(l: Local, below: seq<Cache>, base: Contents, xs: seq<Key>, node: string)
    requires Sound(l, below, base) && Distinct(xs) && AllUnbound(Overlay(base, l.cache), xs)
    ensures Wrote(l, WrittenAll(l, below, Assigns(xs, node)), below, base, SetOf(xs), SetOf(xs), node)
    decreases |xs|
  {
    if xs == [] {
      WroteNothing(l, below, base, node);
      assert SetOf(xs) == {};
    } else {
      var l1 := Written(l, below, Assign(xs[0], node));
      AssignOne(l, below, base, xs[0], node);
      assert Assigns(xs, node)[0] == Assign(xs[0], node) && Assigns(xs, node)[1..] == Assigns(xs[1..], node);
      RestUnbound(Overlay(base, l.cache), Overlay(base, l1.cache), xs, node);
      AssignAll(l1, below, base, xs[1..], node);
      SetOfUnfolds(xs);
      WroteMore(l, l1, WrittenAll(l, below, Assigns(xs, node)), below, base, {xs[0]}, SetOf(xs[1..]), {xs[0]},
        SetOf(xs[1..]), node);
    }
  }

  lemma TouchAdds(l: Local, below: seq<Cache>, base: Contents, k: Key)
    requires Sound(l, below, base) && k in Overlay(base, l.cache)
    ensures PatchStatus(l, below, k, KEEP).0.cache.Keys == l.cache.Keys + {k}
  {
    TopAnswers(l, below, base, k);
    if k !in l.cache {
      assert Answers(base, k, Lookup(below, k));
      CopyKeepsSound(l, below, base, k);
    }
  }

  lemma TouchOne(l: Local, below: seq<Cache>, base: Contents, k: Key)
    requires Sound(l, below, base) && k in Overlay(base, l.cache)
    ensures Wrote(l, Written(l, below, SetStatus(k, KEEP)), below, base, {k}, {}, "")
  {
    PatchStatusKeepsSound(l, below, base, k, KEEP);
    PatchStatusIsMapUpdate(l, below, base, k, KEEP);
    TouchAdds(l, below, base, k);
  }

  lemma {:induction false} TouchAll(l: Local, below: seq<Cache>, base: Contents, xs: seq<Key>)
    requires Sound(l, below, base) && forall i :: 0 <= i < |xs| ==> xs[i] in Overlay(base, l.cache)
    ensures Wrote(l, WrittenAll(l, below, Touches(xs)), below, base, SetOf(xs), {}, "")
    decreases |xs|
  {
    if xs == [] {
      WroteNothing(l, below, base, "");
      assert SetOf(xs) == {};
    } else {
      var l1 := Written(l, below, SetStatus(xs[0], KEEP));
      TouchOne(l, below, base, xs[0]);
      assert Touches(xs)[0] == SetStatus(xs[0], KEEP) && Touches(xs)[1..] == Touches(xs[1..]);
      TouchAll(l1, below, base, xs[1..]);
      SetOfUnfolds(xs);
      var none: set<Key> := {};
      assert none + none == none;
      WroteMore(l, l1, WrittenAll(l, below, Touches(xs)), below, base, {xs[0]}, SetOf(xs[1..]), none, none, "");
    }
  }

  /** The same pods, of which `xs` are now on one node and `ys` on another. */
  ghost predicate NowOnTwo(m: Contents, m': Contents, xs: set<Key>, n: string, ys: set<Key>, o: string) {
    m'.Keys == m.Keys &&
    forall p :: p in m ==> m'[p].nodeName == if p in xs then n else if p in ys then o else m[p].nodeName
  }

  lemma OnTwoNodes(
    a: Contents, b: Contents, c: Contents, d: Contents, xs: set<Key>, n: string, ys: set<Key>, o: string)
    requires NowOn(a, b, xs, n) && NowOn(b, c, ys, o) && NowOn(c, d, {}, "") && xs !! ys
    ensures NowOnTwo(a, d, xs, n, ys, o)
  {
  }

  function AssignAndTouch(xs: seq<Key>, n: string, ys: seq<Key>, o: string, zs: seq<Key>): seq<PodWrite> {
    Assigns(xs, n) + Assigns(ys, o) + Touches(zs)
  }

  lemma StillUnbound(m: Contents, m': Contents, xs: set<Key>, node: string, ys: seq<Key>)
    requires NowOn(m, m', xs, node) && AllUnbound(m, ys) && xs !! SetOf(ys)
    ensures AllUnbound(m', ys)
  {
    forall i | 0 <= i < |ys| ensures ys[i] in m' && m'[ys[i]].nodeName == "" {
      assert ys[i] in SetOf(ys);
    }
  }

  lemma AssignAndTouchDo(
    l: Local, below: seq<Cache>, base: Contents, xs: seq<Key>, n: string, ys: seq<Key>, o: string, zs: seq<Key>)
    requires Sound(l, below, base) && Distinct(xs) && Distinct(ys) && SetOf(xs) !! SetOf(ys)
    requires AllUnbound(Overlay(base, l.cache), xs) && AllUnbound(Overlay(base, l.cache), ys)
    requires forall i :: 0 <= i < |zs| ==> zs[i] in Overlay(base, l.cache)
    ensures var l' := WrittenAll(l, below, AssignAndTouch(xs, n, ys, o, zs));
      Sound(l', below, base) && l'.cache.Keys == l.cache.Keys + SetOf(xs) + SetOf(ys) + SetOf(zs) &&
      NowOnTwo(Overlay(base, l.cache), Overlay(base, l'.cache), SetOf(xs), n, SetOf(ys), o)
  {
    var m := Overlay(base, l.cache);
    var l1 := WrittenAll(l, below, Assigns(xs, n));
    AssignAll(l, below, base, xs, n);
    StillUnbound(m, Overlay(base, l1.cache), SetOf(xs), n, ys);
    var l2 := WrittenAll(l1, below, Assigns(ys, o));
    AssignAll(l1, below, base, ys, o);
    var l3 := WrittenAll(l2, below, Touches(zs));
    TouchAll(l2, below, base, zs);
    WrittenInTwo(l, below, Assigns(xs, n), Assigns(ys, o));
    WrittenInTwo(l, below, Assigns(xs, n) + Assigns(ys, o), Touches(zs));
    OnTwoNodes(m, Overlay(base, l1.cache), Overlay(base, l2.cache), Overlay(base, l3.cache), SetOf(xs), n,
      SetOf(ys), o);
  }

  // ---------------------------------------------------------------------------
  // Events
  // ---------------------------------------------------------------------------

  function Report(pod: Key): Event {
    Event(pod, "Binding", "Scheduled")
  }

  function Reports(pods: seq<Key>): seq<Event> {
    seq(|pods|, i requires 0 <= i < |pods| => Report(pods[i]))
  }

  ghost predicate AllBound(m: Contents, xs: seq<Key>) {
    forall i :: 0 <= i < |xs| ==> xs[i] in m && m[xs[i]].nodeName != ""
  }

  ghost predicate FiledToo(t: Tracker, t': Tracker, xs: set<Key>) {
    ScheduledPods(t') == ScheduledPods(t) + xs && t'.leftover == t.leftover - xs
  }

  lemma ReportOne(t: Tracker, chain: seq<Cache>, p: Key) returns (t': Tracker)
    requires chain != [] && AllKeyed(chain) && p in Flat(chain) && Flat(chain)[p].nodeName != ""
    ensures FiledToo(t, t', {p}) && TrackEvent(t, chain, Report(p)) == (t', None)
  {
    LookupReadsFlat(chain, p);
    FlatIsNamed(chain);
    var t0 := t.(received := t.received + 1);
    t' := AddScheduledPod(t0, p, Flat(chain)[p].nodeName);
    SameFiling(t, t0);
    AddFiles(t0, p, Flat(chain)[p].nodeName);
  }

  lemma ReportsUnfold(t: Tracker, chain: seq<Cache>, xs: seq<Key>, more: seq<Event>, t1: Tracker)
    requires chain != [] && xs != [] && TrackEvent(t, chain, Report(xs[0])) == (t1, None)
    ensures TrackEvents(t, chain, Reports(xs) + more) == TrackEvents(t1, chain, Reports(xs[1..]) + more)
  {
    var evs := Reports(xs) + more;
    assert evs[0..] == evs && evs[0] == Report(xs[0]) && evs[1..] == Reports(xs[1..]) + more;
    TrackEventsUnfolds(t, chain, evs, 0);
  }

  lemma FiledOneByOne(t: Tracker, t1: Tracker, t2: Tracker, xs: seq<Key>)
    requires xs != [] && FiledToo(t, t1, {xs[0]}) && FiledToo(t1, t2, SetOf(xs[1..]))
    ensures FiledToo(t, t2, SetOf(xs))
  {
    SetOfUnfolds(xs);
  }

  /** Reports on bound pods file them, one by one. */
  lemma {:induction false} ReportAll(t: Tracker, chain: seq<Cache>, xs: seq<Key>, more: seq<Event>)
      returns (t': Tracker)
    requires chain != [] && AllKeyed(chain) && AllBound(Flat(chain), xs)
    ensures FiledToo(t, t', SetOf(xs)) &&
      TrackEvents(t, chain, Reports(xs) + more) == TrackEvents(t', chain, more)
    decreases |xs|
  {
    if xs == [] {
      t' := t;
      assert Reports(xs) + more == more && SetOf(xs) == {};
    } else {
      var t1 := ReportOne(t, chain, xs[0]);
      t' := ReportAll(t1, chain, xs[1..], more);
      ReportsUnfold(t, chain, xs, more, t1);
      FiledOneByOne(t, t1, t', xs);
    }
  }

  // ---------------------------------------------------------------------------
  // Rounds
  // ---------------------------------------------------------------------------

  function Quiet(n: nat): seq<Round> {
    seq(n, _ => Round(false, false, [], []))
  }

  /** One round in which all happens, and as many quiet ones as it takes to come to rest. */
  function Doing(writes: seq<PodWrite>, events: seq<Event>, max: nat): seq<Round> {
    [Round(false, false, writes, events)] + Quiet(max + 1)
  }

  lemma {:induction false} ComesToRest(t: Tracker, l: Local, below: seq<Cache>, n: nat, max: nat)
    requires t.leftover != {} && n + t.idle > max && n > 0
    ensures var r := RunOf(t, l, below, Quiet(n), max);
      r.end.Stabilized? && r.own == l && r.tracker.byNode == t.byNode && r.tracker.leftover == t.leftover
    decreases n
  {
    var rounds := Quiet(n);
    assert rounds[0] == Round(false, false, [], []) && rounds[1..] == Quiet(n - 1);
    var p := PollOf(t, l, below, rounds[0], max);
    if !p.stabilized {
      ComesToRest(p.tracker, l, below, n - 1, max);
    }
  }

  lemma DoingUnfolds(t: Tracker, l: Local, below: seq<Cache>, writes: seq<PodWrite>, events: seq<Event>, max: nat)
    ensures var l1, round := WrittenAll(l, below, writes), Round(false, false, writes, events);
      var p := PollOf(t, l1, below, round, max);
      RunOf(t, l, below, Doing(writes, events, max), max) ==
        if p.error.Some? then Run(p.tracker, l1, TrackFailed(p.error.value), 1)
        else if p.stabilized then Run(p.tracker, l1, Stabilized, 1)
        else if p.tracker.leftover == {} then Run(p.tracker, l1, NothingLeft, 1)
        else
          var rest := RunOf(p.tracker, l1, below, Quiet(max + 1), max);
          rest.(polls := rest.polls + 1)
  {
    var rounds := Doing(writes, events, max);
    assert rounds[0] == Round(false, false, writes, events) && rounds[1..] == Quiet(max + 1);
  }

  lemma PollFiles(t: Tracker, chain: seq<Cache>, xs: seq<Key>, max: nat)
    requires chain != [] && AllKeyed(chain) && AllBound(Flat(chain), xs)
    ensures var p := Track(t, chain, Reports(xs), max); p.error.None? && FiledToo(t, p.tracker, SetOf(xs))
  {
    var t1 := t.(attempts := t.attempts + 1);
    SameFiling(t, t1);
    if xs == [] {
      SameFiling(t, Track(t, chain, [], max).tracker);
      assert Reports(xs) == [] && SetOf(xs) == {};
    } else {
      var t' := ReportAll(t1, chain, xs, []);
      assert Reports(xs) + [] == Reports(xs);
    }
  }

  lemma PollFails(t: Tracker, chain: seq<Cache>, xs: seq<Key>, bad: Key, max: nat)
    requires chain != [] && AllKeyed(chain) && AllBound(Flat(chain), xs) && bad !in Flat(chain)
    ensures var p := Track(t, chain, Reports(xs) + [Report(bad)], max);
      p.error.Some? && FiledToo(t, p.tracker, SetOf(xs))
  {
    var t1 := t.(attempts := t.attempts + 1);
    SameFiling(t, t1);
    var t' := ReportAll(t1, chain, xs, [Report(bad)]);
    LookupReadsFlat(chain, bad);
    SameFiling(t', t'.(received := t'.received + 1));
  }

  /** A run that makes these writes, files these pods and comes to rest. */
  lemma DoesAndRests(t: Tracker, l: Local, below: seq<Cache>, writes: seq<PodWrite>, xs: seq<Key>, max: nat)
    requires var chain := [WrittenAll(l, below, writes).cache] + below; AllKeyed(chain) && AllBound(Flat(chain), xs)
    ensures var r := RunOf(t, l, below, Doing(writes, Reports(xs), max), max);
      EndedWell(r.end) && r.own == WrittenAll(l, below, writes) && FiledToo(t, r.tracker, SetOf(xs))
  {
    var l1, round := WrittenAll(l, below, writes), Round(false, false, writes, Reports(xs));
    DoingUnfolds(t, l, below, writes, Reports(xs), max);
    PollFiles(t, [l1.cache] + below, xs, max);
    var p := PollOf(t, l1, below, round, max);
    if !p.stabilized && p.tracker.leftover != {} {
      ComesToRest(p.tracker, l1, below, max + 1, max);
      SameFiling(p.tracker, RunOf(p.tracker, l1, below, Quiet(max + 1), max).tracker);
    }
  }

  /** A run that makes these writes, files these pods and then fails on an event it cannot read. */
  lemma DoesAndFails(
    t: Tracker, l: Local, below: seq<Cache>, writes: seq<PodWrite>, xs: seq<Key>, bad: Key, max: nat)
    requires var chain := [WrittenAll(l, below, writes).cache] + below;
      AllKeyed(chain) && AllBound(Flat(chain), xs) && bad !in Flat(chain)
    ensures var r := RunOf(t, l, below, Doing(writes, Reports(xs) + [Report(bad)], max), max);
      !EndedWell(r.end) && r.own == WrittenAll(l, below, writes) && FiledToo(t, r.tracker, SetOf(xs))
  {
    DoingUnfolds(t, l, below, writes, Reports(xs) + [Report(bad)], max);
    PollFails(t, [WrittenAll(l, below, writes).cache] + below, xs, bad, max);
  }
}
