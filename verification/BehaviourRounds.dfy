/** Rounds of scheduler writes and events that make a run on a view of pods do what a behaviour of the
    planner's model says. */
module BehaviourRounds {
  import opened ApiObjects
  import opened OverlaySpec
  import opened OverlayContents
  import opened OverlayFlat
  import opened OverlayWorld
  import opened OverlayRuns
  import opened OverlayTheorems
  import opened PlannerViews
  import PlannerSpec
  import opened RunTracker
  import opened RunRounds
  import opened RunFeeds
  import opened PlannerRefinement

  type RunBehaviour = PlannerSpec.RunBehaviour

  /** It copies and files nothing but pods. */
  ghost predicate OfPods(b: RunBehaviour, pods: set<Pod>) {
    b.copies <= pods && b.filed <= pods
  }

  // ---------------------------------------------------------------------------
  // Rounds for a behaviour
  // ---------------------------------------------------------------------------

  ghost function BindsFor(w: World, v: nat, b: RunBehaviour): set<Pod>
    requires Linked(w.views) && v < |w.views|
  {
    b.binds * UnboundPods(Shown(w.views, v))
  }

  /** Binds pods to the new node `n` and to the other node `o`. */
  ghost function WritesFor(w: World, v: nat, b: RunBehaviour, n: string, o: string): seq<PodWrite>
    requires Linked(w.views) && v < |w.views|
  {
    var binds := BindsFor(w, v, b);
    AssignAndTouch(SeqOf(binds * b.onNew), n, SeqOf(binds - b.onNew), o, SeqOf(b.copies))
  }

  ghost function FilesFor(w: World, v: nat, b: RunBehaviour): set<Pod>
    requires Linked(w.views) && v < |w.views|
  {
    b.filed - (UnboundPods(Shown(w.views, v)) - BindsFor(w, v, b))
  }

  /** No pod has an empty namespace. */
  const NO_POD := Key("", "")

  ghost function RoundsFor(w: World, v: nat, b: RunBehaviour, n: string, o: string, max: nat): seq<Round>
    requires Linked(w.views) && v < |w.views|
  {
    var reports := Reports(SeqOf(FilesFor(w, v, b)));
    Doing(WritesFor(w, v, b, n, o), if b.fails then reports + [Report(NO_POD)] else reports, max)
  }

  // ---------------------------------------------------------------------------
  // What they do
  // ---------------------------------------------------------------------------

  /** The node of each pod once the writes are done. */
  ghost predicate BoundAs(w: World, v: nat, b: RunBehaviour, n: string, o: string, m': Contents)
    requires Linked(w.views) && v < |w.views|
  {
    var binds := BindsFor(w, v, b);
    NowOnTwo(Shown(w.views, v), m', binds * b.onNew, n, binds - b.onNew, o)
  }

  lemma SeqOfUnbound(m: Contents, s: set<Key>)
    requires s <= UnboundPods(m)
    ensures AllUnbound(m, SeqOf(s)) && Distinct(SeqOf(s)) && SetOf(SeqOf(s)) == s
  {
    var xs := SeqOf(s);
    forall i | 0 <= i < |xs| ensures xs[i] in m && m[xs[i]].nodeName == "" {
      assert xs[i] in xs;
    }
  }

  lemma SeqOfVisible(m: Contents, s: set<Key>)
    requires s <= m.Keys
    ensures SetOf(SeqOf(s)) == s && forall i :: 0 <= i < |SeqOf(s)| ==> SeqOf(s)[i] in m
  {
    var xs := SeqOf(s);
    forall i | 0 <= i < |xs| ensures xs[i] in m {
      assert xs[i] in xs;
    }
  }

  /** The view shows exactly these pods. */
  ghost predicate ShowsPods(w: World, v: nat, pods: set<Pod>) {
    PodView(w, v, pods) && Shown(w.views, v).Keys == pods
  }

  lemma WritesDo(w: World, v: nat, b: RunBehaviour, n: string, o: string, pods: set<Pod>)
    requires ShowsPods(w, v, pods) && OfPods(b, pods)
    ensures var l, below, base := LocalOf(w, v), Below(w.views, v), ShownBelow(w.views, v);
      var l' := WrittenAll(l, below, WritesFor(w, v, b, n, o));
      Sound(l', below, base) && l'.cache.Keys == l.cache.Keys + BindsFor(w, v, b) + b.copies &&
      BoundAs(w, v, b, n, o, Overlay(base, l'.cache))
  {
    var m, binds := Shown(w.views, v), BindsFor(w, v, b);
    WorldIsSound(w, v);
    ShownUnfolds(w.views, v);
    SeqOfUnbound(m, binds * b.onNew);
    SeqOfUnbound(m, binds - b.onNew);
    SeqOfVisible(m, b.copies);
    AssignAndTouchDo(LocalOf(w, v), Below(w.views, v), ShownBelow(w.views, v),
      SeqOf(binds * b.onNew), n, SeqOf(binds - b.onNew), o, SeqOf(b.copies));
    assert binds * b.onNew + (binds - b.onNew) == binds;
  }

  lemma BoundBySomeone(
    m: Contents, m': Contents, xs: set<Key>, n: string, ys: set<Key>, o: string, files: set<Key>)
    requires NowOnTwo(m, m', xs, n, ys, o) && n != "" && o != ""
    requires files <= m.Keys && files !! (UnboundPods(m) - (xs + ys))
    ensures AllBound(m', SeqOf(files))
  {
    var fs := SeqOf(files);
    forall i | 0 <= i < |fs| ensures fs[i] in m' && m'[fs[i]].nodeName != "" {
      assert fs[i] in fs && fs[i] in files;
      assert fs[i] !in UnboundPods(m) - (xs + ys);
    }
  }

  lemma FilesAreBound(w: World, v: nat, b: RunBehaviour, n: string, o: string, pods: set<Pod>, m': Contents)
    requires ShowsPods(w, v, pods) && OfPods(b, pods) && n != "" && o != "" && BoundAs(w, v, b, n, o, m')
    ensures AllBound(m', SeqOf(FilesFor(w, v, b)))
  {
    var binds := BindsFor(w, v, b);
    assert binds * b.onNew + (binds - b.onNew) == binds;
    BoundBySomeone(Shown(w.views, v), m', binds * b.onNew, n, binds - b.onNew, o, FilesFor(w, v, b));
  }

  /** The chain of the view when the writes are done. */
  ghost function ChainAfter(w: World, v: nat, b: RunBehaviour, n: string, o: string): seq<Cache>
    requires Linked(w.views) && v < |w.views|
  {
    [WrittenAll(LocalOf(w, v), Below(w.views, v), WritesFor(w, v, b, n, o)).cache] + Below(w.views, v)
  }

  lemma FlatAfterWrites(w: World, v: nat, b: RunBehaviour, n: string, o: string, pods: set<Pod>)
    requires ShowsPods(w, v, pods) && OfPods(b, pods)
    ensures AllKeyed(ChainAfter(w, v, b, n, o)) && BoundAs(w, v, b, n, o, Flat(ChainAfter(w, v, b, n, o)))
  {
    var below := Below(w.views, v);
    var l1 := WrittenAll(LocalOf(w, v), below, WritesFor(w, v, b, n, o));
    WritesDo(w, v, b, n, o, pods);
    ChainIsKeyed(w, v);
    FlatOnTop(l1.cache, below);
  }

  lemma NoSuchPod(w: World, v: nat, b: RunBehaviour, n: string, o: string, pods: set<Pod>, m': Contents)
    requires ShowsPods(w, v, pods) && BoundAs(w, v, b, n, o, m')
    ensures NO_POD !in m'
  {
  }

  /** A run of these rounds, from whatever the tracker holds when it starts. */
  lemma RoundsDo(w: World, v: nat, b: RunBehaviour, n: string, o: string, pods: set<Pod>, t: Tracker, max: nat)
    requires ShowsPods(w, v, pods) && OfPods(b, pods) && n != "" && o != ""
    ensures var l, below := LocalOf(w, v), Below(w.views, v);
      var r := RunOf(t, l, below, RoundsFor(w, v, b, n, o, max), max);
      r.own == WrittenAll(l, below, WritesFor(w, v, b, n, o)) && (EndedWell(r.end) <==> !b.fails) &&
      ScheduledPods(r.tracker) == ScheduledPods(t) + FilesFor(w, v, b)
  {
    var xs := SeqOf(FilesFor(w, v, b));
    FlatAfterWrites(w, v, b, n, o, pods);
    FilesAreBound(w, v, b, n, o, pods, Flat(ChainAfter(w, v, b, n, o)));
    NoSuchPod(w, v, b, n, o, pods, Flat(ChainAfter(w, v, b, n, o)));
    assert SetOf(xs) == FilesFor(w, v, b);
    if b.fails {
      DoesAndFails(t, LocalOf(w, v), Below(w.views, v), WritesFor(w, v, b, n, o), xs, NO_POD, max);
    } else {
      DoesAndRests(t, LocalOf(w, v), Below(w.views, v), WritesFor(w, v, b, n, o), xs, max);
    }
  }
}
