/** One simulation run: the tracker's state as an object, and the loop that works and polls
    until the run is stable. */
module SimulationRun {
  import opened ApiObjects
  import opened OverlaySpec
  import opened OverlayContents
  import opened OverlayFlat
  import opened OverlayListing
  import opened ResourceStore
  import opened RunRounds
  import opened RunTracker
  import opened Views

  class EventSink {
    var events: seq<Event>

    constructor ()
      ensures events == []
    {
      events := [];
    }

    method Record(evs: seq<Event>)
      modifies this
      ensures events == old(events) + evs
    {
      events := events + evs;
    }

    /** List and Reset in one step. */
    method Drain() returns (evs: seq<Event>)
      modifies this
      ensures evs == old(events) && events == []
    {
      evs := events;
      events := [];
    }
  }

  class RunState {
    const view: View
    const sink: EventSink
    var leftover: set<Key>
    var byNode: map<string, set<Key>>
    var idle: nat
    var attempts: nat
    var received: nat
    var scheduled: nat
    var scaleOutNodes: set<string>

    ghost function Tracked(): Tracker
      reads this
    {
      Tracker(leftover, byNode, idle, attempts, received, scheduled)
    }

    /** A fresh state, which is also what a reset leaves. */
    constructor (view: View, sink: EventSink)
      ensures this.view == view && this.sink == sink
      ensures Tracked() == Tracker({}, map[], 0, 0, 0, 0) && scaleOutNodes == {}
    {
      this.view := view;
      this.sink := sink;
      leftover, byNode := {}, map[];
      idle, attempts, received, scheduled := 0, 0, 0, 0;
      scaleOutNodes := {};
    }

    /** Takes the unscheduled pods from a listing of the view; fails if there are none. */
    method Init() returns (ok: bool)
      requires view.Valid()
      modifies this
      ensures ok == (ToSchedule(old(view.Caches())) != {}) && scaleOutNodes == old(scaleOutNodes)
      ensures Tracked() == if ok then old(Tracked()).(leftover := ToSchedule(old(view.Caches()))) else old(Tracked())
    {
      var pods, _ := view.ListMetaObjects(MatchAll);
      UnscheduledKeys(pods, Listed(old(view.Caches()), MatchAll));
      var unscheduled := UnscheduledOf(pods);
      ok := unscheduled != {};
      if ok {
        leftover := unscheduled;
      }
    }

    method AddScheduledPod(pod: Key, node: string)
      modifies this
      ensures Tracked() == RunTracker.AddScheduledPod(old(Tracked()), pod, node) && scaleOutNodes == old(scaleOutNodes)
    {
      var pods := if node in byNode then byNode[node] else {};
      byNode := byNode[node := pods + {pod}];
      scheduled := scheduled + 1;
      leftover := leftover - {pod};
      idle := 0;
    }

    method HandleScheduledPodEvent(ev: Event) returns (err: Option<TrackError>)
      requires view.Linked()
      modifies this
      ensures (Tracked(), err) == HandleEvent(old(Tracked()), view.Caches(), ev) && scaleOutNodes == old(scaleOutNodes)
    {
      var pod := view.GetObject(ev.regarding);
      if pod.Err? {
        return Some(PodNotReadable(pod.error));
      }
      if pod.value.nodeName == "" {
        return Some(PodHasNoNode);
      }
      AddScheduledPod(pod.value.key, pod.value.nodeName);
      err := None;
    }

    method HandleOneEvent(ev: Event) returns (err: Option<TrackError>)
      requires view.Linked()
      modifies this
      ensures (Tracked(), err) == TrackEvent(old(Tracked()), view.Caches(), ev) && scaleOutNodes == old(scaleOutNodes)
    {
      received := received + 1;
      err := None;
      if IsBindingEvent(ev) {
        err := HandleScheduledPodEvent(ev);
      }
    }

    method HandleEvents(evs: seq<Event>) returns (err: Option<TrackError>)
      requires view.Linked()
      modifies this
      ensures (Tracked(), err) == TrackEvents(old(Tracked()), view.Caches(), evs) && scaleOutNodes == old(scaleOutNodes)
    {
      ghost var chain := view.Caches();
      ghost var want := TrackEvents(Tracked(), chain, evs);
      assert evs[0..] == evs;
      for i := 0 to |evs|
        invariant TrackEvents(Tracked(), chain, evs[i..]) == want && scaleOutNodes == old(scaleOutNodes)
      {
        TrackEventsUnfolds(Tracked(), chain, evs, i);
        err := HandleOneEvent(evs[i]);
        if err.Some? {
          return;
        }
      }
      err := None;
    }

    method Track(max: nat) returns (stabilized: bool, err: Option<TrackError>)
      requires view.Linked()
      modifies this, sink
      ensures Poll(Tracked(), stabilized, err) == RunTracker.Track(old(Tracked()), view.Caches(), old(sink.events), max)
      ensures sink.events == [] && scaleOutNodes == old(scaleOutNodes)
    {
      attempts := attempts + 1;
      stabilized, err := false, None;
      var evs := sink.Drain();
      if evs == [] {
        idle := idle + 1;
        stabilized := idle > max;
        return;
      }
      err := HandleEvents(evs);
    }

    /** One round up to its poll: volume work, then the scheduler, then the poll, which also
        finds the events that were in the sink before. */
    method WorkAndPoll(round: Round, max: nat) returns (stabilized: bool, err: Option<TrackError>)
      requires view.Valid()
      modifies this, sink, view, view.store, view.store.counter
      ensures view.Valid() && view.Below() == old(view.Below()) && sink.events == [] &&
        scaleOutNodes == old(scaleOutNodes)
      ensures view.Own() == WrittenAll(old(view.Own()), old(view.Below()), round.writes)
      ensures var polled := round.(events := old(sink.events) + round.events);
        Poll(Tracked(), stabilized, err) == PollOf(old(Tracked()), view.Own(), old(view.Below()), polled, max)
    {
      if round.volumeWork {
        idle := 0;
      }
      SchedulerWrites(view, round.writes);
      sink.Record(round.events);
      assert view.Caches() == [view.store.cache] + view.Below();
      stabilized, err := Track(max);
    }

    /** The loop of a run is the run that the rounds amount to. */
    method WorkAndTrackUntilStabilized(rounds: seq<Round>, max: nat) returns (end: RunEnd, ghost polls: nat)
      requires view.Valid()
      modifies this, sink, view, view.store, view.store.counter
      ensures view.Valid() && view.Below() == old(view.Below()) && scaleOutNodes == old(scaleOutNodes)
      ensures Run(Tracked(), view.Own(), end, polls) ==
        RunOf(old(Tracked()), old(view.Own()), old(view.Below()), WithPending(old(sink.events), rounds), max)
    {
      ghost var below := view.Below();
      ghost var want := RunOf(Tracked(), view.Own(), below, WithPending(sink.events, rounds), max);
      end, polls := Cancelled, 0;
      assert rounds[0..] == rounds;
      for i := 0 to |rounds|
        invariant view.Valid() && view.Below() == below && scaleOutNodes == old(scaleOutNodes)
        invariant end.Cancelled? && polls == i && (i > 0 ==> sink.events == [])
        invariant MorePolls(RunOf(Tracked(), view.Own(), below, WithPending(sink.events, rounds[i..]), max), i) == want
      {
        var round := rounds[i];
        NextRound(Tracked(), view.Own(), below, sink.events, rounds, i, max);
        if round.workFails {
          if round.volumeWork {
            idle := 0;
          }
          return WorkFailed, i;
        }
        var stabilized, err := WorkAndPoll(round, max);
        polls := i + 1;
        if err.Some? {
          return TrackFailed(err.value), polls;
        }
        if stabilized {
          return Stabilized, polls;
        }
        if leftover == {} {
          return NothingLeft, polls;
        }
        NothingPending(rounds[i + 1..]);
      }
      assert rounds[|rounds|..] == [];
    }

    /** A run of the simulation: Init, the new nodes, the loop, and the result. */
    method Simulate(created: set<string>, rounds: seq<Round>, max: nat) returns (result: Option<RunResult>)
      requires view.Valid()
      modifies this, sink, view, view.store, view.store.counter
      ensures view.Valid() && view.Below() == old(view.Below())
      ensures Simulated(Tracked(), scaleOutNodes, view.Own(), result) ==
        RunRounds.Simulate(old(Tracked()), old(scaleOutNodes), old(view.Own()), old(view.Below()), created,
                           WithPending(old(sink.events), rounds), max)
    {
      assert view.Caches() == [view.store.cache] + view.Below();
      var ok := Init();
      if !ok {
        return None;
      }
      scaleOutNodes := scaleOutNodes + created;
      var end, _ := WorkAndTrackUntilStabilized(rounds, max);
      if !EndedWell(end) {
        return None;
      }
      var placed := exists n :: n in scaleOutNodes && n in byNode && byNode[n] != {};
      assert placed == AssignedTo(Tracked(), scaleOutNodes);
      result := Some(RunResult(leftover, placed));
    }
  }

  /** The scheduler writes to pods through the view, in any order, some of them perhaps twice. */
  method SchedulerWrites(view: View, writes: seq<PodWrite>)
    requires view.Valid()
    modifies view, view.store, view.store.counter
    ensures view.Valid() && view.Below() == old(view.Below())
    ensures view.Own() == WrittenAll(old(view.Own()), old(view.Below()), writes)
  {
    ghost var below := view.Below();
    ghost var want := WrittenAll(view.Own(), below, writes);
    assert writes[0..] == writes;
    for i := 0 to |writes|
      invariant view.Valid() && view.Below() == below
      invariant WrittenAll(view.Own(), below, writes[i..]) == want
    {
      assert writes[i..][0] == writes[i] && writes[i..][1..] == writes[i + 1..];
      match writes[i]
      case Assign(k, node) => var _ := view.UpdatePodNodeBinding(k, node);
      case SetStatus(k, patch) => var _ := view.PatchObjectStatus(k, patch);
    }
    assert writes[|writes|..] == [];
  }

  ghost function MorePolls(r: Run, n: nat): Run {
    r.(polls := r.polls + n)
  }

  lemma NothingPending(rounds: seq<Round>)
    ensures WithPending([], rounds) == rounds
  {
    if rounds != [] {
      assert [] + rounds[0].events == rounds[0].events;
      assert [rounds[0]] + rounds[1..] == rounds;
    }
  }

  /** The run from round `i` on, unfolded once. */
  lemma NextRound(t: Tracker, l: Local, below: seq<Cache>, pending: seq<Event>, rounds: seq<Round>, i: nat, max: nat)
    requires i < |rounds|
    ensures var round := rounds[i].(events := pending + rounds[i].events);
      var l1 := WrittenAll(l, below, round.writes);
      var p := PollOf(t, l1, below, round, max);
      RunOf(t, l, below, WithPending(pending, rounds[i..]), max) ==
        if round.workFails then Run(AfterWork(t, round), l, WorkFailed, 0)
        else if p.error.Some? then Run(p.tracker, l1, TrackFailed(p.error.value), 1)
        else if p.stabilized then Run(p.tracker, l1, Stabilized, 1)
        else if p.tracker.leftover == {} then Run(p.tracker, l1, NothingLeft, 1)
        else MorePolls(RunOf(p.tracker, l1, below, rounds[i + 1..], max), 1)
  {
    var all := WithPending(pending, rounds[i..]);
    assert all[0] == rounds[i].(events := pending + rounds[i].events) && all[1..] == rounds[i + 1..];
  }

  method UnscheduledOf(pods: seq<Obj>) returns (names: set<Key>)
    ensures names == set p | p in pods && p.nodeName == "" :: p.key
  {
    names := {};
    for i := 0 to |pods|
      invariant names == set p | p in pods[..i] && p.nodeName == "" :: p.key
    {
      assert pods[..i + 1] == pods[..i] + [pods[i]];
      if pods[i].nodeName == "" {
        names := names + {pods[i].key};
      }
    }
    assert pods[..|pods|] == pods;
  }

  lemma UnscheduledKeys(pods: seq<Obj>, m: Contents)
    requires Enumerates(pods, m)
    ensures (set p | p in pods && p.nodeName == "" :: p.key) == UnboundPods(m)
  {
    EnumeratesOnce(pods, m);
    forall k | k in UnboundPods(m) ensures k in set p | p in pods && p.nodeName == "" :: p.key {
      var i :| 0 <= i < |pods| && pods[i].key == k;
      assert pods[i] in pods && m[pods[i].key] == pods[i];
    }
  }
}
