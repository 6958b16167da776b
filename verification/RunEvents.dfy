/** What a poll makes of its events, told by their action and reason and by the pods that the view
    shows, and what a simulation answers. */
module RunEvents {
  import opened ApiObjects
  import opened OverlaySpec
  import opened OverlayContents
  import opened OverlayFlat
  import opened RunTracker
  import opened RunRounds

  /** An event with another action and another reason is counted and passed over. */
  lemma OtherEventsPassedOver(t: Tracker, chain: seq<Cache>, ev: Event)
    requires chain != [] && ev.action != "Binding" && ev.reason != "Scheduled"
    ensures TrackEvent(t, chain, ev) == (t.(received := t.received + 1), None)
  {
  }

  /** A binding event files the pod it regards under the pod's node; if the view does not show the
      pod, or shows it without a node, nothing is filed and the poll fails. */
  lemma BindingEventFiles(t: Tracker, chain: seq<Cache>, ev: Event)
    requires chain != [] && AllKeyed(chain) && (ev.action == "Binding" || ev.reason == "Scheduled")
    ensures var m, (t', err) := Flat(chain), TrackEvent(t, chain, ev);
      var p := ev.regarding;
      if p !in m then
        t' == t.(received := t.received + 1) && err.Some? && err.value.PodNotReadable? && IsNotFound(err.value.error)
      else if m[p].nodeName == "" then t' == t.(received := t.received + 1) && err == Some(PodHasNoNode)
      else
        err == None && t'.leftover == t.leftover - {p} && t'.idle == 0 && t'.scheduled == t.scheduled + 1 &&
        t'.received == t.received + 1 && t'.attempts == t.attempts &&
        forall q, n :: FiledUnder(t', q, n) <==> FiledUnder(t, q, n) || (q == p && n == m[p].nodeName)
  {
    LookupReadsFlat(chain, ev.regarding);
    FlatIsNamed(chain);
    var t1 := t.(received := t.received + 1);
    SameFiling(t, t1);
    if ev.regarding in Flat(chain) {
      AddFiles(t1, ev.regarding, Flat(chain)[ev.regarding].nodeName);
    }
  }

  /** The event is about a binding that the view does not bear out. */
  ghost predicate Unfounded(m: Contents, ev: Event) {
    (ev.action == "Binding" || ev.reason == "Scheduled") &&
    (ev.regarding !in m || m[ev.regarding].nodeName == "")
  }

  ghost predicate Reports(m: Contents, ev: Event, p: Key, n: string) {
    (ev.action == "Binding" || ev.reason == "Scheduled") &&
    ev.regarding == p && p in m && m[p].nodeName == n != ""
  }

  /** What one event files, in both directions. */
  lemma EventFilesReported(t: Tracker, chain: seq<Cache>, ev: Event, p: Key, n: string)
    requires chain != [] && AllKeyed(chain)
    ensures var m, (t', err) := Flat(chain), TrackEvent(t, chain, ev);
      (err.Some? <==> Unfounded(m, ev)) &&
      (FiledUnder(t', p, n) <==> FiledUnder(t, p, n) || Reports(m, ev, p, n)) &&
      t'.received == t.received + 1 && t'.attempts == t.attempts
  {
    if ev.action == "Binding" || ev.reason == "Scheduled" {
      BindingEventFiles(t, chain, ev);
    } else {
      OtherEventsPassedOver(t, chain, ev);
    }
    SameFiling(t, t.(received := t.received + 1));
  }

  /** A batch of events fails exactly if one of them is unfounded.  Otherwise it files exactly the
      reported pods, each under its node, and counts every event. */
  lemma {:induction false} BatchFilesReported(t: Tracker, chain: seq<Cache>, evs: seq<Event>, p: Key, n: string)
    requires chain != [] && AllKeyed(chain)
    ensures var m, (t', err) := Flat(chain), TrackEvents(t, chain, evs);
      (err.Some? <==> exists i :: 0 <= i < |evs| && Unfounded(m, evs[i])) &&
      (err.None? ==>
        (FiledUnder(t', p, n) <==> FiledUnder(t, p, n) || exists i :: 0 <= i < |evs| && Reports(m, evs[i], p, n)) &&
        t'.received == t.received + |evs| && t'.attempts == t.attempts)
    decreases |evs|
  {
    if evs != [] {
      assert evs[0..] == evs;
      TrackEventsUnfolds(t, chain, evs, 0);
      EventFilesReported(t, chain, evs[0], p, n);
      var (t1, err) := TrackEvent(t, chain, evs[0]);
      if err.None? {
        BatchFilesReported(t1, chain, evs[1..], p, n);
        assert forall i :: 0 < i < |evs| ==> evs[i] == evs[1..][i - 1];
      }
    }
  }

  /** One poll: it is counted, it fails exactly if an event is unfounded, and it counts as stable
      exactly if there is no event and more than `max` empty polls in a row. */
  lemma PollByEvents(t: Tracker, chain: seq<Cache>, evs: seq<Event>, max: nat)
    requires chain != [] && AllKeyed(chain)
    ensures var p := Track(t, chain, evs, max);
      (p.error.Some? <==> exists i :: 0 <= i < |evs| && Unfounded(Flat(chain), evs[i])) &&
      (p.stabilized <==> evs == [] && t.idle + 1 > max) &&
      (p.error.None? ==> p.tracker.attempts == t.attempts + 1 && p.tracker.received == t.received + |evs|)
  {
    if evs != [] {
      BatchFilesReported(t.(attempts := t.attempts + 1), chain, evs, Key("", ""), "");
    }
  }

  /** A simulation has a result exactly if there was a pod to schedule and its run came to rest: not
      if it was cancelled, and not if the volume work or a poll failed.  The result tells the pods
      that are left over, and whether a pod is filed under a node that the simulation created. */
  lemma SimulationAnswers(
    t: Tracker, nodes: set<string>, l: Local, below: seq<Cache>, created: set<string>, rounds: seq<Round>, max: nat)
    ensures var initial := ToSchedule([l.cache] + below);
      var r := RunOf(t.(leftover := initial), l, below, rounds, max);
      var s := Simulate(t, nodes, l, below, created, rounds, max);
      (s.result.Some? <==> initial != {} && (r.end == Stabilized || r.end == NothingLeft)) &&
      (initial == {} ==> s.tracker == t && s.nodes == nodes && s.own == l) &&
      (initial != {} ==> s.tracker == r.tracker && s.nodes == nodes + created && s.own == r.own) &&
      (s.result.Some? ==>
        s.result.value.leftover == s.tracker.leftover &&
        (s.result.value.placed <==> exists p, n :: n in s.nodes && FiledUnder(s.tracker, p, n)))
  {
    var s := Simulate(t, nodes, l, below, created, rounds, max);
    if AssignedTo(s.tracker, s.nodes) {
      var n :| n in s.nodes && PodsOn(s.tracker, n) != {};
      var p :| p in PodsOn(s.tracker, n);
      assert FiledUnder(s.tracker, p, n);
    }
    if p, n :| n in s.nodes && FiledUnder(s.tracker, p, n) {
      assert p in PodsOn(s.tracker, n);
    }
  }
}
