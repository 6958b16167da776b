/** The run tracker: which pods of a simulation run have been seen scheduled, and when the
    run counts as stable.  `Track` here is one poll as a function of values. */
module RunTracker {
  import opened ApiObjects
  import opened OverlaySpec
  import opened OverlayContents
  import opened OverlayFlat
  import opened OverlayTheorems

  datatype Event = Event(regarding: Key, action: string, reason: string)

  predicate IsBindingEvent(ev: Event) {
    !(ev.action != "Binding" && ev.reason != "Scheduled")
  }

  datatype Tracker = Tracker(
    leftover: set<Key>,
    byNode: map<string, set<Key>>,
    idle: nat,
    attempts: nat,
    received: nat,
    scheduled: nat)

  datatype TrackError = PodNotReadable(error: Error) | PodHasNoNode

  datatype Poll = Poll(tracker: Tracker, stabilized: bool, error: Option<TrackError>)

  function PodsOn(t: Tracker, node: string): set<Key> {
    if node in t.byNode then t.byNode[node] else {}
  }

  function AddScheduledPod(t: Tracker, pod: Key, node: string): Tracker {
    t.(byNode := t.byNode[node := PodsOn(t, node) + {pod}],
       scheduled := t.scheduled + 1,
       leftover := t.leftover - {pod},
       idle := 0)
  }

  function HandleEvent(t: Tracker, chain: seq<Cache>, ev: Event): (Tracker, Option<TrackError>)
    requires chain != []
  {
    match Lookup(chain, ev.regarding)
    case Err(e) => (t, Some(PodNotReadable(e)))
    case Ok(pod) =>
      if pod.nodeName == "" then (t, Some(PodHasNoNode))
      else (AddScheduledPod(t, pod.key, pod.nodeName), None)
  }

  /** Stops at the first event it cannot handle. */
  function TrackEvents(t: Tracker, chain: seq<Cache>, evs: seq<Event>): (Tracker, Option<TrackError>)
    requires chain != []
    decreases |evs|
  {
    if evs == [] then (t, None)
    else
      var t1 := t.(received := t.received + 1);
      if !IsBindingEvent(evs[0]) then TrackEvents(t1, chain, evs[1..])
      else
        var (t2, err) := HandleEvent(t1, chain, evs[0]);
        if err.Some? then (t2, err) else TrackEvents(t2, chain, evs[1..])
  }

  /** One event of a batch. */
  function TrackEvent(t: Tracker, chain: seq<Cache>, ev: Event): (Tracker, Option<TrackError>)
    requires chain != []
  {
    var t1 := t.(received := t.received + 1);
    if IsBindingEvent(ev) then HandleEvent(t1, chain, ev) else (t1, None)
  }

  lemma TrackEventsUnfolds(t: Tracker, chain: seq<Cache>, evs: seq<Event>, i: nat)
    requires chain != [] && i < |evs|
    ensures var (t', err) := TrackEvent(t, chain, evs[i]);
      TrackEvents(t, chain, evs[i..]) == if err.Some? then (t', err) else TrackEvents(t', chain, evs[i + 1..])
  {
    assert evs[i..][0] == evs[i] && evs[i..][1..] == evs[i + 1..];
  }

  /** Only an empty batch counts as idle, and only a handled binding event resets the
      count: a batch of other events does neither. */
  function Track(t: Tracker, chain: seq<Cache>, evs: seq<Event>, max: nat): Poll
    requires chain != []
  {
    var t1 := t.(attempts := t.attempts + 1);
    if evs == [] then
      var t2 := t1.(idle := t1.idle + 1);
      Poll(t2, t2.idle > max, None)
    else
      var (t2, err) := TrackEvents(t1, chain, evs);
      Poll(t2, false, err)
  }

  // ---------------------------------------------------------------------------
  // Conservation of pods
  // ---------------------------------------------------------------------------

  ghost predicate FiledUnder(t: Tracker, p: Key, n: string) {
    n in t.byNode && p in t.byNode[n]
  }

  ghost function ScheduledPods(t: Tracker): set<Key> {
    set n, p | n in t.byNode && p in t.byNode[n] :: p
  }

  /** Every pod is filed under the node that the view shows for it. */
  ghost predicate FilingsHold(t: Tracker, m: Contents) {
    forall p, n :: FiledUnder(t, p, n) ==> n != "" && p in m && m[p].nodeName == n
  }

  /** What holds whatever the events are about, and whatever was filed in earlier runs: of the
      initially unscheduled pods, those that are not filed are left over. */
  ghost predicate Tracks(t: Tracker, initial: set<Key>, m: Contents) {
    t.leftover == initial - ScheduledPods(t) && FilingsHold(t, m)
  }

  /** Every initially unscheduled pod is either left over or filed under one node, and that
      node is the one the view shows for it. */
  ghost predicate Accounts(t: Tracker, initial: set<Key>, m: Contents) {
    && t.leftover + ScheduledPods(t) == initial
    && t.leftover !! ScheduledPods(t)
    && FilingsHold(t, m)
  }

  lemma AccountsIffNoStrays(t: Tracker, initial: set<Key>, m: Contents)
    ensures Accounts(t, initial, m) <==> Tracks(t, initial, m) && ScheduledPods(t) <= initial
  {
  }

  ghost predicate RegardOnly(evs: seq<Event>, initial: set<Key>) {
    forall i :: 0 <= i < |evs| ==> IsBindingEvent(evs[i]) ==> evs[i].regarding in initial
  }

  lemma NoPodOnTwoNodes(t: Tracker, initial: set<Key>, m: Contents, p: Key, n: string, n': string)
    requires Accounts(t, initial, m)
    requires FiledUnder(t, p, n) && FiledUnder(t, p, n')
    ensures n == n'
  {
  }

  lemma SameFiling(t: Tracker, t': Tracker)
    requires t'.byNode == t.byNode
    ensures ScheduledPods(t') == ScheduledPods(t)
    ensures forall p, n :: FiledUnder(t', p, n) <==> FiledUnder(t, p, n)
  {
  }

  lemma AddFiles(t: Tracker, pod: Key, node: string)
    ensures ScheduledPods(AddScheduledPod(t, pod, node)) == ScheduledPods(t) + {pod}
    ensures forall p, n :: FiledUnder(AddScheduledPod(t, pod, node), p, n) <==>
      FiledUnder(t, p, n) || (p == pod && n == node)
  {
    var t' := AddScheduledPod(t, pod, node);
    forall p | p in ScheduledPods(t) ensures p in ScheduledPods(t') {
      var n :| n in t.byNode && p in t.byNode[n];
      assert n in t'.byNode && p in t'.byNode[n];
    }
    assert pod in t'.byNode[node];
  }

  /** `t'` has filed more than `t`, and if the events regard only `initial` pods, only those. */
  ghost predicate FiledMore(t: Tracker, t': Tracker, evs: seq<Event>, initial: set<Key>) {
    && ScheduledPods(t) <= ScheduledPods(t')
    && (RegardOnly(evs, initial) ==> ScheduledPods(t') <= ScheduledPods(t) + initial)
  }

  lemma EventTracks(t: Tracker, chain: seq<Cache>, ev: Event, initial: set<Key>)
    requires chain != [] && AllKeyed(chain) && Tracks(t, initial, Flat(chain))
    ensures var (t', err) := TrackEvent(t, chain, ev);
      Tracks(t', initial, Flat(chain)) && FiledMore(t, t', [ev], initial)
  {
    var t1 := t.(received := t.received + 1);
    SameFiling(t, t1);
    LookupReadsFlat(chain, ev.regarding);
    FlatIsNamed(chain);
    if IsBindingEvent(ev) && ev.regarding in Flat(chain) && Flat(chain)[ev.regarding].nodeName != "" {
      AddFiles(t1, ev.regarding, Flat(chain)[ev.regarding].nodeName);
      assert RegardOnly([ev], initial) ==> [ev][0].regarding in initial;
    }
  }

  lemma {:induction false} TrackEventsTracks(t: Tracker, chain: seq<Cache>, evs: seq<Event>, initial: set<Key>)
    requires chain != [] && AllKeyed(chain) && Tracks(t, initial, Flat(chain))
    ensures var t' := TrackEvents(t, chain, evs).0;
      Tracks(t', initial, Flat(chain)) && FiledMore(t, t', evs, initial)
    decreases |evs|
  {
    if evs != [] {
      assert evs[0..] == evs;
      TrackEventsUnfolds(t, chain, evs, 0);
      EventTracks(t, chain, evs[0], initial);
      assert RegardOnly(evs, initial) ==> RegardOnly([evs[0]], initial) && RegardOnly(evs[1..], initial);
      var (t', err) := TrackEvent(t, chain, evs[0]);
      if err.None? {
        TrackEventsTracks(t', chain, evs[1..], initial);
      }
    }
  }

  /** A poll keeps the account, whatever the events regard. */
  lemma TrackKeepsTracks(t: Tracker, chain: seq<Cache>, evs: seq<Event>, max: nat, initial: set<Key>)
    requires chain != [] && AllKeyed(chain) && Tracks(t, initial, Flat(chain))
    ensures var t' := Track(t, chain, evs, max).tracker;
      Tracks(t', initial, Flat(chain)) && FiledMore(t, t', evs, initial)
  {
    var t1 := t.(attempts := t.attempts + 1);
    SameFiling(t, t1);
    if evs == [] {
      SameFiling(t, Track(t, chain, evs, max).tracker);
    } else {
      TrackEventsTracks(t1, chain, evs, initial);
    }
  }

  lemma TrackKeepsAccount(t: Tracker, chain: seq<Cache>, evs: seq<Event>, max: nat, initial: set<Key>)
    requires chain != [] && AllKeyed(chain)
    requires Accounts(t, initial, Flat(chain)) && RegardOnly(evs, initial)
    ensures Accounts(Track(t, chain, evs, max).tracker, initial, Flat(chain))
  {
    AccountsIffNoStrays(t, initial, Flat(chain));
    TrackKeepsTracks(t, chain, evs, max, initial);
    AccountsIffNoStrays(Track(t, chain, evs, max).tracker, initial, Flat(chain));
  }

  /** The account survives whatever the scheduler binds, because bound pods stay bound. */
  lemma BindingsKeepAccount(t: Tracker, initial: set<Key>, m: Contents, m': Contents)
    requires BoundKept(m, m')
    ensures Tracks(t, initial, m) ==> Tracks(t, initial, m')
    ensures Accounts(t, initial, m) ==> Accounts(t, initial, m')
  {
  }

  // ---------------------------------------------------------------------------
  // What resets the idle count
  // ---------------------------------------------------------------------------

  ghost function BindingEvents(evs: seq<Event>): nat {
    if evs == [] then 0 else (if IsBindingEvent(evs[0]) then 1 else 0) + BindingEvents(evs[1..])
  }

  /** Every handled binding event is counted and resets the idle count; no other event does. */
  lemma {:induction false} TrackEventsResets(t: Tracker, chain: seq<Cache>, evs: seq<Event>)
    requires chain != []
    ensures var (t', err) := TrackEvents(t, chain, evs);
      t.scheduled <= t'.scheduled <= t.scheduled + BindingEvents(evs) &&
      t'.idle == (if t'.scheduled == t.scheduled then t.idle else 0) && t'.attempts == t.attempts &&
      (err.None? ==> t'.scheduled == t.scheduled + BindingEvents(evs))
    decreases |evs|
  {
    if evs != [] {
      var t1 := t.(received := t.received + 1);
      if !IsBindingEvent(evs[0]) {
        TrackEventsResets(t1, chain, evs[1..]);
      } else {
        var (t2, err) := HandleEvent(t1, chain, evs[0]);
        if err.None? {
          TrackEventsResets(t2, chain, evs[1..]);
        }
      }
    }
  }

  // ---------------------------------------------------------------------------
  // Starting a run
  // ---------------------------------------------------------------------------

  ghost function UnboundPods(m: Contents): set<Key> {
    set p | p in m && m[p].nodeName == ""
  }

  /** Init replaces the leftover pods and clears nothing else.  The account is right at the
      start of a run if and only if no pod is filed from an earlier one. */
  lemma InitAccountsIffNothingFiled(t: Tracker, initial: set<Key>, m: Contents)
    requires FilingsHold(t, m)
    ensures Accounts(t.(leftover := initial), initial, m) <==> ScheduledPods(t) == {}
  {
    SameFiling(t, t.(leftover := initial));
  }

  /** What is filed from earlier runs on the same view does no harm otherwise: those pods are
      bound, so they are not among the ones this run starts from. */
  lemma InitTracks(t: Tracker, m: Contents)
    requires FilingsHold(t, m)
    ensures Tracks(t.(leftover := UnboundPods(m)), UnboundPods(m), m)
  {
    var t' := t.(leftover := UnboundPods(m));
    SameFiling(t, t');
    forall p | p in ScheduledPods(t) ensures p !in UnboundPods(m) {
      var n :| n in t.byNode && p in t.byNode[n];
      assert FiledUnder(t, p, n);
    }
  }

  // ---------------------------------------------------------------------------
  // What a whole run does to the pods its view still shows as unscheduled
  // ---------------------------------------------------------------------------

  /** However a run came to `t` and `m'`: the pods unscheduled in the view afterwards are among
      the leftover ones, and these are fewer than at the start exactly if one of those the run
      started from was filed. */
  lemma RunLowersUnscheduled(t: Tracker, m: Contents, m': Contents)
    requires BoundKept(m, m') && m'.Keys == m.Keys
    requires Tracks(t, UnboundPods(m), m')
    ensures UnboundPods(m') <= t.leftover <= UnboundPods(m)
    ensures t.leftover < UnboundPods(m) <==> ScheduledPods(t) * UnboundPods(m) != {}
  {
    forall p | p in UnboundPods(m') ensures p in t.leftover {
      assert p in UnboundPods(m);
      if p in ScheduledPods(t) {
        var n :| n in t.byNode && p in t.byNode[n];
        assert FiledUnder(t, p, n);
      }
    }
    var filed := ScheduledPods(t) * UnboundPods(m);
    if filed != {} {
      var p :| p in filed;
      assert p !in t.leftover && p in UnboundPods(m);
    } else {
      assert forall p :: p in UnboundPods(m) ==> p !in filed;
      assert t.leftover == UnboundPods(m);
    }
  }
}
