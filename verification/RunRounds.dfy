/** A simulation run as a function of values: rounds of volume work, scheduler writes and one
    poll, until the run is stable, nothing is left over, or something fails. */
module RunRounds {
  import opened ApiObjects
  import opened OverlaySpec
  import opened OverlayContents
  import opened OverlayFlat
  import opened OverlayListing
  import opened OverlayTheorems
  import opened RunTracker

  /** What the scheduler does to a pod through the view: bind it, or report on it in its status. */
  datatype PodWrite = Assign(key: Key, node: string) | SetStatus(key: Key, patch: int -> Option<int>)

  /** What happens between two polls: whether the volume work of the round fails or does
      something, what the scheduler writes, and which events it reports. */
  datatype Round = Round(workFails: bool, volumeWork: bool, writes: seq<PodWrite>, events: seq<Event>)

  datatype RunEnd = Stabilized | NothingLeft | TrackFailed(error: TrackError) | WorkFailed | Cancelled

  /** `polls`: how many rounds came to their poll. */
  datatype Run = Run(tracker: Tracker, own: Local, end: RunEnd, polls: nat)

  function Written(l: Local, below: seq<Cache>, w: PodWrite): Local {
    match w
    case Assign(k, node) => Bind(l, below, k, node).0
    case SetStatus(k, patch) => PatchStatus(l, below, k, patch).0
  }

  function WrittenAll(l: Local, below: seq<Cache>, writes: seq<PodWrite>): Local
    decreases |writes|
  {
    if writes == [] then l else WrittenAll(Written(l, below, writes[0]), below, writes[1..])
  }

  function AfterWork(t: Tracker, round: Round): Tracker {
    if round.volumeWork then t.(idle := 0) else t
  }

  /** The poll that ends a round, on what the view has become. */
  function PollOf(t: Tracker, l: Local, below: seq<Cache>, round: Round, max: nat): Poll {
    Track(AfterWork(t, round), [l.cache] + below, round.events, max)
  }

  /** `rounds` is what the environment does; when it is used up, the context was cancelled. */
  function RunOf(t: Tracker, l: Local, below: seq<Cache>, rounds: seq<Round>, max: nat): Run
    decreases |rounds|
  {
    if rounds == [] then Run(t, l, Cancelled, 0)
    else if rounds[0].workFails then Run(AfterWork(t, rounds[0]), l, WorkFailed, 0)
    else
      var l1 := WrittenAll(l, below, rounds[0].writes);
      var p := PollOf(t, l1, below, rounds[0], max);
      if p.error.Some? then Run(p.tracker, l1, TrackFailed(p.error.value), 1)
      else if p.stabilized then Run(p.tracker, l1, Stabilized, 1)
      else if p.tracker.leftover == {} then Run(p.tracker, l1, NothingLeft, 1)
      else
        var rest := RunOf(p.tracker, l1, below, rounds[1..], max);
        rest.(polls := rest.polls + 1)
  }

  /** Events still in the sink when a run starts are polled with those of its first round. */
  function WithPending(pending: seq<Event>, rounds: seq<Round>): seq<Round> {
    if rounds == [] then [] else [rounds[0].(events := pending + rounds[0].events)] + rounds[1..]
  }

  // ---------------------------------------------------------------------------
  // A run from its start to its result
  // ---------------------------------------------------------------------------

  /** The pods without a node in a listing of the view. */
  ghost function ToSchedule(chain: seq<Cache>): set<Key>
    requires chain != []
  {
    UnboundPods(Listed(chain, MatchAll))
  }

  /** `placed`: some pod was put on a node that the simulation created since it was reset. */
  datatype RunResult = RunResult(leftover: set<Key>, placed: bool)

  /** `nodes`: the nodes created since the last reset; `result` is None if the run failed. */
  datatype Simulated = Simulated(tracker: Tracker, nodes: set<string>, own: Local, result: Option<RunResult>)

  predicate AssignedTo(t: Tracker, nodes: set<string>) {
    exists n :: n in nodes && PodsOn(t, n) != {}
  }

  predicate EndedWell(end: RunEnd) {
    end.Stabilized? || end.NothingLeft?
  }

  /** A run of a simulation: it starts from whatever the tracker holds, and fails at once if the
      view shows no pod to schedule. */
  ghost function Simulate(t: Tracker, nodes: set<string>, l: Local, below: seq<Cache>, created: set<string>,
                          rounds: seq<Round>, max: nat): Simulated
  {
    var initial := ToSchedule([l.cache] + below);
    if initial == {} then Simulated(t, nodes, l, None)
    else
      var r := RunOf(t.(leftover := initial), l, below, rounds, max);
      Simulated(r.tracker, nodes + created, r.own,
        if EndedWell(r.end) then Some(RunResult(r.tracker.leftover, AssignedTo(r.tracker, nodes + created))) else None)
  }

  // ---------------------------------------------------------------------------
  // What the scheduler's writes keep
  // ---------------------------------------------------------------------------

  lemma BoundKeptTransitive(a: Contents, b: Contents, c: Contents)
    requires BoundKept(a, b) && BoundKept(b, c)
    ensures BoundKept(a, c)
  {
  }

  /** A write keeps every binding that is visible and makes no pod appear or vanish. */
  lemma WriteKeepsBound(l: Local, below: seq<Cache>, base: Contents, w: PodWrite)
    requires Sound(l, below, base)
    ensures var l' := Written(l, below, w);
      Sound(l', below, base) && Grows(l, l') &&
      BoundKept(Overlay(base, l.cache), Overlay(base, l'.cache)) &&
      Overlay(base, l'.cache).Keys == Overlay(base, l.cache).Keys
  {
    match w
    case Assign(k, node) =>
      BindKeepsSound(l, below, base, k, node);
      BindIsMapUpdate(l, below, base, k, node);
    case SetStatus(k, patch) =>
      PatchStatusKeepsSound(l, below, base, k, patch);
      PatchStatusIsMapUpdate(l, below, base, k, patch);
  }

  lemma {:induction false} WritesKeepBound(l: Local, below: seq<Cache>, base: Contents, writes: seq<PodWrite>)
    requires Sound(l, below, base)
    ensures var l' := WrittenAll(l, below, writes);
      Sound(l', below, base) && Grows(l, l') &&
      BoundKept(Overlay(base, l.cache), Overlay(base, l'.cache)) &&
      Overlay(base, l'.cache).Keys == Overlay(base, l.cache).Keys
    decreases |writes|
  {
    if writes != [] {
      var l1 := Written(l, below, writes[0]);
      WriteKeepsBound(l, below, base, writes[0]);
      WritesKeepBound(l1, below, base, writes[1..]);
      BoundKeptTransitive(Overlay(base, l.cache), Overlay(base, l1.cache),
                          Overlay(base, WrittenAll(l, below, writes).cache));
    }
  }

  // ---------------------------------------------------------------------------
  // Conservation over a whole run
  // ---------------------------------------------------------------------------

  lemma FlatOnTop(c: Cache, below: seq<Cache>)
    ensures Flat([c] + below) == Overlay(Flat(below), c)
  {
    assert ([c] + below)[1..] == below;
  }

  lemma RoundTracks(t: Tracker, l: Local, below: seq<Cache>, round: Round, max: nat, initial: set<Key>)
    requires Keyed(l.cache) && AllKeyed(below) && Tracks(t, initial, Overlay(Flat(below), l.cache))
    ensures var t' := PollOf(t, l, below, round, max).tracker;
      Tracks(t', initial, Overlay(Flat(below), l.cache)) && FiledMore(t, t', round.events, initial)
  {
    FlatOnTop(l.cache, below);
    SameFiling(t, AfterWork(t, round));
    TrackKeepsTracks(AfterWork(t, round), [l.cache] + below, round.events, max, initial);
  }

  ghost predicate RoundsRegardOnly(rounds: seq<Round>, initial: set<Key>) {
    forall i :: 0 <= i < |rounds| ==> RegardOnly(rounds[i].events, initial)
  }

  /** The view may have bound more pods, and the tracker filed more of them. */
  ghost predicate Advances(t: Tracker, l: Local, t': Tracker, l': Local, base: Contents, initial: set<Key>) {
    var m, m' := Overlay(base, l.cache), Overlay(base, l'.cache);
    && Keyed(l'.cache) && Grows(l, l') && BoundKept(m, m') && m'.Keys == m.Keys
    && Tracks(t', initial, m') && ScheduledPods(t) <= ScheduledPods(t')
  }

  lemma AdvancesTransitive(
    t: Tracker, l: Local, t1: Tracker, l1: Local, t2: Tracker, l2: Local, base: Contents, initial: set<Key>)
    requires Advances(t, l, t1, l1, base, initial) && Advances(t1, l1, t2, l2, base, initial)
    ensures Advances(t, l, t2, l2, base, initial)
  {
    BoundKeptTransitive(Overlay(base, l.cache), Overlay(base, l1.cache), Overlay(base, l2.cache));
  }

  lemma RoundAdvances(t: Tracker, l: Local, below: seq<Cache>, round: Round, max: nat, initial: set<Key>)
    requires Keyed(l.cache) && AllKeyed(below) && Tracks(t, initial, Overlay(Flat(below), l.cache))
    ensures var l1 := WrittenAll(l, below, round.writes);
      var t1 := PollOf(t, l1, below, round, max).tracker;
      Advances(t, l, t1, l1, Flat(below), initial) && FiledMore(t, t1, round.events, initial)
  {
    var base := Flat(below);
    ChainShowsFlat(below);
    WritesKeepBound(l, below, base, round.writes);
    var l1 := WrittenAll(l, below, round.writes);
    BindingsKeepAccount(t, initial, Overlay(base, l.cache), Overlay(base, l1.cache));
    RoundTracks(t, l1, below, round, max, initial);
  }

  /** Over every run, whatever the scheduler writes and reports: the pods left over are the
      initial ones that are not filed, every filed pod has the node it is filed under, and no
      pod bound in the view is bound anew. */
  lemma {:induction false} RunTracks(
    t: Tracker, l: Local, below: seq<Cache>, rounds: seq<Round>, max: nat, initial: set<Key>)
    requires Keyed(l.cache) && AllKeyed(below) && Tracks(t, initial, Overlay(Flat(below), l.cache))
    ensures var r := RunOf(t, l, below, rounds, max);
      Advances(t, l, r.tracker, r.own, Flat(below), initial) &&
      (RoundsRegardOnly(rounds, initial) ==> ScheduledPods(r.tracker) <= ScheduledPods(t) + initial)
    decreases |rounds|
  {
    if rounds != [] {
      SameFiling(t, AfterWork(t, rounds[0]));
      if !rounds[0].workFails {
        RoundAdvances(t, l, below, rounds[0], max, initial);
        assert RoundsRegardOnly(rounds, initial) ==>
          RegardOnly(rounds[0].events, initial) && RoundsRegardOnly(rounds[1..], initial);
        var l1 := WrittenAll(l, below, rounds[0].writes);
        var p := PollOf(t, l1, below, rounds[0], max);
        if p.error.None? && !p.stabilized && p.tracker.leftover != {} {
          var rest := RunOf(p.tracker, l1, below, rounds[1..], max);
          RunTracks(p.tracker, l1, below, rounds[1..], max, initial);
          AdvancesTransitive(t, l, p.tracker, l1, rest.tracker, rest.own, Flat(below), initial);
        }
      }
    }
  }

  /** If the events regard only initially unscheduled pods, leftover and filed pods partition
      those at the end of every run that started so. */
  lemma RunKeepsAccount(t: Tracker, l: Local, below: seq<Cache>, rounds: seq<Round>, max: nat, initial: set<Key>)
    requires Keyed(l.cache) && AllKeyed(below) && Accounts(t, initial, Overlay(Flat(below), l.cache))
    requires RoundsRegardOnly(rounds, initial)
    ensures var r := RunOf(t, l, below, rounds, max);
      Accounts(r.tracker, initial, Overlay(Flat(below), r.own.cache))
  {
    var r := RunOf(t, l, below, rounds, max);
    AccountsIffNoStrays(t, initial, Overlay(Flat(below), l.cache));
    RunTracks(t, l, below, rounds, max, initial);
    AccountsIffNoStrays(r.tracker, initial, Overlay(Flat(below), r.own.cache));
  }

  // ---------------------------------------------------------------------------
  // The stabilisation bound
  // ---------------------------------------------------------------------------

  ghost function Count(b: bool): nat {
    if b then 1 else 0
  }

  ghost function EmptyPolls(rounds: seq<Round>): nat {
    if rounds == [] then 0 else Count(rounds[0].events == []) + EmptyPolls(rounds[1..])
  }

  ghost function WorkRounds(rounds: seq<Round>): nat {
    if rounds == [] then 0 else Count(rounds[0].volumeWork) + WorkRounds(rounds[1..])
  }

  /** `max`, `n` times over. */
  ghost function Times(max: nat, n: nat): nat {
    if n == 0 then 0 else max + Times(max, n - 1)
  }

  lemma {:induction false} TimesIsProduct(max: nat, n: nat)
    ensures Times(max, n) == max * n
  {
    if n > 0 {
      TimesIsProduct(max, n - 1);
      assert max * n == max + max * (n - 1);
    }
  }

  lemma {:induction false} MoreResets(max: nat, resets: nat, more: nat)
    ensures Times(max, resets + more) >= Times(max, resets) + if more > 0 then max else 0
  {
    if more > 0 {
      MoreResets(max, resets, more - 1);
    }
  }

  /** What the idle count is worth: no more than `max` empty polls are still to come. */
  ghost function Streak(t: Tracker, max: nat): nat {
    if t.idle < max then t.idle else max
  }

  /** One poll: it counts at most one empty poll, on top of the streak, for each of its resets
      and one more; if the run goes on, the streak has grown by it. */
  lemma RoundCounts(t: Tracker, l: Local, below: seq<Cache>, round: Round, max: nat)
    ensures var p := PollOf(t, l, below, round, max);
      var resets := (p.tracker.scheduled - t.scheduled) + Count(round.volumeWork);
      t.scheduled <= p.tracker.scheduled && p.tracker.attempts == t.attempts + 1 &&
      (p.stabilized <==> round.events == [] && p.tracker.idle > max) &&
      (!p.stabilized ==>
        Streak(t, max) + Count(round.events == []) <= Streak(p.tracker, max) + if resets > 0 then max else 0)
  {
    var w := AfterWork(t, round);
    TrackEventsResets(w.(attempts := w.attempts + 1), [l.cache] + below, round.events);
  }

  /** The rounds that were polled contain no more empty polls than the streak and the resets
      allow. */
  ghost predicate Bounded(t: Tracker, t': Tracker, polled: seq<Round>, max: nat) {
    && t.scheduled <= t'.scheduled
    && EmptyPolls(polled) + Streak(t, max) <= Times(max, (t'.scheduled - t.scheduled) + WorkRounds(polled)) + max + 1
  }

  lemma LastPollBounded(t: Tracker, l: Local, below: seq<Cache>, round: Round, max: nat)
    ensures Bounded(t, PollOf(t, l, below, round, max).tracker, [round], max)
  {
    var p := PollOf(t, l, below, round, max);
    RoundCounts(t, l, below, round, max);
    assert [round][1..] == [];
    MoreResets(max, 0, (p.tracker.scheduled - t.scheduled) + Count(round.volumeWork));
  }

  lemma OneMorePollBounded(
    t: Tracker, l: Local, below: seq<Cache>, round: Round, max: nat, t': Tracker, rest: seq<Round>)
    requires var p := PollOf(t, l, below, round, max); !p.stabilized && Bounded(p.tracker, t', rest, max)
    ensures Bounded(t, t', [round] + rest, max)
  {
    var p := PollOf(t, l, below, round, max);
    RoundCounts(t, l, below, round, max);
    assert ([round] + rest)[1..] == rest;
    MoreResets(max, (t'.scheduled - p.tracker.scheduled) + WorkRounds(rest),
               (p.tracker.scheduled - t.scheduled) + Count(round.volumeWork));
  }

  lemma {:induction false} EmptyPollsBounded(t: Tracker, l: Local, below: seq<Cache>, rounds: seq<Round>, max: nat)
    ensures var r := RunOf(t, l, below, rounds, max);
      r.polls <= |rounds| && Bounded(t, r.tracker, rounds[..r.polls], max)
    decreases |rounds|
  {
    var r := RunOf(t, l, below, rounds, max);
    if rounds != [] && !rounds[0].workFails {
      var l1 := WrittenAll(l, below, rounds[0].writes);
      var p := PollOf(t, l1, below, rounds[0], max);
      if p.error.None? && !p.stabilized && p.tracker.leftover != {} {
        EmptyPollsBounded(p.tracker, l1, below, rounds[1..], max);
        var rest := rounds[1..][..r.polls - 1];
        OneMorePollBounded(t, l1, below, rounds[0], max, r.tracker, rest);
        assert rounds[..r.polls] == [rounds[0]] + rest;
      } else {
        LastPollBounded(t, l1, below, rounds[0], max);
        assert rounds[..1] == [rounds[0]];
      }
    }
  }

  /** Over every run, from any state of the tracker: with `b` binding events handled and `w`
      rounds of volume work among the polled rounds, at most max * (b + w + 1) + 1 polls find
      no event. */
  lemma StabilisationBound(t: Tracker, l: Local, below: seq<Cache>, rounds: seq<Round>, max: nat)
    ensures var r := RunOf(t, l, below, rounds, max);
      r.polls <= |rounds| && t.scheduled <= r.tracker.scheduled &&
      EmptyPolls(rounds[..r.polls]) <=
        max * ((r.tracker.scheduled - t.scheduled) + WorkRounds(rounds[..r.polls]) + 1) + 1
  {
    EmptyPollsBounded(t, l, below, rounds, max);
    var r := RunOf(t, l, below, rounds, max);
    TimesIsProduct(max, (r.tracker.scheduled - t.scheduled) + WorkRounds(rounds[..r.polls]) + 1);
  }

  // ---------------------------------------------------------------------------
  // How a run ends
  // ---------------------------------------------------------------------------

  /** A round that was polled without error resets the idle count by volume work or by a
      binding event. */
  predicate Resets(round: Round) {
    round.volumeWork || exists i :: 0 <= i < |round.events| && IsBindingEvent(round.events[i])
  }

  /** Empty polls since the last reset, `start` of them before the first of these rounds. */
  ghost function EmptySinceReset(start: nat, rounds: seq<Round>): nat {
    if rounds == [] then start
    else
      var n := |rounds| - 1;
      (if Resets(rounds[n]) then 0 else EmptySinceReset(start, rounds[..n])) + Count(rounds[n].events == [])
  }

  lemma {:induction false} NoBindingEventsIff(evs: seq<Event>)
    ensures BindingEvents(evs) == 0 <==> !exists i :: 0 <= i < |evs| && IsBindingEvent(evs[i])
  {
    if evs != [] {
      NoBindingEventsIff(evs[1..]);
      if i :| 0 <= i < |evs| && IsBindingEvent(evs[i]) {
        assert i > 0 ==> IsBindingEvent(evs[1..][i - 1]);
      }
      if i :| 0 <= i < |evs[1..]| && IsBindingEvent(evs[1..][i]) {
        assert IsBindingEvent(evs[i + 1]);
      }
    }
  }

  /** The idle count after a poll without error. */
  lemma PollCountsIdle(t: Tracker, l: Local, below: seq<Cache>, round: Round, max: nat)
    ensures var p := PollOf(t, l, below, round, max);
      p.error.None? ==> p.tracker.idle == (if Resets(round) then 0 else t.idle) + Count(round.events == [])
  {
    var w := AfterWork(t, round);
    TrackEventsResets(w.(attempts := w.attempts + 1), [l.cache] + below, round.events);
    NoBindingEventsIff(round.events);
  }

  lemma {:induction false} SinceResetUnfolds(start: nat, rounds: seq<Round>)
    requires rounds != []
    ensures EmptySinceReset(start, rounds) ==
      EmptySinceReset((if Resets(rounds[0]) then 0 else start) + Count(rounds[0].events == []), rounds[1..])
    decreases |rounds|
  {
    var n := |rounds| - 1;
    if n > 0 {
      assert rounds[..n][0] == rounds[0] && rounds[..n][1..] == rounds[1..][..n - 1];
      assert rounds[1..][n - 1] == rounds[n];
      SinceResetUnfolds(start, rounds[..n]);
    } else {
      assert rounds[..0] == [] && rounds[1..] == [];
    }
  }

  /** Why a run ends: it counts as stable if and only if, since the last reset, more than `max`
      polls found no event; the only other end without error is that nothing is left over.  The
      other ends are a failure of the work or of the poll in the last round, or cancellation. */
  ghost predicate EndsBy(t: Tracker, rounds: seq<Round>, max: nat, r: Run) {
    && r.polls <= |rounds|
    && (forall i :: 0 <= i < r.polls ==> !rounds[i].workFails)
    && (r.end.Stabilized? <==>
        r.polls > 0 && rounds[r.polls - 1].events == [] && EmptySinceReset(t.idle, rounds[..r.polls]) > max)
    && (r.end.NothingLeft? ==> r.polls > 0 && r.tracker.leftover == {})
    && (r.end.WorkFailed? ==> r.polls < |rounds| && rounds[r.polls].workFails)
    && (r.end.Cancelled? ==> r.polls == |rounds| && (r.polls > 0 ==> r.tracker.leftover != {}))
    && (r.end.TrackFailed? ==> r.polls > 0 && rounds[r.polls - 1].events != [])
  }

  lemma {:induction false} HowRunsEnd(t: Tracker, l: Local, below: seq<Cache>, rounds: seq<Round>, max: nat)
    ensures EndsBy(t, rounds, max, RunOf(t, l, below, rounds, max))
    decreases |rounds|
  {
    var r := RunOf(t, l, below, rounds, max);
    if rounds != [] && !rounds[0].workFails {
      var l1 := WrittenAll(l, below, rounds[0].writes);
      var p := PollOf(t, l1, below, rounds[0], max);
      RoundCounts(t, l1, below, rounds[0], max);
      PollCountsIdle(t, l1, below, rounds[0], max);
      if p.error.None? && !p.stabilized && p.tracker.leftover != {} {
        HowRunsEnd(p.tracker, l1, below, rounds[1..], max);
        EndsLater(t, p.tracker, rounds, max, RunOf(p.tracker, l1, below, rounds[1..], max));
      } else {
        assert rounds[..1] == [rounds[0]] && [rounds[0]][..0] == [];
        assert EmptySinceReset(t.idle, [rounds[0]]) ==
          (if Resets(rounds[0]) then 0 else t.idle) + Count(rounds[0].events == []);
      }
    }
  }

  lemma EndsLater(t: Tracker, t1: Tracker, rounds: seq<Round>, max: nat, rest: Run)
    requires rounds != [] && !rounds[0].workFails && EndsBy(t1, rounds[1..], max, rest)
    requires t1.idle == (if Resets(rounds[0]) then 0 else t.idle) + Count(rounds[0].events == [])
    requires t1.leftover != {} && !(rounds[0].events == [] && t1.idle > max)
    requires rest.polls == 0 ==> rest.tracker.leftover == t1.leftover
    ensures EndsBy(t, rounds, max, rest.(polls := rest.polls + 1))
  {
    var n := rest.polls + 1;
    assert rounds[..n][0] == rounds[0] && rounds[..n][1..] == rounds[1..][..rest.polls];
    SinceResetUnfolds(t.idle, rounds[..n]);
    forall i | 0 <= i < n ensures !rounds[i].workFails {
      assert i > 0 ==> rounds[i] == rounds[1..][i - 1];
    }
    if rest.polls == 0 {
      assert EmptySinceReset(t1.idle, []) == t1.idle;
    }
  }

  /** Every poll is counted, and unless a poll fails the idle count is what the polls since the last reset
      make it, volume work in a round that then fails included. */
  ghost predicate CountsRight(t: Tracker, rounds: seq<Round>, r: Run) {
    && r.polls <= |rounds| && r.tracker.attempts == t.attempts + r.polls
    && (r.end.WorkFailed? ==>
          r.polls < |rounds| &&
          r.tracker.idle == if rounds[r.polls].volumeWork then 0 else EmptySinceReset(t.idle, rounds[..r.polls]))
    && (!r.end.WorkFailed? && !r.end.TrackFailed? ==> r.tracker.idle == EmptySinceReset(t.idle, rounds[..r.polls]))
  }

  lemma CountsLater(t: Tracker, t1: Tracker, rounds: seq<Round>, rest: Run)
    requires rounds != [] && CountsRight(t1, rounds[1..], rest) && t1.attempts == t.attempts + 1
    requires t1.idle == (if Resets(rounds[0]) then 0 else t.idle) + Count(rounds[0].events == [])
    ensures CountsRight(t, rounds, rest.(polls := rest.polls + 1))
  {
    var n := rest.polls + 1;
    assert rounds[..n][0] == rounds[0] && rounds[..n][1..] == rounds[1..][..rest.polls];
    SinceResetUnfolds(t.idle, rounds[..n]);
  }

  lemma {:induction false} RunCounts(t: Tracker, l: Local, below: seq<Cache>, rounds: seq<Round>, max: nat)
    ensures CountsRight(t, rounds, RunOf(t, l, below, rounds, max))
    decreases |rounds|
  {
    if rounds != [] && !rounds[0].workFails {
      var l1 := WrittenAll(l, below, rounds[0].writes);
      var p := PollOf(t, l1, below, rounds[0], max);
      RoundCounts(t, l1, below, rounds[0], max);
      PollCountsIdle(t, l1, below, rounds[0], max);
      if p.error.None? && !p.stabilized && p.tracker.leftover != {} {
        RunCounts(p.tracker, l1, below, rounds[1..], max);
        CountsLater(t, p.tracker, rounds, RunOf(p.tracker, l1, below, rounds[1..], max));
      } else {
        assert rounds[..1] == [rounds[0]] && [rounds[0]][..0] == [];
      }
    }
  }
}
