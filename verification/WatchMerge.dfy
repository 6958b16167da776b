/** Merging two watch streams into one.  A source is the list of events it will ever send and
    whether it then closes; each step of the merging goroutine is chosen by a scheduler. */
module WatchMerge {
  import opened ApiObjects

  datatype Source<T> = Source(events: seq<T>, closes: bool)

  /** Which case of a select fires. */
  datatype Choice = Receive1 | Receive2 | Send | Quit

  /** The goroutine: what is still to come from each source, which are open, the event it has
      received but not sent, and what it has sent. */
  datatype Merge<T> = Merge(
    c1: Source<T>,
    c2: Source<T>,
    open1: bool,
    open2: bool,
    held: Option<T>,
    out: seq<T>,
    quit: bool)
  {
    predicate Finished() {
      quit || !(open1 || open2)
    }
  }

  function Start<T>(s1: Source<T>, s2: Source<T>): Merge<T> {
    Merge(s1, s2, true, true, None, [], false)
  }

  predicate Ready<T>(c: Source<T>, open: bool) {
    open && (c.events != [] || c.closes)
  }

  /** A case that cannot fire leaves the goroutine blocked. */
  predicate Enabled<T>(m: Merge<T>, c: Choice) {
    !m.Finished() &&
    match c
    case Receive1 => m.held.None? && Ready(m.c1, m.open1)
    case Receive2 => m.held.None? && Ready(m.c2, m.open2)
    case Send => m.held.Some?
    case Quit => true
  }

  function Step<T>(m: Merge<T>, c: Choice): Merge<T> {
    if !Enabled(m, c) then m
    else
      match c
      case Receive1 =>
        if m.c1.events == [] then m.(open1 := false)
        else m.(c1 := m.c1.(events := m.c1.events[1..]), held := Some(m.c1.events[0]))
      case Receive2 =>
        if m.c2.events == [] then m.(open2 := false)
        else m.(c2 := m.c2.(events := m.c2.events[1..]), held := Some(m.c2.events[0]))
      case Send => m.(out := m.out + [m.held.value], held := None)
      case Quit => m.(quit := true)
  }

  function Run<T>(m: Merge<T>, choices: seq<Choice>): Merge<T> {
    if choices == [] then m else Step(Run(m, choices[..|choices| - 1]), choices[|choices| - 1])
  }

  // ---------------------------------------------------------------------------
  // Interleavings
  // ---------------------------------------------------------------------------

  /** `out` holds all of `a` and all of `b`, each in order. */
  ghost predicate Interleaving<T(!new)>(out: seq<T>, a: seq<T>, b: seq<T>)
    decreases |out|
  {
    if out == [] then a == [] && b == []
    else
      var n := |out| - 1;
      || (a != [] && a[|a| - 1] == out[n] && Interleaving(out[..n], a[..|a| - 1], b))
      || (b != [] && b[|b| - 1] == out[n] && Interleaving(out[..n], a, b[..|b| - 1]))
  }

  lemma {:induction false} InterleavingCounts<T(!new)>(out: seq<T>, a: seq<T>, b: seq<T>)
    requires Interleaving(out, a, b)
    ensures multiset(out) == multiset(a) + multiset(b)
    decreases |out|
  {
    if out != [] {
      var n := |out| - 1;
      assert out == out[..n] + [out[n]];
      if a != [] && a[|a| - 1] == out[n] && Interleaving(out[..n], a[..|a| - 1], b) {
        assert a == a[..|a| - 1] + [a[|a| - 1]];
        InterleavingCounts(out[..n], a[..|a| - 1], b);
      } else {
        assert b == b[..|b| - 1] + [b[|b| - 1]];
        InterleavingCounts(out[..n], a, b[..|b| - 1]);
      }
    }
  }

  /** What was taken from each source was sent, in order, except for one event in hand. */
  ghost predicate Faithful<T(!new)>(m: Merge<T>, s1: Source<T>, s2: Source<T>, a: seq<T>, b: seq<T>) {
    && m.c1.closes == s1.closes && m.c2.closes == s2.closes
    && (m.held.None? || m.open1 || m.open2)
    && (!m.open1 ==> m.c1.events == [] && s1.closes) && (!m.open2 ==> m.c2.events == [] && s2.closes)
    && s1.events == a + m.c1.events && s2.events == b + m.c2.events
    && match m.held
       case None => Interleaving(m.out, a, b)
       case Some(x) =>
         || (a != [] && a[|a| - 1] == x && Interleaving(m.out, a[..|a| - 1], b))
         || (b != [] && b[|b| - 1] == x && Interleaving(m.out, a, b[..|b| - 1]))
  }

  lemma StepFaithful<T(!new)>(m: Merge<T>, c: Choice, s1: Source<T>, s2: Source<T>, a: seq<T>, b: seq<T>)
    returns (a': seq<T>, b': seq<T>)
    requires Faithful(m, s1, s2, a, b)
    ensures Faithful(Step(m, c), s1, s2, a', b')
  {
    a', b' := a, b;
    if Enabled(m, c) {
      if c == Receive1 && m.c1.events != [] {
        a' := a + [m.c1.events[0]];
        assert a'[..|a|] == a;
      } else if c == Receive2 && m.c2.events != [] {
        b' := b + [m.c2.events[0]];
        assert b'[..|b|] == b;
      } else if c == Send {
        assert (m.out + [m.held.value])[..|m.out|] == m.out;
      }
    }
  }

  lemma {:induction false} RunFaithful<T(!new)>(s1: Source<T>, s2: Source<T>, choices: seq<Choice>)
    returns (a: seq<T>, b: seq<T>)
    ensures Faithful(Run(Start(s1, s2), choices), s1, s2, a, b)
  {
    if choices == [] {
      a, b := [], [];
    } else {
      var n := |choices| - 1;
      a, b := RunFaithful(s1, s2, choices[..n]);
      a, b := StepFaithful(Run(Start(s1, s2), choices[..n]), choices[n], s1, s2, a, b);
    }
  }

  ghost predicate MergesPrefixes<T(!new)>(out: seq<T>, a: seq<T>, b: seq<T>) {
    exists i: nat, j: nat :: i <= |a| && j <= |b| && Interleaving(out, a[..i], b[..j])
  }

  /** In every interleaving of steps the output merges a prefix of each source, in order and
      with nothing twice; and it merges both in full once both have closed and nobody quit. */
  lemma OutputMergesSources<T(!new)>(s1: Source<T>, s2: Source<T>, choices: seq<Choice>)
    ensures MergesPrefixes(Run(Start(s1, s2), choices).out, s1.events, s2.events)
    ensures var m := Run(Start(s1, s2), choices);
      m.Finished() && !m.quit ==> Interleaving(m.out, s1.events, s2.events) && s1.closes && s2.closes
  {
    var m := Run(Start(s1, s2), choices);
    var a, b := RunFaithful(s1, s2, choices);
    var i: nat, j: nat := |a|, |b|;
    if m.held.Some? {
      if a != [] && a[|a| - 1] == m.held.value && Interleaving(m.out, a[..|a| - 1], b) {
        i := |a| - 1;
      } else {
        j := |b| - 1;
      }
    }
    assert s1.events[..i] == a[..i] && s2.events[..j] == b[..j];
    assert a[..|a|] == a && b[..|b|] == b;
    assert Interleaving(m.out, s1.events[..i], s2.events[..j]);
    assert m.Finished() && !m.quit ==> s1.events == a && s2.events == b;
  }

  /** The sources as they are when `i` and `j` events have been taken from them. */
  ghost predicate Taken<T(!new)>(m: Merge<T>, s1: Source<T>, s2: Source<T>, i: nat, j: nat, out: seq<T>)
    requires i <= |s1.events| && j <= |s2.events|
  {
    m == Merge(Source(s1.events[i..], s1.closes), Source(s2.events[j..], s2.closes), true, true, None, out, false)
  }

  lemma RunMore<T(!new)>(m: Merge<T>, choices: seq<Choice>, c: Choice, d: Choice)
    ensures Run(m, choices + [c, d]) == Step(Step(Run(m, choices), c), d)
  {
    assert (choices + [c, d])[..|choices| + 1] == choices + [c] && (choices + [c])[..|choices|] == choices;
  }

  lemma FirstTaken<T(!new)>(m: Merge<T>, s1: Source<T>, s2: Source<T>, i: nat, j: nat, out: seq<T>)
    requires i < |s1.events| && j <= |s2.events| && Taken(m, s1, s2, i, j, out)
    ensures Taken(Step(Step(m, Receive1), Send), s1, s2, i + 1, j, out + [s1.events[i]])
  {
    assert s1.events[i..][1..] == s1.events[i + 1..];
  }

  lemma SecondTaken<T(!new)>(m: Merge<T>, s1: Source<T>, s2: Source<T>, i: nat, j: nat, out: seq<T>)
    requires i <= |s1.events| && j < |s2.events| && Taken(m, s1, s2, i, j, out)
    ensures Taken(Step(Step(m, Receive2), Send), s1, s2, i, j + 1, out + [s2.events[j]])
  {
    assert s2.events[j..][1..] == s2.events[j + 1..];
  }

  /** Conversely, every merge of a prefix of one source with a prefix of the other is the output under
      some interleaving of steps. */
  lemma {:induction false} EveryMergeHappens<T(!new)>(s1: Source<T>, s2: Source<T>, i: nat, j: nat, out: seq<T>)
    returns (choices: seq<Choice>)
    requires i <= |s1.events| && j <= |s2.events| && Interleaving(out, s1.events[..i], s2.events[..j])
    ensures Taken(Run(Start(s1, s2), choices), s1, s2, i, j, out)
    decreases |out|
  {
    var a, b := s1.events[..i], s2.events[..j];
    if out == [] {
      choices := [];
    } else {
      var n := |out| - 1;
      assert out == out[..n] + [out[n]];
      if i > 0 && a[i - 1] == out[n] && Interleaving(out[..n], a[..i - 1], b) {
        assert a[..i - 1] == s1.events[..i - 1];
        choices := EveryMergeHappens(s1, s2, i - 1, j, out[..n]);
        RunMore(Start(s1, s2), choices, Receive1, Send);
        FirstTaken(Run(Start(s1, s2), choices), s1, s2, i - 1, j, out[..n]);
        choices := choices + [Receive1, Send];
      } else {
        assert b[..j - 1] == s2.events[..j - 1];
        choices := EveryMergeHappens(s1, s2, i, j - 1, out[..n]);
        RunMore(Start(s1, s2), choices, Receive2, Send);
        SecondTaken(Run(Start(s1, s2), choices), s1, s2, i, j - 1, out[..n]);
        choices := choices + [Receive2, Send];
      }
    }
  }

  /** Until it has finished it can be told to quit, and then it sends nothing more. */
  lemma {:induction false} QuitEnds<T(!new)>(m: Merge<T>, choices: seq<Choice>)
    requires !m.Finished()
    ensures Step(m, Quit).Finished() && Step(m, Quit).quit
    ensures Run(Step(m, Quit), choices) == m.(quit := true)
  {
    if choices != [] {
      QuitEnds(m, choices[..|choices| - 1]);
    }
  }

  // ---------------------------------------------------------------------------
  // Progress
  // ---------------------------------------------------------------------------

  function StepsLeft<T>(m: Merge<T>): nat {
    2 * (|m.c1.events| + |m.c2.events|) + (if m.held.Some? then 1 else 0) +
    (if m.open1 then 1 else 0) + (if m.open2 then 1 else 0) + (if m.quit then 0 else 1)
  }

  /** Every step that fires uses one up, so a merge fires at most twice per event and three
      times more; and when both sources close it is never blocked before it is finished. */
  lemma StepsRunOut<T(!new)>(s1: Source<T>, s2: Source<T>, choices: seq<Choice>, c: Choice)
    ensures var m := Run(Start(s1, s2), choices);
      && (Enabled(m, c) ==> StepsLeft(Step(m, c)) < StepsLeft(m))
      && (s1.closes && s2.closes && !m.Finished() ==> Enabled(m, Receive1) || Enabled(m, Receive2) || Enabled(m, Send))
  {
    var a, b := RunFaithful(s1, s2, choices);
  }

  // ---------------------------------------------------------------------------
  // The goroutine
  // ---------------------------------------------------------------------------

  /** Runs until it returns or the scheduler's choices are used up. */
  method CombineTwoWatchers<T(!new)>(s1: Source<T>, s2: Source<T>, choices: seq<Choice>)
    returns (out: seq<T>, closed: bool)
    ensures out == Run(Start(s1, s2), choices).out && closed == Run(Start(s1, s2), choices).Finished()
    ensures MergesPrefixes(out, s1.events, s2.events)
  {
    var c1, c2 := s1, s2;
    var open1, open2, quit := true, true, false;
    var held: Option<T> := None;
    out := [];
    for i := 0 to |choices|
      invariant Run(Start(s1, s2), choices[..i]) == Merge(c1, c2, open1, open2, held, out, quit)
    {
      assert choices[..i + 1][..i] == choices[..i];
      if (open1 || open2) && !quit {
        match choices[i]
        case Receive1 =>
          if held.None? && open1 {
            if c1.events != [] {
              held := Some(c1.events[0]);
              c1 := c1.(events := c1.events[1..]);
            } else if c1.closes {
              open1 := false;
            }
          }
        case Receive2 =>
          if held.None? && open2 {
            if c2.events != [] {
              held := Some(c2.events[0]);
              c2 := c2.(events := c2.events[1..]);
            } else if c2.closes {
              open2 := false;
            }
          }
        case Send =>
          if held.Some? {
            out := out + [held.value];
            held := None;
          }
        case Quit => quit := true;
      }
    }
    assert choices[..|choices|] == choices;
    closed := quit || !(open1 || open2);
    OutputMergesSources(s1, s2, choices);
  }
}
