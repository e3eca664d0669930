/**
 The monitor: one goroutine receives headers and hands their numbers over through a
 channel with a single slot, dropping a number when the slot is full; another takes
 numbers out of the slot and processes them one at a time.
 */
module Monitor {
  import opened Prelude

  datatype State = State(
    slot: Option<nat>,      // the blockNumbers channel
    current: Option<nat>,   // the block being processed
    processed: seq<nat>,    // blocks whose processing has ended, in order
    gauge: seq<nat>         // the values the last-processed gauge has been set to
  )

  datatype Event =
    | Receive(header: nat)
    | Take
    | Finish(ok: bool)

  predicate Can(s: State, ev: Event) {
    match ev
    case Receive(h) => true
    case Take => s.slot.Some? && s.current.None?
    case Finish(ok) => s.current.Some?
  }

  function Do(s: State, ev: Event): State
    requires Can(s, ev)
  {
    match ev
    case Receive(h) => if s.slot.None? then s.(slot := Some(h)) else s
    case Take => s.(slot := None, current := s.slot)
    case Finish(ok) =>
      s.(current := None, processed := s.processed + [s.current.value],
         gauge := if ok then s.gauge + [s.current.value] else s.gauge)
  }

  predicate IsRun(states: seq<State>, events: seq<Event>) {
    && |states| == |events| + 1 && states[0] == State(None, None, [], [])
    && forall i :: 0 <= i < |events| ==> Can(states[i], events[i]) && states[i + 1] == Do(states[i], events[i])
  }

  /** All headers received in the first n events. */
  function Received(events: seq<Event>, n: nat): seq<nat>
    requires n <= |events|
  {
    if n == 0 then []
    else Received(events, n - 1) + if events[n - 1].Receive? then [events[n - 1].header] else []
  }

  /** The headers of the first n events that found the slot empty when they arrived. */
  function FoundEmpty(states: seq<State>, events: seq<Event>, n: nat): seq<nat>
    requires n <= |events| < |states|
  {
    if n == 0 then []
    else FoundEmpty(states, events, n - 1)
         + if events[n - 1].Receive? && states[n - 1].slot.None? then [events[n - 1].header] else []
  }

  /** The blocks whose processing succeeded in the first n events, in order. */
  function Finished(states: seq<State>, events: seq<Event>, n: nat): seq<nat>
    requires IsRun(states, events) && n <= |events|
  {
    if n == 0 then []
    else Finished(states, events, n - 1) + if events[n - 1] == Finish(true) then [states[n - 1].current.value] else []
  }

  function Pending(o: Option<nat>): seq<nat> {
    if o.Some? then [o.value] else []
  }

  /** a can be obtained from b by dropping elements. */
  predicate Subsequence(a: seq<nat>, b: seq<nat>) {
    if a == [] then true
    else if b == [] then false
    else if a[|a| - 1] == b[|b| - 1] then Subsequence(a[..|a| - 1], b[..|b| - 1])
    else Subsequence(a, b[..|b| - 1])
  }

  lemma {:induction false} DropLast(a: seq<nat>, b: seq<nat>)
    requires Subsequence(a, b) && a != []
    ensures Subsequence(a[..|a| - 1], b)
    decreases |b|, 0
  {
    if a[|a| - 1] == b[|b| - 1] {
      GrowRight(a[..|a| - 1], b[..|b| - 1], b[|b| - 1]);
      assert b[..|b| - 1] + [b[|b| - 1]] == b;
    } else {
      DropLast(a, b[..|b| - 1]);
      GrowRight(a[..|a| - 1], b[..|b| - 1], b[|b| - 1]);
      assert b[..|b| - 1] + [b[|b| - 1]] == b;
    }
  }

  lemma {:induction false} GrowRight(a: seq<nat>, b: seq<nat>, x: nat)
    requires Subsequence(a, b)
    ensures Subsequence(a, b + [x])
    decreases |b|, 1
  {
    assert (b + [x])[..|b|] == b;
    if a != [] && a[|a| - 1] == x {
      DropLast(a, b);
    }
  }

  lemma GrowBoth(a: seq<nat>, b: seq<nat>, x: nat)
    requires Subsequence(a, b)
    ensures Subsequence(a + [x], b + [x])
  {
    assert (a + [x])[..|a|] == a && (b + [x])[..|b|] == b;
  }

  lemma {:induction false} SubsequenceAbove(a: seq<nat>, b: seq<nat>, x: nat)
    requires Subsequence(a, b) && forall i :: 0 <= i < |b| ==> b[i] < x
    ensures forall i :: 0 <= i < |a| ==> a[i] < x
    decreases |b|
  {
    if a == [] {
    } else {
      var b' := b[..|b| - 1];
      if a[|a| - 1] == b[|b| - 1] {
        SubsequenceAbove(a[..|a| - 1], b', x);
      } else {
        SubsequenceAbove(a, b', x);
      }
    }
  }

  lemma {:induction false} SubsequenceIncreasing(a: seq<nat>, b: seq<nat>)
    requires Subsequence(a, b) && Ascending(b)
    ensures Ascending(a)
    decreases |b|
  {
    if a == [] {
    } else {
      var b' := b[..|b| - 1];
      if a[|a| - 1] == b[|b| - 1] {
        SubsequenceIncreasing(a[..|a| - 1], b');
        SubsequenceAbove(a[..|a| - 1], b', b[|b| - 1]);
        assert a == a[..|a| - 1] + [a[|a| - 1]];
      } else {
        SubsequenceIncreasing(a, b');
      }
    }
  }

  /**
   In every run: the blocks processed, then the one being processed, then the one in the
   slot are exactly the headers that found the slot empty, in order of arrival. So a
   header is missing only if the slot was full when it arrived.
   */
  lemma {:induction false} HandOff(states: seq<State>, events: seq<Event>, n: nat)
    requires IsRun(states, events) && n < |states|
    ensures var s := states[n];
            s.processed + Pending(s.current) + Pending(s.slot) == FoundEmpty(states, events, n)
    decreases n
  {
    if n == 0 {
    } else {
      HandOff(states, events, n - 1);
      var s, s' := states[n - 1], states[n];
      assert s' == Do(s, events[n - 1]);
    }
  }

  lemma {:induction false} FoundEmptyIsSubsequence(states: seq<State>, events: seq<Event>, n: nat)
    requires IsRun(states, events) && n < |states|
    ensures Subsequence(FoundEmpty(states, events, n), Received(events, n))
    decreases n
  {
    if n == 0 {
    } else {
      FoundEmptyIsSubsequence(states, events, n - 1);
      var found, received := FoundEmpty(states, events, n - 1), Received(events, n - 1);
      if events[n - 1].Receive? {
        if states[n - 1].slot.None? {
          GrowBoth(found, received, events[n - 1].header);
        } else {
          GrowRight(found, received, events[n - 1].header);
          assert FoundEmpty(states, events, n) == found;
        }
      } else {
        assert FoundEmpty(states, events, n) == found && Received(events, n) == received;
      }
    }
  }

  /** What has been handed over is a subsequence of what was received: in order, nothing twice, nothing made up. */
  lemma {:induction false} HandOffIsSubsequence(states: seq<State>, events: seq<Event>)
    requires IsRun(states, events)
    ensures var s := states[|events|];
            Subsequence(s.processed + Pending(s.current) + Pending(s.slot), Received(events, |events|))
  {
    HandOff(states, events, |events|);
    FoundEmptyIsSubsequence(states, events, |events|);
  }

  lemma {:induction false} GaugeIsSubsequence(states: seq<State>, events: seq<Event>, n: nat)
    requires IsRun(states, events) && n < |states|
    ensures Subsequence(states[n].gauge, states[n].processed)
    decreases n
  {
    if n == 0 {
    } else {
      GaugeIsSubsequence(states, events, n - 1);
      var s := states[n - 1];
      assert states[n] == Do(s, events[n - 1]);
      if events[n - 1].Finish? {
        GrowBoth(s.gauge, s.processed, s.current.value);
        GrowRight(s.gauge, s.processed, s.current.value);
      }
    }
  }

  /** The gauge has been set to exactly the blocks whose processing succeeded, in order. */
  lemma {:induction false} GaugeIsFinished(states: seq<State>, events: seq<Event>, n: nat)
    requires IsRun(states, events) && n <= |events|
    ensures states[n].gauge == Finished(states, events, n)
  {
    if n > 0 {
      GaugeIsFinished(states, events, n - 1);
      assert states[n] == Do(states[n - 1], events[n - 1]);
    }
  }

  /** With headers that only increase, the last-processed gauge only increases. */
  lemma {:induction false} GaugeIncreases(states: seq<State>, events: seq<Event>)
    requires IsRun(states, events) && Ascending(Received(events, |events|))
    ensures Ascending(states[|events|].gauge)
  {
    var n := |events|;
    var s := states[n];
    HandOffIsSubsequence(states, events);
    var handed := s.processed + Pending(s.current) + Pending(s.slot);
    SubsequenceIncreasing(handed, Received(events, n));
    assert handed[..|s.processed|] == s.processed;
    assert Ascending(s.processed) by {
      forall i, j | 0 <= i < j < |s.processed| ensures s.processed[i] < s.processed[j] {
        assert handed[i] < handed[j];
      }
    }
    GaugeIsSubsequence(states, events, n);
    SubsequenceIncreasing(s.gauge, s.processed);
  }
}
