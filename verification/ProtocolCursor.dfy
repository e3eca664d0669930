/** The cursor follows what is indexed. */
module ProtocolCursor {
  import opened Prelude
  import opened BlockIndex
  import opened Protocol
  import opened ProtocolSafety
  import opened ProtocolSweep
  import opened ProtocolLiveness
  import opened ProtocolStall

  // ----- In memory, for any number of publishers

  /** The ground that publisher p can cover in the first n events: one stride for each cursor update. */
  function Strides(events: seq<Event>, p: nat, n: nat, stride: nat): nat
    requires n <= |events|
  {
    if n == 0 then 0 else Strides(events, p, n - 1, stride) + if events[n - 1] == Pub(p, UpdateCursor) then stride else 0
  }

  ghost predicate AllIndexed(s: State, start: nat, stop: nat) {
    forall b: nat :: start <= b < stop ==> b in s.indexed
  }

  /** Everything from the start block up to the given one stays indexed; elsewhere re-indexing may be forced. */
  ghost predicate StayIndexed(cfg: Config, states: seq<State>, stop: nat, n: nat) {
    forall i :: 0 <= i < n && i < |states| ==> AllIndexed(states[i], cfg.startBlock, stop)
  }

  /** Publisher p has at least reached the given block, or the end of what is indexed. */
  predicate HasReached(cfg: Config, s: State, p: nat, goal: nat, stop: nat) {
    p in s.publishers && cfg.startBlock <= s.publishers[p].cursor && s.publishers[p].cursor >= Min(stop, goal)
  }

  lemma CursorStep(cfg: Config, s: State, ev: Event, p: nat, goal: nat, stop: nat)
    requires Can(cfg, s, ev) && ev != Pub(p, Restart) && cfg.batchSize > 0
    requires HasReached(cfg, s, p, goal, stop) && AllIndexed(s, cfg.startBlock, stop)
    ensures HasReached(cfg, Do(cfg, s, ev), p, goal, stop)
    ensures ev == Pub(p, UpdateCursor) ==> HasReached(cfg, Do(cfg, s, ev), p, goal + 2 * cfg.batchSize + 1, stop)
  {
    if ev == Pub(p, UpdateCursor) {
      CursorAfterMeaning(s.indexed.Keys, s.publishers[p].cursor, cfg.batchSize);
    }
  }

  /**
   The cursor catches up: over blocks that are all indexed it advances 2 * batchSize + 1
   blocks with every `updateCursor`, until it reaches the first block that is not.
   */
  lemma {:induction false} CursorCatchesUp(
      cfg: Config, states: seq<State>, events: seq<Event>, p: nat, from: nat, stop: nat, n: nat)
    requires IsTrace(cfg, states, events) && n <= |events| && cfg.batchSize > 0
    requires HasReached(cfg, states[0], p, from, stop) && StayIndexed(cfg, states, stop, n)
    requires forall i :: 0 <= i < n ==> events[i] != Pub(p, Restart)
    ensures HasReached(cfg, states[n], p, from + Strides(events, p, n, 2 * cfg.batchSize + 1), stop)
    decreases n
  {
    if n == 0 {
    } else {
      CursorCatchesUp(cfg, states, events, p, from, stop, n - 1);
      var goal := from + Strides(events, p, n - 1, 2 * cfg.batchSize + 1);
      assert states[n] == Do(cfg, states[n - 1], events[n - 1]);
      CursorStep(cfg, states[n - 1], events[n - 1], p, goal, stop);
    }
  }

  // ----- Persisted, across restarts, for a single publisher

  /**
   The publisher has at least reached the goal, and will not fall back behind it by a
   restart; between its cursor update and the save it has got a stride further.
   */
  predicate SavedUpTo(cfg: Config, pub: Publisher, saved: Option<nat>, goal: nat, stop: nat) {
    && cfg.startBlock <= pub.cursor && Min(stop, goal) <= pub.cursor
    && (pub.pc.SaveCursor? ==> Min(stop, goal + 2 * cfg.batchSize + 1) <= pub.cursor)
    && match saved
       case Some(c) => cfg.startBlock <= c && Min(stop, goal) <= c
       case None => Min(stop, goal) <= cfg.startBlock
  }

  predicate HasSaved(cfg: Config, s: State, p: nat, goal: nat, stop: nat) {
    s.publishers.Keys == {p} && SavedUpTo(cfg, s.publishers[p], s.saved, goal, stop)
  }

  lemma OwnSave(cfg: Config, s: State, p: nat, ev: PubEvent, goal: nat, stop: nat)
    requires PubCan(s, p, ev) && cfg.batchSize > 0
    requires SavedUpTo(cfg, s.publishers[p], s.saved, goal, stop) && AllIndexed(s, cfg.startBlock, stop)
    ensures SavedUpTo(cfg, PubAfter(cfg, s, p, ev), if ev.Save? then Some(s.publishers[p].cursor) else s.saved,
                      if ev.Save? then goal + 2 * cfg.batchSize + 1 else goal, stop)
  {
    if ev.UpdateCursor? {
      CursorAfterMeaning(s.indexed.Keys, s.publishers[p].cursor, cfg.batchSize);
    }
  }

  lemma SaveStep(cfg: Config, s: State, ev: Event, p: nat, goal: nat, stop: nat)
    requires Can(cfg, s, ev) && cfg.batchSize > 0
    requires HasSaved(cfg, s, p, goal, stop) && AllIndexed(s, cfg.startBlock, stop)
    ensures HasSaved(cfg, Do(cfg, s, ev), p, if ev == Pub(p, Save) then goal + 2 * cfg.batchSize + 1 else goal, stop)
  {
    match ev {
      case Pub(q, e) =>
        assert q == p;
        OwnSave(cfg, s, p, e, goal, stop);
      case Work(w, e) => assert Do(cfg, s, ev).publishers == s.publishers && Do(cfg, s, ev).saved == s.saved;
      case Other(e) => assert Do(cfg, s, ev).publishers == s.publishers && Do(cfg, s, ev).saved == s.saved;
    }
  }

  /** What publisher p has reached for good after n events: one stride further with each save. */
  function Goal(cfg: Config, events: seq<Event>, p: nat, from: nat, n: nat): nat
    requires n <= |events|
  {
    if n == 0 then from
    else if events[n - 1] == Pub(p, Save) then Goal(cfg, events, p, from, n - 1) + 2 * cfg.batchSize + 1
    else Goal(cfg, events, p, from, n - 1)
  }

  /**
   The cursor of a single publisher catches up however often the publisher restarts: over
   blocks that are all indexed, each save carries it 2 * batchSize + 1 blocks further for
   good, until it reaches the first block that is not indexed.
   */
  lemma {:induction false} SavedCursorCatchesUp(
      cfg: Config, states: seq<State>, events: seq<Event>, p: nat, from: nat, stop: nat, n: nat)
    requires IsTrace(cfg, states, events) && n <= |events| && cfg.batchSize > 0
    requires HasSaved(cfg, states[0], p, from, stop) && StayIndexed(cfg, states, stop, n)
    ensures HasSaved(cfg, states[n], p, Goal(cfg, events, p, from, n), stop)
    decreases n
  {
    if n == 0 {
    } else {
      SavedCursorCatchesUp(cfg, states, events, p, from, stop, n - 1);
      SaveStep(cfg, states[n - 1], events[n - 1], p, Goal(cfg, events, p, from, n - 1), stop);
    }
  }

  // ----- The rank of a block

  /** No unindexed block from the lowest cursor on has been left behind by any cursor. */
  ghost predicate NoGaps(cfg: Config, s: State, low: nat) {
    CursorsFrom(cfg, s, low) && forall u: nat :: low <= u && u !in s.indexed ==> Ahead(cfg, s, u)
  }

  lemma NoGapsStep(cfg: Config, s: State, ev: Event, low: nat)
    requires NoGaps(cfg, s, low) && Can(cfg, s, ev) && Unforced(s, ev)
    ensures NoGaps(cfg, Do(cfg, s, ev), low)
  {
    CursorsStayFrom(cfg, s, ev, low);
    IndexGrows(cfg, s, ev);
    forall u: nat | low <= u && u !in Do(cfg, s, ev).indexed ensures Ahead(cfg, Do(cfg, s, ev), u) {
      assert u !in s.indexed.Keys;
      AheadStep(cfg, s, ev, u);
    }
  }

  lemma {:induction false} NoGapsTrace(cfg: Config, states: seq<State>, events: seq<Event>, low: nat, i: nat)
    requires UnforcedTrace(cfg, states, events) && NoGaps(cfg, states[0], low) && i < |states|
    ensures NoGaps(cfg, states[i], low)
    decreases i
  {
    if i == 0 {
    } else {
      NoGapsTrace(cfg, states, events, low, i - 1);
      NoGapsStep(cfg, states[i - 1], events[i - 1], low);
    }
  }

  lemma CursorsEquivalent(cfg: Config, s: State, low: nat, c: nat, b: nat)
    requires NoGaps(cfg, s, low) && IsCursor(s, c) && low <= b && b !in s.indexed
    ensures c <= b && Rank(s.indexed.Keys, c, b) == Rank(s.indexed.Keys, low, b)
  {
    assert low <= c <= b;
    forall u: nat | low <= u < c ensures u in s.indexed.Keys {
      assert u !in s.indexed ==> Ahead(cfg, s, u);
    }
    RankFromCursor(s.indexed.Keys, low, c, b);
  }

  /**
   The rank of a block never grows, whichever cursors of the two states it is counted from,
   in memory or persisted: cursors pass only indexed blocks. Re-indexing may have been forced
   before, if it has left no gap.
   */
  lemma {:induction false} RankNeverGrows(
      cfg: Config, states: seq<State>, events: seq<Event>, low: nat, i: nat, j: nat, c: nat, d: nat, b: nat)
    requires UnforcedTrace(cfg, states, events) && NoGaps(cfg, states[0], low) && i <= j < |states|
    requires IsCursor(states[i], c) && IsCursor(states[j], d)
    requires low <= b && b !in states[j].indexed
    ensures d <= b && Rank(states[j].indexed.Keys, d, b) <= Rank(states[i].indexed.Keys, c, b)
  {
    NoGapsTrace(cfg, states, events, low, i);
    NoGapsTrace(cfg, states, events, low, j);
    IndexGrowsTrace(cfg, states, events, i, j);
    CursorsEquivalent(cfg, states[i], low, c, b);
    CursorsEquivalent(cfg, states[j], low, d, b);
    RankAntitone(states[i].indexed.Keys, states[j].indexed.Keys, low, b);
  }

  /** A service in which re-indexing was never forced has no gaps from the start block on. */
  lemma SoundHasNoGaps(cfg: Config, s: State)
    requires Sound(cfg, s)
    ensures NoGaps(cfg, s, cfg.startBlock)
  {
    forall u: nat | cfg.startBlock <= u && u !in s.indexed ensures Ahead(cfg, s, u) {
      SoundIsAhead(cfg, s, {}, u + 1);
      assert u in Missing(cfg, s, {}, u + 1);
    }
    if s.saved.Some? {
      assert Passed(cfg, s, s.saved.value);
    }
  }
}
