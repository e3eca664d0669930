/**
 The intended stall. When the first batchSize unindexed blocks fail for ever, the backfill
 stops there: nothing beyond them is enqueued, and no cursor passes them, whatever the
 other processes do. Only what lies from the lowest cursor on matters, so re-indexing may
 have been forced before.
 */
module ProtocolStall {
  import opened Prelude
  import opened BlockIndex
  import opened Protocol
  import opened ProtocolSweep
  import opened ProtocolLiveness

  /** No cursor is below this block, and no restart will put one there. */
  predicate CursorsFrom(cfg: Config, s: State, low: nat) {
    && low <= (if s.saved.Some? then s.saved.value else cfg.startBlock)
    && forall p :: p in s.publishers ==> low <= s.publishers[p].cursor
  }

  /** The first batchSize unindexed blocks from the lowest cursor on, all ahead of the cursors. */
  ghost predicate FirstUnindexed(cfg: Config, s: State, low: nat, first: set<nat>) {
    && |first| == cfg.batchSize > 0 && CursorsFrom(cfg, s, low)
    && (forall b :: b in first ==> Ahead(cfg, s, b) && b !in s.indexed)
    && Contiguous(low, s.indexed.Keys, first)
  }

  /** Below each of these blocks, everything is marked or one of them. */
  ghost predicate Contiguous(low: nat, marked: set<nat>, first: set<nat>) {
    forall u: nat, b :: b in first && low <= u < b ==> u in first || u in marked
  }

  /** Publisher p has enqueued nothing but these blocks in its current batch, which is sound. */
  ghost predicate BatchWithin(cfg: Config, s: State, p: nat, low: nat, first: set<nat>) {
    && p in s.publishers && PubOk(cfg, s.publishers[p], s.indexed.Keys)
    && (Sweeping(s.publishers[p]) ==>
          SweepOf(s.publishers[p]).added <= first && Contiguous(low, SweepOf(s.publishers[p]).base, first))
  }

  lemma CursorsStayFrom(cfg: Config, s: State, ev: Event, low: nat)
    requires CursorsFrom(cfg, s, low) && Can(cfg, s, ev)
    ensures CursorsFrom(cfg, Do(cfg, s, ev), low)
  {
    match ev {
      case Pub(p, e) =>
        if e.UpdateCursor? {
          CursorAfterMeaning(s.indexed.Keys, s.publishers[p].cursor, cfg.batchSize);
        }
      case Work(w, e) => assert Do(cfg, s, ev).publishers == s.publishers && Do(cfg, s, ev).saved == s.saved;
      case Other(e) => assert Do(cfg, s, ev).publishers == s.publishers && Do(cfg, s, ev).saved == s.saved;
    }
  }

  lemma StaysFirst(cfg: Config, s: State, ev: Event, low: nat, first: set<nat>)
    requires FirstUnindexed(cfg, s, low, first) && Can(cfg, s, ev) && Unforced(s, ev) && Spares(s, ev, first)
    ensures FirstUnindexed(cfg, Do(cfg, s, ev), low, first)
  {
    IndexGrows(cfg, s, ev);
    SparedStaysUnindexed(cfg, s, ev, first);
    CursorsStayFrom(cfg, s, ev, low);
    forall b | b in first ensures Ahead(cfg, Do(cfg, s, ev), b) {
      AheadStep(cfg, s, ev, b);
    }
  }

  /** A search that still has room has not passed all of the first blocks. */
  lemma NextIsFirst(cfg: Config, s: State, p: nat, low: nat, first: set<nat>)
    requires FirstUnindexed(cfg, s, low, first) && PubCan(s, p, Search) && BatchWithin(cfg, s, p, low, first)
    ensures ScanEnqueues(cfg, s.publishers[p]) <= first
  {
    var pub := s.publishers[p];
    var sw := pub.pc.sweep;
    if ScanEnqueues(cfg, pub) != {} && sw.block !in first {
      assert sw.block !in sw.base && low <= pub.cursor <= sw.block;
      forall b | b in first ensures b in sw.added {
        assert pub.cursor <= b && b !in s.indexed.Keys;
        assert b < sw.block;
      }
      SubsetCardinality(first, sw.added);
    }
  }

  lemma OwnBatchStaysWithin(cfg: Config, s: State, p: nat, ev: PubEvent, low: nat, first: set<nat>)
    requires FirstUnindexed(cfg, s, low, first) && PubCan(s, p, ev) && BatchWithin(cfg, s, p, low, first)
    ensures var pub := PubAfter(cfg, s, p, ev);
            Sweeping(pub) ==> SweepOf(pub).added <= first && Contiguous(low, SweepOf(pub).base, first)
  {
    if ev.Search? {
      NextIsFirst(cfg, s, p, low, first);
    }
  }

  lemma BatchStaysWithin(cfg: Config, s: State, ev: Event, p: nat, low: nat, first: set<nat>)
    requires FirstUnindexed(cfg, s, low, first) && BatchWithin(cfg, s, p, low, first)
    requires Can(cfg, s, ev) && Unforced(s, ev)
    ensures BatchWithin(cfg, Do(cfg, s, ev), p, low, first)
  {
    PubOkStep(cfg, s, ev, p);
    if IsOwn(ev, p) {
      OwnBatchStaysWithin(cfg, s, p, ev.pub, low, first);
    } else {
      assert Do(cfg, s, ev).publishers[p] == s.publishers[p];
    }
  }

  lemma {:induction false} StallTrace(
      cfg: Config, states: seq<State>, events: seq<Event>, low: nat, first: set<nat>, p: nat, k: nat)
    requires SparingTrace(cfg, states, events, first) && k < |states|
    requires FirstUnindexed(cfg, states[0], low, first) && BatchWithin(cfg, states[0], p, low, first)
    ensures FirstUnindexed(cfg, states[k], low, first) && BatchWithin(cfg, states[k], p, low, first)
    decreases k
  {
    if k == 0 {
    } else {
      StallTrace(cfg, states, events, low, first, p, k - 1);
      StaysFirst(cfg, states[k - 1], events[k - 1], low, first);
      BatchStaysWithin(cfg, states[k - 1], events[k - 1], p, low, first);
    }
  }

  /** A batch that completes has enqueued exactly the first blocks that lie below its tip. */
  lemma BatchIsFirst(cfg: Config, s: State, p: nat, low: nat, first: set<nat>)
    requires FirstUnindexed(cfg, s, low, first) && Completes(cfg, s, p) && BatchWithin(cfg, s, p, low, first)
    ensures var sw := s.publishers[p].pc.sweep;
            sw.added == set b | b in first && b < sw.maxBlock
  {
    var pub := s.publishers[p];
    var sw := pub.pc.sweep;
    forall b: nat | b in first && b < sw.maxBlock ensures b in sw.added {
      assert low <= pub.cursor <= b && b !in s.indexed.Keys;
      RankCovered(sw.base, pub.cursor, b, first - {b});
      SweepCovers(cfg, s, p, b);
    }
  }

  /**
   The stall, from any state on, with restarts, other publishers, a growing tip and workers
   doing anything but marking one of the first batchSize unindexed blocks: at every later
   state these blocks are still unindexed and no cursor has passed any of them, and every
   batch that completes has enqueued exactly those of them that lie below its tip.
   */
  lemma {:induction false} StallsForever(
      cfg: Config, states: seq<State>, events: seq<Event>, low: nat, first: set<nat>, p: nat, k: nat)
    requires SparingTrace(cfg, states, events, first) && FirstUnindexed(cfg, states[0], low, first)
    requires p in states[0].publishers && !Sweeping(states[0].publishers[p]) && k < |states|
    ensures var s := states[k];
            && (forall b :: b in first ==> b !in s.indexed && Ahead(cfg, s, b))
            && p in s.publishers
            && (Completes(cfg, s, p) ==>
                 s.publishers[p].pc.sweep.added == set b | b in first && b < s.publishers[p].pc.sweep.maxBlock)
  {
    assert PubOk(cfg, states[0].publishers[p], states[0].indexed.Keys);
    StallTrace(cfg, states, events, low, first, p, k);
    if Completes(cfg, states[k], p) {
      BatchIsFirst(cfg, states[k], p, low, first);
    }
  }
}
