/**
 One batch of one publisher, from the header read to the end of its search, in any trace:
 other publishers, crashes, and re-indexing forced before the batch all included.
 */
module ProtocolBatch {
  import opened BlockIndex
  import opened Protocol
  import opened ProtocolSafety
  import opened ProtocolSweep

  predicate IsHeaderRead(cfg: Config, ev: Event, p: nat, maxBlock: nat) {
    && ev.Pub? && ev.p == p && ev.pub.Header? && ev.pub.latest.Some?
    && MaxBlock(ev.pub.latest.value, cfg.tipBuffer) == maxBlock
  }

  /** Publisher p is in the search loop after event i, up to position j. */
  predicate SearchingBetween(states: seq<State>, p: nat, i: nat, j: nat)
    requires j < |states|
  {
    forall k :: i < k <= j ==> p in states[k].publishers && Sweeping(states[k].publishers[p])
  }

  /** A whole batch: its header is read at `header`, and its search is left by the event at `exit`. */
  predicate IsBatch(
      cfg: Config, states: seq<State>, events: seq<Event>, p: nat, maxBlock: nat, header: nat, exit: nat)
  {
    && header < exit < |states| && |states| == |events| + 1
    && IsHeaderRead(cfg, events[header], p, maxBlock)
    && SearchingBetween(states, p, header, exit)
    && Completes(cfg, states[exit], p)
  }

  /** The event enqueues block b in the search of publisher p. */
  predicate Enqueues(cfg: Config, s: State, ev: Event, p: nat, b: nat) {
    ev == Pub(p, Search) && p in s.publishers && b in ScanEnqueues(cfg, s.publishers[p])
  }

  lemma BatchContinues(cfg: Config, s: State, ev: Event, p: nat)
    requires Can(cfg, s, ev) && p in s.publishers && Sweeping(s.publishers[p])
    requires p in Do(cfg, s, ev).publishers && Sweeping(Do(cfg, s, ev).publishers[p])
    ensures var s' := Do(cfg, s, ev);
            var sw, sw' := SweepOf(s.publishers[p]), SweepOf(s'.publishers[p]);
            && s'.publishers[p].cursor == s.publishers[p].cursor
            && sw'.base == sw.base && sw'.maxBlock == sw.maxBlock
            && sw'.added <= sw.added + s'.queue
  {
  }

  lemma BatchGrowsBySearch(cfg: Config, s: State, ev: Event, p: nat, b: nat)
    requires Can(cfg, s, ev) && p in s.publishers && Sweeping(s.publishers[p])
    requires p in Do(cfg, s, ev).publishers && Sweeping(Do(cfg, s, ev).publishers[p])
    requires b in SweepOf(Do(cfg, s, ev).publishers[p]).added && b !in SweepOf(s.publishers[p]).added
    ensures Enqueues(cfg, s, ev, p, b) && b in Do(cfg, s, ev).queue
  {
  }

  lemma BatchBeginsEmpty(cfg: Config, s: State, ev: Event, p: nat, maxBlock: nat)
    requires Can(cfg, s, ev) && IsHeaderRead(cfg, ev, p, maxBlock)
    ensures p in s.publishers && Do(cfg, s, ev).indexed == s.indexed
    ensures Do(cfg, s, ev).publishers[p] ==
            s.publishers[p].(pc := ReadWindow(StartSweep(s.publishers[p].cursor, maxBlock, s.indexed.Keys)))
  {
  }

  /** What a batch counts as enqueued has been put in the queue by one of its steps. */
  lemma {:induction false} EnqueuedInBatch(
      cfg: Config, states: seq<State>, events: seq<Event>, p: nat, maxBlock: nat, header: nat, j: nat, b: nat)
      returns (k: nat)
    requires IsTrace(cfg, states, events) && header < j < |states|
    requires IsHeaderRead(cfg, events[header], p, maxBlock) && SearchingBetween(states, p, header, j)
    requires b in SweepOf(states[j].publishers[p]).added
    ensures header < k < j && Enqueues(cfg, states[k], events[k], p, b) && b in states[k + 1].queue
    decreases j
  {
    var s, ev := states[j - 1], events[j - 1];
    assert states[j] == Do(cfg, s, ev);
    if j == header + 1 {
      BatchBeginsEmpty(cfg, s, ev, p, maxBlock);
    } else if b in SweepOf(s.publishers[p]).added {
      k := EnqueuedInBatch(cfg, states, events, p, maxBlock, header, j - 1, b);
    } else {
      k := j - 1;
      BatchGrowsBySearch(cfg, s, ev, p, b);
    }
  }

  lemma {:induction false} BatchKeepsBase(
      cfg: Config, states: seq<State>, events: seq<Event>, p: nat, maxBlock: nat, header: nat, j: nat)
    requires IsTrace(cfg, states, events) && header < j < |states|
    requires IsHeaderRead(cfg, events[header], p, maxBlock) && SearchingBetween(states, p, header, j)
    ensures var h, s := states[header], states[j];
            && p in h.publishers && s.publishers[p].cursor == h.publishers[p].cursor
            && SweepOf(s.publishers[p]).base == h.indexed.Keys && SweepOf(s.publishers[p]).maxBlock == maxBlock
    decreases j
  {
    var s, ev := states[j - 1], events[j - 1];
    assert states[j] == Do(cfg, s, ev);
    if j == header + 1 {
      BatchBeginsEmpty(cfg, s, ev, p, maxBlock);
    } else {
      BatchKeepsBase(cfg, states, events, p, maxBlock, header, j - 1);
      BatchContinues(cfg, s, ev, p);
    }
  }

  lemma BatchIsSound(
      cfg: Config, states: seq<State>, events: seq<Event>, p: nat, maxBlock: nat, header: nat, j: nat)
    requires IsTrace(cfg, states, events) && header < j < |states|
    requires IsHeaderRead(cfg, events[header], p, maxBlock) && UnforcedDuring(states, events, header, j)
    ensures p in states[j].publishers && PubOk(cfg, states[j].publishers[p], states[j].indexed.Keys)
  {
    assert states[header + 1] == Do(cfg, states[header], events[header]);
    BatchBeginsEmpty(cfg, states[header], events[header], p, maxBlock);
    PubOkTrace(cfg, states, events, p, header + 1, j);
  }

  /**
   At every moment of a batch, what it has enqueued are at most batchSize blocks, all
   unindexed when it began, from its cursor on and below the buffered tip; and the cursor is
   not below the start block in a reachable state.
   */
  lemma {:induction false} BatchAddsOnly(
      cfg: Config, states: seq<State>, events: seq<Event>, p: nat, maxBlock: nat, header: nat, k: nat, b: nat)
    requires IsTrace(cfg, states, events) && header < k < |states| && IsHeaderRead(cfg, events[header], p, maxBlock)
    requires SearchingBetween(states, p, header, k) && UnforcedDuring(states, events, header, k)
    requires b in SweepOf(states[k].publishers[p]).added
    ensures p in states[header].publishers
    ensures states[header].publishers[p].cursor <= b < maxBlock && b !in states[header].indexed
    ensures |SweepOf(states[k].publishers[p]).added| == SweepOf(states[k].publishers[p]).queued <= cfg.batchSize
    ensures Inv(cfg, states[0]) ==> cfg.startBlock <= states[header].publishers[p].cursor
  {
    BatchIsSound(cfg, states, events, p, maxBlock, header, k);
    BatchKeepsBase(cfg, states, events, p, maxBlock, header, k);
    if Inv(cfg, states[0]) {
      InvTrace(cfg, states, events);
      assert Passed(cfg, states[header], states[header].publishers[p].cursor);
    }
  }

  /**
   No block is lost, whatever became of it before: workers may crash, attempts may fail,
   processes may restart and re-indexing may have been forced at any time before the batch.
   A block between the cursor and the buffered tip that had fewer than batchSize unindexed
   blocks before it when the batch began, and that is still unindexed when the batch
   completes, has been enqueued by that batch.
   */
  lemma {:induction false} NoBlockLost(
      cfg: Config, states: seq<State>, events: seq<Event>, p: nat, maxBlock: nat, header: nat, exit: nat, b: nat)
      returns (k: nat)
    requires IsTrace(cfg, states, events) && IsBatch(cfg, states, events, p, maxBlock, header, exit)
    requires p in states[header].publishers && UnforcedDuring(states, events, header, exit)
    requires states[header].publishers[p].cursor <= b < maxBlock && b !in states[exit].indexed
    requires Rank(states[header].indexed.Keys, states[header].publishers[p].cursor, b) < cfg.batchSize
    ensures header < k < exit && Enqueues(cfg, states[k], events[k], p, b) && b in states[k + 1].queue
  {
    BatchIsSound(cfg, states, events, p, maxBlock, header, exit);
    BatchKeepsBase(cfg, states, events, p, maxBlock, header, exit);
    SweepCovers(cfg, states[exit], p, b);
    k := EnqueuedInBatch(cfg, states, events, p, maxBlock, header, exit, b);
  }

  /** A batch never reaches below its cursor. */
  lemma {:induction false} EnqueuesFromCursor(
      cfg: Config, states: seq<State>, events: seq<Event>, p: nat, maxBlock: nat, header: nat, k: nat, b: nat)
    requires IsTrace(cfg, states, events) && header < k < |events|
    requires IsHeaderRead(cfg, events[header], p, maxBlock) && SearchingBetween(states, p, header, k)
    requires UnforcedDuring(states, events, header, k) && Enqueues(cfg, states[k], events[k], p, b)
    ensures p in states[header].publishers && states[header].publishers[p].cursor <= b
  {
    BatchIsSound(cfg, states, events, p, maxBlock, header, k);
    BatchKeepsBase(cfg, states, events, p, maxBlock, header, k);
  }

  /**
   Where retrying ends: among the blocks that a completed batch had room for and that are
   still unindexed, it enqueued exactly those at or above its cursor.
   */
  lemma {:induction false} RetriedExactly(
      cfg: Config, states: seq<State>, events: seq<Event>, p: nat, maxBlock: nat, header: nat, exit: nat, b: nat)
    requires IsTrace(cfg, states, events) && IsBatch(cfg, states, events, p, maxBlock, header, exit)
    requires p in states[header].publishers && UnforcedDuring(states, events, header, exit)
    requires b < maxBlock && b !in states[exit].indexed
    requires Rank(states[header].indexed.Keys, states[header].publishers[p].cursor, b) < cfg.batchSize
    ensures (exists k :: header < k < exit && Enqueues(cfg, states[k], events[k], p, b))
       <==> states[header].publishers[p].cursor <= b
  {
    if k :| header < k < exit && Enqueues(cfg, states[k], events[k], p, b) {
      EnqueuesFromCursor(cfg, states, events, p, maxBlock, header, k, b);
    }
    if states[header].publishers[p].cursor <= b {
      var k := NoBlockLost(cfg, states, events, p, maxBlock, header, exit, b);
    }
  }
}
