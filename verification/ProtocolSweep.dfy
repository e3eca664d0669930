/**
 The search of `queueBatch` while workers keep marking: what one completed batch covers.
 The index only grows here, that is, no manual publisher forces a re-index.
 */
module ProtocolSweep {
  import opened Prelude
  import opened BlockIndex
  import opened Rdb
  import opened Protocol
  import opened ProtocolSafety
  import B = Backfill

  predicate Unforced(s: State, ev: Event) {
    ev.Other? && ev.other.ManualBegin? && ev.other.m in s.manuals ==> !s.manuals[ev.other.m].force
  }

  predicate UnforcedTrace(cfg: Config, states: seq<State>, events: seq<Event>) {
    IsTrace(cfg, states, events) && forall i {:trigger events[i]} :: 0 <= i < |events| ==> Unforced(states[i], events[i])
  }

  /** No forced un-marking from position i up to position j. */
  predicate UnforcedDuring(states: seq<State>, events: seq<Event>, i: nat, j: nat)
    requires j <= |events| < |states|
  {
    forall k {:trigger events[k]} :: i <= k < j ==> Unforced(states[k], events[k])
  }

  predicate Sweeping(pub: Publisher) {
    pub.pc.ReadWindow? || pub.pc.Scan?
  }

  function SweepOf(pub: Publisher): Sweep
    requires Sweeping(pub)
  {
    pub.pc.sweep
  }

  /** Blocks from the cursor to the search position were either enqueued or are marked. */
  ghost predicate SweepOk(cfg: Config, cursor: nat, sw: Sweep, marked: set<nat>) {
    && cursor <= sw.block
    && sw.base <= marked
    && |sw.added| == sw.queued <= cfg.batchSize
    && (forall u :: u in sw.added ==> cursor <= u < Min(sw.block, sw.maxBlock) && u !in sw.base)
    && (forall u: nat :: cursor <= u < sw.block ==> u in sw.added || u in marked)
  }

  ghost predicate PubOk(cfg: Config, pub: Publisher, marked: set<nat>) {
    match pub.pc
    case ReadWindow(sw) =>
      && SweepOk(cfg, pub.cursor, sw, marked)
      && (sw.queued < cfg.batchSize ==> sw.block == sw.searchStart || sw.block == sw.maxBlock <= sw.searchStart)
    case Scan(sw, view) =>
      && SweepOk(cfg, pub.cursor, sw, marked)
      && sw.searchStart <= sw.block <= SearchEnd(cfg, sw)
      && (forall u :: sw.searchStart <= u < SearchEnd(cfg, sw) ==> u in view)
      && (forall u :: u in view && view[u] ==> u in marked)
      && (forall u :: u in view && !view[u] ==> u !in sw.base)
    case _ => true
  }

  ghost predicate SweepInv(cfg: Config, s: State) {
    forall p :: p in s.publishers ==> PubOk(cfg, s.publishers[p], s.indexed.Keys)
  }

  /** Marking by others never invalidates a search in progress. */
  lemma PubOkMonotone(cfg: Config, pub: Publisher, marked: set<nat>, more: set<nat>)
    requires PubOk(cfg, pub, marked) && marked <= more
    ensures PubOk(cfg, pub, more)
  {
  }

  lemma SweepAdds(cfg: Config, cursor: nat, sw: Sweep, marked: set<nat>)
    requires SweepOk(cfg, cursor, sw, marked)
    requires sw.block < sw.maxBlock && sw.queued < cfg.batchSize && sw.block !in sw.base
    ensures SweepOk(cfg, cursor, sw.(block := sw.block + 1, queued := sw.queued + 1, added := sw.added + {sw.block}), marked)
  {
    assert sw.block !in sw.added;
  }

  lemma SweepSkips(cfg: Config, cursor: nat, sw: Sweep, marked: set<nat>)
    requires SweepOk(cfg, cursor, sw, marked) && sw.block in marked
    ensures SweepOk(cfg, cursor, sw.(block := sw.block + 1), marked)
  {
  }

  lemma PubOkScan(cfg: Config, s: State, p: nat)
    requires PubCan(s, p, Search) && PubOk(cfg, s.publishers[p], s.indexed.Keys)
    ensures PubOk(cfg, PubAfter(cfg, s, p, Search), s.indexed.Keys)
  {
    var cursor, sw, view := s.publishers[p].cursor, s.publishers[p].pc.sweep, s.publishers[p].pc.view;
    if sw.block < SearchEnd(cfg, sw) && sw.queued < cfg.batchSize {
      if view[sw.block] {
        SweepSkips(cfg, cursor, sw, s.indexed.Keys);
      } else {
        SweepAdds(cfg, cursor, sw, s.indexed.Keys);
      }
    }
  }

  lemma PubOkOwn(cfg: Config, s: State, p: nat, ev: PubEvent)
    requires PubCan(s, p, ev) && PubOk(cfg, s.publishers[p], s.indexed.Keys)
    ensures PubOk(cfg, PubAfter(cfg, s, p, ev), s.indexed.Keys)
  {
    if ev.Search? {
      PubOkScan(cfg, s, p);
    }
  }

  lemma IndexGrows(cfg: Config, s: State, ev: Event)
    requires Can(cfg, s, ev) && Unforced(s, ev)
    ensures s.indexed.Keys <= Do(cfg, s, ev).indexed.Keys
    ensures s.unmarked == Do(cfg, s, ev).unmarked
  {
  }

  /** No mark of one of these blocks takes effect. */
  predicate Spares(s: State, ev: Event, spared: set<nat>) {
    ev.Work? && ev.work == SetIndexed(true) && ev.w in s.workers && s.workers[ev.w].pc.Marking? ==>
      s.workers[ev.w].pc.block !in spared
  }

  predicate SparingTrace(cfg: Config, states: seq<State>, events: seq<Event>, spared: set<nat>) {
    UnforcedTrace(cfg, states, events) && forall i {:trigger events[i]} :: 0 <= i < |events| ==> Spares(states[i], events[i], spared)
  }

  lemma SparedStaysUnindexed(cfg: Config, s: State, ev: Event, spared: set<nat>)
    requires Can(cfg, s, ev) && Spares(s, ev, spared) && s.indexed.Keys !! spared
    ensures Do(cfg, s, ev).indexed.Keys !! spared
  {
    forall b | b in spared ensures b !in Do(cfg, s, ev).indexed {
      if b in Do(cfg, s, ev).indexed {
        OnlyWorkersMark(cfg, s, ev, b);
      }
    }
  }

  lemma PubOkStep(cfg: Config, s: State, ev: Event, p: nat)
    requires Can(cfg, s, ev) && Unforced(s, ev)
    requires p in s.publishers && PubOk(cfg, s.publishers[p], s.indexed.Keys)
    ensures p in Do(cfg, s, ev).publishers && PubOk(cfg, Do(cfg, s, ev).publishers[p], Do(cfg, s, ev).indexed.Keys)
  {
    if IsOwn(ev, p) {
      PubOkOwn(cfg, s, p, ev.pub);
    } else {
      IndexGrows(cfg, s, ev);
      PubOkMonotone(cfg, s.publishers[p], s.indexed.Keys, Do(cfg, s, ev).indexed.Keys);
    }
  }

  lemma SweepStep(cfg: Config, s: State, ev: Event)
    requires SweepInv(cfg, s) && Can(cfg, s, ev) && Unforced(s, ev)
    ensures SweepInv(cfg, Do(cfg, s, ev))
  {
    var s' := Do(cfg, s, ev);
    forall p | p in s'.publishers ensures PubOk(cfg, s'.publishers[p], s'.indexed.Keys) {
      assert p in s.publishers;
      PubOkStep(cfg, s, ev, p);
    }
  }

  /** The facts that hold along a trace without forced re-indexing. */
  ghost predicate Sound(cfg: Config, s: State) {
    Inv(cfg, s) && SweepInv(cfg, s) && s.unmarked == {}
  }

  lemma {:induction false} SoundInitially(cfg: Config, s: State)
    requires Init(cfg, s)
    ensures Sound(cfg, s)
  {
  }

  lemma {:induction false} SoundTrace(cfg: Config, states: seq<State>, events: seq<Event>)
    requires UnforcedTrace(cfg, states, events) && Sound(cfg, states[0])
    ensures forall i :: 0 <= i < |states| ==> Sound(cfg, states[i])
    decreases |events|
  {
    if events == [] {
    } else {
      InvStep(cfg, states[0], events[0]);
      SweepStep(cfg, states[0], events[0]);
      IndexGrows(cfg, states[0], events[0]);
      SoundTrace(cfg, states[1..], events[1..]);
      assert forall i :: 1 <= i < |states| ==> states[i] == states[1..][i - 1];
    }
  }

  lemma {:induction false} SoundAt(cfg: Config, states: seq<State>, events: seq<Event>, i: nat)
    requires UnforcedTrace(cfg, states, events) && Sound(cfg, states[0]) && i < |states|
    ensures Sound(cfg, states[i])
  {
    SoundTrace(cfg, states, events);
  }

  /** A search that began soundly stays sound while no one forces an un-marking. */
  lemma {:induction false} PubOkTrace(cfg: Config, states: seq<State>, events: seq<Event>, p: nat, i: nat, j: nat)
    requires IsTrace(cfg, states, events) && i <= j < |states| && UnforcedDuring(states, events, i, j)
    requires p in states[i].publishers && PubOk(cfg, states[i].publishers[p], states[i].indexed.Keys)
    ensures p in states[j].publishers && PubOk(cfg, states[j].publishers[p], states[j].indexed.Keys)
    decreases j
  {
    if i == j {
    } else {
      PubOkTrace(cfg, states, events, p, i, j - 1);
      PubOkStep(cfg, states[j - 1], events[j - 1], p);
    }
  }

  lemma {:induction false} IndexGrowsTrace(cfg: Config, states: seq<State>, events: seq<Event>, i: nat, j: nat)
    requires IsTrace(cfg, states, events) && i <= j < |states| && UnforcedDuring(states, events, i, j)
    ensures states[i].indexed.Keys <= states[j].indexed.Keys
    decreases j
  {
    if i == j {
    } else {
      IndexGrowsTrace(cfg, states, events, i, j - 1);
      IndexGrows(cfg, states[j - 1], events[j - 1]);
    }
  }

  /** The event by which publisher p leaves the search loop. */
  predicate Completes(cfg: Config, s: State, p: nat) {
    PubCan(s, p, Window) && PubAfter(cfg, s, p, Window).pc.Top?
  }

  /**
   A completed batch has dealt with every block below the buffered tip that had fewer
   than batchSize unindexed blocks between the cursor and it when the batch began: the
   block was enqueued by this batch, or has been marked.
   */
  lemma SweepCovers(cfg: Config, s: State, p: nat, b: nat)
    requires Completes(cfg, s, p) && PubOk(cfg, s.publishers[p], s.indexed.Keys)
    requires var sw := s.publishers[p].pc.sweep;
             s.publishers[p].cursor <= b < sw.maxBlock && Rank(sw.base, s.publishers[p].cursor, b) < cfg.batchSize
    ensures b in s.publishers[p].pc.sweep.added || b in s.indexed
  {
    var pub := s.publishers[p];
    var sw := pub.pc.sweep;
    if sw.block <= b {
      assert sw.queued == cfg.batchSize;
      RankBounds(sw.base, pub.cursor, sw.block, sw.added);
      RankSplit(sw.base, pub.cursor, sw.block, b);
    }
  }

  /**
   If the index did not change during the batch, the windows read one after the other are
   as good as one look at the whole index: exactly the round's blocks were enqueued. This
   ties the interleaved search to the publisher's method and to its specification.
   */
  lemma SweepRefinesRound(cfg: Config, s: State, p: nat, latest: nat)
    requires Completes(cfg, s, p) && PubOk(cfg, s.publishers[p], s.indexed.Keys)
    requires s.publishers[p].pc.sweep.base == s.indexed.Keys
    requires s.publishers[p].pc.sweep.maxBlock == MaxBlock(latest, cfg.tipBuffer)
    ensures s.publishers[p].pc.sweep.added
         == B.RoundBlocks(s.indexed.Keys, s.publishers[p].cursor, Some(latest), cfg.tipBuffer, cfg.batchSize)
  {
    var pub := s.publishers[p];
    var sw := pub.pc.sweep;
    var marked := s.indexed.Keys;
    B.RoundBlocksMeaning(marked, pub.cursor, latest, cfg.tipBuffer, cfg.batchSize);
    var blocks := B.RoundBlocks(marked, pub.cursor, Some(latest), cfg.tipBuffer, cfg.batchSize);
    forall b: nat ensures b in blocks <==> b in sw.added {
      if b in blocks {
        SweepCovers(cfg, s, p, b);
      }
      if b in sw.added {
        RankCovered(marked, pub.cursor, b, sw.added - {b});
      }
    }
  }

  /** The publisher scans the window that this index had. */
  predicate ScansWindowOf(cfg: Config, pub: Publisher, indexed: map<nat, bool>) {
    && pub.pc.Scan?
    && pub.pc.view == BulkView(indexed, pub.pc.sweep.searchStart, 2 * cfg.batchSize)
    && pub.pc.sweep.searchStart <= pub.pc.sweep.block <= Max(pub.pc.sweep.searchStart, SearchEnd(cfg, pub.pc.sweep))
  }

  lemma ScanKeepsWindow(cfg: Config, s: State, ev: Event, p: nat, indexed: map<nat, bool>)
    requires Can(cfg, s, ev) && p in s.publishers && ScansWindowOf(cfg, s.publishers[p], indexed)
    requires p in Do(cfg, s, ev).publishers && Do(cfg, s, ev).publishers[p].pc.Scan?
    ensures ScansWindowOf(cfg, Do(cfg, s, ev).publishers[p], indexed)
  {
  }

  lemma ScanBegins(cfg: Config, s: State, ev: Event, p: nat)
    requires Can(cfg, s, ev) && p in s.publishers && !s.publishers[p].pc.Scan?
    requires p in Do(cfg, s, ev).publishers && Do(cfg, s, ev).publishers[p].pc.Scan?
    ensures ev == Pub(p, Window) && ScansWindowOf(cfg, Do(cfg, s, ev).publishers[p], s.indexed)
  {
  }

  lemma {:induction false} WindowOf(cfg: Config, states: seq<State>, events: seq<Event>, p: nat, k: nat) returns (r: nat)
    requires IsTrace(cfg, states, events) && k < |states|
    requires p in states[0].publishers && !states[0].publishers[p].pc.Scan?
    requires p in states[k].publishers && states[k].publishers[p].pc.Scan?
    ensures r < k && events[r] == Pub(p, Window) && ScansWindowOf(cfg, states[k].publishers[p], states[r].indexed)
    decreases k
  {
    assert states[k] == Do(cfg, states[k - 1], events[k - 1]);
    if states[k - 1].publishers[p].pc.Scan? {
      r := WindowOf(cfg, states, events, p, k - 1);
      ScanKeepsWindow(cfg, states[k - 1], events[k - 1], p, states[r].indexed);
    } else {
      r := k - 1;
      ScanBegins(cfg, states[k - 1], events[k - 1], p);
    }
  }

  /**
   Every decision of the inner loop rests on one earlier window read r, whatever has been
   marked or un-marked since: while there is room, the block at hand is enqueued exactly if
   it was not indexed at r.
   */
  lemma {:induction false} EnqueuedIffUnindexedAtRead(
      cfg: Config, states: seq<State>, events: seq<Event>, p: nat, k: nat)
      returns (r: nat)
    requires IsTrace(cfg, states, events) && k < |states|
    requires p in states[0].publishers && !states[0].publishers[p].pc.Scan?
    requires p in states[k].publishers && states[k].publishers[p].pc.Scan?
    requires var sw := states[k].publishers[p].pc.sweep; sw.block < SearchEnd(cfg, sw) && sw.queued < cfg.batchSize
    ensures r < k && events[r] == Pub(p, Window)
    ensures var block := states[k].publishers[p].pc.sweep.block;
            ScanEnqueues(cfg, states[k].publishers[p]) == if block in states[r].indexed then {} else {block}
  {
    r := WindowOf(cfg, states, events, p, k);
  }

  /** Own steps of a search that remain, at most. */
  function SearchSteps(cfg: Config, pub: Publisher): nat {
    match pub.pc
    case ReadWindow(sw) => 4 * Above(sw.maxBlock, sw.searchStart) + 1
    case Scan(sw, view) =>
      4 * Above(sw.maxBlock, sw.searchStart + 2 * cfg.batchSize) + 2 + Above(SearchEnd(cfg, sw), sw.block)
    case _ => 0
  }

  function Above(a: nat, b: nat): nat {
    if a <= b then 0 else a - b
  }

  lemma SearchAdvances(cfg: Config, s: State, ev: Event, p: nat)
    requires Can(cfg, s, ev) && p in s.publishers && Sweeping(s.publishers[p])
    requires p in Do(cfg, s, ev).publishers && Sweeping(Do(cfg, s, ev).publishers[p])
    ensures SearchSteps(cfg, Do(cfg, s, ev).publishers[p]) + (if IsOwn(ev, p) then 1 else 0)
         <= SearchSteps(cfg, s.publishers[p])
  {
  }

  predicate IsOwn(ev: Event, p: nat) {
    ev.Pub? && ev.p == p
  }

  /** How many of the events from position i up to j are steps of publisher p. */
  function OwnSteps(events: seq<Event>, p: nat, i: nat, j: nat): nat
    requires j <= |events|
  {
    if j <= i then 0 else OwnSteps(events, p, i, j - 1) + if IsOwn(events[j - 1], p) then 1 else 0
  }

  /**
   The search ends: as long as publisher p has not left it, it has taken no more own steps
   than remained at position i, whatever others do in between, un-marking included.
   */
  lemma {:induction false} SearchEnds(cfg: Config, states: seq<State>, events: seq<Event>, p: nat, i: nat, j: nat)
    requires IsTrace(cfg, states, events) && i <= j < |states|
    requires forall k :: i <= k <= j ==> p in states[k].publishers && Sweeping(states[k].publishers[p])
    ensures OwnSteps(events, p, i, j) + SearchSteps(cfg, states[j].publishers[p])
         <= SearchSteps(cfg, states[i].publishers[p])
    decreases j
  {
    if i == j {
    } else {
      SearchEnds(cfg, states, events, p, i, j - 1);
      SearchAdvances(cfg, states[j - 1], events[j - 1], p);
    }
  }
}
