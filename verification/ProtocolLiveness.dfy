/**
 Rounds finish the backfill. Some blocks may fail on every attempt for ever; as long as fewer
 than batchSize of them lie below the buffered tip, all others get indexed, with every round
 whose blocks leave the queue and the workers' hands as many as the batch has room for beside
 the failing ones. Crashes between the rounds that count do no harm, however many there are.
 `ProtocolStarvation` tells when blocks need not leave the queue, and `ProtocolCycles` that
 rounds whose blocks do leave it can always be had.
 */
module ProtocolLiveness {
  import opened Prelude
  import opened BlockIndex
  import opened Protocol
  import opened ProtocolSafety
  import opened ProtocolSweep
  import opened ProtocolBatch
  import B = Backfill

  /**
   Workers keep running and their marks reach Redis; an attempt at a failing block always
   fails, and any other block succeeds at the latest with the last attempt. Publishers may
   restart, attempts may fail, and anything may interleave.
   */
  predicate Calm(cfg: Config, s: State, ev: Event, failing: set<nat>) {
    Unforced(s, ev) && (ev.Work? && ev.w in s.workers ==> CalmWork(cfg, s.workers[ev.w].pc, ev.work, failing))
  }

  predicate CalmWork(cfg: Config, pc: WorkerPc, ev: WorkEvent, failing: set<nat>) {
    match ev
    case Reboot => false
    case Cancel => false
    case SetIndexed(effective) => effective
    case End(plan) =>
      pc.Running? ==>
        if pc.block in failing then pc.run.failed else pc.run.failed ==> pc.attempt < cfg.maxAttempts
    case _ => true
  }

  /** All events from position i up to position j are calm. */
  predicate CalmDuring(cfg: Config, states: seq<State>, events: seq<Event>, failing: set<nat>, i: nat, j: nat)
    requires j <= |events| < |states|
  {
    forall k {:trigger events[k]} :: i <= k < j ==> Calm(cfg, states[k], events[k], failing)
  }

  predicate Holds(s: State, w: nat, b: nat) {
    w in s.workers && !s.workers[w].pc.Idle? && s.workers[w].pc.block == b
  }

  /** Queued, in the hands of a worker, or done. */
  ghost predicate InSystem(s: State, b: nat) {
    b in s.queue || b in s.indexed || exists w :: Holds(s, w, b)
  }

  /** Neither queued nor in the hands of a worker. */
  predicate Gone(s: State, b: nat) {
    b !in s.queue && forall w :: w in s.workers ==> !Holds(s, w, b)
  }

  lemma HolderMoves(cfg: Config, s: State, w: nat, ev: WorkEvent, failing: set<nat>, b: nat)
    requires WorkerCan(cfg, s, w, ev) && CalmWork(cfg, s.workers[w].pc, ev, failing)
    requires b !in failing && Holds(s, w, b)
    ensures Holds(WorkerDo(cfg, s, w, ev), w, b) || b in WorkerDo(cfg, s, w, ev).indexed
  {
  }

  /** In calm weather, a block that can succeed and is in the system stays in it. */
  lemma StaysInSystem(cfg: Config, s: State, ev: Event, failing: set<nat>, b: nat)
    requires Can(cfg, s, ev) && Calm(cfg, s, ev, failing)
    requires b !in failing && InSystem(s, b)
    ensures InSystem(Do(cfg, s, ev), b)
  {
    var s' := Do(cfg, s, ev);
    IndexGrows(cfg, s, ev);
    if b in s.queue && b !in s'.queue {
      assert ev == Work(ev.w, Pop(b));
      assert Holds(s', ev.w, b);
    } else if b !in s.queue && b !in s.indexed {
      var w :| Holds(s, w, b);
      if ev.Work? && ev.w == w {
        HolderMoves(cfg, s, w, ev.work, failing, b);
      } else {
        assert Holds(s', w, b);
      }
    }
  }

  lemma {:induction false} StaysInSystemTrace(
      cfg: Config, states: seq<State>, events: seq<Event>, failing: set<nat>, b: nat, i: nat, j: nat)
    requires IsTrace(cfg, states, events) && i <= j < |states| && CalmDuring(cfg, states, events, failing, i, j)
    requires b !in failing && InSystem(states[i], b)
    ensures InSystem(states[j], b)
    decreases j
  {
    if i == j {
    } else {
      StaysInSystemTrace(cfg, states, events, failing, b, i, j - 1);
      StaysInSystem(cfg, states[j - 1], events[j - 1], failing, b);
    }
  }

  // ----- One cycle: a completed batch, and its blocks leaving the queue and all hands

  /**
   A batch of some publisher up to some buffered tip, and positions in a trace: its header
   read, its completion, and a state in which its good blocks are gone.
   */
  datatype Cycle = Cycle(publisher: nat, tip: nat, header: nat, exit: nat, end: nat)

  /** The blocks of the batch that publisher p has just completed in h are gone, failing ones aside. */
  predicate BatchIsGone(h: State, s: State, failing: set<nat>, p: nat) {
    p in h.publishers && Sweeping(h.publishers[p]) &&
    forall b :: b in SweepOf(h.publishers[p]).added && b !in failing ==> Gone(s, b)
  }

  predicate IsCycle(cfg: Config, states: seq<State>, events: seq<Event>, failing: set<nat>, c: Cycle) {
    && IsBatch(cfg, states, events, c.publisher, c.tip, c.header, c.exit) && c.exit <= c.end < |states|
    && BatchIsGone(states[c.exit], states[c.end], failing, c.publisher)
    && CalmDuring(cfg, states, events, failing, c.header, c.end)
  }

  /** The batch running in s is the one that began in h, and what it enqueued is in the system. */
  ghost predicate SameBatch(h: State, s: State, failing: set<nat>, p: nat, maxBlock: nat) {
    && p in h.publishers && p in s.publishers && Sweeping(s.publishers[p])
    && s.publishers[p].cursor == h.publishers[p].cursor
    && var sw := SweepOf(s.publishers[p]);
    && sw.base == h.indexed.Keys && sw.maxBlock == maxBlock
    && forall b :: b in sw.added && b !in failing ==> InSystem(s, b)
  }

  lemma SameBatchStep(cfg: Config, h: State, s: State, ev: Event, failing: set<nat>, p: nat, maxBlock: nat)
    requires SameBatch(h, s, failing, p, maxBlock)
    requires Can(cfg, s, ev) && Calm(cfg, s, ev, failing)
    requires p in Do(cfg, s, ev).publishers && Sweeping(Do(cfg, s, ev).publishers[p])
    ensures SameBatch(h, Do(cfg, s, ev), failing, p, maxBlock)
  {
    var s' := Do(cfg, s, ev);
    BatchContinues(cfg, s, ev, p);
    forall b | b in SweepOf(s'.publishers[p]).added && b !in failing ensures InSystem(s', b) {
      if b !in s'.queue {
        StaysInSystem(cfg, s, ev, failing, b);
      }
    }
  }

  lemma {:induction false} SameBatchTrace(
      cfg: Config, states: seq<State>, events: seq<Event>, failing: set<nat>, p: nat, maxBlock: nat, header: nat, k: nat)
    requires IsTrace(cfg, states, events) && header < k < |states| && IsHeaderRead(cfg, events[header], p, maxBlock)
    requires SearchingBetween(states, p, header, k) && CalmDuring(cfg, states, events, failing, header, k)
    ensures SameBatch(states[header], states[k], failing, p, maxBlock)
    decreases k
  {
    var s, ev := states[k - 1], events[k - 1];
    assert states[k] == Do(cfg, s, ev);
    if k == header + 1 {
      BatchBeginsEmpty(cfg, s, ev, p, maxBlock);
    } else {
      SameBatchTrace(cfg, states, events, failing, p, maxBlock, header, k - 1);
      SameBatchStep(cfg, states[header], s, ev, failing, p, maxBlock);
    }
  }

  lemma CalmIsUnforced(cfg: Config, states: seq<State>, events: seq<Event>, failing: set<nat>, i: nat, j: nat)
    requires i <= j <= |events| < |states| && CalmDuring(cfg, states, events, failing, i, j)
    ensures UnforcedDuring(states, events, i, j)
  {
    forall k {:trigger events[k]} | i <= k < j ensures Unforced(states[k], events[k]) {
      assert Calm(cfg, states[k], events[k], failing);
    }
  }

  /**
   After a cycle, every block between the cursor and the buffered tip that can succeed and
   had a rank below batchSize is indexed. The publisher does not have to wait: it may have
   begun any number of further batches before the cycle ends.
   */
  lemma {:induction false} CycleIndexes(
      cfg: Config, states: seq<State>, events: seq<Event>, failing: set<nat>, c: Cycle, b: nat)
    requires IsTrace(cfg, states, events) && IsCycle(cfg, states, events, failing, c)
    requires c.publisher in states[c.header].publishers
    requires states[c.header].publishers[c.publisher].cursor <= b < c.tip && b !in failing
    requires Rank(states[c.header].indexed.Keys, states[c.header].publishers[c.publisher].cursor, b) < cfg.batchSize
    ensures b in states[c.end].indexed
  {
    CalmIsUnforced(cfg, states, events, failing, c.header, c.end);
    BatchIsSound(cfg, states, events, c.publisher, c.tip, c.header, c.exit);
    SameBatchTrace(cfg, states, events, failing, c.publisher, c.tip, c.header, c.exit);
    SweepCovers(cfg, states[c.exit], c.publisher, b);
    if b in states[c.exit].indexed {
      IndexGrowsTrace(cfg, states, events, c.exit, c.end);
    } else {
      StaysInSystemTrace(cfg, states, events, failing, b, c.exit, c.end);
      assert Gone(states[c.end], b);
    }
  }

  // ----- The backfill completes

  /** No cursor has passed this block, and no restart will put one beyond it. */
  predicate Ahead(cfg: Config, s: State, b: nat) {
    && cfg.startBlock <= b && (s.saved.Some? ==> s.saved.value <= b)
    && forall p :: p in s.publishers ==> s.publishers[p].cursor <= b
  }

  lemma AheadStep(cfg: Config, s: State, ev: Event, b: nat)
    requires Can(cfg, s, ev) && Ahead(cfg, s, b) && b !in s.indexed
    ensures Ahead(cfg, Do(cfg, s, ev), b)
  {
    if ev.Pub? && ev.pub.UpdateCursor? {
      CursorAfterMeaning(s.indexed.Keys, s.publishers[ev.p].cursor, cfg.batchSize);
    }
  }

  lemma {:induction false} AheadTrace(cfg: Config, states: seq<State>, events: seq<Event>, b: nat, i: nat)
    requires UnforcedTrace(cfg, states, events) && i < |states|
    requires Ahead(cfg, states[0], b) && b !in states[i].indexed
    ensures Ahead(cfg, states[i], b)
    decreases i
  {
    if i == 0 {
    } else {
      IndexGrows(cfg, states[i - 1], events[i - 1]);
      AheadTrace(cfg, states, events, b, i - 1);
      AheadStep(cfg, states[i - 1], events[i - 1], b);
    }
  }

  /** The unindexed blocks up to maxBlock. */
  function Unindexed(cfg: Config, s: State, maxBlock: nat): set<nat> {
    set b: nat | cfg.startBlock <= b < maxBlock && b !in s.indexed
  }

  /** The blocks up to maxBlock still to be indexed, those aside that will not be. */
  function Missing(cfg: Config, s: State, aside: set<nat>, maxBlock: nat): set<nat> {
    Unindexed(cfg, s, maxBlock) - aside
  }

  function Below(cfg: Config, aside: set<nat>, maxBlock: nat): set<nat> {
    set b | b in aside && cfg.startBlock <= b < maxBlock
  }

  /** Everything unindexed lies ahead of all cursors, what is set aside excepted. */
  predicate OthersAhead(cfg: Config, s: State, aside: set<nat>, maxBlock: nat) {
    forall b :: b in Missing(cfg, s, aside, maxBlock) ==> Ahead(cfg, s, b)
  }

  lemma MissingShrinks(cfg: Config, s: State, s': State, aside: set<nat>, maxBlock: nat)
    requires s.indexed.Keys <= s'.indexed.Keys
    ensures Missing(cfg, s', aside, maxBlock) <= Missing(cfg, s, aside, maxBlock)
    ensures |Missing(cfg, s', aside, maxBlock)| <= |Missing(cfg, s, aside, maxBlock)|
  {
    SubsetCardinality(Missing(cfg, s', aside, maxBlock), Missing(cfg, s, aside, maxBlock));
  }

  /** The first unindexed blocks, as many as a batch has room for. */
  function FirstOnes(cfg: Config, s: State, maxBlock: nat): set<nat> {
    Elements(FirstUnmarked(s.indexed.Keys, cfg.startBlock, maxBlock, cfg.batchSize))
  }

  lemma FirstOnesMeaning(cfg: Config, s: State, maxBlock: nat)
    ensures FirstOnes(cfg, s, maxBlock) <= Unindexed(cfg, s, maxBlock)
    ensures |FirstOnes(cfg, s, maxBlock)| == Min(cfg.batchSize, |Unindexed(cfg, s, maxBlock)|)
  {
    var marked := s.indexed.Keys;
    forall b | b in FirstOnes(cfg, s, maxBlock) ensures b in Unindexed(cfg, s, maxBlock) {
      FirstUnmarkedMembers(marked, cfg.startBlock, maxBlock, cfg.batchSize, b);
    }
    FirstUnmarkedAscending(marked, cfg.startBlock, maxBlock, cfg.batchSize);
    B.AscendingCount(FirstUnmarked(marked, cfg.startBlock, maxBlock, cfg.batchSize));
    FirstUnmarkedLength(marked, cfg.startBlock, maxBlock, cfg.batchSize);
    RankIsCount(marked, cfg.startBlock, maxBlock);
    assert Unindexed(cfg, s, maxBlock) == set u: nat | cfg.startBlock <= u < maxBlock && u !in marked;
  }

  /** A batch has room for all missing blocks, or for batchSize less the number of blocks set aside. */
  lemma RoomForMissing(cfg: Config, s: State, aside: set<nat>, maxBlock: nat)
    requires |Below(cfg, aside, maxBlock)| <= cfg.batchSize
    ensures |FirstOnes(cfg, s, maxBlock) - aside|
         >= Min(|Missing(cfg, s, aside, maxBlock)|, cfg.batchSize - |Below(cfg, aside, maxBlock)|)
  {
    var first, all := FirstOnes(cfg, s, maxBlock), Unindexed(cfg, s, maxBlock);
    FirstOnesMeaning(cfg, s, maxBlock);
    assert first == (first - aside) + (first * aside);
    SubsetCardinality(first * aside, Below(cfg, aside, maxBlock));
    if |first| == |all| {
      SubsetCardinality(first, all);
    }
  }

  /** A cycle indexes all missing blocks that were among the first ones. */
  lemma {:induction false} CycleIndexesFirst(
      cfg: Config, states: seq<State>, events: seq<Event>, failing: set<nat>, aside: set<nat>, maxBlock: nat,
      c: Cycle, b: nat)
    requires SparingTrace(cfg, states, events, failing) && Inv(cfg, states[0]) && failing <= aside
    requires OthersAhead(cfg, states[0], aside, maxBlock)
    requires IsCycle(cfg, states, events, failing, c) && maxBlock <= c.tip
    requires b in FirstOnes(cfg, states[c.header], maxBlock) - aside
    ensures b in states[c.end].indexed
  {
    var s := states[c.header];
    FirstUnmarkedMembers(s.indexed.Keys, cfg.startBlock, maxBlock, cfg.batchSize, b);
    IndexGrowsTrace(cfg, states, events, 0, c.header);
    assert b in Missing(cfg, states[0], aside, maxBlock);
    AheadTrace(cfg, states, events, b, c.header);
    BatchBeginsEmpty(cfg, s, events[c.header], c.publisher, c.tip);
    InvTrace(cfg, states, events);
    assert Passed(cfg, s, s.publishers[c.publisher].cursor);
    RankSplit(s.indexed.Keys, cfg.startBlock, s.publishers[c.publisher].cursor, b);
    CycleIndexes(cfg, states, events, failing, c, b);
  }

  /** What one cycle achieves: all missing blocks, or as many as the batch has room for beside those set aside. */
  lemma {:induction false} CycleProgresses(
      cfg: Config, states: seq<State>, events: seq<Event>, failing: set<nat>, aside: set<nat>, maxBlock: nat,
      c: Cycle)
    requires SparingTrace(cfg, states, events, failing) && Inv(cfg, states[0]) && failing <= aside
    requires OthersAhead(cfg, states[0], aside, maxBlock)
    requires IsCycle(cfg, states, events, failing, c) && maxBlock <= c.tip
    requires |Below(cfg, aside, maxBlock)| <= cfg.batchSize
    ensures var room := cfg.batchSize - |Below(cfg, aside, maxBlock)|;
            var left := |Missing(cfg, states[c.header], aside, maxBlock)|;
            |Missing(cfg, states[c.end], aside, maxBlock)| + Min(left, room) <= left
  {
    var missing, done := Missing(cfg, states[c.header], aside, maxBlock), FirstOnes(cfg, states[c.header], maxBlock) - aside;
    var rest := Missing(cfg, states[c.end], aside, maxBlock);
    RoomForMissing(cfg, states[c.header], aside, maxBlock);
    FirstOnesMeaning(cfg, states[c.header], maxBlock);
    IndexGrowsTrace(cfg, states, events, c.header, c.end);
    MissingShrinks(cfg, states[c.header], states[c.end], aside, maxBlock);
    forall b | b in done ensures b !in rest {
      CycleIndexesFirst(cfg, states, events, failing, aside, maxBlock, c, b);
    }
    assert done <= missing && rest <= missing - done;
    SubsetCardinality(rest, missing - done);
  }

  /** Cycles one after the other, of any publishers, with a tip that does not fall below maxBlock. */
  predicate AreCycles(
      cfg: Config, states: seq<State>, events: seq<Event>, failing: set<nat>, maxBlock: nat, cycles: seq<Cycle>)
  {
    && (forall k {:trigger IsCycle(cfg, states, events, failing, cycles[k])} ::
          0 <= k < |cycles| ==> IsCycle(cfg, states, events, failing, cycles[k]) && maxBlock <= cycles[k].tip)
    && (forall k :: 0 < k < |cycles| ==> cycles[k - 1].end <= cycles[k].header)
  }

  /** Where cycle k ends; the trace's beginning, before the first. */
  function EndOf(cycles: seq<Cycle>, k: nat): nat
    requires k <= |cycles|
  {
    if k == 0 then 0 else cycles[k - 1].end
  }

  /** From any position up to a cycle, to its end. */
  lemma {:induction false} OneCycle(
      cfg: Config, states: seq<State>, events: seq<Event>, failing: set<nat>, aside: set<nat>, maxBlock: nat,
      c: Cycle, from: nat)
    requires SparingTrace(cfg, states, events, failing) && Inv(cfg, states[0]) && failing <= aside
    requires OthersAhead(cfg, states[0], aside, maxBlock)
    requires IsCycle(cfg, states, events, failing, c) && maxBlock <= c.tip && from <= c.header
    requires |Below(cfg, aside, maxBlock)| <= cfg.batchSize
    ensures var room := cfg.batchSize - |Below(cfg, aside, maxBlock)|;
            var left := |Missing(cfg, states[c.end], aside, maxBlock)|;
            left == 0 || left + room <= |Missing(cfg, states[from], aside, maxBlock)|
  {
    IndexGrowsTrace(cfg, states, events, from, c.header);
    MissingShrinks(cfg, states[from], states[c.header], aside, maxBlock);
    CycleProgresses(cfg, states, events, failing, aside, maxBlock, c);
  }

  lemma CycleAt(
      cfg: Config, states: seq<State>, events: seq<Event>, failing: set<nat>, maxBlock: nat, cycles: seq<Cycle>, k: nat)
    requires AreCycles(cfg, states, events, failing, maxBlock, cycles) && k < |cycles|
    ensures IsCycle(cfg, states, events, failing, cycles[k]) && maxBlock <= cycles[k].tip
    ensures EndOf(cycles, k) <= cycles[k].header && EndOf(cycles, k + 1) == cycles[k].end < |states|
  {
    assert IsCycle(cfg, states, events, failing, cycles[k]);
  }

  function MissingAt(cfg: Config, states: seq<State>, aside: set<nat>, maxBlock: nat, i: nat): nat {
    if i < |states| then |Missing(cfg, states[i], aside, maxBlock)| else 0
  }

  /** Counts that reach 0 or fall by `room` with every step. */
  lemma {:induction false} CountDown(counts: seq<nat>, n: nat, room: nat)
    requires n < |counts|
    requires forall k :: 0 < k < |counts| ==> counts[k] == 0 || counts[k] + room <= counts[k - 1]
    ensures counts[n] == 0 || counts[n] + n * room <= counts[0]
  {
    if n == 0 {
    } else {
      CountDown(counts, n - 1, room);
      assert n * room == (n - 1) * room + room;
    }
  }

  lemma CycleCounts(
      cfg: Config, states: seq<State>, events: seq<Event>, failing: set<nat>, aside: set<nat>, maxBlock: nat,
      cycles: seq<Cycle>, room: nat, k: nat)
    requires SparingTrace(cfg, states, events, failing) && Inv(cfg, states[0]) && failing <= aside
    requires OthersAhead(cfg, states[0], aside, maxBlock)
    requires AreCycles(cfg, states, events, failing, maxBlock, cycles) && k < |cycles|
    requires |Below(cfg, aside, maxBlock)| + room == cfg.batchSize
    ensures var left := MissingAt(cfg, states, aside, maxBlock, EndOf(cycles, k + 1));
            left == 0 || left + room <= MissingAt(cfg, states, aside, maxBlock, EndOf(cycles, k))
  {
    CycleAt(cfg, states, events, failing, maxBlock, cycles, k);
    OneCycle(cfg, states, events, failing, aside, maxBlock, cycles[k], EndOf(cycles, k));
  }

  /** After all cycles, with anything happening between them: nothing is missing, or less by the room of each. */
  lemma {:induction false} CyclesCount(
      cfg: Config, states: seq<State>, events: seq<Event>, failing: set<nat>, aside: set<nat>, maxBlock: nat,
      cycles: seq<Cycle>, room: nat)
    requires SparingTrace(cfg, states, events, failing) && Inv(cfg, states[0]) && failing <= aside
    requires OthersAhead(cfg, states[0], aside, maxBlock)
    requires AreCycles(cfg, states, events, failing, maxBlock, cycles)
    requires |Below(cfg, aside, maxBlock)| + room == cfg.batchSize
    ensures var left := MissingAt(cfg, states, aside, maxBlock, EndOf(cycles, |cycles|));
            left == 0 || left + |cycles| * room <= MissingAt(cfg, states, aside, maxBlock, 0)
  {
    var counts: seq<nat> := seq(|cycles| + 1, k requires 0 <= k <= |cycles| =>
      MissingAt(cfg, states, aside, maxBlock, EndOf(cycles, k)));
    forall k | 0 < k < |counts| ensures counts[k] == 0 || counts[k] + room <= counts[k - 1] {
      CycleCounts(cfg, states, events, failing, aside, maxBlock, cycles, room, k - 1);
    }
    CountDown(counts, |cycles|, room);
  }

  lemma {:induction false} SparedTrace(
      cfg: Config, states: seq<State>, events: seq<Event>, failing: set<nat>, i: nat)
    requires SparingTrace(cfg, states, events, failing) && states[0].indexed.Keys !! failing && i < |states|
    ensures states[i].indexed.Keys !! failing
    decreases i
  {
    if i == 0 {
    } else {
      SparedTrace(cfg, states, events, failing, i - 1);
      SparedStaysUnindexed(cfg, states[i - 1], events[i - 1], failing);
    }
  }

  /** Enough cycles for all missing blocks, when each has room for batchSize less the blocks set aside. */
  predicate EnoughCycles(cfg: Config, s: State, aside: set<nat>, maxBlock: nat, n: nat) {
    && |Below(cfg, aside, maxBlock)| < cfg.batchSize
    && |Missing(cfg, s, aside, maxBlock)| <= n * (cfg.batchSize - |Below(cfg, aside, maxBlock)|)
  }

  /**
   Set aside the failing blocks, and those that re-indexing had un-marked below a cursor
   before the trace began. If they are fewer than batchSize, then after enough cycles, with
   anything at all but forced re-indexing happening between the cycles, all others are
   indexed, and no failing one is.
   */
  lemma {:induction false} CyclesFinish(
      cfg: Config, states: seq<State>, events: seq<Event>, failing: set<nat>, aside: set<nat>, maxBlock: nat,
      cycles: seq<Cycle>, b: nat)
    requires SparingTrace(cfg, states, events, failing) && Inv(cfg, states[0]) && failing <= aside
    requires OthersAhead(cfg, states[0], aside, maxBlock) && states[0].indexed.Keys !! failing
    requires AreCycles(cfg, states, events, failing, maxBlock, cycles)
    requires EnoughCycles(cfg, states[0], aside, maxBlock, |cycles|)
    requires cfg.startBlock <= b < maxBlock
    ensures EndOf(cycles, |cycles|) < |states|
    ensures b !in aside ==> b in states[EndOf(cycles, |cycles|)].indexed
    ensures b in failing ==> b !in states[EndOf(cycles, |cycles|)].indexed
  {
    CyclesCount(cfg, states, events, failing, aside, maxBlock, cycles, cfg.batchSize - |Below(cfg, aside, maxBlock)|);
    if cycles != [] {
      CycleAt(cfg, states, events, failing, maxBlock, cycles, |cycles| - 1);
    }
    var s := states[EndOf(cycles, |cycles|)];
    assert b in Missing(cfg, s, aside, maxBlock) <==> b !in aside && b !in s.indexed;
    SparedTrace(cfg, states, events, failing, EndOf(cycles, |cycles|));
  }

  /**
   With a tip that stays at or above maxBlock and fewer than batchSize failing blocks below it, and no forced
   re-indexing: after enough cycles the blocks left unindexed are exactly the failing ones.
   */
  lemma {:induction false} BackfillCompletes(
      cfg: Config, states: seq<State>, events: seq<Event>, failing: set<nat>, maxBlock: nat,
      cycles: seq<Cycle>, b: nat)
    requires SparingTrace(cfg, states, events, failing) && Sound(cfg, states[0])
    requires states[0].indexed.Keys !! failing
    requires AreCycles(cfg, states, events, failing, maxBlock, cycles)
    requires EnoughCycles(cfg, states[0], failing, maxBlock, |cycles|)
    requires cfg.startBlock <= b < maxBlock
    ensures EndOf(cycles, |cycles|) < |states|
    ensures b in states[EndOf(cycles, |cycles|)].indexed <==> b !in failing
  {
    SoundIsAhead(cfg, states[0], failing, maxBlock);
    CyclesFinish(cfg, states, events, failing, failing, maxBlock, cycles, b);
  }

  lemma SoundIsAhead(cfg: Config, s: State, aside: set<nat>, maxBlock: nat)
    requires Sound(cfg, s)
    ensures OthersAhead(cfg, s, aside, maxBlock)
  {
    forall b | b in Missing(cfg, s, aside, maxBlock) ensures Ahead(cfg, s, b) {
      if s.saved.Some? {
        assert Passed(cfg, s, s.saved.value);
      }
      forall p | p in s.publishers ensures s.publishers[p].cursor <= b {
        assert Passed(cfg, s, s.publishers[p].cursor);
      }
    }
  }
}
