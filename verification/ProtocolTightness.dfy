/** The bound on the queue is reached, for every batch size. */
module ProtocolTightness {
  import opened Prelude
  import opened BlockIndex
  import opened Rdb
  import opened Protocol
  import opened ProtocolSweep
  import opened ProtocolQueue
  import opened ProtocolWaiting
  import opened ProtocolRuns
  import B = Backfill

  predicate InSpan(u: nat, from: nat, n: nat) {
    from <= u < from + n
  }

  /** The n blocks from the given one on. */
  function Span(from: nat, n: nat): set<nat> {
    set u: nat | from <= u < from + n && InSpan(u, from, n)
  }

  lemma {:induction false} SpanSize(from: nat, n: nat)
    ensures |Span(from, n)| == n
  {
    if n == 0 {
      assert Span(from, n) == {};
    } else {
      SpanSize(from, n - 1);
      assert Span(from, n) == Span(from, n - 1) + {from + n - 1};
    }
  }

  lemma SpanLast(from: nat, n: nat)
    requires n > 0
    ensures IsMaximum(from + n - 1, Span(from, n))
    ensures Span(from, n) - {from + n - 1} == Span(from, n - 1) && Span(from, n - 1) + {from + n - 1} == Span(from, n)
  {
  }

  /** With nothing indexed from the cursor on, a batch is the next batchSize blocks. */
  lemma FreshBatch(cfg: Config, x: State, p: nat, latest: nat)
    requires Completes(cfg, x, p) && PubOk(cfg, x.publishers[p], x.indexed.Keys)
    requires SweepOf(x.publishers[p]).base == x.indexed.Keys
    requires SweepOf(x.publishers[p]).maxBlock == MaxBlock(latest, cfg.tipBuffer)
    requires var cursor := x.publishers[p].cursor;
             && cursor + cfg.batchSize <= MaxBlock(latest, cfg.tipBuffer)
             && forall u :: u in x.indexed ==> u < cursor
    ensures SweepOf(x.publishers[p]).added == Span(x.publishers[p].cursor, cfg.batchSize)
  {
    var cursor := x.publishers[p].cursor;
    SweepRefinesRound(cfg, x, p, latest);
    B.RoundBlocksMeaning(x.indexed.Keys, cursor, latest, cfg.tipBuffer, cfg.batchSize);
    forall u | cursor <= u ensures Rank(x.indexed.Keys, cursor, u) == u - cursor {
      FreshRank(x.indexed.Keys, cursor, u);
    }
  }

  lemma {:induction false} FreshRank(marked: set<nat>, from: nat, b: nat)
    requires from <= b && forall u :: u in marked ==> u < from
    ensures Rank(marked, from, b) == b - from
    decreases b
  {
    if b == from {
    } else {
      FreshRank(marked, from, b - 1);
    }
  }

  /** Only backfill publishers enqueue. */
  function NoOthers(): Rule {
    (s: State, ev: Event) => !ev.Other?
  }

  lemma OrderlyHasNoOthers(cfg: Config, failing: set<nat>, tip: nat, s: State, t: State)
    requires Leads(cfg, Orderly(cfg, failing, {}, tip), s, t)
    ensures Leads(cfg, NoOthers(), s, t)
  {
    LeadsWeaken(cfg, Orderly(cfg, failing, {}, tip), NoOthers(), s, t);
  }

  lemma HeaderFor(cfg: Config, tip: nat)
    requires tip < 0x1_0000_0000_0000_0000
    ensures MaxBlock(tip + cfg.tipBuffer, cfg.tipBuffer) == tip
  {
  }

  lemma FreshBatchRuns(cfg: Config, h: State, p: nat, tip: nat) returns (t: State)
    requires p in h.publishers && h.publishers[p].pc.ReadHeader?
    requires h.publishers[p].cursor + cfg.batchSize <= tip < 0x1_0000_0000_0000_0000
    requires forall u :: u in h.indexed ==> u < h.publishers[p].cursor
    ensures Leads(cfg, Orderly(cfg, {}, {}, tip), h, t)
    ensures t == WithPublisher(h, p, Publisher(h.publishers[p].cursor, Top), h.queue + Span(h.publishers[p].cursor, cfg.batchSize))
  {
    var latest := tip + cfg.tipBuffer;
    HeaderFor(cfg, tip);
    var x := BatchRuns(cfg, {}, {}, tip, h, p, latest);
    FreshBatch(cfg, x, p, latest);
    BatchLeads(cfg, {}, {}, tip, h, p, latest, x);
    t := AfterBatch(x, p);
  }

  /** A whole round over blocks none of which is indexed. */
  lemma FreshRound(cfg: Config, s: State, p: nat, from: nat, tip: nat) returns (t: State)
    requires p in s.publishers && s.publishers[p].pc.Top? && |s.queue| < cfg.batchSize
    requires CursorAfter(s.indexed.Keys, s.publishers[p].cursor, cfg.batchSize) == from
    requires from + cfg.batchSize <= tip < 0x1_0000_0000_0000_0000 && forall u :: u in s.indexed ==> u < from
    ensures Leads(cfg, NoOthers(), s, t)
    ensures t == s.(publishers := s.publishers[p := Publisher(from, Top)], saved := Some(from),
                    queue := s.queue + Span(from, cfg.batchSize))
  {
    RoundStarts(cfg, {}, {}, tip, s, p);
    var h := BeforeHeader(cfg, s, p);
    t := FreshBatchRuns(cfg, h, p, tip);
    assert t.publishers == s.publishers[p := Publisher(from, Top)];
    LeadsTransitive(cfg, Orderly(cfg, {}, {}, tip), s, h, t);
    OrderlyHasNoOthers(cfg, {}, tip, s, t);
  }

  lemma CursorStays(from: nat, size: nat)
    ensures CursorAfter({}, from, size) == from
  {
    CursorAfterMeaning({}, from, size);
  }

  lemma WindowRead(cfg: Config, h: State, p: nat, from: nat, tip: nat)
    requires p in h.publishers && h.publishers[p] == Publisher(from, ReadHeader) && h.indexed == map[]
    requires from < tip < 0x1_0000_0000_0000_0000 && cfg.batchSize > 0
    ensures Leads(cfg, NoOthers(), h, h.(publishers := h.publishers[p := OldScan(cfg, from, tip, 0)]))
  {
    var hev := Pub(p, Header(Some(tip + cfg.tipBuffer)));
    HeaderFor(cfg, tip);
    var h1 := h.(publishers := h.publishers[p := Publisher(from, ReadWindow(StartSweep(from, tip, {})))]);
    var h2 := h.(publishers := h.publishers[p := OldScan(cfg, from, tip, 0)]);
    assert h.indexed.Keys == {} && Span(from, 0) == {};
    assert Do(cfg, h, hev).publishers == h1.publishers;
    StepLeads(cfg, NoOthers(), h, hev, h1);
    assert PubAfter(cfg, h1, p, Window) == OldScan(cfg, from, tip, 0);
    assert Do(cfg, h1, Pub(p, Window)).publishers == h2.publishers;
    StepLeads(cfg, NoOthers(), h1, Pub(p, Window), h2);
    LeadsTransitive(cfg, NoOthers(), h, h1, h2);
  }

  /** Publisher p reads a window from the given block on, in which nothing is indexed. */
  lemma StaleWindow(cfg: Config, s: State, p: nat, from: nat, tip: nat) returns (t: State)
    requires p in s.publishers && s.publishers[p] == Publisher(from, Top) && |s.queue| < cfg.batchSize
    requires s.indexed == map[] && from < tip < 0x1_0000_0000_0000_0000
    ensures Leads(cfg, NoOthers(), s, t)
    ensures t == s.(publishers := s.publishers[p := OldScan(cfg, from, tip, 0)], saved := Some(from))
  {
    CursorStays(from, cfg.batchSize);
    RoundStarts(cfg, {}, {}, tip, s, p);
    var h := BeforeHeader(cfg, s, p);
    assert s.indexed.Keys == {};
    OrderlyHasNoOthers(cfg, {}, tip, s, h);
    WindowRead(cfg, h, p, from, tip);
    t := h.(publishers := h.publishers[p := OldScan(cfg, from, tip, 0)]);
    assert t.publishers == s.publishers[p := OldScan(cfg, from, tip, 0)];
    LeadsTransitive(cfg, NoOthers(), s, h, t);
  }

  /** A search that has enqueued the first n blocks of a window read when nothing was indexed. */
  function OldScan(cfg: Config, from: nat, maxBlock: nat, n: nat): Publisher {
    Publisher(from, Scan(Sweep(maxBlock, from, from + n, n, {}, Span(from, n)), BulkView(map[], from, 2 * cfg.batchSize)))
  }

  lemma StaleStep(cfg: Config, s: State, p: nat, from: nat, maxBlock: nat, n: nat)
    requires p in s.publishers && s.publishers[p] == OldScan(cfg, from, maxBlock, n)
    requires n < cfg.batchSize && from + cfg.batchSize <= maxBlock
    ensures Leads(cfg, NoOthers(), s,
                  s.(publishers := s.publishers[p := OldScan(cfg, from, maxBlock, n + 1)], queue := s.queue + {from + n}))
  {
    var s1 := s.(publishers := s.publishers[p := OldScan(cfg, from, maxBlock, n + 1)], queue := s.queue + {from + n});
    assert Span(from, n + 1) == Span(from, n) + {from + n};
    assert PubAfter(cfg, s, p, Search) == OldScan(cfg, from, maxBlock, n + 1);
    assert Do(cfg, s, Pub(p, Search)).publishers == s1.publishers;
    StepLeads(cfg, NoOthers(), s, Pub(p, Search), s1);
  }

  lemma {:induction false} StaleSearch(cfg: Config, s: State, p: nat, from: nat, maxBlock: nat, n: nat) returns (t: State)
    requires p in s.publishers && s.publishers[p] == OldScan(cfg, from, maxBlock, n)
    requires n <= cfg.batchSize && from + cfg.batchSize <= maxBlock
    ensures Leads(cfg, NoOthers(), s, t) && t.queue == s.queue + (Span(from, cfg.batchSize) - Span(from, n))
    ensures t == s.(publishers := s.publishers[p := OldScan(cfg, from, maxBlock, cfg.batchSize)], queue := t.queue)
    decreases cfg.batchSize - n
  {
    if n == cfg.batchSize {
      t := s;
      LeadsSelf(cfg, NoOthers(), s);
    } else {
      StaleStep(cfg, s, p, from, maxBlock, n);
      var s1 := s.(publishers := s.publishers[p := OldScan(cfg, from, maxBlock, n + 1)], queue := s.queue + {from + n});
      t := StaleSearch(cfg, s1, p, from, maxBlock, n + 1);
      LeadsTransitive(cfg, NoOthers(), s, s1, t);
    }
  }

  /** The search leaves its loops, for it has enqueued batchSize blocks. */
  lemma SearchLeaves(cfg: Config, s: State, p: nat, from: nat, maxBlock: nat)
    requires p in s.publishers && s.publishers[p] == OldScan(cfg, from, maxBlock, cfg.batchSize)
    ensures Leads(cfg, NoOthers(), s, s.(publishers := s.publishers[p := Publisher(from, Top)]))
  {
    var t := s.(publishers := s.publishers[p := Publisher(from, Top)]);
    var s1 := Do(cfg, s, Pub(p, Search));
    LeadsStep(cfg, NoOthers(), s, Pub(p, Search));
    assert Do(cfg, s1, Pub(p, Window)).publishers == t.publishers;
    StepLeads(cfg, NoOthers(), s1, Pub(p, Window), t);
    LeadsTransitive(cfg, NoOthers(), s, s1, t);
  }

  /** The highest block of the first round fails. */
  lemma TopFails(cfg: Config, s: State, w: nat)
    requires IdleWorker(s, w) && cfg.batchSize > 0 && s.queue == Span(cfg.startBlock, cfg.batchSize)
    ensures Leads(cfg, NoOthers(), s, s.(queue := Span(cfg.startBlock, cfg.batchSize - 1)))
  {
    var top := cfg.startBlock + cfg.batchSize - 1;
    assert s.queue - {top} == Span(cfg.startBlock, cfg.batchSize - 1);
    BlockDropped(cfg, {top}, {}, 0, s, w, top, EMPTY_PLAN);
    OrderlyHasNoOthers(cfg, {top}, 0, s, s.(queue := s.queue - {top}));
  }

  lemma FirstRound(cfg: Config, s: State, p: nat, tip: nat) returns (t: State)
    requires Init(cfg, s) && p in s.publishers && cfg.batchSize > 0
    requires cfg.startBlock + cfg.batchSize <= tip < 0x1_0000_0000_0000_0000
    ensures Leads(cfg, NoOthers(), s, t) && t.workers == s.workers && t.indexed == map[] && p in t.publishers
    ensures t.publishers[p] == Publisher(cfg.startBlock, Top) && t.queue == Span(cfg.startBlock, cfg.batchSize)
  {
    CursorStays(cfg.startBlock, cfg.batchSize);
    t := FreshRound(cfg, s, p, cfg.startBlock, tip);
  }

  lemma SecondRead(cfg: Config, s: State, p: nat, tip: nat) returns (t: State)
    requires p in s.publishers && s.publishers[p] == Publisher(cfg.startBlock, Top) && cfg.batchSize > 0
    requires s.indexed == map[] && s.queue == Span(cfg.startBlock, cfg.batchSize - 1)
    requires cfg.startBlock < tip < 0x1_0000_0000_0000_0000
    ensures Leads(cfg, NoOthers(), s, t)
    ensures t == s.(publishers := s.publishers[p := OldScan(cfg, cfg.startBlock, tip, 0)], saved := Some(cfg.startBlock))
  {
    assert |s.queue| < cfg.batchSize by {
      SpanSize(cfg.startBlock, cfg.batchSize - 1);
    }
    t := StaleWindow(cfg, s, p, cfg.startBlock, tip);
  }

  /** A round, of which the highest block fails, and a second round that has just read its window. */
  lemma FirstAct(cfg: Config, s: State, p: nat, w: nat, tip: nat) returns (t: State)
    requires Init(cfg, s) && p in s.publishers && w in s.workers && cfg.batchSize > 0
    requires cfg.startBlock + cfg.batchSize + cfg.batchSize <= tip < 0x1_0000_0000_0000_0000
    ensures Leads(cfg, NoOthers(), s, t) && IdleWorker(t, w) && t.indexed == map[] && p in t.publishers
    ensures t.publishers[p] == OldScan(cfg, cfg.startBlock, tip, 0)
    ensures t.queue == Span(cfg.startBlock, cfg.batchSize - 1)
  {
    var s1 := FirstRound(cfg, s, p, tip);
    TopFails(cfg, s1, w);
    var s2 := s1.(queue := Span(cfg.startBlock, cfg.batchSize - 1));
    t := SecondRead(cfg, s2, p, tip);
    LeadsTransitive(cfg, NoOthers(), s, s1, s2);
    LeadsTransitive(cfg, NoOthers(), s, s2, t);
  }

  /** The worker indexes what is queued, and then the search enqueues it once more, and one block beside. */
  lemma SecondAct(cfg: Config, s: State, p: nat, w: nat, maxBlock: nat) returns (t: State)
    requires IdleWorker(s, w) && s.indexed == map[] && p in s.publishers && cfg.batchSize > 0 && cfg.collectData
    requires s.publishers[p] == OldScan(cfg, cfg.startBlock, maxBlock, 0) && cfg.startBlock + cfg.batchSize <= maxBlock
    requires s.queue == Span(cfg.startBlock, cfg.batchSize - 1)
    ensures Leads(cfg, NoOthers(), s, t) && IdleWorker(t, w) && p in t.publishers
    ensures t.publishers[p] == Publisher(cfg.startBlock, Top)
    ensures t.queue == Span(cfg.startBlock, cfg.batchSize) && t.indexed.Keys == Span(cfg.startBlock, cfg.batchSize - 1)
  {
    var from := cfg.startBlock;
    var s1 := ClearFrom(cfg, {}, {}, 0, s, w, 0, EMPTY_PLAN);
    OrderlyHasNoOthers(cfg, {}, 0, s, s1);
    assert AtLeast(s.queue, 0) == s.queue && Span(from, 0) == {};
    var s2 := StaleSearch(cfg, s1, p, from, maxBlock, 0);
    SearchLeaves(cfg, s2, p, from, maxBlock);
    t := s2.(publishers := s2.publishers[p := Publisher(from, Top)]);
    LeadsTransitive(cfg, NoOthers(), s, s1, s2);
    LeadsTransitive(cfg, NoOthers(), s, s2, t);
  }

  lemma CursorAfterSpan(from: nat, size: nat)
    requires size > 0
    ensures CursorAfter(Span(from, size), from, size) == from + size
  {
    CursorAfterMeaning(Span(from, size), from, size);
    var after := CursorAfter(Span(from, size), from, size);
    assert after > from + size ==> from + size in Span(from, size);
  }

  /** One pop makes room for a round. */
  lemma OneIsPopped(cfg: Config, s: State, w: nat) returns (t: State)
    requires IdleWorker(s, w) && cfg.batchSize > 0 && cfg.collectData
    requires s.queue == Span(cfg.startBlock, cfg.batchSize) && s.indexed.Keys == Span(cfg.startBlock, cfg.batchSize - 1)
    ensures Leads(cfg, NoOthers(), s, t) && t.publishers == s.publishers
    ensures t.queue == Span(cfg.startBlock, cfg.batchSize - 1) && t.indexed.Keys == Span(cfg.startBlock, cfg.batchSize)
  {
    SpanLast(cfg.startBlock, cfg.batchSize);
    t := TakeOne(cfg, {}, {}, 0, s, w, cfg.startBlock + cfg.batchSize - 1, EMPTY_PLAN);
    OrderlyHasNoOthers(cfg, {}, 0, s, t);
  }

  /** With exactly the first batch indexed, a round begins after it. */
  lemma RoundAfterSpan(cfg: Config, s: State, p: nat, from: nat, tip: nat) returns (t: State)
    requires p in s.publishers && s.publishers[p] == Publisher(from, Top) && cfg.batchSize > 0
    requires s.queue == Span(from, cfg.batchSize - 1) && s.indexed.Keys == Span(from, cfg.batchSize)
    requires from + cfg.batchSize + cfg.batchSize <= tip < 0x1_0000_0000_0000_0000
    ensures Leads(cfg, NoOthers(), s, t) && t.queue == s.queue + Span(from + cfg.batchSize, cfg.batchSize)
  {
    assert |s.queue| < cfg.batchSize by {
      SpanSize(from, cfg.batchSize - 1);
    }
    CursorAfterSpan(from, cfg.batchSize);
    forall u | u in s.indexed ensures u < from + cfg.batchSize {
      assert u in s.indexed.Keys;
    }
    t := FreshRound(cfg, s, p, from + cfg.batchSize, tip);
  }

  /** The next batch has no block in common with the queue. */
  lemma ThirdAct(cfg: Config, s: State, p: nat, w: nat, tip: nat) returns (t: State)
    requires IdleWorker(s, w) && p in s.publishers && s.publishers[p] == Publisher(cfg.startBlock, Top)
    requires cfg.batchSize > 0 && cfg.collectData
    requires cfg.startBlock + cfg.batchSize + cfg.batchSize <= tip < 0x1_0000_0000_0000_0000
    requires s.queue == Span(cfg.startBlock, cfg.batchSize) && s.indexed.Keys == Span(cfg.startBlock, cfg.batchSize - 1)
    ensures Leads(cfg, NoOthers(), s, t)
    ensures t.queue == Span(cfg.startBlock, cfg.batchSize - 1) + Span(cfg.startBlock + cfg.batchSize, cfg.batchSize)
  {
    var s1 := OneIsPopped(cfg, s, w);
    t := RoundAfterSpan(cfg, s1, p, cfg.startBlock, tip);
    LeadsTransitive(cfg, NoOthers(), s, s1, t);
  }

  lemma ThreeActs(cfg: Config, s: State, p: nat, w: nat, tip: nat) returns (t: State)
    requires Init(cfg, s) && p in s.publishers && w in s.workers && cfg.batchSize > 0 && cfg.collectData
    requires cfg.startBlock + cfg.batchSize + cfg.batchSize <= tip < 0x1_0000_0000_0000_0000
    ensures Leads(cfg, NoOthers(), s, t)
    ensures t.queue == Span(cfg.startBlock, cfg.batchSize - 1) + Span(cfg.startBlock + cfg.batchSize, cfg.batchSize)
  {
    var s1 := FirstAct(cfg, s, p, w, tip);
    var s2 := SecondAct(cfg, s1, p, w, tip);
    t := ThirdAct(cfg, s2, p, w, tip);
    LeadsTransitive(cfg, NoOthers(), s, s1, s2);
    LeadsTransitive(cfg, NoOthers(), s, s2, t);
  }

  lemma FullQueue(from: nat, size: nat)
    requires size > 0
    ensures |Span(from, size - 1) + Span(from + size, size)| == size - 1 + size
  {
    SpanSize(from, size - 1);
    SpanSize(from + size, size);
    assert Span(from, size - 1) !! Span(from + size, size);
  }

  /**
   The bound on the queue is reached, for every batch size, with one publisher and one
   worker: an old view lets the publisher enqueue blocks that have been indexed meanwhile,
   and the next batch comes on top of them.
   */
  lemma QueueBoundReached(cfg: Config, s: State, p: nat, w: nat, tip: nat) returns (t: State)
    requires Init(cfg, s) && p in s.publishers && w in s.workers && cfg.batchSize > 0 && cfg.collectData
    requires cfg.startBlock + cfg.batchSize + cfg.batchSize <= tip < 0x1_0000_0000_0000_0000
    ensures Leads(cfg, NoOthers(), s, t) && |t.queue| == QueueBound(cfg.batchSize)
  {
    FullQueue(cfg.startBlock, cfg.batchSize);
    t := ThreeActs(cfg, s, p, w, tip);
  }
}
