/**
 The whole service as one transition system: Redis, any number of backfill publishers,
 workers (each with its attempts and their goroutines), chain-tip and manual publishers.

 One event is one Redis command, or one step of a goroutine; everything interleaves.
 A process may stop and start again between any two of its events, which covers failed
 commands, lost replies and crashes alike.

 Blocks are natural numbers. Fields named as history (`marks`, `output`, `unmarked`,
 `epoch`, and the records inside the program counters) exist only to state properties:
 no event depends on them.
 */
module Protocol {
  import opened Prelude
  import opened Decimal
  import opened BlockIndex
  import opened Rdb
  import P = Pipeline

  datatype Config = Config(
    startBlock: nat,
    batchSize: nat,
    tipBuffer: nat,
    maxAttempts: nat,
    collectData: bool
  )

  /** The local variables of `queueBatch`, with the index when it began and what it enqueued. */
  datatype Sweep = Sweep(
    maxBlock: nat,
    searchStart: nat,
    block: nat,
    queued: nat,
    base: set<nat>,   // history: the index when the batch began
    added: set<nat>   // history: the blocks enqueued by this batch
  )

  datatype PublisherPc =
    | Top                                         // before ZCARD
    | ReadIndex                                   // before the script call of updateCursor
    | SaveCursor                                  // before SET
    | ReadHeader                                  // before HeaderByNumber
    | ReadWindow(sweep: Sweep)                    // at the outer loop of queueBatch
    | Scan(sweep: Sweep, view: map<nat, bool>)    // at the inner loop, with the window read

  datatype Publisher = Publisher(cursor: nat, pc: PublisherPc)

  datatype WorkerPc =
    | Idle
    | Popped(block: nat)
    | Running(block: nat, attempt: nat, epoch: nat, run: P.Attempt)
    | Marking(block: nat, epoch: nat, run: P.Attempt)

  datatype Worker = Worker(pc: WorkerPc, cancelled: bool)

  datatype ManualPc =
    | Starting
    // history: the number of marks, the epoch and the blocks being processed at the HDEL
    | Enqueueing(next: nat, since: nat, epoch: nat, inFlight: set<nat>)

  datatype Manual = Manual(blocks: seq<string>, force: bool, pc: ManualPc)

  /** One effective HSET: the block, the epoch of the lookup before it, the rows of the attempt. */
  datatype Mark = Mark(block: nat, epoch: nat, rows: seq<P.OutRow>)

  datatype State = State(
    queue: set<nat>,
    indexed: map<nat, bool>,
    saved: Option<nat>,
    publishers: map<nat, Publisher>,
    workers: map<nat, Worker>,
    manuals: map<nat, Manual>,
    marks: seq<Mark>,               // history
    output: multiset<P.OutRow>,     // history: every row the output accepted
    unmarked: set<nat>,             // history: blocks removed by an HDEL
    epoch: nat                      // history: the number of HDELs
  )

  datatype PubEvent =
    | Length
    | UpdateCursor
    | Save
    | Header(latest: Option<nat>)
    | Window
    | Search
    | Restart

  datatype WorkEvent =
    | Pop(block: nat)
    | Lookup(plan: P.Attempt)
    | Run(act: P.Action)
    | End(plan: P.Attempt)
    | SetIndexed(effective: bool)
    | Cancel
    | Reboot

  datatype OtherEvent =
    | TipEnqueue(block: nat)
    | ManualBegin(m: nat)
    | ManualEnqueue(m: nat)
    | ManualRestart(m: nat, blocks: seq<string>, force: bool)

  datatype Event =
    | Pub(p: nat, pub: PubEvent)
    | Work(w: nat, work: WorkEvent)
    | Other(other: OtherEvent)

  // ----- Publishers

  function SearchEnd(cfg: Config, sw: Sweep): nat {
    Min(sw.searchStart + 2 * cfg.batchSize, sw.maxBlock)
  }

  predicate PubCan(s: State, p: nat, ev: PubEvent) {
    p in s.publishers &&
    var pc := s.publishers[p].pc;
    match ev
    case Length => pc.Top?
    case UpdateCursor => pc.ReadIndex?
    case Save => pc.SaveCursor?
    case Header(latest) => pc.ReadHeader?
    case Window => pc.ReadWindow?
    case Search => pc.Scan?
    case Restart => true
  }

  function StartSweep(cursor: nat, maxBlock: nat, marked: set<nat>): Sweep {
    Sweep(maxBlock, cursor, cursor, 0, marked, {})
  }

  /** The publisher after its own event. */
  function PubAfter(cfg: Config, s: State, p: nat, ev: PubEvent): Publisher
    requires PubCan(s, p, ev)
  {
    var pub := s.publishers[p];
    match ev
    case Length =>
      if |s.queue| < cfg.batchSize then pub.(pc := ReadIndex) else pub
    case UpdateCursor =>
      Publisher(CursorAfter(s.indexed.Keys, pub.cursor, cfg.batchSize), SaveCursor)
    case Save =>
      pub.(pc := ReadHeader)
    case Header(latest) =>
      if latest.None? then pub.(pc := Top)
      else pub.(pc := ReadWindow(StartSweep(pub.cursor, MaxBlock(latest.value, cfg.tipBuffer), s.indexed.Keys)))
    case Window =>
      var sw := pub.pc.sweep;
      if sw.searchStart < sw.maxBlock && sw.queued < cfg.batchSize then
        pub.(pc := Scan(sw.(block := sw.searchStart), BulkView(s.indexed, sw.searchStart, 2 * cfg.batchSize)))
      else pub.(pc := Top)
    case Search =>
      var sw, view := pub.pc.sweep, pub.pc.view;
      if sw.block < SearchEnd(cfg, sw) && sw.queued < cfg.batchSize then
        if sw.block in view && view[sw.block] then pub.(pc := Scan(sw.(block := sw.block + 1), view))
        else pub.(pc := Scan(sw.(block := sw.block + 1, queued := sw.queued + 1, added := sw.added + {sw.block}), view))
      else pub.(pc := ReadWindow(sw.(searchStart := sw.searchStart + 2 * cfg.batchSize)))
    case Restart =>
      Publisher(if s.saved.Some? then s.saved.value else cfg.startBlock, Top)
  }

  /** The block that the inner loop is about to enqueue, if any. */
  function ScanEnqueues(cfg: Config, pub: Publisher): set<nat> {
    if pub.pc.Scan? && pub.pc.sweep.block < SearchEnd(cfg, pub.pc.sweep) && pub.pc.sweep.queued < cfg.batchSize
       && !(pub.pc.sweep.block in pub.pc.view && pub.pc.view[pub.pc.sweep.block])
    then {pub.pc.sweep.block} else {}
  }

  function PubDo(cfg: Config, s: State, p: nat, ev: PubEvent): State
    requires PubCan(s, p, ev)
  {
    var pub := s.publishers[p];
    s.(publishers := s.publishers[p := PubAfter(cfg, s, p, ev)],
       saved := if ev.Save? then Some(pub.cursor) else s.saved,
       queue := if ev.Search? then s.queue + ScanEnqueues(cfg, pub) else s.queue)
  }

  // ----- Workers

  predicate IsPlan(plan: P.Attempt, cancelled: bool) {
    P.Initial(plan) && plan.cancelled == cancelled
  }

  predicate WorkerCan(cfg: Config, s: State, w: nat, ev: WorkEvent) {
    w in s.workers &&
    var worker := s.workers[w];
    match ev
    case Pop(b) => worker.pc.Idle? && !worker.cancelled && IsMaximum(b, s.queue)
    case Lookup(plan) => worker.pc.Popped? && !worker.cancelled && IsPlan(plan, false)
    case Run(act) => worker.pc.Running? && !act.Cancel? && P.Enabled(worker.pc.run, act)
    case End(plan) => worker.pc.Running? && P.Ended(worker.pc.run) && IsPlan(plan, worker.cancelled)
    case SetIndexed(effective) => worker.pc.Marking? && (effective ==> cfg.collectData && !worker.cancelled)
    case Cancel => !worker.cancelled
    case Reboot => true
  }

  function CancelPc(pc: WorkerPc): WorkerPc {
    match pc
    case Running(b, n, e, run) => Running(b, n, e, run.(cancelled := true))
    case Marking(b, e, run) => Marking(b, e, run.(cancelled := true))
    case _ => pc
  }

  /** The worker after its own event. */
  function WorkerAfter(cfg: Config, s: State, w: nat, ev: WorkEvent): Worker
    requires WorkerCan(cfg, s, w, ev)
  {
    var worker := s.workers[w];
    var pc := worker.pc;
    match ev
    case Pop(b) => worker.(pc := Popped(b))
    case Lookup(plan) =>
      if PointLookup(s.indexed, pc.block) then worker.(pc := Idle)
      else worker.(pc := Running(pc.block, 1, s.epoch, plan))
    case Run(act) =>
      worker.(pc := Running(pc.block, pc.attempt, pc.epoch, P.Apply(pc.run, act)))
    case End(plan) =>
      if !pc.run.failed then worker.(pc := Marking(pc.block, pc.epoch, pc.run))
      else if pc.attempt < cfg.maxAttempts then worker.(pc := Running(pc.block, pc.attempt + 1, pc.epoch, plan))
      else worker.(pc := Idle)
    case SetIndexed(effective) => worker.(pc := Idle)
    case Cancel => Worker(CancelPc(pc), true)
    case Reboot => Worker(Idle, false)
  }

  function WorkerDo(cfg: Config, s: State, w: nat, ev: WorkEvent): State
    requires WorkerCan(cfg, s, w, ev)
  {
    var pc := s.workers[w].pc;
    var after := WorkerAfter(cfg, s, w, ev);
    var marked := ev == SetIndexed(true);
    s.(workers := s.workers[w := after],
       queue := if ev.Pop? then s.queue - {ev.block} else s.queue,
       output := if ev.Run? && ev.act.Write? then s.output + multiset(after.pc.run.written) else s.output,
       indexed := if marked then s.indexed[pc.block := true] else s.indexed,
       marks := if marked then s.marks + [Mark(pc.block, pc.epoch, pc.run.sent)] else s.marks)
  }

  // ----- The other publishers

  predicate OtherCan(s: State, ev: OtherEvent) {
    match ev
    case TipEnqueue(b) => true
    case ManualBegin(m) => m in s.manuals && s.manuals[m].pc.Starting?
    case ManualEnqueue(m) =>
      && m in s.manuals && s.manuals[m].pc.Enqueueing? && s.manuals[m].pc.next < |s.manuals[m].blocks|
      && ParseUint(s.manuals[m].blocks[s.manuals[m].pc.next]).Success?
    case ManualRestart(m, blocks, force) => m in s.manuals
  }

  function InFlight(s: State): set<nat> {
    set w | w in s.workers && (s.workers[w].pc.Running? || s.workers[w].pc.Marking?) :: s.workers[w].pc.block
  }

  function OtherDo(s: State, ev: OtherEvent): State
    requires OtherCan(s, ev)
  {
    match ev
    case TipEnqueue(b) => s.(queue := s.queue + {b})
    case ManualBegin(m) =>
      var man := s.manuals[m];
      if man.force then
        s.(indexed := Unmarked(s.indexed, man.blocks),
           unmarked := s.unmarked + (s.indexed.Keys - Unmarked(s.indexed, man.blocks).Keys),
           epoch := s.epoch + 1,
           manuals := s.manuals[m := man.(pc := Enqueueing(0, |s.marks|, s.epoch + 1, InFlight(s)))])
      else s.(manuals := s.manuals[m := man.(pc := Enqueueing(0, |s.marks|, s.epoch, {}))])
    case ManualEnqueue(m) =>
      var man := s.manuals[m];
      s.(queue := s.queue + {ParseUint(man.blocks[man.pc.next]).value},
         manuals := s.manuals[m := man.(pc := man.pc.(next := man.pc.next + 1))])
    case ManualRestart(m, blocks, force) =>
      s.(manuals := s.manuals[m := Manual(blocks, force, Starting)])
  }

  // ----- The system

  predicate Can(cfg: Config, s: State, ev: Event) {
    match ev
    case Pub(p, e) => PubCan(s, p, e)
    case Work(w, e) => WorkerCan(cfg, s, w, e)
    case Other(e) => OtherCan(s, e)
  }

  function Do(cfg: Config, s: State, ev: Event): State
    requires Can(cfg, s, ev)
  {
    match ev
    case Pub(p, e) => PubDo(cfg, s, p, e)
    case Work(w, e) => WorkerDo(cfg, s, w, e)
    case Other(e) => OtherDo(s, e)
  }

  predicate Init(cfg: Config, s: State) {
    && s.queue == {} && s.indexed == map[] && s.saved == None
    && (forall p :: p in s.publishers ==> s.publishers[p] == Publisher(cfg.startBlock, Top))
    && (forall w :: w in s.workers ==> s.workers[w] == Worker(Idle, false))
    && (forall m :: m in s.manuals ==> s.manuals[m].pc.Starting?)
    && s.marks == [] && s.output == multiset{} && s.unmarked == {} && s.epoch == 0
  }

  predicate IsTrace(cfg: Config, states: seq<State>, events: seq<Event>) {
    && |states| == |events| + 1
    && forall i {:trigger events[i]} :: 0 <= i < |events| ==> Can(cfg, states[i], events[i]) && states[i + 1] == Do(cfg, states[i], events[i])
  }

  /** A trace from a fresh Redis. */
  predicate IsRun(cfg: Config, states: seq<State>, events: seq<Event>) {
    IsTrace(cfg, states, events) && Init(cfg, states[0])
  }

  /** The blocks that have ever been marked. */
  function EverMarked(marks: seq<Mark>): set<nat> {
    set i | 0 <= i < |marks| :: marks[i].block
  }

  lemma EverMarkedSnoc(marks: seq<Mark>, m: Mark)
    ensures EverMarked(marks + [m]) == EverMarked(marks) + {m.block}
  {
    var more := marks + [m];
    forall b ensures b in EverMarked(more) <==> b in EverMarked(marks) + {m.block} {
      if b in EverMarked(marks) {
        var i :| 0 <= i < |marks| && marks[i].block == b;
        assert more[i].block == b;
      } else if b == m.block {
        assert more[|marks|].block == b;
      }
    }
  }
}
