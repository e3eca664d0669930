/** Backpressure: the queue stays bounded while the backfill publisher is the only producer. */
module ProtocolQueue {
  import opened Prelude
  import opened Protocol

  /** At most batchSize - 1 blocks when a round begins, and batchSize more by its end. */
  function QueueBound(batchSize: nat): nat {
    if batchSize == 0 then 0 else 2 * batchSize - 1
  }

  predicate IsTip(ev: Event) {
    ev.Other? && ev.other.TipEnqueue?
  }

  ghost predicate PcBound(cfg: Config, pc: PublisherPc, length: nat) {
    match pc
    case Top => length <= QueueBound(cfg.batchSize)
    case ReadWindow(sw) => sw.queued <= cfg.batchSize && length < cfg.batchSize + sw.queued
    case Scan(sw, view) => sw.queued <= cfg.batchSize && length < cfg.batchSize + sw.queued
    case _ => length < cfg.batchSize
  }

  ghost predicate QueueInv(cfg: Config, s: State, p: nat) {
    && s.publishers.Keys == {p} && s.manuals == map[]
    && PcBound(cfg, s.publishers[p].pc, |s.queue|)
  }

  lemma AddOne(queue: set<nat>, more: set<nat>, b: nat)
    requires more <= {b}
    ensures |queue + more| <= |queue| + 1
  {
    assert queue + more == queue || queue + more == queue + {b};
  }

  lemma PublisherStep(cfg: Config, s: State, p: nat, ev: PubEvent)
    requires PubCan(s, p, ev) && PcBound(cfg, s.publishers[p].pc, |s.queue|)
    ensures PcBound(cfg, PubAfter(cfg, s, p, ev).pc, |PubDo(cfg, s, p, ev).queue|)
  {
    if ev.Search? {
      AddOne(s.queue, ScanEnqueues(cfg, s.publishers[p]), s.publishers[p].pc.sweep.block);
    }
  }

  lemma WorkerStep(cfg: Config, s: State, w: nat, ev: WorkEvent)
    requires WorkerCan(cfg, s, w, ev)
    ensures |WorkerDo(cfg, s, w, ev).queue| <= |s.queue|
  {
    SubsetCardinality(WorkerDo(cfg, s, w, ev).queue, s.queue);
  }

  lemma QueueStep(cfg: Config, s: State, ev: Event, p: nat)
    requires QueueInv(cfg, s, p) && Can(cfg, s, ev) && !IsTip(ev)
    ensures QueueInv(cfg, Do(cfg, s, ev), p)
  {
    match ev {
      case Pub(q, e) => assert q == p; PublisherStep(cfg, s, p, e);
      case Work(w, e) => WorkerStep(cfg, s, w, e);
      case Other(e) =>
    }
  }

  lemma {:induction false} QueueTrace(cfg: Config, states: seq<State>, events: seq<Event>, p: nat)
    requires IsTrace(cfg, states, events) && QueueInv(cfg, states[0], p)
    requires forall i :: 0 <= i < |events| ==> !IsTip(events[i])
    ensures QueueInv(cfg, states[|events|], p)
    decreases |events|
  {
    if events == [] {
    } else {
      QueueStep(cfg, states[0], events[0], p);
      QueueTrace(cfg, states[1..], events[1..], p);
    }
  }

  /**
   With one backfill publisher as the only producer, and any number of workers, crashes
   and restarts, the queue never holds more than 2 * batchSize - 1 blocks, in the middle
   of a batch included (and none at all when batchSize is 0).
   */
  lemma {:induction false} QueueBounded(cfg: Config, states: seq<State>, events: seq<Event>, p: nat)
    requires IsRun(cfg, states, events)
    requires states[0].publishers.Keys == {p} && states[0].manuals == map[]
    requires forall i :: 0 <= i < |events| ==> !IsTip(events[i])
    ensures |states[|events|].queue| <= QueueBound(cfg.batchSize)
  {
    QueueTrace(cfg, states, events, p);
  }
}
