/**
 How long a queued block can be passed over. Workers always take the highest block, and a
 publisher does not wait for them, so a queued block waits while higher ones come. If none
 of those can fail, there is an end to it: each can be popped only so often, once by each
 worker before it is marked, and after that once for each search that still has an old view.
 */
module ProtocolWaiting {
  import opened Prelude
  import opened Decimal
  import opened BlockIndex
  import opened Protocol
  import opened ProtocolSweep
  import opened ProtocolLiveness

  function AtLeast(queue: set<nat>, low: nat): set<nat> {
    set x | x in queue && x >= low
  }

  predicate WithinTip(cfg: Config, ev: Event, tip: nat) {
    ev.Pub? && ev.pub.Header? && ev.pub.latest.Some? ==> MaxBlock(ev.pub.latest.value, cfg.tipBuffer) <= tip
  }

  /** No search in progress goes beyond the tip. */
  predicate SearchesWithin(s: State, tip: nat) {
    forall p :: p in s.publishers && Sweeping(s.publishers[p]) ==> SweepOf(s.publishers[p]).maxBlock <= tip
  }

  /** The workers that do not hold block c. */
  function NonHolders(s: State, c: nat): set<nat> {
    set w | w in s.workers && !Holds(s, w, c)
  }

  /** The publisher is still going to enqueue block c from the window it has read. */
  predicate HasOldView(cfg: Config, pub: Publisher, c: nat) {
    && pub.pc.Scan? && pub.pc.sweep.block <= c < SearchEnd(cfg, pub.pc.sweep)
    && !(c in pub.pc.view && pub.pc.view[c])
  }

  function OldViews(cfg: Config, s: State, c: nat): set<nat> {
    set p | p in s.publishers && HasOldView(cfg, s.publishers[p], c)
  }

  /** How often block c can still be popped if it can succeed and only backfill publishers enqueue it. */
  function Tickets(cfg: Config, s: State, c: nat): nat {
    if c in s.indexed then |OldViews(cfg, s, c)| + if c in s.queue then 1 else 0
    else |NonHolders(s, c)| + |s.publishers| + 1
  }

  /** The block that the event pops. */
  function PoppedBlock(ev: Event): Option<nat> {
    if ev.Work? && ev.work.Pop? then Some(ev.work.block) else None
  }

  /** The block that the event enqueues, if it is one of a chain-tip or manual publisher. */
  function OtherBlock(s: State, ev: Event): Option<nat>
    requires ev.Other? ==> OtherCan(s, ev.other)
  {
    if ev.Other? && ev.other.TipEnqueue? then Some(ev.other.block)
    else if ev.Other? && ev.other.ManualEnqueue? then
      Some(ParseUint(s.manuals[ev.other.m].blocks[s.manuals[ev.other.m].pc.next]).value)
    else None
  }

  /** Counts a block if it is one of [lo, hi). */
  function One(block: Option<nat>, lo: nat, hi: nat): nat {
    if block.Some? && lo <= block.value < hi then 1 else 0
  }

  // ----- One step, for one block

  lemma PublisherTickets(cfg: Config, s: State, p: nat, ev: PubEvent, c: nat)
    requires PubCan(s, p, ev) && c in s.indexed
    ensures Tickets(cfg, PubDo(cfg, s, p, ev), c) <= Tickets(cfg, s, c)
  {
    var s' := PubDo(cfg, s, p, ev);
    var before, after := OldViews(cfg, s, c), OldViews(cfg, s', c);
    assert HasOldView(cfg, s'.publishers[p], c) ==> HasOldView(cfg, s.publishers[p], c);
    assert after <= before;
    SubsetCardinality(after, before);
    if c in s'.queue && c !in s.queue {
      assert p in before && p !in after;
      SubsetCardinality(after, before - {p});
    }
  }

  lemma UnindexedTickets(cfg: Config, s: State, w: nat, ev: WorkEvent, failing: set<nat>, c: nat)
    requires WorkerCan(cfg, s, w, ev) && CalmWork(cfg, s.workers[w].pc, ev, failing) && c !in failing
    requires c !in s.indexed && c !in WorkerDo(cfg, s, w, ev).indexed
    ensures |NonHolders(WorkerDo(cfg, s, w, ev), c)| + (if ev == Pop(c) then 1 else 0) <= |NonHolders(s, c)|
  {
    var s' := WorkerDo(cfg, s, w, ev);
    var before, after := NonHolders(s, c), NonHolders(s', c);
    if Holds(s, w, c) {
      HolderMoves(cfg, s, w, ev, failing, c);
    }
    assert after <= before;
    SubsetCardinality(after, before);
    if ev == Pop(c) {
      assert w in before && w !in after;
      SubsetCardinality(after, before - {w});
    }
  }

  lemma WorkerTickets(cfg: Config, s: State, w: nat, ev: WorkEvent, failing: set<nat>, c: nat)
    requires WorkerCan(cfg, s, w, ev) && CalmWork(cfg, s.workers[w].pc, ev, failing) && c !in failing
    ensures Tickets(cfg, WorkerDo(cfg, s, w, ev), c) + (if ev == Pop(c) then 1 else 0) <= Tickets(cfg, s, c)
  {
    var s' := WorkerDo(cfg, s, w, ev);
    assert s'.publishers == s.publishers;
    assert OldViews(cfg, s', c) == OldViews(cfg, s, c);
    if c !in s.indexed {
      if c in s'.indexed {
        SubsetCardinality(OldViews(cfg, s, c), s.publishers.Keys);
      } else {
        UnindexedTickets(cfg, s, w, ev, failing, c);
      }
    }
  }

  lemma OtherTickets(cfg: Config, s: State, ev: OtherEvent, c: nat)
    requires OtherCan(s, ev) && Unforced(s, Other(ev))
    ensures Tickets(cfg, OtherDo(s, ev), c) <= Tickets(cfg, s, c) + One(OtherBlock(s, Other(ev)), c, c + 1)
  {
    var s' := OtherDo(s, ev);
    assert s'.publishers == s.publishers && s'.workers == s.workers && s'.indexed == s.indexed;
    assert OldViews(cfg, s', c) == OldViews(cfg, s, c) && NonHolders(s', c) == NonHolders(s, c);
  }

  lemma TicketStep(cfg: Config, s: State, ev: Event, failing: set<nat>, c: nat)
    requires Can(cfg, s, ev) && Calm(cfg, s, ev, failing) && c !in failing
    ensures Tickets(cfg, Do(cfg, s, ev), c) + One(PoppedBlock(ev), c, c + 1)
         <= Tickets(cfg, s, c) + One(OtherBlock(s, ev), c, c + 1)
  {
    match ev {
      case Pub(p, e) =>
        if c in s.indexed {
          PublisherTickets(cfg, s, p, e, c);
        } else {
          assert NonHolders(Do(cfg, s, ev), c) == NonHolders(s, c);
          assert Do(cfg, s, ev).publishers.Keys == s.publishers.Keys;
        }
      case Work(w, e) => WorkerTickets(cfg, s, w, e, failing, c);
      case Other(e) => OtherTickets(cfg, s, e, c);
    }
  }

  // ----- One step, for all blocks above one

  function TicketsBetween(cfg: Config, s: State, lo: nat, hi: nat): nat {
    if hi <= lo then 0 else TicketsBetween(cfg, s, lo, hi - 1) + Tickets(cfg, s, hi - 1)
  }

  /** No failing block in [lo, hi). */
  predicate NoneFails(failing: set<nat>, lo: nat, hi: nat) {
    forall f :: f in failing ==> f < lo || hi <= f
  }

  lemma {:induction false} SumOfTickets(
      cfg: Config, s: State, s': State, popped: Option<nat>, added: Option<nat>, lo: nat, hi: nat)
    requires forall c :: lo <= c < hi ==>
               Tickets(cfg, s', c) + One(popped, c, c + 1) <= Tickets(cfg, s, c) + One(added, c, c + 1)
    ensures TicketsBetween(cfg, s', lo, hi) + One(popped, lo, hi) <= TicketsBetween(cfg, s, lo, hi) + One(added, lo, hi)
    decreases hi
  {
    if hi <= lo {
    } else {
      SumOfTickets(cfg, s, s', popped, added, lo, hi - 1);
    }
  }

  lemma BetweenStep(cfg: Config, s: State, ev: Event, failing: set<nat>, lo: nat, hi: nat)
    requires Can(cfg, s, ev) && Calm(cfg, s, ev, failing) && NoneFails(failing, lo, hi)
    ensures TicketsBetween(cfg, Do(cfg, s, ev), lo, hi) + One(PoppedBlock(ev), lo, hi)
         <= TicketsBetween(cfg, s, lo, hi) + One(OtherBlock(s, ev), lo, hi)
  {
    forall c | lo <= c < hi
      ensures Tickets(cfg, Do(cfg, s, ev), c) + One(PoppedBlock(ev), c, c + 1)
           <= Tickets(cfg, s, c) + One(OtherBlock(s, ev), c, c + 1)
    {
      TicketStep(cfg, s, ev, failing, c);
    }
    SumOfTickets(cfg, s, Do(cfg, s, ev), PoppedBlock(ev), OtherBlock(s, ev), lo, hi);
  }

  /** What an event does to the queue: publishers add below the tip, others what they say, and pops remove. */
  lemma QueueStep(cfg: Config, s: State, ev: Event, tip: nat)
    requires Can(cfg, s, ev) && SearchesWithin(s, tip)
    ensures forall c :: c in Do(cfg, s, ev).queue && c !in s.queue && c >= tip ==> OtherBlock(s, ev) == Some(c)
    ensures forall c :: c in s.queue && c !in Do(cfg, s, ev).queue ==> PoppedBlock(ev) == Some(c)
    ensures PoppedBlock(ev).Some? ==> PoppedBlock(ev).value in s.queue && PoppedBlock(ev).value !in Do(cfg, s, ev).queue
    ensures PoppedBlock(ev).None? || OtherBlock(s, ev).None?
  {
    match ev {
      case Pub(p, e) =>
      case Work(w, e) =>
      case Other(e) =>
    }
  }

  lemma QueueCount(queue: set<nat>, queue': set<nat>, popped: Option<nat>, added: Option<nat>, tip: nat, top: nat)
    requires popped.None? || added.None?
    requires forall c :: c in queue' && c !in queue && c >= tip ==> added == Some(c)
    requires forall c :: c in queue && c !in queue' ==> popped == Some(c)
    requires popped.Some? ==> popped.value in queue && popped.value !in queue' && popped.value < top
    requires added.Some? ==> added.value < top
    ensures |AtLeast(queue', tip)| + One(popped, tip, top) <= |AtLeast(queue, tip)| + One(added, tip, top)
  {
    var before, after := AtLeast(queue, tip), AtLeast(queue', tip);
    if popped.Some? && popped.value >= tip {
      assert after <= before - {popped.value};
      SubsetCardinality(after, before - {popped.value});
    } else if added.Some? && added.value >= tip {
      assert after <= before + {added.value};
      SubsetCardinality(after, before + {added.value});
    } else {
      assert after <= before;
      SubsetCardinality(after, before);
    }
  }

  lemma BeyondStep(cfg: Config, s: State, ev: Event, tip: nat, top: nat)
    requires Can(cfg, s, ev) && SearchesWithin(s, tip)
    requires PoppedBlock(ev).Some? ==> PoppedBlock(ev).value < top
    requires OtherBlock(s, ev).Some? ==> OtherBlock(s, ev).value < top
    ensures |AtLeast(Do(cfg, s, ev).queue, tip)| + One(PoppedBlock(ev), tip, top)
         <= |AtLeast(s.queue, tip)| + One(OtherBlock(s, ev), tip, top)
  {
    QueueStep(cfg, s, ev, tip);
    QueueCount(s.queue, Do(cfg, s, ev).queue, PoppedBlock(ev), OtherBlock(s, ev), tip, top);
  }

  lemma OwnSearchStaysWithin(cfg: Config, s: State, p: nat, ev: PubEvent, tip: nat)
    requires PubCan(s, p, ev) && WithinTip(cfg, Pub(p, ev), tip)
    requires Sweeping(s.publishers[p]) ==> SweepOf(s.publishers[p]).maxBlock <= tip
    ensures Sweeping(PubAfter(cfg, s, p, ev)) ==> SweepOf(PubAfter(cfg, s, p, ev)).maxBlock <= tip
  {
  }

  lemma SearchesStayWithin(cfg: Config, s: State, ev: Event, tip: nat)
    requires Can(cfg, s, ev) && SearchesWithin(s, tip) && WithinTip(cfg, ev, tip)
    ensures SearchesWithin(Do(cfg, s, ev), tip)
  {
    match ev {
      case Pub(p, e) => OwnSearchStaysWithin(cfg, s, p, e, tip);
      case Work(w, e) => assert Do(cfg, s, ev).publishers == s.publishers;
      case Other(e) => assert Do(cfg, s, ev).publishers == s.publishers;
    }
  }

  /** How often blocks above b can still be popped while only backfill publishers enqueue, up to the tip. */
  function TicketsAbove(cfg: Config, s: State, b: nat, tip: nat): nat {
    TicketsBetween(cfg, s, b + 1, tip) + |AtLeast(s.queue, tip)|
  }

  lemma AboveStep(cfg: Config, s: State, ev: Event, failing: set<nat>, b: nat, tip: nat, top: nat)
    requires Can(cfg, s, ev) && Calm(cfg, s, ev, failing) && NoneFails(failing, b + 1, tip) && SearchesWithin(s, tip)
    requires b < tip <= top
    requires PoppedBlock(ev).Some? ==> PoppedBlock(ev).value < top
    requires OtherBlock(s, ev).Some? ==> OtherBlock(s, ev).value < top
    ensures TicketsAbove(cfg, Do(cfg, s, ev), b, tip) + One(PoppedBlock(ev), b + 1, top)
         <= TicketsAbove(cfg, s, b, tip) + One(OtherBlock(s, ev), b + 1, top)
  {
    BetweenStep(cfg, s, ev, failing, b + 1, tip);
    BeyondStep(cfg, s, ev, tip, top);
  }

  // ----- Whole traces

  predicate IsPop(ev: Event) {
    ev.Work? && ev.work.Pop?
  }

  /** How many of the events from position i up to j are pops. */
  function PopCount(events: seq<Event>, i: nat, j: nat): nat
    requires j <= |events|
  {
    if j <= i then 0 else PopCount(events, i, j - 1) + if IsPop(events[j - 1]) then 1 else 0
  }

  /** A chain-tip or manual publisher enqueues a block above b. */
  predicate OtherAbove(s: State, ev: Event, b: nat) {
    ev.Other? && OtherCan(s, ev.other) && OtherBlock(s, ev).Some? && OtherBlock(s, ev).value > b
  }

  function OtherCount(states: seq<State>, events: seq<Event>, b: nat, i: nat, j: nat): nat
    requires j <= |events| < |states|
  {
    if j <= i then 0 else OtherCount(states, events, b, i, j - 1) + if OtherAbove(states[j - 1], events[j - 1], b) then 1 else 0
  }

  /** Calm weather, and a tip that does not rise beyond the given one. */
  predicate SettledDuring(cfg: Config, states: seq<State>, events: seq<Event>, failing: set<nat>, tip: nat, i: nat, j: nat)
    requires j <= |events| < |states|
  {
    forall k {:trigger events[k]} :: i <= k < j ==> Calm(cfg, states[k], events[k], failing) && WithinTip(cfg, events[k], tip)
  }

  /** While b stays queued, only blocks above it are popped. */
  lemma WaitingStep(cfg: Config, s: State, ev: Event, failing: set<nat>, b: nat, tip: nat)
    requires Can(cfg, s, ev) && Calm(cfg, s, ev, failing) && NoneFails(failing, b + 1, tip) && SearchesWithin(s, tip)
    requires b < tip && b in s.queue && b in Do(cfg, s, ev).queue
    ensures TicketsAbove(cfg, Do(cfg, s, ev), b, tip) + (if IsPop(ev) then 1 else 0)
         <= TicketsAbove(cfg, s, b, tip) + if OtherAbove(s, ev, b) then 1 else 0
  {
    var popped := if PoppedBlock(ev).Some? then PoppedBlock(ev).value + 1 else 0;
    var added := if OtherBlock(s, ev).Some? then OtherBlock(s, ev).value + 1 else 0;
    AboveStep(cfg, s, ev, failing, b, tip, Max(tip, Max(popped, added)));
  }

  /**
   As long as a block stays queued, the number of pops is bounded by the number of tickets
   at first and of the higher blocks that chain-tip and manual publishers enqueue, provided
   that no block between it and the tip fails. The backfill publishers may begin as many
   batches as they like.
   */
  lemma {:induction false} PopsAreBounded(
      cfg: Config, states: seq<State>, events: seq<Event>, failing: set<nat>, tip: nat, b: nat, i: nat, j: nat)
    requires IsTrace(cfg, states, events) && i <= j < |states| && SettledDuring(cfg, states, events, failing, tip, i, j)
    requires SearchesWithin(states[i], tip) && b < tip && NoneFails(failing, b + 1, tip)
    requires forall k :: i <= k <= j ==> b in states[k].queue
    ensures SearchesWithin(states[j], tip)
    ensures PopCount(events, i, j) + TicketsAbove(cfg, states[j], b, tip)
         <= TicketsAbove(cfg, states[i], b, tip) + OtherCount(states, events, b, i, j)
    decreases j
  {
    if i == j {
    } else {
      PopsAreBounded(cfg, states, events, failing, tip, b, i, j - 1);
      WaitingStep(cfg, states[j - 1], events[j - 1], failing, b, tip);
      SearchesStayWithin(cfg, states[j - 1], events[j - 1], tip);
    }
  }

  // ----- Without failing blocks

  /** How often blocks can still be popped at all, if none below the tip fails. */
  function AllTickets(cfg: Config, s: State, tip: nat): nat {
    TicketsBetween(cfg, s, 0, tip) + |AtLeast(s.queue, tip)|
  }

  /** A chain-tip or manual publisher enqueues a block. */
  predicate OtherEnqueues(s: State, ev: Event) {
    ev.Other? && OtherCan(s, ev.other) && OtherBlock(s, ev).Some?
  }

  predicate NoOtherEnqueues(states: seq<State>, events: seq<Event>, i: nat, j: nat)
    requires j <= |events| < |states|
  {
    forall k {:trigger events[k]} :: i <= k < j ==> !OtherEnqueues(states[k], events[k])
  }

  lemma AllStep(cfg: Config, s: State, ev: Event, failing: set<nat>, tip: nat)
    requires Can(cfg, s, ev) && Calm(cfg, s, ev, failing) && NoneFails(failing, 0, tip) && SearchesWithin(s, tip)
    requires !OtherEnqueues(s, ev)
    ensures AllTickets(cfg, Do(cfg, s, ev), tip) + (if IsPop(ev) then 1 else 0) <= AllTickets(cfg, s, tip)
  {
    var popped := if PoppedBlock(ev).Some? then PoppedBlock(ev).value + 1 else 0;
    BetweenStep(cfg, s, ev, failing, 0, tip);
    BeyondStep(cfg, s, ev, tip, Max(tip, popped));
  }

  /** If no block below the tip fails and only backfill publishers enqueue, there are only so many pops, for ever. */
  lemma {:induction false} AllPopsAreBounded(
      cfg: Config, states: seq<State>, events: seq<Event>, failing: set<nat>, tip: nat, i: nat, j: nat)
    requires IsTrace(cfg, states, events) && i <= j < |states| && SettledDuring(cfg, states, events, failing, tip, i, j)
    requires SearchesWithin(states[i], tip) && NoneFails(failing, 0, tip) && NoOtherEnqueues(states, events, i, j)
    ensures SearchesWithin(states[j], tip)
    ensures PopCount(events, i, j) + AllTickets(cfg, states[j], tip) <= AllTickets(cfg, states[i], tip)
    decreases j
  {
    if i == j {
    } else {
      AllPopsAreBounded(cfg, states, events, failing, tip, i, j - 1);
      AllStep(cfg, states[j - 1], events[j - 1], failing, tip);
      SearchesStayWithin(cfg, states[j - 1], events[j - 1], tip);
    }
  }

  // ----- How many tickets there are

  lemma TicketsOfOne(cfg: Config, s: State, c: nat)
    ensures Tickets(cfg, s, c) <= |s.workers| + |s.publishers| + 1
  {
    SubsetCardinality(NonHolders(s, c), s.workers.Keys);
    SubsetCardinality(OldViews(cfg, s, c), s.publishers.Keys);
  }

  lemma OneMore(n: nat, each: nat)
    requires n > 0
    ensures n * each == (n - 1) * each + each
  {
  }

  lemma {:induction false} TicketsAreFew(cfg: Config, s: State, lo: nat, hi: nat, each: nat)
    requires lo <= hi && forall c :: lo <= c < hi ==> Tickets(cfg, s, c) <= each
    ensures TicketsBetween(cfg, s, lo, hi) <= (hi - lo) * each
    decreases hi
  {
    if hi == lo {
    } else {
      TicketsAreFew(cfg, s, lo, hi - 1, each);
      OneMore(hi - lo, each);
    }
  }

  /** The tickets at most: the queue, and for each block up to the tip one for each worker and publisher and one more. */
  lemma TicketBound(cfg: Config, s: State, b: nat, tip: nat)
    requires b < tip
    ensures TicketsAbove(cfg, s, b, tip) <= |s.queue| + (tip - b - 1) * (|s.workers| + |s.publishers| + 1)
  {
    var each := |s.workers| + |s.publishers| + 1;
    forall c: nat | b + 1 <= c < tip ensures Tickets(cfg, s, c) <= each {
      TicketsOfOne(cfg, s, c);
    }
    TicketsAreFew(cfg, s, b + 1, tip, each);
    SubsetCardinality(AtLeast(s.queue, tip), s.queue);
  }
}
