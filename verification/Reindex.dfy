/** What forcing a re-index achieves: un-marking comes before enqueueing, up to attempts already in flight. */
module Reindex {
  import opened Decimal
  import opened BlockIndex
  import opened Rdb
  import opened Protocol

  ghost predicate ManualOk(s: State, man: Manual) {
    man.pc.Enqueueing? && man.force ==>
      var pc := man.pc;
      && pc.since <= |s.marks| && pc.epoch <= s.epoch
      // A listed block that is in the index was marked after the HDEL.
      && (forall b :: b in s.indexed && Show(b) in man.blocks ==> b in EverMarked(s.marks[pc.since..]))
      // Marks since the HDEL come from lookups since the HDEL, but for attempts in flight then.
      && (forall k :: pc.since <= k < |s.marks| && s.marks[k].block !in pc.inFlight ==> s.marks[k].epoch >= pc.epoch)
      && (forall w :: w in s.workers ==> WorkerSince(s.workers[w], pc.epoch, pc.inFlight))
  }

  predicate WorkerSince(w: Worker, epoch: nat, inFlight: set<nat>) {
    (w.pc.Running? || w.pc.Marking?) && w.pc.block !in inFlight ==> w.pc.epoch >= epoch
  }

  ghost predicate ManualInv(s: State) {
    forall m :: m in s.manuals ==> ManualOk(s, s.manuals[m])
  }

  lemma ManualOkMark(cfg: Config, s: State, w: nat, man: Manual)
    requires ManualOk(s, man) && WorkerCan(cfg, s, w, SetIndexed(true))
    ensures ManualOk(WorkerDo(cfg, s, w, SetIndexed(true)), man)
  {
    if man.pc.Enqueueing? && man.force {
      var s' := WorkerDo(cfg, s, w, SetIndexed(true));
      var pc := s.workers[w].pc;
      var mark := Mark(pc.block, pc.epoch, pc.run.sent);
      assert s'.marks[man.pc.since..] == s.marks[man.pc.since..] + [mark];
      EverMarkedSnoc(s.marks[man.pc.since..], mark);
      assert WorkerSince(s.workers[w], man.pc.epoch, man.pc.inFlight);
    }
  }

  lemma ManualOkWorker(cfg: Config, s: State, w: nat, ev: WorkEvent, man: Manual)
    requires ManualOk(s, man) && WorkerCan(cfg, s, w, ev)
    ensures ManualOk(WorkerDo(cfg, s, w, ev), man)
  {
    if ev == SetIndexed(true) {
      ManualOkMark(cfg, s, w, man);
    } else if man.pc.Enqueueing? && man.force {
      assert WorkerSince(s.workers[w], man.pc.epoch, man.pc.inFlight);
      assert WorkerSince(WorkerAfter(cfg, s, w, ev), man.pc.epoch, man.pc.inFlight);
    }
  }

  lemma ManualOkOther(s: State, ev: OtherEvent)
    requires ManualInv(s) && OtherCan(s, ev)
    ensures ManualInv(OtherDo(s, ev))
  {
    var s' := OtherDo(s, ev);
    forall m | m in s'.manuals ensures ManualOk(s', s'.manuals[m]) {
      assert m in s.manuals && ManualOk(s, s.manuals[m]);
      if ev.ManualBegin? && ev.m == m && s.manuals[m].force {
        forall w | w in s.workers ensures WorkerSince(s.workers[w], s.epoch + 1, InFlight(s)) {
        }
      }
    }
  }

  lemma ManualStep(cfg: Config, s: State, ev: Event)
    requires ManualInv(s) && Can(cfg, s, ev)
    ensures ManualInv(Do(cfg, s, ev))
  {
    match ev {
      case Pub(p, e) =>
      case Work(w, e) =>
        forall m | m in s.manuals ensures ManualOk(WorkerDo(cfg, s, w, e), s.manuals[m]) {
          ManualOkWorker(cfg, s, w, e, s.manuals[m]);
        }
      case Other(e) => ManualOkOther(s, e);
    }
  }

  lemma {:induction false} ManualTrace(cfg: Config, states: seq<State>, events: seq<Event>)
    requires IsTrace(cfg, states, events) && ManualInv(states[0])
    ensures ManualInv(states[|events|])
    decreases |events|
  {
    if events == [] {
    } else {
      ManualStep(cfg, states[0], events[0]);
      ManualTrace(cfg, states[1..], events[1..]);
    }
  }

  /** The text at hand is taken: it parses, its block is queued, and the publisher goes on to the next. */
  predicate TakesText(s: State, s': State, m: nat)
    requires m in s.manuals && s.manuals[m].pc.Enqueueing? && m in s'.manuals && s'.manuals[m].pc.Enqueueing?
  {
    var man, i := s.manuals[m], s.manuals[m].pc.next;
    && s'.manuals[m].pc.next == i + 1 && i < |man.blocks| && ParseUint(man.blocks[i]).Success?
    && ParseUint(man.blocks[i]).value in s'.queue
  }

  lemma OtherMoves(s: State, ev: OtherEvent, m: nat)
    requires OtherCan(s, ev) && ev != ManualBegin(m)
    requires m in OtherDo(s, ev).manuals && OtherDo(s, ev).manuals[m].pc.Enqueueing?
    ensures m in s.manuals && s.manuals[m].pc.Enqueueing?
    ensures var man, man' := s.manuals[m], OtherDo(s, ev).manuals[m];
            && man'.blocks == man.blocks && man'.force == man.force
            && if ev == ManualEnqueue(m) then TakesText(s, OtherDo(s, ev), m) else man'.pc.next == man.pc.next
  {
    match ev {
      case TipEnqueue(b) =>
      case ManualBegin(k) => assert OtherDo(s, ev).manuals[m] == s.manuals[m];
      case ManualEnqueue(k) =>
      case ManualRestart(k, blocks, force) =>
    }
  }

  /** A manual publisher that is past its un-marking keeps its list and takes one text at a time. */
  lemma ManualMoves(cfg: Config, s: State, ev: Event, m: nat)
    requires Can(cfg, s, ev) && ev != Other(ManualBegin(m))
    requires m in Do(cfg, s, ev).manuals && Do(cfg, s, ev).manuals[m].pc.Enqueueing?
    ensures m in s.manuals && s.manuals[m].pc.Enqueueing?
    ensures var man, man' := s.manuals[m], Do(cfg, s, ev).manuals[m];
            && man'.blocks == man.blocks && man'.force == man.force
            && if ev == Other(ManualEnqueue(m)) then TakesText(s, Do(cfg, s, ev), m) else man'.pc.next == man.pc.next
  {
    match ev {
      case Pub(p, e) => assert Do(cfg, s, ev).manuals == s.manuals;
      case Work(w, e) => assert Do(cfg, s, ev).manuals == s.manuals;
      case Other(e) => OtherMoves(s, e, m);
    }
  }

  lemma ManualBegins(cfg: Config, s: State, m: nat)
    requires Can(cfg, s, Other(ManualBegin(m)))
    ensures m in s.manuals && m in Do(cfg, s, Other(ManualBegin(m))).manuals
    ensures var man, s' := s.manuals[m], Do(cfg, s, Other(ManualBegin(m)));
            && s'.manuals[m].blocks == man.blocks && s'.manuals[m].force == man.force
            && s'.manuals[m].pc.Enqueueing? && s'.manuals[m].pc.next == 0
            && s'.indexed == if man.force then Unmarked(s.indexed, man.blocks) else s.indexed
  {
  }

  /** A manual publisher that is enqueueing has un-marked its list before, if it was to. */
  lemma {:induction false} UnmarkedBefore(cfg: Config, states: seq<State>, events: seq<Event>, m: nat, n: nat)
      returns (u: nat)
    requires IsRun(cfg, states, events) && n < |states|
    requires m in states[n].manuals && states[n].manuals[m].pc.Enqueueing?
    ensures u < n && events[u] == Other(ManualBegin(m)) && m in states[u].manuals
    ensures var man := states[n].manuals[m];
            && states[u].manuals[m].blocks == man.blocks && states[u].manuals[m].force == man.force
            && states[u + 1].indexed == if man.force then Unmarked(states[u].indexed, man.blocks) else states[u].indexed
    decreases n
  {
    assert n > 0 && states[n] == Do(cfg, states[n - 1], events[n - 1]);
    if events[n - 1] == Other(ManualBegin(m)) {
      ManualBegins(cfg, states[n - 1], m);
      u := n - 1;
    } else {
      ManualMoves(cfg, states[n - 1], events[n - 1], m);
      u := UnmarkedBefore(cfg, states, events, m, n - 1);
    }
  }

  /** Each text that has been passed was taken by some event. */
  lemma {:induction false} TextEnqueued(
      cfg: Config, states: seq<State>, events: seq<Event>, m: nat, n: nat, i: nat)
      returns (k: nat)
    requires IsRun(cfg, states, events) && n < |states|
    requires m in states[n].manuals && states[n].manuals[m].pc.Enqueueing? && i < states[n].manuals[m].pc.next
    ensures k < n && events[k] == Other(ManualEnqueue(m))
    ensures m in states[k].manuals && states[k].manuals[m].pc.Enqueueing?
    ensures states[k].manuals[m].blocks == states[n].manuals[m].blocks
    ensures states[k].manuals[m].force == states[n].manuals[m].force
    ensures Taken(states[n].manuals[m].blocks, i, states[k + 1].queue)
    decreases n
  {
    assert n > 0 && states[n] == Do(cfg, states[n - 1], events[n - 1]);
    if events[n - 1] == Other(ManualBegin(m)) {
      ManualBegins(cfg, states[n - 1], m);
      assert false;
    }
    ManualMoves(cfg, states[n - 1], events[n - 1], m);
    if events[n - 1] == Other(ManualEnqueue(m)) && i == states[n - 1].manuals[m].pc.next {
      k := n - 1;
    } else {
      k := TextEnqueued(cfg, states, events, m, n - 1, i);
    }
  }

  /** The i-th text of the list parses, and its block is in the queue. */
  predicate Taken(blocks: seq<string>, i: nat, queue: set<nat>) {
    i < |blocks| && ParseUint(blocks[i]).Success? && ParseUint(blocks[i]).value in queue
  }

  /**
   Un-marking comes before enqueueing: each of the first `next` texts of the list parses,
   and its block was put in the queue by an event k that came after the event u at which
   the whole list was un-marked, if it was to be.
   */
  lemma {:induction false} UnmarkedThenEnqueued(
      cfg: Config, states: seq<State>, events: seq<Event>, m: nat, n: nat, i: nat)
      returns (u: nat, k: nat)
    requires IsRun(cfg, states, events) && n < |states|
    requires m in states[n].manuals && states[n].manuals[m].pc.Enqueueing? && i < states[n].manuals[m].pc.next
    ensures u < k < n && events[u] == Other(ManualBegin(m)) && events[k] == Other(ManualEnqueue(m))
    ensures var man := states[n].manuals[m];
            && states[u + 1].indexed == (if man.force then Unmarked(states[u].indexed, man.blocks) else states[u].indexed)
            && Taken(man.blocks, i, states[k + 1].queue)
  {
    k := TextEnqueued(cfg, states, events, m, n, i);
    u := UnmarkedBefore(cfg, states, events, m, k);
  }

  /**
   Once the manual publisher has un-marked its list, a listed block that is found in the
   index was marked after that. If no worker was processing it at that moment, the attempt
   that marked it also began, from its lookup on, after that.
   A text of the list speaks for the block it parses to exactly if it is canonical.
   */
  lemma {:induction false} ReindexOrder(
      cfg: Config, states: seq<State>, events: seq<Event>, m: nat, text: string)
      returns (k: nat)
    requires IsRun(cfg, states, events)
    requires var s := states[|events|];
             m in s.manuals && s.manuals[m].force && s.manuals[m].pc.Enqueueing? && text in s.manuals[m].blocks
    requires ParseUint(text).Success? && Canonical(text)
    requires ParseUint(text).value in states[|events|].indexed
    ensures var s, b, pc := states[|events|], ParseUint(text).value, states[|events|].manuals[m].pc;
            && pc.since <= k < |s.marks| && s.marks[k].block == b
            && (b !in pc.inFlight ==> s.marks[k].epoch >= pc.epoch)
  {
    ManualTrace(cfg, states, events);
    var s := states[|events|];
    var b := ParseUint(text).value;
    var since := s.manuals[m].pc.since;
    ShowAfterParse(text);
    assert ManualOk(s, s.manuals[m]);
    assert b in EverMarked(s.marks[since..]);
    var i :| 0 <= i < |s.marks[since..]| && s.marks[since..][i].block == b;
    k := since + i;
  }

  /** The HDEL un-marks the block that a text of the list parses to exactly when the text is canonical. */
  lemma UnmarkedExactly(indexed: map<nat, bool>, text: string)
    requires ParseUint(text).Success? && ParseUint(text).value in indexed
    ensures ParseUint(text).value !in Unmarked(indexed, [text]) <==> Canonical(text)
  {
    ShowAfterParse(text);
  }

  ghost predicate EpochInv(s: State) {
    forall w :: w in s.workers ==> WorkerEpoch(s.workers[w]) <= s.epoch
  }

  function WorkerEpoch(w: Worker): nat {
    if w.pc.Running? || w.pc.Marking? then w.pc.epoch else 0
  }

  lemma EpochStep(cfg: Config, s: State, ev: Event)
    requires EpochInv(s) && Can(cfg, s, ev)
    ensures EpochInv(Do(cfg, s, ev))
  {
    if ev.Work? {
      assert WorkerEpoch(s.workers[ev.w]) <= s.epoch;
      assert WorkerEpoch(WorkerAfter(cfg, s, ev.w, ev.work)) <= s.epoch;
    }
  }

  lemma {:induction false} EpochTrace(cfg: Config, states: seq<State>, events: seq<Event>)
    requires IsTrace(cfg, states, events) && EpochInv(states[0])
    ensures EpochInv(states[|events|])
    decreases |events|
  {
    if events == [] {
    } else {
      EpochStep(cfg, states[0], events[0]);
      EpochTrace(cfg, states[1..], events[1..]);
    }
  }

  // ----- Un-marking below the cursor

  /** The single publisher has left block b behind: its cursors and its search are beyond it. */
  predicate LeftBehind(s: State, p: nat, b: nat) {
    s.publishers.Keys == {p} && s.saved.Some? && s.saved.value > b && Beyond(s.publishers[p], b)
  }

  predicate Beyond(pub: Publisher, b: nat) {
    pub.cursor > b &&
    match pub.pc
    case ReadWindow(sw) => sw.searchStart > b
    case Scan(sw, view) => sw.searchStart > b && sw.block > b
    case _ => true
  }

  lemma OwnStaysBeyond(cfg: Config, s: State, p: nat, ev: PubEvent, b: nat)
    requires PubCan(s, p, ev) && Beyond(s.publishers[p], b) && s.saved.Some? && s.saved.value > b
    ensures Beyond(PubAfter(cfg, s, p, ev), b)
    ensures b !in ScanEnqueues(cfg, s.publishers[p])
  {
    if ev.UpdateCursor? {
      CursorAfterMeaning(s.indexed.Keys, s.publishers[p].cursor, cfg.batchSize);
    }
  }

  lemma StaysBehind(cfg: Config, s: State, ev: Event, p: nat, b: nat)
    requires LeftBehind(s, p, b) && Can(cfg, s, ev)
    ensures LeftBehind(Do(cfg, s, ev), p, b)
    ensures ev.Pub? ==> b in s.queue || b !in Do(cfg, s, ev).queue
  {
    if ev.Pub? {
      assert ev.p == p;
      OwnStaysBeyond(cfg, s, p, ev.pub, b);
    }
  }

  /**
   The other side of forcing a re-index: the cursor does not move back. A block un-marked
   below it is enqueued once, by the manual publisher; if that fails, the backfill never
   enqueues it again, so the promise that failed blocks are retried does not extend to it.
   */
  lemma {:induction false} LeftBehindForever(
      cfg: Config, states: seq<State>, events: seq<Event>, p: nat, b: nat, k: nat)
    requires IsTrace(cfg, states, events) && LeftBehind(states[0], p, b) && k < |events|
    ensures LeftBehind(states[k], p, b)
    ensures events[k].Pub? ==> b in states[k].queue || b !in states[k + 1].queue
    decreases k
  {
    if k == 0 {
    } else {
      LeftBehindForever(cfg, states, events, p, b, k - 1);
      StaysBehind(cfg, states[k - 1], events[k - 1], p, b);
    }
    assert states[k + 1] == Do(cfg, states[k], events[k]);
    StaysBehind(cfg, states[k], events[k], p, b);
  }
}
