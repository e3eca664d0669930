/** What every reachable state of the service satisfies. */
module ProtocolSafety {
  import opened Prelude
  import opened BlockIndex
  import opened Rdb
  import opened Protocol
  import P = Pipeline

  /** Only true is ever stored; what is stored was marked; what was marked and not un-marked is stored. */
  ghost predicate IndexInv(s: State) {
    && (forall b :: b in s.indexed ==> s.indexed[b] && b in EverMarked(s.marks))
    && (forall b :: b in EverMarked(s.marks) ==> b in s.indexed || b in s.unmarked)
  }

  /** A position that a cursor may have: everything from the start block up to it has been marked. */
  ghost predicate Passed(cfg: Config, s: State, c: nat) {
    cfg.startBlock <= c && forall b: nat :: cfg.startBlock <= b < c ==> b in EverMarked(s.marks)
  }

  ghost predicate CursorInv(cfg: Config, s: State) {
    && (s.saved.Some? ==> Passed(cfg, s, s.saved.value))
    && (forall p :: p in s.publishers ==> Passed(cfg, s, s.publishers[p].cursor))
  }

  /** Attempts are reachable attempts, and what they have written is in the output. */
  ghost predicate WorkerOk(w: Worker, output: multiset<P.OutRow>) {
    match w.pc
    case Running(b, n, e, run) => P.Inv(run) && run.cancelled == w.cancelled && multiset(run.written) <= output
    case Marking(b, e, run) =>
      P.Inv(run) && run.cancelled == w.cancelled && multiset(run.written) <= output && P.Succeeded(run)
    case _ => true
  }

  ghost predicate WorkerInv(s: State) {
    forall w :: w in s.workers ==> WorkerOk(s.workers[w], s.output)
  }

  ghost predicate MarksInv(s: State) {
    forall i :: 0 <= i < |s.marks| ==> multiset(s.marks[i].rows) <= s.output
  }

  ghost predicate Inv(cfg: Config, s: State) {
    IndexInv(s) && CursorInv(cfg, s) && WorkerInv(s) && MarksInv(s)
  }

  // ----- Preservation

  lemma InvPub(cfg: Config, s: State, p: nat, ev: PubEvent)
    requires Inv(cfg, s) && PubCan(s, p, ev)
    ensures Inv(cfg, PubDo(cfg, s, p, ev))
  {
    var s' := PubDo(cfg, s, p, ev);
    if ev.UpdateCursor? {
      CursorAfterMeaning(s.indexed.Keys, s.publishers[p].cursor, cfg.batchSize);
    }
    assert Passed(cfg, s', s'.publishers[p].cursor);
  }

  /** A successful attempt of a worker that is not being stopped: all its rows are in the output. */
  lemma SuccessIsDelivered(w: Worker, output: multiset<P.OutRow>)
    requires WorkerOk(w, output) && w.pc.Marking? && !w.cancelled
    ensures w.pc.run.written == w.pc.run.sent && multiset(w.pc.run.sent) <= output
  {
  }

  lemma OutputMonotone(w: Worker, output: multiset<P.OutRow>, more: multiset<P.OutRow>)
    requires WorkerOk(w, output) && output <= more
    ensures WorkerOk(w, more)
  {
  }

  lemma WorkerRunOk(w: Worker, output: multiset<P.OutRow>, act: P.Action)
    requires WorkerOk(w, output) && w.pc.Running? && !act.Cancel? && P.Enabled(w.pc.run, act)
    ensures var run := P.Apply(w.pc.run, act);
            WorkerOk(w.(pc := Running(w.pc.block, w.pc.attempt, w.pc.epoch, run)),
                     if act.Write? then output + multiset(run.written) else output)
  {
    P.InvStep(w.pc.run, act);
  }

  lemma InvWorkerRun(cfg: Config, s: State, w: nat, act: P.Action)
    requires Inv(cfg, s) && WorkerCan(cfg, s, w, Run(act))
    ensures Inv(cfg, WorkerDo(cfg, s, w, Run(act)))
  {
    var s' := WorkerDo(cfg, s, w, Run(act));
    assert s.output <= s'.output;
    assert WorkerInv(s') by {
      forall v | v in s'.workers ensures WorkerOk(s'.workers[v], s'.output) {
        if v == w {
          WorkerRunOk(s.workers[w], s.output, act);
        } else {
          OutputMonotone(s.workers[v], s.output, s'.output);
        }
      }
    }
    assert IndexInv(s') && CursorInv(cfg, s') && MarksInv(s');
  }

  lemma InvWorkerMark(cfg: Config, s: State, w: nat)
    requires Inv(cfg, s) && WorkerCan(cfg, s, w, SetIndexed(true))
    ensures Inv(cfg, WorkerDo(cfg, s, w, SetIndexed(true)))
  {
    var pc := s.workers[w].pc;
    SuccessIsDelivered(s.workers[w], s.output);
    EverMarkedSnoc(s.marks, Mark(pc.block, pc.epoch, pc.run.sent));
  }

  lemma InvWorkerReplaced(cfg: Config, s: State, w: nat, after: Worker, queue: set<nat>)
    requires Inv(cfg, s) && w in s.workers && WorkerOk(after, s.output)
    ensures Inv(cfg, s.(workers := s.workers[w := after], queue := queue))
  {
  }

  lemma WorkerAfterOk(cfg: Config, s: State, w: nat, ev: WorkEvent)
    requires WorkerCan(cfg, s, w, ev) && WorkerOk(s.workers[w], s.output) && !ev.Run?
    ensures WorkerOk(WorkerAfter(cfg, s, w, ev), s.output)
  {
    match ev {
      case Lookup(plan) => P.InvInitially(plan);
      case End(plan) => P.InvInitially(plan);
      case Cancel => CancelledOk(s.workers[w], s.output);
      case _ =>
    }
  }

  lemma CancelledOk(w: Worker, output: multiset<P.OutRow>)
    requires WorkerOk(w, output) && !w.cancelled
    ensures WorkerOk(Worker(CancelPc(w.pc), true), output)
  {
    if w.pc.Running? || w.pc.Marking? {
      P.InvStep(w.pc.run, P.Cancel);
    }
  }

  lemma InvWorker(cfg: Config, s: State, w: nat, ev: WorkEvent)
    requires Inv(cfg, s) && WorkerCan(cfg, s, w, ev)
    ensures Inv(cfg, WorkerDo(cfg, s, w, ev))
  {
    if ev.Run? {
      InvWorkerRun(cfg, s, w, ev.act);
    } else if ev == SetIndexed(true) {
      InvWorkerMark(cfg, s, w);
    } else {
      WorkerAfterOk(cfg, s, w, ev);
      InvWorkerReplaced(cfg, s, w, WorkerAfter(cfg, s, w, ev), WorkerDo(cfg, s, w, ev).queue);
    }
  }

  lemma InvOther(cfg: Config, s: State, ev: OtherEvent)
    requires Inv(cfg, s) && OtherCan(s, ev)
    ensures Inv(cfg, OtherDo(s, ev))
  {
    var s' := OtherDo(s, ev);
    assert s'.marks == s.marks && s'.output == s.output && s'.workers == s.workers && s'.publishers == s.publishers;
    assert WorkerInv(s') && CursorInv(cfg, s') && MarksInv(s');
  }

  lemma InvStep(cfg: Config, s: State, ev: Event)
    requires Inv(cfg, s) && Can(cfg, s, ev)
    ensures Inv(cfg, Do(cfg, s, ev))
  {
    match ev {
      case Pub(p, e) => InvPub(cfg, s, p, e);
      case Work(w, e) => InvWorker(cfg, s, w, e);
      case Other(e) => InvOther(cfg, s, e);
    }
  }

  lemma {:induction false} InvTrace(cfg: Config, states: seq<State>, events: seq<Event>)
    requires IsTrace(cfg, states, events) && Inv(cfg, states[0])
    ensures forall i :: 0 <= i < |states| ==> Inv(cfg, states[i])
    decreases |events|
  {
    if events == [] {
    } else {
      InvStep(cfg, states[0], events[0]);
      InvTrace(cfg, states[1..], events[1..]);
      assert forall i :: 1 <= i < |states| ==> states[i] == states[1..][i - 1];
    }
  }

  lemma {:induction false} InvRun(cfg: Config, states: seq<State>, events: seq<Event>)
    requires IsRun(cfg, states, events)
    ensures forall i :: 0 <= i < |states| ==> Inv(cfg, states[i])
  {
    InvTrace(cfg, states, events);
  }

  lemma {:induction false} InvAt(cfg: Config, states: seq<State>, events: seq<Event>, i: nat)
    requires IsRun(cfg, states, events) && i < |states|
    ensures Inv(cfg, states[i])
  {
    InvRun(cfg, states, events);
  }

  // ----- Main results

  /** The output only grows. */
  lemma {:induction false} OutputGrows(cfg: Config, states: seq<State>, events: seq<Event>, i: nat, j: nat)
    requires IsTrace(cfg, states, events) && i <= j < |states|
    ensures states[i].output <= states[j].output
    decreases j
  {
    if i == j {
    } else {
      OutputGrows(cfg, states, events, i, j - 1);
      assert Can(cfg, states[j - 1], events[j - 1]);
    }
  }

  /** Nothing but a worker's own effective mark puts a block in the index. */
  lemma OnlyWorkersMark(cfg: Config, s: State, ev: Event, b: nat)
    requires Can(cfg, s, ev) && b in Do(cfg, s, ev).indexed && b !in s.indexed
    ensures ev.Work? && ev.work == SetIndexed(true) && s.workers[ev.w].pc.block == b
  {
  }

  /**
   In every interleaving of workers, retries, their goroutines, errors and cancellations:
   if a block is in the index, then at some event k a worker marked it, and at that event
   the worker's attempt had returned without an error, with every row it sent written, in
   the order sent, and still in the output now.
   */
  lemma {:induction false} MarkedMeansWritten(cfg: Config, states: seq<State>, events: seq<Event>, n: nat, b: nat)
      returns (k: nat, w: nat)
    requires IsRun(cfg, states, events) && n < |states| && b in states[n].indexed
    ensures k < n && events[k] == Work(w, SetIndexed(true)) && WorkerCan(cfg, states[k], w, SetIndexed(true))
    ensures var pc := states[k].workers[w].pc;
            && pc.block == b && P.Succeeded(pc.run)
            && pc.run.written == pc.run.sent && multiset(pc.run.sent) <= states[n].output
    decreases n
  {
    assert Can(cfg, states[n - 1], events[n - 1]);
    if b in states[n - 1].indexed {
      k, w := MarkedMeansWritten(cfg, states, events, n - 1, b);
    } else {
      InvAt(cfg, states, events, n - 1);
      k := n - 1;
      w := MarkingMeansWritten(cfg, states[k], events[k], b);
    }
    OutputGrows(cfg, states, events, n - 1, n);
  }

  /** The event that puts a block in the index. */
  lemma MarkingMeansWritten(cfg: Config, s: State, ev: Event, b: nat) returns (w: nat)
    requires Inv(cfg, s) && Can(cfg, s, ev) && b in Do(cfg, s, ev).indexed && b !in s.indexed
    ensures ev == Work(w, SetIndexed(true)) && WorkerCan(cfg, s, w, SetIndexed(true))
    ensures var pc := s.workers[w].pc;
            && pc.block == b && P.Succeeded(pc.run)
            && pc.run.written == pc.run.sent && multiset(pc.run.sent) <= s.output
  {
    OnlyWorkersMark(cfg, s, ev, b);
    w := ev.w;
    SuccessIsDelivered(s.workers[w], s.output);
  }

  /** A cursor of this state: of a publisher, or the persisted one. */
  predicate IsCursor(s: State, c: nat) {
    s.saved == Some(c) || exists p :: p in s.publishers && s.publishers[p].cursor == c
  }

  /**
   Cursor safety, for any number of publishers and workers and any crashes: every block
   from the start block up to a cursor, in memory or persisted, has been marked, and is
   still marked unless the manual publisher un-marked it.
   */
  lemma {:induction false} CursorSafety(cfg: Config, states: seq<State>, events: seq<Event>, c: nat, b: nat)
    requires IsRun(cfg, states, events)
    requires IsCursor(states[|events|], c) && cfg.startBlock <= b < c
    ensures var s := states[|events|];
            b in EverMarked(s.marks) && (b in s.indexed || b in s.unmarked)
  {
    InvAt(cfg, states, events, |events|);
    var s := states[|events|];
    assert Passed(cfg, s, c);
  }

  /**
   The publisher's bulk view and the worker's lookup agree on every block of the window,
   although one tests for presence and the other for truth.
   */
  lemma {:induction false} ViewsAgree(cfg: Config, states: seq<State>, events: seq<Event>, start: nat, size: nat, b: nat)
    requires IsRun(cfg, states, events) && start <= b <= start + size
    ensures var indexed := states[|events|].indexed;
            b in BulkView(indexed, start, size) && (BulkView(indexed, start, size)[b] <==> b in indexed && indexed[b])
  {
    InvAt(cfg, states, events, |events|);
  }

  /** A block that was popped and then failed or lost stays unindexed, and no cursor passes it. */
  lemma {:induction false} UnindexedStaysAhead(cfg: Config, states: seq<State>, events: seq<Event>, b: nat)
    requires IsRun(cfg, states, events)
    requires var s := states[|events|];
             cfg.startBlock <= b && b !in s.indexed && b !in s.unmarked
    ensures var s := states[|events|];
            && (s.saved.Some? ==> s.saved.value <= b)
            && (forall p :: p in s.publishers ==> s.publishers[p].cursor <= b)
  {
    InvAt(cfg, states, events, |events|);
    var s := states[|events|];
    assert b !in EverMarked(s.marks);
  }

  // ----- The persisted cursor of a single publisher

  ghost predicate SingleInv(s: State, p: nat) {
    s.publishers.Keys == {p} && (s.saved.Some? ==> s.saved.value <= s.publishers[p].cursor)
  }

  lemma OwnSingleStep(cfg: Config, s: State, p: nat, ev: PubEvent)
    requires PubCan(s, p, ev) && (s.saved.Some? ==> s.saved.value <= s.publishers[p].cursor)
    ensures var s' := PubDo(cfg, s, p, ev);
            && (s'.saved.Some? ==> s'.saved.value <= PubAfter(cfg, s, p, ev).cursor)
            && (s.saved.Some? ==> s'.saved.Some? && s.saved.value <= s'.saved.value)
  {
    if ev.UpdateCursor? {
      CursorAfterMeaning(s.indexed.Keys, s.publishers[p].cursor, cfg.batchSize);
    }
  }

  lemma SingleStep(cfg: Config, s: State, ev: Event, p: nat)
    requires SingleInv(s, p) && Can(cfg, s, ev)
    ensures SingleInv(Do(cfg, s, ev), p)
    ensures s.saved.Some? ==> Do(cfg, s, ev).saved.Some? && s.saved.value <= Do(cfg, s, ev).saved.value
  {
    if ev.Pub? {
      assert ev.p == p;
      OwnSingleStep(cfg, s, p, ev.pub);
    }
  }

  lemma {:induction false} SingleTrace(cfg: Config, states: seq<State>, events: seq<Event>, p: nat, i: nat, j: nat)
    requires IsTrace(cfg, states, events) && SingleInv(states[0], p)
    requires i <= j < |states|
    ensures SingleInv(states[i], p) && SingleInv(states[j], p)
    ensures states[i].saved.Some? ==> states[j].saved.Some? && states[i].saved.value <= states[j].saved.value
    decreases j
  {
    if i < j {
      SingleTrace(cfg, states, events, p, i, j - 1);
      SingleStep(cfg, states[j - 1], events[j - 1], p);
    } else if j > 0 {
      SingleTrace(cfg, states, events, p, j - 1, j - 1);
      SingleStep(cfg, states[j - 1], events[j - 1], p);
    }
  }

  /** With one backfill publisher, the persisted cursor never decreases, restarts included. */
  lemma {:induction false} SavedCursorNeverDecreases(
      cfg: Config, states: seq<State>, events: seq<Event>, p: nat, i: nat, j: nat)
    requires IsRun(cfg, states, events) && states[0].publishers.Keys == {p}
    requires i <= j < |states| && states[i].saved.Some?
    ensures states[j].saved.Some? && states[i].saved.value <= states[j].saved.value
  {
    SingleTrace(cfg, states, events, p, i, j);
  }
}
