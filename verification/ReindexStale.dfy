/**
 The exception to what forcing a re-index achieves. An attempt that was in flight at the
 un-marking can still mark its block: then the block is indexed again, but by an attempt that
 began before, and the entry that the manual publisher enqueues for it is skipped. Here is
 exactly when that can happen.
 */
module ReindexStale {
  import opened Decimal
  import opened Protocol
  import opened ProtocolSafety
  import opened ProtocolRuns
  import opened Reindex
  import P = Pipeline
  import PP = PipelineProgress
  import PS = PipelineSuccess

  /** A manual publisher is about to force a re-index. */
  predicate IsForced(s: State, m: nat) {
    m in s.manuals && s.manuals[m].pc.Starting? && s.manuals[m].force
  }

  /** The state after its HDEL. */
  function AfterHDel(s: State, m: nat): State
    requires IsForced(s, m)
  {
    OtherDo(s, ManualBegin(m))
  }

  /** The block has been marked since that HDEL, by an attempt that began before, and the mark stands. */
  ghost predicate StaleMark(s: State, t: State, b: nat) {
    b in t.indexed &&
    exists k :: |s.marks| <= k < |t.marks| && t.marks[k].block == b && t.marks[k].epoch <= s.epoch
  }

  /** The manual publisher is still working on the list it has un-marked in s. */
  predicate SameList(s: State, t: State, m: nat) {
    && m in s.manuals && m in t.manuals && t.manuals[m].blocks == s.manuals[m].blocks
    && t.manuals[m].pc.Enqueueing? && t.manuals[m].pc.since == |s.marks| && t.manuals[m].pc.epoch == s.epoch + 1
  }

  /** The worker is not being stopped, and has a mark of b to make, or an attempt at b that can still succeed. */
  ghost predicate CanStillMark(cfg: Config, w: Worker, b: nat) {
    !w.cancelled &&
    match w.pc
    case Running(c, n, e, run) => c == b && (n < cfg.maxAttempts || PS.OnCourse(run))
    case Marking(c, e, run) => c == b
    case _ => false
  }

  // ----- Such a worker can leave a stale mark

  /** Worker w has marked b, with the epoch of its lookup. */
  function WithMark(s: State, w: nat, b: nat, e: nat, rows: seq<P.OutRow>, output: multiset<P.OutRow>): State {
    WithPc(s.(indexed := s.indexed[b := true], marks := s.marks + [Mark(b, e, rows)], output := output), w, Idle)
  }

  lemma OrderlyIsAnything(cfg: Config, failing: set<nat>, s: State, t: State)
    requires Leads(cfg, Orderly(cfg, failing, {}, 0), s, t)
    ensures Leads(cfg, Anything(), s, t)
  {
    LeadsWeaken(cfg, Orderly(cfg, failing, {}, 0), Anything(), s, t);
  }

  lemma MarkingMarks(cfg: Config, s: State, w: nat, b: nat, e: nat, run: P.Attempt)
    requires cfg.collectData
    ensures Leads(cfg, Anything(), WithPc(s, w, Marking(b, e, run)), WithMark(s, w, b, e, run.sent, s.output))
  {
    MarkLeads(cfg, {}, {}, 0, s, w, b, e, run);
    OrderlyIsAnything(cfg, {}, WithPc(s, w, Marking(b, e, run)), WithMark(s, w, b, e, run.sent, s.output));
  }

  lemma OnCourseMarks(cfg: Config, s: State, w: nat, b: nat, n: nat, e: nat, run: P.Attempt)
      returns (rows: seq<P.OutRow>, output: multiset<P.OutRow>)
    requires cfg.collectData && PS.OnCourse(run)
    ensures Leads(cfg, Anything(), WithPc(s, w, Running(b, n, e, run)), WithMark(s, w, b, e, rows, output))
  {
    var done := AttemptSucceeds(cfg, {}, {}, 0, s, w, b, n, e, run);
    PS.EndsWell(done);
    rows, output := done.sent, OutputAfter(s.output, run, done);
    var s1 := s.(output := output);
    EndLeads(cfg, {}, {}, 0, s1, w, b, n, e, done, EMPTY_PLAN);
    OrderlyIsAnything(cfg, {}, WithPc(s, w, Running(b, n, e, run)), WithPc(s1, w, Running(b, n, e, done)));
    OrderlyIsAnything(cfg, {}, WithPc(s1, w, Running(b, n, e, done)), WithPc(s1, w, Marking(b, e, done)));
    MarkingMarks(cfg, s1, w, b, e, done);
    var t := WithMark(s, w, b, e, rows, output);
    LeadsTransitive(cfg, Anything(), WithPc(s1, w, Running(b, n, e, done)), WithPc(s1, w, Marking(b, e, done)), t);
    LeadsTransitive(cfg, Anything(), WithPc(s, w, Running(b, n, e, run)), WithPc(s1, w, Running(b, n, e, done)), t);
  }

  /** Any attempt can end, successfully or not. */
  lemma {:induction false} AttemptEnds(cfg: Config, s: State, w: nat, b: nat, n: nat, e: nat, run: P.Attempt)
      returns (done: P.Attempt, output: multiset<P.OutRow>)
    requires P.Inv(run) && !run.cancelled
    ensures P.Inv(done) && P.Ended(done) && !done.cancelled
    ensures Leads(cfg, Anything(), WithPc(s, w, Running(b, n, e, run)),
                  WithPc(s.(output := output), w, Running(b, n, e, done)))
    decreases PP.Measure(run)
  {
    if P.Ended(run) {
      done, output := run, s.output;
      LeadsSelf(cfg, Anything(), WithPc(s, w, Running(b, n, e, run)));
    } else {
      var act := PS.CanBeEnded(run);
      var run1, s1 := P.Apply(run, act), s.(output := OutputNext(s.output, run, act));
      PP.MeasureDecreases(run, act);
      P.InvStep(run, act);
      RunLeads(cfg, {}, {}, 0, s, w, b, n, e, run, act);
      OrderlyIsAnything(cfg, {}, WithPc(s, w, Running(b, n, e, run)), WithPc(s1, w, Running(b, n, e, run1)));
      done, output := AttemptEnds(cfg, s1, w, b, n, e, run1);
      LeadsTransitive(cfg, Anything(), WithPc(s, w, Running(b, n, e, run)), WithPc(s1, w, Running(b, n, e, run1)),
                      WithPc(s.(output := output), w, Running(b, n, e, done)));
    }
  }

  /** With an attempt left after this one, b can be marked however this one ends. */
  lemma RetryMarks(cfg: Config, s: State, w: nat, b: nat, n: nat, e: nat, run: P.Attempt)
      returns (rows: seq<P.OutRow>, output: multiset<P.OutRow>)
    requires cfg.collectData && P.Inv(run) && !run.cancelled && n < cfg.maxAttempts
    ensures Leads(cfg, Anything(), WithPc(s, w, Running(b, n, e, run)), WithMark(s, w, b, e, rows, output))
  {
    var done, out := AttemptEnds(cfg, s, w, b, n, e, run);
    var s1, failing := s.(output := out), if done.failed then {b} else {};
    var pc := if done.failed then Running(b, n + 1, e, EMPTY_PLAN) else Marking(b, e, done);
    EndLeads(cfg, failing, {}, 0, s1, w, b, n, e, done, EMPTY_PLAN);
    OrderlyIsAnything(cfg, failing, WithPc(s1, w, Running(b, n, e, done)), WithPc(s1, w, pc));
    if done.failed {
      FeasibleIsOnCourse(EMPTY_PLAN);
      rows, output := OnCourseMarks(cfg, s1, w, b, n + 1, e, EMPTY_PLAN);
    } else {
      rows, output := done.sent, out;
      MarkingMarks(cfg, s1, w, b, e, done);
    }
    var t := WithMark(s, w, b, e, rows, output);
    LeadsTransitive(cfg, Anything(), WithPc(s1, w, Running(b, n, e, done)), WithPc(s1, w, pc), t);
    LeadsTransitive(cfg, Anything(), WithPc(s, w, Running(b, n, e, run)), WithPc(s1, w, Running(b, n, e, done)), t);
  }

  lemma WorkerMarks(cfg: Config, s: State, w: nat, b: nat)
      returns (e: nat, rows: seq<P.OutRow>, output: multiset<P.OutRow>)
    requires WorkerInv(s) && w in s.workers && CanStillMark(cfg, s.workers[w], b) && cfg.collectData
    ensures e == WorkerEpoch(s.workers[w])
    ensures Leads(cfg, Anything(), s, WithMark(s, w, b, e, rows, output))
  {
    assert WorkerOk(s.workers[w], s.output);
    e := s.workers[w].pc.epoch;
    assert WithPc(s, w, s.workers[w].pc) == s by {
      assert s.workers[w := Worker(s.workers[w].pc, false)] == s.workers;
    }
    match s.workers[w].pc {
      case Running(c, n, ep, run) =>
        if n < cfg.maxAttempts {
          rows, output := RetryMarks(cfg, s, w, b, n, e, run);
        } else {
          rows, output := OnCourseMarks(cfg, s, w, b, n, e, run);
        }
      case Marking(c, ep, run) =>
        rows, output := run.sent, s.output;
        MarkingMarks(cfg, s, w, b, e, run);
    }
  }

  /** The stale mark is made, and nothing else has changed but the worker and the output. */
  lemma StaleMarkReached(cfg: Config, s: State, m: nat, w: nat, b: nat) returns (t: State)
    requires Inv(cfg, s) && EpochInv(s) && IsForced(s, m)
    requires w in s.workers && CanStillMark(cfg, s.workers[w], b) && cfg.collectData
    ensures Leads(cfg, Anything(), AfterHDel(s, m), t) && StaleMark(s, t, b) && SameList(s, t, m)
    ensures IdleWorker(t, w) && OnlyStale(s, t, b) && Inv(cfg, t)
    ensures t.manuals[m].pc.next == 0 && t.manuals[m].blocks == s.manuals[m].blocks
  {
    var s1 := AfterHDel(s, m);
    InvOther(cfg, s, ManualBegin(m));
    var e, rows, output := WorkerMarks(cfg, s1, w, b);
    t := WithMark(s1, w, b, e, rows, output);
    assert t.marks[|s.marks|] == Mark(b, e, rows);
    InvLeads(cfg, s1, t);
  }

  /** All marks of b since the HDEL in s are stale. */
  predicate OnlyStale(s: State, t: State, b: nat) {
    forall k :: |s.marks| <= k < |t.marks| && t.marks[k].block == b ==> t.marks[k].epoch <= s.epoch
  }

  lemma InvLeads(cfg: Config, s: State, t: State)
    requires Leads(cfg, Anything(), s, t) && Inv(cfg, s)
    ensures Inv(cfg, t)
  {
    var states, events :| By(cfg, Anything(), states, events) && states[0] == s && states[|events|] == t;
    InvTrace(cfg, states, events);
  }

  // ----- Without such a worker there is none

  /** Whatever this worker still does, it leaves no stale mark of b. */
  ghost predicate Harmless(cfg: Config, w: Worker, b: nat, epoch: nat) {
    (w.pc.Running? || w.pc.Marking?) && w.pc.block == b && w.pc.epoch <= epoch && cfg.collectData ==> !CanStillMark(cfg, w, b)
  }

  lemma HarmlessStep(cfg: Config, s: State, w: nat, ev: WorkEvent, b: nat, epoch: nat)
    requires WorkerCan(cfg, s, w, ev) && WorkerOk(s.workers[w], s.output) && s.epoch > epoch
    requires Harmless(cfg, s.workers[w], b, epoch)
    ensures Harmless(cfg, WorkerAfter(cfg, s, w, ev), b, epoch)
  {
    var pc := s.workers[w].pc;
    if ev.Run? && !PS.OnCourse(pc.run) {
      PS.StaysOffCourse(pc.run, ev.act);
    }
    if ev.End? && !pc.run.failed && !pc.run.cancelled {
      PS.SuccessWasOnCourse(pc.run);
    }
  }

  /** Since the HDEL in s there has been no stale mark of b, and there will be none. */
  ghost predicate NoStale(cfg: Config, s: State, t: State, b: nat) {
    && t.epoch > s.epoch && |t.marks| >= |s.marks|
    && (forall k :: |s.marks| <= k < |t.marks| && t.marks[k].block == b ==> t.marks[k].epoch > s.epoch)
    && forall w :: w in t.workers ==> Harmless(cfg, t.workers[w], b, s.epoch)
  }

  lemma NoStaleWork(cfg: Config, s: State, t: State, w: nat, ev: WorkEvent, b: nat)
    requires NoStale(cfg, s, t, b) && WorkerInv(t) && WorkerCan(cfg, t, w, ev)
    ensures NoStale(cfg, s, WorkerDo(cfg, t, w, ev), b)
  {
    assert WorkerOk(t.workers[w], t.output) && Harmless(cfg, t.workers[w], b, s.epoch);
    HarmlessStep(cfg, t, w, ev, b, s.epoch);
    assert WorkerDo(cfg, t, w, ev).workers == t.workers[w := WorkerAfter(cfg, t, w, ev)];
  }

  lemma NoStaleStep(cfg: Config, s: State, t: State, ev: Event, b: nat)
    requires NoStale(cfg, s, t, b) && WorkerInv(t) && Can(cfg, t, ev)
    ensures NoStale(cfg, s, Do(cfg, t, ev), b)
  {
    match ev {
      case Pub(p, e) => assert Do(cfg, t, ev).workers == t.workers && Do(cfg, t, ev).marks == t.marks;
      case Work(w, e) => NoStaleWork(cfg, s, t, w, e, b);
      case Other(e) => assert Do(cfg, t, ev).workers == t.workers && Do(cfg, t, ev).marks == t.marks;
    }
  }

  lemma {:induction false} NoStaleTrace(
      cfg: Config, s: State, states: seq<State>, events: seq<Event>, b: nat, n: nat)
    requires By(cfg, Anything(), states, events) && n <= |events|
    requires NoStale(cfg, s, states[0], b) && Inv(cfg, states[0])
    ensures NoStale(cfg, s, states[n], b) && Inv(cfg, states[n])
    decreases n
  {
    if n == 0 {
    } else {
      NoStaleTrace(cfg, s, states, events, b, n - 1);
      NoStaleStep(cfg, s, states[n - 1], events[n - 1], b);
      InvStep(cfg, states[n - 1], events[n - 1]);
    }
  }

  lemma NoStaleMark(cfg: Config, s: State, m: nat, t: State, b: nat)
    requires Inv(cfg, s) && IsForced(s, m) && Leads(cfg, Anything(), AfterHDel(s, m), t)
    requires !cfg.collectData || forall w :: w in s.workers ==> !CanStillMark(cfg, s.workers[w], b)
    ensures !StaleMark(s, t, b)
  {
    var s1 := AfterHDel(s, m);
    InvOther(cfg, s, ManualBegin(m));
    assert s1.workers == s.workers && s1.marks == s.marks && s1.epoch == s.epoch + 1;
    var states, events :| By(cfg, Anything(), states, events) && states[0] == s1 && states[|events|] == t;
    NoStaleTrace(cfg, s, states, events, b, |events|);
  }

  // ----- The exact condition

  /** The two invariants hold in every reachable state. */
  lemma ReachableIsOk(cfg: Config, states: seq<State>, events: seq<Event>)
    requires IsRun(cfg, states, events)
    ensures Inv(cfg, states[|events|]) && EpochInv(states[|events|])
  {
    InvAt(cfg, states, events, |events|);
    EpochTrace(cfg, states, events);
  }

  /**
   When the mark of an attempt that began before the HDEL can come after it and stand: exactly
   when data is collected and some worker that is not being stopped is about to mark the
   block, or is processing it with another attempt left or with the current one on course.
   */
  lemma {:induction false} StaleMarkExactly(cfg: Config, s: State, m: nat, b: nat)
    requires Inv(cfg, s) && EpochInv(s) && IsForced(s, m)
    ensures (exists t :: Leads(cfg, Anything(), AfterHDel(s, m), t) && StaleMark(s, t, b) && SameList(s, t, m))
       <==> cfg.collectData && exists w :: w in s.workers && CanStillMark(cfg, s.workers[w], b)
  {
    if cfg.collectData && exists w :: w in s.workers && CanStillMark(cfg, s.workers[w], b) {
      var w :| w in s.workers && CanStillMark(cfg, s.workers[w], b);
      var t := StaleMarkReached(cfg, s, m, w, b);
    } else {
      forall t | Leads(cfg, Anything(), AfterHDel(s, m), t) ensures !StaleMark(s, t, b) {
        NoStaleMark(cfg, s, m, t, b);
      }
    }
  }

  // ----- The new entry is skipped

  /** The manual publisher has taken the texts before the n-th. */
  function AtText(s: State, m: nat, n: nat, queue: set<nat>): State
    requires m in s.manuals && s.manuals[m].pc.Enqueueing?
  {
    var man := s.manuals[m];
    s.(queue := queue, manuals := s.manuals[m := man.(pc := man.pc.(next := n))])
  }

  lemma {:induction false} TextsAreTaken(cfg: Config, s: State, m: nat, n: nat) returns (queue: set<nat>)
    requires m in s.manuals && s.manuals[m].pc.Enqueueing? && s.manuals[m].pc.next == 0 && n <= |s.manuals[m].blocks|
    requires forall i :: 0 <= i < n ==> ParseUint(s.manuals[m].blocks[i]).Success?
    ensures Leads(cfg, Anything(), s, AtText(s, m, n, queue))
  {
    if n == 0 {
      queue := s.queue;
      assert AtText(s, m, 0, s.queue).manuals == s.manuals;
      LeadsSelf(cfg, Anything(), s);
    } else {
      var before := TextsAreTaken(cfg, s, m, n - 1);
      var s1 := AtText(s, m, n - 1, before);
      queue := before + {ParseUint(s.manuals[m].blocks[n - 1]).value};
      assert Do(cfg, s1, Other(ManualEnqueue(m))).manuals == AtText(s, m, n, queue).manuals;
      StepLeads(cfg, Anything(), s1, Other(ManualEnqueue(m)), AtText(s, m, n, queue));
      LeadsTransitive(cfg, Anything(), s, s1, AtText(s, m, n, queue));
    }
  }

  /** Worker w takes what is queued above b, and then b itself. */
  lemma PopsDownTo(cfg: Config, s: State, w: nat, b: nat) returns (t: State)
    requires IdleWorker(s, w) && b in s.queue && cfg.collectData
    ensures Leads(cfg, Anything(), s, t) && w in t.workers && t.workers[w] == Worker(Popped(b), false)
    ensures b !in t.queue && s.indexed.Keys <= t.indexed.Keys && MarksFrom(s.marks, b + 1, t.marks)
  {
    var s1 := ClearFrom(cfg, {}, {b}, 0, s, w, b + 1, EMPTY_PLAN);
    LeadsWeaken(cfg, Orderly(cfg, {}, {b}, 0), Anything(), s, s1);
    PopLeads(cfg, {}, {}, 0, s1, w, b);
    t := WithPc(s1.(queue := s1.queue - {b}), w, Popped(b));
    OrderlyIsAnything(cfg, {}, s1, t);
    LeadsTransitive(cfg, Anything(), s, s1, t);
  }

  /** A lookup that finds the block marked goes on to the next block, whatever plan an attempt would have had. */
  ghost predicate LookupSkips(cfg: Config, t: State, w: nat, b: nat) {
    && w in t.workers && t.workers[w] == Worker(Popped(b), false)
    && forall plan :: IsPlan(plan, false) ==>
         && WorkerCan(cfg, t, w, Lookup(plan))
         && WorkerAfter(cfg, t, w, Lookup(plan)) == Worker(Idle, false)
  }

  lemma MarkedIsSkipped(cfg: Config, t: State, w: nat, b: nat)
    requires IndexInv(t) && b in t.indexed && w in t.workers && t.workers[w] == Worker(Popped(b), false)
    ensures LookupSkips(cfg, t, w, b)
  {
  }

  /** Stale marks only, and the publisher is about to enqueue the i-th text of its list. */
  lemma UpToText(cfg: Config, s: State, m: nat, w: nat, b: nat, i: nat) returns (t: State)
    requires Inv(cfg, s) && EpochInv(s) && IsForced(s, m) && i < |s.manuals[m].blocks|
    requires w in s.workers && CanStillMark(cfg, s.workers[w], b) && cfg.collectData
    requires forall j :: 0 <= j < i ==> ParseUint(s.manuals[m].blocks[j]).Success?
    ensures Leads(cfg, Anything(), AfterHDel(s, m), t) && StaleMark(s, t, b) && SameList(s, t, m)
    ensures t.manuals[m].pc.next == i && IdleWorker(t, w) && OnlyStale(s, t, b) && Inv(cfg, t)
  {
    var s1 := StaleMarkReached(cfg, s, m, w, b);
    var queue := TextsAreTaken(cfg, s1, m, i);
    t := AtText(s1, m, i, queue);
    LeadsTransitive(cfg, Anything(), AfterHDel(s, m), s1, t);
    InvLeads(cfg, s1, t);
    AtTextKeeps(s, s1, m, w, b, i, queue);
  }

  lemma AtTextKeeps(s: State, s1: State, m: nat, w: nat, b: nat, i: nat, queue: set<nat>)
    requires StaleMark(s, s1, b) && SameList(s, s1, m) && IdleWorker(s1, w) && OnlyStale(s, s1, b)
    ensures var t := AtText(s1, m, i, queue);
            StaleMark(s, t, b) && SameList(s, t, m) && IdleWorker(t, w) && OnlyStale(s, t, b) && t.manuals[m].pc.next == i
  {
  }

  /**
   Then the re-index of the block does not take place. If the i-th text of the list stands
   for the block and the texts up to it parse, there is a run in which a stale mark comes
   first (in t), then the entry that was to bring about the new attempt, and a worker pops
   that entry (in u) and skips it, because it finds the block marked.
   */
  lemma NewEntryIsSkipped(cfg: Config, s: State, m: nat, w: nat, b: nat, i: nat) returns (t: State, u: State)
    requires Inv(cfg, s) && EpochInv(s) && IsForced(s, m) && i < |s.manuals[m].blocks|
    requires w in s.workers && CanStillMark(cfg, s.workers[w], b) && cfg.collectData
    requires (forall j :: 0 <= j <= i ==> ParseUint(s.manuals[m].blocks[j]).Success?)
    requires ParseUint(s.manuals[m].blocks[i]).value == b
    ensures Leads(cfg, Anything(), AfterHDel(s, m), t) && StaleMark(s, t, b) && SameList(s, t, m)
    ensures Can(cfg, t, Other(ManualEnqueue(m))) && b in Do(cfg, t, Other(ManualEnqueue(m))).queue
    ensures Leads(cfg, Anything(), Do(cfg, t, Other(ManualEnqueue(m))), u) && b !in u.queue
    ensures LookupSkips(cfg, u, w, b) && OnlyStale(s, u, b)
  {
    t := UpToText(cfg, s, m, w, b, i);
    var t1 := Do(cfg, t, Other(ManualEnqueue(m)));
    u := PopsDownTo(cfg, t1, w, b);
    InvStep(cfg, t, Other(ManualEnqueue(m)));
    InvLeads(cfg, t1, u);
    MarkedIsSkipped(cfg, u, w, b);
    OnlyStaleStays(s, t1, u, b);
  }

  lemma OnlyStaleStays(s: State, t: State, u: State, b: nat)
    requires OnlyStale(s, t, b) && MarksFrom(t.marks, b + 1, u.marks)
    ensures OnlyStale(s, u, b)
  {
    forall k | |s.marks| <= k < |u.marks| && u.marks[k].block == b ensures u.marks[k].epoch <= s.epoch {
      if k < |t.marks| {
        assert u.marks[k] == t.marks[k];
      }
    }
  }
}
