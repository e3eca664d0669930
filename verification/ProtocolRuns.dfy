/**
 Runs that exist: how attempts, workers and publishers can go on from a given state. The
 rule says which events a run may use, so that the same steps serve for runs in which
 nothing goes wrong and for any other.
 */
module ProtocolRuns {
  import opened Prelude
  import opened BlockIndex
  import opened Rdb
  import opened Protocol
  import opened ProtocolSweep
  import opened ProtocolBatch
  import opened ProtocolLiveness
  import opened ProtocolWaiting
  import PP = PipelineProgress
  import PS = PipelineSuccess
  import P = Pipeline

  type Rule = (State, Event) -> bool

  ghost predicate By(cfg: Config, rule: Rule, states: seq<State>, events: seq<Event>) {
    IsTrace(cfg, states, events) && forall i {:trigger events[i]} :: 0 <= i < |events| ==> rule(states[i], events[i])
  }

  ghost predicate Leads(cfg: Config, rule: Rule, s: State, t: State) {
    exists states, events :: By(cfg, rule, states, events) && states[0] == s && states[|events|] == t
  }

  // ----- Putting runs together

  lemma LeadsSelf(cfg: Config, rule: Rule, s: State)
    ensures Leads(cfg, rule, s, s)
  {
    assert By(cfg, rule, [s], []);
  }

  lemma JoinBy(cfg: Config, rule: Rule, states1: seq<State>, events1: seq<Event>, ev: Event,
               states2: seq<State>, events2: seq<Event>)
    requires By(cfg, rule, states1, events1) && By(cfg, rule, states2, events2)
    requires var s := states1[|events1|]; Can(cfg, s, ev) && rule(s, ev) && states2[0] == Do(cfg, s, ev)
    ensures By(cfg, rule, states1 + states2, events1 + [ev] + events2)
  {
    var states, events := states1 + states2, events1 + [ev] + events2;
    forall i {:trigger events[i]} | 0 <= i < |events|
      ensures Can(cfg, states[i], events[i]) && states[i + 1] == Do(cfg, states[i], events[i]) && rule(states[i], events[i])
    {
      if i < |events1| {
        assert events[i] == events1[i];
      } else if i > |events1| {
        assert events[i] == events2[i - |events1| - 1];
      }
    }
  }

  lemma JoinTraces(cfg: Config, rule: Rule, states1: seq<State>, events1: seq<Event>, states2: seq<State>, events2: seq<Event>)
    requires By(cfg, rule, states1, events1) && By(cfg, rule, states2, events2) && states1[|events1|] == states2[0]
    ensures By(cfg, rule, states1[..|events1|] + states2, events1 + events2)
  {
    var states, events := states1[..|events1|] + states2, events1 + events2;
    forall i {:trigger events[i]} | 0 <= i < |events|
      ensures Can(cfg, states[i], events[i]) && states[i + 1] == Do(cfg, states[i], events[i]) && rule(states[i], events[i])
    {
      if i < |events1| {
        assert events[i] == events1[i];
      } else {
        assert events[i] == events2[i - |events1|];
      }
    }
  }

  lemma LeadsFirst(cfg: Config, rule: Rule, s: State, ev: Event, t: State)
    requires Can(cfg, s, ev) && rule(s, ev) && Leads(cfg, rule, Do(cfg, s, ev), t)
    ensures Leads(cfg, rule, s, t)
  {
    var states, events :| By(cfg, rule, states, events) && states[0] == Do(cfg, s, ev) && states[|events|] == t;
    assert By(cfg, rule, [s], []);
    JoinBy(cfg, rule, [s], [], ev, states, events);
    assert ([s] + states)[|[] + [ev] + events|] == t;
  }

  lemma LeadsStep(cfg: Config, rule: Rule, s: State, ev: Event)
    requires Can(cfg, s, ev) && rule(s, ev)
    ensures Leads(cfg, rule, s, Do(cfg, s, ev))
  {
    LeadsSelf(cfg, rule, Do(cfg, s, ev));
    LeadsFirst(cfg, rule, s, ev, Do(cfg, s, ev));
  }

  lemma {:induction false} LeadsTransitive(cfg: Config, rule: Rule, s: State, t: State, u: State)
    requires Leads(cfg, rule, s, t) && Leads(cfg, rule, t, u)
    ensures Leads(cfg, rule, s, u)
  {
    var states, events :| By(cfg, rule, states, events) && states[0] == s && states[|events|] == t;
    Prepend(cfg, rule, states, events, u);
  }

  lemma {:induction false} Prepend(cfg: Config, rule: Rule, states: seq<State>, events: seq<Event>, u: State)
    requires By(cfg, rule, states, events) && Leads(cfg, rule, states[|events|], u)
    ensures Leads(cfg, rule, states[0], u)
    decreases |events|
  {
    if events == [] {
    } else {
      Prepend(cfg, rule, states[1..], events[1..], u);
      LeadsFirst(cfg, rule, states[0], events[0], u);
    }
  }

  lemma LeadsWeaken(cfg: Config, rule: Rule, weaker: Rule, s: State, t: State)
    requires Leads(cfg, rule, s, t) && forall s, ev :: rule(s, ev) ==> weaker(s, ev)
    ensures Leads(cfg, weaker, s, t)
  {
    var states, events :| By(cfg, rule, states, events) && states[0] == s && states[|events|] == t;
    assert By(cfg, weaker, states, events);
  }

  // ----- Rules

  function Anything(): Rule {
    (s, ev) => true
  }

  /** No forced un-marking, and no failing block gets marked. */
  function Sparing(failing: set<nat>): Rule {
    (s, ev) => Unforced(s, ev) && Spares(s, ev, failing)
  }

  /**
   Nothing goes wrong but the attempts at failing blocks, only backfill publishers enqueue,
   up to the tip, and the given blocks are in the queue.
   */
  predicate IsOrderly(cfg: Config, s: State, ev: Event, failing: set<nat>, keep: set<nat>, tip: nat) {
    && Calm(cfg, s, ev, failing) && Spares(s, ev, failing) && !ev.Other? && WithinTip(cfg, ev, tip)
    && keep <= s.queue
  }

  function Orderly(cfg: Config, failing: set<nat>, keep: set<nat>, tip: nat): Rule {
    (s, ev) => IsOrderly(cfg, s, ev, failing, keep, tip)
  }

  // ----- Attempts

  function WithPc(s: State, w: nat, pc: WorkerPc): State {
    s.(workers := s.workers[w := Worker(pc, false)])
  }

  /** The output once the attempt has written, if it had not when it was `run`. */
  function OutputAfter(output: multiset<P.OutRow>, run: P.Attempt, done: P.Attempt): multiset<P.OutRow> {
    if run.collector.CollectReturned? then output else output + multiset(done.written)
  }

  function OutputNext(output: multiset<P.OutRow>, run: P.Attempt, act: P.Action): multiset<P.OutRow>
    requires P.Enabled(run, act)
  {
    if act.Write? then output + multiset(P.Apply(run, act).written) else output
  }

  lemma RunStep(cfg: Config, s: State, w: nat, b: nat, n: nat, e: nat, run: P.Attempt, act: P.Action)
    requires P.Enabled(run, act) && !act.Cancel?
    ensures var s1 := WithPc(s, w, Running(b, n, e, run));
            && Can(cfg, s1, Work(w, Run(act)))
            && Do(cfg, s1, Work(w, Run(act)))
               == WithPc(s.(output := OutputNext(s.output, run, act)), w, Running(b, n, e, P.Apply(run, act)))
  {
    var s1 := WithPc(s, w, Running(b, n, e, run));
    var s2 := Do(cfg, s1, Work(w, Run(act)));
    assert s2.workers == s.workers[w := Worker(Running(b, n, e, P.Apply(run, act)), false)];
  }

  lemma RunLeads(
      cfg: Config, failing: set<nat>, keep: set<nat>, tip: nat, s: State, w: nat, b: nat, n: nat, e: nat,
      run: P.Attempt, act: P.Action)
    requires P.Enabled(run, act) && !act.Cancel? && keep <= s.queue
    ensures Leads(cfg, Orderly(cfg, failing, keep, tip), WithPc(s, w, Running(b, n, e, run)),
                  WithPc(s.(output := OutputNext(s.output, run, act)), w, Running(b, n, e, P.Apply(run, act))))
  {
    RunStep(cfg, s, w, b, n, e, run, act);
    LeadsStep(cfg, Orderly(cfg, failing, keep, tip), WithPc(s, w, Running(b, n, e, run)), Work(w, Run(act)));
  }

  lemma WrittenOnce(run: P.Attempt, act: P.Action, done: P.Attempt, output: multiset<P.OutRow>)
    requires P.Enabled(run, act) && P.Inv(run) && PP.Guaranteed(run, act)
    requires P.Apply(run, act).collector.CollectReturned? ==> done.written == P.Apply(run, act).written
    ensures run.collector.CollectReturned? ==> done.written == run.written
    ensures OutputAfter(OutputNext(output, run, act), P.Apply(run, act), done) == OutputAfter(output, run, done)
  {
  }

  /** An attempt on course can go on until it has succeeded, with all rows of its plan in the output. */
  lemma {:induction false} AttemptSucceeds(
      cfg: Config, failing: set<nat>, keep: set<nat>, tip: nat, s: State, w: nat, b: nat, n: nat, e: nat, run: P.Attempt)
      returns (done: P.Attempt)
    requires PS.OnCourse(run) && keep <= s.queue
    ensures PS.OnCourse(done) && P.Ended(done) && PS.SamePlan(run, done)
    ensures run.collector.CollectReturned? ==> done.written == run.written
    ensures Leads(cfg, Orderly(cfg, failing, keep, tip), WithPc(s, w, Running(b, n, e, run)),
                  WithPc(s.(output := OutputAfter(s.output, run, done)), w, Running(b, n, e, done)))
    decreases PP.Measure(run)
  {
    var rule := Orderly(cfg, failing, keep, tip);
    if P.Ended(run) {
      done := run;
      LeadsSelf(cfg, rule, WithPc(s, w, Running(b, n, e, run)));
    } else {
      var act := PP.GoesOn(run);
      var run1, s1 := P.Apply(run, act), s.(output := OutputNext(s.output, run, act));
      PP.MeasureDecreases(run, act);
      PS.StaysOnCourse(run, act);
      PS.PlanIsKept(run, act);
      RunLeads(cfg, failing, keep, tip, s, w, b, n, e, run, act);
      done := AttemptSucceeds(cfg, failing, keep, tip, s1, w, b, n, e, run1);
      WrittenOnce(run, act, done, s.output);
      LeadsTransitive(cfg, rule, WithPc(s, w, Running(b, n, e, run)), WithPc(s1, w, Running(b, n, e, run1)),
                      WithPc(s.(output := OutputAfter(s.output, run, done)), w, Running(b, n, e, done)));
    }
  }

  // ----- Blocks

  lemma StepLeads(cfg: Config, rule: Rule, s: State, ev: Event, t: State)
    requires Can(cfg, s, ev) && rule(s, ev) && Do(cfg, s, ev) == t
    ensures Leads(cfg, rule, s, t)
  {
    LeadsStep(cfg, rule, s, ev);
  }

  predicate IdleWorker(s: State, w: nat) {
    w in s.workers && s.workers[w] == Worker(Idle, false)
  }

  /** The worker takes the highest block, leaving those to be kept. */
  predicate Takes(s: State, w: nat, b: nat, keep: set<nat>) {
    IdleWorker(s, w) && IsMaximum(b, s.queue) && keep <= s.queue - {b}
  }

  lemma PopLeads(cfg: Config, failing: set<nat>, keep: set<nat>, tip: nat, s: State, w: nat, b: nat)
    requires Takes(s, w, b, keep)
    ensures Leads(cfg, Orderly(cfg, failing, keep, tip), s, WithPc(s.(queue := s.queue - {b}), w, Popped(b)))
  {
    StepLeads(cfg, Orderly(cfg, failing, keep, tip), s, Work(w, Pop(b)), WithPc(s.(queue := s.queue - {b}), w, Popped(b)));
  }

  lemma LookupLeads(
      cfg: Config, failing: set<nat>, keep: set<nat>, tip: nat, s: State, w: nat, b: nat, plan: P.Attempt)
    requires keep <= s.queue && IsPlan(plan, false)
    ensures Leads(cfg, Orderly(cfg, failing, keep, tip), WithPc(s, w, Popped(b)),
                  WithPc(s, w, if PointLookup(s.indexed, b) then Idle else Running(b, 1, s.epoch, plan)))
  {
    var s1, pc := WithPc(s, w, Popped(b)), if PointLookup(s.indexed, b) then Idle else Running(b, 1, s.epoch, plan);
    assert Do(cfg, s1, Work(w, Lookup(plan))).workers == s.workers[w := Worker(pc, false)];
    StepLeads(cfg, Orderly(cfg, failing, keep, tip), s1, Work(w, Lookup(plan)), WithPc(s, w, pc));
  }

  /** The attempt has ended, and the worker goes on as that and the calm weather demand. */
  lemma EndLeads(
      cfg: Config, failing: set<nat>, keep: set<nat>, tip: nat, s: State, w: nat, b: nat, n: nat, e: nat,
      run: P.Attempt, plan: P.Attempt)
    requires keep <= s.queue && IsPlan(plan, false) && P.Ended(run) && (run.failed <==> b in failing)
    ensures Leads(cfg, Orderly(cfg, failing, keep, tip), WithPc(s, w, Running(b, n, e, run)),
                  WithPc(s, w, if !run.failed then Marking(b, e, run)
                               else if n < cfg.maxAttempts then Running(b, n + 1, e, plan) else Idle))
  {
    var s1 := WithPc(s, w, Running(b, n, e, run));
    var pc := if !run.failed then Marking(b, e, run) else if n < cfg.maxAttempts then Running(b, n + 1, e, plan) else Idle;
    assert Do(cfg, s1, Work(w, End(plan))).workers == s.workers[w := Worker(pc, false)];
    StepLeads(cfg, Orderly(cfg, failing, keep, tip), s1, Work(w, End(plan)), WithPc(s, w, pc));
  }

  lemma MarkLeads(
      cfg: Config, failing: set<nat>, keep: set<nat>, tip: nat, s: State, w: nat, b: nat, e: nat, run: P.Attempt)
    requires keep <= s.queue && cfg.collectData && b !in failing
    ensures Leads(cfg, Orderly(cfg, failing, keep, tip), WithPc(s, w, Marking(b, e, run)),
                  WithPc(s.(indexed := s.indexed[b := true], marks := s.marks + [Mark(b, e, run.sent)]), w, Idle))
  {
    var s1 := WithPc(s, w, Marking(b, e, run));
    assert Do(cfg, s1, Work(w, SetIndexed(true))).workers == s.workers[w := Worker(Idle, false)];
    StepLeads(cfg, Orderly(cfg, failing, keep, tip), s1, Work(w, SetIndexed(true)),
              WithPc(s.(indexed := s.indexed[b := true], marks := s.marks + [Mark(b, e, run.sent)]), w, Idle));
  }

  /** Block b has been taken out of the queue and indexed, with these rows in the output. */
  function WithIndexed(s: State, b: nat, rows: seq<P.OutRow>): State {
    s.(queue := s.queue - {b}, indexed := s.indexed[b := true],
       marks := s.marks + [Mark(b, s.epoch, rows)], output := s.output + multiset(rows))
  }

  ghost predicate RowsOfPlan(plan: P.Attempt, rows: seq<P.OutRow>) {
    forall r :: PS.Planned(plan, r) == multiset(rows)[r]
  }

  predicate Feasible(plan: P.Attempt) {
    IsPlan(plan, false) && PP.FewProcessors(plan)
  }

  lemma FeasibleIsOnCourse(plan: P.Attempt)
    requires Feasible(plan)
    ensures PS.OnCourse(plan)
  {
    P.InvInitially(plan);
  }

  /** A block without processors: an attempt that sends no row. */
  const EMPTY_PLAN: P.Attempt :=
    P.Attempt(P.Loading(0), [], [], P.Off, [], [], [], false, false, false)

  /** An attempt that succeeds is marked. */
  lemma SuccessLeads(
      cfg: Config, failing: set<nat>, keep: set<nat>, tip: nat, s: State, w: nat, b: nat, plan: P.Attempt)
      returns (rows: seq<P.OutRow>)
    requires keep <= s.queue && cfg.collectData && b !in failing && Feasible(plan)
    ensures RowsOfPlan(plan, rows)
    ensures Leads(cfg, Orderly(cfg, failing, keep, tip), WithPc(s, w, Running(b, 1, s.epoch, plan)),
                  WithPc(s.(indexed := s.indexed[b := true], marks := s.marks + [Mark(b, s.epoch, rows)],
                            output := s.output + multiset(rows)), w, Idle))
  {
    var rule := Orderly(cfg, failing, keep, tip);
    FeasibleIsOnCourse(plan);
    var done := AttemptSucceeds(cfg, failing, keep, tip, s, w, b, 1, s.epoch, plan);
    PS.EndsWell(done);
    rows := done.sent;
    var s1 := s.(output := s.output + multiset(rows));
    EndLeads(cfg, failing, keep, tip, s1, w, b, 1, s.epoch, done, plan);
    MarkLeads(cfg, failing, keep, tip, s1, w, b, s.epoch, done);
    var marked := WithPc(s1.(indexed := s.indexed[b := true], marks := s.marks + [Mark(b, s.epoch, rows)]), w, Idle);
    LeadsTransitive(cfg, rule, WithPc(s1, w, Running(b, 1, s.epoch, done)), WithPc(s1, w, Marking(b, s.epoch, done)), marked);
    LeadsTransitive(cfg, rule, WithPc(s, w, Running(b, 1, s.epoch, plan)), WithPc(s1, w, Running(b, 1, s.epoch, done)), marked);
  }

  /**
   From any state with an idle worker and a queued, unindexed block: the highest one can get
   indexed, by an attempt with any plan of at most 100 processors, with all rows of the plan
   in the output and nothing else changed.
   */
  lemma OneBlockIndexed(
      cfg: Config, failing: set<nat>, keep: set<nat>, tip: nat, s: State, w: nat, b: nat, plan: P.Attempt)
      returns (rows: seq<P.OutRow>)
    requires Takes(s, w, b, keep) && !PointLookup(s.indexed, b)
    requires cfg.collectData && b !in failing && Feasible(plan)
    ensures RowsOfPlan(plan, rows) && Leads(cfg, Orderly(cfg, failing, keep, tip), s, WithIndexed(s, b, rows))
  {
    var rule, s1 := Orderly(cfg, failing, keep, tip), s.(queue := s.queue - {b});
    PopLeads(cfg, failing, keep, tip, s, w, b);
    LookupLeads(cfg, failing, keep, tip, s1, w, b, plan);
    rows := SuccessLeads(cfg, failing, keep, tip, s1, w, b, plan);
    assert s.workers[w := Worker(Idle, false)] == s.workers;
    LeadsTransitive(cfg, rule, WithPc(s1, w, Popped(b)), WithPc(s1, w, Running(b, 1, s.epoch, plan)), WithIndexed(s, b, rows));
    LeadsTransitive(cfg, rule, s, WithPc(s1, w, Popped(b)), WithIndexed(s, b, rows));
  }

  /** All attempts from the n-th on fail while loading the block. */
  lemma {:induction false} AttemptsFail(
      cfg: Config, failing: set<nat>, keep: set<nat>, tip: nat, s: State, w: nat, b: nat, n: nat, e: nat, plan: P.Attempt)
    requires keep <= s.queue && b in failing && IsPlan(plan, false)
    ensures Leads(cfg, Orderly(cfg, failing, keep, tip), WithPc(s, w, Running(b, n, e, plan)), WithPc(s, w, Idle))
    decreases cfg.maxAttempts - n
  {
    var rule, run := Orderly(cfg, failing, keep, tip), P.Apply(plan, P.Load(false));
    RunLeads(cfg, failing, keep, tip, s, w, b, n, e, plan, P.Load(false));
    EndLeads(cfg, failing, keep, tip, s, w, b, n, e, run, plan);
    if n < cfg.maxAttempts {
      AttemptsFail(cfg, failing, keep, tip, s, w, b, n + 1, e, plan);
      LeadsTransitive(cfg, rule, WithPc(s, w, Running(b, n, e, run)), WithPc(s, w, Running(b, n + 1, e, plan)), WithPc(s, w, Idle));
    }
    LeadsTransitive(cfg, rule, WithPc(s, w, Running(b, n, e, plan)), WithPc(s, w, Running(b, n, e, run)), WithPc(s, w, Idle));
  }

  /** A failing block is taken, and a block that is indexed already; nothing but the queue changes. */
  lemma BlockDropped(
      cfg: Config, failing: set<nat>, keep: set<nat>, tip: nat, s: State, w: nat, b: nat, plan: P.Attempt)
    requires Takes(s, w, b, keep) && IsPlan(plan, false) && (PointLookup(s.indexed, b) || b in failing)
    ensures Leads(cfg, Orderly(cfg, failing, keep, tip), s, s.(queue := s.queue - {b}))
  {
    var rule, s1 := Orderly(cfg, failing, keep, tip), s.(queue := s.queue - {b});
    PopLeads(cfg, failing, keep, tip, s, w, b);
    LookupLeads(cfg, failing, keep, tip, s1, w, b, plan);
    assert WithPc(s1, w, Idle) == s1 by {
      assert s.workers[w := Worker(Idle, false)] == s.workers;
    }
    if !PointLookup(s.indexed, b) {
      AttemptsFail(cfg, failing, keep, tip, s1, w, b, 1, s.epoch, plan);
      LeadsTransitive(cfg, rule, WithPc(s1, w, Popped(b)), WithPc(s1, w, Running(b, 1, s.epoch, plan)), s1);
    }
    LeadsTransitive(cfg, rule, s, WithPc(s1, w, Popped(b)), s1);
  }

  /** Workers have been at work, and are back where they were. */
  predicate OnlyWorked(s: State, t: State) {
    && t.publishers == s.publishers && t.workers == s.workers && t.manuals == s.manuals
    && t.saved == s.saved && t.unmarked == s.unmarked && t.epoch == s.epoch
  }

  /** Only blocks from `low` on have been marked since. */
  predicate MarksFrom(marks: seq<Mark>, low: nat, marks': seq<Mark>) {
    marks <= marks' && forall k :: |marks| <= k < |marks'| ==> marks'[k].block >= low
  }

  lemma MarksFromTransitive(marks: seq<Mark>, b: nat, marks1: seq<Mark>, low: nat, marks2: seq<Mark>)
    requires MarksFrom(marks, b, marks1) && MarksFrom(marks1, low, marks2) && low <= b
    ensures MarksFrom(marks, low, marks2)
  {
    forall k | |marks| <= k < |marks2| ensures marks2[k].block >= low {
      if k < |marks1| {
        assert marks2[k] == marks1[k];
      }
    }
  }

  lemma TakeOne(
      cfg: Config, failing: set<nat>, keep: set<nat>, tip: nat, s: State, w: nat, b: nat, plan: P.Attempt)
      returns (t: State)
    requires Takes(s, w, b, keep) && cfg.collectData && Feasible(plan)
    ensures Leads(cfg, Orderly(cfg, failing, keep, tip), s, t) && OnlyWorked(s, t) && t.queue == s.queue - {b}
    ensures t.indexed.Keys == if b in failing then s.indexed.Keys else s.indexed.Keys + {b}
    ensures MarksFrom(s.marks, b, t.marks)
  {
    if PointLookup(s.indexed, b) || b in failing {
      BlockDropped(cfg, failing, keep, tip, s, w, b, plan);
      t := s.(queue := s.queue - {b});
    } else {
      var rows := OneBlockIndexed(cfg, failing, keep, tip, s, w, b, plan);
      t := WithIndexed(s, b, rows);
    }
  }

  /** The queue has been cleared from `low` on, and of what was there the good blocks are indexed. */
  predicate ClearedFrom(queue: set<nat>, marked: set<nat>, failing: set<nat>, low: nat, queue': set<nat>, marked': set<nat>) {
    queue' == queue - AtLeast(queue, low) && marked' == marked + (AtLeast(queue, low) - failing)
  }

  lemma ClearedOneMore(
      queue: set<nat>, marked: set<nat>, failing: set<nat>, low: nat, b: nat, queue': set<nat>, marked': set<nat>)
    requires b in queue && b >= low
    requires ClearedFrom(queue - {b}, if b in failing then marked else marked + {b}, failing, low, queue', marked')
    ensures ClearedFrom(queue, marked, failing, low, queue', marked')
  {
    assert AtLeast(queue, low) == AtLeast(queue - {b}, low) + {b};
  }

  lemma HighestIsAtLeast(queue: set<nat>, low: nat) returns (b: nat)
    requires AtLeast(queue, low) != {}
    ensures IsMaximum(b, queue) && b >= low
  {
    var x :| x in AtLeast(queue, low);
    b := MaximumExists(queue);
  }

  /** One worker takes all blocks of the queue from `low` on: good ones get indexed, failing ones fail. */
  lemma {:induction false} ClearFrom(
      cfg: Config, failing: set<nat>, keep: set<nat>, tip: nat, s: State, w: nat, low: nat, plan: P.Attempt)
      returns (t: State)
    requires IdleWorker(s, w) && cfg.collectData && Feasible(plan)
    requires keep <= s.queue && forall x :: x in keep ==> x < low
    ensures Leads(cfg, Orderly(cfg, failing, keep, tip), s, t) && OnlyWorked(s, t)
    ensures ClearedFrom(s.queue, s.indexed.Keys, failing, low, t.queue, t.indexed.Keys)
    ensures MarksFrom(s.marks, low, t.marks)
    decreases |s.queue|
  {
    if AtLeast(s.queue, low) == {} {
      t := s;
      LeadsSelf(cfg, Orderly(cfg, failing, keep, tip), s);
    } else {
      var b := HighestIsAtLeast(s.queue, low);
      var s1 := TakeOne(cfg, failing, keep, tip, s, w, b, plan);
      t := ClearFrom(cfg, failing, keep, tip, s1, w, low, plan);
      MarksFromTransitive(s.marks, b, s1.marks, low, t.marks);
      ClearedOneMore(s.queue, s.indexed.Keys, failing, low, b, t.queue, t.indexed.Keys);
      LeadsTransitive(cfg, Orderly(cfg, failing, keep, tip), s, s1, t);
    }
  }

  // ----- Publishers

  /** The same rule, while publisher p is searching. */
  function Searching(rule: Rule, p: nat): Rule {
    (s, ev) => rule(s, ev) && p in s.publishers && Sweeping(s.publishers[p])
  }

  function WithPublisher(s: State, p: nat, pub: Publisher, queue: set<nat>): State {
    s.(publishers := s.publishers[p := pub], queue := queue)
  }

  /** The search has gone on from one state of the publisher and the queue to another. */
  predicate SearchedOn(cfg: Config, pub: Publisher, queue: set<nat>, pub': Publisher, queue': set<nat>) {
    && Sweeping(pub) && Sweeping(pub') && pub'.cursor == pub.cursor
    && SweepOf(pub').base == SweepOf(pub).base && SweepOf(pub').maxBlock == SweepOf(pub).maxBlock
    && SweepOf(pub).added <= SweepOf(pub').added && queue' == queue + (SweepOf(pub').added - SweepOf(pub).added)
  }

  lemma SearchStep(cfg: Config, s: State, p: nat) returns (ev: PubEvent, pub: Publisher, queue: set<nat>)
    requires p in s.publishers && Sweeping(s.publishers[p]) && !Completes(cfg, s, p)
    requires SweepOf(s.publishers[p]).added <= s.queue
    ensures (ev.Window? || ev.Search?) && PubCan(s, p, ev) && PubDo(cfg, s, p, ev) == WithPublisher(s, p, pub, queue)
    ensures SearchedOn(cfg, s.publishers[p], s.queue, pub, queue) && SweepOf(pub).added <= queue
    ensures SearchSteps(cfg, pub) < SearchSteps(cfg, s.publishers[p])
  {
    ev := if s.publishers[p].pc.ReadWindow? then Window else Search;
    pub, queue := PubAfter(cfg, s, p, ev), PubDo(cfg, s, p, ev).queue;
  }

  lemma SearchedOnTransitive(
      cfg: Config, pub: Publisher, queue: set<nat>, pub1: Publisher, queue1: set<nat>, pub2: Publisher, queue2: set<nat>)
    requires SearchedOn(cfg, pub, queue, pub1, queue1) && SearchedOn(cfg, pub1, queue1, pub2, queue2)
    ensures SearchedOn(cfg, pub, queue, pub2, queue2)
  {
  }

  /** A search in s that is sound, and has brought publisher and queue from there to t. */
  ghost predicate SearchGoesTo(cfg: Config, s: State, p: nat, t: State) {
    && p in s.publishers && p in t.publishers
    && SearchedOn(cfg, s.publishers[p], s.queue, t.publishers[p], t.queue)
    && t == WithPublisher(s, p, t.publishers[p], t.queue)
  }

  ghost predicate SoundSearch(cfg: Config, s: State, p: nat) {
    && p in s.publishers && Sweeping(s.publishers[p]) && SweepOf(s.publishers[p]).added <= s.queue
    && PubOk(cfg, s.publishers[p], s.indexed.Keys)
  }

  lemma SearchAdvancesTo(cfg: Config, s: State, p: nat) returns (ev: PubEvent, t: State)
    requires SoundSearch(cfg, s, p) && !Completes(cfg, s, p)
    ensures (ev.Window? || ev.Search?) && PubCan(s, p, ev) && PubDo(cfg, s, p, ev) == t
    ensures SearchGoesTo(cfg, s, p, t) && SoundSearch(cfg, t, p) && s.queue <= t.queue
    ensures SearchSteps(cfg, t.publishers[p]) < SearchSteps(cfg, s.publishers[p])
  {
    var pub, queue;
    ev, pub, queue := SearchStep(cfg, s, p);
    PubOkOwn(cfg, s, p, ev);
    t := WithPublisher(s, p, pub, queue);
    assert t.publishers[p] == pub;
  }

  lemma SearchLeads(cfg: Config, failing: set<nat>, keep: set<nat>, tip: nat, s: State, p: nat) returns (t: State)
    requires SoundSearch(cfg, s, p) && keep <= s.queue && !Completes(cfg, s, p)
    ensures Leads(cfg, Searching(Orderly(cfg, failing, keep, tip), p), s, t)
    ensures SearchGoesTo(cfg, s, p, t) && SoundSearch(cfg, t, p) && keep <= t.queue
    ensures SearchSteps(cfg, t.publishers[p]) < SearchSteps(cfg, s.publishers[p])
  {
    var ev;
    ev, t := SearchAdvancesTo(cfg, s, p);
    StepLeads(cfg, Searching(Orderly(cfg, failing, keep, tip), p), s, Pub(p, ev), t);
  }

  lemma SearchGoesOn(cfg: Config, s: State, p: nat, t: State, u: State)
    requires SearchGoesTo(cfg, s, p, t) && SearchGoesTo(cfg, t, p, u)
    ensures SearchGoesTo(cfg, s, p, u)
  {
    SearchedOnTransitive(cfg, s.publishers[p], s.queue, t.publishers[p], t.queue, u.publishers[p], u.queue);
  }

  /** A search runs to its end while nothing else happens. */
  lemma {:induction false} SearchRuns(cfg: Config, failing: set<nat>, keep: set<nat>, tip: nat, s: State, p: nat)
      returns (t: State)
    requires SoundSearch(cfg, s, p) && keep <= s.queue
    ensures Leads(cfg, Searching(Orderly(cfg, failing, keep, tip), p), s, t)
    ensures SearchGoesTo(cfg, s, p, t) && SoundSearch(cfg, t, p) && Completes(cfg, t, p)
    decreases SearchSteps(cfg, s.publishers[p])
  {
    var rule := Searching(Orderly(cfg, failing, keep, tip), p);
    if Completes(cfg, s, p) {
      t := s;
      LeadsSelf(cfg, rule, s);
    } else {
      var s1 := SearchLeads(cfg, failing, keep, tip, s, p);
      t := SearchRuns(cfg, failing, keep, tip, s1, p);
      SearchGoesOn(cfg, s, p, s1, t);
      LeadsTransitive(cfg, rule, s, s1, t);
    }
  }

  /** A publisher can always return to the beginning of its loop, if only by not getting a header. */
  function ToTop(pub: Publisher): PubEvent
    requires !pub.pc.Top?
  {
    match pub.pc
    case ReadIndex => UpdateCursor
    case SaveCursor => Save
    case ReadHeader => Header(None)
    case ReadWindow(sw) => Window
    case Scan(sw, view) => Search
  }

  function StepsToTop(cfg: Config, pub: Publisher): nat {
    match pub.pc
    case Top => 0
    case ReadIndex => 3
    case SaveCursor => 2
    case ReadHeader => 1
    case _ => SearchSteps(cfg, pub)
  }

  lemma ToTopStep(cfg: Config, s: State, p: nat)
    requires p in s.publishers && !s.publishers[p].pc.Top?
    ensures PubCan(s, p, ToTop(s.publishers[p]))
    ensures StepsToTop(cfg, PubAfter(cfg, s, p, ToTop(s.publishers[p]))) < StepsToTop(cfg, s.publishers[p])
    ensures s.queue <= PubDo(cfg, s, p, ToTop(s.publishers[p])).queue
  {
  }

  lemma {:induction false} PublisherParks(cfg: Config, failing: set<nat>, keep: set<nat>, tip: nat, s: State, p: nat)
      returns (t: State)
    requires p in s.publishers && keep <= s.queue
    ensures Leads(cfg, Orderly(cfg, failing, keep, tip), s, t)
    ensures p in t.publishers && t.publishers[p].pc.Top? && t.workers == s.workers && keep <= t.queue
    decreases StepsToTop(cfg, s.publishers[p])
  {
    var rule := Orderly(cfg, failing, keep, tip);
    if s.publishers[p].pc.Top? {
      t := s;
      LeadsSelf(cfg, rule, s);
    } else {
      ToTopStep(cfg, s, p);
      var ev := Pub(p, ToTop(s.publishers[p]));
      t := PublisherParks(cfg, failing, keep, tip, Do(cfg, s, ev), p);
      LeadsFirst(cfg, rule, s, ev, t);
    }
  }

  /** A round up to the read of the header: the cursor is moved and saved. */
  function BeforeHeader(cfg: Config, s: State, p: nat): State
    requires p in s.publishers
  {
    var cursor := CursorAfter(s.indexed.Keys, s.publishers[p].cursor, cfg.batchSize);
    s.(publishers := s.publishers[p := Publisher(cursor, ReadHeader)], saved := Some(cursor))
  }

  lemma RoundStarts(cfg: Config, failing: set<nat>, keep: set<nat>, tip: nat, s: State, p: nat)
    requires p in s.publishers && s.publishers[p].pc.Top? && |s.queue| < cfg.batchSize && keep <= s.queue
    ensures Leads(cfg, Orderly(cfg, failing, keep, tip), s, BeforeHeader(cfg, s, p))
  {
    var rule := Orderly(cfg, failing, keep, tip);
    var pub := s.publishers[p];
    var cursor := CursorAfter(s.indexed.Keys, pub.cursor, cfg.batchSize);
    var s1 := s.(publishers := s.publishers[p := Publisher(pub.cursor, ReadIndex)]);
    var s2 := s.(publishers := s.publishers[p := Publisher(cursor, SaveCursor)]);
    StepLeads(cfg, rule, s, Pub(p, Length), s1);
    assert Do(cfg, s1, Pub(p, UpdateCursor)).publishers == s2.publishers;
    StepLeads(cfg, rule, s1, Pub(p, UpdateCursor), s2);
    assert Do(cfg, s2, Pub(p, Save)).publishers == BeforeHeader(cfg, s, p).publishers;
    StepLeads(cfg, rule, s2, Pub(p, Save), BeforeHeader(cfg, s, p));
    LeadsTransitive(cfg, rule, s1, s2, BeforeHeader(cfg, s, p));
    LeadsTransitive(cfg, rule, s, s1, BeforeHeader(cfg, s, p));
  }

  /** The batch from the header on, and what it has enqueued. */
  lemma BatchRuns(
      cfg: Config, failing: set<nat>, keep: set<nat>, tip: nat, h: State, p: nat, latest: nat)
      returns (x: State)
    requires p in h.publishers && h.publishers[p].pc.ReadHeader? && keep <= h.queue
    ensures Can(cfg, h, Pub(p, Header(Some(latest))))
    ensures Leads(cfg, Searching(Orderly(cfg, failing, keep, tip), p), Do(cfg, h, Pub(p, Header(Some(latest)))), x)
    ensures Completes(cfg, x, p) && PubOk(cfg, x.publishers[p], x.indexed.Keys)
    ensures x == WithPublisher(h, p, x.publishers[p], h.queue + SweepOf(x.publishers[p]).added)
    ensures x.publishers[p].cursor == h.publishers[p].cursor && SweepOf(x.publishers[p]).base == h.indexed.Keys
    ensures SweepOf(x.publishers[p]).maxBlock == MaxBlock(latest, cfg.tipBuffer)
  {
    var ev := Pub(p, Header(Some(latest)));
    BatchBeginsEmpty(cfg, h, ev, p, MaxBlock(latest, cfg.tipBuffer));
    x := SearchRuns(cfg, failing, keep, tip, Do(cfg, h, ev), p);
  }

  /** After a batch has been completed, publisher p is at the beginning of its loop. */
  function AfterBatch(x: State, p: nat): State
    requires p in x.publishers
  {
    WithPublisher(x, p, Publisher(x.publishers[p].cursor, Top), x.queue)
  }

  lemma BatchEnds(cfg: Config, x: State, p: nat)
    requires Completes(cfg, x, p)
    ensures Can(cfg, x, Pub(p, Window)) && Do(cfg, x, Pub(p, Window)) == AfterBatch(x, p)
  {
  }

  lemma BatchLeads(cfg: Config, failing: set<nat>, keep: set<nat>, tip: nat, h: State, p: nat, latest: nat, x: State)
    requires MaxBlock(latest, cfg.tipBuffer) <= tip && keep <= h.queue && keep <= x.queue
    requires Can(cfg, h, Pub(p, Header(Some(latest)))) && Completes(cfg, x, p)
    requires Leads(cfg, Searching(Orderly(cfg, failing, keep, tip), p), Do(cfg, h, Pub(p, Header(Some(latest)))), x)
    ensures Leads(cfg, Orderly(cfg, failing, keep, tip), h, AfterBatch(x, p))
  {
    var rule, ev := Orderly(cfg, failing, keep, tip), Pub(p, Header(Some(latest)));
    LeadsWeaken(cfg, Searching(rule, p), rule, Do(cfg, h, ev), x);
    BatchEnds(cfg, x, p);
    StepLeads(cfg, rule, x, Pub(p, Window), AfterBatch(x, p));
    LeadsTransitive(cfg, rule, Do(cfg, h, ev), x, AfterBatch(x, p));
    LeadsFirst(cfg, rule, h, ev, AfterBatch(x, p));
  }
}
