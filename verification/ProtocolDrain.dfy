/**
 Workers get somewhere. The steps that workers can take are bounded by the pops, and these by
 what was queued and what is enqueued meanwhile; as long as anything is queued or being
 processed, one of them can take a step. So the queue runs empty if nothing more is enqueued.
 With the publishers going on, a queued block still gets its turn, provided that no higher
 block below the tip fails; `ProtocolStarvation` shows that it need not otherwise.
 */
module ProtocolDrain {
  import opened Prelude
  import opened Protocol
  import opened ProtocolSafety
  import opened ProtocolWaiting
  import PP = PipelineProgress
  import P = Pipeline

  // ----- A bound on the steps of workers

  /** Steps of this many attempts, with at most `size` steps each and one to end it. */
  function AttemptSteps(attempts: nat, size: nat): nat {
    if attempts == 0 then 0 else AttemptSteps(attempts - 1, size) + size + 1
  }

  /** Steps that one block can take from its pop on. */
  function BlockSteps(cfg: Config, size: nat): nat {
    AttemptSteps(Max(cfg.maxAttempts, 1), size) + 3
  }

  function AttemptsLeft(cfg: Config, attempt: nat): nat {
    if attempt < cfg.maxAttempts then cfg.maxAttempts - attempt else 0
  }

  /** Steps that a worker can still take for the block in its hands. */
  function StepsLeft(cfg: Config, size: nat, pc: WorkerPc): nat {
    match pc
    case Idle => 0
    case Popped(b) => BlockSteps(cfg, size) - 1
    case Running(b, n, e, run) => AttemptSteps(AttemptsLeft(cfg, n), size) + PP.Measure(run) + 2
    case Marking(b, e, run) => 1
  }

  function WorkersLeft(cfg: Config, size: nat, workers: map<nat, Worker>, n: nat): nat {
    if n == 0 then 0
    else WorkersLeft(cfg, size, workers, n - 1)
         + if n - 1 in workers then StepsLeft(cfg, size, workers[n - 1].pc) else 0
  }

  /** The worker keeps running, and a new attempt has at most `size` steps and 100 processors. */
  predicate SteadyWork(ev: WorkEvent, size: nat) {
    match ev
    case Reboot => false
    case Cancel => false
    case Lookup(plan) => PP.Measure(plan) <= size && PP.FewProcessors(plan)
    case End(plan) => PP.Measure(plan) <= size && PP.FewProcessors(plan)
    case _ => true
  }

  predicate Steady(ev: Event, size: nat) {
    ev.Work? ==> SteadyWork(ev.work, size)
  }

  lemma {:induction false} WorkersLeftUpdate(
      cfg: Config, size: nat, workers: map<nat, Worker>, n: nat, w: nat, after: Worker)
    requires w in workers && w < n
    ensures WorkersLeft(cfg, size, workers[w := after], n) + StepsLeft(cfg, size, workers[w].pc)
         == WorkersLeft(cfg, size, workers, n) + StepsLeft(cfg, size, after.pc)
  {
    if w == n - 1 {
      WorkersLeftSame(cfg, size, workers, n - 1, w, after);
    } else {
      WorkersLeftUpdate(cfg, size, workers, n - 1, w, after);
    }
  }

  lemma {:induction false} WorkersLeftSame(
      cfg: Config, size: nat, workers: map<nat, Worker>, n: nat, w: nat, after: Worker)
    requires n <= w
    ensures WorkersLeft(cfg, size, workers[w := after], n) == WorkersLeft(cfg, size, workers, n)
  {
    if n == 0 {
    } else {
      WorkersLeftSame(cfg, size, workers, n - 1, w, after);
    }
  }

  /** A worker's step uses up at least one of the steps counted for its block. */
  lemma StepUsed(cfg: Config, s: State, w: nat, ev: WorkEvent, size: nat)
    requires WorkerCan(cfg, s, w, ev) && SteadyWork(ev, size)
    ensures StepsLeft(cfg, size, WorkerAfter(cfg, s, w, ev).pc) + 1
         <= StepsLeft(cfg, size, s.workers[w].pc) + if ev.Pop? then BlockSteps(cfg, size) else 0
  {
    var pc := s.workers[w].pc;
    match ev {
      case Lookup(plan) => assert AttemptsLeft(cfg, 1) == Max(cfg.maxAttempts, 1) - 1;
      case Run(act) => PP.MeasureDecreases(pc.run, act);
      case End(plan) =>
        assert pc.attempt < cfg.maxAttempts ==> AttemptsLeft(cfg, pc.attempt + 1) == AttemptsLeft(cfg, pc.attempt) - 1;
      case _ =>
    }
  }

  lemma WorkStep(cfg: Config, s: State, ev: Event, size: nat, n: nat)
    requires Can(cfg, s, ev) && Steady(ev, size)
    requires forall w :: w in s.workers ==> w < n
    ensures Do(cfg, s, ev).workers.Keys == s.workers.Keys
    ensures WorkersLeft(cfg, size, Do(cfg, s, ev).workers, n) + (if ev.Work? then 1 else 0)
         <= WorkersLeft(cfg, size, s.workers, n) + if IsPop(ev) then BlockSteps(cfg, size) else 0
  {
    match ev {
      case Pub(p, e) => assert Do(cfg, s, ev).workers == s.workers;
      case Work(w, e) =>
        StepUsed(cfg, s, w, e, size);
        WorkersLeftUpdate(cfg, size, s.workers, n, w, WorkerAfter(cfg, s, w, e));
      case Other(e) => assert Do(cfg, s, ev).workers == s.workers;
    }
  }

  predicate SteadyDuring(events: seq<Event>, size: nat, i: nat, j: nat)
    requires j <= |events|
  {
    forall k {:trigger events[k]} :: i <= k < j ==> Steady(events[k], size)
  }

  /** How many of the events from position i up to j are steps of workers. */
  function WorkSteps(events: seq<Event>, i: nat, j: nat): nat
    requires j <= |events|
  {
    if j <= i then 0 else WorkSteps(events, i, j - 1) + if events[j - 1].Work? then 1 else 0
  }

  /** Steps that this many pops give rise to, at most. */
  function StepsFor(cfg: Config, size: nat, pops: nat): nat {
    if pops == 0 then 0 else StepsFor(cfg, size, pops - 1) + BlockSteps(cfg, size)
  }

  lemma {:induction false} StepsForProduct(cfg: Config, size: nat, pops: nat)
    ensures StepsFor(cfg, size, pops) == pops * BlockSteps(cfg, size)
  {
    if pops == 0 {
    } else {
      StepsForProduct(cfg, size, pops - 1);
    }
  }

  /** Whatever publishers do: workers take as many steps as they had left, and a bounded number for each pop. */
  lemma {:induction false} WorkIsBounded(
      cfg: Config, states: seq<State>, events: seq<Event>, size: nat, n: nat, i: nat, j: nat)
    requires IsTrace(cfg, states, events) && i <= j < |states| && SteadyDuring(events, size, i, j)
    requires forall w :: w in states[i].workers ==> w < n
    ensures states[j].workers.Keys == states[i].workers.Keys
    ensures WorkSteps(events, i, j) + WorkersLeft(cfg, size, states[j].workers, n)
         <= WorkersLeft(cfg, size, states[i].workers, n) + StepsFor(cfg, size, PopCount(events, i, j))
    decreases j
  {
    if i == j {
    } else {
      WorkIsBounded(cfg, states, events, size, n, i, j - 1);
      WorkStep(cfg, states[j - 1], events[j - 1], size, n);
    }
  }

  // ----- A bound on the pops

  /** How many of the events from position i up to j put a block in the queue that was not there. */
  function AddCount(states: seq<State>, i: nat, j: nat): nat
    requires j < |states|
  {
    if j <= i then 0 else AddCount(states, i, j - 1) + if states[j].queue <= states[j - 1].queue then 0 else 1
  }

  /** A queue gets one block more, or one less by a pop, or stays as it is. */
  ghost predicate OneChange(queue: set<nat>, queue': set<nat>, popped: Option<nat>) {
    if popped.Some? then popped.value in queue && queue' == queue - {popped.value}
    else queue' == queue || exists b :: queue' == queue + {b}
  }

  lemma OneChangeCount(queue: set<nat>, queue': set<nat>, popped: Option<nat>)
    requires OneChange(queue, queue', popped)
    ensures |queue'| + (if popped.Some? then 1 else 0) <= |queue| + if queue' <= queue then 0 else 1
  {
    if popped.None? && queue' != queue {
      var b :| queue' == queue + {b};
    }
  }

  lemma SearchAddsOne(cfg: Config, s: State, p: nat, ev: PubEvent)
    requires PubCan(s, p, ev)
    ensures OneChange(s.queue, PubDo(cfg, s, p, ev).queue, None)
  {
    if ev.Search? && ScanEnqueues(cfg, s.publishers[p]) != {} {
      assert ScanEnqueues(cfg, s.publishers[p]) == {s.publishers[p].pc.sweep.block};
    } else {
      assert PubDo(cfg, s, p, ev).queue == s.queue;
    }
  }

  lemma OtherAddsOne(s: State, ev: OtherEvent)
    requires OtherCan(s, ev)
    ensures OneChange(s.queue, OtherDo(s, ev).queue, None)
  {
    if OtherBlock(s, Other(ev)).Some? {
      assert OtherDo(s, ev).queue == s.queue + {OtherBlock(s, Other(ev)).value};
    }
  }

  lemma QueueChange(cfg: Config, s: State, ev: Event)
    requires Can(cfg, s, ev)
    ensures OneChange(s.queue, Do(cfg, s, ev).queue, PoppedBlock(ev))
  {
    match ev {
      case Pub(p, e) => SearchAddsOne(cfg, s, p, e);
      case Work(w, e) => assert WorkerDo(cfg, s, w, e).queue == if e.Pop? then s.queue - {e.block} else s.queue;
      case Other(e) => OtherAddsOne(s, e);
    }
  }

  lemma {:induction false} PopsAreAdded(cfg: Config, states: seq<State>, events: seq<Event>, i: nat, j: nat)
    requires IsTrace(cfg, states, events) && i <= j < |states|
    ensures PopCount(events, i, j) + |states[j].queue| <= |states[i].queue| + AddCount(states, i, j)
    decreases j
  {
    if i == j {
    } else {
      PopsAreAdded(cfg, states, events, i, j - 1);
      QueueChange(cfg, states[j - 1], events[j - 1]);
      OneChangeCount(states[j - 1].queue, states[j].queue, PoppedBlock(events[j - 1]));
    }
  }

  // ----- Work stops only when nothing is left

  /** Attempts in progress have at most 100 processors, and no worker is being stopped. */
  predicate Working(s: State) {
    forall w :: w in s.workers ==> WorkingWorker(s.workers[w])
  }

  predicate WorkingWorker(w: Worker) {
    !w.cancelled && (w.pc.Running? ==> PP.FewProcessors(w.pc.run))
  }

  lemma WorkerKeepsWorking(cfg: Config, s: State, w: nat, ev: WorkEvent, size: nat)
    requires WorkerCan(cfg, s, w, ev) && SteadyWork(ev, size) && WorkingWorker(s.workers[w])
    ensures WorkingWorker(WorkerAfter(cfg, s, w, ev))
  {
  }

  lemma WorkingStep(cfg: Config, s: State, ev: Event, size: nat)
    requires Working(s) && Can(cfg, s, ev) && Steady(ev, size)
    ensures Working(Do(cfg, s, ev))
  {
    if ev.Work? {
      WorkerKeepsWorking(cfg, s, ev.w, ev.work, size);
      assert Do(cfg, s, ev).workers == s.workers[ev.w := WorkerAfter(cfg, s, ev.w, ev.work)];
    } else {
      assert Do(cfg, s, ev).workers == s.workers;
    }
  }

  lemma {:induction false} WorkingTrace(
      cfg: Config, states: seq<State>, events: seq<Event>, size: nat, i: nat, j: nat)
    requires IsTrace(cfg, states, events) && i <= j < |states| && SteadyDuring(events, size, i, j)
    requires Working(states[i])
    ensures Working(states[j])
    decreases j
  {
    if i == j {
    } else {
      WorkingTrace(cfg, states, events, size, i, j - 1);
      WorkingStep(cfg, states[j - 1], events[j - 1], size);
    }
  }

  /** A step bound to happen: it needs neither an error nor a cancellation, nor a restart. */
  predicate BoundToHappen(cfg: Config, s: State, w: nat, ev: WorkEvent) {
    WorkerCan(cfg, s, w, ev) && !ev.Reboot? && !ev.Cancel? &&
    (ev.Run? ==> PP.Guaranteed(s.workers[w].pc.run, ev.act))
  }

  lemma BusyWorkerGoesOn(cfg: Config, s: State, w: nat, plan: P.Attempt) returns (ev: WorkEvent)
    requires WorkerInv(s) && Working(s) && w in s.workers && !s.workers[w].pc.Idle? && IsPlan(plan, false)
    ensures BoundToHappen(cfg, s, w, ev) && (ev.Lookup? || ev.End? ==> ev.plan == plan)
  {
    var worker := s.workers[w];
    assert WorkerOk(worker, s.output);
    match worker.pc {
      case Popped(b) => ev := Lookup(plan);
      case Running(b, n, e, run) =>
        if P.Ended(run) {
          ev := End(plan);
        } else {
          var act := PP.GoesOn(run);
          ev := Run(act);
        }
      case Marking(b, e, run) => ev := SetIndexed(cfg.collectData);
    }
  }

  /** Nothing queued and no worker busy. */
  predicate Quiet(s: State) {
    s.queue == {} && forall w :: w in s.workers ==> s.workers[w].pc.Idle?
  }

  lemma WorkGoesOn(cfg: Config, s: State, plan: P.Attempt) returns (w: nat, ev: WorkEvent)
    requires WorkerInv(s) && Working(s) && s.workers != map[] && !Quiet(s) && IsPlan(plan, false)
    ensures BoundToHappen(cfg, s, w, ev) && (ev.Lookup? || ev.End? ==> ev.plan == plan)
  {
    if v :| v in s.workers && !s.workers[v].pc.Idle? {
      w := v;
      ev := BusyWorkerGoesOn(cfg, s, w, plan);
    } else {
      w :| w in s.workers;
      var b := MaximumExists(s.queue);
      ev := Pop(b);
    }
  }

  lemma {:induction false} GoesOnAt(
      cfg: Config, states: seq<State>, events: seq<Event>, size: nat, i: nat, j: nat, plan: P.Attempt)
    requires IsRun(cfg, states, events) && i <= j < |states| && SteadyDuring(events, size, i, j)
    requires Working(states[i]) && states[j].workers != map[] && IsPlan(plan, false)
    ensures Quiet(states[j]) || exists w, ev :: BoundToHappen(cfg, states[j], w, ev)
  {
    WorkingTrace(cfg, states, events, size, i, j);
    InvAt(cfg, states, events, j);
    if !Quiet(states[j]) {
      var w, ev := WorkGoesOn(cfg, states[j], plan);
    }
  }

  lemma NoneAreLost(workers: map<nat, Worker>, workers': map<nat, Worker>)
    requires workers.Keys == workers'.Keys && workers != map[]
    ensures workers' != map[]
  {
    var w :| w in workers;
    assert w in workers';
  }

  lemma StillSomeWorkers(
      cfg: Config, states: seq<State>, events: seq<Event>, size: nat, n: nat, i: nat, j: nat)
    requires IsTrace(cfg, states, events) && i <= j < |states| && SteadyDuring(events, size, i, j)
    requires (forall w :: w in states[i].workers ==> w < n) && states[i].workers != map[]
    ensures states[j].workers != map[]
  {
    WorkIsBounded(cfg, states, events, size, n, i, j);
    NoneAreLost(states[i].workers, states[j].workers);
  }

  // ----- Main results

  /**
   From any reachable state in which no worker is being stopped, whatever publishers do:
   workers 0 to n - 1 take at most as many steps as they had left, and a bounded number for
   each pop; there are no more pops than blocks that were queued or are enqueued meanwhile.
   A step is bound to happen until the queue is empty and all workers are idle, so that a
   drain ends if enqueueing does.
   */
  lemma {:induction false} DrainEnds(
      cfg: Config, states: seq<State>, events: seq<Event>, size: nat, n: nat, i: nat, j: nat, plan: P.Attempt)
    requires IsRun(cfg, states, events) && i <= j < |states| && SteadyDuring(events, size, i, j)
    requires Working(states[i]) && states[i].workers != map[] && IsPlan(plan, false)
    requires forall w :: w in states[i].workers ==> w < n
    ensures WorkSteps(events, i, j) <= WorkersLeft(cfg, size, states[i].workers, n) + StepsFor(cfg, size, PopCount(events, i, j))
    ensures PopCount(events, i, j) <= |states[i].queue| + AddCount(states, i, j)
    ensures Quiet(states[j]) || exists w, ev :: BoundToHappen(cfg, states[j], w, ev)
  {
    WorkIsBounded(cfg, states, events, size, n, i, j);
    PopsAreAdded(cfg, states, events, i, j);
    StillSomeWorkers(cfg, states, events, size, n, i, j);
    GoesOnAt(cfg, states, events, size, i, j, plan);
  }

  /**
   A queued block gets its turn although the publishers go on: as long as b stays queued,
   workers take a bounded number of steps for each pop, and the pops are bounded, if no block
   between b and the tip fails; and a worker is bound to take a step. Only higher blocks of
   chain-tip and manual publishers count against b, one by one.
   */
  lemma {:induction false} QueuedBlockLeaves(
      cfg: Config, states: seq<State>, events: seq<Event>, failing: set<nat>, tip: nat, b: nat,
      size: nat, n: nat, i: nat, j: nat, plan: P.Attempt)
    requires IsRun(cfg, states, events) && i <= j < |states| && SteadyDuring(events, size, i, j)
    requires SettledDuring(cfg, states, events, failing, tip, i, j)
    requires Working(states[i]) && states[i].workers != map[] && IsPlan(plan, false)
    requires forall w :: w in states[i].workers ==> w < n
    requires SearchesWithin(states[i], tip) && b < tip && NoneFails(failing, b + 1, tip)
    requires forall k :: i <= k <= j ==> b in states[k].queue
    ensures WorkSteps(events, i, j) <= WorkersLeft(cfg, size, states[i].workers, n) + StepsFor(cfg, size, PopCount(events, i, j))
    ensures PopCount(events, i, j) <= TicketsAbove(cfg, states[i], b, tip) + OtherCount(states, events, b, i, j)
    ensures exists w, ev :: BoundToHappen(cfg, states[j], w, ev)
  {
    WorkIsBounded(cfg, states, events, size, n, i, j);
    PopsAreBounded(cfg, states, events, failing, tip, b, i, j);
    StillSomeWorkers(cfg, states, events, size, n, i, j);
    GoesOnAt(cfg, states, events, size, i, j, plan);
    assert b in states[j].queue;
  }

  /** How many of the events from position i up to j are steps of worker w. */
  function OwnWork(events: seq<Event>, w: nat, i: nat, j: nat): nat
    requires j <= |events|
  {
    if j <= i then 0 else OwnWork(events, w, i, j - 1) + if events[j - 1].Work? && events[j - 1].w == w then 1 else 0
  }

  lemma HolderStep(cfg: Config, s: State, ev: Event, size: nat, w: nat)
    requires Can(cfg, s, ev) && Steady(ev, size) && w in s.workers && !s.workers[w].pc.Idle?
    ensures w in Do(cfg, s, ev).workers
    ensures StepsLeft(cfg, size, Do(cfg, s, ev).workers[w].pc) + (if ev.Work? && ev.w == w then 1 else 0)
         <= StepsLeft(cfg, size, s.workers[w].pc)
  {
    match ev {
      case Pub(p, e) => assert Do(cfg, s, ev).workers == s.workers;
      case Work(v, e) =>
        StepUsed(cfg, s, v, e, size);
        assert Do(cfg, s, ev).workers == s.workers[v := WorkerAfter(cfg, s, v, e)];
      case Other(e) => assert Do(cfg, s, ev).workers == s.workers;
    }
  }

  lemma {:induction false} HeldIsBounded(
      cfg: Config, states: seq<State>, events: seq<Event>, size: nat, w: nat, i: nat, j: nat)
    requires IsTrace(cfg, states, events) && i <= j < |states| && SteadyDuring(events, size, i, j)
    requires forall k :: i <= k <= j ==> w in states[k].workers && !states[k].workers[w].pc.Idle?
    ensures OwnWork(events, w, i, j) + StepsLeft(cfg, size, states[j].workers[w].pc)
         <= StepsLeft(cfg, size, states[i].workers[w].pc)
    decreases j
  {
    if i == j {
    } else {
      HeldIsBounded(cfg, states, events, size, w, i, j - 1);
      HolderStep(cfg, states[j - 1], events[j - 1], size, w);
    }
  }

  /**
   A popped block is done with after a bounded number of its worker's steps, and until then
   the worker has a step that is bound to happen.
   */
  lemma {:induction false} HeldBlockLeaves(
      cfg: Config, states: seq<State>, events: seq<Event>, size: nat, w: nat, i: nat, j: nat, plan: P.Attempt)
    requires IsRun(cfg, states, events) && i <= j < |states| && SteadyDuring(events, size, i, j)
    requires Working(states[i]) && IsPlan(plan, false)
    requires forall k :: i <= k <= j ==> w in states[k].workers && !states[k].workers[w].pc.Idle?
    ensures OwnWork(events, w, i, j) <= StepsLeft(cfg, size, states[i].workers[w].pc)
    ensures exists ev :: BoundToHappen(cfg, states[j], w, ev)
  {
    HeldIsBounded(cfg, states, events, size, w, i, j);
    WorkingTrace(cfg, states, events, size, i, j);
    InvAt(cfg, states, events, j);
    var ev := BusyWorkerGoesOn(cfg, states[j], w, plan);
  }
}
