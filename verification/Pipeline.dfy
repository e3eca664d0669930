/**
 One attempt at a block: `Run`, with its two tasks, as a transition system.

 The spawner loads the processors through a channel of 100 slots, runs the producers
 (every goroutine that sends rows), waits for all of them, closes the row channel and
 returns. The collector receives rows until the channel is closed and empty, or until
 the attempt's context is done, and then writes what it has. The first task that
 returns an error cancels the attempt's context; so does the worker's own context.

 Every action below is one indivisible step of one goroutine, and all interleavings
 are allowed.
 */
module Pipeline {

  const ROW_SLOTS: nat := 1000
  const PROCESSOR_SLOTS: nat := 100

  datatype OutRow = OutRow(id: string, data: string)

  /**
   A goroutine that sends rows. Sending means that it is inside the channel send, which
   does not watch any context: such a producer can neither fail nor be cancelled.
   */
  datatype Producer =
    | Working(todo: seq<OutRow>)
    | Sending(row: OutRow, rest: seq<OutRow>)
    | Done(ok: bool)

  datatype Spawner =
    | Loading(processors: nat)                               // EnableCaching and loadBlock
    | Initializing(ready: nat, pending: nat, failing: bool)  // initializeProcessors
    | Producing                                              // processors are running
    | Closed                                                 // rowsChan closed, not yet returned
    | SpawnReturned(ok: bool)

  datatype Collector = Off | Draining | Writing | CollectReturned(ok: bool)

  datatype Attempt = Attempt(
    spawner: Spawner,
    producers: seq<Producer>,
    channel: seq<OutRow>,
    collector: Collector,
    taken: seq<OutRow>,    // received by the collector
    written: seq<OutRow>,  // accepted by the output
    sent: seq<OutRow>,     // sent by the producers, over the whole attempt
    closed: bool,          // rowsChan is closed
    failed: bool,          // some task of Run returned an error
    cancelled: bool        // the worker's context is done
  )

  datatype Action =
    | Load(ok: bool)
    | LoadProcessor              // a factory sends one processor on processorChan
    | FactoryError(lost: nat)    // a factory fails; its processors never come
    | EndInit
    | Begin(i: nat)              // producer i enters a channel send
    | Push(i: nat)               // the send completes
    | Stop(i: nat, ok: bool)     // producer i returns; a swallowed error counts as ok
    | CloseRows
    | ReturnSpawn
    | Take
    | SeeClosed
    | SeeDone
    | Write(ok: bool, n: nat)    // on an error, any prefix may have been written
    | Cancel

  predicate ContextDone(a: Attempt) {
    a.failed || a.cancelled
  }

  predicate AllDone(producers: seq<Producer>) {
    forall i :: 0 <= i < |producers| ==> producers[i].Done?
  }

  predicate AllOk(producers: seq<Producer>) {
    forall i :: 0 <= i < |producers| ==> producers[i].Done? && producers[i].ok
  }

  predicate Enabled(a: Attempt, act: Action) {
    match act
    case Load(ok) => a.spawner.Loading?
    case LoadProcessor => a.spawner.Initializing? && a.spawner.pending > 0 && a.spawner.ready < PROCESSOR_SLOTS
    case FactoryError(lost) => a.spawner.Initializing? && lost <= a.spawner.pending && (lost > 0 || !a.spawner.failing)
    case EndInit => a.spawner.Initializing? && a.spawner.pending == 0
    case Begin(i) => a.spawner.Producing? && i < |a.producers| && a.producers[i].Working? && a.producers[i].todo != []
    case Push(i) => a.spawner.Producing? && i < |a.producers| && a.producers[i].Sending? && |a.channel| < ROW_SLOTS
    case Stop(i, ok) => a.spawner.Producing? && i < |a.producers| && a.producers[i].Working?
    case CloseRows => a.spawner.Producing? && AllDone(a.producers)
    case ReturnSpawn => a.spawner.Closed?
    case Take => a.collector.Draining? && a.channel != []
    case SeeClosed => a.collector.Draining? && a.closed && a.channel == []
    case SeeDone => a.collector.Draining? && ContextDone(a)
    case Write(ok, n) => a.collector.Writing? && n <= |a.taken| && (ok ==> n == |a.taken|)
    case Cancel => !a.cancelled
  }

  function Apply(a: Attempt, act: Action): Attempt
    requires Enabled(a, act)
  {
    match act
    case Load(ok) =>
      if ok then a.(spawner := Initializing(0, a.spawner.processors, false), collector := Draining)
      else a.(spawner := SpawnReturned(false), collector := CollectReturned(false), failed := true)
    case LoadProcessor =>
      a.(spawner := Initializing(a.spawner.ready + 1, a.spawner.pending - 1, a.spawner.failing))
    case FactoryError(lost) =>
      a.(spawner := Initializing(a.spawner.ready, a.spawner.pending - lost, true))
    case EndInit =>
      if a.spawner.failing then a.(spawner := SpawnReturned(false), failed := true)
      else a.(spawner := Producing)
    case Begin(i) =>
      var p := a.producers[i];
      a.(producers := a.producers[i := Sending(p.todo[0], p.todo[1..])])
    case Push(i) =>
      var p := a.producers[i];
      a.(producers := a.producers[i := Working(p.rest)], channel := a.channel + [p.row], sent := a.sent + [p.row])
    case Stop(i, ok) =>
      a.(producers := a.producers[i := Done(ok)])
    case CloseRows =>
      a.(spawner := Closed, closed := true)
    case ReturnSpawn =>
      var ok := AllOk(a.producers);
      a.(spawner := SpawnReturned(ok), failed := a.failed || !ok)
    case Take =>
      a.(channel := a.channel[1..], taken := a.taken + [a.channel[0]])
    case SeeClosed => a.(collector := Writing)
    case SeeDone => a.(collector := Writing)
    case Write(ok, n) =>
      a.(collector := CollectReturned(ok), written := a.taken[..n], failed := a.failed || !ok)
    case Cancel => a.(cancelled := true)
  }

  /** A fresh attempt: any number of processors, any producers with any rows. */
  predicate Initial(a: Attempt) {
    && a.spawner.Loading? && a.collector.Off?
    && (forall i :: 0 <= i < |a.producers| ==> a.producers[i].Working?)
    && a.channel == a.taken == a.written == a.sent == []
    && !a.closed && !a.failed
  }

  /** Both tasks have returned, so `group.Wait` returns. */
  predicate Ended(a: Attempt) {
    a.spawner.SpawnReturned? && a.collector.CollectReturned?
  }

  /** `Run` returned nil. */
  predicate Succeeded(a: Attempt) {
    Ended(a) && !a.failed
  }

  predicate IsRun(states: seq<Attempt>, acts: seq<Action>) {
    && |states| == |acts| + 1
    && forall i {:trigger acts[i]} :: 0 <= i < |acts| ==> Enabled(states[i], acts[i]) && states[i + 1] == Apply(states[i], acts[i])
  }

  // ----- Safety

  /**
   The collector may have stopped receiving for one of these reasons only. Its own write
   error is not one of them, so the only task that can make it leave early is the spawner.
   */
  predicate MayLeave(a: Attempt) {
    (a.closed && a.channel == []) || a.spawner == SpawnReturned(false) || a.cancelled
  }

  ghost predicate Inv(a: Attempt) {
    && a.sent == a.taken + a.channel
    && |a.channel| <= ROW_SLOTS
    && (a.spawner.Loading? <==> a.collector.Off?)
    && (a.spawner.Initializing? ==> a.spawner.ready <= PROCESSOR_SLOTS)
    && (a.spawner.Loading? || a.spawner.Initializing? ==> a.sent == [])
    // The channel is closed by the spawner, after all producers are done.
    && (a.spawner.Loading? || a.spawner.Initializing? || a.spawner.Producing? ==> !a.closed)
    && (a.spawner.Closed? ==> a.closed)
    && (a.closed ==> AllDone(a.producers))
    && (a.spawner == SpawnReturned(true) ==> a.closed && AllOk(a.producers))
    // A task's error is the attempt's error.
    && (a.failed <==> a.spawner == SpawnReturned(false) || a.collector == CollectReturned(false))
    // The collector leaves early only when a task failed or the worker is being stopped.
    && (a.collector.Writing? || a.collector.CollectReturned? ==> MayLeave(a))
    && (a.collector == CollectReturned(true) ==> a.written == a.taken)
    && (!a.collector.CollectReturned? ==> a.written == [])
    && |a.written| <= |a.taken| && a.written == a.taken[..|a.written|]
  }

  lemma InvInitially(a: Attempt)
    requires Initial(a)
    ensures Inv(a)
  {
  }

  lemma InvStep(a: Attempt, act: Action)
    requires Inv(a) && Enabled(a, act)
    ensures Inv(Apply(a, act))
  {
    match act {
      case Push(i) => assert a.taken + a.channel + [a.producers[i].row] == a.taken + (a.channel + [a.producers[i].row]);
      case Take => assert a.taken + a.channel == (a.taken + [a.channel[0]]) + a.channel[1..];
      case _ =>
    }
  }

  lemma {:induction false} InvRun(states: seq<Attempt>, acts: seq<Action>)
    requires IsRun(states, acts) && Initial(states[0])
    ensures forall i :: 0 <= i < |states| ==> Inv(states[i])
    decreases |acts|
  {
    if acts == [] {
      InvInitially(states[0]);
    } else {
      var n := |acts| - 1;
      InvRun(states[..n + 1], acts[..n]);
      assert states[..n + 1][n] == states[n];
      InvStep(states[n], acts[n]);
    }
  }

  /** Something has gone wrong, and will be reported at the latest when both tasks have returned. */
  ghost predicate Doomed(a: Attempt) {
    || a.failed || (a.spawner.Initializing? && a.spawner.failing)
    || exists i :: 0 <= i < |a.producers| && a.producers[i] == Done(false)
  }

  predicate IsError(act: Action) {
    act == Load(false) || act.FactoryError? || (act.Stop? && !act.ok) || (act.Write? && !act.ok)
  }

  lemma DoomedStep(a: Attempt, act: Action)
    requires Inv(a) && Enabled(a, act)
    ensures Doomed(Apply(a, act)) <==> Doomed(a) || IsError(act)
  {
    var b := Apply(a, act);
    if i :| 0 <= i < |a.producers| && a.producers[i] == Done(false) {
      assert b.producers[i] == Done(false);
    }
    if act.Stop? && !act.ok {
      assert b.producers[act.i] == Done(false);
    }
  }

  lemma {:induction false} DoomedByErrors(states: seq<Attempt>, acts: seq<Action>, n: nat)
    requires IsRun(states, acts) && Initial(states[0]) && n <= |acts|
    ensures Doomed(states[n]) <==> exists i :: 0 <= i < n && IsError(acts[i])
  {
    if n == 0 {
    } else {
      InvRun(states, acts);
      DoomedByErrors(states, acts, n - 1);
      DoomedStep(states[n - 1], acts[n - 1]);
    }
  }

  /**
   In every interleaving, an attempt that returns without an error while the worker was
   not being stopped has written every row its producers sent, in the order sent, and none
   of its steps was an error.
   */
  lemma {:induction false} SuccessWritesEverything(states: seq<Attempt>, acts: seq<Action>)
    requires IsRun(states, acts) && Initial(states[0])
    ensures var a := states[|acts|];
            Succeeded(a) && !a.cancelled ==>
              a.written == a.sent && AllOk(a.producers) && forall i :: 0 <= i < |acts| ==> !IsError(acts[i])
  {
    InvRun(states, acts);
    DoomedByErrors(states, acts, |acts|);
    assert Succeeded(states[|acts|]) ==> !Doomed(states[|acts|]);
  }

  /**
   `Run` returns nil exactly if nothing went wrong: the block was loaded, no factory and no
   processor failed, and the rows were written. In particular an error is never lost,
   whenever it happens and whatever happens after it.
   */
  lemma {:induction false} ErrorsAreReported(states: seq<Attempt>, acts: seq<Action>, n: nat)
    requires IsRun(states, acts) && Initial(states[0]) && n <= |acts|
    ensures Succeeded(states[n]) <==> Ended(states[n]) && forall i :: 0 <= i < n ==>
              && acts[i] != Load(false) && !acts[i].FactoryError?
              && (acts[i].Stop? ==> acts[i].ok) && (acts[i].Write? ==> acts[i].ok)
  {
    InvRun(states, acts);
    DoomedByErrors(states, acts, n);
    if Ended(states[n]) && !states[n].failed {
      assert AllOk(states[n].producers) && !Doomed(states[n]);
    }
    if exists i :: 0 <= i < n && IsError(acts[i]) {
      assert Doomed(states[n]);
    }
  }

  // ----- What is written

  lemma WriteStep(a: Attempt, act: Action)
    requires Inv(a) && Enabled(a, act)
    ensures act.Write? ==> !a.collector.CollectReturned? && Apply(a, act).collector.CollectReturned?
                           && Apply(a, act).written == a.taken[..act.n]
    ensures a.collector.CollectReturned? ==> Apply(a, act).collector.CollectReturned? && Apply(a, act).written == a.written
  {
  }

  /**
   There is one write, with what the collector has received by then; of this the output keeps
   what it accepted, even if it then reports an error.
   */
  lemma {:induction false} WrittenOnce(states: seq<Attempt>, acts: seq<Action>, i: nat, n: nat)
    requires IsRun(states, acts) && Initial(states[0]) && i < n <= |acts| && acts[i].Write?
    ensures forall j :: i < j < n ==> !acts[j].Write?
    ensures acts[i].n <= |states[i].taken| && (acts[i].ok ==> acts[i].n == |states[i].taken|)
    ensures states[n].collector.CollectReturned? && states[n].written == states[i].taken[..acts[i].n]
    decreases n
  {
    InvRun(states, acts);
    if n == i + 1 {
      WriteStep(states[i], acts[i]);
    } else {
      WrittenOnce(states, acts, i, n - 1);
      WriteStep(states[n - 1], acts[n - 1]);
    }
  }

  // ----- What is sent

  /** The rows that complete their send in the first n actions. */
  function Pushed(states: seq<Attempt>, acts: seq<Action>, n: nat): seq<OutRow>
    requires IsRun(states, acts) && n <= |acts|
  {
    if n == 0 then []
    else Pushed(states, acts, n - 1) + if acts[n - 1].Push? then [states[n - 1].producers[acts[n - 1].i].row] else []
  }

  /** Those among them that come from producer i. */
  function PushedBy(states: seq<Attempt>, acts: seq<Action>, i: nat, n: nat): seq<OutRow>
    requires IsRun(states, acts) && n <= |acts|
  {
    if n == 0 then []
    else PushedBy(states, acts, i, n - 1) + if acts[n - 1] == Push(i) then [states[n - 1].producers[i].row] else []
  }

  /** The producer with this plan has sent these rows, and has none left out. */
  predicate Follows(plan: seq<OutRow>, done: seq<OutRow>, p: Producer) {
    match p
    case Working(todo) => plan == done + todo
    case Sending(row, rest) => plan == done + [row] + rest
    case Done(ok) => done <= plan
  }

  lemma FollowsStep(a: Attempt, act: Action, i: nat, plan: seq<OutRow>, done: seq<OutRow>)
    requires Enabled(a, act) && i < |a.producers| && Follows(plan, done, a.producers[i])
    ensures |Apply(a, act).producers| == |a.producers|
    ensures Follows(plan, if act == Push(i) then done + [a.producers[i].row] else done, Apply(a, act).producers[i])
  {
    if act == Begin(i) {
      var todo := a.producers[i].todo;
      assert done + [todo[0]] + todo[1..] == done + todo;
    }
  }

  lemma {:induction false} PlanIsFollowed(states: seq<Attempt>, acts: seq<Action>, i: nat, n: nat)
    requires IsRun(states, acts) && Initial(states[0]) && n <= |acts| && i < |states[0].producers|
    ensures |states[n].producers| == |states[0].producers|
    ensures Follows(states[0].producers[i].todo, PushedBy(states, acts, i, n), states[n].producers[i])
  {
    if n > 0 {
      PlanIsFollowed(states, acts, i, n - 1);
      FollowsStep(states[n - 1], acts[n - 1], i, states[0].producers[i].todo, PushedBy(states, acts, i, n - 1));
    }
  }

  lemma {:induction false} SentIsPushed(states: seq<Attempt>, acts: seq<Action>, n: nat)
    requires IsRun(states, acts) && Initial(states[0]) && n <= |acts|
    ensures states[n].sent == Pushed(states, acts, n)
  {
    if n > 0 {
      SentIsPushed(states, acts, n - 1);
      assert states[n] == Apply(states[n - 1], acts[n - 1]);
    }
  }

  /**
   What is sent is the producers' rows as their sends complete, and each producer's rows come
   in the order of its plan, none missing: until it returns, what it has sent and what it has
   still to send is its plan.
   */
  lemma {:induction false} SendsInOrder(states: seq<Attempt>, acts: seq<Action>, i: nat, n: nat)
    requires IsRun(states, acts) && Initial(states[0]) && n <= |acts| && i < |states[0].producers|
    ensures states[n].sent == Pushed(states, acts, n)
    ensures |states[n].producers| == |states[0].producers|
    ensures PushedBy(states, acts, i, n) <= states[0].producers[i].todo
    ensures match states[n].producers[i]
            case Working(todo) => PushedBy(states, acts, i, n) + todo == states[0].producers[i].todo
            case Sending(row, rest) => PushedBy(states, acts, i, n) + [row] + rest == states[0].producers[i].todo
            case Done(ok) => true
  {
    SentIsPushed(states, acts, n);
    PlanIsFollowed(states, acts, i, n);
  }

  /** Whatever happens, what was written is a prefix of what was sent: nothing is invented or reordered. */
  lemma {:induction false} WrittenIsPrefix(states: seq<Attempt>, acts: seq<Action>)
    requires IsRun(states, acts) && Initial(states[0])
    ensures states[|acts|].written <= states[|acts|].sent
  {
    InvRun(states, acts);
  }

  /**
   If the collector has stopped receiving before the channel was closed and drained, then
   the attempt is already bound to fail, because the spawner returned an error, or the
   worker is being stopped, so that a mark would have no effect.
   */
  lemma {:induction false} LeavingEarlyIsHarmless(states: seq<Attempt>, acts: seq<Action>)
    requires IsRun(states, acts) && Initial(states[0])
    requires var a := states[|acts|];
             (a.collector.Writing? || a.collector.CollectReturned?) && !(a.closed && a.channel == [])
    ensures states[|acts|].failed || states[|acts|].cancelled
  {
    InvRun(states, acts);
  }

  /**
   A failing processor, or any number of them, does not make the collector leave: while
   producers may still send and the worker is not being stopped, the collector receives.
   */
  lemma {:induction false} CollectorOutlivesProducers(states: seq<Attempt>, acts: seq<Action>)
    requires IsRun(states, acts) && Initial(states[0])
    ensures var a := states[|acts|];
            a.spawner.Producing? && !a.cancelled ==> a.collector.Draining? && !a.failed
  {
    InvRun(states, acts);
  }
}
