/** An attempt ends: no interleaving runs forever, and exactly which ones can hang. */
module PipelineProgress {
  import opened Pipeline

  function SumOf(f: Producer -> nat, producers: seq<Producer>): nat {
    if producers == [] then 0 else f(producers[0]) + SumOf(f, producers[1..])
  }

  lemma {:induction false} SumOfUpdate(f: Producer -> nat, producers: seq<Producer>, i: nat, p: Producer)
    requires i < |producers|
    ensures SumOf(f, producers[i := p]) + f(producers[i]) == SumOf(f, producers) + f(p)
  {
    if i == 0 {
      assert producers[0 := p][1..] == producers[1..];
    } else {
      assert producers[i := p][1..] == producers[1..][i - 1 := p];
      SumOfUpdate(f, producers[1..], i - 1, p);
    }
  }

  lemma {:induction false} SumOfZero(f: Producer -> nat, producers: seq<Producer>)
    requires forall i :: 0 <= i < |producers| ==> f(producers[i]) == 0
    ensures SumOf(f, producers) == 0
  {
    if producers == [] {
    } else {
      assert forall i :: 0 <= i < |producers[1..]| ==> producers[1..][i] == producers[i + 1];
      SumOfZero(f, producers[1..]);
    }
  }

  /** Rows a producer has not yet put in the channel. */
  function RowsLeft(p: Producer): nat {
    match p
    case Working(todo) => |todo|
    case Sending(row, rest) => |rest| + 1
    case Done(ok) => 0
  }

  /** Steps a producer can still take, with one more for each row to be received. */
  function StepsLeft(p: Producer): nat {
    match p
    case Working(todo) => 3 * |todo| + 1
    case Sending(row, rest) => 3 * |rest| + 3
    case Done(ok) => 0
  }

  function TotalRows(a: Attempt): nat {
    SumOf(RowsLeft, a.producers)
  }

  // ----- Every run is finite

  function Measure(a: Attempt): nat {
    (match a.spawner
     case Loading(processors) => processors + 8
     case Initializing(ready, pending, failing) => pending + 4 + if failing then 0 else 1
     case Producing => 3
     case Closed => 2
     case SpawnReturned(ok) => 0)
    + SumOf(StepsLeft, a.producers) + |a.channel|
    + (match a.collector
       case Off => 2
       case Draining => 2
       case Writing => 1
       case CollectReturned(ok) => 0)
    + if a.cancelled then 0 else 1
  }

  predicate ByProducer(act: Action) {
    act.Begin? || act.Push? || act.Stop?
  }

  predicate ByCollector(act: Action) {
    act.Take? || act.SeeClosed? || act.SeeDone? || act.Write?
  }

  lemma ProducerAdvances(a: Attempt, act: Action)
    requires Enabled(a, act) && ByProducer(act)
    ensures StepsLeft(Apply(a, act).producers[act.i]) < StepsLeft(a.producers[act.i])
    ensures act.Push? ==> StepsLeft(Apply(a, act).producers[act.i]) + 2 == StepsLeft(a.producers[act.i])
    ensures Apply(a, act).producers == a.producers[act.i := Apply(a, act).producers[act.i]]
  {
  }

  lemma ProducerStep(a: Attempt, act: Action)
    requires Enabled(a, act) && ByProducer(act)
    ensures Measure(Apply(a, act)) < Measure(a)
  {
    ProducerAdvances(a, act);
    SumOfUpdate(StepsLeft, a.producers, act.i, Apply(a, act).producers[act.i]);
  }

  lemma CollectorStep(a: Attempt, act: Action)
    requires Enabled(a, act) && ByCollector(act)
    ensures Measure(Apply(a, act)) < Measure(a)
  {
  }

  lemma SpawnerStep(a: Attempt, act: Action)
    requires Enabled(a, act) && !ByProducer(act) && !ByCollector(act)
    ensures Measure(Apply(a, act)) < Measure(a)
  {
  }

  lemma MeasureDecreases(a: Attempt, act: Action)
    requires Enabled(a, act)
    ensures Measure(Apply(a, act)) < Measure(a)
  {
    if ByProducer(act) {
      ProducerStep(a, act);
    } else if ByCollector(act) {
      CollectorStep(a, act);
    } else {
      SpawnerStep(a, act);
    }
  }

  /** No attempt runs forever, whatever the scheduler does. */
  lemma {:induction false} RunsAreBounded(states: seq<Attempt>, acts: seq<Action>)
    requires IsRun(states, acts)
    ensures |acts| + Measure(states[|acts|]) <= Measure(states[0])
    decreases |acts|
  {
    if acts == [] {
    } else {
      MeasureDecreases(states[0], acts[0]);
      RunsAreBounded(states[1..], acts[1..]);
    }
  }

  // ----- When a run can stop before it ends

  /**
   Steps that are bound to happen once enabled: node calls return, goroutines run on.
   Errors and cancellation are not counted on.
   */
  predicate Guaranteed(a: Attempt, act: Action) {
    match act
    case Load(ok) => ok
    case FactoryError(lost) => false
    case Stop(i, ok) => ok && i < |a.producers| && a.producers[i].Working? && a.producers[i].todo == []
    case Write(ok, n) => ok
    case Cancel => false
    case _ => true
  }

  ghost predicate Stuck(a: Attempt) {
    forall act :: Guaranteed(a, act) ==> !Enabled(a, act)
  }

  /** A factory waits for a slot that nobody frees: processors are received only after all factories return. */
  predicate InitOverflow(a: Attempt) {
    && a.spawner.Initializing? && a.spawner.ready == PROCESSOR_SLOTS && a.spawner.pending > 0
    && (a.collector.CollectReturned? || (a.collector.Draining? && !ContextDone(a)))
  }

  /** The collector is gone, the channel is full, and every producer still running waits for a slot. */
  predicate SendersAbandoned(a: Attempt) {
    && a.spawner.Producing? && a.collector.CollectReturned? && |a.channel| == ROW_SLOTS
    && (forall i :: 0 <= i < |a.producers| ==> a.producers[i].Sending? || a.producers[i].Done?)
    && !AllDone(a.producers)
  }

  /** The only two ways to hang. */
  lemma {:induction false} StuckExactly(a: Attempt)
    requires Inv(a) && !Ended(a)
    ensures Stuck(a) <==> InitOverflow(a) || SendersAbandoned(a)
  {
    if Stuck(a) {
      StuckSpawner(a);
      StuckCollector(a);
      if a.spawner.Producing? {
        StuckProducers(a);
      }
    }
  }

  lemma StuckSpawner(a: Attempt)
    requires Stuck(a)
    ensures (a.spawner.Initializing? && a.spawner.ready >= PROCESSOR_SLOTS && a.spawner.pending > 0)
         || (a.spawner.Producing? && !AllDone(a.producers))
         || a.spawner.SpawnReturned?
  {
    assert !Enabled(a, Load(true)) && !Enabled(a, LoadProcessor) && !Enabled(a, EndInit);
    assert !Enabled(a, CloseRows) && !Enabled(a, ReturnSpawn);
  }

  lemma StuckCollector(a: Attempt)
    requires Stuck(a)
    ensures a.collector.Off? || a.collector.CollectReturned?
            || (a.collector.Draining? && a.channel == [] && !a.closed && !ContextDone(a))
  {
    assert !Enabled(a, Take) && !Enabled(a, SeeClosed) && !Enabled(a, SeeDone);
    assert !Enabled(a, Write(true, |a.taken|));
  }

  lemma StuckProducers(a: Attempt)
    requires Stuck(a) && a.spawner.Producing? && !AllDone(a.producers)
    ensures forall i :: 0 <= i < |a.producers| ==> a.producers[i].Sending? || a.producers[i].Done?
    ensures |a.channel| >= ROW_SLOTS
  {
    forall i | 0 <= i < |a.producers| ensures !a.producers[i].Working? {
      assert !Enabled(a, Begin(i));
      assert Guaranteed(a, Stop(i, true)) ==> !Enabled(a, Stop(i, true));
    }
    var i :| 0 <= i < |a.producers| && !a.producers[i].Done?;
    assert !Enabled(a, Push(i));
  }

  /** Each channel slot taken by a processor is accounted for. */
  predicate FewProcessors(a: Attempt) {
    match a.spawner
    case Loading(processors) => processors <= PROCESSOR_SLOTS
    case Initializing(ready, pending, failing) => ready + pending <= PROCESSOR_SLOTS
    case _ => true
  }

  lemma {:induction false} FewProcessorsRun(states: seq<Attempt>, acts: seq<Action>)
    requires IsRun(states, acts) && FewProcessors(states[0])
    ensures FewProcessors(states[|acts|])
    decreases |acts|
  {
    if acts == [] {
    } else {
      assert states[1] == Apply(states[0], acts[0]);
      FewProcessorsRun(states[1..], acts[1..]);
    }
  }

  /** An attempt that is neither cancelled nor overfull has a step that is bound to happen. */
  lemma GoesOn(a: Attempt) returns (act: Action)
    requires Inv(a) && !Ended(a) && !a.cancelled && FewProcessors(a)
    ensures Guaranteed(a, act) && Enabled(a, act)
  {
    StuckExactly(a);
    act :| Guaranteed(a, act) && Enabled(a, act);
  }

  /**
   While the worker is not being stopped, an attempt with at most 100 processors always
   ends: a run that cannot continue has ended, for any number of producers and rows,
   including when the processors cannot be initialized and the channel is never closed.
   */
  lemma {:induction false} AttemptAlwaysEnds(states: seq<Attempt>, acts: seq<Action>)
    requires IsRun(states, acts) && Initial(states[0]) && FewProcessors(states[0])
    requires !states[|acts|].cancelled && Stuck(states[|acts|])
    ensures Ended(states[|acts|])
  {
    var a := states[|acts|];
    InvRun(states, acts);
    FewProcessorsRun(states, acts);
    if !Ended(a) {
      var act := GoesOn(a);
    }
  }

  // ----- Hanging runs exist exactly when there are too many processors, or rows

  ghost predicate Reaches(a: Attempt, b: Attempt) {
    exists states, acts :: IsRun(states, acts) && states[0] == a && states[|acts|] == b
  }

  ghost predicate CanHang(a: Attempt) {
    exists b :: Reaches(a, b) && Stuck(b) && !Ended(b)
  }

  ghost predicate CanHangUncancelled(a: Attempt) {
    exists b :: Reaches(a, b) && Stuck(b) && !Ended(b) && !b.cancelled
  }

  lemma ReachesSelf(a: Attempt)
    ensures Reaches(a, a)
  {
    assert IsRun([a], []);
  }

  lemma ReachesNext(a: Attempt, act: Action, b: Attempt)
    requires Enabled(a, act) && Reaches(Apply(a, act), b)
    ensures Reaches(a, b)
  {
    var states, acts :| IsRun(states, acts) && states[0] == Apply(a, act) && states[|acts|] == b;
    RunFromNext(a, act, states, acts);
  }

  lemma RunFromNext(a: Attempt, act: Action, states: seq<Attempt>, acts: seq<Action>)
    requires Enabled(a, act) && IsRun(states, acts) && states[0] == Apply(a, act)
    ensures IsRun([a] + states, [act] + acts)
    ensures ([a] + states)[0] == a && ([a] + states)[|[act] + acts|] == states[|acts|]
  {
  }

  lemma RowsConservedStep(a: Attempt, act: Action)
    requires Enabled(a, act)
    ensures |Apply(a, act).sent| + TotalRows(Apply(a, act)) <= |a.sent| + TotalRows(a)
  {
    if act.Begin? || act.Push? || act.Stop? {
      SumOfUpdate(RowsLeft, a.producers, act.i, Apply(a, act).producers[act.i]);
    }
  }

  /** Rows are conserved: what is sent or still to be sent never exceeds the plan. */
  lemma {:induction false} RowsConserved(states: seq<Attempt>, acts: seq<Action>)
    requires IsRun(states, acts)
    ensures |states[|acts|].sent| + TotalRows(states[|acts|]) <= |states[0].sent| + TotalRows(states[0])
    decreases |acts|
  {
    if acts == [] {
    } else {
      RowsConservedStep(states[0], acts[0]);
      RowsConserved(states[1..], acts[1..]);
    }
  }

  lemma {:induction false} RowsLeftPositive(producers: seq<Producer>, i: nat)
    requires i < |producers| && producers[i].Sending?
    ensures SumOf(RowsLeft, producers) > 0
  {
    if i == 0 {
    } else {
      RowsLeftPositive(producers[1..], i - 1);
    }
  }

  /** With the collector gone and too many rows for the channel, the producers run into a full channel. */
  lemma {:induction false} AbandonedSendersHang(a: Attempt)
    requires Inv(a) && a.spawner.Producing? && a.collector.CollectReturned?
    requires |a.channel| + TotalRows(a) > ROW_SLOTS
    ensures CanHang(a)
    decreases Measure(a)
  {
    if act: Action :|
        Guaranteed(a, act) && Enabled(a, act) && (act.Begin? || act.Push? || act.Stop?) {
      MeasureDecreases(a, act);
      InvStep(a, act);
      SumOfUpdate(RowsLeft, a.producers, act.i, Apply(a, act).producers[act.i]);
      AbandonedSendersHang(Apply(a, act));
      var b :| Reaches(Apply(a, act), b) && Stuck(b) && !Ended(b);
      ReachesNext(a, act, b);
    } else {
      forall i | 0 <= i < |a.producers| ensures !a.producers[i].Working? {
        assert !Enabled(a, Begin(i));
        assert !Enabled(a, Stop(i, true));
      }
      if AllDone(a.producers) {
        SumOfZero(RowsLeft, a.producers);
      }
      var i :| 0 <= i < |a.producers| && !a.producers[i].Done?;
      assert !Enabled(a, Push(i));
      assert SendersAbandoned(a);
      StuckExactly(a);
      ReachesSelf(a);
    }
  }

  lemma {:induction false} ProcessorsFillTheChannel(a: Attempt)
    requires Inv(a) && a.spawner.Initializing? && a.spawner.ready + a.spawner.pending > PROCESSOR_SLOTS
    requires !a.cancelled
    ensures CanHangUncancelled(a)
    decreases a.spawner.pending
  {
    if a.spawner.ready < PROCESSOR_SLOTS {
      var a' := Apply(a, LoadProcessor);
      InvStep(a, LoadProcessor);
      ProcessorsFillTheChannel(a');
      var b :| Reaches(a', b) && Stuck(b) && !Ended(b) && !b.cancelled;
      ReachesNext(a, LoadProcessor, b);
    } else {
      StuckExactly(a);
      ReachesSelf(a);
    }
  }

  lemma {:induction false} ManyProcessorsHang(a: Attempt)
    requires Initial(a) && !a.cancelled && !FewProcessors(a)
    ensures CanHangUncancelled(a)
  {
    InvStep(a, Load(true));
    ProcessorsFillTheChannel(Apply(a, Load(true)));
    var b :| Reaches(Apply(a, Load(true)), b) && Stuck(b) && !Ended(b) && !b.cancelled;
    ReachesNext(a, Load(true), b);
  }

  lemma {:induction false} InitializeAll(a: Attempt) returns (b: Attempt)
    requires Inv(a) && a.spawner.Initializing? && !a.spawner.failing && FewProcessors(a)
    ensures Reaches(a, b) && Inv(b) && b == a.(spawner := Producing)
    decreases a.spawner.pending
  {
    if a.spawner.pending > 0 {
      InvStep(a, LoadProcessor);
      b := InitializeAll(Apply(a, LoadProcessor));
      ReachesNext(a, LoadProcessor, b);
    } else {
      b := Apply(a, EndInit);
      InvStep(a, EndInit);
      ReachesSelf(b);
      ReachesNext(a, EndInit, b);
    }
  }

  lemma {:induction false} ReachesTransitive(a: Attempt, b: Attempt, c: Attempt)
    requires Reaches(a, b) && Reaches(b, c)
    ensures Reaches(a, c)
  {
    var states, acts :| IsRun(states, acts) && states[0] == a && states[|acts|] == b;
    Prepend(states, acts, c);
  }

  lemma {:induction false} Prepend(states: seq<Attempt>, acts: seq<Action>, c: Attempt)
    requires IsRun(states, acts) && Reaches(states[|acts|], c)
    ensures Reaches(states[0], c)
    decreases |acts|
  {
    if acts == [] {
    } else {
      Prepend(states[1..], acts[1..], c);
      ReachesNext(states[0], acts[0], c);
    }
  }

  lemma {:induction false} ManyRowsHang(a: Attempt)
    requires Initial(a) && !a.cancelled && FewProcessors(a) && TotalRows(a) > ROW_SLOTS
    ensures CanHang(a)
  {
    InvStep(a, Load(true));
    var producing := InitializeAll(Apply(a, Load(true)));
    ReachesNext(a, Load(true), producing);
    var cancelled := Apply(producing, Cancel);
    InvStep(producing, Cancel);
    var leaving := Apply(cancelled, SeeDone);
    InvStep(cancelled, SeeDone);
    var gone := Apply(leaving, Write(true, 0));
    InvStep(leaving, Write(true, 0));
    AbandonedSendersHang(gone);
    var b :| Reaches(gone, b) && Stuck(b) && !Ended(b);
    ReachesNext(leaving, Write(true, 0), b);
    ReachesNext(cancelled, SeeDone, b);
    ReachesNext(producing, Cancel, b);
    ReachesTransitive(a, producing, b);
  }

  /**
   Stopping the worker can make an attempt hang exactly when the plan has more rows than
   the channel has slots (or too many processors): a producer blocked in a send does not
   notice the cancellation, and the collector that would have made room has left.
   */
  lemma {:induction false} HangsExactly(a: Attempt)
    requires Initial(a) && !a.cancelled
    ensures CanHang(a) <==> !FewProcessors(a) || TotalRows(a) > ROW_SLOTS
    ensures CanHangUncancelled(a) <==> !FewProcessors(a)
  {
    if !FewProcessors(a) {
      ManyProcessorsHang(a);
    } else {
      forall b | Reaches(a, b) && Stuck(b) && !Ended(b) ensures b.cancelled && TotalRows(a) > ROW_SLOTS {
        var states, acts :| IsRun(states, acts) && states[0] == a && states[|acts|] == b;
        InvRun(states, acts);
        FewProcessorsRun(states, acts);
        StuckExactly(b);
        CollectorOutlivesProducers(states, acts);
        RowsConserved(states, acts);
        var i :| 0 <= i < |b.producers| && b.producers[i].Sending?;
        RowsLeftPositive(b.producers, i);
      }
      if TotalRows(a) > ROW_SLOTS {
        ManyRowsHang(a);
      }
    }
  }

  // ----- Attempts that return nil although rows are missing

  ghost predicate CanLoseRows(a: Attempt) {
    exists b :: Reaches(a, b) && Succeeded(b) && b.written != b.sent
  }

  /** With more processors than slots, the producers never start, and the spawner cannot return nil. */
  predicate Overfull(a: Attempt) {
    match a.spawner
    case Loading(processors) => processors > PROCESSOR_SLOTS
    case Initializing(ready, pending, failing) =>
      ready <= PROCESSOR_SLOTS && (failing || ready + pending > PROCESSOR_SLOTS)
    case SpawnReturned(ok) => !ok
    case _ => false
  }

  lemma {:induction false} OverfullRun(states: seq<Attempt>, acts: seq<Action>)
    requires IsRun(states, acts) && Overfull(states[0])
    ensures Overfull(states[|acts|])
    decreases |acts|
  {
    if acts == [] {
    } else {
      assert states[1] == Apply(states[0], acts[0]);
      OverfullRun(states[1..], acts[1..]);
    }
  }

  /** All producers return, whatever they have left to send; no one is inside a send. */
  lemma {:induction false} StopAll(a: Attempt, n: nat) returns (b: Attempt)
    requires a.spawner.Producing? && n <= |a.producers|
    requires forall i :: 0 <= i < n ==> a.producers[i].Working?
    requires forall i :: n <= i < |a.producers| ==> a.producers[i] == Done(true)
    ensures Reaches(a, b) && AllOk(b.producers) && b == a.(producers := b.producers)
    decreases n
  {
    if n == 0 {
      b := a;
      ReachesSelf(a);
    } else {
      var act := Stop(n - 1, true);
      b := StopAll(Apply(a, act), n - 1);
      ReachesNext(a, act, b);
    }
  }

  lemma {:induction false} SomethingToSend(producers: seq<Producer>) returns (i: nat)
    requires SumOf(RowsLeft, producers) > 0
    ensures i < |producers| && RowsLeft(producers[i]) > 0
  {
    if RowsLeft(producers[0]) > 0 {
      i := 0;
    } else {
      var k := SomethingToSend(producers[1..]);
      i := k + 1;
    }
  }

  lemma SendOne(a: Attempt, i: nat) returns (b: Attempt)
    requires a.spawner.Producing? && a.channel == [] && i < |a.producers|
    requires a.producers[i].Working? && a.producers[i].todo != []
    ensures Reaches(a, b)
    ensures var p := a.producers[i];
            b == a.(producers := a.producers[i := Working(p.todo[1..])], channel := [p.todo[0]], sent := a.sent + [p.todo[0]])
  {
    var a1 := Apply(a, Begin(i));
    b := Apply(a1, Push(i));
    assert b.producers == a.producers[i := Working(a.producers[i].todo[1..])];
    ReachesSelf(b);
    ReachesNext(a1, Push(i), b);
    ReachesNext(a, Begin(i), b);
  }

  lemma {:induction false} SentRowIsLost(a: Attempt)
    requires Initial(a) && !a.cancelled && FewProcessors(a) && TotalRows(a) > 0
    ensures CanLoseRows(a)
  {
    InvInitially(a);
    InvStep(a, Load(true));
    var producing := InitializeAll(Apply(a, Load(true)));
    ReachesNext(a, Load(true), producing);
    var i := SomethingToSend(a.producers);
    var sent := SendOne(producing, i);
    ReachesTransitive(a, producing, sent);
    var stopped := StopAll(sent, |sent.producers|);
    ReachesTransitive(a, sent, stopped);
    var b := LeaveEarly(stopped);
    ReachesTransitive(a, stopped, b);
    assert |b.written| == 0 && |b.sent| == 1;
  }

  /**
   Why the mark must not take effect once the worker is being stopped: an attempt can return
   without an error although a row that was sent has not been written, and it can exactly
   when its plan has a row at all and its processors get past their initialization.
   */
  lemma {:induction false} LosesRowsExactly(a: Attempt)
    requires Initial(a) && !a.cancelled
    ensures CanLoseRows(a) <==> FewProcessors(a) && TotalRows(a) > 0
  {
    if CanLoseRows(a) {
      var b :| Reaches(a, b) && Succeeded(b) && b.written != b.sent;
      var states, acts :| IsRun(states, acts) && states[0] == a && states[|acts|] == b;
      InvRun(states, acts);
      RowsConserved(states, acts);
      if !FewProcessors(a) {
        OverfullRun(states, acts);
      }
    }
    if FewProcessors(a) && TotalRows(a) > 0 {
      SentRowIsLost(a);
    }
  }

  lemma LeaveEarly(a: Attempt) returns (b: Attempt)
    requires a.spawner.Producing? && AllOk(a.producers) && a.collector.Draining? && !a.failed && !a.cancelled
    ensures Reaches(a, b)
    ensures Succeeded(b) && b.sent == a.sent && b.written == a.taken
  {
    var a1 := a.(cancelled := true);
    var a2 := a1.(collector := Writing);
    var a3 := a2.(collector := CollectReturned(true), written := a2.taken[..|a2.taken|]);
    var a4 := a3.(spawner := Closed, closed := true);
    b := a4.(spawner := SpawnReturned(true));
    ReachesSelf(b);
    ReachesNext(a4, ReturnSpawn, b);
    ReachesNext(a3, CloseRows, b);
    ReachesNext(a2, Write(true, |a2.taken|), b);
    ReachesNext(a1, SeeDone, b);
    ReachesNext(a, Cancel, b);
  }
}
