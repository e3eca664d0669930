/** An attempt that nothing disturbs succeeds, and every row of its plan is written. */
module PipelineSuccess {
  import opened Pipeline
  import opened PipelineProgress

  /** How often a row occurs among those that a producer has still to send. */
  function CountOf(r: OutRow, p: Producer): nat {
    match p
    case Working(todo) => multiset(todo)[r]
    case Sending(row, rest) => multiset(rest)[r] + if row == r then 1 else 0
    case Done(ok) => 0
  }

  function Counting(r: OutRow): Producer -> nat {
    p => CountOf(r, p)
  }

  /** How often a row occurs in the plan: among those sent, and those still to be sent. */
  function Planned(a: Attempt, r: OutRow): nat {
    multiset(a.sent)[r] + SumOf(Counting(r), a.producers)
  }

  /** No error so far, none pending, and no cancellation. */
  ghost predicate OnCourse(a: Attempt) {
    && Inv(a) && !a.failed && !a.cancelled && FewProcessors(a)
    && (a.spawner.Initializing? ==> !a.spawner.failing)
    && forall i :: 0 <= i < |a.producers| ==> a.producers[i].Done? ==> a.producers[i].ok
  }

  lemma FewProcessorsStep(a: Attempt, act: Action)
    requires FewProcessors(a) && Enabled(a, act)
    ensures FewProcessors(Apply(a, act))
  {
  }

  lemma StaysOnCourse(a: Attempt, act: Action)
    requires OnCourse(a) && Guaranteed(a, act) && Enabled(a, act)
    ensures OnCourse(Apply(a, act))
  {
    InvStep(a, act);
    FewProcessorsStep(a, act);
  }

  /** An attempt that is off course never gets back on it. */
  lemma StaysOffCourse(a: Attempt, act: Action)
    requires Inv(a) && !OnCourse(a) && Enabled(a, act)
    ensures !OnCourse(Apply(a, act))
  {
    if exists i :: 0 <= i < |a.producers| && a.producers[i].Done? && !a.producers[i].ok {
      var i :| 0 <= i < |a.producers| && a.producers[i].Done? && !a.producers[i].ok;
      assert Apply(a, act).producers[i] == a.producers[i];
    }
  }

  lemma SuccessWasOnCourse(a: Attempt)
    requires Inv(a) && Succeeded(a) && !a.cancelled
    ensures OnCourse(a)
  {
  }

  /** Unless it is cancelled, an attempt can always be ended, if only by failing factories. */
  lemma CanBeEnded(a: Attempt) returns (act: Action)
    requires Inv(a) && !Ended(a) && !a.cancelled
    ensures Enabled(a, act) && !act.Cancel?
  {
    StuckExactly(a);
    if InitOverflow(a) {
      act := FactoryError(a.spawner.pending);
    } else {
      act :| Guaranteed(a, act) && Enabled(a, act);
    }
  }

  lemma CountFirst(rows: seq<OutRow>, r: OutRow)
    requires rows != []
    ensures multiset(rows)[r] == multiset(rows[1..])[r] + if rows[0] == r then 1 else 0
  {
    assert rows == [rows[0]] + rows[1..];
  }

  lemma CountLast(rows: seq<OutRow>, row: OutRow, r: OutRow)
    ensures multiset(rows + [row])[r] == multiset(rows)[r] + if row == r then 1 else 0
  {
  }

  lemma ProducerKeepsPlan(p: Producer, act: Action, a: Attempt, r: OutRow)
    requires Guaranteed(a, act) && Enabled(a, act) && ByProducer(act) && p == a.producers[act.i]
    ensures multiset(Apply(a, act).sent)[r] + CountOf(r, Apply(a, act).producers[act.i])
         == multiset(a.sent)[r] + CountOf(r, p)
  {
    if act.Begin? {
      CountFirst(p.todo, r);
    } else if act.Push? {
      CountLast(a.sent, p.row, r);
    }
  }

  lemma RowKept(a: Attempt, act: Action, r: OutRow)
    requires Guaranteed(a, act) && Enabled(a, act)
    ensures Planned(Apply(a, act), r) == Planned(a, r)
  {
    if ByProducer(act) {
      ProducerKeepsPlan(a.producers[act.i], act, a, r);
      ProducerAdvances(a, act);
      SumOfUpdate(Counting(r), a.producers, act.i, Apply(a, act).producers[act.i]);
    }
  }

  ghost predicate SamePlan(a: Attempt, b: Attempt) {
    forall r :: Planned(a, r) == Planned(b, r)
  }

  lemma PlanIsKept(a: Attempt, act: Action)
    requires Guaranteed(a, act) && Enabled(a, act)
    ensures SamePlan(a, Apply(a, act))
  {
    forall r ensures Planned(a, r) == Planned(Apply(a, act), r) {
      RowKept(a, act, r);
    }
  }

  lemma EndsWell(a: Attempt)
    requires OnCourse(a) && Ended(a)
    ensures Succeeded(a) && a.written == a.sent && forall r :: Planned(a, r) == multiset(a.written)[r]
  {
    forall r ensures Planned(a, r) == multiset(a.written)[r] {
      SumOfZero(Counting(r), a.producers);
    }
  }
}
