/** A worker's service loop as written: pop, look up, process with retries, mark. */
module WorkerLoop {
  import opened Prelude
  import opened Rdb

  /** What the loop does after a turn. */
  datatype Turn = Continue | Exit

  class Worker {
    const db: RedisDB
    const retryAttempts: int
    const collectData: bool

    constructor (db: RedisDB, retryAttempts: int, collectData: bool)
      ensures this.db == db && this.retryAttempts == retryAttempts && this.collectData == collectData
    {
      this.db, this.retryAttempts, this.collectData := db, retryAttempts, collectData;
    }

    /**
     Attempts are numbered from 1; outcome(i) tells whether attempt i returned without an
     error. There is always a first attempt, and retrying stops at the first success, or
     after retryAttempts attempts.
     */
    method IndexBlockWithRetry(outcome: nat -> bool) returns (ok: bool, attempt: nat)
      ensures (attempt == 1 || 1 < attempt <= retryAttempts) && ok == outcome(attempt)
      ensures forall i :: 1 <= i < attempt ==> !outcome(i)
      ensures !ok ==> attempt >= retryAttempts
      ensures ok <==> exists i :: (i == 1 || 1 < i <= retryAttempts) && outcome(i)
    {
      attempt := 1;
      ok := outcome(attempt);
      var retry := attempt < retryAttempts;
      while !ok && retry
        invariant (attempt == 1 || 1 < attempt <= retryAttempts) && ok == outcome(attempt)
        invariant retry <==> attempt < retryAttempts
        invariant forall i :: 1 <= i < attempt ==> !outcome(i)
        decreases retryAttempts - attempt
      {
        attempt := attempt + 1;
        ok := outcome(attempt);
        retry := attempt < retryAttempts;
      }
    }

    /**
     One turn. The only change to the index is the mark of the popped block, which was the
     highest one queued, was not indexed, and had an attempt without an error; in metrics
     mode nothing is ever marked. A failed mark is ignored. When all commands of the turn
     succeed, the mark is made exactly in that case, and the worker goes on. A worker whose
     context is done leaves the loop before it pops.
     */
    method Step(stopped: bool, outcome: nat -> bool) returns (turn: Turn, popped: Option<nat>)
      modifies db`queue, db`indexed, db`failures
      ensures popped.Some? ==> IsMaximum(popped.value, old(db.queue)) && db.queue == old(db.queue) - {popped.value}
      ensures popped.None? ==> db.queue == old(db.queue) && db.indexed == old(db.indexed)
      ensures db.indexed != old(db.indexed) ==>
          && popped.Some? && db.indexed == old(db.indexed)[popped.value := true]
          && collectData && !(popped.value in old(db.indexed) && old(db.indexed)[popped.value])
          && exists i :: (i == 1 || 1 < i <= retryAttempts) && outcome(i)
      ensures stopped ==> turn.Exit? && popped.None? && db.failures == old(db.failures)
      ensures !stopped && db.failures == old(db.failures) ==>
          && turn.Continue?
          && (popped.None? ==> old(db.queue) == {})
          && (popped.Some? && collectData && !(popped.value in old(db.indexed) && old(db.indexed)[popped.value])
              && (exists i :: (i == 1 || 1 < i <= retryAttempts) && outcome(i)) ==>
                db.indexed == old(db.indexed)[popped.value := true])
    {
      if stopped {
        return Exit, None;
      }
      var reply := db.PopBlock();
      if reply.Err? {
        return Exit, None;
      }
      if reply.Nil? {
        return Continue, None;
      }
      var block := reply.value;
      popped := Some(block);
      var indexed := db.Indexed(block);
      if indexed.Err? {
        return Exit, popped;
      }
      if indexed.Ok? && indexed.value {
        return Continue, popped;
      }
      var ok, attempt := IndexBlockWithRetry(outcome);
      if ok && collectData {
        var marked := db.MarkIndexed(block);
      }
      turn := Continue;
    }
  }
}
