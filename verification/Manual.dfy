/** The manual publisher: a configured list of blocks, or all epoch blocks, optionally un-marked first. */
module Manual {
  import opened Prelude
  import opened Decimal
  import opened Rdb
  import opened Sampling

  datatype Mode = EpochBlocks | BlocksList

  /** The epoch blocks up to a height, as texts. */
  function EpochList(height: nat): seq<string> {
    seq(height / EPOCH_SIZE, i requires 0 <= i => Show((i + 1) * EPOCH_SIZE))
  }

  /** Every text up to position n parses; ParsedBlocks are the blocks they stand for. */
  predicate Parses(texts: seq<string>, n: nat)
    requires n <= |texts|
  {
    forall i :: 0 <= i < n ==> ParseUint(texts[i]).Success?
  }

  function ParsedBlocks(texts: seq<string>, n: nat): seq<nat>
    requires n <= |texts| && Parses(texts, n)
  {
    if n == 0 then [] else ParsedBlocks(texts, n - 1) + [ParseUint(texts[n - 1]).value]
  }

  class ManualPublisher {
    const db: RedisDB
    const mode: Mode
    const blocks: seq<string>
    const forceReindex: bool

    constructor (db: RedisDB, mode: Mode, blocks: seq<string>, forceReindex: bool)
      ensures this.db == db && this.mode == mode && this.forceReindex == forceReindex
      ensures this.blocks == if mode.BlocksList? then blocks else []
    {
      this.db, this.mode, this.forceReindex := db, mode, forceReindex;
      this.blocks := if mode.BlocksList? then blocks else [];
    }

    /** The list that is worked on; an unreadable height leaves nothing to do. */
    function Listed(height: Option<nat>): seq<string> {
      if mode.BlocksList? then blocks else if height.None? then [] else EpochList(height.value)
    }

    /** The reasons for giving up other than a failed command: no height, or a text that does not parse. */
    predicate Unworkable(height: Option<nat>, n: nat) {
      (mode.EpochBlocks? && height.None?) || (n < |Listed(height)| && ParseUint(Listed(height)[n]).Failure?)
    }

    method GetBlocks(height: Option<nat>) returns (r: Result<seq<string>>)
      ensures r == if mode.BlocksList? then Success(blocks)
                   else if height.None? then Failure
                   else Success(EpochList(height.value))
    {
      if mode.BlocksList? {
        return Success(blocks);
      }
      if height.None? {
        return Failure;
      }
      var epochs := height.value / EPOCH_SIZE;
      var texts := new string[epochs](_ => "");
      for i := 1 to epochs + 1
        invariant forall j :: 0 <= j < i - 1 ==> texts[j] == EpochList(height.value)[j]
      {
        texts[i - 1] := Show(i * EPOCH_SIZE);
      }
      assert texts[..] == EpochList(height.value);
      r := Success(texts[..]);
    }

    /**
     Un-marks the whole list, then enqueues it in order, up to the first text that does
     not parse. Nothing is enqueued before the un-marking has happened.
     */
    method Start(height: Option<nat>) returns (ok: bool, ghost n: nat)
      modifies db`queue, db`enqueued, db`indexed, db`failures
      ensures !ok && db.failures == old(db.failures) ==> Unworkable(height, n)
      ensures ok ==> db.failures == old(db.failures) && !Unworkable(height, n)
      ensures var texts := Listed(height);
              && EnqueuedUpTo(texts, n, old(db.queue), old(db.enqueued), db.queue, db.enqueued)
              && (ok ==> n == |texts|)
              && (db.indexed == old(db.indexed) || (forceReindex && db.indexed == Unmarked(old(db.indexed), texts)))
              && (forceReindex && (n > 0 || ok) ==> db.indexed == Unmarked(old(db.indexed), texts))
    {
      n := 0;
      NothingEnqueued(Listed(height), db.queue, db.enqueued);
      var got := GetBlocks(height);
      if got.Failure? {
        return false, 0;
      }
      var texts := got.value;
      if forceReindex {
        ok := db.Unmark(texts);
        if !ok {
          return;
        }
      }
      for i := 0 to |texts|
        invariant db.failures == old(db.failures)
        invariant n == i && EnqueuedUpTo(texts, i, old(db.queue), old(db.enqueued), db.queue, db.enqueued)
        invariant db.indexed == if forceReindex then Unmarked(old(db.indexed), texts) else old(db.indexed)
      {
        var block := ParseUint(texts[i]);
        if block.Failure? {
          return false, n;
        }
        OneMoreEnqueued(texts, i, old(db.queue), old(db.enqueued), db.queue, db.enqueued);
        ok := db.EnqueueBlock(block.value);
        if !ok {
          return;
        }
        n := n + 1;
      }
      ok := true;
    }
  }

  /** The first n texts parse, and their blocks have been enqueued in order. */
  ghost predicate EnqueuedUpTo(
      texts: seq<string>, n: nat, queue: set<nat>, log: seq<nat>, queue': set<nat>, log': seq<nat>)
  {
    && n <= |texts| && Parses(texts, n)
    && log' == log + ParsedBlocks(texts, n) && queue' == queue + Elements(ParsedBlocks(texts, n))
  }

  lemma NothingEnqueued(texts: seq<string>, queue: set<nat>, log: seq<nat>)
    ensures EnqueuedUpTo(texts, 0, queue, log, queue, log)
  {
  }

  lemma OneMoreEnqueued(texts: seq<string>, n: nat, queue: set<nat>, log: seq<nat>, queue': set<nat>, log': seq<nat>)
    requires EnqueuedUpTo(texts, n, queue, log, queue', log') && n < |texts| && ParseUint(texts[n]).Success?
    ensures var b := ParseUint(texts[n]).value;
            EnqueuedUpTo(texts, n + 1, queue, log, queue' + {b}, log' + [b])
  {
  }

  lemma EpochOf(b: nat, height: nat)
    requires 0 < b <= height && ShouldSample(b, EPOCH_SIZE)
    ensures b / EPOCH_SIZE > 0 && b / EPOCH_SIZE <= height / EPOCH_SIZE && b == b / EPOCH_SIZE * EPOCH_SIZE
  {
  }

  lemma EpochAt(i: nat, height: nat)
    requires i < height / EPOCH_SIZE
    ensures 0 < (i + 1) * EPOCH_SIZE <= height && ShouldSample((i + 1) * EPOCH_SIZE, EPOCH_SIZE)
  {
  }

  /**
   The epoch list, read as numbers: exactly the positive blocks up to the height that the
   epoch processors sample, in ascending order and therefore without repetition.
   */
  lemma {:induction false} EpochListIsSampled(height: nat)
    requires height < UINT64_LIMIT
    ensures Parses(EpochList(height), |EpochList(height)|)
    ensures var blocks := ParsedBlocks(EpochList(height), |EpochList(height)|);
            && Ascending(blocks)
            && (forall b: nat :: b in blocks <==> 0 < b <= height && b % 17280 == 0)
  {
    var texts := EpochList(height);
    forall i | 0 <= i < |texts| ensures ParseUint(texts[i]) == Success((i + 1) * EPOCH_SIZE) {
      EpochAt(i, height);
      ParseAfterShow((i + 1) * EPOCH_SIZE);
    }
    ParsedAt(texts, |texts|);
    var blocks := ParsedBlocks(texts, |texts|);
    forall b: nat ensures b in blocks <==> 0 < b <= height && b % 17280 == 0 {
      if 0 < b <= height && b % 17280 == 0 {
        EpochOf(b, height);
        assert blocks[b / EPOCH_SIZE - 1] == b;
      }
      if b in blocks {
        var i :| 0 <= i < |blocks| && blocks[i] == b;
        EpochAt(i, height);
      }
    }
  }

  lemma {:induction false} ParsedAt(texts: seq<string>, n: nat)
    requires n <= |texts| && Parses(texts, n)
    ensures |ParsedBlocks(texts, n)| == n
    ensures forall i :: 0 <= i < n ==> ParsedBlocks(texts, n)[i] == ParseUint(texts[i]).value
  {
    if n == 0 {
    } else {
      ParsedAt(texts, n - 1);
    }
  }
}
