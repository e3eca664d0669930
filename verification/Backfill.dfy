/** The backfill publisher as written: a cursor in memory, and rounds of Redis commands. */
module Backfill {
  import opened Prelude
  import opened BlockIndex
  import opened Rdb

  class BackfillPublisher {
    const db: RedisDB
    const batchSize: nat
    const tipBuffer: nat
    var cursor: nat

    /** Recovery: the persisted cursor wins over the configured start block. */
    constructor (db: RedisDB, startBlock: nat, batchSize: nat, tipBuffer: nat)
      ensures this.db == db && this.batchSize == batchSize && this.tipBuffer == tipBuffer
      ensures cursor == if db.cursor.Some? then db.cursor.value else startBlock
    {
      this.db, this.batchSize, this.tipBuffer := db, batchSize, tipBuffer;
      cursor := if db.cursor.Some? then db.cursor.value else startBlock;
    }

    /**
     The loop's bound moves with the cursor, so it is the window read beforehand that
     ends it: a block outside the window reads as not indexed.
     A failed save leaves the cursor advanced in memory and unchanged in Redis.
     */
    method UpdateCursor(batchSize: nat) returns (ok: bool)
      modifies this`cursor, db`cursor, db`failures
      ensures db.failures == old(db.failures) + if ok then 0 else 1
      ensures ok ==> cursor == CursorAfter(db.indexed.Keys, old(cursor), batchSize) && db.cursor == Some(cursor)
      ensures !ok ==> db.cursor == old(db.cursor)
      ensures !ok ==> cursor in {old(cursor), CursorAfter(db.indexed.Keys, old(cursor), batchSize)}
    {
      var batch := db.GetBlocksBatch(cursor, batchSize * 2);
      if batch.Failure? {
        return false;
      }
      var view := batch.value;
      var i := cursor;
      ghost var limit := cursor + 2 * batchSize + 1;
      while i < cursor + batchSize
        invariant cursor == i && old(cursor) <= i <= limit
        invariant db.cursor == old(db.cursor) && db.failures == old(db.failures)
        invariant batchSize == 0 ==> i == old(cursor)
        invariant batchSize > 0 ==>
            NextUnmarked(db.indexed.Keys, i, limit) == NextUnmarked(db.indexed.Keys, old(cursor), limit)
        decreases limit - i
      {
        if i in view && view[i] {
          cursor := i + 1;
        } else {
          break;
        }
        i := i + 1;
      }
      ok := db.SaveCursor(cursor);
    }

    /**
     Enqueues the first unindexed blocks between the cursor and the buffered tip, window
     by window. If the header cannot be read the round is skipped without an error.
     */
    method QueueBatch(latest: Option<nat>, batchSize: nat) returns (ok: bool, ghost done: seq<nat>)
      modifies db`queue, db`enqueued, db`failures
      ensures db.failures == old(db.failures) + if ok then 0 else 1
      ensures var batch := RoundBatch(db.indexed.Keys, cursor, latest, tipBuffer, batchSize);
              if ok then done == batch else done <= batch
      ensures latest.None? ==> done == []
      ensures db.enqueued == old(db.enqueued) + done && db.queue == old(db.queue) + Elements(done)
    {
      done := [];
      if latest.None? {
        return true, done;
      }
      var maxBlock := MaxBlock(latest.value, tipBuffer);
      ghost var marked := db.indexed.Keys;
      ghost var batch := FirstUnmarked(marked, cursor, maxBlock, batchSize);
      var queued := 0;
      var searchWindow := batchSize * 2;
      var searchStart := cursor;
      while searchStart < maxBlock && queued < batchSize
        invariant queued == |done| && db.failures == old(db.failures)
        invariant Searched(batch, done, marked, searchStart, maxBlock, batchSize)
        invariant db.enqueued == old(db.enqueued) + done && db.queue == old(db.queue) + Elements(done)
        decreases maxBlock - searchStart
      {
        var searchEnd := searchStart + searchWindow;
        if searchEnd > maxBlock {
          searchEnd := maxBlock;
        }
        var read := db.GetBlocksBatch(searchStart, searchWindow);
        if read.Failure? {
          return false, done;
        }
        var view := read.value;
        var block := searchStart;
        while block < searchEnd && queued < batchSize
          invariant searchStart <= block <= searchEnd
          invariant queued == |done| && db.failures == old(db.failures)
          invariant Searched(batch, done, marked, block, maxBlock, batchSize)
          invariant db.enqueued == old(db.enqueued) + done && db.queue == old(db.queue) + Elements(done)
        {
          SearchedNext(batch, done, marked, block, maxBlock, batchSize);
          if !view[block] {
            queued := queued + 1;
            var enqueued := db.EnqueueBlock(block);
            if !enqueued {
              return false, done;
            }
            ElementsSnoc(done, block);
            done := done + [block];
          }
          block := block + 1;
        }
        SearchedWindow(batch, done, marked, block, maxBlock, batchSize, searchStart + searchWindow);
        searchStart := searchStart + searchWindow;
      }
      SearchedWindow(batch, done, marked, searchStart, maxBlock, batchSize, searchStart);
      ok := true;
    }

    /**
     One turn of the service loop. A round is skipped while the queue still holds
     batchSize blocks; otherwise the cursor moves first and the batch starts at it.
     */
    method Round(latest: Option<nat>) returns (ok: bool)
      modifies this`cursor, db`cursor, db`queue, db`enqueued, db`failures
      ensures db.failures == old(db.failures) + if ok then 0 else 1
      ensures |old(db.queue)| >= batchSize ==>
          && cursor == old(cursor) && db.cursor == old(db.cursor)
          && db.queue == old(db.queue) && db.enqueued == old(db.enqueued)
      ensures ok && |old(db.queue)| < batchSize ==>
          && cursor == CursorAfter(db.indexed.Keys, old(cursor), batchSize)
          && db.cursor == Some(cursor)
          && db.enqueued == old(db.enqueued) + RoundBatch(db.indexed.Keys, cursor, latest, tipBuffer, batchSize)
          && db.queue == old(db.queue) + RoundBlocks(db.indexed.Keys, cursor, latest, tipBuffer, batchSize)
      ensures old(db.enqueued) <= db.enqueued
              <= old(db.enqueued) + RoundBatch(db.indexed.Keys, cursor, latest, tipBuffer, batchSize)
      ensures latest.None? ==> db.queue == old(db.queue) && db.enqueued == old(db.enqueued)
    {
      var length := db.QueueLength();
      if !length.Ok? {
        return false;
      }
      if length.value < batchSize {
        ok := UpdateCursor(batchSize);
        if !ok {
          return;
        }
        ghost var done;
        ok, done := QueueBatch(latest, batchSize);
        if !ok {
          return;
        }
      }
      var after := db.QueueLength();
      if !after.Ok? {
        return false;
      }
      var indexed := db.IndexedCount();
      ok := indexed.Ok?;
    }
  }

  /** Having searched up to pos and enqueued `done`, what remains of the batch is what a search from pos finds. */
  ghost predicate Searched(batch: seq<nat>, done: seq<nat>, marked: set<nat>, pos: nat, maxBlock: nat, batchSize: nat) {
    |done| <= batchSize && batch == done + FirstUnmarked(marked, pos, maxBlock, batchSize - |done|)
  }

  lemma SearchedNext(batch: seq<nat>, done: seq<nat>, marked: set<nat>, pos: nat, maxBlock: nat, batchSize: nat)
    requires Searched(batch, done, marked, pos, maxBlock, batchSize) && pos < maxBlock && |done| < batchSize
    ensures Searched(batch, if pos in marked then done else done + [pos], marked, pos + 1, maxBlock, batchSize)
  {
    if pos !in marked {
      var rest := FirstUnmarked(marked, pos + 1, maxBlock, batchSize - |done| - 1);
      assert done + ([pos] + rest) == (done + [pos]) + rest;
    }
  }

  lemma ElementsSnoc(s: seq<nat>, x: nat)
    ensures Elements(s + [x]) == Elements(s) + {x}
  {
  }

  /** At the end of a window: the next window follows on, or the whole batch has been enqueued. */
  lemma SearchedWindow(
      batch: seq<nat>, done: seq<nat>, marked: set<nat>, pos: nat, maxBlock: nat, batchSize: nat, next: nat)
    requires Searched(batch, done, marked, pos, maxBlock, batchSize)
    requires pos <= next && (pos < next && pos < maxBlock ==> |done| == batchSize)
    ensures Searched(batch, done, marked, next, maxBlock, batchSize)
    ensures pos >= maxBlock || |done| == batchSize ==> done == batch
  {
  }

  /** The blocks that one round adds to the queue, in order; none if the tip is not known. */
  function RoundBatch(marked: set<nat>, cursor: nat, latest: Option<nat>, tipBuffer: nat, batchSize: nat): seq<nat> {
    if latest.None? then [] else FirstUnmarked(marked, cursor, MaxBlock(latest.value, tipBuffer), batchSize)
  }

  function RoundBlocks(marked: set<nat>, cursor: nat, latest: Option<nat>, tipBuffer: nat, batchSize: nat): set<nat> {
    Elements(RoundBatch(marked, cursor, latest, tipBuffer, batchSize))
  }

  /**
   A round's blocks, said without the search: the unindexed blocks at or after the cursor
   and below the buffered tip that have fewer than batchSize unindexed blocks before them.
   */
  lemma {:induction false} RoundBlocksMeaning(marked: set<nat>, cursor: nat, latest: nat, tipBuffer: nat, batchSize: nat)
    ensures RoundBlocks(marked, cursor, Some(latest), tipBuffer, batchSize)
         == set b: nat | cursor <= b < MaxBlock(latest, tipBuffer) && b !in marked && Rank(marked, cursor, b) < batchSize
    ensures |RoundBlocks(marked, cursor, Some(latest), tipBuffer, batchSize)|
         == Min(batchSize, Rank(marked, cursor, MaxBlock(latest, tipBuffer)))
    ensures Ascending(RoundBatch(marked, cursor, Some(latest), tipBuffer, batchSize))
  {
    var maxBlock := MaxBlock(latest, tipBuffer);
    var batch := FirstUnmarked(marked, cursor, maxBlock, batchSize);
    var members := set b: nat | cursor <= b < maxBlock && b !in marked && Rank(marked, cursor, b) < batchSize;
    assert Elements(batch) == members by {
      forall b: nat ensures b in batch <==> b in members {
        FirstUnmarkedMembers(marked, cursor, maxBlock, batchSize, b);
      }
    }
    FirstUnmarkedAscending(marked, cursor, maxBlock, batchSize);
    FirstUnmarkedLength(marked, cursor, maxBlock, batchSize);
    AscendingCount(batch);
  }

  lemma {:induction false} AscendingCount(s: seq<nat>)
    requires Ascending(s)
    ensures |Elements(s)| == |s|
  {
    if s == [] {
    } else {
      var front := s[..|s| - 1];
      AscendingCount(front);
      assert Elements(s) == Elements(front) + {s[|s| - 1]};
    }
  }

  /**
   The buffer keeps the publisher tipBuffer blocks away from the tip exactly when the
   chain is at least that long: on a shorter chain the unsigned subtraction wraps, and the
   buffer is not kept. (Blocks stay below 2^53, and the batch is
   not larger than that.)
   */
  lemma {:induction false} BufferRespectedExactly(
      marked: set<nat>, cursor: nat, latest: nat, tipBuffer: nat, batchSize: nat)
    requires 0 < batchSize <= 0x20_0000_0000_0000 && cursor <= 0x20_0000_0000_0000
    requires latest <= 0x20_0000_0000_0000 && tipBuffer <= 0x20_0000_0000_0000
    requires forall b :: b in marked ==> b < 0x20_0000_0000_0000
    ensures (forall b :: b in RoundBlocks(marked, cursor, Some(latest), tipBuffer, batchSize) ==> b + tipBuffer < latest)
       <==> tipBuffer <= latest
  {
    var maxBlock := MaxBlock(latest, tipBuffer);
    var blocks := RoundBlocks(marked, cursor, Some(latest), tipBuffer, batchSize);
    RoundBlocksMeaning(marked, cursor, latest, tipBuffer, batchSize);
    if tipBuffer <= latest {
      assert maxBlock == latest - tipBuffer;
    } else {
      assert maxBlock == latest - tipBuffer + 0x1_0000_0000_0000_0000;
      CursorAfterMeaning(marked, cursor, 0x20_0000_0000_0000);
      var b := CursorAfter(marked, cursor, 0x20_0000_0000_0000);
      assert b !in marked && b < maxBlock;
      RankCovered(marked, cursor, b, {});
      assert b in blocks;
    }
  }
}
