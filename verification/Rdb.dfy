/**
 The Redis side of the queue: the priority queue of blocks, the hash of indexed
 blocks and the persisted cursor. Each method is one command, executed atomically.
 A command may fail; a failed command has no effect here (the concurrent protocol
 also covers commands that took effect although their reply was lost). The ghost field
 `failures` counts failed commands, so that callers can say that they give up for no other reason.
 */
module Rdb {
  import opened Prelude
  import opened Decimal

  datatype Reply<+T> = Ok(value: T) | Nil | Err

  /**
   What `GetBlocksBatch` answers: for every block of the inclusive window
   [start, start + size], whether the hash has a field for it.
   */
  function BulkView(indexed: map<nat, bool>, start: nat, size: nat): map<nat, bool> {
    map b: nat | start <= b <= start + size :: b in indexed
  }

  /** What `HGET` followed by `Bool()` answers: absent and false are the same. */
  predicate PointLookup(indexed: map<nat, bool>, b: nat) {
    b in indexed && indexed[b]
  }

  class RedisDB {
    var queue: set<nat>
    var indexed: map<nat, bool>
    var cursor: Option<nat>
    ghost var enqueued: seq<nat>  // every block ever enqueued, in order
    ghost var failures: nat       // how many commands have failed

    constructor ()
      ensures queue == {} && indexed == map[] && cursor == None && enqueued == [] && failures == 0
    {
      queue, indexed, cursor, enqueued, failures := {}, map[], None, [], 0;
    }

    /** ZADD */
    method EnqueueBlock(block: nat) returns (ok: bool)
      modifies this`queue, this`enqueued, this`failures
      ensures failures == old(failures) + if ok then 0 else 1
      ensures ok ==> queue == old(queue) + {block} && enqueued == old(enqueued) + [block]
      ensures !ok ==> queue == old(queue) && enqueued == old(enqueued)
    {
      if * {
        failures := failures + 1;
        return false;
      }
      queue, enqueued := queue + {block}, enqueued + [block];
      ok := true;
    }

    /** BZPOPMAX: the highest block, or nil when the timeout passes on an empty queue. */
    method PopBlock() returns (r: Reply<nat>)
      modifies this`queue, this`failures
      ensures failures == old(failures) + if r.Err? then 1 else 0
      ensures r.Ok? ==> IsMaximum(r.value, old(queue)) && queue == old(queue) - {r.value}
      ensures r.Nil? ==> old(queue) == {}
      ensures !r.Ok? ==> queue == old(queue)
    {
      if * {
        failures := failures + 1;
        return Err;
      }
      if queue == {} {
        return Nil;
      }
      ghost var highest := MaximumExists(queue);
      var block :| block in queue && IsMaximum(block, queue);
      queue := queue - {block};
      r := Ok(block);
    }

    /** ZCARD */
    method QueueLength() returns (r: Reply<nat>)
      modifies this`failures
      ensures failures == old(failures) + if r.Err? then 1 else 0
      ensures !r.Nil? && (r.Ok? ==> r.value == |queue|)
    {
      if * {
        failures := failures + 1;
        return Err;
      }
      r := Ok(|queue|);
    }

    /** HLEN of the index */
    method IndexedCount() returns (r: Reply<nat>)
      modifies this`failures
      ensures failures == old(failures) + if r.Err? then 1 else 0
      ensures !r.Nil? && (r.Ok? ==> r.value == |indexed|)
    {
      if * {
        failures := failures + 1;
        return Err;
      }
      r := Ok(|indexed|);
    }

    /** HGET on the index, read as a boolean */
    method Indexed(block: nat) returns (r: Reply<bool>)
      modifies this`failures
      ensures failures == old(failures) + if r.Err? then 1 else 0
      ensures r.Ok? ==> block in indexed && r.value == indexed[block]
      ensures r.Nil? ==> block !in indexed
    {
      if * {
        failures := failures + 1;
        return Err;
      }
      r := if block in indexed then Ok(indexed[block]) else Nil;
    }

    /** HSET of the value true */
    method MarkIndexed(block: nat) returns (ok: bool)
      modifies this`indexed, this`failures
      ensures failures == old(failures) + if ok then 0 else 1
      ensures indexed == if ok then old(indexed)[block := true] else old(indexed)
    {
      if * {
        failures := failures + 1;
        return false;
      }
      indexed := indexed[block := true];
      ok := true;
    }

    /** HDEL with the raw texts of the block list; the hash's own fields are printed decimals */
    method Unmark(blocks: seq<string>) returns (ok: bool)
      modifies this`indexed, this`failures
      ensures failures == old(failures) + if ok then 0 else 1
      ensures indexed == if ok then Unmarked(old(indexed), blocks) else old(indexed)
    {
      if * {
        failures := failures + 1;
        return false;
      }
      indexed := Unmarked(indexed, blocks);
      ok := true;
    }

    /** SET of the cursor */
    method SaveCursor(c: nat) returns (ok: bool)
      modifies this`cursor, this`failures
      ensures failures == old(failures) + if ok then 0 else 1
      ensures cursor == if ok then Some(c) else old(cursor)
    {
      if * {
        failures := failures + 1;
        return false;
      }
      cursor := Some(c);
      ok := true;
    }

    /** The Lua script: an HGET for each block from start to start + size, both included. */
    method EvalIndexScript(start: nat, size: nat) returns (res: seq<Option<bool>>)
      ensures |res| == size + 1
      ensures forall i :: 0 <= i <= size ==> (res[i].Some? <==> start + i in indexed)
    {
      res := [];
      for i := start to start + size + 1
        invariant |res| == i - start
        invariant forall j :: 0 <= j < |res| ==> (res[j].Some? <==> start + j in indexed)
      {
        res := res + [if i in indexed then Some(indexed[i]) else None];
      }
    }

    method GetBlocksBatch(start: nat, size: nat) returns (r: Result<map<nat, bool>>)
      modifies this`failures
      ensures failures == old(failures) + if r.Failure? then 1 else 0
      ensures r.Success? ==> r.value == BulkView(indexed, start, size)
    {
      if * {
        failures := failures + 1;
        return Failure;
      }
      var resultList := EvalIndexScript(start, size);
      var blocks: map<nat, bool> := map[];
      for index := 0 to |resultList|
        invariant forall b :: b in blocks <==> start <= b < start + index
        invariant forall b :: b in blocks ==> (blocks[b] <==> b in indexed)
      {
        assert resultList[index].Some? <==> start + index in indexed;
        blocks := blocks[start + index := !resultList[index].None?];
      }
      assert blocks == BulkView(indexed, start, size);
      r := Success(blocks);
    }
  }

  /** HDEL removes the fields named by the raw texts, so only canonical texts match. */
  function Unmarked(indexed: map<nat, bool>, blocks: seq<string>): (r: map<nat, bool>)
    ensures forall b :: b in r <==> b in indexed && Show(b) !in blocks
    ensures forall b :: b in r ==> r[b] == indexed[b]
  {
    map b | b in indexed && Show(b) !in blocks :: indexed[b]
  }
}
