/**
 The chain-data and SortedOracles processors, as far as rows go: which rows they build on
 the shared block row, what these hold, and with which identifiers. None of these methods
 may modify any row that existed before, so the block row that all processors share stays
 as it was.

 The program processes the transactions of a block concurrently: their rows arrive in any
 order that keeps the order within each transaction, which is how they are woven together
 here. That the transactions do not disturb each other is what the missing `modifies`
 clauses prove.
 */
module Processors {
  import opened Prelude
  import opened Decimal
  import opened Rows
  import opened RowIds

  ghost predicate IsRow(row: Row, base: Values, spec: RowSpec)
    reads row
  {
    && |spec.parts| > 0 && KeysNonEmpty(spec.args)
    && row.id == Some(Dotted(spec.parts)) && row.values == Overlay(base, spec.args)
  }

  /** These rows are the specified ones, in this order, on top of the given values. */
  ghost predicate Carry(rows: seq<Row>, base: Values, specs: seq<RowSpec>)
    reads rows
  {
    |rows| == |specs| && forall i :: 0 <= i < |rows| ==> IsRow(rows[i], base, specs[i])
  }

  lemma CarryConcat(base: Values, rows: seq<Row>, specs: seq<RowSpec>, more: seq<Row>, moreSpecs: seq<RowSpec>)
    requires Carry(rows, base, specs) && Carry(more, base, moreSpecs)
    ensures Carry(rows + more, base, specs + moreSpecs)
  {
  }

  lemma CarrySnoc(base: Values, rows: seq<Row>, specs: seq<RowSpec>, row: Row, spec: RowSpec)
    requires Carry(rows, base, specs) && IsRow(row, base, spec)
    ensures Carry(rows + [row], base, specs + [spec])
  {
  }

  /** What `loadBlock` puts in the block row. */
  function BlockValues(number: nat, indexerTimestamp: string, blockTimestamp: string, gasUsed: int): Values {
    map["indexerTimestamp" := Text(indexerTimestamp), "blockTimestamp" := Text(blockTimestamp),
        "blockNumber" := Number(number), "blockGasUsed" := Number(gasUsed)]
  }

  /** `loadBlock`: the block row, identified by the block number. */
  method NewBlockRow(number: nat, indexerTimestamp: string, blockTimestamp: string, gasUsed: int) returns (row: Row)
    ensures fresh(row) && row.id == Some(Show(number))
    ensures row.values == map["indexerTimestamp" := Text(indexerTimestamp), "blockTimestamp" := Text(blockTimestamp),
                              "blockNumber" := Number(number), "blockGasUsed" := Number(gasUsed)]
  {
    var args := [("indexerTimestamp", Text(indexerTimestamp)), ("blockTimestamp", Text(blockTimestamp)),
                 ("blockNumber", Number(number)), ("blockGasUsed", Number(gasUsed))];
    row := Row.NewRow(args);
    PlainOfFour(args);
    row := row.WithId(Show(number));
  }

  lemma PlainOfFour(args: Args)
    requires |args| == 4
    ensures Plain(args) == map[][args[0].0 := args[0].1][args[1].0 := args[1].1][args[2].0 := args[2].1][args[3].0 := args[3].1]
  {
    var three, two, one := args[..3], args[..2], args[..1];
    assert three[..2] == two && two[..1] == one && one[..0] == [];
    assert Plain(one) == map[][args[0].0 := args[0].1];
    assert Plain(two) == Plain(one)[args[1].0 := args[1].1];
    assert Plain(three) == Plain(two)[args[2].0 := args[2].1];
  }

  // ----- Chain data

  predicate LogOk(log: EventLog) {
    log.outcome.Encoded? ==> KeysNonEmpty(log.outcome.slice)
  }

  predicate TransactionOk(tx: Transaction) {
    tx.receipt.Some? ==> forall i :: 0 <= i < |tx.receipt.value.logs| ==> LogOk(tx.receipt.value.logs[i])
  }

  /**
   One event log. The event row is rebuilt twice and gets the same identifier each time;
   only a log that was parsed and encoded is sent.
   */
  method ExtractEvent(hash: string, eventIdx: nat, log: EventLog, txRow: Row, ghost base: Values, ghost txArgs: Args)
      returns (rows: seq<Row>)
    requires LogOk(log) && KeysNonEmpty(txArgs) && txRow.values == Overlay(base, txArgs)
    ensures fresh(rows) && Carry(rows, base, LogSpec(hash, txArgs, eventIdx, log))
  {
    rows := [];
    var id := hash + ".event." + Show(eventIdx);
    EventId(hash, eventIdx);
    var eventRow := txRow.Extend(LogArgs(eventIdx, log));
    eventRow := eventRow.WithId(id);
    if log.raw.Some? {
      eventRow := eventRow.Extend(RawArgs(log.raw.value));
      eventRow := eventRow.WithId(id);
    }
    EventValues(base, txArgs, eventIdx, log);
    match log.outcome {
      case NotParsed =>
      case NotEncoded =>
      case Encoded(contract, event, slice) =>
        EncodedValues(base, EventArgs(txArgs, eventIdx, log), ParsedArgs(contract, event), slice);
        var row := EmitParsed(eventRow, id, contract, event, slice);
        rows := [row];
    }
  }

  method EmitParsed(eventRow: Row, id: string, contract: string, event: string, slice: Args) returns (row: Row)
    requires KeysNonEmpty(slice)
    ensures fresh(row) && row.id == Some(id)
    ensures row.values == Overlay(Overlay(eventRow.values, ParsedArgs(contract, event)), slice)
  {
    row := eventRow.Extend(ParsedArgs(contract, event));
    row := row.Extend(slice);
    row := row.WithId(id);
  }

  /** What the event row holds after one rebuild or two. */
  lemma EventValues(base: Values, txArgs: Args, i: nat, log: EventLog)
    requires KeysNonEmpty(txArgs)
    ensures KeysNonEmpty(EventArgs(txArgs, i, log))
    ensures var values := Overlay(Overlay(base, txArgs), LogArgs(i, log));
            Overlay(base, EventArgs(txArgs, i, log))
            == if log.raw.Some? then Overlay(values, RawArgs(log.raw.value)) else values
  {
    OverlayAppend(base, txArgs, LogArgs(i, log));
    if log.raw.Some? {
      OverlayAppend(base, txArgs + LogArgs(i, log), RawArgs(log.raw.value));
    }
  }

  lemma EncodedValues(base: Values, args: Args, parsed: Args, slice: Args)
    requires KeysNonEmpty(args) && KeysNonEmpty(parsed) && KeysNonEmpty(slice)
    ensures KeysNonEmpty(args + parsed + slice)
    ensures Overlay(base, args + parsed + slice) == Overlay(Overlay(Overlay(base, args), parsed), slice)
  {
    OverlayAppend(base, args, parsed);
    OverlayAppend(base, args + parsed, slice);
  }

  lemma EventId(hash: string, i: nat)
    ensures hash + ".event." + Show(i) == Dotted(EventParts(hash, i))
  {
    var p := EventParts(hash, i);
    assert p[1..] == ["event", Show(i)] && p[1..][1..] == [Show(i)];
    assert Dotted(p[1..]) == "event" + "." + Show(i);
    assert ".event." == "." + "event" + ".";
    assert hash + ".event." + Show(i) == hash + "." + ("event" + "." + Show(i));
  }

  lemma TransferId(hash: string, i: nat)
    ensures hash + ".internalTransfer." + Show(i) == Dotted(TransferParts(hash, i))
  {
    var p := TransferParts(hash, i);
    assert p[1..] == ["internalTransfer", Show(i)] && p[1..][1..] == [Show(i)];
    assert Dotted(p[1..]) == "internalTransfer" + "." + Show(i);
    assert ".internalTransfer." == "." + "internalTransfer" + ".";
    assert hash + ".internalTransfer." + Show(i) == hash + "." + ("internalTransfer" + "." + Show(i));
  }

  method EmitTransfer(hash: string, i: nat, transfer: Transfer, txRow: Row, ghost base: Values, ghost txArgs: Args)
      returns (row: Row)
    requires KeysNonEmpty(txArgs) && txRow.values == Overlay(base, txArgs)
    ensures fresh(row) && IsRow(row, base, TransferSpec(hash, txArgs, i, transfer))
  {
    row := txRow.Extend(TransferArgs(transfer));
    row := row.WithId(hash + ".internalTransfer." + Show(i));
    TransferId(hash, i);
    OverlayAppend(base, txArgs, TransferArgs(transfer));
  }

  method ExtractInternalTransactions(
      hash: string, transfers: Option<seq<Transfer>>, txRow: Row, ghost base: Values, ghost txArgs: Args)
      returns (ok: bool, rows: seq<Row>)
    requires KeysNonEmpty(txArgs) && txRow.values == Overlay(base, txArgs)
    ensures ok <==> transfers.Some?
    ensures fresh(rows)
    ensures transfers.Some? ==> Carry(rows, base, TransferSpecs(hash, txArgs, transfers.value, |transfers.value|))
    ensures transfers.None? ==> rows == []
  {
    rows := [];
    if transfers.None? {
      return false, rows;
    }
    for index := 0 to |transfers.value|
      invariant fresh(rows) && Carry(rows, base, TransferSpecs(hash, txArgs, transfers.value, index))
    {
      var row := EmitTransfer(hash, index, transfers.value[index], txRow, base, txArgs);
      TransfersSnoc(hash, txArgs, transfers.value, index);
      CarrySnoc(base, rows, TransferSpecs(hash, txArgs, transfers.value, index),
                row, TransferSpec(hash, txArgs, index, transfers.value[index]));
      rows := rows + [row];
    }
    ok := true;
  }

  lemma TransfersSnoc(hash: string, txArgs: Args, transfers: seq<Transfer>, n: nat)
    requires n < |transfers|
    ensures TransferSpecs(hash, txArgs, transfers, n + 1)
         == TransferSpecs(hash, txArgs, transfers, n) + [TransferSpec(hash, txArgs, n, transfers[n])]
  {
  }

  method CollectLogs(hash: string, logs: seq<EventLog>, txRow: Row, ghost base: Values, ghost txArgs: Args)
      returns (rows: seq<Row>)
    requires KeysNonEmpty(txArgs) && txRow.values == Overlay(base, txArgs)
    requires forall i :: 0 <= i < |logs| ==> LogOk(logs[i])
    ensures fresh(rows) && Carry(rows, base, LogSpecs(hash, txArgs, logs, |logs|))
  {
    rows := [];
    for eventIdx := 0 to |logs|
      invariant fresh(rows) && Carry(rows, base, LogSpecs(hash, txArgs, logs, eventIdx))
    {
      var sent := ExtractEvent(hash, eventIdx, logs[eventIdx], txRow, base, txArgs);
      CarryConcat(base, rows, LogSpecs(hash, txArgs, logs, eventIdx), sent, LogSpec(hash, txArgs, eventIdx, logs[eventIdx]));
      rows := rows + sent;
    }
  }

  method EmitTransaction(txRow: Row, tx: Transaction, txIndex: nat, gasUsed: int, ghost base: Values) returns (row: Row)
    requires txRow.values == Overlay(base, TxArgs(tx, txIndex))
    ensures fresh(row) && IsRow(row, base, TransactionSpec(tx, txIndex, gasUsed))
  {
    row := txRow.Extend(TransactionArgs(tx, gasUsed));
    row := row.WithId(tx.hash);
    OverlayAppend(base, TxArgs(tx, txIndex), TransactionArgs(tx, gasUsed));
  }

  /** The transaction's own row and the rows of its events. */
  method CollectReceipt(txRow: Row, tx: Transaction, txIndex: nat, receipt: Receipt, ghost base: Values)
      returns (rows: seq<Row>)
    requires txRow.values == Overlay(base, TxArgs(tx, txIndex)) && TransactionOk(tx) && tx.receipt == Some(receipt)
    ensures fresh(rows) && Carry(rows, base, ReceiptSpecs(tx, txIndex, receipt))
  {
    var row := EmitTransaction(txRow, tx, txIndex, receipt.gasUsed, base);
    var events := CollectLogs(tx.hash, receipt.logs, txRow, base, TxArgs(tx, txIndex));
    CarryConcat(base, [row], [TransactionSpec(tx, txIndex, receipt.gasUsed)],
                events, LogSpecs(tx.hash, TxArgs(tx, txIndex), receipt.logs, |receipt.logs|));
    rows := [row] + events;
  }

  /** One transaction; a node error ends it, with the rows sent so far. */
  method CollectTransaction(blockRow: Row, txIndex: nat, tx: Transaction, debug: bool) returns (ok: bool, rows: seq<Row>)
    requires TransactionOk(tx)
    ensures ok <==> tx.receipt.Some? && (debug ==> tx.transfers.Some?)
    ensures fresh(rows) && Carry(rows, blockRow.values, TransactionSpecs(tx, txIndex, debug))
  {
    var txRow := blockRow.Extend(TxArgs(tx, txIndex));
    if tx.receipt.None? {
      return false, [];
    }
    rows := CollectReceipt(txRow, tx, txIndex, tx.receipt.value, blockRow.values);
    ok := true;
    if debug {
      var transfers;
      ok, transfers := ExtractInternalTransactions(tx.hash, tx.transfers, txRow, blockRow.values, TxArgs(tx, txIndex));
      if ok {
        CarryConcat(blockRow.values, rows, ReceiptSpecs(tx, txIndex, tx.receipt.value), transfers,
                    TransferSpecs(tx.hash, TxArgs(tx, txIndex), tx.transfers.value, |tx.transfers.value|));
      }
      rows := rows + transfers;
    }
  }

  /** The block's own row: no explicit identifier, so it is identified by the hash of its values. */
  method EmitBlock(blockRow: Row) returns (row: Row)
    ensures fresh(row) && row.id == None && row.values == blockRow.values["type" := Text("Block")]
  {
    row := blockRow.Extend([("type", Text("Block"))]);
    assert LowerFirst("type") == "type";
    assert [("type", Text("Block"))][..0] == [];
  }

  /** The node answered everything that was asked about the first n transactions. */
  predicate AllAnswered(txs: seq<Transaction>, debug: bool, n: nat)
    requires n <= |txs|
  {
    n == 0 || (AllAnswered(txs, debug, n - 1) && txs[n - 1].receipt.Some? && (debug ==> txs[n - 1].transfers.Some?))
  }

  lemma {:induction false} AllAnsweredIs(txs: seq<Transaction>, debug: bool, n: nat)
    requires n <= |txs|
    ensures AllAnswered(txs, debug, n)
       <==> forall i :: 0 <= i < n ==> txs[i].receipt.Some? && (debug ==> txs[i].transfers.Some?)
  {
    if n > 0 {
      AllAnsweredIs(txs, debug, n - 1);
    }
  }

  predicate TakenFrom(a: seq<Row>, b: seq<Row>, c: seq<Row>) {
    forall k :: 0 <= k < |c| ==> c[k] in a || c[k] in b
  }

  lemma TakenSnoc(a: seq<Row>, b: seq<Row>, c: seq<Row>, row: Row)
    requires TakenFrom(a, b, c) && (row in a || row in b)
    ensures TakenFrom(a, b, c + [row])
  {
  }

  /** Two concurrent senders: their rows arrive in an order that is not determined. */
  method Weave(a: seq<Row>, b: seq<Row>, ghost base: Values, ghost aSpecs: seq<RowSpec>, ghost bSpecs: seq<RowSpec>)
      returns (c: seq<Row>, ghost cSpecs: seq<RowSpec>)
    requires Carry(a, base, aSpecs) && Carry(b, base, bSpecs)
    ensures Carry(c, base, cSpecs) && Shuffle(aSpecs, bSpecs, cSpecs)
    ensures TakenFrom(a, b, c)
  {
    c, cSpecs := [], [];
    var i, j := 0, 0;
    while i < |a| || j < |b|
      invariant i <= |a| && j <= |b|
      invariant Carry(c, base, cSpecs) && Shuffle(aSpecs[..i], bSpecs[..j], cSpecs)
      invariant TakenFrom(a, b, c)
      decreases |a| - i + |b| - j
    {
      var first: bool := *;
      if j == |b| || (first && i < |a|) {
        ShuffleLeft(aSpecs, i, bSpecs[..j], cSpecs);
        CarrySnoc(base, c, cSpecs, a[i], aSpecs[i]);
        TakenSnoc(a, b, c, a[i]);
        c, cSpecs := c + [a[i]], cSpecs + [aSpecs[i]];
        i := i + 1;
      } else {
        ShuffleRight(aSpecs[..i], bSpecs, j, cSpecs);
        CarrySnoc(base, c, cSpecs, b[j], bSpecs[j]);
        TakenSnoc(a, b, c, b[j]);
        c, cSpecs := c + [b[j]], cSpecs + [bSpecs[j]];
        j := j + 1;
      }
    }
    assert aSpecs[..i] == aSpecs && bSpecs[..j] == bSpecs;
  }

  lemma ShuffleLeft(a: seq<RowSpec>, i: nat, b: seq<RowSpec>, c: seq<RowSpec>)
    requires i < |a| && Shuffle(a[..i], b, c)
    ensures Shuffle(a[..i + 1], b, c + [a[i]])
  {
    assert a[..i + 1][..i] == a[..i] && (c + [a[i]])[..|c|] == c;
  }

  lemma ShuffleRight(a: seq<RowSpec>, b: seq<RowSpec>, j: nat, c: seq<RowSpec>)
    requires j < |b| && Shuffle(a, b[..j], c)
    ensures Shuffle(a, b[..j + 1], c + [b[j]])
  {
    assert b[..j + 1][..j] == b[..j] && (c + [b[j]])[..|c|] == c;
  }

  method CollectTransactions(blockRow: Row, txs: seq<Transaction>, debug: bool)
      returns (ok: bool, rows: seq<Row>, ghost sent: seq<RowSpec>)
    requires forall i :: 0 <= i < |txs| ==> TransactionOk(txs[i])
    ensures fresh(rows) && Carry(rows, blockRow.values, sent) && Woven(TransactionRows(txs, debug), |txs|, sent)
    ensures ok <==> AllAnswered(txs, debug, |txs|)
  {
    rows, sent := [], [];
    ok := true;
    ghost var specs := TransactionRows(txs, debug);
    for txIndex := 0 to |txs|
      invariant fresh(rows) && Carry(rows, blockRow.values, sent) && Woven(specs, txIndex, sent)
      invariant ok <==> AllAnswered(txs, debug, txIndex)
    {
      var txOk, more := CollectTransaction(blockRow, txIndex, txs[txIndex], debug);
      ok := ok && txOk;
      ghost var before := sent;
      rows, sent := Weave(rows, more, blockRow.values, before, specs[txIndex]);
      WovenNext(specs, txIndex, before, sent);
    }
  }

  /** All rows of a block's chain data: the block's own row, and the rows of the transactions as they arrive. */
  method CollectChainData(blockRow: Row, txs: seq<Transaction>, debug: bool)
      returns (ok: bool, block: Row, rows: seq<Row>, ghost sent: seq<RowSpec>)
    requires forall i :: 0 <= i < |txs| ==> TransactionOk(txs[i])
    ensures fresh(block) && block.id == None && block.values == blockRow.values["type" := Text("Block")]
    ensures fresh(rows) && Carry(rows, blockRow.values, sent) && Woven(TransactionRows(txs, debug), |txs|, sent)
    ensures ok <==> forall i :: 0 <= i < |txs| ==> txs[i].receipt.Some? && (debug ==> txs[i].transfers.Some?)
  {
    block := EmitBlock(blockRow);
    ok, rows, sent := CollectTransactions(blockRow, txs, debug);
    AllAnsweredIs(txs, debug, |txs|);
  }

  /** The same identifier, and the same values but for the time of indexing. */
  ghost predicate SameRow(row1: Row, row2: Row)
    reads row1, row2
  {
    row1.id.Some? && row1.id == row2.id && SameBut("indexerTimestamp", row1.values, row2.values)
  }

  /** The rows of two attempts, one for one in order. */
  ghost predicate SameRows(rows1: seq<Row>, rows2: seq<Row>)
    reads rows1, rows2
  {
    |rows1| == |rows2| && forall i :: 0 <= i < |rows1| ==> SameRow(rows1[i], rows2[i])
  }

  lemma IsSameRow(row1: Row, base1: Values, row2: Row, base2: Values, spec: RowSpec)
    requires IsRow(row1, base1, spec) && IsRow(row2, base2, spec) && SameBut("indexerTimestamp", base1, base2)
    ensures SameRow(row1, row2)
  {
    OverlaySame("indexerTimestamp", base1, base2, spec.args);
  }

  lemma CarrySame(rows1: seq<Row>, base1: Values, rows2: seq<Row>, base2: Values, specs: seq<RowSpec>)
    requires Carry(rows1, base1, specs) && Carry(rows2, base2, specs) && SameBut("indexerTimestamp", base1, base2)
    ensures SameRows(rows1, rows2)
  {
    forall i | 0 <= i < |rows1| ensures SameRow(rows1[i], rows2[i]) {
      IsSameRow(rows1[i], base1, rows2[i], base2, specs[i]);
    }
  }

  /** p pairs the rows of two attempts, no row twice. */
  ghost predicate Pairs(rows1: seq<Row>, rows2: seq<Row>, p: seq<nat>)
    reads rows1, rows2
  {
    && |p| == |rows1| == |rows2| && NoneTwice(p)
    && forall i :: 0 <= i < |rows1| ==> p[i] < |rows2| && SameRow(rows1[i], rows2[p[i]])
  }

  /** The rows of two attempts in orders of their own: they are the same one for one. */
  ghost predicate SameInSomeOrder(rows1: seq<Row>, rows2: seq<Row>)
    reads rows1, rows2
  {
    exists p :: Pairs(rows1, rows2, p)
  }

  lemma CarrySameInSomeOrder(
      rows1: seq<Row>, base1: Values, specs1: seq<RowSpec>, rows2: seq<Row>, base2: Values, specs2: seq<RowSpec>)
    requires Carry(rows1, base1, specs1) && Carry(rows2, base2, specs2) && SameBut("indexerTimestamp", base1, base2)
    requires multiset(specs1) == multiset(specs2)
    ensures SameInSomeOrder(rows1, rows2)
  {
    var p := Pairing(specs1, specs2);
    forall i | 0 <= i < |rows1| ensures SameRow(rows1[i], rows2[p[i]]) {
      IsSameRow(rows1[i], base1, rows2[p[i]], base2, specs1[i]);
    }
    assert Pairs(rows1, rows2, p);
  }

  /** These are the rows of the block's transactions, in an order in which they can arrive. */
  ghost predicate CarryWoven(rows: seq<Row>, base: Values, specs: seq<seq<RowSpec>>)
    reads rows
  {
    exists sent :: Carry(rows, base, sent) && Woven(specs, |specs|, sent)
  }

  lemma WovenSame(rows1: seq<Row>, base1: Values, rows2: seq<Row>, base2: Values, specs: seq<seq<RowSpec>>)
    requires CarryWoven(rows1, base1, specs) && CarryWoven(rows2, base2, specs)
    requires SameBut("indexerTimestamp", base1, base2)
    ensures SameInSomeOrder(rows1, rows2)
  {
    var sent1 :| Carry(rows1, base1, sent1) && Woven(specs, |specs|, sent1);
    var sent2 :| Carry(rows2, base2, sent2) && Woven(specs, |specs|, sent2);
    WovenIsPermuted(specs, |specs|, sent1);
    WovenIsPermuted(specs, |specs|, sent2);
    CarrySameInSomeOrder(rows1, base1, sent1, rows2, base2, sent2);
  }

  /** What the block's own row holds. */
  function OwnValues(number: nat, time: string, blockTime: string, gasUsed: int): Values {
    BlockValues(number, time, blockTime, gasUsed)["type" := Text("Block")]
  }

  lemma OtherTime(number: nat, time1: string, time2: string, blockTime: string, gasUsed: int)
    ensures SameBut("indexerTimestamp", BlockValues(number, time1, blockTime, gasUsed),
                    BlockValues(number, time2, blockTime, gasUsed))
    ensures SameBut("indexerTimestamp", OwnValues(number, time1, blockTime, gasUsed),
                    OwnValues(number, time2, blockTime, gasUsed))
    ensures time1 != time2 ==>
              OwnValues(number, time1, blockTime, gasUsed) != OwnValues(number, time2, blockTime, gasUsed)
  {
    assert OwnValues(number, time1, blockTime, gasUsed)["indexerTimestamp"] == Text(time1);
    assert OwnValues(number, time2, blockTime, gasUsed)["indexerTimestamp"] == Text(time2);
  }

  /** One attempt: the block row, and the chain data built on it. */
  method ChainDataOnce(number: nat, time: string, blockTime: string, gasUsed: int, txs: seq<Transaction>, debug: bool)
      returns (block: Row, rows: seq<Row>)
    requires forall i :: 0 <= i < |txs| ==> TransactionOk(txs[i])
    ensures fresh(block) && block.id == None && block.values == OwnValues(number, time, blockTime, gasUsed)
    ensures fresh(rows)
    ensures CarryWoven(rows, BlockValues(number, time, blockTime, gasUsed), TransactionRows(txs, debug))
  {
    var row := NewBlockRow(number, time, blockTime, gasUsed);
    var ok;
    ghost var sent;
    ok, block, rows, sent := CollectChainData(row, txs, debug);
  }

  /**
   Two attempts at one block, at different times, with their rows in orders of their own:
   the transaction, event and transfer rows of one are, one for one, those of the other, with
   the same identifier and the same values but for the time of indexing, so that the sink can
   drop them as duplicates. The block's own row has no explicit identifier, and its values,
   which its hash covers, differ with the time.
   */
  method ChainDataTwice(number: nat, time1: string, time2: string, blockTime: string, gasUsed: int,
                        txs: seq<Transaction>, debug: bool)
      returns (block1: Row, rows1: seq<Row>, block2: Row, rows2: seq<Row>)
    requires forall i :: 0 <= i < |txs| ==> TransactionOk(txs[i])
    ensures SameInSomeOrder(rows1, rows2)
    ensures block1.id == block2.id == None && SameBut("indexerTimestamp", block1.values, block2.values)
    ensures time1 != time2 ==> block1.values != block2.values
  {
    block1, rows1 := ChainDataOnce(number, time1, blockTime, gasUsed, txs, debug);
    block2, rows2 := ChainDataOnce(number, time2, blockTime, gasUsed, txs, debug);
    OtherTime(number, time1, time2, blockTime, gasUsed);
    WovenSame(rows1, BlockValues(number, time1, blockTime, gasUsed), rows2,
              BlockValues(number, time2, blockTime, gasUsed), TransactionRows(txs, debug));
  }

  // ----- SortedOracles

  /** The row for one token's SortedOracles calls. */
  ghost predicate IsContractRow(row: Row, base: Values, block: string, t: Token)
    reads row
  {
    IsRow(row, base, RowSpec(ContractParts(block, t), ContractArgs(t)))
  }

  /** Both identifier changes land on a new row. */
  method OracleContractRow(blockRow: Row, t: Token, digest: Digest, ghost block: string) returns (row: Row)
    requires blockRow.GetID(digest) == block
    ensures fresh(row) && IsContractRow(row, blockRow.values, block, t)
  {
    row := blockRow.Contract("SortedOracles", TokenArgs(t), digest);
    NamedContractIs(blockRow.values, "SortedOracles", TokenArgs(t));
    row := row.AppendID(t.address, digest);
    DottedSnoc([block], "SortedOracles");
    assert [block] + ["SortedOracles"] == [block, "SortedOracles"];
    DottedSnoc([block, "SortedOracles"], t.address);
    assert [block, "SortedOracles"] + [t.address] == ContractParts(block, t);
  }

  method EmitCall(contractRow: Row, name: string, args: Args, digest: Digest, ghost base: Values, ghost block: string, ghost t: Token)
      returns (row: Row)
    requires KeysNonEmpty(args) && IsContractRow(contractRow, base, block, t)
    ensures fresh(row) && IsRow(row, base, CallSpec(block, t, name, args))
  {
    row := contractRow.ViewCall(name, args, digest);
    NamedCallIs(contractRow.values, name, args);
    DottedSnoc(ContractParts(block, t), name);
    OverlayAppend(base, ContractArgs(t), NamedCall(name) + args);
  }

  method EmitEntry(contractRow: Row, name: string, args: Args, i: nat, digest: Digest, ghost base: Values, ghost block: string, ghost t: Token)
      returns (row: Row)
    requires KeysNonEmpty(args) && IsContractRow(contractRow, base, block, t)
    ensures fresh(row) && IsRow(row, base, EntrySpec(block, t, name, args, i))
  {
    row := EmitCall(contractRow, name, args, digest, base, block, t);
    row := row.AppendID(Show(i), digest);
    DottedSnoc(ContractParts(block, t) + [name], Show(i));
    assert ContractParts(block, t) + [name] + [Show(i)] == ContractParts(block, t) + [name, Show(i)];
  }

  lemma RatesSnoc(block: string, t: Token, reports: seq<Report>, n: nat)
    requires n < |reports|
    ensures RateSpecs(block, t, reports, n + 1) == RateSpecs(block, t, reports, n)
         + [EntrySpec(block, t, "GetRates", ReportArgs("rateAddress", "rateValue", reports[n], n), n)]
  {
  }

  lemma TimestampsSnoc(block: string, t: Token, reports: seq<Report>, n: nat)
    requires n < |reports|
    ensures TimestampSpecs(block, t, reports, n + 1) == TimestampSpecs(block, t, reports, n)
         + [EntrySpec(block, t, "GetTimestamps", ReportArgs("timestampAddress", "reportedTimestamp", reports[n], n), n)]
  {
  }

  method EmitRates(contractRow: Row, reports: seq<Report>, digest: Digest, ghost base: Values, ghost block: string, ghost t: Token)
      returns (rows: seq<Row>)
    requires IsContractRow(contractRow, base, block, t)
    ensures fresh(rows) && Carry(rows, base, RateSpecs(block, t, reports, |reports|))
  {
    rows := [];
    for i := 0 to |reports|
      invariant fresh(rows) && Carry(rows, base, RateSpecs(block, t, reports, i))
    {
      var args := ReportArgs("rateAddress", "rateValue", reports[i], i);
      var row := EmitEntry(contractRow, "GetRates", args, i, digest, base, block, t);
      RatesSnoc(block, t, reports, i);
      CarrySnoc(base, rows, RateSpecs(block, t, reports, i), row, EntrySpec(block, t, "GetRates", args, i));
      rows := rows + [row];
    }
  }

  method EmitTimestamps(contractRow: Row, reports: seq<Report>, digest: Digest, ghost base: Values, ghost block: string, ghost t: Token)
      returns (rows: seq<Row>)
    requires IsContractRow(contractRow, base, block, t)
    ensures fresh(rows) && Carry(rows, base, TimestampSpecs(block, t, reports, |reports|))
  {
    rows := [];
    for i := 0 to |reports|
      invariant fresh(rows) && Carry(rows, base, TimestampSpecs(block, t, reports, i))
    {
      var args := ReportArgs("timestampAddress", "reportedTimestamp", reports[i], i);
      var row := EmitEntry(contractRow, "GetTimestamps", args, i, digest, base, block, t);
      TimestampsSnoc(block, t, reports, i);
      CarrySnoc(base, rows, TimestampSpecs(block, t, reports, i), row, EntrySpec(block, t, "GetTimestamps", args, i));
      rows := rows + [row];
    }
  }

  /** The last call goes to the exchange and is identified by its registry identifier. */
  method EmitBuckets(blockRow: Row, t: Token, reply: (int, int), digest: Digest, ghost block: string) returns (row: Row)
    requires blockRow.GetID(digest) == block
    ensures fresh(row) && IsRow(row, blockRow.values, BucketSpec(block, t, reply))
  {
    var contract := blockRow.Contract(t.exchange, [], digest);
    NamedContractIs(blockRow.values, t.exchange, []);
    assert NamedContract(t.exchange) + [] == NamedContract(t.exchange);
    row := contract.ViewCall("getBuyAndSellBuckets", BucketArgs(reply), digest);
    NamedCallIs(contract.values, "getBuyAndSellBuckets", BucketArgs(reply));
    OverlayAppend(blockRow.values, NamedContract(t.exchange), NamedCall("getBuyAndSellBuckets") + BucketArgs(reply));
    DottedSnoc([block], t.exchange);
    assert [block] + [t.exchange] == [block, t.exchange];
    DottedSnoc([block, t.exchange], "getBuyAndSellBuckets");
    assert [block, t.exchange] + ["getBuyAndSellBuckets"] == [block, t.exchange, "getBuyAndSellBuckets"];
  }

  /** The node answers every call from the k-th on. */
  predicate AnsweredFrom(calls: seq<Option<seq<RowSpec>>>, k: nat) {
    forall i :: k <= i < |calls| ==> calls[i].Some?
  }

  /** One call after the other: an error ends the processor there. */
  lemma EmittedNext(calls: seq<Option<seq<RowSpec>>>, k: nat)
    requires k < |calls|
    ensures calls[k].None? ==> Emitted(calls, k) == [] && !AnsweredFrom(calls, k)
    ensures calls[k].Some? ==>
        && Emitted(calls, k) == calls[k].value + Emitted(calls, k + 1)
        && (AnsweredFrom(calls, k) <==> AnsweredFrom(calls, k + 1))
  {
  }

  /** The row of the k-th call comes before the rows of the later calls. */
  lemma CarryCall(base: Values, row: Row, spec: RowSpec, rows: seq<Row>, calls: seq<Option<seq<RowSpec>>>, k: nat)
    requires k < |calls| && calls[k] == Some([spec]) && IsRow(row, base, spec)
    requires Carry(rows, base, Emitted(calls, k + 1))
    ensures Carry([row] + rows, base, Emitted(calls, k))
  {
    EmittedNext(calls, k);
    CarryConcat(base, [row], [spec], rows, Emitted(calls, k + 1));
  }

  // The methods below are the processor's calls, each followed by those after it.

  /** The last call, to the exchange. */
  method CollectBuckets(
      blockRow: Row, contractRow: Row, t: Token, o: Oracles, digest: Digest, ghost block: string,
      ghost calls: seq<Option<seq<RowSpec>>>)
      returns (ok: bool, rows: seq<Row>)
    requires blockRow.GetID(digest) == block && IsContractRow(contractRow, blockRow.values, block, t)
    requires calls == OracleCalls(block, t, o)
    ensures ok <==> AnsweredFrom(calls, 6)
    ensures fresh(rows) && Carry(rows, blockRow.values, Emitted(calls, 6))
  {
    EmittedNext(calls, 6);
    if o.buckets.None? {
      return false, [];
    }
    var row := EmitBuckets(blockRow, t, o.buckets.value, digest, block);
    CarryCall(blockRow.values, row, BucketSpec(block, t, o.buckets.value), [], calls, 6);
    ok, rows := true, [row];
    assert rows == [row] + [];
  }

  /** From GetTimestamps on. */
  method CollectTimestamps(
      blockRow: Row, contractRow: Row, t: Token, o: Oracles, digest: Digest, ghost block: string,
      ghost calls: seq<Option<seq<RowSpec>>>)
      returns (ok: bool, rows: seq<Row>)
    requires blockRow.GetID(digest) == block && IsContractRow(contractRow, blockRow.values, block, t)
    requires calls == OracleCalls(block, t, o)
    ensures ok <==> AnsweredFrom(calls, 5)
    ensures fresh(rows) && Carry(rows, blockRow.values, Emitted(calls, 5))
  {
    EmittedNext(calls, 5);
    if o.timestamps.None? {
      return false, [];
    }
    rows := EmitTimestamps(contractRow, o.timestamps.value, digest, blockRow.values, block, t);
    var rest;
    ok, rest := CollectBuckets(blockRow, contractRow, t, o, digest, block, calls);
    CarryConcat(blockRow.values, rows, calls[5].value, rest, Emitted(calls, 6));
    rows := rows + rest;
  }

  /** From GetRates on. */
  method CollectRates(
      blockRow: Row, contractRow: Row, t: Token, o: Oracles, digest: Digest, ghost block: string,
      ghost calls: seq<Option<seq<RowSpec>>>)
      returns (ok: bool, rows: seq<Row>)
    requires blockRow.GetID(digest) == block && IsContractRow(contractRow, blockRow.values, block, t)
    requires calls == OracleCalls(block, t, o)
    ensures ok <==> AnsweredFrom(calls, 4)
    ensures fresh(rows) && Carry(rows, blockRow.values, Emitted(calls, 4))
  {
    EmittedNext(calls, 4);
    if o.rates.None? {
      return false, [];
    }
    rows := EmitRates(contractRow, o.rates.value, digest, blockRow.values, block, t);
    var rest;
    ok, rest := CollectTimestamps(blockRow, contractRow, t, o, digest, block, calls);
    CarryConcat(blockRow.values, rows, calls[4].value, rest, Emitted(calls, 5));
    rows := rows + rest;
  }

  /** From MedianTimestamp on. */
  method CollectMedianTimestamp(
      blockRow: Row, contractRow: Row, t: Token, o: Oracles, digest: Digest, ghost block: string,
      ghost calls: seq<Option<seq<RowSpec>>>)
      returns (ok: bool, rows: seq<Row>)
    requires blockRow.GetID(digest) == block && IsContractRow(contractRow, blockRow.values, block, t)
    requires calls == OracleCalls(block, t, o)
    ensures ok <==> AnsweredFrom(calls, 3)
    ensures fresh(rows) && Carry(rows, blockRow.values, Emitted(calls, 3))
  {
    EmittedNext(calls, 3);
    if o.medianTimestamp.None? {
      return false, [];
    }
    var args := NumberArgs("medianTimestamp", o.medianTimestamp.value);
    var row := EmitCall(contractRow, "MedianTimestamp", args, digest, blockRow.values, block, t);
    ok, rows := CollectRates(blockRow, contractRow, t, o, digest, block, calls);
    CarryCall(blockRow.values, row, CallSpec(block, t, "MedianTimestamp", args), rows, calls, 3);
    rows := [row] + rows;
  }

  /** From MedianRate on. */
  method CollectMedianRate(
      blockRow: Row, contractRow: Row, t: Token, o: Oracles, digest: Digest, ghost block: string,
      ghost calls: seq<Option<seq<RowSpec>>>)
      returns (ok: bool, rows: seq<Row>)
    requires blockRow.GetID(digest) == block && IsContractRow(contractRow, blockRow.values, block, t)
    requires calls == OracleCalls(block, t, o)
    ensures ok <==> AnsweredFrom(calls, 2)
    ensures fresh(rows) && Carry(rows, blockRow.values, Emitted(calls, 2))
  {
    EmittedNext(calls, 2);
    if o.medianRate.None? {
      return false, [];
    }
    var args := MedianRateArgs(o.medianRate.value);
    var row := EmitCall(contractRow, "MedianRate", args, digest, blockRow.values, block, t);
    ok, rows := CollectMedianTimestamp(blockRow, contractRow, t, o, digest, block, calls);
    CarryCall(blockRow.values, row, CallSpec(block, t, "MedianRate", args), rows, calls, 2);
    rows := [row] + rows;
  }

  /** From NumRates on. */
  method CollectNumRates(
      blockRow: Row, contractRow: Row, t: Token, o: Oracles, digest: Digest, ghost block: string,
      ghost calls: seq<Option<seq<RowSpec>>>)
      returns (ok: bool, rows: seq<Row>)
    requires blockRow.GetID(digest) == block && IsContractRow(contractRow, blockRow.values, block, t)
    requires calls == OracleCalls(block, t, o)
    ensures ok <==> AnsweredFrom(calls, 1)
    ensures fresh(rows) && Carry(rows, blockRow.values, Emitted(calls, 1))
  {
    EmittedNext(calls, 1);
    if o.numRates.None? {
      return false, [];
    }
    var args := NumberArgs("numRates", o.numRates.value);
    var row := EmitCall(contractRow, "NumRates", args, digest, blockRow.values, block, t);
    ok, rows := CollectMedianRate(blockRow, contractRow, t, o, digest, block, calls);
    CarryCall(blockRow.values, row, CallSpec(block, t, "NumRates", args), rows, calls, 1);
    rows := [row] + rows;
  }

  /** From IsOldestReportExpired on. */
  method CollectExpired(
      blockRow: Row, contractRow: Row, t: Token, o: Oracles, digest: Digest, ghost block: string,
      ghost calls: seq<Option<seq<RowSpec>>>)
      returns (ok: bool, rows: seq<Row>)
    requires blockRow.GetID(digest) == block && IsContractRow(contractRow, blockRow.values, block, t)
    requires calls == OracleCalls(block, t, o)
    ensures ok <==> AnsweredFrom(calls, 0)
    ensures fresh(rows) && Carry(rows, blockRow.values, Emitted(calls, 0))
  {
    EmittedNext(calls, 0);
    if o.expired.None? {
      return false, [];
    }
    var args := ExpiredArgs(o.expired.value);
    var row := EmitCall(contractRow, "IsOldestReportExpired", args, digest, blockRow.values, block, t);
    ok, rows := CollectNumRates(blockRow, contractRow, t, o, digest, block, calls);
    CarryCall(blockRow.values, row, CallSpec(block, t, "IsOldestReportExpired", args), rows, calls, 0);
    rows := [row] + rows;
  }

  /**
   All rows of the SortedOracles processor for one token, in the order of its calls, up to
   the first error of the node.
   */
  method CollectOracles(blockRow: Row, t: Token, o: Oracles, digest: Digest, ghost block: string)
      returns (ok: bool, rows: seq<Row>)
    requires blockRow.GetID(digest) == block
    ensures ok <==> o.expired.Some? && o.numRates.Some? && o.medianRate.Some? && o.medianTimestamp.Some?
                    && o.rates.Some? && o.timestamps.Some? && o.buckets.Some?
    ensures fresh(rows) && Carry(rows, blockRow.values, OracleSpecs(block, t, o))
  {
    var contractRow := OracleContractRow(blockRow, t, digest, block);
    ghost var calls := OracleCalls(block, t, o);
    ok, rows := CollectExpired(blockRow, contractRow, t, o, digest, block, calls);
    assert AnsweredFrom(calls, 0) <==> calls[0].Some? && calls[1].Some? && calls[2].Some? && calls[3].Some?
                                       && calls[4].Some? && calls[5].Some? && calls[6].Some?;
  }

  /** Two attempts at one loaded block: the same SortedOracles rows, one for one. */
  method OraclesTwice(number: nat, time1: string, time2: string, blockTime: string, gasUsed: int,
                      t: Token, o: Oracles, digest: Digest)
      returns (rows1: seq<Row>, rows2: seq<Row>)
    ensures SameRows(rows1, rows2)
  {
    var row1 := NewBlockRow(number, time1, blockTime, gasUsed);
    var ok1, ok2;
    ok1, rows1 := CollectOracles(row1, t, o, digest, Show(number));
    var row2 := NewBlockRow(number, time2, blockTime, gasUsed);
    ok2, rows2 := CollectOracles(row2, t, o, digest, Show(number));
    CarrySame(rows1, row1.values, rows2, row2.values, OracleSpecs(Show(number), t, o));
  }
}
