/**
 What the rows hold and how they are identified, key by key. The rows of the processors are
 given as lists of arguments laid over the values of the block row; here are the texts of
 their identifiers, the values that result, and where in its processor's output each row is.
 */
module RowContents {
  import opened Decimal
  import opened Rows
  import opened RowIds

  /** The row has this identifier and, on top of the given values, exactly these values. */
  ghost predicate Makes(base: Values, spec: RowSpec, id: string, values: Values) {
    |spec.parts| > 0 && Dotted(spec.parts) == id && KeysNonEmpty(spec.args) && Overlay(base, spec.args) == values
  }

  lemma DottedThree(a: string, b: string, c: string)
    ensures Dotted([a, b, c]) == a + "." + b + "." + c
  {
    DottedSnoc([a], b);
    assert [a] + [b] == [a, b];
    DottedSnoc([a, b], c);
    assert [a, b] + [c] == [a, b, c];
  }

  lemma DottedFour(a: string, b: string, c: string, d: string)
    ensures Dotted([a, b, c, d]) == a + "." + b + "." + c + "." + d
  {
    DottedThree(a, b, c);
    DottedSnoc([a, b, c], d);
    assert [a, b, c] + [d] == [a, b, c, d];
  }

  lemma DottedFive(a: string, b: string, c: string, d: string, e: string)
    ensures Dotted([a, b, c, d, e]) == a + "." + b + "." + c + "." + d + "." + e
  {
    DottedFour(a, b, c, d);
    DottedSnoc([a, b, c, d], e);
    assert [a, b, c, d] + [e] == [a, b, c, d, e];
  }

  // ----- Chain data

  /** A transaction's own row. */
  lemma TransactionRow(base: Values, tx: Transaction, txIndex: nat, gasUsed: int)
    ensures Makes(base, TransactionSpec(tx, txIndex, gasUsed), tx.hash,
                  base["txHash" := Text(tx.hash)]["txIndex" := Number(txIndex)]
                  ["type" := Text("Transaction")]["gasPrice" := Number(tx.gasPrice)]["gasUsed" := Number(gasUsed)])
  {
    var values := base["txHash" := Text(tx.hash)]["txIndex" := Number(txIndex)];
    OverlayAppend(base, TxArgs(tx, txIndex), TransactionArgs(tx, gasUsed));
    OverlayTwo(base, ("txHash", Text(tx.hash)), ("txIndex", Number(txIndex)));
    OverlayThree(values, ("type", Text("Transaction")), ("gasPrice", Number(tx.gasPrice)), ("gasUsed", Number(gasUsed)));
  }

  lemma TransferValues(values: Values, t: Transfer)
    ensures Overlay(values, TransferArgs(t))
         == values["type" := Text("Transfer")]["currencySymbol" := Text("CELO")]["from" := Text(t.sender)]
                  ["to" := Text(t.recipient)]["value" := Number(t.value)]
  {
    var head := [("type", Text("Transfer")), ("currencySymbol", Text("CELO")), ("from", Text(t.sender))];
    var tail := [("to", Text(t.recipient)), ("value", Number(t.value))];
    assert TransferArgs(t) == head + tail;
    OverlayThree(values, head[0], head[1], head[2]);
    OverlayTwo(Overlay(values, head), tail[0], tail[1]);
    OverlayAppend(values, head, tail);
  }

  /** The row of the i-th internal transfer of a transaction. */
  lemma TransferRow(base: Values, tx: Transaction, txIndex: nat, i: nat, t: Transfer)
    ensures Makes(base, TransferSpec(tx.hash, TxArgs(tx, txIndex), i, t), tx.hash + ".internalTransfer." + Show(i),
                  base["txHash" := Text(tx.hash)]["txIndex" := Number(txIndex)]
                  ["type" := Text("Transfer")]["currencySymbol" := Text("CELO")]
                  ["from" := Text(t.sender)]["to" := Text(t.recipient)]["value" := Number(t.value)])
  {
    DottedThree(tx.hash, "internalTransfer", Show(i));
    assert tx.hash + ".internalTransfer." + Show(i) == tx.hash + "." + "internalTransfer" + "." + Show(i);
    OverlayAppend(base, TxArgs(tx, txIndex), TransferArgs(t));
    OverlayTwo(base, ("txHash", Text(tx.hash)), ("txIndex", Number(txIndex)));
    TransferValues(base["txHash" := Text(tx.hash)]["txIndex" := Number(txIndex)], t);
  }

  lemma RawValues(values: Values, raw: RawEvent)
    ensures Overlay(values, RawArgs(raw))
         == values["type" := Text("Event")]["loggedBy" := Text(raw.loggedBy)]["rawEvent" := Text(raw.json)]
                  ["topic0" := if |raw.topics| > 0 then Text(raw.topics[0]) else Null]
                  ["topic1" := if |raw.topics| > 1 then Text(raw.topics[1]) else Null]
                  ["topic2" := if |raw.topics| > 2 then Text(raw.topics[2]) else Null]
                  ["topic3" := if |raw.topics| > 3 then Text(raw.topics[3]) else Null]
                  ["data" := Text("0x" + raw.data)]
  {
    var args := RawArgs(raw);
    OverlayFour(values, args[0], args[1], args[2], args[3]);
    OverlayFour(Overlay(values, args[..4]), args[4], args[5], args[6], args[7]);
    OverlayAppend(values, args[..4], args[4..]);
    assert args == args[..4] + args[4..];
    assert args[..4] == [args[0], args[1], args[2], args[3]] && args[4..] == [args[4], args[5], args[6], args[7]];
  }

  /** What the rows of a log start from: its position and, if it could be marshalled, the raw event. */
  lemma EventValues(base: Values, tx: Transaction, txIndex: nat, i: nat, log: EventLog)
    ensures KeysNonEmpty(EventArgs(TxArgs(tx, txIndex), i, log))
    ensures var values := base["txHash" := Text(tx.hash)]["txIndex" := Number(txIndex)]
                              ["logTxIndex" := Number(i)]["logBlockIndex" := Number(log.index)];
            Overlay(base, EventArgs(TxArgs(tx, txIndex), i, log))
            == if log.raw.None? then values
               else var raw := log.raw.value;
                    values["type" := Text("Event")]["loggedBy" := Text(raw.loggedBy)]["rawEvent" := Text(raw.json)]
                          ["topic0" := if |raw.topics| > 0 then Text(raw.topics[0]) else Null]
                          ["topic1" := if |raw.topics| > 1 then Text(raw.topics[1]) else Null]
                          ["topic2" := if |raw.topics| > 2 then Text(raw.topics[2]) else Null]
                          ["topic3" := if |raw.topics| > 3 then Text(raw.topics[3]) else Null]
                          ["data" := Text("0x" + raw.data)]
  {
    var txArgs, logArgs := TxArgs(tx, txIndex), LogArgs(i, log);
    OverlayAppend(base, txArgs, logArgs);
    OverlayTwo(base, ("txHash", Text(tx.hash)), ("txIndex", Number(txIndex)));
    OverlayTwo(Overlay(base, txArgs), ("logTxIndex", Number(i)), ("logBlockIndex", Number(log.index)));
    if log.raw.Some? {
      OverlayAppend(base, txArgs + logArgs, RawArgs(log.raw.value));
      RawValues(Overlay(base, txArgs + logArgs), log.raw.value);
    }
  }

  /**
   The row of the i-th log of a transaction, if it was parsed and encoded: on top of that the
   contract and the event, then the decoded arguments.
   */
  lemma EventRow(base: Values, tx: Transaction, txIndex: nat, i: nat, log: EventLog)
    requires log.outcome.Encoded? && KeysNonEmpty(log.outcome.slice)
    ensures KeysNonEmpty(EventArgs(TxArgs(tx, txIndex), i, log))
    ensures Makes(base, EventSpec(tx.hash, TxArgs(tx, txIndex), i, log), tx.hash + ".event." + Show(i),
                  Overlay(Overlay(base, EventArgs(TxArgs(tx, txIndex), i, log))
                          ["contract" := Text(log.outcome.contract)]["event" := Text(log.outcome.event)],
                          log.outcome.slice))
  {
    DottedThree(tx.hash, "event", Show(i));
    assert tx.hash + ".event." + Show(i) == tx.hash + "." + "event" + "." + Show(i);
    ParsedThenSlice(base, EventArgs(TxArgs(tx, txIndex), i, log), log.outcome.contract, log.outcome.event, log.outcome.slice);
  }

  lemma ParsedThenSlice(base: Values, args: Args, contract: string, event: string, slice: Args)
    requires KeysNonEmpty(args) && KeysNonEmpty(slice)
    ensures KeysNonEmpty(args + ParsedArgs(contract, event) + slice)
    ensures Overlay(base, args + ParsedArgs(contract, event) + slice)
         == Overlay(Overlay(base, args)["contract" := Text(contract)]["event" := Text(event)], slice)
  {
    OverlayAppend(base, args, ParsedArgs(contract, event));
    OverlayAppend(base, args + ParsedArgs(contract, event), slice);
    OverlayTwo(Overlay(base, args), ("contract", Text(contract)), ("event", Text(event)));
  }

  /** How many of the first n logs are parsed and encoded. */
  function EncodedBefore(logs: seq<EventLog>, n: nat): nat
    requires n <= |logs|
  {
    |set i | 0 <= i < n && logs[i].outcome.Encoded?|
  }

  lemma EncodedNext(logs: seq<EventLog>, n: nat)
    requires n < |logs|
    ensures EncodedBefore(logs, n + 1) == EncodedBefore(logs, n) + if logs[n].outcome.Encoded? then 1 else 0
  {
    var before := set i | 0 <= i < n && logs[i].outcome.Encoded?;
    var after := set i | 0 <= i < n + 1 && logs[i].outcome.Encoded?;
    assert after == if logs[n].outcome.Encoded? then before + {n} else before;
  }

  lemma {:induction false} LogRowCount(hash: string, txArgs: Args, logs: seq<EventLog>, n: nat)
    requires n <= |logs|
    ensures |LogSpecs(hash, txArgs, logs, n)| == EncodedBefore(logs, n)
  {
    if n > 0 {
      LogRowCount(hash, txArgs, logs, n - 1);
      EncodedNext(logs, n - 1);
    }
  }

  lemma {:induction false} LogRowAt(hash: string, txArgs: Args, logs: seq<EventLog>, n: nat, i: nat)
    requires i < n <= |logs| && logs[i].outcome.Encoded?
    ensures EncodedBefore(logs, i) < |LogSpecs(hash, txArgs, logs, n)|
    ensures LogSpecs(hash, txArgs, logs, n)[EncodedBefore(logs, i)] == EventSpec(hash, txArgs, i, logs[i])
  {
    if i == n - 1 {
      LogRowCount(hash, txArgs, logs, i);
      assert LogSpec(hash, txArgs, i, logs[i]) == [EventSpec(hash, txArgs, i, logs[i])];
    } else {
      LogRowAt(hash, txArgs, logs, n - 1, i);
    }
  }

  /**
   The rows of the i-th transaction, in order: its own, one for each log that was parsed and
   encoded, and with debugging one for each internal transfer. Nothing without a receipt, and
   no transfers if they could not be traced.
   */
  lemma ChainRowsInOrder(txs: seq<Transaction>, debug: bool, i: nat)
    requires i < |txs|
    ensures |TransactionRows(txs, debug)| == |txs|
    ensures txs[i].receipt.None? ==> TransactionRows(txs, debug)[i] == []
    ensures txs[i].receipt.Some? ==>
              var tx, rows := txs[i], TransactionRows(txs, debug)[i];
              var logs := tx.receipt.value.logs;
              var first := 1 + EncodedBefore(logs, |logs|);
              && |rows| == first + (if debug && tx.transfers.Some? then |tx.transfers.value| else 0)
              && rows[0] == TransactionSpec(tx, i, tx.receipt.value.gasUsed)
              && (forall k :: 0 <= k < |logs| && logs[k].outcome.Encoded? ==>
                   1 + EncodedBefore(logs, k) < first
                   && rows[1 + EncodedBefore(logs, k)] == EventSpec(tx.hash, TxArgs(tx, i), k, logs[k]))
              && (debug && tx.transfers.Some? ==> forall k :: 0 <= k < |tx.transfers.value| ==>
                   rows[first + k] == TransferSpec(tx.hash, TxArgs(tx, i), k, tx.transfers.value[k]))
  {
    var tx := txs[i];
    if tx.receipt.Some? {
      var logs := tx.receipt.value.logs;
      LogRowCount(tx.hash, TxArgs(tx, i), logs, |logs|);
      forall k | 0 <= k < |logs| && logs[k].outcome.Encoded?
        ensures EncodedBefore(logs, k) < EncodedBefore(logs, |logs|)
        ensures TransactionRows(txs, debug)[i][1 + EncodedBefore(logs, k)] == EventSpec(tx.hash, TxArgs(tx, i), k, logs[k])
      {
        LogRowAt(tx.hash, TxArgs(tx, i), logs, |logs|, k);
      }
    }
  }

  // ----- SortedOracles

  /** A row for one call to SortedOracles. */
  lemma CallRow(base: Values, block: string, t: Token, name: string, args: Args)
    requires KeysNonEmpty(args)
    ensures Makes(base, CallSpec(block, t, name, args), block + "." + "SortedOracles" + "." + t.address + "." + name,
                  Overlay(base["contract" := Text("SortedOracles")]["stableToken" := Text(t.name)]["address" := Text(t.address)]
                          ["method" := Text(name)]["type" := Text("ViewCall")], args))
  {
    assert ContractParts(block, t) + [name] == [block, "SortedOracles", t.address, name];
    DottedFour(block, "SortedOracles", t.address, name);
    CallValues(base, t, name, args);
  }

  lemma CallValues(base: Values, t: Token, name: string, args: Args)
    requires KeysNonEmpty(args)
    ensures KeysNonEmpty(ContractArgs(t) + (NamedCall(name) + args))
    ensures Overlay(base, ContractArgs(t) + (NamedCall(name) + args))
         == Overlay(base["contract" := Text("SortedOracles")]["stableToken" := Text(t.name)]["address" := Text(t.address)]
                    ["method" := Text(name)]["type" := Text("ViewCall")], args)
  {
    OverlayAppend(base, ContractArgs(t), NamedCall(name) + args);
    NamedContractIs(base, "SortedOracles", TokenArgs(t));
    OverlayTwo(base["contract" := Text("SortedOracles")], ("stableToken", Text(t.name)), ("address", Text(t.address)));
    NamedCallIs(Overlay(base, ContractArgs(t)), name, args);
  }

  /** The rows of the calls that answer with single values: the arguments laid over the call's row. */
  lemma CallArguments(values: Values, expired: (bool, string), rate: (int, int), key: string, number: int)
    requires IsSmall(key)
    ensures Overlay(values, ExpiredArgs(expired))
         == values["isOldestReportExpired" := Flag(expired.0)]["lastReportAddress" := Text(expired.1)]
    ensures Overlay(values, NumberArgs(key, number)) == values[key := Number(number)]
    ensures Overlay(values, MedianRateArgs(rate))
         == values["medianRateNumerator" := Number(rate.0)]["medianRateDenominator" := Number(rate.1)]
  {
    OverlayTwo(values, ("isOldestReportExpired", Flag(expired.0)), ("lastReportAddress", Text(expired.1)));
    OverlayOne(values, (key, Number(number)));
    OverlayTwo(values, ("medianRateNumerator", Number(rate.0)), ("medianRateDenominator", Number(rate.1)));
  }

  /** The row for the i-th entry of a call that returns lists. */
  lemma EntryRow(base: Values, block: string, t: Token, name: string, addressKey: string, valueKey: string, report: Report, i: nat)
    requires IsSmall(addressKey) && IsSmall(valueKey)
    ensures Makes(base, EntrySpec(block, t, name, ReportArgs(addressKey, valueKey, report, i), i),
                  block + "." + "SortedOracles" + "." + t.address + "." + name + "." + Show(i),
                  base["contract" := Text("SortedOracles")]["stableToken" := Text(t.name)]["address" := Text(t.address)]
                  ["method" := Text(name)]["type" := Text("ViewCall")]
                  [addressKey := Text(report.address)][valueKey := report.value]
                  ["medianRelation" := Number(report.relation)]["index" := Number(i)])
  {
    assert ContractParts(block, t) + [name, Show(i)] == [block, "SortedOracles", t.address, name, Show(i)];
    DottedFive(block, "SortedOracles", t.address, name, Show(i));
    CallValues(base, t, name, ReportArgs(addressKey, valueKey, report, i));
    var values := base["contract" := Text("SortedOracles")]["stableToken" := Text(t.name)]["address" := Text(t.address)]
                      ["method" := Text(name)]["type" := Text("ViewCall")];
    OverlayFour(values, (addressKey, Text(report.address)), (valueKey, report.value),
                ("medianRelation", Number(report.relation)), ("index", Number(i)));
  }

  /** The row of the exchange's buckets. */
  lemma BucketRow(base: Values, block: string, t: Token, reply: (int, int))
    ensures Makes(base, BucketSpec(block, t, reply), block + "." + t.exchange + "." + "getBuyAndSellBuckets",
                  base["contract" := Text(t.exchange)]["method" := Text("getBuyAndSellBuckets")]["type" := Text("ViewCall")]
                  ["celoBucketSize" := Number(reply.0)]["stableBucketSize" := Number(reply.1)])
  {
    DottedThree(block, t.exchange, "getBuyAndSellBuckets");
    NamedContractIs(base, t.exchange, NamedCall("getBuyAndSellBuckets") + BucketArgs(reply));
    NamedCallIs(base["contract" := Text(t.exchange)], "getBuyAndSellBuckets", BucketArgs(reply));
    OverlayTwo(base["contract" := Text(t.exchange)]["method" := Text("getBuyAndSellBuckets")]["type" := Text("ViewCall")],
               ("celoBucketSize", Number(reply.0)), ("stableBucketSize", Number(reply.1)));
  }

  /** The rows of the calls that answer with lists, and those after them. */
  lemma ListRowsInOrder(block: string, t: Token, o: Oracles)
    ensures Emitted(OracleCalls(block, t, o), 4) ==
      if o.rates.None? then [] else
      seq(|o.rates.value|, i requires 0 <= i < |o.rates.value| =>
        EntrySpec(block, t, "GetRates", ReportArgs("rateAddress", "rateValue", o.rates.value[i], i), i)) + (
      if o.timestamps.None? then [] else
      seq(|o.timestamps.value|, i requires 0 <= i < |o.timestamps.value| =>
        EntrySpec(block, t, "GetTimestamps", ReportArgs("timestampAddress", "reportedTimestamp", o.timestamps.value[i], i), i)) + (
      if o.buckets.None? then [] else [BucketSpec(block, t, o.buckets.value)]))
  {
    var calls := OracleCalls(block, t, o);
    assert Emitted(calls, 7) == [];
    assert Emitted(calls, 6) == if o.buckets.None? then [] else [BucketSpec(block, t, o.buckets.value)];
    assert Emitted(calls, 5) == if calls[5].None? then [] else calls[5].value + Emitted(calls, 6);
  }

  /**
   All rows of a token's processor, in order: one for each call, then for each entry of the
   lists, up to the first call that fails.
   */
  lemma OracleRowsInOrder(block: string, t: Token, o: Oracles)
    ensures OracleSpecs(block, t, o) ==
      if o.expired.None? then [] else
      [CallSpec(block, t, "IsOldestReportExpired", ExpiredArgs(o.expired.value))] + (
      if o.numRates.None? then [] else
      [CallSpec(block, t, "NumRates", NumberArgs("numRates", o.numRates.value))] + (
      if o.medianRate.None? then [] else
      [CallSpec(block, t, "MedianRate", MedianRateArgs(o.medianRate.value))] + (
      if o.medianTimestamp.None? then [] else
      [CallSpec(block, t, "MedianTimestamp", NumberArgs("medianTimestamp", o.medianTimestamp.value))]
      + Emitted(OracleCalls(block, t, o), 4))))
  {
    var calls := OracleCalls(block, t, o);
    assert Emitted(calls, 3) == if calls[3].None? then [] else calls[3].value + Emitted(calls, 4);
    assert Emitted(calls, 2) == if calls[2].None? then [] else calls[2].value + Emitted(calls, 3);
    assert Emitted(calls, 1) == if calls[1].None? then [] else calls[1].value + Emitted(calls, 2);
  }
}
