/** The rows of the chain-data and SortedOracles processors as data, and why their identifiers do not collide. */
module RowIds {
  import opened Prelude
  import opened Decimal
  import opened Rows

  /** A row made from the block row: the parts of its dotted identifier, and what was set on top of the block's values. */
  datatype RowSpec = RowSpec(parts: seq<string>, args: Args)

  predicate DistinctIds(s: seq<RowSpec>) {
    forall i, j :: 0 <= i < j < |s| ==> s[i].parts != s[j].parts
  }

  lemma DistinctConcat(a: seq<RowSpec>, b: seq<RowSpec>)
    requires DistinctIds(a) && DistinctIds(b) && forall x, y :: x in a && y in b ==> x.parts != y.parts
    ensures DistinctIds(a + b)
  {
    forall i, j | 0 <= i < j < |a + b| ensures (a + b)[i].parts != (a + b)[j].parts {
      if i < |a| <= j {
        assert (a + b)[i] == a[i] && (a + b)[j] == b[j - |a|];
        assert a[i] in a && b[j - |a|] in b;
      }
    }
  }

  // ----- Chain data

  datatype RawEvent = RawEvent(loggedBy: string, json: string, topics: seq<string>, data: string)

  /** What became of one event log: only a log that is parsed and encoded yields a row. */
  datatype LogOutcome = NotParsed | NotEncoded | Encoded(contract: string, event: string, slice: Args)

  datatype EventLog = EventLog(index: nat, raw: Option<RawEvent>, outcome: LogOutcome)

  datatype Receipt = Receipt(gasUsed: int, logs: seq<EventLog>)

  datatype Transfer = Transfer(sender: string, recipient: string, value: int)

  /** A transaction with the node's answers about it; None is an error of the node. */
  datatype Transaction = Transaction(
    hash: string,
    gasPrice: int,
    receipt: Option<Receipt>,
    transfers: Option<seq<Transfer>>
  )

  function TxArgs(tx: Transaction, txIndex: nat): (r: Args)
    ensures KeysNonEmpty(r)
  {
    [("txHash", Text(tx.hash)), ("txIndex", Number(txIndex))]
  }

  function TransactionArgs(tx: Transaction, gasUsed: int): (r: Args)
    ensures KeysNonEmpty(r)
  {
    [("type", Text("Transaction")), ("gasPrice", Number(tx.gasPrice)), ("gasUsed", Number(gasUsed))]
  }

  function LogArgs(i: nat, log: EventLog): (r: Args)
    ensures KeysNonEmpty(r)
  {
    [("logTxIndex", Number(i)), ("logBlockIndex", Number(log.index))]
  }

  function Topic(raw: RawEvent, i: nat): Value {
    if |raw.topics| > i then Text(raw.topics[i]) else Null
  }

  function RawArgs(raw: RawEvent): (r: Args)
    ensures KeysNonEmpty(r)
  {
    [("type", Text("Event")), ("loggedBy", Text(raw.loggedBy)), ("rawEvent", Text(raw.json)),
     ("topic0", Topic(raw, 0)), ("topic1", Topic(raw, 1)), ("topic2", Topic(raw, 2)), ("topic3", Topic(raw, 3)),
     ("data", Text("0x" + raw.data))]
  }

  function ParsedArgs(contract: string, event: string): (r: Args)
    ensures KeysNonEmpty(r)
  {
    [("contract", Text(contract)), ("event", Text(event))]
  }

  function TransferArgs(transfer: Transfer): (r: Args)
    ensures KeysNonEmpty(r)
  {
    [("type", Text("Transfer")), ("currencySymbol", Text("CELO")), ("from", Text(transfer.sender)),
     ("to", Text(transfer.recipient)), ("value", Number(transfer.value))]
  }

  function EventParts(hash: string, i: nat): seq<string> {
    [hash, "event", Show(i)]
  }

  function TransferParts(hash: string, i: nat): seq<string> {
    [hash, "internalTransfer", Show(i)]
  }

  function TransactionSpec(tx: Transaction, txIndex: nat, gasUsed: int): RowSpec {
    RowSpec([tx.hash], TxArgs(tx, txIndex) + TransactionArgs(tx, gasUsed))
  }

  /** What the event row holds when the log has been marshalled, or could not be. */
  function EventArgs(txArgs: Args, i: nat, log: EventLog): Args {
    var args := txArgs + LogArgs(i, log);
    if log.raw.Some? then args + RawArgs(log.raw.value) else args
  }

  function EventSpec(hash: string, txArgs: Args, i: nat, log: EventLog): RowSpec
    requires log.outcome.Encoded?
  {
    RowSpec(EventParts(hash, i),
            EventArgs(txArgs, i, log) + ParsedArgs(log.outcome.contract, log.outcome.event) + log.outcome.slice)
  }

  /** The rows of one log: none unless it was parsed and encoded. */
  function LogSpec(hash: string, txArgs: Args, i: nat, log: EventLog): seq<RowSpec> {
    if log.outcome.Encoded? then [EventSpec(hash, txArgs, i, log)] else []
  }

  /** The rows of the first n logs. */
  function LogSpecs(hash: string, txArgs: Args, logs: seq<EventLog>, n: nat): seq<RowSpec>
    requires n <= |logs|
  {
    if n == 0 then [] else LogSpecs(hash, txArgs, logs, n - 1) + LogSpec(hash, txArgs, n - 1, logs[n - 1])
  }

  function TransferSpec(hash: string, txArgs: Args, i: nat, transfer: Transfer): RowSpec {
    RowSpec(TransferParts(hash, i), txArgs + TransferArgs(transfer))
  }

  function TransferSpecs(hash: string, txArgs: Args, transfers: seq<Transfer>, n: nat): seq<RowSpec>
    requires n <= |transfers|
  {
    seq(n, i requires 0 <= i < n => TransferSpec(hash, txArgs, i, transfers[i]))
  }

  /** The transaction's own row and the rows of its events. */
  function ReceiptSpecs(tx: Transaction, txIndex: nat, receipt: Receipt): seq<RowSpec> {
    [TransactionSpec(tx, txIndex, receipt.gasUsed)]
    + LogSpecs(tx.hash, TxArgs(tx, txIndex), receipt.logs, |receipt.logs|)
  }

  /** One transaction's rows. A node error stops the transaction where it happens. */
  function TransactionSpecs(tx: Transaction, txIndex: nat, debug: bool): seq<RowSpec> {
    if tx.receipt.None? then []
    else if debug && tx.transfers.Some? then
      ReceiptSpecs(tx, txIndex, tx.receipt.value)
      + TransferSpecs(tx.hash, TxArgs(tx, txIndex), tx.transfers.value, |tx.transfers.value|)
    else ReceiptSpecs(tx, txIndex, tx.receipt.value)
  }

  /** The rows of each transaction of a block. */
  function TransactionRows(txs: seq<Transaction>, debug: bool): seq<seq<RowSpec>> {
    seq(|txs|, i requires 0 <= i < |txs| => TransactionSpecs(txs[i], i, debug))
  }

  function Flatten(rows: seq<seq<RowSpec>>, n: nat): seq<RowSpec>
    requires n <= |rows|
  {
    if n == 0 then [] else Flatten(rows, n - 1) + rows[n - 1]
  }

  /** The rows of all transactions of a block. */
  function BlockSpecs(txs: seq<Transaction>, debug: bool): seq<RowSpec> {
    Flatten(TransactionRows(txs, debug), |txs|)
  }

  lemma {:induction false} LogIdsDistinct(hash: string, txArgs: Args, logs: seq<EventLog>, n: nat)
    requires n <= |logs|
    ensures DistinctIds(LogSpecs(hash, txArgs, logs, n))
    ensures forall x :: x in LogSpecs(hash, txArgs, logs, n) ==> exists i: nat :: i < n && x.parts == EventParts(hash, i)
  {
    if n == 0 {
    } else {
      LogIdsDistinct(hash, txArgs, logs, n - 1);
      var before, last := LogSpecs(hash, txArgs, logs, n - 1), LogSpec(hash, txArgs, n - 1, logs[n - 1]);
      forall x, y | x in before && y in last ensures x.parts != y.parts {
        var i: nat :| i < n - 1 && x.parts == EventParts(hash, i);
        assert x.parts[2] == Show(i) && y.parts[2] == Show(n - 1);
        ShowInjective(i, n - 1);
      }
      DistinctConcat(before, last);
    }
  }

  lemma TransferIdsDistinct(hash: string, txArgs: Args, transfers: seq<Transfer>, n: nat)
    requires n <= |transfers|
    ensures DistinctIds(TransferSpecs(hash, txArgs, transfers, n))
    ensures forall x :: x in TransferSpecs(hash, txArgs, transfers, n) ==>
              exists i: nat :: i < n && x.parts == TransferParts(hash, i)
  {
    var rows := TransferSpecs(hash, txArgs, transfers, n);
    forall i, j | 0 <= i < j < n ensures rows[i].parts != rows[j].parts {
      assert rows[i].parts[2] == Show(i) && rows[j].parts[2] == Show(j);
      ShowInjective(i, j);
    }
  }

  /** The parts of a transaction's identifiers, each telling the transaction it belongs to. */
  ghost predicate BelongsTo(p: seq<string>, hash: string) {
    && |p| > 0 && p[0] == hash
    && (p == [hash] || (exists i: nat :: p == EventParts(hash, i)) || exists i: nat :: p == TransferParts(hash, i))
  }

  ghost predicate TransactionIdsOk(rows: seq<RowSpec>, hash: string) {
    DistinctIds(rows) && forall x :: x in rows ==> BelongsTo(x.parts, hash)
  }

  lemma {:induction false} TransactionIdsDistinct(tx: Transaction, txIndex: nat, debug: bool)
    ensures TransactionIdsOk(TransactionSpecs(tx, txIndex, debug), tx.hash)
  {
    if tx.receipt.Some? {
      var txArgs, logs := TxArgs(tx, txIndex), tx.receipt.value.logs;
      var own := [TransactionSpec(tx, txIndex, tx.receipt.value.gasUsed)];
      var events := LogSpecs(tx.hash, txArgs, logs, |logs|);
      LogIdsDistinct(tx.hash, txArgs, logs, |logs|);
      forall x | x in events ensures |x.parts| == 3 && BelongsTo(x.parts, tx.hash) && x.parts[1] == "event" {
        var i: nat :| x.parts == EventParts(tx.hash, i);
      }
      DistinctConcat(own, events);
      if debug && tx.transfers.Some? {
        var transfers := TransferSpecs(tx.hash, txArgs, tx.transfers.value, |tx.transfers.value|);
        TransferIdsDistinct(tx.hash, txArgs, tx.transfers.value, |tx.transfers.value|);
        forall x | x in transfers
          ensures |x.parts| == 3 && BelongsTo(x.parts, tx.hash) && x.parts[1] == "internalTransfer"
        {
          var i: nat :| x.parts == TransferParts(tx.hash, i);
        }
        DistinctConcat(own + events, transfers);
      }
    }
  }

  /** Distinct identifiers, each of one of the first n transactions. */
  ghost predicate BlockIdsOk(rows: seq<RowSpec>, txs: seq<Transaction>, n: nat)
    requires n <= |txs|
  {
    DistinctIds(rows) && forall x :: x in rows ==> exists i :: 0 <= i < n && BelongsTo(x.parts, txs[i].hash)
  }

  lemma JoinTransaction(before: seq<RowSpec>, last: seq<RowSpec>, txs: seq<Transaction>, n: nat)
    requires n < |txs| && forall i, j :: 0 <= i < j < |txs| ==> txs[i].hash != txs[j].hash
    requires BlockIdsOk(before, txs, n)
    requires TransactionIdsOk(last, txs[n].hash)
    ensures BlockIdsOk(before + last, txs, n + 1)
  {
    forall x, y | x in before && y in last ensures x.parts != y.parts {
      var i :| 0 <= i < n && BelongsTo(x.parts, txs[i].hash);
      assert x.parts[0] == txs[i].hash && y.parts[0] == txs[n].hash;
    }
    DistinctConcat(before, last);
  }

  lemma {:induction false} FlattenDistinct(rows: seq<seq<RowSpec>>, txs: seq<Transaction>, n: nat)
    requires n <= |txs| == |rows| && forall i, j :: 0 <= i < j < |txs| ==> txs[i].hash != txs[j].hash
    requires forall i :: 0 <= i < |txs| ==> TransactionIdsOk(rows[i], txs[i].hash)
    ensures BlockIdsOk(Flatten(rows, n), txs, n)
  {
    if n == 0 {
    } else {
      FlattenDistinct(rows, txs, n - 1);
      JoinTransaction(Flatten(rows, n - 1), rows[n - 1], txs, n - 1);
    }
  }

  lemma BlockIdsDistinct(txs: seq<Transaction>, debug: bool)
    requires forall i, j :: 0 <= i < j < |txs| ==> txs[i].hash != txs[j].hash
    ensures BlockIdsOk(BlockSpecs(txs, debug), txs, |txs|)
  {
    forall i | 0 <= i < |txs| ensures TransactionIdsOk(TransactionRows(txs, debug)[i], txs[i].hash) {
      TransactionIdsDistinct(txs[i], i, debug);
    }
    FlattenDistinct(TransactionRows(txs, debug), txs, |txs|);
  }

  lemma BelongsIsDotFree(p: seq<string>, hash: string)
    requires BelongsTo(p, hash) && DotFree(hash)
    ensures AllDotFree(p)
  {
    if i: nat :| p == EventParts(hash, i) {
      ShowIsDotFree(i);
    } else if i: nat :| p == TransferParts(hash, i) {
      ShowIsDotFree(i);
    }
  }

  /**
   The transaction, event and transfer rows of one block have pairwise distinct identifiers,
   as long as the block's transaction hashes are distinct (and, being hexadecimal, dot-free).
   */
  lemma {:induction false} ChainRowIdsDistinct(txs: seq<Transaction>, debug: bool, i: nat, j: nat)
    requires forall i, j :: 0 <= i < j < |txs| ==> txs[i].hash != txs[j].hash
    requires forall i :: 0 <= i < |txs| ==> DotFree(txs[i].hash)
    requires i < j < |BlockSpecs(txs, debug)|
    ensures var rows := BlockSpecs(txs, debug);
            |rows[i].parts| > 0 && |rows[j].parts| > 0 && Dotted(rows[i].parts) != Dotted(rows[j].parts)
  {
    var rows := BlockSpecs(txs, debug);
    BlockIdsDistinct(txs, debug);
    assert rows[i] in rows && rows[j] in rows && rows[i].parts != rows[j].parts;
    var a :| 0 <= a < |txs| && BelongsTo(rows[i].parts, txs[a].hash);
    var b :| 0 <= b < |txs| && BelongsTo(rows[j].parts, txs[b].hash);
    BelongsIsDotFree(rows[i].parts, txs[a].hash);
    BelongsIsDotFree(rows[j].parts, txs[b].hash);
    if Dotted(rows[i].parts) == Dotted(rows[j].parts) {
      DottedInjective(rows[i].parts, rows[j].parts);
    }
  }

  /** c has the rows of a and of b, each in their own order. */
  predicate Shuffle(a: seq<RowSpec>, b: seq<RowSpec>, c: seq<RowSpec>)
    decreases |c|
  {
    if c == [] then a == [] && b == []
    else
      || (a != [] && c[|c| - 1] == a[|a| - 1] && Shuffle(a[..|a| - 1], b, c[..|c| - 1]))
      || (b != [] && c[|c| - 1] == b[|b| - 1] && Shuffle(a, b[..|b| - 1], c[..|c| - 1]))
  }

  /** c has the rows of the first n transactions, those of each transaction in their own order. */
  ghost predicate Woven(rows: seq<seq<RowSpec>>, n: nat, c: seq<RowSpec>)
    requires n <= |rows|
    decreases n, 0
  {
    if n == 0 then c == [] else WovenWith(rows, n - 1, rows[n - 1], c)
  }

  ghost predicate WovenWith(rows: seq<seq<RowSpec>>, n: nat, last: seq<RowSpec>, c: seq<RowSpec>)
    requires n <= |rows|
    decreases n, 1
  {
    exists before :: Woven(rows, n, before) && Shuffle(before, last, c)
  }

  lemma WovenNext(rows: seq<seq<RowSpec>>, n: nat, before: seq<RowSpec>, c: seq<RowSpec>)
    requires n < |rows| && Woven(rows, n, before) && Shuffle(before, rows[n], c)
    ensures Woven(rows, n + 1, c)
  {
    assert WovenWith(rows, n, rows[n], c);
  }

  /** The places at which the rows of s are in c, in order. */
  ghost predicate Places(p: seq<nat>, s: seq<RowSpec>, c: seq<RowSpec>) {
    |p| == |s| && Ascending(p) && forall i :: 0 <= i < |p| ==> p[i] < |c| && c[p[i]] == s[i]
  }

  /** Each place of c is one of exactly one of the two. */
  ghost predicate Split(p: seq<nat>, q: seq<nat>, c: seq<RowSpec>) {
    forall k: nat :: k < |c| ==> (k in p <==> k !in q)
  }

  lemma {:induction false} ShuffleHasPlaces(a: seq<RowSpec>, b: seq<RowSpec>, c: seq<RowSpec>) returns (p: seq<nat>, q: seq<nat>)
    requires Shuffle(a, b, c)
    ensures Places(p, a, c) && Places(q, b, c) && Split(p, q, c)
    decreases |c|
  {
    if c == [] {
      p, q := [], [];
    } else {
      var last := |c| - 1;
      if a != [] && c[last] == a[|a| - 1] && Shuffle(a[..|a| - 1], b, c[..last]) {
        p, q := ShuffleHasPlaces(a[..|a| - 1], b, c[..last]);
        p := p + [last];
      } else {
        p, q := ShuffleHasPlaces(a, b[..|b| - 1], c[..last]);
        q := q + [last];
      }
    }
  }

  lemma LastPlace(p: seq<nat>, s: seq<RowSpec>, c: seq<RowSpec>)
    requires Places(p, s, c) && c != []
    ensures |c| - 1 in p ==> s != [] && p[|p| - 1] == |c| - 1 && Places(p[..|p| - 1], s[..|s| - 1], c[..|c| - 1])
    ensures |c| - 1 !in p ==> Places(p, s, c[..|c| - 1])
  {
    if |c| - 1 in p {
      var i :| 0 <= i < |p| && p[i] == |c| - 1;
      assert p[i] <= p[|p| - 1];
    }
  }

  lemma {:induction false} PlacesAreShuffle(a: seq<RowSpec>, b: seq<RowSpec>, c: seq<RowSpec>, p: seq<nat>, q: seq<nat>)
    requires Places(p, a, c) && Places(q, b, c) && Split(p, q, c)
    ensures Shuffle(a, b, c)
    decreases |c|
  {
    if c == [] {
    } else {
      var last := |c| - 1;
      LastPlace(p, a, c);
      LastPlace(q, b, c);
      if last in p {
        assert p == p[..|p| - 1] + [last];
        PlacesAreShuffle(a[..|a| - 1], b, c[..last], p[..|p| - 1], q);
      } else {
        assert q == q[..|q| - 1] + [last];
        PlacesAreShuffle(a, b[..|b| - 1], c[..last], p, q[..|q| - 1]);
      }
    }
  }

  /** The interleavings of two sequences are the sequences in which both have their places, in order. */
  lemma {:induction false} ShuffleExactly(a: seq<RowSpec>, b: seq<RowSpec>, c: seq<RowSpec>)
    ensures Shuffle(a, b, c) <==> exists p, q :: Places(p, a, c) && Places(q, b, c) && Split(p, q, c)
  {
    if Shuffle(a, b, c) {
      var p, q := ShuffleHasPlaces(a, b, c);
    }
    if p, q :| Places(p, a, c) && Places(q, b, c) && Split(p, q, c) {
      PlacesAreShuffle(a, b, c, p, q);
    }
  }

  lemma PlacesWithin(p: seq<nat>, s: seq<RowSpec>, q: seq<nat>, before: seq<RowSpec>, c: seq<RowSpec>)
    requires Places(p, s, before) && Places(q, before, c)
    ensures Places(seq(|p|, i requires 0 <= i < |p| => q[p[i]]), s, c)
  {
  }

  /** Whatever the order of arrival, the rows of each transaction are in theirs. */
  lemma {:induction false} WovenKeepsOrder(rows: seq<seq<RowSpec>>, n: nat, c: seq<RowSpec>, i: nat)
    requires i < n <= |rows| && Woven(rows, n, c)
    ensures exists p :: Places(p, rows[i], c)
  {
    assert WovenWith(rows, n - 1, rows[n - 1], c);
    var before :| Woven(rows, n - 1, before) && Shuffle(before, rows[n - 1], c);
    var q, p := ShuffleHasPlaces(before, rows[n - 1], c);
    if i < n - 1 {
      WovenKeepsOrder(rows, n - 1, before, i);
      p :| Places(p, rows[i], before);
      PlacesWithin(p, rows[i], q, before, c);
    }
  }

  lemma MultisetSnoc(s: seq<RowSpec>)
    requires s != []
    ensures multiset(s) == multiset(s[..|s| - 1]) + multiset{s[|s| - 1]}
  {
    assert s == s[..|s| - 1] + [s[|s| - 1]];
  }

  lemma {:induction false} ShuffleIsPermuted(a: seq<RowSpec>, b: seq<RowSpec>, c: seq<RowSpec>)
    requires Shuffle(a, b, c)
    ensures multiset(c) == multiset(a) + multiset(b)
    decreases |c|
  {
    if c == [] {
    } else if a != [] && c[|c| - 1] == a[|a| - 1] && Shuffle(a[..|a| - 1], b, c[..|c| - 1]) {
      ShuffleIsPermuted(a[..|a| - 1], b, c[..|c| - 1]);
      MultisetSnoc(c);
      MultisetSnoc(a);
    } else {
      ShuffleIsPermuted(a, b[..|b| - 1], c[..|c| - 1]);
      MultisetSnoc(c);
      MultisetSnoc(b);
    }
  }

  lemma {:induction false} WovenIsPermuted(rows: seq<seq<RowSpec>>, n: nat, c: seq<RowSpec>)
    requires n <= |rows| && Woven(rows, n, c)
    ensures multiset(c) == multiset(Flatten(rows, n))
  {
    if n == 0 {
    } else {
      var before :| Woven(rows, n - 1, before) && Shuffle(before, rows[n - 1], c);
      WovenIsPermuted(rows, n - 1, before);
      ShuffleIsPermuted(before, rows[n - 1], c);
    }
  }

  lemma {:induction false} TwiceInMultiset(s: seq<RowSpec>, i: nat, j: nat)
    requires i < j < |s| && s[i] == s[j]
    ensures multiset(s)[s[i]] >= 2
  {
    assert s == s[..j] + [s[j]] + s[j + 1..];
    assert s[i] in s[..j];
  }

  lemma {:induction false} OnceInMultiset(s: seq<RowSpec>, x: RowSpec)
    requires DistinctIds(s)
    ensures multiset(s)[x] <= 1
  {
    if s == [] {
    } else {
      var front, last := s[..|s| - 1], s[|s| - 1];
      assert s == front + [last];
      OnceInMultiset(front, x);
      assert forall i :: 0 <= i < |front| ==> front[i] == s[i] && front[i].parts != last.parts;
    }
  }

  predicate NoneTwice(p: seq<nat>) {
    forall i, j :: 0 <= i < j < |p| ==> p[i] != p[j]
  }

  function Without(s: seq<RowSpec>, j: nat): seq<RowSpec>
    requires j < |s|
  {
    s[..j] + s[j + 1..]
  }

  lemma WithoutOne(s: seq<RowSpec>, j: nat)
    requires j < |s|
    ensures multiset(Without(s, j)) + multiset{s[j]} == multiset(s)
  {
    assert s == s[..j] + [s[j]] + s[j + 1..];
  }

  lemma WithoutBoth(a: seq<RowSpec>, b: seq<RowSpec>, j: nat)
    requires a != [] && multiset(a) == multiset(b) && j < |b| && b[j] == a[|a| - 1]
    ensures multiset(a[..|a| - 1]) == multiset(Without(b, j))
  {
    var x := multiset{b[j]};
    MultisetSnoc(a);
    WithoutOne(b, j);
    assert multiset(a[..|a| - 1]) == multiset(a) - x && multiset(Without(b, j)) == multiset(b) - x;
  }

  /** The rows of two sequences in different orders, paired one for one. */
  lemma {:induction false} Pairing(a: seq<RowSpec>, b: seq<RowSpec>) returns (p: seq<nat>)
    requires multiset(a) == multiset(b)
    ensures |p| == |a| == |b| && NoneTwice(p)
    ensures forall i :: 0 <= i < |a| ==> p[i] < |b| && b[p[i]] == a[i]
  {
    assert |multiset(a)| == |multiset(b)|;
    if a == [] {
      p := [];
    } else {
      var k := |a| - 1;
      assert a[k] in multiset(b);
      var j :| 0 <= j < |b| && b[j] == a[k];
      WithoutBoth(a, b, j);
      var q := Pairing(a[..k], Without(b, j));
      p := seq(k, i requires 0 <= i < k => if q[i] < j then q[i] else q[i] + 1) + [j];
    }
  }

  /**
   The transactions are processed concurrently: their rows have distinct identifiers in
   whatever order they come.
   */
  lemma {:induction false} AnyOrderDistinct(txs: seq<Transaction>, debug: bool, sent: seq<RowSpec>, i: nat, j: nat)
    requires forall i, j :: 0 <= i < j < |txs| ==> txs[i].hash != txs[j].hash
    requires forall i :: 0 <= i < |txs| ==> DotFree(txs[i].hash)
    requires Woven(TransactionRows(txs, debug), |txs|, sent) && i < j < |sent|
    ensures |sent[i].parts| > 0 && |sent[j].parts| > 0 && Dotted(sent[i].parts) != Dotted(sent[j].parts)
  {
    BlockIdsDistinct(txs, debug);
    WovenIsPermuted(TransactionRows(txs, debug), |txs|, sent);
    PermutedDistinct(BlockSpecs(txs, debug), sent);
    forall x | x in sent ensures |x.parts| > 0 && AllDotFree(x.parts) {
      assert x in multiset(sent) && x in BlockSpecs(txs, debug);
      var a :| 0 <= a < |txs| && BelongsTo(x.parts, txs[a].hash);
      BelongsIsDotFree(x.parts, txs[a].hash);
    }
    if Dotted(sent[i].parts) == Dotted(sent[j].parts) {
      DottedInjective(sent[i].parts, sent[j].parts);
    }
  }

  lemma PermutedDistinct(s: seq<RowSpec>, t: seq<RowSpec>)
    requires DistinctIds(s) && multiset(s) == multiset(t)
    ensures DistinctIds(t)
  {
    forall i, j | 0 <= i < j < |t| ensures t[i].parts != t[j].parts {
      if t[i] == t[j] {
        TwiceInMultiset(t, i, j);
        OnceInMultiset(s, t[i]);
      } else {
        assert t[i] in multiset(t) && t[j] in multiset(t);
        assert t[i] in s && t[j] in s;
        var a :| 0 <= a < |s| && s[a] == t[i];
        var b :| 0 <= b < |s| && s[b] == t[j];
        assert a < b || b < a;
      }
    }
  }

  // ----- SortedOracles

  /** One stable token: its name and address, and its exchange's registry identifier. */
  datatype Token = Token(name: string, address: string, exchange: string)

  /** One oracle's entry in a list of rates or of timestamps. */
  datatype Report = Report(address: string, value: Value, relation: int)

  /** The node's answers for one stable token, in the order of the calls; None is an error. */
  datatype Oracles = Oracles(
    expired: Option<(bool, string)>,
    numRates: Option<int>,
    medianRate: Option<(int, int)>,
    medianTimestamp: Option<int>,
    rates: Option<seq<Report>>,
    timestamps: Option<seq<Report>>,
    buckets: Option<(int, int)>
  )

  function ContractParts(block: string, t: Token): seq<string> {
    [block, "SortedOracles", t.address]
  }

  function TokenArgs(t: Token): (r: Args)
    ensures KeysNonEmpty(r)
  {
    [("stableToken", Text(t.name)), ("address", Text(t.address))]
  }

  function ContractArgs(t: Token): (r: Args)
    ensures KeysNonEmpty(r)
  {
    NamedContract("SortedOracles") + TokenArgs(t)
  }

  function ExpiredArgs(reply: (bool, string)): (r: Args)
    ensures KeysNonEmpty(r)
  {
    [("isOldestReportExpired", Flag(reply.0)), ("lastReportAddress", Text(reply.1))]
  }

  function NumberArgs(key: string, value: int): (r: Args)
    requires key != ""
    ensures KeysNonEmpty(r)
  {
    [(key, Number(value))]
  }

  function MedianRateArgs(reply: (int, int)): (r: Args)
    ensures KeysNonEmpty(r)
  {
    [("medianRateNumerator", Number(reply.0)), ("medianRateDenominator", Number(reply.1))]
  }

  function ReportArgs(addressKey: string, valueKey: string, report: Report, i: nat): (r: Args)
    requires addressKey != "" && valueKey != ""
    ensures KeysNonEmpty(r)
  {
    [(addressKey, Text(report.address)), (valueKey, report.value), ("medianRelation", Number(report.relation)),
     ("index", Number(i))]
  }

  function BucketArgs(reply: (int, int)): (r: Args)
    ensures KeysNonEmpty(r)
  {
    [("celoBucketSize", Number(reply.0)), ("stableBucketSize", Number(reply.1))]
  }

  /** A row for one call to SortedOracles. */
  function CallSpec(block: string, t: Token, name: string, args: Args): RowSpec {
    RowSpec(ContractParts(block, t) + [name], ContractArgs(t) + (NamedCall(name) + args))
  }

  /** A row for one entry of a call to SortedOracles that returns lists. */
  function EntrySpec(block: string, t: Token, name: string, args: Args, i: nat): RowSpec {
    RowSpec(ContractParts(block, t) + [name, Show(i)], ContractArgs(t) + (NamedCall(name) + args))
  }

  function RateSpecs(block: string, t: Token, reports: seq<Report>, n: nat): seq<RowSpec>
    requires n <= |reports|
  {
    seq(n, i requires 0 <= i < n =>
      EntrySpec(block, t, "GetRates", ReportArgs("rateAddress", "rateValue", reports[i], i), i))
  }

  function TimestampSpecs(block: string, t: Token, reports: seq<Report>, n: nat): seq<RowSpec>
    requires n <= |reports|
  {
    seq(n, i requires 0 <= i < n =>
      EntrySpec(block, t, "GetTimestamps", ReportArgs("timestampAddress", "reportedTimestamp", reports[i], i), i))
  }

  function BucketSpec(block: string, t: Token, reply: (int, int)): RowSpec {
    RowSpec([block, t.exchange, "getBuyAndSellBuckets"],
            NamedContract(t.exchange) + (NamedCall("getBuyAndSellBuckets") + BucketArgs(reply)))
  }

  function ExpiredRows(block: string, t: Token, o: Oracles): Option<seq<RowSpec>> {
    if o.expired.None? then None
    else Some([CallSpec(block, t, "IsOldestReportExpired", ExpiredArgs(o.expired.value))])
  }

  function NumRatesRows(block: string, t: Token, o: Oracles): Option<seq<RowSpec>> {
    if o.numRates.None? then None
    else Some([CallSpec(block, t, "NumRates", NumberArgs("numRates", o.numRates.value))])
  }

  function MedianRateRows(block: string, t: Token, o: Oracles): Option<seq<RowSpec>> {
    if o.medianRate.None? then None
    else Some([CallSpec(block, t, "MedianRate", MedianRateArgs(o.medianRate.value))])
  }

  function MedianTimestampRows(block: string, t: Token, o: Oracles): Option<seq<RowSpec>> {
    if o.medianTimestamp.None? then None
    else Some([CallSpec(block, t, "MedianTimestamp", NumberArgs("medianTimestamp", o.medianTimestamp.value))])
  }

  function RateRows(block: string, t: Token, o: Oracles): Option<seq<RowSpec>> {
    if o.rates.None? then None else Some(RateSpecs(block, t, o.rates.value, |o.rates.value|))
  }

  function TimestampRows(block: string, t: Token, o: Oracles): Option<seq<RowSpec>> {
    if o.timestamps.None? then None else Some(TimestampSpecs(block, t, o.timestamps.value, |o.timestamps.value|))
  }

  function BucketRows(block: string, t: Token, o: Oracles): Option<seq<RowSpec>> {
    if o.buckets.None? then None else Some([BucketSpec(block, t, o.buckets.value)])
  }

  /** The rows of each call, in order; None where the node answers with an error. */
  function OracleCalls(block: string, t: Token, o: Oracles): seq<Option<seq<RowSpec>>> {
    [ExpiredRows(block, t, o), NumRatesRows(block, t, o), MedianRateRows(block, t, o), MedianTimestampRows(block, t, o),
     RateRows(block, t, o), TimestampRows(block, t, o), BucketRows(block, t, o)]
  }

  /** What is emitted from the k-th call on: the processor stops at the first error. */
  function Emitted(calls: seq<Option<seq<RowSpec>>>, k: nat): seq<RowSpec>
    decreases |calls| - k
  {
    if k >= |calls| || calls[k].None? then [] else calls[k].value + Emitted(calls, k + 1)
  }

  function OracleSpecs(block: string, t: Token, o: Oracles): seq<RowSpec> {
    Emitted(OracleCalls(block, t, o), 0)
  }

  /** The shapes an oracle identifier can have. */
  ghost predicate OracleShape(p: seq<string>, block: string, t: Token) {
    || p == [block, t.exchange, "getBuyAndSellBuckets"]
    || (exists name :: p == [block, "SortedOracles", t.address, name] && DotFree(name))
    || (exists name, i: nat :: p == [block, "SortedOracles", t.address, name, Show(i)] && DotFree(name))
  }

  /** Which call an identifier comes from: the number of parts and the length of the name tell. */
  function CallOf(p: seq<string>): nat {
    if |p| <= 3 then 6
    else if |p| == 5 then if |p[3]| == |"GetTimestamps"| then 5 else 4
    else if |p[3]| == |"MedianTimestamp"| then 3
    else if |p[3]| == |"MedianRate"| then 2
    else if |p[3]| == |"NumRates"| then 1
    else 0
  }

  ghost predicate FromCall(x: RowSpec, block: string, t: Token, k: nat) {
    OracleShape(x.parts, block, t) && CallOf(x.parts) == k
  }

  lemma EntriesDistinct(block: string, t: Token, name: string, rows: seq<RowSpec>, k: nat)
    requires DotFree(name) && CallOf(ContractParts(block, t) + [name, ""]) == k
    requires forall i :: 0 <= i < |rows| ==> rows[i].parts == ContractParts(block, t) + [name, Show(i)]
    ensures DistinctIds(rows) && forall x :: x in rows ==> FromCall(x, block, t, k)
  {
    forall i, j | 0 <= i < j < |rows| ensures rows[i].parts != rows[j].parts {
      assert rows[i].parts[4] == Show(i) && rows[j].parts[4] == Show(j);
      ShowInjective(i, j);
    }
    forall x | x in rows ensures FromCall(x, block, t, k) {
      var i :| 0 <= i < |rows| && x == rows[i];
      assert x.parts == [block, "SortedOracles", t.address, name, Show(i)];
    }
  }

  lemma CallShape(block: string, t: Token, name: string, args: Args)
    requires DotFree(name)
    ensures OracleShape(CallSpec(block, t, name, args).parts, block, t)
  {
    assert CallSpec(block, t, name, args).parts == [block, "SortedOracles", t.address, name];
  }

  /** The rows of the k-th call have distinct identifiers that tell the call. */
  ghost predicate CallOk(call: Option<seq<RowSpec>>, block: string, t: Token, k: nat) {
    call.Some? ==> DistinctIds(call.value) && forall x :: x in call.value ==> FromCall(x, block, t, k)
  }

  lemma {:induction false} OneRowOk(block: string, t: Token, o: Oracles)
    ensures CallOk(ExpiredRows(block, t, o), block, t, 0) && CallOk(NumRatesRows(block, t, o), block, t, 1)
    ensures CallOk(MedianRateRows(block, t, o), block, t, 2) && CallOk(MedianTimestampRows(block, t, o), block, t, 3)
  {
    if o.expired.Some? {
      CallShape(block, t, "IsOldestReportExpired", ExpiredArgs(o.expired.value));
    }
    if o.numRates.Some? {
      CallShape(block, t, "NumRates", NumberArgs("numRates", o.numRates.value));
    }
    if o.medianRate.Some? {
      CallShape(block, t, "MedianRate", MedianRateArgs(o.medianRate.value));
    }
    if o.medianTimestamp.Some? {
      CallShape(block, t, "MedianTimestamp", NumberArgs("medianTimestamp", o.medianTimestamp.value));
    }
  }

  lemma {:induction false} EntriesOk(block: string, t: Token, o: Oracles)
    ensures CallOk(RateRows(block, t, o), block, t, 4) && CallOk(TimestampRows(block, t, o), block, t, 5)
  {
    if o.rates.Some? {
      EntriesDistinct(block, t, "GetRates", RateSpecs(block, t, o.rates.value, |o.rates.value|), 4);
    }
    if o.timestamps.Some? {
      EntriesDistinct(block, t, "GetTimestamps", TimestampSpecs(block, t, o.timestamps.value, |o.timestamps.value|), 5);
    }
  }

  /** Distinct identifiers, from the k-th call on. */
  ghost predicate OracleIdsOk(rows: seq<RowSpec>, block: string, t: Token, k: nat) {
    DistinctIds(rows) && forall x :: x in rows ==> OracleShape(x.parts, block, t) && CallOf(x.parts) >= k
  }

  /** Rows of different calls never share an identifier. */
  lemma {:induction false} EmittedDistinct(calls: seq<Option<seq<RowSpec>>>, block: string, t: Token, k: nat)
    requires forall i :: 0 <= i < |calls| ==> CallOk(calls[i], block, t, i)
    ensures OracleIdsOk(Emitted(calls, k), block, t, k)
    decreases |calls| - k
  {
    if k >= |calls| || calls[k].None? {
    } else {
      EmittedDistinct(calls, block, t, k + 1);
      var rows, rest := calls[k].value, Emitted(calls, k + 1);
      forall x, y | x in rows && y in rest ensures x.parts != y.parts {
        assert FromCall(x, block, t, k);
      }
      DistinctConcat(rows, rest);
    }
  }

  /** Within one token's processor: distinct identifiers, each of a known shape. */
  lemma {:induction false} OracleIdsDistinct(block: string, t: Token, o: Oracles)
    ensures OracleIdsOk(OracleSpecs(block, t, o), block, t, 0)
  {
    OneRowOk(block, t, o);
    EntriesOk(block, t, o);
    EmittedDistinct(OracleCalls(block, t, o), block, t, 0);
  }

  lemma OracleShapeDotFree(p: seq<string>, block: string, t: Token)
    requires OracleShape(p, block, t) && DotFree(block) && PlainToken(t)
    ensures |p| > 0 && AllDotFree(p)
  {
    if name, i: nat :| p == [block, "SortedOracles", t.address, name, Show(i)] && DotFree(name) {
      ShowIsDotFree(i);
    }
  }

  predicate PlainToken(t: Token) {
    DotFree(t.address) && DotFree(t.exchange) && t.exchange != "SortedOracles"
  }

  /**
   All identifiers of the SortedOracles processors are distinct: within one token, between
   tokens with different addresses and registry identifiers, and between block rows with
   different identifiers.
   */
  lemma {:induction false} OracleRowIdsDistinct(
      block1: string, t1: Token, o1: Oracles, i: nat, block2: string, t2: Token, o2: Oracles, j: nat)
    requires DotFree(block1) && DotFree(block2) && PlainToken(t1) && PlainToken(t2)
    requires block1 == block2 && t1 == t2 ==> o1 == o2 && i != j
    requires block1 == block2 && t1 != t2 ==> t1.address != t2.address && t1.exchange != t2.exchange
    requires i < |OracleSpecs(block1, t1, o1)| && j < |OracleSpecs(block2, t2, o2)|
    ensures var p, q := OracleSpecs(block1, t1, o1)[i].parts, OracleSpecs(block2, t2, o2)[j].parts;
            |p| > 0 && |q| > 0 && Dotted(p) != Dotted(q)
  {
    var x, y := OracleSpecs(block1, t1, o1)[i], OracleSpecs(block2, t2, o2)[j];
    OracleIdsDistinct(block1, t1, o1);
    OracleIdsDistinct(block2, t2, o2);
    assert x in OracleSpecs(block1, t1, o1) && y in OracleSpecs(block2, t2, o2);
    var p, q := x.parts, y.parts;
    OracleShapeDotFree(p, block1, t1);
    OracleShapeDotFree(q, block2, t2);
    assert p != q by {
      if block1 != block2 {
        assert p[0] == block1 && q[0] == block2;
      } else if t1 != t2 {
        ShapesDiffer(p, q, block1, t1, t2);
      }
    }
    if Dotted(p) == Dotted(q) {
      DottedInjective(p, q);
    }
  }

  /** In particular, loaded blocks with different numbers never share an identifier. */
  lemma {:induction false} OracleRowIdsDistinctAcrossBlocks(
      n1: nat, t1: Token, o1: Oracles, i: nat, n2: nat, t2: Token, o2: Oracles, j: nat)
    requires n1 != n2 && PlainToken(t1) && PlainToken(t2)
    requires i < |OracleSpecs(Show(n1), t1, o1)| && j < |OracleSpecs(Show(n2), t2, o2)|
    ensures var p, q := OracleSpecs(Show(n1), t1, o1)[i].parts, OracleSpecs(Show(n2), t2, o2)[j].parts;
            |p| > 0 && |q| > 0 && Dotted(p) != Dotted(q)
  {
    ShowInjective(n1, n2);
    ShowIsDotFree(n1);
    ShowIsDotFree(n2);
    OracleRowIdsDistinct(Show(n1), t1, o1, i, Show(n2), t2, o2, j);
  }

  lemma ShapesDiffer(p: seq<string>, q: seq<string>, block: string, t1: Token, t2: Token)
    requires OracleShape(p, block, t1) && OracleShape(q, block, t2) && PlainToken(t1) && PlainToken(t2)
    requires t1.address != t2.address && t1.exchange != t2.exchange
    ensures p != q
  {
    assert p[1] == t1.exchange || (p[1] == "SortedOracles" && p[2] == t1.address);
    assert q[1] == t2.exchange || (q[1] == "SortedOracles" && q[2] == t2.address);
  }
}
