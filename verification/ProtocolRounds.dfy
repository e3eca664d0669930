/**
 Without failing blocks nothing has to be assumed about the queue. If no block below the tip
 fails, workers can take only so many steps, however many batches the publishers begin. So
 once there have been more rounds than that, with a step of some worker for each round that
 left workers something to do, a round has found nothing more to enqueue: everything up to
 the tip is indexed.
 */
module ProtocolRounds {
  import opened BlockIndex
  import opened Protocol
  import opened ProtocolSweep
  import opened ProtocolBatch
  import opened ProtocolLiveness
  import opened ProtocolWaiting
  import opened ProtocolDrain

  // ----- A round with nothing to do

  predicate QuietDuring(states: seq<State>, i: nat, j: nat)
    requires j < |states|
  {
    forall k :: i <= k <= j ==> Quiet(states[k])
  }

  lemma {:induction false} QuietKeepsIndex(cfg: Config, states: seq<State>, events: seq<Event>, i: nat, j: nat)
    requires IsTrace(cfg, states, events) && i <= j < |states|
    requires QuietDuring(states, i, j) && UnforcedDuring(states, events, i, j)
    ensures states[j].indexed.Keys == states[i].indexed.Keys
    decreases j
  {
    if i == j {
    } else {
      QuietKeepsIndex(cfg, states, events, i, j - 1);
      QuietStep(cfg, states[j - 1], events[j - 1]);
    }
  }

  lemma QuietStep(cfg: Config, s: State, ev: Event)
    requires Can(cfg, s, ev) && Unforced(s, ev) && Quiet(s)
    ensures Do(cfg, s, ev).indexed.Keys == s.indexed.Keys
  {
  }

  /** A batch during which queue and workers stay idle has enqueued nothing, so all is indexed from its cursor on. */
  lemma {:induction false} QuietBatchFindsAll(
      cfg: Config, states: seq<State>, events: seq<Event>, p: nat, tip: nat, header: nat, exit: nat, b: nat)
    requires IsTrace(cfg, states, events) && IsBatch(cfg, states, events, p, tip, header, exit) && cfg.batchSize > 0
    requires QuietDuring(states, header, exit) && UnforcedDuring(states, events, header, exit)
    requires p in states[header].publishers && states[header].publishers[p].cursor <= b < tip
    ensures b in states[exit].indexed
    decreases b
  {
    var cursor := states[header].publishers[p].cursor;
    if b !in states[exit].indexed {
      QuietKeepsIndex(cfg, states, events, header, exit);
      forall u: nat | cursor <= u < b ensures u in states[header].indexed.Keys {
        QuietBatchFindsAll(cfg, states, events, p, tip, header, exit, u);
      }
      RankCovered(states[header].indexed.Keys, cursor, b, {});
      var k := NoBlockLost(cfg, states, events, p, tip, header, exit, b);
    }
  }

  // ----- Rounds

  /** A batch of some publisher, and how long its turn lasts: up to the next round. */
  datatype Round = Round(publisher: nat, header: nat, exit: nat, next: nat)

  /** If the round leaves workers something to do at any time, one of them takes a step in its turn. */
  predicate IsRound(cfg: Config, states: seq<State>, events: seq<Event>, tip: nat, r: Round) {
    && IsBatch(cfg, states, events, r.publisher, tip, r.header, r.exit) && r.exit <= r.next < |states|
    && (QuietDuring(states, r.header, r.exit) || WorkSteps(events, r.header, r.next) > 0)
  }

  predicate AreRounds(cfg: Config, states: seq<State>, events: seq<Event>, tip: nat, rounds: seq<Round>) {
    && (forall k {:trigger IsRound(cfg, states, events, tip, rounds[k])} ::
          0 <= k < |rounds| ==> IsRound(cfg, states, events, tip, rounds[k]))
    && (forall k :: 0 < k < |rounds| ==> rounds[k - 1].next <= rounds[k].header)
  }

  lemma {:induction false} WorkStepsSplit(events: seq<Event>, i: nat, j: nat, k: nat)
    requires i <= j <= k <= |events|
    ensures WorkSteps(events, i, k) == WorkSteps(events, i, j) + WorkSteps(events, j, k)
    decreases k
  {
    if j == k {
    } else {
      WorkStepsSplit(events, i, j, k - 1);
    }
  }

  function TurnEnd(rounds: seq<Round>, n: nat): nat
    requires n <= |rounds|
  {
    if n == 0 then 0 else rounds[n - 1].next
  }

  /** One round more, not a quiet one, is one step of a worker more. */
  lemma RoundWorks(events: seq<Event>, from: nat, header: nat, next: nat)
    requires from <= header <= next <= |events| && WorkSteps(events, header, next) > 0
    ensures WorkSteps(events, 0, next) >= WorkSteps(events, 0, from) + 1
  {
    WorkStepsSplit(events, 0, from, next);
    WorkStepsSplit(events, from, header, next);
  }

  /** If none of the first n rounds was quiet, workers have taken n steps. */
  lemma {:induction false} RoundsWork(
      cfg: Config, states: seq<State>, events: seq<Event>, tip: nat, rounds: seq<Round>, n: nat)
    requires |states| == |events| + 1 && AreRounds(cfg, states, events, tip, rounds) && n <= |rounds|
    requires forall k {:trigger rounds[k]} ::
               0 <= k < n ==> rounds[k].exit < |states| && !QuietDuring(states, rounds[k].header, rounds[k].exit)
    ensures TurnEnd(rounds, n) <= |events| && WorkSteps(events, 0, TurnEnd(rounds, n)) >= n
  {
    if n == 0 {
    } else {
      RoundsWork(cfg, states, events, tip, rounds, n - 1);
      assert IsRound(cfg, states, events, tip, rounds[n - 1]);
      RoundWorks(events, TurnEnd(rounds, n - 1), rounds[n - 1].header, rounds[n - 1].next);
    }
  }

  /** The number of worker steps that are possible at all from s on, if no block below the tip fails. */
  function AllWork(cfg: Config, size: nat, s: State, n: nat, tip: nat): nat {
    WorkersLeft(cfg, size, s.workers, n) + StepsFor(cfg, size, AllTickets(cfg, s, tip))
  }

  lemma {:induction false} StepsForMore(cfg: Config, size: nat, pops: nat, more: nat)
    requires pops <= more
    ensures StepsFor(cfg, size, pops) <= StepsFor(cfg, size, more)
    decreases more
  {
    if pops == more {
    } else {
      StepsForMore(cfg, size, pops, more - 1);
    }
  }

  /** Calm weather up to the tip, no block below which fails, and no producers but backfill publishers. */
  predicate Undisturbed(cfg: Config, states: seq<State>, events: seq<Event>, failing: set<nat>, tip: nat, size: nat) {
    && |states| == |events| + 1 && SettledDuring(cfg, states, events, failing, tip, 0, |events|)
    && SteadyDuring(events, size, 0, |events|) && NoOtherEnqueues(states, events, 0, |events|)
    && NoneFails(failing, 0, tip) && SearchesWithin(states[0], tip)
  }

  /** Workers can take only so many steps, for ever. */
  lemma {:induction false} AllWorkIsBounded(
      cfg: Config, states: seq<State>, events: seq<Event>, failing: set<nat>, tip: nat, size: nat, n: nat)
    requires IsTrace(cfg, states, events) && Undisturbed(cfg, states, events, failing, tip, size)
    requires forall w :: w in states[0].workers ==> w < n
    ensures WorkSteps(events, 0, |events|) <= AllWork(cfg, size, states[0], n, tip)
  {
    WorkIsBounded(cfg, states, events, size, n, 0, |events|);
    AllPopsAreBounded(cfg, states, events, failing, tip, 0, |events|);
    StepsForMore(cfg, size, PopCount(events, 0, |events|), AllTickets(cfg, states[0], tip));
  }

  /** So among more rounds than that there is a quiet one. */
  lemma {:induction false} SomeRoundIsQuiet(
      cfg: Config, states: seq<State>, events: seq<Event>, failing: set<nat>, tip: nat, size: nat, n: nat, rounds: seq<Round>)
      returns (k: nat)
    requires IsTrace(cfg, states, events) && Undisturbed(cfg, states, events, failing, tip, size)
    requires forall w :: w in states[0].workers ==> w < n
    requires AreRounds(cfg, states, events, tip, rounds) && |rounds| > AllWork(cfg, size, states[0], n, tip)
    ensures k < |rounds| && IsRound(cfg, states, events, tip, rounds[k])
    ensures QuietDuring(states, rounds[k].header, rounds[k].exit)
  {
    AllWorkIsBounded(cfg, states, events, failing, tip, size, n);
    if i: nat :| i < |rounds| && rounds[i].exit < |states| && QuietDuring(states, rounds[i].header, rounds[i].exit) {
      k := i;
      assert IsRound(cfg, states, events, tip, rounds[k]);
    } else {
      forall i {:trigger rounds[i]} | 0 <= i < |rounds| ensures rounds[i].exit < |states| {
        assert IsRound(cfg, states, events, tip, rounds[i]);
      }
      RoundsWork(cfg, states, events, tip, rounds, |rounds|);
      WorkStepsSplit(events, 0, TurnEnd(rounds, |rounds|), |events|);
      assert false;
    }
  }

  lemma SettledIsUnforced(
      cfg: Config, states: seq<State>, events: seq<Event>, failing: set<nat>, tip: nat, i: nat, j: nat)
    requires i <= j <= |events| < |states| && SettledDuring(cfg, states, events, failing, tip, 0, |events|)
    ensures UnforcedDuring(states, events, i, j)
  {
    forall k {:trigger events[k]} | i <= k < j ensures Unforced(states[k], events[k]) {
      assert Calm(cfg, states[k], events[k], failing);
    }
  }

  /**
   The backfill completes without any assumption on the queue: from any state, if no block
   below the tip fails and only backfill publishers enqueue, then after more rounds than
   workers can take steps, with a worker taking at least one step in each round that leaves
   workers something to do, every block up to the tip that no cursor had left behind is indexed.
   */
  lemma {:induction false} RoundsFinish(
      cfg: Config, states: seq<State>, events: seq<Event>, failing: set<nat>, aside: set<nat>, tip: nat, size: nat, n: nat,
      rounds: seq<Round>, b: nat)
    requires IsTrace(cfg, states, events) && Undisturbed(cfg, states, events, failing, tip, size) && cfg.batchSize > 0
    requires forall w :: w in states[0].workers ==> w < n
    requires AreRounds(cfg, states, events, tip, rounds) && |rounds| > AllWork(cfg, size, states[0], n, tip)
    requires OthersAhead(cfg, states[0], aside, tip) && cfg.startBlock <= b < tip && b !in aside
    ensures b in states[|events|].indexed
  {
    var k := SomeRoundIsQuiet(cfg, states, events, failing, tip, size, n, rounds);
    var r := rounds[k];
    SettledIsUnforced(cfg, states, events, failing, tip, 0, r.header);
    SettledIsUnforced(cfg, states, events, failing, tip, r.header, r.exit);
    SettledIsUnforced(cfg, states, events, failing, tip, r.exit, |events|);
    IndexGrowsTrace(cfg, states, events, r.exit, |events|);
    if b !in states[r.exit].indexed {
      UnindexedIsAhead(cfg, states, events, failing, aside, tip, r, b);
      QuietBatchFindsAll(cfg, states, events, r.publisher, tip, r.header, r.exit, b);
    }
  }

  lemma UnindexedIsAhead(
      cfg: Config, states: seq<State>, events: seq<Event>, failing: set<nat>, aside: set<nat>, tip: nat, r: Round, b: nat)
    requires IsTrace(cfg, states, events) && SettledDuring(cfg, states, events, failing, tip, 0, |events|)
    requires IsRound(cfg, states, events, tip, r) && b !in states[r.exit].indexed
    requires OthersAhead(cfg, states[0], aside, tip) && cfg.startBlock <= b < tip && b !in aside
    ensures r.publisher in states[r.header].publishers && states[r.header].publishers[r.publisher].cursor <= b
  {
    SettledIsUnforced(cfg, states, events, failing, tip, 0, |events|);
    SettledIsUnforced(cfg, states, events, failing, tip, 0, r.header);
    SettledIsUnforced(cfg, states, events, failing, tip, r.header, r.exit);
    IndexGrowsTrace(cfg, states, events, 0, r.header);
    IndexGrowsTrace(cfg, states, events, r.header, r.exit);
    assert b in Missing(cfg, states[0], aside, tip);
    AheadTrace(cfg, states, events, b, r.header);
    BatchBeginsEmpty(cfg, states[r.header], events[r.header], r.publisher, tip);
  }
}
