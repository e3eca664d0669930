/**
 Rounds that index their blocks can always be had: from every reachable state in which the
 workers are running, publishers and workers can go on through as many of them as one likes,
 with nothing going wrong but attempts at failing blocks. Since workers can be started again
 at any time, the backfill can be completed from every reachable state.
 */
module ProtocolCycles {
  import opened Prelude
  import opened Protocol
  import opened ProtocolSafety
  import opened ProtocolSweep
  import opened ProtocolBatch
  import opened ProtocolLiveness
  import opened ProtocolWaiting
  import opened ProtocolDrain
  import opened ProtocolRuns
  import P = Pipeline
  import PP = PipelineProgress

  // ----- Finishing what is in hand

  /** The step that a busy or idle worker takes, without marking failing blocks. */
  lemma NextWork(cfg: Config, failing: set<nat>, s: State, plan: P.Attempt) returns (w: nat, ev: WorkEvent)
    requires WorkerInv(s) && Working(s) && s.workers != map[] && !Quiet(s) && Feasible(plan)
    ensures WorkerCan(cfg, s, w, ev) && SteadyWork(ev, PP.Measure(plan)) && Spares(s, Work(w, ev), failing)
  {
    w, ev := WorkGoesOn(cfg, s, plan);
    if ev.SetIndexed? {
      ev := SetIndexed(cfg.collectData && s.workers[w].pc.block !in failing);
    }
  }

  lemma {:induction false} WorkFinishes(cfg: Config, failing: set<nat>, s: State, plan: P.Attempt, n: nat)
      returns (t: State)
    requires Inv(cfg, s) && Working(s) && s.workers != map[] && Feasible(plan)
    requires forall w :: w in s.workers ==> w < n
    ensures Leads(cfg, Sparing(failing), s, t) && Quiet(t) && Working(t)
    ensures t.publishers == s.publishers && t.workers.Keys == s.workers.Keys
    decreases |s.queue|, WorkersLeft(cfg, PP.Measure(plan), s.workers, n)
  {
    if Quiet(s) {
      t := s;
      LeadsSelf(cfg, Sparing(failing), s);
    } else {
      var w, e := NextWork(cfg, failing, s, plan);
      var ev := Work(w, e);
      var s1 := Do(cfg, s, ev);
      InvStep(cfg, s, ev);
      WorkingStep(cfg, s, ev, PP.Measure(plan));
      WorkStep(cfg, s, ev, PP.Measure(plan), n);
      assert s1.queue == if e.Pop? then s.queue - {e.block} else s.queue;
      t := WorkFinishes(cfg, failing, s1, plan, n);
      LeadsFirst(cfg, Sparing(failing), s, ev, t);
    }
  }

  // ----- One cycle

  /** Publishers and workers as a cycle needs them, in a reachable state. */
  ghost predicate Running(cfg: Config, s: State, p: nat, w: nat) {
    Inv(cfg, s) && Working(s) && p in s.publishers && w in s.workers
  }

  lemma {:induction false} RunningTrace(cfg: Config, rule: Rule, states: seq<State>, events: seq<Event>)
    requires By(cfg, rule, states, events) && Inv(cfg, states[0])
    ensures Inv(cfg, states[|events|])
  {
    InvTrace(cfg, states, events);
  }

  lemma RunningLeads(cfg: Config, rule: Rule, s: State, t: State)
    requires Leads(cfg, rule, s, t) && Inv(cfg, s)
    ensures Inv(cfg, t)
  {
    var states, events :| By(cfg, rule, states, events) && states[0] == s && states[|events|] == t;
    RunningTrace(cfg, rule, states, events);
  }

  /** The publisher returns to the beginning of its loop and the workers finish; then a round begins. */
  lemma UpToHeader(cfg: Config, failing: set<nat>, s: State, p: nat, w: nat, plan: P.Attempt, n: nat) returns (h: State)
    requires Running(cfg, s, p, w) && cfg.batchSize > 0 && Feasible(plan)
    requires forall v :: v in s.workers ==> v < n
    ensures Leads(cfg, Sparing(failing), s, h) && Running(cfg, h, p, w)
    ensures Quiet(h) && h.publishers[p].pc.ReadHeader? && h.workers.Keys == s.workers.Keys
  {
    var s1 := PublisherParks(cfg, failing, {}, 0, s, p);
    LeadsWeaken(cfg, Orderly(cfg, failing, {}, 0), Sparing(failing), s, s1);
    RunningLeads(cfg, Sparing(failing), s, s1);
    var s2 := WorkFinishes(cfg, failing, s1, plan, n);
    LeadsTransitive(cfg, Sparing(failing), s, s1, s2);
    h := BeforeHeader(cfg, s2, p);
    RoundStarts(cfg, failing, {}, 0, s2, p);
    LeadsWeaken(cfg, Orderly(cfg, failing, {}, 0), Sparing(failing), s2, h);
    LeadsTransitive(cfg, Sparing(failing), s, s2, h);
    RunningLeads(cfg, Sparing(failing), s, h);
  }

  /** A stretch of a trace; three of them make a cycle, with a header read and the end of the search between them. */
  datatype Stretch = Stretch(states: seq<State>, events: seq<Event>)

  predicate Proper(a: Stretch) {
    |a.states| == |a.events| + 1
  }

  predicate AllCalm(cfg: Config, a: Stretch, failing: set<nat>) {
    Proper(a) && forall k {:trigger a.events[k]} :: 0 <= k < |a.events| ==> Calm(cfg, a.states[k], a.events[k], failing)
  }

  predicate AllSweeping(a: Stretch, p: nat) {
    forall k :: 0 <= k < |a.states| ==> p in a.states[k].publishers && Sweeping(a.states[k].publishers[p])
  }

  function Join(a: Stretch, ev: Event, b: Stretch): Stretch {
    Stretch(a.states + b.states, a.events + [ev] + b.events)
  }

  lemma CalmFrom(cfg: Config, failing: set<nat>, keep: set<nat>, tip: nat, a: Stretch)
    requires By(cfg, Orderly(cfg, failing, keep, tip), a.states, a.events)
    ensures AllCalm(cfg, a, failing)
  {
    forall k {:trigger a.events[k]} | 0 <= k < |a.events| ensures Calm(cfg, a.states[k], a.events[k], failing) {
      assert IsOrderly(cfg, a.states[k], a.events[k], failing, keep, tip);
    }
  }

  lemma SweepingFrom(cfg: Config, rule: Rule, a: Stretch, p: nat)
    requires By(cfg, Searching(rule, p), a.states, a.events) && Completes(cfg, a.states[|a.events|], p)
    ensures By(cfg, rule, a.states, a.events) && AllSweeping(a, p)
  {
    forall k | 0 <= k < |a.states| ensures p in a.states[k].publishers && Sweeping(a.states[k].publishers[p]) {
      if k < |a.events| {
        assert Searching(rule, p)(a.states[k], a.events[k]);
      }
    }
  }

  lemma CalmJoin(cfg: Config, failing: set<nat>, a: Stretch, ev: Event, b: Stretch)
    requires AllCalm(cfg, a, failing) && AllCalm(cfg, b, failing) && Calm(cfg, a.states[|a.events|], ev, failing)
    ensures AllCalm(cfg, Join(a, ev, b), failing)
  {
    var c := Join(a, ev, b);
    forall k {:trigger c.events[k]} | 0 <= k < |c.events| ensures Calm(cfg, c.states[k], c.events[k], failing) {
      if k < |a.events| {
        assert c.events[k] == a.events[k];
      } else if k > |a.events| {
        assert c.events[k] == b.events[k - |a.events| - 1];
      }
    }
  }

  lemma SearchingJoined(a: Stretch, hev: Event, b: Stretch, xev: Event, c: Stretch, p: nat)
    requires Proper(a) && Proper(b) && Proper(c) && AllSweeping(b, p)
    ensures SearchingBetween(Join(a, hev, Join(b, xev, c)).states, p, |a.events|, |a.events| + 1 + |b.events|)
  {
    var d := Join(a, hev, Join(b, xev, c));
    forall k | |a.events| < k <= |a.events| + 1 + |b.events|
      ensures p in d.states[k].publishers && Sweeping(d.states[k].publishers[p])
    {
      assert d.states[k] == b.states[k - |a.states|];
    }
  }

  lemma CalmAfter(cfg: Config, failing: set<nat>, a: Stretch, ev: Event, b: Stretch)
    requires Proper(a) && AllCalm(cfg, b, failing) && Calm(cfg, a.states[|a.events|], ev, failing)
    ensures var c := Join(a, ev, b); CalmDuring(cfg, c.states, c.events, failing, |a.events|, |c.events|)
  {
    var c := Join(a, ev, b);
    forall k {:trigger c.events[k]} | |a.events| <= k < |c.events| ensures Calm(cfg, c.states[k], c.events[k], failing) {
      if k > |a.events| {
        assert c.events[k] == b.events[k - |a.events| - 1];
      }
    }
  }

  /** The header read ends stretch a, the end of the search stretch b. */
  predicate MakeCycle(cfg: Config, failing: set<nat>, p: nat, a: Stretch, hev: Event, tip: nat, b: Stretch, c: Stretch) {
    && Proper(a) && Proper(b) && Proper(c) && IsHeaderRead(cfg, hev, p, tip)
    && AllSweeping(b, p) && AllCalm(cfg, b, failing) && AllCalm(cfg, c, failing)
    && Completes(cfg, b.states[|b.events|], p) && BatchIsGone(b.states[|b.events|], c.states[|c.events|], failing, p)
  }

  lemma CycleMade(cfg: Config, failing: set<nat>, p: nat, a: Stretch, hev: Event, tip: nat, b: Stretch, c: Stretch)
    requires MakeCycle(cfg, failing, p, a, hev, tip, b, c)
    ensures var d := Join(a, hev, Join(b, Pub(p, Window), c));
            IsCycle(cfg, d.states, d.events, failing,
                    Cycle(p, tip, |a.events|, |a.events| + 1 + |b.events|, |d.events|))
  {
    var rest := Join(b, Pub(p, Window), c);
    var d := Join(a, hev, rest);
    var exit := |a.events| + 1 + |b.events|;
    CalmJoin(cfg, failing, b, Pub(p, Window), c);
    CalmAfter(cfg, failing, a, hev, rest);
    SearchingJoined(a, hev, b, Pub(p, Window), c, p);
    assert d.events[|a.events|] == hev;
    assert d.states[exit] == b.states[|b.events|] && d.states[|d.events|] == c.states[|c.events|];
  }

  // ----- One cycle runs

  /** From the header read on: a batch, and then all its blocks are taken, as failing or to be indexed. */
  lemma BatchAndWork(
      cfg: Config, failing: set<nat>, tip: nat, h: State, p: nat, latest: nat, w: nat, plan: P.Attempt)
      returns (x: State, t: State)
    requires Quiet(h) && Working(h) && p in h.publishers && h.publishers[p].pc.ReadHeader? && w in h.workers
    requires cfg.collectData && Feasible(plan)
    ensures Can(cfg, h, Pub(p, Header(Some(latest)))) && Completes(cfg, x, p)
    ensures Leads(cfg, Searching(Orderly(cfg, failing, {}, tip), p), Do(cfg, h, Pub(p, Header(Some(latest)))), x)
    ensures Can(cfg, x, Pub(p, Window)) && Leads(cfg, Orderly(cfg, failing, {}, tip), Do(cfg, x, Pub(p, Window)), t)
    ensures BatchIsGone(x, t, failing, p) && t.workers == h.workers && p in t.publishers
  {
    x := BatchRuns(cfg, failing, {}, tip, h, p, latest);
    BatchEnds(cfg, x, p);
    var x1 := AfterBatch(x, p);
    assert WorkingWorker(x1.workers[w]);
    t := ClearFrom(cfg, failing, {}, tip, x1, w, 0, plan);
    assert AtLeast(x1.queue, 0) == x1.queue;
    assert forall b :: Gone(t, b);
  }

  predicate IsFeasibleTip(maxBlock: nat) {
    maxBlock < 0x1_0000_0000_0000_0000
  }

  /** The trace is one, by the rule, from s. */
  ghost predicate Runs(cfg: Config, rule: Rule, s: State, d: Stretch) {
    By(cfg, rule, d.states, d.events) && d.states[0] == s
  }

  lemma StretchOf(cfg: Config, rule: Rule, s: State, t: State) returns (d: Stretch)
    requires Leads(cfg, rule, s, t)
    ensures Runs(cfg, rule, s, d) && d.states[|d.events|] == t
  {
    var states, events :| By(cfg, rule, states, events) && states[0] == s && states[|events|] == t;
    d := Stretch(states, events);
  }

  lemma OrderlyIsSparing(cfg: Config, failing: set<nat>, tip: nat, s: State, d: Stretch)
    requires Runs(cfg, Orderly(cfg, failing, {}, tip), s, d)
    ensures Runs(cfg, Sparing(failing), s, d)
  {
  }

  lemma JoinRuns(cfg: Config, rule: Rule, s: State, a: Stretch, ev: Event, b: Stretch)
    requires Runs(cfg, rule, s, a)
    requires var t := a.states[|a.events|]; Can(cfg, t, ev) && rule(t, ev) && Runs(cfg, rule, Do(cfg, t, ev), b)
    ensures Runs(cfg, rule, s, Join(a, ev, b)) && Join(a, ev, b).states[|Join(a, ev, b).events|] == b.states[|b.events|]
  {
    JoinBy(cfg, rule, a.states, a.events, ev, b.states, b.events);
  }

  /** The stretches of a cycle, from a state of a running service up to one. */
  lemma CycleRuns(
      cfg: Config, failing: set<nat>, maxBlock: nat, s: State, p: nat, w: nat, plan: P.Attempt, n: nat)
      returns (d: Stretch, c: Cycle)
    requires Running(cfg, s, p, w) && cfg.collectData && cfg.batchSize > 0 && Feasible(plan) && IsFeasibleTip(maxBlock)
    requires forall v :: v in s.workers ==> v < n
    ensures Runs(cfg, Sparing(failing), s, d) && IsCycle(cfg, d.states, d.events, failing, c)
    ensures c.tip == maxBlock && c.end == |d.events|
    ensures var t := d.states[|d.events|]; Running(cfg, t, p, w) && t.workers.Keys == s.workers.Keys
  {
    var latest := maxBlock + cfg.tipBuffer;
    var hev, xev := Pub(p, Header(Some(latest))), Pub(p, Window);
    assert IsHeaderRead(cfg, hev, p, maxBlock);
    var sparing, rule := Sparing(failing), Orderly(cfg, failing, {}, maxBlock);
    var h := UpToHeader(cfg, failing, s, p, w, plan, n);
    var x, t := BatchAndWork(cfg, failing, maxBlock, h, p, latest, w, plan);
    var a1 := StretchOf(cfg, sparing, s, h);
    var a2 := StretchOf(cfg, Searching(rule, p), Do(cfg, h, hev), x);
    var a3 := StretchOf(cfg, rule, Do(cfg, x, xev), t);
    SweepingFrom(cfg, rule, a2, p);
    CalmFrom(cfg, failing, {}, maxBlock, a2);
    CalmFrom(cfg, failing, {}, maxBlock, a3);
    CycleMade(cfg, failing, p, a1, hev, maxBlock, a2, a3);
    OrderlyIsSparing(cfg, failing, maxBlock, Do(cfg, h, hev), a2);
    OrderlyIsSparing(cfg, failing, maxBlock, Do(cfg, x, xev), a3);
    JoinRuns(cfg, sparing, Do(cfg, h, hev), a2, xev, a3);
    JoinRuns(cfg, sparing, s, a1, hev, Join(a2, xev, a3));
    d := Join(a1, hev, Join(a2, xev, a3));
    c := Cycle(p, maxBlock, |a1.events|, |a1.events| + 1 + |a2.events|, |d.events|);
    RunningTrace(cfg, sparing, d.states, d.events);
  }

  // ----- Many cycles

  function Shift(c: Cycle, k: nat): Cycle {
    Cycle(c.publisher, c.tip, c.header + k, c.exit + k, c.end + k)
  }

  /** Stretch a is found in d from position k on. */
  predicate Within(a: Stretch, d: Stretch, k: nat) {
    && Proper(a) && Proper(d) && k + |a.events| <= |d.events|
    && (forall i :: 0 <= i <= |a.events| ==> d.states[k + i] == a.states[i])
    && forall i :: 0 <= i < |a.events| ==> d.events[k + i] == a.events[i]
  }

  lemma CycleWithin(cfg: Config, failing: set<nat>, a: Stretch, d: Stretch, k: nat, c: Cycle)
    requires Within(a, d, k) && IsCycle(cfg, a.states, a.events, failing, c)
    ensures IsCycle(cfg, d.states, d.events, failing, Shift(c, k))
  {
    forall i | c.header + k < i <= c.exit + k
      ensures c.publisher in d.states[i].publishers && Sweeping(d.states[i].publishers[c.publisher])
    {
      assert d.states[k + (i - k)] == a.states[i - k];
    }
    forall i {:trigger d.events[i]} | c.header + k <= i < c.end + k ensures Calm(cfg, d.states[i], d.events[i], failing) {
      assert d.events[k + (i - k)] == a.events[i - k] && d.states[k + (i - k)] == a.states[i - k];
    }
  }

  /** One stretch after the other, the second beginning where the first ends. */
  function Append(a: Stretch, b: Stretch): Stretch
    requires Proper(a)
  {
    Stretch(a.states[..|a.events|] + b.states, a.events + b.events)
  }

  lemma AppendRuns(cfg: Config, rule: Rule, s: State, a: Stretch, b: Stretch)
    requires Runs(cfg, rule, s, a) && Runs(cfg, rule, a.states[|a.events|], b)
    ensures Runs(cfg, rule, s, Append(a, b))
    ensures Append(a, b).states[|Append(a, b).events|] == b.states[|b.events|]
    ensures Within(a, Append(a, b), 0) && Within(b, Append(a, b), |a.events|)
  {
    JoinTraces(cfg, rule, a.states, a.events, b.states, b.events);
  }

  function ShiftAll(cycles: seq<Cycle>, k: nat): seq<Cycle> {
    seq(|cycles|, i requires 0 <= i < |cycles| => Shift(cycles[i], k))
  }

  /** A cycle, and then those of another stretch. */
  lemma CyclesAppend(
      cfg: Config, failing: set<nat>, maxBlock: nat, a: Stretch, c: Cycle, b: Stretch, cycles: seq<Cycle>, d: Stretch)
    requires Within(a, d, 0) && Within(b, d, |a.events|)
    requires IsCycle(cfg, a.states, a.events, failing, c) && maxBlock <= c.tip && c.end == |a.events|
    requires AreCycles(cfg, b.states, b.events, failing, maxBlock, cycles)
    ensures AreCycles(cfg, d.states, d.events, failing, maxBlock, [c] + ShiftAll(cycles, |a.events|))
  {
    var all := [c] + ShiftAll(cycles, |a.events|);
    forall k {:trigger IsCycle(cfg, d.states, d.events, failing, all[k])} | 0 <= k < |all|
      ensures IsCycle(cfg, d.states, d.events, failing, all[k]) && maxBlock <= all[k].tip
      ensures k > 0 ==> all[k - 1].end <= all[k].header
    {
      if k == 0 {
        CycleWithin(cfg, failing, a, d, 0, c);
        assert Shift(c, 0) == c;
      } else {
        CycleAt(cfg, b.states, b.events, failing, maxBlock, cycles, k - 1);
        CycleWithin(cfg, failing, b, d, |a.events|, cycles[k - 1]);
      }
    }
  }

  /**
   From every reachable state of a service that is running, with a publisher and a worker
   that collects data: any number of cycles, one after the other, up to any tip.
   */
  lemma {:induction false} CyclesRun(
      cfg: Config, failing: set<nat>, maxBlock: nat, s: State, p: nat, w: nat, plan: P.Attempt, n: nat, count: nat)
      returns (d: Stretch, cycles: seq<Cycle>)
    requires Running(cfg, s, p, w) && cfg.collectData && cfg.batchSize > 0 && Feasible(plan) && IsFeasibleTip(maxBlock)
    requires forall v :: v in s.workers ==> v < n
    ensures Runs(cfg, Sparing(failing), s, d) && |cycles| == count
    ensures AreCycles(cfg, d.states, d.events, failing, maxBlock, cycles)
    decreases count
  {
    if count == 0 {
      d, cycles := Stretch([s], []), [];
    } else {
      var a, c := CycleRuns(cfg, failing, maxBlock, s, p, w, plan, n);
      var b, rest := CyclesRun(cfg, failing, maxBlock, a.states[|a.events|], p, w, plan, n, count - 1);
      AppendRuns(cfg, Sparing(failing), s, a, b);
      CyclesAppend(cfg, failing, maxBlock, a, c, b, rest, Append(a, b));
      d, cycles := Append(a, b), [c] + ShiftAll(rest, |a.events|);
    }
  }

  /** Everything ahead of all cursors is indexed, failing blocks excepted, and of these none is. */
  ghost predicate Completed(cfg: Config, failing: set<nat>, aside: set<nat>, maxBlock: nat, t: State) {
    forall b: nat :: cfg.startBlock <= b < maxBlock ==>
      (b !in aside ==> b in t.indexed) && (b in failing ==> b !in t.indexed)
  }

  lemma {:induction false} CompletesWhenRunning(
      cfg: Config, failing: set<nat>, aside: set<nat>, maxBlock: nat, s: State, p: nat, w: nat, plan: P.Attempt, n: nat)
      returns (t: State)
    requires Running(cfg, s, p, w) && cfg.collectData && Feasible(plan) && IsFeasibleTip(maxBlock)
    requires forall v :: v in s.workers ==> v < n
    requires failing <= aside && OthersAhead(cfg, s, aside, maxBlock) && s.indexed.Keys !! failing
    requires |Below(cfg, aside, maxBlock)| < cfg.batchSize
    ensures Leads(cfg, Sparing(failing), s, t) && Completed(cfg, failing, aside, maxBlock, t)
  {
    var count := |Missing(cfg, s, aside, maxBlock)|;
    var d, cycles := CyclesRun(cfg, failing, maxBlock, s, p, w, plan, n, count);
    RunIsSparing(cfg, failing, s, d);
    EnoughForAll(cfg, s, aside, maxBlock);
    if cycles != [] {
      CycleAt(cfg, d.states, d.events, failing, maxBlock, cycles, |cycles| - 1);
    }
    var end := EndOf(cycles, |cycles|);
    t := d.states[end];
    LeadsUpTo(cfg, Sparing(failing), s, d, end);
    forall b: nat | cfg.startBlock <= b < maxBlock
      ensures (b !in aside ==> b in t.indexed) && (b in failing ==> b !in t.indexed)
    {
      CyclesFinish(cfg, d.states, d.events, failing, aside, maxBlock, cycles, b);
    }
  }

  /** Workers that are being stopped, or hang, can be started again; nothing else changes. */
  lemma {:induction false} WorkersRestart(cfg: Config, failing: set<nat>, s: State, n: nat) returns (t: State)
    ensures Leads(cfg, Sparing(failing), s, t) && t == s.(workers := t.workers) && t.workers.Keys == s.workers.Keys
    ensures forall v :: v in s.workers ==> t.workers[v] == if v < n then Worker(Idle, false) else s.workers[v]
  {
    if n == 0 {
      t := s;
      LeadsSelf(cfg, Sparing(failing), s);
    } else {
      var s1 := WorkersRestart(cfg, failing, s, n - 1);
      if n - 1 in s.workers {
        t := Do(cfg, s1, Work(n - 1, Reboot));
        LeadsStep(cfg, Sparing(failing), s1, Work(n - 1, Reboot));
        LeadsTransitive(cfg, Sparing(failing), s, s1, t);
      } else {
        t := s1;
      }
    }
  }

  lemma {:induction false} PublishersRestart(cfg: Config, failing: set<nat>, s: State, n: nat) returns (t: State)
    ensures Leads(cfg, Sparing(failing), s, t) && t == s.(publishers := t.publishers)
    ensures t.publishers.Keys == s.publishers.Keys
    ensures forall p :: p in s.publishers && p < n ==>
              t.publishers[p] == Publisher(if s.saved.Some? then s.saved.value else cfg.startBlock, Top)
    ensures forall p :: p in s.publishers && p >= n ==> t.publishers[p] == s.publishers[p]
  {
    if n == 0 {
      t := s;
      LeadsSelf(cfg, Sparing(failing), s);
    } else {
      var s1 := PublishersRestart(cfg, failing, s, n - 1);
      if n - 1 in s.publishers {
        t := Do(cfg, s1, Pub(n - 1, Restart));
        LeadsStep(cfg, Sparing(failing), s1, Pub(n - 1, Restart));
        LeadsTransitive(cfg, Sparing(failing), s, s1, t);
      } else {
        t := s1;
      }
    }
  }

  /**
   All publishers and workers can crash and come back at any moment: publishers at the
   persisted cursor, or at the start block if there is none, and workers with nothing in
   hand. Redis keeps what it has.
   */
  lemma ServiceRestarts(cfg: Config, s: State, n: nat) returns (t: State)
    requires forall p :: p in s.publishers ==> p < n
    requires forall w :: w in s.workers ==> w < n
    ensures Leads(cfg, Sparing({}), s, t) && t == s.(publishers := t.publishers, workers := t.workers)
    ensures t.publishers.Keys == s.publishers.Keys && t.workers.Keys == s.workers.Keys
    ensures forall p :: p in t.publishers ==>
              t.publishers[p] == Publisher(if s.saved.Some? then s.saved.value else cfg.startBlock, Top)
    ensures forall w :: w in t.workers ==> t.workers[w] == Worker(Idle, false)
  {
    var s1 := WorkersRestart(cfg, {}, s, n);
    t := PublishersRestart(cfg, {}, s1, n);
    LeadsTransitive(cfg, Sparing({}), s, s1, t);
  }

  /**
   The backfill can always be completed: from every reachable state, with a publisher and a
   worker, if fewer than batchSize blocks below the tip fail or have been left behind by the
   cursors. Whatever workers were doing, they can be started again.
   */
  lemma {:induction false} BackfillCanComplete(
      cfg: Config, failing: set<nat>, aside: set<nat>, maxBlock: nat, s: State, p: nat, w: nat, plan: P.Attempt, n: nat)
      returns (t: State)
    requires Inv(cfg, s) && p in s.publishers && w in s.workers
    requires cfg.collectData && Feasible(plan) && IsFeasibleTip(maxBlock)
    requires forall v :: v in s.workers ==> v < n
    requires failing <= aside && OthersAhead(cfg, s, aside, maxBlock) && s.indexed.Keys !! failing
    requires |Below(cfg, aside, maxBlock)| < cfg.batchSize
    ensures Leads(cfg, Sparing(failing), s, t) && Completed(cfg, failing, aside, maxBlock, t)
  {
    var s1 := WorkersRestart(cfg, failing, s, n);
    RunningLeads(cfg, Sparing(failing), s, s1);
    OthersStayAhead(cfg, s, s1, aside, maxBlock);
    t := CompletesWhenRunning(cfg, failing, aside, maxBlock, s1, p, w, plan, n);
    LeadsTransitive(cfg, Sparing(failing), s, s1, t);
  }

  lemma OthersStayAhead(cfg: Config, s: State, t: State, aside: set<nat>, maxBlock: nat)
    requires OthersAhead(cfg, s, aside, maxBlock) && t == s.(workers := t.workers)
    ensures OthersAhead(cfg, t, aside, maxBlock)
  {
    forall b | b in Missing(cfg, t, aside, maxBlock) ensures Ahead(cfg, t, b) {
      assert b in Missing(cfg, s, aside, maxBlock);
    }
  }

  lemma RunIsSparing(cfg: Config, failing: set<nat>, s: State, d: Stretch)
    requires Runs(cfg, Sparing(failing), s, d)
    ensures SparingTrace(cfg, d.states, d.events, failing)
  {
    forall i {:trigger d.events[i]} | 0 <= i < |d.events|
      ensures Unforced(d.states[i], d.events[i]) && Spares(d.states[i], d.events[i], failing)
    {
      assert Sparing(failing)(d.states[i], d.events[i]);
    }
  }

  lemma EnoughForAll(cfg: Config, s: State, aside: set<nat>, maxBlock: nat)
    requires |Below(cfg, aside, maxBlock)| < cfg.batchSize
    ensures EnoughCycles(cfg, s, aside, maxBlock, |Missing(cfg, s, aside, maxBlock)|)
  {
    AtLeastOnce(|Missing(cfg, s, aside, maxBlock)|, cfg.batchSize - |Below(cfg, aside, maxBlock)|);
  }

  lemma AtLeastOnce(missing: nat, room: nat)
    requires room > 0
    ensures missing <= missing * room
  {
    assert missing * room == missing + missing * (room - 1);
  }

  lemma LeadsUpTo(cfg: Config, rule: Rule, s: State, d: Stretch, k: nat)
    requires Runs(cfg, rule, s, d) && k <= |d.events|
    ensures Leads(cfg, rule, s, d.states[k])
  {
    var states, events := d.states[..k + 1], d.events[..k];
    forall i {:trigger events[i]} | 0 <= i < |events|
      ensures Can(cfg, states[i], events[i]) && states[i + 1] == Do(cfg, states[i], events[i]) && rule(states[i], events[i])
    {
      assert events[i] == d.events[i];
    }
    assert By(cfg, rule, states, events);
  }
}
