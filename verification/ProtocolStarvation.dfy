/**
 When a block that could be indexed waits for ever. Workers take the highest block, and the
 publisher enqueues failing blocks again and again without waiting for the queue to empty.
 So a queued good block can starve although fewer than batchSize blocks fail, and it can
 exactly if one of the failing blocks lies between it and the tip.
 */
module ProtocolStarvation {
  import opened Prelude
  import opened BlockIndex
  import opened Protocol
  import opened ProtocolSweep
  import opened ProtocolLiveness
  import opened ProtocolWaiting
  import opened ProtocolRuns
  import P = Pipeline

  // ----- Counting pops

  ghost predicate LeadsPopping(cfg: Config, rule: Rule, s: State, t: State, n: nat) {
    exists states, events :: PopsOn(cfg, rule, states, events, s, t, n)
  }

  lemma {:induction false} PopCountPrefix(events1: seq<Event>, events2: seq<Event>, n: nat)
    requires n <= |events1|
    ensures PopCount(events1 + events2, 0, n) == PopCount(events1, 0, n)
  {
    if n == 0 {
    } else {
      PopCountPrefix(events1, events2, n - 1);
    }
  }

  lemma {:induction false} PopCountJoin(events1: seq<Event>, events2: seq<Event>, n: nat)
    requires n <= |events2|
    ensures PopCount(events1 + events2, 0, |events1| + n) == PopCount(events1, 0, |events1|) + PopCount(events2, 0, n)
  {
    if n == 0 {
      PopCountPrefix(events1, events2, |events1|);
    } else {
      PopCountJoin(events1, events2, n - 1);
      assert (events1 + events2)[|events1| + n - 1] == events2[n - 1];
    }
  }

  /** A trace from s to t with at least n pops. */
  ghost predicate PopsOn(cfg: Config, rule: Rule, states: seq<State>, events: seq<Event>, s: State, t: State, n: nat) {
    By(cfg, rule, states, events) && states[0] == s && states[|events|] == t && PopCount(events, 0, |events|) >= n
  }

  lemma PopsOnTransitive(cfg: Config, rule: Rule, states1: seq<State>, events1: seq<Event>, s: State, t: State, n: nat,
                         states2: seq<State>, events2: seq<Event>, u: State, m: nat)
    requires PopsOn(cfg, rule, states1, events1, s, t, n) && PopsOn(cfg, rule, states2, events2, t, u, m)
    ensures PopsOn(cfg, rule, states1[..|events1|] + states2, events1 + events2, s, u, n + m)
  {
    JoinTraces(cfg, rule, states1, events1, states2, events2);
    PopCountJoin(events1, events2, |events2|);
  }

  lemma PoppingTransitive(cfg: Config, rule: Rule, s: State, t: State, n: nat, u: State, m: nat)
    requires LeadsPopping(cfg, rule, s, t, n) && LeadsPopping(cfg, rule, t, u, m)
    ensures LeadsPopping(cfg, rule, s, u, n + m)
  {
    var states1, events1 :| PopsOn(cfg, rule, states1, events1, s, t, n);
    var states2, events2 :| PopsOn(cfg, rule, states2, events2, t, u, m);
    PopsOnTransitive(cfg, rule, states1, events1, s, t, n, states2, events2, u, m);
  }

  lemma {:induction false} LeavingIsPopped(cfg: Config, rule: Rule, states: seq<State>, events: seq<Event>, b: nat, n: nat)
    requires By(cfg, rule, states, events) && n <= |events| && b in states[0].queue && b !in states[n].queue
    ensures PopCount(events, 0, n) >= 1
    decreases n
  {
    assert states[n] == Do(cfg, states[n - 1], events[n - 1]);
    if b in states[n - 1].queue {
      assert IsPop(events[n - 1]);
    } else {
      LeavingIsPopped(cfg, rule, states, events, b, n - 1);
    }
  }

  lemma LeadsAndPops(cfg: Config, rule: Rule, s: State, t: State, b: nat)
    requires Leads(cfg, rule, s, t) && b in s.queue && b !in t.queue
    ensures LeadsPopping(cfg, rule, s, t, 1)
  {
    var states, events :| By(cfg, rule, states, events) && states[0] == s && states[|events|] == t;
    LeavingIsPopped(cfg, rule, states, events, b, |events|);
    assert PopsOn(cfg, rule, states, events, s, t, 1);
  }

  lemma LeadsPoppingNone(cfg: Config, rule: Rule, s: State, t: State)
    requires Leads(cfg, rule, s, t)
    ensures LeadsPopping(cfg, rule, s, t, 0)
  {
    var states, events :| By(cfg, rule, states, events) && states[0] == s && states[|events|] == t;
    assert PopsOn(cfg, rule, states, events, s, t, 0);
  }

  /**
   From s on, block b can be passed over as often as one likes: it stays queued while nothing
   goes wrong but attempts at failing blocks, and only backfill publishers enqueue, up to the tip.
   */
  ghost predicate CanStarve(cfg: Config, failing: set<nat>, tip: nat, s: State, b: nat) {
    forall n: nat :: PassedOver(cfg, failing, tip, s, b, n)
  }

  ghost predicate PassedOver(cfg: Config, failing: set<nat>, tip: nat, s: State, b: nat, n: nat) {
    exists t :: LeadsPopping(cfg, Orderly(cfg, failing, {b}, tip), s, t, n) && b in t.queue
  }

  // ----- A lap in which b is passed over

  predicate GoodBut(cfg: Config, failing: set<nat>, tip: nat, b: nat, u: nat) {
    cfg.startBlock <= u < tip && u !in failing && u != b
  }

  /** All good blocks but b are indexed, b is queued, and no higher block is; the publisher begins a round. */
  ghost predicate Ready(cfg: Config, failing: set<nat>, tip: nat, b: nat, s: State, p: nat, w: nat) {
    && IdleWorker(s, w) && p in s.publishers && s.publishers[p].pc.Top?
    && cfg.startBlock <= s.publishers[p].cursor <= b
    && (forall u :: u in s.indexed <==> GoodBut(cfg, failing, tip, b, u))
    && b in s.queue && forall u :: u in s.queue ==> u == b || u in Below(cfg, failing, b)
  }

  /** Fewer than batchSize blocks fail, and one of them, f, lies between the good block b and the tip. */
  predicate FailsAbove(cfg: Config, failing: set<nat>, tip: nat, b: nat, f: nat) {
    && f in failing && b !in failing && cfg.startBlock <= b < f < tip < 0x1_0000_0000_0000_0000
    && |Below(cfg, failing, tip)| < cfg.batchSize
  }

  lemma BelowIsFewer(cfg: Config, failing: set<nat>, b: nat, f: nat, tip: nat)
    requires f in failing && cfg.startBlock <= b < f < tip
    ensures |Below(cfg, failing, f) + {b}| <= |Below(cfg, failing, tip)|
    ensures b !in failing ==> |Below(cfg, failing, b) + {b}| <= |Below(cfg, failing, tip)|
  {
    SubsetCardinality(Below(cfg, failing, f), Below(cfg, failing, tip) - {f});
    SubsetCardinality(Below(cfg, failing, b), Below(cfg, failing, tip) - {f});
  }

  /** The batch that is completed in x has enqueued f, and nothing but b and failing blocks. */
  lemma BatchOfLap(cfg: Config, failing: set<nat>, tip: nat, b: nat, f: nat, x: State, p: nat)
    requires FailsAbove(cfg, failing, tip, b, f)
    requires Completes(cfg, x, p) && PubOk(cfg, x.publishers[p], x.indexed.Keys)
    requires SweepOf(x.publishers[p]).base == x.indexed.Keys && SweepOf(x.publishers[p]).maxBlock == tip
    requires cfg.startBlock <= x.publishers[p].cursor <= b
    requires forall u :: u in x.indexed <==> GoodBut(cfg, failing, tip, b, u)
    ensures f in SweepOf(x.publishers[p]).added
    ensures forall u :: u in SweepOf(x.publishers[p]).added ==> u == b || u in Below(cfg, failing, tip)
  {
    var cursor := x.publishers[p].cursor;
    RankCovered(x.indexed.Keys, cursor, f, Below(cfg, failing, f) + {b});
    BelowIsFewer(cfg, failing, b, f, tip);
    SweepCovers(cfg, x, p, f);
  }

  lemma LapStarts(cfg: Config, failing: set<nat>, tip: nat, b: nat, f: nat, s: State, p: nat, w: nat) returns (h: State)
    requires FailsAbove(cfg, failing, tip, b, f) && Ready(cfg, failing, tip, b, s, p, w)
    ensures Leads(cfg, Orderly(cfg, failing, {b}, tip), s, h) && h.queue == s.queue
    ensures h.workers == s.workers && h.indexed == s.indexed && p in h.publishers && h.publishers[p].pc.ReadHeader?
    ensures cfg.startBlock <= h.publishers[p].cursor <= b
  {
    BelowIsFewer(cfg, failing, b, f, tip);
    SubsetCardinality(s.queue, Below(cfg, failing, b) + {b});
    RoundStarts(cfg, failing, {b}, tip, s, p);
    CursorAfterMeaning(s.indexed.Keys, s.publishers[p].cursor, cfg.batchSize);
    h := BeforeHeader(cfg, s, p);
    assert b !in s.indexed && h.publishers[p].cursor <= b;
  }

  lemma LapBatch(cfg: Config, failing: set<nat>, tip: nat, b: nat, f: nat, h: State, p: nat) returns (t: State)
    requires FailsAbove(cfg, failing, tip, b, f) && b in h.queue
    requires p in h.publishers && h.publishers[p].pc.ReadHeader? && cfg.startBlock <= h.publishers[p].cursor <= b
    requires forall u :: u in h.indexed <==> GoodBut(cfg, failing, tip, b, u)
    ensures Leads(cfg, Orderly(cfg, failing, {b}, tip), h, t)
    ensures t == WithPublisher(h, p, Publisher(h.publishers[p].cursor, Top), t.queue)
    ensures h.queue <= t.queue && f in t.queue
    ensures forall u :: u in t.queue && u !in h.queue ==> u == b || u in Below(cfg, failing, tip)
  {
    var latest := tip + cfg.tipBuffer;
    assert MaxBlock(latest, cfg.tipBuffer) == tip;
    var x := BatchRuns(cfg, failing, {b}, tip, h, p, latest);
    BatchOfLap(cfg, failing, tip, b, f, x, p);
    t := AfterBatch(x, p);
    BatchLeads(cfg, failing, {b}, tip, h, p, latest, x);
  }

  /** The publisher's round: f is queued, and above b nothing but failing blocks. */
  lemma LapRound(cfg: Config, failing: set<nat>, tip: nat, b: nat, f: nat, s: State, p: nat, w: nat) returns (t: State)
    requires FailsAbove(cfg, failing, tip, b, f) && Ready(cfg, failing, tip, b, s, p, w)
    ensures Leads(cfg, Orderly(cfg, failing, {b}, tip), s, t)
    ensures t.workers == s.workers && t.indexed == s.indexed && p in t.publishers && t.publishers[p].pc.Top?
    ensures cfg.startBlock <= t.publishers[p].cursor <= b && f in t.queue && b in t.queue
    ensures forall u :: u in t.queue ==> u == b || u in Below(cfg, failing, tip)
  {
    var h := LapStarts(cfg, failing, tip, b, f, s, p, w);
    t := LapBatch(cfg, failing, tip, b, f, h, p);
    LeadsTransitive(cfg, Orderly(cfg, failing, {b}, tip), s, h, t);
  }

  lemma StillReady(cfg: Config, failing: set<nat>, tip: nat, b: nat, s: State, t: State, p: nat, w: nat)
    requires IdleWorker(s, w) && p in s.publishers && s.publishers[p].pc.Top?
    requires cfg.startBlock <= s.publishers[p].cursor <= b && b in s.queue
    requires forall u :: u in s.indexed <==> GoodBut(cfg, failing, tip, b, u)
    requires forall u :: u in s.queue ==> u == b || u in Below(cfg, failing, tip)
    requires OnlyWorked(s, t) && ClearedFrom(s.queue, s.indexed.Keys, failing, b + 1, t.queue, t.indexed.Keys)
    ensures Ready(cfg, failing, tip, b, t, p, w)
  {
    assert AtLeast(s.queue, b + 1) - failing == {};
    assert t.indexed.Keys == s.indexed.Keys;
  }

  /** One lap: a whole batch, a pop of a failing block, and everything is as before. */
  lemma Lap(cfg: Config, failing: set<nat>, tip: nat, b: nat, f: nat, s: State, p: nat, w: nat, plan: P.Attempt)
      returns (t: State)
    requires FailsAbove(cfg, failing, tip, b, f) && Ready(cfg, failing, tip, b, s, p, w)
    requires cfg.collectData && Feasible(plan)
    ensures LeadsPopping(cfg, Orderly(cfg, failing, {b}, tip), s, t, 1) && Ready(cfg, failing, tip, b, t, p, w)
  {
    var s1 := LapRound(cfg, failing, tip, b, f, s, p, w);
    t := ClearFrom(cfg, failing, {b}, tip, s1, w, b + 1, plan);
    StillReady(cfg, failing, tip, b, s1, t, p, w);
    assert f in s1.queue && f !in t.queue;
    LapPops(cfg, Orderly(cfg, failing, {b}, tip), s, s1, t, f);
  }

  lemma LapPops(cfg: Config, rule: Rule, s: State, s1: State, t: State, f: nat)
    requires Leads(cfg, rule, s, s1) && Leads(cfg, rule, s1, t) && f in s1.queue && f !in t.queue
    ensures LeadsPopping(cfg, rule, s, t, 1)
  {
    LeadsAndPops(cfg, rule, s1, t, f);
    LeadsPoppingNone(cfg, rule, s, s1);
    PoppingTransitive(cfg, rule, s, s1, 0, t, 1);
  }

  /** As many laps as one likes. */
  lemma {:induction false} Laps(
      cfg: Config, failing: set<nat>, tip: nat, b: nat, f: nat, s: State, p: nat, w: nat, plan: P.Attempt, n: nat)
      returns (t: State)
    requires FailsAbove(cfg, failing, tip, b, f) && Ready(cfg, failing, tip, b, s, p, w)
    requires cfg.collectData && Feasible(plan)
    ensures LeadsPopping(cfg, Orderly(cfg, failing, {b}, tip), s, t, n) && Ready(cfg, failing, tip, b, t, p, w)
  {
    var rule := Orderly(cfg, failing, {b}, tip);
    if n == 0 {
      t := s;
      LeadsSelf(cfg, rule, s);
      LeadsPoppingNone(cfg, rule, s, s);
    } else {
      var s1 := Laps(cfg, failing, tip, b, f, s, p, w, plan, n - 1);
      t := Lap(cfg, failing, tip, b, f, s1, p, w, plan);
      PoppingTransitive(cfg, rule, s, s1, n - 1, t, 1);
    }
  }

  lemma Starves(cfg: Config, failing: set<nat>, tip: nat, b: nat, f: nat, s: State, p: nat, w: nat, plan: P.Attempt)
    requires FailsAbove(cfg, failing, tip, b, f) && Ready(cfg, failing, tip, b, s, p, w)
    requires cfg.collectData && Feasible(plan)
    ensures CanStarve(cfg, failing, tip, s, b)
  {
    forall n: nat ensures PassedOver(cfg, failing, tip, s, b, n) {
      var t := Laps(cfg, failing, tip, b, f, s, p, w, plan, n);
    }
  }

  // ----- A state to begin with

  /** From a fresh service, by chain-tip entries: the good blocks below n are indexed, except b. */
  lemma {:induction false} IndexGood(
      cfg: Config, failing: set<nat>, b: nat, s: State, w: nat, plan: P.Attempt, n: nat) returns (t: State)
    requires Init(cfg, s) && w in s.workers && cfg.collectData && Feasible(plan)
    ensures Leads(cfg, Sparing(failing), s, t) && OnlyWorked(s, t) && t.queue == {}
    ensures forall u :: u in t.indexed <==> GoodBut(cfg, failing, n, b, u)
  {
    if n == 0 {
      t := s;
      LeadsSelf(cfg, Sparing(failing), s);
    } else {
      var s1 := IndexGood(cfg, failing, b, s, w, plan, n - 1);
      t := s1;
      if GoodBut(cfg, failing, n, b, n - 1) {
        t := IndexOne(cfg, failing, s1, w, plan, n - 1);
        LeadsTransitive(cfg, Sparing(failing), s, s1, t);
      }
    }
  }

  lemma IndexOne(cfg: Config, failing: set<nat>, s: State, w: nat, plan: P.Attempt, c: nat) returns (t: State)
    requires IdleWorker(s, w) && cfg.collectData && Feasible(plan) && s.queue == {} && c !in failing
    ensures Leads(cfg, Sparing(failing), s, t) && OnlyWorked(s, t) && t.queue == {}
    ensures t.indexed.Keys == s.indexed.Keys + {c}
  {
    var s1 := s.(queue := {c});
    assert Do(cfg, s, Other(TipEnqueue(c))) == s1;
    t := TakeOne(cfg, failing, {}, 0, s1, w, c, plan);
    LeadsWeaken(cfg, Orderly(cfg, failing, {}, 0), Sparing(failing), s1, t);
    LeadsFirst(cfg, Sparing(failing), s, Other(TipEnqueue(c)), t);
  }

  /** From a fresh service, a state is reached from which b can starve. */
  lemma ReachesStarving(
      cfg: Config, failing: set<nat>, tip: nat, b: nat, f: nat, init: State, p: nat, w: nat, plan: P.Attempt)
      returns (s: State)
    requires FailsAbove(cfg, failing, tip, b, f) && Init(cfg, init) && p in init.publishers && w in init.workers
    requires cfg.collectData && Feasible(plan)
    ensures Leads(cfg, Sparing(failing), init, s) && SearchesWithin(s, tip) && CanStarve(cfg, failing, tip, s, b)
  {
    var s1 := IndexGood(cfg, failing, b, init, w, plan, tip);
    s := s1.(queue := {b});
    assert Do(cfg, s1, Other(TipEnqueue(b))) == s;
    StepLeads(cfg, Sparing(failing), s1, Other(TipEnqueue(b)), s);
    LeadsTransitive(cfg, Sparing(failing), init, s1, s);
    Starves(cfg, failing, tip, b, f, s, p, w, plan);
  }

  // ----- Newer blocks

  /** The chain-tip publisher enqueues a block above b. */
  predicate IsNewer(ev: Event, b: nat) {
    ev.Other? && ev.other.TipEnqueue? && ev.other.block > b
  }

  /** The same weather as before, with a chain-tip publisher. */
  function OrderlyOrNewer(cfg: Config, failing: set<nat>, b: nat, tip: nat): Rule {
    (s, ev) => IsOrderly(cfg, s, ev, failing, {b}, tip) || (b in s.queue && IsNewer(ev, b))
  }

  /** The new headers of the first n events. */
  function Headers(events: seq<Event>, n: nat): seq<nat>
    requires n <= |events|
  {
    if n == 0 then []
    else Headers(events, n - 1)
         + if events[n - 1].Other? && events[n - 1].other.TipEnqueue? then [events[n - 1].other.block] else []
  }

  lemma {:induction false} HeadersPrefix(events1: seq<Event>, events2: seq<Event>, n: nat)
    requires n <= |events1|
    ensures Headers(events1 + events2, n) == Headers(events1, n)
  {
    if n == 0 {
    } else {
      HeadersPrefix(events1, events2, n - 1);
    }
  }

  lemma {:induction false} HeadersJoin(events1: seq<Event>, events2: seq<Event>, n: nat)
    requires n <= |events2|
    ensures Headers(events1 + events2, |events1| + n) == Headers(events1, |events1|) + Headers(events2, n)
  {
    if n == 0 {
      HeadersPrefix(events1, events2, |events1|);
    } else {
      HeadersJoin(events1, events2, n - 1);
      assert (events1 + events2)[|events1| + n - 1] == events2[n - 1];
    }
  }

  lemma {:induction false} NoHeaders(events: seq<Event>, n: nat)
    requires n <= |events| && forall i :: 0 <= i < n ==> !events[i].Other?
    ensures Headers(events, n) == []
  {
    if n == 0 {
    } else {
      NoHeaders(events, n - 1);
    }
  }

  lemma OrderlyHasNoOther(
      cfg: Config, failing: set<nat>, keep: set<nat>, tip: nat, states: seq<State>, events: seq<Event>)
    requires By(cfg, Orderly(cfg, failing, keep, tip), states, events)
    ensures forall i :: 0 <= i < |events| ==> !events[i].Other?
  {
    forall i | 0 <= i < |events| ensures !events[i].Other? {
      assert IsOrderly(cfg, states[i], events[i], failing, keep, tip);
    }
  }

  /** A run from s to t by the rule, with these headers. */
  ghost predicate LeadsWithHeaders(cfg: Config, rule: Rule, s: State, t: State, headers: seq<nat>) {
    exists states, events :: HasHeaders(cfg, rule, states, events, s, t, headers)
  }

  ghost predicate HasHeaders(
      cfg: Config, rule: Rule, states: seq<State>, events: seq<Event>, s: State, t: State, headers: seq<nat>)
  {
    By(cfg, rule, states, events) && states[0] == s && states[|events|] == t && Headers(events, |events|) == headers
  }

  lemma HeadersOnTransitive(
      cfg: Config, rule: Rule, states1: seq<State>, events1: seq<Event>, s: State, t: State, headers1: seq<nat>,
      states2: seq<State>, events2: seq<Event>, u: State, headers2: seq<nat>)
    requires HasHeaders(cfg, rule, states1, events1, s, t, headers1)
    requires HasHeaders(cfg, rule, states2, events2, t, u, headers2)
    ensures HasHeaders(cfg, rule, states1[..|events1|] + states2, events1 + events2, s, u, headers1 + headers2)
  {
    JoinTraces(cfg, rule, states1, events1, states2, events2);
    HeadersJoin(events1, events2, |events2|);
  }

  lemma HeadersTransitive(cfg: Config, rule: Rule, s: State, t: State, headers1: seq<nat>, u: State, headers2: seq<nat>)
    requires LeadsWithHeaders(cfg, rule, s, t, headers1) && LeadsWithHeaders(cfg, rule, t, u, headers2)
    ensures LeadsWithHeaders(cfg, rule, s, u, headers1 + headers2)
  {
    var states1, events1 :| HasHeaders(cfg, rule, states1, events1, s, t, headers1);
    var states2, events2 :| HasHeaders(cfg, rule, states2, events2, t, u, headers2);
    HeadersOnTransitive(cfg, rule, states1, events1, s, t, headers1, states2, events2, u, headers2);
  }

  lemma OneHeader(c: nat, events: seq<Event>)
    requires forall i :: 0 <= i < |events| ==> !events[i].Other?
    ensures Headers([Other(TipEnqueue(c))] + events, 1 + |events|) == [c]
  {
    var first := [Other(TipEnqueue(c))];
    NoHeaders(events, |events|);
    HeadersJoin(first, events, |events|);
    assert Headers(first, 1) == Headers(first, 0) + [c];
  }

  lemma OrderlyIsOrNewer(cfg: Config, failing: set<nat>, tip: nat, b: nat, states: seq<State>, events: seq<Event>)
    requires By(cfg, Orderly(cfg, failing, {b}, tip), states, events)
    ensures By(cfg, OrderlyOrNewer(cfg, failing, b, tip), states, events)
  {
  }

  /** A new header, and then a run without any. */
  lemma HeaderFirst(
      cfg: Config, failing: set<nat>, tip: nat, b: nat, s: State, c: nat, states: seq<State>, events: seq<Event>)
    requires By(cfg, Orderly(cfg, failing, {b}, tip), states, events) && b in s.queue && b < c
    requires states[0] == Do(cfg, s, Other(TipEnqueue(c)))
    ensures LeadsWithHeaders(cfg, OrderlyOrNewer(cfg, failing, b, tip), s, states[|events|], [c])
  {
    var rule, ev := OrderlyOrNewer(cfg, failing, b, tip), Other(TipEnqueue(c));
    OrderlyHasNoOther(cfg, failing, {b}, tip, states, events);
    OneHeader(c, events);
    OrderlyIsOrNewer(cfg, failing, tip, b, states, events);
    assert By(cfg, rule, [s], []);
    JoinBy(cfg, rule, [s], [], ev, states, events);
    assert [] + [ev] + events == [ev] + events;
    assert HasHeaders(cfg, rule, [s] + states, [ev] + events, s, states[|events|], [c]);
  }

  /** One new header: it is queued, taken, and gone. */
  lemma OneNewer(cfg: Config, failing: set<nat>, tip: nat, b: nat, s: State, w: nat, plan: P.Attempt, c: nat)
      returns (t: State)
    requires IdleWorker(s, w) && IsMaximum(b, s.queue) && b < c && cfg.collectData && Feasible(plan)
    ensures LeadsWithHeaders(cfg, OrderlyOrNewer(cfg, failing, b, tip), s, t, [c])
    ensures IdleWorker(t, w) && t.queue == s.queue
  {
    var s1 := s.(queue := s.queue + {c});
    assert Do(cfg, s, Other(TipEnqueue(c))) == s1;
    t := TakeOne(cfg, failing, {b}, tip, s1, w, c, plan);
    var states, events :|
      By(cfg, Orderly(cfg, failing, {b}, tip), states, events) && states[0] == s1 && states[|events|] == t;
    HeaderFirst(cfg, failing, tip, b, s, c, states, events);
  }

  /**
   A chain-tip publisher that goes on can keep b waiting, whether blocks fail or not: for
   each n there is a run with n new headers, all above b and each above those before, in
   which b stays queued although a worker takes one block after the other.
   */
  lemma {:induction false} NewerBlocksStarve(
      cfg: Config, failing: set<nat>, tip: nat, b: nat, s: State, w: nat, plan: P.Attempt, n: nat)
      returns (t: State, headers: seq<nat>)
    requires IdleWorker(s, w) && IsMaximum(b, s.queue) && cfg.collectData && Feasible(plan)
    ensures LeadsWithHeaders(cfg, OrderlyOrNewer(cfg, failing, b, tip), s, t, headers)
    ensures |headers| == n && Ascending(headers) && forall k :: 0 <= k < n ==> b < headers[k] <= b + n
    ensures IdleWorker(t, w) && t.queue == s.queue
  {
    var rule := OrderlyOrNewer(cfg, failing, b, tip);
    if n == 0 {
      t, headers := s, [];
      assert HasHeaders(cfg, rule, [s], [], s, s, []);
    } else {
      var s1, before := NewerBlocksStarve(cfg, failing, tip, b, s, w, plan, n - 1);
      t := OneNewer(cfg, failing, tip, b, s1, w, plan, b + n);
      HeadersTransitive(cfg, rule, s, s1, before, t, [b + n]);
      headers := before + [b + n];
    }
  }

  // ----- The exact condition

  /** If no block between b and the tip fails, b cannot be passed over more often than there are tickets. */
  lemma {:induction false} StarvesNot(cfg: Config, failing: set<nat>, tip: nat, s: State, b: nat)
    requires SearchesWithin(s, tip) && b < tip && NoneFails(failing, b + 1, tip)
    ensures !PassedOver(cfg, failing, tip, s, b, TicketsAbove(cfg, s, b, tip) + 1)
  {
    var n, rule := TicketsAbove(cfg, s, b, tip) + 1, Orderly(cfg, failing, {b}, tip);
    if PassedOver(cfg, failing, tip, s, b, n) {
      var t :| LeadsPopping(cfg, rule, s, t, n) && b in t.queue;
      var states, events :| PopsOn(cfg, rule, states, events, s, t, n);
      OrderlyTrace(cfg, failing, tip, b, states, events);
      PopsAreBounded(cfg, states, events, failing, tip, b, 0, |events|);
      NoOthers(cfg, failing, tip, b, states, events, |events|);
      assert false;
    }
  }

  lemma OrderlyTrace(cfg: Config, failing: set<nat>, tip: nat, b: nat, states: seq<State>, events: seq<Event>)
    requires By(cfg, Orderly(cfg, failing, {b}, tip), states, events) && b in states[|events|].queue
    ensures SettledDuring(cfg, states, events, failing, tip, 0, |events|)
    ensures forall k :: 0 <= k <= |events| ==> b in states[k].queue
  {
    forall k | 0 <= k <= |events| ensures b in states[k].queue {
      if k < |events| {
        assert IsOrderly(cfg, states[k], events[k], failing, {b}, tip);
      }
    }
  }

  lemma {:induction false} NoOthers(
      cfg: Config, failing: set<nat>, tip: nat, b: nat, states: seq<State>, events: seq<Event>, n: nat)
    requires By(cfg, Orderly(cfg, failing, {b}, tip), states, events) && n <= |events|
    ensures OtherCount(states, events, b, 0, n) == 0
  {
    if n == 0 {
    } else {
      NoOthers(cfg, failing, tip, b, states, events, n - 1);
      assert IsOrderly(cfg, states[n - 1], events[n - 1], failing, {b}, tip);
    }
  }

  /**
   Let fewer than batchSize blocks below the tip fail, in a service with a publisher and a
   worker that collects data. A good block can starve, with no error but the attempts at
   failing blocks, no crash and no other publisher, if and only if one of the failing blocks
   lies between it and the tip.
   */
  lemma {:induction false} StarvationExactly(
      cfg: Config, failing: set<nat>, tip: nat, b: nat, init: State, p: nat, w: nat, plan: P.Attempt)
    requires Init(cfg, init) && p in init.publishers && w in init.workers && cfg.collectData && Feasible(plan)
    requires cfg.startBlock <= b < tip < 0x1_0000_0000_0000_0000 && b !in failing
    requires |Below(cfg, failing, tip)| < cfg.batchSize
    ensures (exists s :: Leads(cfg, Sparing(failing), init, s) && SearchesWithin(s, tip) && CanStarve(cfg, failing, tip, s, b))
       <==> exists f :: f in failing && b < f < tip
  {
    if f :| f in failing && b < f < tip {
      var s := ReachesStarving(cfg, failing, tip, b, f, init, p, w, plan);
    } else {
      forall s | SearchesWithin(s, tip) ensures !CanStarve(cfg, failing, tip, s, b) {
        StarvesNot(cfg, failing, tip, s, b);
      }
    }
  }
}
