/** What can happen to cursors: exactly when they move back, and when they leave unindexed blocks behind. */
module ProtocolExamples {
  import opened Prelude
  import opened Decimal
  import opened BlockIndex
  import opened Protocol
  import opened ProtocolSafety
  import opened ProtocolRuns
  import opened Reindex

  // ----- The persisted cursor moves back

  /** Some run from s persists a cursor, and later a smaller one. */
  ghost predicate MovesBack(cfg: Config, s: State) {
    exists t, u :: Leads(cfg, Anything(), s, t) && Leads(cfg, Anything(), t, u) && Lowered(t, u)
  }

  predicate Lowered(t: State, u: State) {
    t.saved.Some? && u.saved.Some? && u.saved.value < t.saved.value
  }

  /** Two publishers, and a worker that can move the index on between them. */
  predicate CanInterfere(cfg: Config, s: State) {
    |s.publishers| >= 2 && s.workers != map[] && cfg.batchSize > 0 && cfg.collectData
  }

  /** One publisher has read the index, and is about to save its cursor. */
  lemma FirstReads(cfg: Config, s: State, p: nat) returns (t: State)
    requires Init(cfg, s) && p in s.publishers && cfg.batchSize > 0
    ensures Leads(cfg, Anything(), s, t)
    ensures t == s.(publishers := s.publishers[p := Publisher(cfg.startBlock, SaveCursor)])
  {
    var s1 := s.(publishers := s.publishers[p := Publisher(cfg.startBlock, ReadIndex)]);
    t := s.(publishers := s.publishers[p := Publisher(cfg.startBlock, SaveCursor)]);
    StepLeads(cfg, Anything(), s, Pub(p, Length), s1);
    CursorAfterMeaning({}, cfg.startBlock, cfg.batchSize);
    assert Do(cfg, s1, Pub(p, UpdateCursor)).publishers == t.publishers;
    StepLeads(cfg, Anything(), s1, Pub(p, UpdateCursor), t);
    LeadsTransitive(cfg, Anything(), s, s1, t);
  }

  /** Then the start block gets indexed. */
  lemma StartIsIndexed(cfg: Config, s: State, w: nat) returns (t: State)
    requires IdleWorker(s, w) && s.queue == {} && s.indexed == map[] && cfg.collectData
    ensures Leads(cfg, Anything(), s, t) && OnlyWorked(s, t) && t.queue == {} && t.indexed.Keys == {cfg.startBlock}
  {
    var s1 := s.(queue := {cfg.startBlock});
    StepLeads(cfg, Anything(), s, Other(TipEnqueue(cfg.startBlock)), s1);
    t := TakeOne(cfg, {}, {}, 0, s1, w, cfg.startBlock, EMPTY_PLAN);
    LeadsWeaken(cfg, Orderly(cfg, {}, {}, 0), Anything(), s1, t);
    LeadsTransitive(cfg, Anything(), s, s1, t);
  }

  /** Another publisher saves a later cursor. */
  lemma SecondSaves(cfg: Config, s: State, q: nat) returns (t: State)
    requires q in s.publishers && s.publishers[q] == Publisher(cfg.startBlock, Top)
    requires s.queue == {} && s.indexed.Keys == {cfg.startBlock} && cfg.batchSize > 0
    ensures Leads(cfg, Anything(), s, t) && t.saved.Some? && t.saved.value > cfg.startBlock
    ensures q in t.publishers && t.publishers == s.publishers[q := t.publishers[q]]
    ensures t.manuals == s.manuals && t.indexed == s.indexed && t.queue == s.queue
    ensures t.publishers[q].pc.ReadHeader? && t.saved == Some(t.publishers[q].cursor)
  {
    CursorAfterMeaning(s.indexed.Keys, cfg.startBlock, cfg.batchSize);
    RoundStarts(cfg, {}, {}, 0, s, q);
    t := BeforeHeader(cfg, s, q);
    LeadsWeaken(cfg, Orderly(cfg, {}, {}, 0), Anything(), s, t);
  }

  lemma TwoPublishersMoveBack(cfg: Config, s: State)
    requires Init(cfg, s) && CanInterfere(cfg, s)
    ensures MovesBack(cfg, s)
  {
    var w :| w in s.workers;
    var p :| p in s.publishers;
    assert s.publishers.Keys == (s.publishers.Keys - {p}) + {p};
    var q :| q in s.publishers && q != p;
    var s1 := FirstReads(cfg, s, p);
    var s2 := StartIsIndexed(cfg, s1, w);
    LeadsTransitive(cfg, Anything(), s, s1, s2);
    var t := SecondSaves(cfg, s2, q);
    LeadsTransitive(cfg, Anything(), s, s2, t);
    var u := Do(cfg, t, Pub(p, Save));
    LeadsStep(cfg, Anything(), t, Pub(p, Save));
    assert Lowered(t, u);
  }

  /** Nothing moves the cursors: there is no publisher, no batch, or nothing is ever indexed. */
  ghost predicate Still(cfg: Config, s: State) {
    && (forall p :: p in s.publishers ==> s.publishers[p].cursor == cfg.startBlock)
    && (s.saved == None || s.saved == Some(cfg.startBlock))
    && (cfg.batchSize == 0 || s.publishers == map[] || (s.indexed == map[] && (s.workers == map[] || !cfg.collectData)))
  }

  lemma StillStep(cfg: Config, s: State, ev: Event)
    requires Still(cfg, s) && Can(cfg, s, ev)
    ensures Still(cfg, Do(cfg, s, ev))
  {
    match ev {
      case Pub(p, e) => CursorAfterMeaning(s.indexed.Keys, cfg.startBlock, cfg.batchSize);
      case Work(w, e) =>
      case Other(e) =>
    }
  }

  lemma {:induction false} StillTrace(cfg: Config, rule: Rule, states: seq<State>, events: seq<Event>, n: nat)
    requires By(cfg, rule, states, events) && Still(cfg, states[0]) && n <= |events|
    ensures Still(cfg, states[n])
    decreases n
  {
    if n == 0 {
    } else {
      StillTrace(cfg, rule, states, events, n - 1);
      StillStep(cfg, states[n - 1], events[n - 1]);
    }
  }

  lemma StillLeads(cfg: Config, rule: Rule, s: State, t: State)
    requires Leads(cfg, rule, s, t) && Still(cfg, s)
    ensures Still(cfg, t)
  {
    var states, events :| By(cfg, rule, states, events) && states[0] == s && states[|events|] == t;
    StillTrace(cfg, rule, states, events, |events|);
  }

  lemma SinglePublisherNever(cfg: Config, s: State, p: nat, t: State, u: State)
    requires Init(cfg, s) && s.publishers.Keys == {p}
    requires Leads(cfg, Anything(), s, t) && Leads(cfg, Anything(), t, u)
    ensures !Lowered(t, u)
  {
    var states1, events1 :| By(cfg, Anything(), states1, events1) && states1[0] == s && states1[|events1|] == t;
    var states2, events2 :| By(cfg, Anything(), states2, events2) && states2[0] == t && states2[|events2|] == u;
    JoinTraces(cfg, Anything(), states1, events1, states2, events2);
    var states := states1[..|events1|] + states2;
    if t.saved.Some? {
      assert states[0] == s && states[|events1|] == t && states[|events1 + events2|] == u;
      SavedCursorNeverDecreases(cfg, states, events1 + events2, p, |events1|, |events1 + events2|);
    }
  }

  /**
   When the persisted cursor can move back, for every configuration and every fresh service:
   exactly when there are at least two publishers, with batches, and a worker that marks.
   */
  lemma {:induction false} CursorMovesBackExactly(cfg: Config, s: State)
    requires Init(cfg, s)
    ensures MovesBack(cfg, s) <==> CanInterfere(cfg, s)
  {
    if CanInterfere(cfg, s) {
      TwoPublishersMoveBack(cfg, s);
    } else if MovesBack(cfg, s) {
      var t, u :| Leads(cfg, Anything(), s, t) && Leads(cfg, Anything(), t, u) && Lowered(t, u);
      if |s.publishers| == 1 {
        var p :| p in s.publishers;
        SubsetCardinality({p}, s.publishers.Keys);
        SinglePublisherNever(cfg, s, p, t, u);
      } else {
        assert |s.publishers| == 0 ==> s.publishers == map[];
        StillLeads(cfg, Anything(), s, t);
        StillLeads(cfg, Anything(), t, u);
      }
    }
  }

  // ----- A block below a cursor that is not indexed

  /** A block from the start block up to a cursor, in memory or persisted, is not indexed now. */
  ghost predicate GapBelowCursor(cfg: Config, t: State) {
    exists c: nat, b: nat :: IsCursor(t, c) && cfg.startBlock <= b < c && b !in t.indexed
  }

  /** Something moves a cursor on, and a manual publisher is there to un-mark what it has passed. */
  predicate CanLeaveGap(cfg: Config, s: State) {
    && s.publishers != map[] && s.workers != map[] && s.manuals != map[]
    && cfg.batchSize > 0 && cfg.collectData
  }

  /** The manual publisher is started with the start block as its list, and un-marks it. */
  lemma StartIsUnmarked(cfg: Config, s: State, m: nat) returns (t: State)
    requires m in s.manuals
    ensures Leads(cfg, Anything(), s, t) && cfg.startBlock !in t.indexed
    ensures t.saved == s.saved && t.publishers == s.publishers && t.queue == s.queue
  {
    var s1 := Do(cfg, s, Other(ManualRestart(m, [Show(cfg.startBlock)], true)));
    t := Do(cfg, s1, Other(ManualBegin(m)));
    LeadsStep(cfg, Anything(), s, Other(ManualRestart(m, [Show(cfg.startBlock)], true)));
    LeadsStep(cfg, Anything(), s1, Other(ManualBegin(m)));
    LeadsTransitive(cfg, Anything(), s, s1, t);
  }

  /** A fresh service indexes the start block, saves a cursor beyond it, and un-marks it. */
  lemma GapIsReached(cfg: Config, s: State, p: nat) returns (t: State)
    requires Init(cfg, s) && CanLeaveGap(cfg, s) && p in s.publishers
    ensures Leads(cfg, Anything(), s, t) && GapBelowCursor(cfg, t)
    ensures cfg.startBlock !in t.indexed && t.queue == {}
    ensures s.publishers.Keys == {p} ==> LeftBehind(t, p, cfg.startBlock)
  {
    var w :| w in s.workers;
    var m :| m in s.manuals;
    var s1 := StartIsIndexed(cfg, s, w);
    var s2 := SecondSaves(cfg, s1, p);
    LeadsTransitive(cfg, Anything(), s, s1, s2);
    t := StartIsUnmarked(cfg, s2, m);
    LeadsTransitive(cfg, Anything(), s, s2, t);
    assert IsCursor(t, t.saved.value);
  }

  lemma {:induction false} NoManualsTrace(cfg: Config, rule: Rule, states: seq<State>, events: seq<Event>, n: nat)
    requires By(cfg, rule, states, events) && n <= |events|
    requires states[0].manuals == map[] && states[0].unmarked == {}
    ensures states[n].manuals == map[] && states[n].unmarked == {}
    decreases n
  {
    if n == 0 {
    } else {
      NoManualsTrace(cfg, rule, states, events, n - 1);
      NoManualsStep(cfg, states[n - 1], events[n - 1]);
    }
  }

  lemma NoManualsStep(cfg: Config, s: State, ev: Event)
    requires Can(cfg, s, ev) && s.manuals == map[] && s.unmarked == {}
    ensures Do(cfg, s, ev).manuals == map[] && Do(cfg, s, ev).unmarked == {}
  {
  }

  lemma NoGapWithoutManuals(cfg: Config, s: State, t: State)
    requires Init(cfg, s) && s.manuals == map[] && Leads(cfg, Anything(), s, t)
    ensures !GapBelowCursor(cfg, t)
  {
    var states, events :| By(cfg, Anything(), states, events) && states[0] == s && states[|events|] == t;
    NoManualsTrace(cfg, Anything(), states, events, |events|);
    if GapBelowCursor(cfg, t) {
      var c: nat, b: nat :| IsCursor(t, c) && cfg.startBlock <= b < c && b !in t.indexed;
      CursorSafety(cfg, states, events, c, b);
      assert false;
    }
  }

  /**
   When blocks below a cursor can be unindexed, for every configuration and every fresh
   service: exactly when there are publishers with batches, workers that mark, and a manual
   publisher. Without one of these, everything from the start block to any cursor is indexed
   in every reachable state.
   */
  lemma {:induction false} GapBelowCursorExactly(cfg: Config, s: State)
    requires Init(cfg, s)
    ensures (exists t :: Leads(cfg, Anything(), s, t) && GapBelowCursor(cfg, t)) <==> CanLeaveGap(cfg, s)
  {
    if CanLeaveGap(cfg, s) {
      var p :| p in s.publishers;
      var t := GapIsReached(cfg, s, p);
    } else {
      forall t | Leads(cfg, Anything(), s, t) ensures !GapBelowCursor(cfg, t) {
        if s.manuals == map[] {
          NoGapWithoutManuals(cfg, s, t);
        } else {
          StillLeads(cfg, Anything(), s, t);
          NoGapWhenStill(cfg, t);
        }
      }
    }
  }

  lemma NoGapWhenStill(cfg: Config, t: State)
    requires Still(cfg, t)
    ensures !GapBelowCursor(cfg, t)
  {
  }
}
