/** How many attempts a worker makes at a block, whatever else happens in between. */
module ProtocolRetries {
  import opened Protocol

  /** From position i up to position j the worker is processing a block. */
  predicate RunsDuring(states: seq<State>, w: nat, i: nat, j: nat)
    requires j < |states|
  {
    forall k :: i <= k <= j ==> w in states[k].workers && states[k].workers[w].pc.Running?
  }

  /** How many attempts of the worker end in the events from position i up to position j. */
  function Ends(events: seq<Event>, w: nat, i: nat, j: nat): nat
    requires j <= |events|
  {
    if j <= i then 0
    else Ends(events, w, i, j - 1) + if events[j - 1].Work? && events[j - 1].w == w && events[j - 1].work.End? then 1 else 0
  }

  lemma RunningStep(cfg: Config, s: State, ev: Event, w: nat)
    requires Can(cfg, s, ev) && w in s.workers && s.workers[w].pc.Running?
    requires w in Do(cfg, s, ev).workers && Do(cfg, s, ev).workers[w].pc.Running?
    ensures var pc, pc' := s.workers[w].pc, Do(cfg, s, ev).workers[w].pc;
            && pc'.block == pc.block
            && (if ev.Work? && ev.w == w && ev.work.End?
                then pc.run.failed && pc.attempt < cfg.maxAttempts && pc'.attempt == pc.attempt + 1
                else pc'.attempt == pc.attempt)
  {
  }

  lemma FirstAttempt(cfg: Config, s: State, ev: Event, w: nat)
    requires Can(cfg, s, ev) && ev.Work? && ev.w == w && ev.work.Lookup? && Do(cfg, s, ev).workers[w].pc.Running?
    ensures s.workers[w].pc.Popped?
    ensures var pc' := Do(cfg, s, ev).workers[w].pc;
            pc'.block == s.workers[w].pc.block && pc'.attempt == 1
  {
  }

  /** The current attempt's number: one more than have ended since the lookup, and at most as many as are allowed. */
  lemma {:induction false} AttemptsAreCounted(
      cfg: Config, states: seq<State>, events: seq<Event>, w: nat, i: nat, j: nat)
    requires IsTrace(cfg, states, events) && i < j < |states|
    requires events[i].Work? && events[i].w == w && events[i].work.Lookup? && RunsDuring(states, w, i + 1, j)
    ensures w in states[i].workers && states[i].workers[w].pc.Popped?
    ensures states[j].workers[w].pc.block == states[i].workers[w].pc.block
    ensures states[j].workers[w].pc.attempt == 1 + Ends(events, w, i + 1, j)
    ensures states[j].workers[w].pc.attempt == 1 || states[j].workers[w].pc.attempt <= cfg.maxAttempts
    decreases j
  {
    if j == i + 1 {
      FirstAttempt(cfg, states[i], events[i], w);
    } else {
      AttemptsAreCounted(cfg, states, events, w, i, j - 1);
      RunningStep(cfg, states[j - 1], events[j - 1], w);
    }
  }

  lemma EndStep(cfg: Config, s: State, ev: Event, w: nat)
    requires Can(cfg, s, ev) && ev.Work? && ev.w == w && ev.work.End?
    ensures w in s.workers && s.workers[w].pc.Running?
    ensures var pc, pc' := s.workers[w].pc, Do(cfg, s, ev).workers[w].pc;
            && (!pc.run.failed ==> pc'.Marking? && pc'.block == pc.block)
            && (pc.run.failed ==> if pc.attempt < cfg.maxAttempts then pc'.Running? && pc'.block == pc.block else pc'.Idle?)
  {
  }

  /**
   When an attempt ends: a success is marked, and after a failure the worker gives the block
   up exactly if this was at least the maxAttempts-th attempt since its lookup. So a block is
   given up after max(1, maxAttempts) failed attempts, no more and no fewer.
   */
  lemma {:induction false} GivesUpExactly(
      cfg: Config, states: seq<State>, events: seq<Event>, w: nat, i: nat, j: nat)
    requires IsTrace(cfg, states, events) && i < j < |events|
    requires events[i].Work? && events[i].w == w && events[i].work.Lookup? && RunsDuring(states, w, i + 1, j)
    requires events[j].Work? && events[j].w == w && events[j].work.End?
    ensures w in states[i].workers && states[i].workers[w].pc.Popped? && w in states[j + 1].workers
    ensures var b, pc, after := states[i].workers[w].pc.block, states[j].workers[w].pc, states[j + 1].workers[w].pc;
            && (!pc.run.failed ==> after.Marking? && after.block == b)
            && (pc.run.failed && Ends(events, w, i + 1, j + 1) < cfg.maxAttempts ==> after.Running? && after.block == b)
            && (pc.run.failed && Ends(events, w, i + 1, j + 1) >= cfg.maxAttempts ==> after.Idle?)
            && (Ends(events, w, i + 1, j + 1) == 1 || Ends(events, w, i + 1, j + 1) <= cfg.maxAttempts)
  {
    AttemptsAreCounted(cfg, states, events, w, i, j);
    EndStep(cfg, states[j], events[j], w);
  }
}
