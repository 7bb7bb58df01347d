// The port counters of an agent: its samples are readings of its own port, and every
// interval spans two of them.
module PortSamples {
  import opened Words
  import opened Switch
  import opened Agents
  import opened Turns
  import opened Registry
  import opened Rows
  import opened Rounds
  import opened Daemon
  import opened Invariants
  import opened Runs
  import opened Polling
  import opened Flows

  // The latest port sample is what the agent's own port reads.
  ghost predicate PortInStep(a: Agent, hw: Hw) {
    a.stats.portEnd == PortReadingOf(hw, a.portIndex)
  }

  // ---------- one turn ----------

  lemma DestroyKeepsPorts(hw: Hw, entry: int, stat: int)
    ensures EntryDestroy(hw, entry, stat).ports == hw.ports
  {
  }

  lemma StartKeepsPorts(a: Agent, hw: Hw, rowNum: nat)
    requires |a.rows| >= 1
    ensures StartFlow(a, hw, rowNum).hw.ports == hw.ports
  {
  }

  lemma GotoReadsPort(a: Agent, w: World, next: int)
    requires WellFormed(a) && 1 <= next < NO_NEXT_STATE
    ensures var t := Goto(a, w, next);
            t.world.hw.ports == w.hw.ports && (!t.dropped ==> PortInStep(t.agent, t.world.hw))
  {
    hide StartFlow, EntryDestroy;
    var h, b := EntryDestroy(w.hw, a.flowEntry, a.statId), a.(currentState := next % 256);
    DestroyKeepsPorts(w.hw, a.flowEntry, a.statId);
    StartKeepsPorts(b, h, b.currentState - 1);
  }

  ghost predicate ReadsOwnPort(t: Turn, r: Turn, goes: bool) {
    && r.world.hw.ports == t.world.hw.ports
    && (!r.dropped && (goes || PortInStep(t.agent, t.world.hw)) ==> PortInStep(r.agent, r.world.hw))
  }

  lemma ActReadsPort(t: Turn, row: Row, act: Action, note: bool)
    requires !t.dropped && WellFormed(t.agent) && 1 <= row.nextState <= NO_NEXT_STATE
    ensures ReadsOwnPort(t, Act(t, row, act, note), BranchOf(t.agent, row, act) == Transition)
  {
    hide Goto, Act, PortReadingOf, Report;
    ActIs(t, row, act, note);
    if BranchOf(t.agent, row, act) == Transition {
      GotoReadsPort(t.agent, t.world, row.nextState);
    } else {
      StateAfterAct(t, row, act, note);
    }
  }

  lemma {:induction false} ActionsReadPort(t: Turn, row: Row, acts: seq<Action>, note: bool)
    requires !t.dropped && WellFormed(t.agent) && 1 <= row.nextState <= NO_NEXT_STATE
    ensures ReadsOwnPort(t, RunActions(t, row, acts, note), exists act :: act in acts && BranchOf(t.agent, row, act) == Transition)
  {
    hide Act, PortInStep;
    if acts != [] {
      var init, last := acts[..|acts| - 1], acts[|acts| - 1];
      assert acts == init + [last];
      ActionsReadPort(t, row, init, note);
      var before := RunActions(t, row, init, note);
      if !before.dropped {
        assert BranchOf(before.agent, row, last) == BranchOf(t.agent, row, last);
        ActReadsPort(before, row, last, note);
      }
    }
  }

  // A turn touches no port, and ends on the reading of the agent's own one if its type reads
  // ports or it takes a transition.
  lemma PollReadsPort(a: Agent, w: World, limit: PortLimit, note: bool, i: int)
    requires WellFormed(a) && InRow(a, i)
    ensures var t := PollAgent(a, w, limit, note);
            && t.world.hw.ports == w.hw.ports
            && (!t.dropped && (ReadsPorts(a.monType) || Transits(a, a.rows[i])) ==> PortInStep(t.agent, t.world.hw))
  {
    hide RunActions, Sampled, TakesGoto, Transits, PortReadingOf, BranchOf;
    RowOfState(a, i);
    TransitsIffTakesGoto(a, i);
    PortsSampledByType(a, w.hw);
    SamplingKeeps(a, w.hw);
    GoesIffTakesGoto(a, w.hw);
    ActionsReadPort(BeforeActions(a, w, limit), CurrentRow(a), CurrentRow(a).actions, note);
  }

  // ---------- one step ----------

  lemma {:induction false} RoundKeepsPorts(agents: Roster, w: World, order: seq<int>, p: I32, limit: PortLimit, noted: set<int>)
    requires AllWellFormed(agents) && forall k :: k in order ==> k in agents
    ensures PollGroup(agents, w, order, p, limit, noted).world.hw.ports == w.hw.ports
  {
    hide PollAgent, SameMember, Lost;
    if order != [] {
      var init, last := order[..|order| - 1], order[|order| - 1];
      RoundKeepsPorts(agents, w, init, p, limit, noted);
      var r := PollGroup(agents, w, init, p, limit, noted);
      if !r.aborted {
        var a := r.agents[last];
        PollReadsPort(a, r.world, limit, last in noted, StateRow(a.rows, a.currentState));
      }
    }
  }

  // A HELLO, and a turn of an agent that reads ports or takes a transition.
  ghost predicate ReadsPort(s: State, e: Event, id: int)
    requires AllWellFormed(s.agents) && Enabled(s, e)
  {
    || (e.Hello? && e.config.monId == id)
    || (Polls(s, e, id)
        && var a := s.agents[id];
           ReadsPorts(a.monType) || Transits(a, a.rows[StateRow(a.rows, a.currentState)]))
  }

  // After it the agent's port sample is what its own port reads at that moment.
  lemma PortSampleIsCurrent(s: State, e: Event, id: int)
    requires Sound(s) && Enabled(s, e)
    ensures var t := Step(s, e); ReadsPort(s, e, id) && id in t.agents ==> PortInStep(t.agents[id], t.world.hw)
  {
    hide Armed, Throttled, Named, PollGroup, PollAgent, Transits, HasTurn, PortInStep, StartFlow, Join;
    if e.Hello? && e.config.monId == id {
      HelloReadsPort(s, e.config, e.order);
    } else if ReadsPort(s, e, id) {
      var a := s.agents[id];
      PollReadsPort(a, TurnWorld(s, e, id), s.limit, id in e.noted, StateRow(a.rows, a.currentState));
      RoundPollsGroupOnce(s, e, id);
      RoundKeepsPorts(s.agents, s.world, e.order, a.pollTime, s.limit, e.noted);
      RoundKeepsPorts(s.agents, s.world, Before(e.order, id), a.pollTime, s.limit, e.noted);
      if !TurnOf(s, e, id).dropped {
        SamePort(TurnOf(s, e, id).agent, TurnOf(s, e, id).world.hw, Step(s, e).world.hw);
      }
    }
  }

  lemma SamePort(a: Agent, h: Hw, k: Hw)
    requires h.ports == k.ports
    ensures PortInStep(a, h) == PortInStep(a, k)
  {
  }

  lemma HelloReadsPort(s: State, c: Config, order: seq<int>)
    requires Enabled(s, Hello(c, order))
    ensures var t := HelloStep(s, c); c.monId in t.agents ==> PortInStep(t.agents[c.monId], t.world.hw)
  {
    hide StartFlow;
  }

  // ---------- runs ----------

  // The port interval computed by the turn of `id` in this step.
  ghost function TurnPortInterval(s: State, e: Event, id: int): PortReading
    requires AllWellFormed(s.agents) && Enabled(s, e) && Polls(s, e, id)
  {
    Sampled(s.agents[id], TurnWorld(s, e, id).hw).stats.portInterval
  }

  ghost predicate PortIntervalSpans(ss: seq<State>, es: seq<Event>, id: int, i: nat, j: nat)
    requires PolledAt(ss, es, id, j)
  {
    && i < j && id in ss[i + 1].agents
    && var port := ss[j].agents[id].portIndex;
       && ss[i + 1].agents[id].portIndex == port
       && var before, now := PortReadingOf(ss[i + 1].world.hw, port), PortReadingOf(ss[j].world.hw, port);
          forall c :: 0 <= c < PORT_COUNTERS ==> TurnPortInterval(ss[j], es[j], id)[c] == Wrapped(now[c] as int - before[c])
  }

  lemma PortIntervalIs(s: State, e: Event, id: int)
    requires Sound(s) && Enabled(s, e) && Polls(s, e, id) && (s.agents[id].monType == STATS || s.agents[id].monType == FP_STATS)
    ensures var a := s.agents[id];
            forall c :: 0 <= c < PORT_COUNTERS ==>
              TurnPortInterval(s, e, id)[c] == Wrapped(PortReadingOf(s.world.hw, a.portIndex)[c] as int - a.stats.portEnd[c])
  {
    hide Armed, Throttled, Named, PollGroup, HasTurn, Sampled, Wrapped;
    PortsSampledByType(s.agents[id], TurnWorld(s, e, id).hw);
    RoundKeepsPorts(s.agents, s.world, Before(e.order, id), s.agents[id].pollTime, s.limit, e.noted);
  }

  // Whenever port intervals are computed, at step j, each is the 32-bit difference of two
  // readings of the agent's own port: the one now, and the one at its last sampling.
  lemma OnePortPerInterval(ss: seq<State>, es: seq<Event>, id: int, j: nat)
    requires IsRun(ss, es) && PolledAt(ss, es, id, j)
    requires ss[j].agents[id].monType == STATS || ss[j].agents[id].monType == FP_STATS
    ensures exists i: nat :: LastSample(ss, es, id, i, j) && PortIntervalSpans(ss, es, id, i, j)
  {
    hide IsRun, Enabled, HasTurn, PortIntervalSpans, LastSample, AllWellFormed;
    HasLastSample(ss, es, id, j);
    var i: nat :| LastSample(ss, es, id, i, j);
    PortIntervalOf(ss, es, id, i, j);
  }

  lemma PortIntervalOf(ss: seq<State>, es: seq<Event>, id: int, i: nat, j: nat)
    requires IsRun(ss, es) && PolledAt(ss, es, id, j) && LastSample(ss, es, id, i, j)
    requires ss[j].agents[id].monType == STATS || ss[j].agents[id].monType == FP_STATS
    ensures PortIntervalSpans(ss, es, id, i, j)
  {
    hide Step, Enabled, Polls, TurnPortInterval, PortReadingOf, Wrapped;
    StepOfRun(ss, es, i);
    RunIsSound(ss, es, i);
    RunIsSound(ss, es, j);
    SamplesWait(ss, es, id, i + 1, j);
    SamplingReadsPort(ss[i], es[i], id);
    PortSampleIsCurrent(ss[i], es[i], id);
    PortIntervalIs(ss[j], es[j], id);
  }

  lemma SamplingReadsPort(s: State, e: Event, id: int)
    requires Sound(s) && Enabled(s, e) && Samples(s, e, id) && id in Step(s, e).agents
    requires ReadsPorts(Step(s, e).agents[id].monType)
    ensures ReadsPort(s, e, id)
  {
    hide Step, Transits, HasTurn, Armed, Throttled, Named;
    if Polls(s, e, id) {
      StepCounts(s, e, id);
    }
  }
}
