// The samples of an agent over whole runs: every interval belongs to one flow, and
// intervals add up.
module Flows {
  import opened Words
  import opened Switch
  import opened Agents
  import opened Turns
  import opened Registry
  import opened Conservation
  import opened Rounds
  import opened Readings
  import opened Daemon
  import opened Invariants
  import opened Runs
  import opened Polling

  // Same samples of the same flow in the same state.
  ghost predicate SameSamples(a: Agent, b: Agent) {
    && WellFormed(a) && WellFormed(b)
    && a.stats == b.stats && a.statId == b.statId && a.currentState == b.currentState
    && SameTask(a, b) && (WatchesFlow(a) <==> WatchesFlow(b))
  }

  // ---------- single steps ----------

  lemma RetimedKeepsSamples(a: Agent, b: Agent)
    requires WellFormed(a) && Retimed(a, b)
    ensures SameSamples(a, b)
  {
  }

  lemma UpdatedKeepsSamples(a: Agent, e: Event)
    requires WellFormed(a) && (e.ToggleAction? || e.ModifyThresholds?)
    ensures SameSamples(a, Updated(a, e))
  {
  }

  lemma QuietStepKeepsSamples(s: State, e: Event, id: int)
    requires Sound(s) && Enabled(s, e) && id in s.agents && id in Step(s, e).agents && !Polls(s, e, id)
    ensures SameSamples(s.agents[id], Step(s, e).agents[id])
  {
    hide Polls, SameSamples;
    if e.Expire? {
      RoundKeepsOthers(s, e, id);
    } else if Updates(s, e) && e.id == id {
      assert Step(s, e).agents[id] == Updated(s.agents[id], e);
      UpdatedKeepsSamples(s.agents[id], e);
    } else {
      OthersStepRetimes(s, e, id);
      RetimedKeepsSamples(s.agents[id], Step(s, e).agents[id]);
    }
  }

  lemma RoundKeepsOthers(s: State, e: Event, id: int)
    requires Sound(s) && Enabled(s, e) && id in s.agents && e.Expire? && !Polls(s, e, id)
    ensures id in Step(s, e).agents && SameSamples(s.agents[id], Step(s, e).agents[id])
  {
    hide PollAgent, Step, ExpireStep, Polls;
    RoundPollsGroupOnce(s, e, id);
  }

  // What a turn without a transition does to the samples.
  ghost predicate SamplesTaken(a: Agent, b: Agent, hw: Hw)
    requires WellFormed(a)
  {
    && WellFormed(b) && SameTask(a, b) && b.statId == a.statId && b.currentState == a.currentState
    && (WatchesFlow(a) <==> WatchesFlow(b))
    && (WatchesFlow(a) ==> Shifted(a, b, ReadStat(hw, a.statId)))
    && (ChecksPorts(a.monType) ==> PortsShifted(a, b, ReadPort(hw, a.portIndex)))
  }

  lemma TurnTakesSamples(a: Agent, w: World, limit: PortLimit, note: bool)
    requires WellFormed(a) && !TakesGoto(a)
    ensures var t := PollAgent(a, w, limit, note); !t.dropped && SamplesTaken(a, t.agent, w.hw)
  {
    hide PollAgent, Sampled, TakesGoto, ReadStat, ReadPort, SamplesTaken, OnlyEvents, Keeps, EventsMatch, Shifted, PortsShifted;
    OneTransition(a, w, limit, note);
    EventsKeepSamples(a, Sampled(a, w.hw), PollAgent(a, w, limit, note).agent, w.hw);
  }

  // Event bits do not matter to the samples.
  lemma EventsKeepSamples(a: Agent, c: Agent, b: Agent, hw: Hw)
    requires WellFormed(a) && WellFormed(b) && OnlyEvents(c, b) && FlowSampled(CountInterval(a), c, ReadStat(hw, a.statId))
    requires ChecksPorts(a.monType) ==> PortsShifted(a, c, ReadPort(hw, a.portIndex))
    ensures SamplesTaken(a, b, hw)
  {
    hide ReadStat, ReadPort, Difference, PortDifference, EventsMatch, StaticRows, WatchesFlow;
    StillWatches(CountInterval(a), c);
    StillWatches(c, b);
    CountingKeepsWatch(a);
  }

  lemma StillWatches(a: Agent, b: Agent)
    requires WellFormed(a) && WellFormed(b) && SameFlow(a, b)
    ensures WatchesFlow(a) <==> WatchesFlow(b)
  {
    CurrentRowKept(a, b);
  }

  lemma CountingKeepsWatch(a: Agent)
    requires WellFormed(a)
    ensures WatchesFlow(CountInterval(a)) <==> WatchesFlow(a)
  {
  }

  // A turn without a transition ends with the samples it took.
  lemma PollStepSamples(s: State, e: Event, id: int)
    requires Sound(s) && Enabled(s, e) && Polls(s, e, id) && !TakesGoto(s.agents[id])
    ensures id in Step(s, e).agents && SamplesTaken(s.agents[id], Step(s, e).agents[id], TurnWorld(s, e, id).hw)
  {
    hide PollAgent, Step, SamplesTaken, Armed, Throttled, Named, TurnWorld, HasTurn, TakesGoto;
    RoundPollsGroupOnce(s, e, id);
    TurnTakesSamples(s.agents[id], TurnWorld(s, e, id), s.limit, id in e.noted);
  }

  ghost predicate Samples(s: State, e: Event, id: int)
    requires AllWellFormed(s.agents) && Enabled(s, e)
  {
    Polls(s, e, id) || (e.Hello? && e.config.monId == id)
  }

  // If the agent watches a flow, its latest sample is what its statistics object holds.
  ghost predicate Current(s: State, id: int) {
    id in s.agents && WellFormed(s.agents[id]) && WatchesFlow(s.agents[id]) ==> InStep(s.agents[id], s.world.hw)
  }

  // After a turn, with a transition or without, or a HELLO the latest sample is what the
  // agent's statistics object holds at that moment, whatever the switch answers to whom.
  lemma SampleIsCurrent(s: State, e: Event, id: int)
    requires Sound(s) && Enabled(s, e) && Orderly(s.agents, s.world.hw)
    ensures Samples(s, e, id) ==> Current(Step(s, e), id)
  {
    hide Polls, InStep, Orderly, WatchesFlow;
    if e.Hello? {
      NotCut(s, e, id);
      HelloIsCurrent(s, e.config, e.order);
    } else if Samples(s, e, id) {
      PollIsCurrent(s, e, id);
    }
  }

  lemma HelloIsCurrent(s: State, c: Config, order: seq<int>)
    requires Enabled(s, Hello(c, order))
    ensures var t := HelloStep(s, c); c.monId in t.agents ==> InStep(t.agents[c.monId], t.world.hw)
  {
    hide StartFlow;
  }

  lemma PollIsCurrent(s: State, e: Event, id: int)
    requires Sound(s) && Enabled(s, e) && Polls(s, e, id) && Orderly(s.agents, s.world.hw)
    ensures Current(Step(s, e), id)
  {
    hide TakesGoto, Armed, Throttled, Named, Orderly, InStep, PollGroup, HasTurn, WatchesFlow;
    if !TakesGoto(s.agents[id]) {
      PollStepSamples(s, e, id);
    }
    if TakesGoto(s.agents[id]) || WatchesFlow(s.agents[id]) {
      TurnSamples(s.agents, s.world, e.order, s.agents[id].pollTime, s.limit, e.noted, id);
    }
  }

  // ---------- no interval mixes two flows ----------

  ghost predicate SamplesAt(ss: seq<State>, es: seq<Event>, id: int, k: nat) {
    && k < |es| && k < |ss| && AllWellFormed(ss[k].agents) && Enabled(ss[k], es[k])
    && Samples(ss[k], es[k], id)
  }

  lemma {:induction false} SamplesWait(ss: seq<State>, es: seq<Event>, id: int, i: nat, j: nat)
    requires IsRun(ss, es) && i <= j <= |es| && Alive(ss, id, i, j)
    requires forall k | i <= k < j :: !SamplesAt(ss, es, id, k)
    ensures SameSamples(ss[i].agents[id], ss[j].agents[id])
  {
    hide Step, Enabled, Polls, SameSamples;
    RunIsSound(ss, es, i);
    if i == j {
      RetimedKeepsSamples(ss[i].agents[id], ss[i].agents[id]);
    } else {
      SamplesWait(ss, es, id, i, j - 1);
      RunIsSound(ss, es, j - 1);
      StepOfRun(ss, es, j - 1);
      assert !SamplesAt(ss, es, id, j - 1);
      QuietStepKeepsSamples(ss[j - 1], es[j - 1], id);
      SameSamplesTwice(ss[i].agents[id], ss[j - 1].agents[id], ss[j].agents[id]);
    }
  }

  lemma SameSamplesTwice(a: Agent, b: Agent, c: Agent)
    requires SameSamples(a, b) && SameSamples(b, c)
    ensures SameSamples(a, c)
  {
  }

  // The interval computed by the turn of `id` in this step.
  ghost function TurnInterval(s: State, e: Event, id: int): Counters
    requires AllWellFormed(s.agents) && Enabled(s, e) && Polls(s, e, id)
  {
    Sampled(s.agents[id], TurnWorld(s, e, id).hw).stats.flowInterval
  }

  lemma TurnIntervalIs(s: State, e: Event, id: int)
    requires Sound(s) && Enabled(s, e) && Polls(s, e, id) && WatchesFlow(s.agents[id]) && Orderly(s.agents, s.world.hw)
    ensures var a := s.agents[id];
            TurnInterval(s, e, id) == Difference(ReadStat(s.world.hw, a.statId), a.stats.flowEnd)
  {
    hide Armed, Throttled, Named, Orderly, ReadStat, WorldAt, HasTurn;
    TurnReads(s.agents, s.world, e.order, s.agents[id].pollTime, s.limit, e.noted, id);
  }

  // The step `i` is the last one before `j` that takes a sample of the agent: its HELLO, or a
  // turn, with or without a transition.
  ghost predicate LastSample(ss: seq<State>, es: seq<Event>, id: int, i: nat, j: nat) {
    && i < j && SamplesAt(ss, es, id, i) && Alive(ss, id, i + 1, j)
    && forall k | i < k < j :: !SamplesAt(ss, es, id, k)
  }

  // Every agent that lives has been sampled before.
  lemma {:induction false} HasLastSample(ss: seq<State>, es: seq<Event>, id: int, j: nat)
    requires IsRun(ss, es) && j < |ss| && id in ss[j].agents
    ensures exists i: nat :: LastSample(ss, es, id, i, j)
  {
    hide Step, Enabled, Polls, Boot;
    if j == 0 {
      NobodyAtBoot(ss, es, id);
    } else {
      StepOfRun(ss, es, j - 1);
      if SamplesAt(ss, es, id, j - 1) {
        assert LastSample(ss, es, id, j - 1, j);
      } else {
        RunIsSound(ss, es, j - 1);
        OnlyHelloAdds(ss[j - 1], es[j - 1], id);
        HasLastSample(ss, es, id, j - 1);
        var i: nat :| LastSample(ss, es, id, i, j - 1);
        assert LastSample(ss, es, id, i, j);
      }
    }
  }

  lemma NobodyAtBoot(ss: seq<State>, es: seq<Event>, id: int)
    requires IsRun(ss, es)
    ensures id !in ss[0].agents
  {
  }

  lemma OnlyHelloAdds(s: State, e: Event, id: int)
    requires Sound(s) && Enabled(s, e) && id in Step(s, e).agents && !Samples(s, e, id)
    ensures id in s.agents
  {
    hide Polls, PollGroup, Leave, ChangePollTime, StartFlow, Join, Armed, Throttled, Named, Toggled, WithThresholds;
    match e
    case Hello(c, order) =>
      var st := StartFlow(NewAgent(c), s.world.hw, 0);
      JoinRetimes(s.agents, s.loop, c.monId, FirstSamples(st.agent, st.hw));
    case Stop(k, order) => LeaveRetimes(s.agents, s.loop, order, k);
    case ParamChange(k, p, order) => ChangeRetimes(s.agents, s.loop, order, k, p);
    case _ =>
  }

  // Whenever an interval is computed, at step j, both samples it subtracts are readings of
  // the agent's current statistics object: the one now, and the one at its last sampling.
  lemma OneFlowPerInterval(ss: seq<State>, es: seq<Event>, id: int, j: nat)
    requires IsRun(ss, es) && PolledAt(ss, es, id, j) && WatchesFlow(ss[j].agents[id])
    ensures exists i: nat :: LastSample(ss, es, id, i, j) && IntervalSpans(ss, es, id, i, j)
  {
    hide IsRun, Enabled, HasTurn, IntervalSpans, LastSample, AllWellFormed;
    HasLastSample(ss, es, id, j);
    var i: nat :| LastSample(ss, es, id, i, j);
    IntervalOf(ss, es, id, i, j);
  }

  ghost predicate IntervalSpans(ss: seq<State>, es: seq<Event>, id: int, i: nat, j: nat)
    requires PolledAt(ss, es, id, j)
  {
    && i < j && id in ss[i + 1].agents
    && var stat := ss[j].agents[id].statId;
       && ss[i + 1].agents[id].statId == stat && ss[i + 1].agents[id].currentState == ss[j].agents[id].currentState
       && TurnInterval(ss[j], es[j], id) == Difference(ReadStat(ss[j].world.hw, stat), ReadStat(ss[i + 1].world.hw, stat))
  }

  lemma IntervalOf(ss: seq<State>, es: seq<Event>, id: int, i: nat, j: nat)
    requires IsRun(ss, es) && PolledAt(ss, es, id, j) && WatchesFlow(ss[j].agents[id]) && LastSample(ss, es, id, i, j)
    ensures IntervalSpans(ss, es, id, i, j)
  {
    hide Step, Enabled, Polls, Samples, TurnInterval, InStep, Difference, Orderly, ReadStat, WatchesFlow;
    StepOfRun(ss, es, i);
    RunIsSound(ss, es, i);
    RunIsSound(ss, es, j);
    RunIsOrderly(ss, es, i);
    RunIsOrderly(ss, es, j);
    SamplesWait(ss, es, id, i + 1, j);
    SampleIsCurrent(ss[i], es[i], id);
    TurnIntervalIs(ss[j], es[j], id);
    InStepReads(ss[i + 1].agents[id], ss[i + 1].world.hw);
  }

  lemma InStepReads(a: Agent, hw: Hw)
    requires InStep(a, hw)
    ensures a.stats.flowEnd == ReadStat(hw, a.statId)
  {
  }

  // With entries and statistics objects accounted for, that object is the one that the
  // agent's own entry counts into.
  lemma IntervalIsOfOwnFlow(s: State, id: int)
    requires Conserved(s.agents, s.world.hw) && id in s.agents && WellFormed(s.agents[id]) && WatchesFlow(s.agents[id])
    ensures Owns(s.agents[id], s.world.hw) && ReadStat(s.world.hw, s.agents[id].statId) == s.world.hw.stats[s.agents[id].statId]
  {
    assert Placed(s.agents, s.world.hw, id) && HasFlow(s.agents, id);
  }

  // ---------- intervals add up ----------

  function Pick(c: Counters, bytes: bool): U64 {
    if bytes then c.bytes else c.packets
  }

  // No turn of `id` takes a transition.
  ghost predicate NoTransition(ss: seq<State>, es: seq<Event>, id: int, i: nat, j: nat) {
    forall k | i <= k < j :: PolledAt(ss, es, id, k) ==> WellFormed(ss[k].agents[id]) && !TakesGoto(ss[k].agents[id])
  }

  // The intervals that the polls in the range leave behind.
  ghost function FlowSum(ss: seq<State>, es: seq<Event>, id: int, bytes: bool, i: nat, j: nat): nat
    requires j <= |es| < |ss| && Alive(ss, id, i, j)
  {
    if j <= i then 0
    else FlowSum(ss, es, id, bytes, i, j - 1) +
         (if PolledAt(ss, es, id, j - 1) then Pick(ss[j].agents[id].stats.flowInterval, bytes) else 0)
  }

  // One step's contribution.
  ghost predicate FlowStep(s: State, t: State, id: int, polled: bool) {
    && id in s.agents && id in t.agents
    && WellFormed(s.agents[id]) && WellFormed(t.agents[id])
    && var a, b := s.agents[id], t.agents[id];
       && b.statId == a.statId && SameTask(a, b) && (WatchesFlow(a) <==> WatchesFlow(b))
       && if polled then
            && (WatchesFlow(a) ==> b.stats.flowInterval == Difference(b.stats.flowEnd, a.stats.flowEnd))
            && (ChecksPorts(a.monType) ==> b.stats.portInterval == PortDifference(b.stats.portEnd, a.stats.portEnd))
          else b.stats == a.stats
  }

  lemma RunFlowStep(ss: seq<State>, es: seq<Event>, id: int, k: nat)
    requires IsRun(ss, es) && k < |es| && Alive(ss, id, k, k + 1)
    requires NoTransition(ss, es, id, k, k + 1)
    ensures FlowStep(ss[k], ss[k + 1], id, PolledAt(ss, es, id, k))
  {
    hide Step, Enabled, Armed, Throttled, Named, Polls;
    StepOfRun(ss, es, k);
    RunIsSound(ss, es, k);
    RunIsSound(ss, es, k + 1);
    if PolledAt(ss, es, id, k) {
      assert !TakesGoto(ss[k].agents[id]);
      PollStepSamples(ss[k], es[k], id);
    } else {
      QuietStepKeepsSamples(ss[k], es[k], id);
    }
  }

  lemma AddResidue(sum: int, first: int, last: int, now: int)
    requires sum % TWO_64 == (last - first) % TWO_64
    ensures (sum + ToU64(now - last)) % TWO_64 == (now - first) % TWO_64
    ensures 0 <= now - last < TWO_64 ==> ToU64(now - last) == now - last
  {
  }

  lemma AddInterval(sum: int, first: Counters, last: Counters, now: Counters, bytes: bool)
    requires sum % TWO_64 == (Pick(last, bytes) as int - Pick(first, bytes)) % TWO_64
    ensures (sum + Pick(Difference(now, last), bytes)) % TWO_64 == (Pick(now, bytes) as int - Pick(first, bytes)) % TWO_64
    ensures Pick(last, bytes) <= Pick(now, bytes) ==>
              Pick(Difference(now, last), bytes) == Pick(now, bytes) as int - Pick(last, bytes)
  {
    hide ToU64;
    AddResidue(sum, Pick(first, bytes), Pick(last, bytes), Pick(now, bytes));
  }

  lemma AddStep(s: State, t: State, id: int, polled: bool, bytes: bool, sum: int, first: Counters)
    requires FlowStep(s, t, id, polled) && WatchesFlow(s.agents[id])
    requires sum % TWO_64 == (Pick(s.agents[id].stats.flowEnd, bytes) as int - Pick(first, bytes)) % TWO_64
    ensures id in s.agents && id in t.agents && WellFormed(t.agents[id]) && WatchesFlow(t.agents[id])
    ensures t.agents[id].statId == s.agents[id].statId
    ensures var last, now := Pick(s.agents[id].stats.flowEnd, bytes), Pick(t.agents[id].stats.flowEnd, bytes);
            var more := sum + if polled then Pick(t.agents[id].stats.flowInterval, bytes) else 0;
            && more % TWO_64 == (now as int - Pick(first, bytes)) % TWO_64
            && (last <= now && sum == last as int - Pick(first, bytes) ==> more == now as int - Pick(first, bytes))
  {
    hide Difference, Pick, WatchesFlow, SameTask, WellFormed, PortDifference;
    AddInterval(sum, first, s.agents[id].stats.flowEnd, t.agents[id].stats.flowEnd, bytes);
  }

  // Between two transitions the flow intervals sum to the latest sample minus the first,
  // modulo 2^64, and exactly so when no sample falls below its predecessor.
  lemma {:induction false} FlowTelescopes(ss: seq<State>, es: seq<Event>, id: int, bytes: bool, i: nat, j: nat)
    requires IsRun(ss, es) && i <= j <= |es| && Alive(ss, id, i, j)
    requires NoTransition(ss, es, id, i, j)
    requires WellFormed(ss[i].agents[id]) && WatchesFlow(ss[i].agents[id])
    ensures var a, b := ss[i].agents[id], ss[j].agents[id];
            var gain := Pick(b.stats.flowEnd, bytes) as int - Pick(a.stats.flowEnd, bytes);
            && WellFormed(b) && WatchesFlow(b) && b.statId == a.statId
            && FlowSum(ss, es, id, bytes, i, j) % TWO_64 == gain % TWO_64
            && ((forall k | i <= k < j :: Rises(ss, id, bytes, k)) ==> FlowSum(ss, es, id, bytes, i, j) == gain)
  {
    hide Step, Enabled, PolledAt, Moves, TakesGoto, Pick, WatchesFlow, WellFormed, FlowStep, Rises;
    if i < j {
      FlowTelescopes(ss, es, id, bytes, i, j - 1);
      RunFlowStep(ss, es, id, j - 1);
      AddStep(ss[j - 1], ss[j], id, PolledAt(ss, es, id, j - 1), bytes,
              FlowSum(ss, es, id, bytes, i, j - 1), ss[i].agents[id].stats.flowEnd);
      RiseOf(ss, id, bytes, j - 1);
      assert (forall k | i <= k < j :: Rises(ss, id, bytes, k)) ==> Rises(ss, id, bytes, j - 1);
    }
  }

  ghost predicate Rises(ss: seq<State>, id: int, bytes: bool, k: nat) {
    k + 1 < |ss| && id in ss[k].agents && id in ss[k + 1].agents ==>
    Pick(ss[k].agents[id].stats.flowEnd, bytes) <= Pick(ss[k + 1].agents[id].stats.flowEnd, bytes)
  }

  lemma RiseOf(ss: seq<State>, id: int, bytes: bool, k: nat)
    requires k + 1 < |ss| && id in ss[k].agents && id in ss[k + 1].agents
    ensures Rises(ss, id, bytes, k)
            <==> Pick(ss[k].agents[id].stats.flowEnd, bytes) <= Pick(ss[k + 1].agents[id].stats.flowEnd, bytes)
  {
  }

  ghost function PortSum(ss: seq<State>, es: seq<Event>, id: int, c: nat, i: nat, j: nat): int
    requires j <= |es| < |ss| && Alive(ss, id, i, j) && c < PORT_COUNTERS
  {
    if j <= i then 0
    else PortSum(ss, es, id, c, i, j - 1) +
         (if PolledAt(ss, es, id, j - 1) then ss[j].agents[id].stats.portInterval[c] else 0)
  }

  // The step from one reading to the next fits an int.
  ghost predicate NoOverflow(ss: seq<State>, id: int, c: nat, k: nat)
    requires c < PORT_COUNTERS
  {
    k + 1 < |ss| && id in ss[k].agents && id in ss[k + 1].agents ==>
    -TWO_31 <= ss[k + 1].agents[id].stats.portEnd[c] as int - ss[k].agents[id].stats.portEnd[c] < TWO_31
  }

  lemma AddWrapped(x: int, y: int, d: int)
    requires ToI32(x) == ToI32(y)
    ensures ToI32(x + ToI32(d)) == ToI32(y + d)
  {
    hide ToI32;
    Turns32(x);
    Turns32(y);
    Turns32(d);
    SameWrap(x + ToI32(d), y + d, (x + TWO_31) / TWO_32 - (y + TWO_31) / TWO_32 - (d + TWO_31) / TWO_32);
  }

  lemma InRange(d: int)
    ensures -TWO_31 <= d < TWO_31 ==> ToI32(d) == d
  {
  }

  lemma AddPortInterval(sum: int, first: I32, last: PortReading, now: PortReading, c: nat)
    requires c < PORT_COUNTERS && ToI32(sum) == ToI32(last[c] as int - first)
    ensures ToI32(sum + PortDifference(now, last)[c]) == ToI32(now[c] as int - first)
    ensures -TWO_31 <= now[c] as int - last[c] < TWO_31 ==> PortDifference(now, last)[c] == now[c] as int - last[c]
  {
    assert PortDifference(now, last)[c] == ToI32(now[c] as int - last[c]);
    hide ToI32, PortDifference;
    AddWrapped(sum, last[c] as int - first, now[c] as int - last[c]);
    InRange(now[c] as int - last[c]);
  }

  lemma AddPortStep(s: State, t: State, id: int, polled: bool, c: nat, sum: int, first: I32)
    requires c < PORT_COUNTERS && FlowStep(s, t, id, polled) && ChecksPorts(s.agents[id].monType)
    requires ToI32(sum) == ToI32(s.agents[id].stats.portEnd[c] as int - first)
    ensures id in s.agents && id in t.agents && SameTask(s.agents[id], t.agents[id])
    ensures var last, now := s.agents[id].stats.portEnd[c], t.agents[id].stats.portEnd[c];
            var more := sum + if polled then t.agents[id].stats.portInterval[c] else 0;
            && ToI32(more) == ToI32(now as int - first)
            && (-TWO_31 <= now as int - last < TWO_31 && sum == last as int - first ==> more == now as int - first)
  {
    hide Difference, WatchesFlow, WellFormed, PortDifference, ToI32;
    AddPortInterval(sum, first, s.agents[id].stats.portEnd, t.agents[id].stats.portEnd, c);
  }

  // The same for each of the port counters, modulo 2^32, and exactly absent int overflow.
  lemma {:induction false} PortTelescopes(ss: seq<State>, es: seq<Event>, id: int, c: nat, i: nat, j: nat)
    requires IsRun(ss, es) && i <= j <= |es| && Alive(ss, id, i, j) && c < PORT_COUNTERS
    requires NoTransition(ss, es, id, i, j)
    requires ChecksPorts(ss[i].agents[id].monType)
    ensures var a, b := ss[i].agents[id], ss[j].agents[id];
            var gain := b.stats.portEnd[c] as int - a.stats.portEnd[c];
            && SameTask(a, b)
            && ToI32(PortSum(ss, es, id, c, i, j)) == ToI32(gain)
            && ((forall k | i <= k < j :: NoOverflow(ss, id, c, k)) ==> PortSum(ss, es, id, c, i, j) == gain)
  {
    hide Step, Enabled, PolledAt, Moves, TakesGoto, ToI32, FlowStep;
    if i < j {
      PortTelescopes(ss, es, id, c, i, j - 1);
      RunFlowStep(ss, es, id, j - 1);
      AddPortStep(ss[j - 1], ss[j], id, PolledAt(ss, es, id, j - 1), c,
                  PortSum(ss, es, id, c, i, j - 1), ss[i].agents[id].stats.portEnd[c]);
      assert (forall k | i <= k < j :: NoOverflow(ss, id, c, k)) ==> NoOverflow(ss, id, c, j - 1);
    }
  }
}
