// Entries and statistics objects from step to step.
module Accounts {
  import opened Words
  import opened Switch
  import opened Agents
  import opened EventLoop
  import opened Registry
  import opened Conservation
  import opened Refusals
  import opened Rounds
  import opened Readings
  import opened Holdings
  import opened Daemon
  import opened Invariants

  // ---------- steps that ask for nothing ----------

  lemma UpdateConserves(agents: Roster, id: int, b: Agent, hw: Hw)
    requires Conserved(agents, hw) && id in agents && SameHolding(agents[id], b)
    ensures Conserved(agents[id := b], hw)
  {
    ReadOnlyConserves(agents, agents[id := b], hw, hw);
  }

  lemma ToggleConserves(agents: Roster, id: int, action: Action, hw: Hw)
    requires Conserved(agents, hw) && id in agents && WellFormed(agents[id])
    ensures Conserved(agents[id := Toggled(agents[id], action)], hw)
  {
    UpdateConserves(agents, id, Toggled(agents[id], action), hw);
  }

  lemma ThresholdsConserve(agents: Roster, id: int, packets: U64, bytes: U64, hw: Hw)
    requires Conserved(agents, hw) && id in agents && WellFormed(agents[id])
    ensures Conserved(agents[id := WithThresholds(agents[id], packets, bytes)], hw)
  {
    UpdateConserves(agents, id, WithThresholds(agents[id], packets, bytes), hw);
  }

  // Timer ids and poll times do not matter to the switch.
  lemma RetimedConserves(agents: Roster, more: Roster, hw: Hw)
    requires Conserved(agents, hw) && agents.Keys == more.Keys
    requires forall id :: id in agents ==> Retimed(agents[id], more[id])
    ensures Conserved(more, hw)
  {
    ReadOnlyConserves(agents, more, hw, hw);
  }

  lemma StopConserves(s: State, id: int, order: seq<int>)
    requires Sound(s) && id in s.agents && Conserved(s.agents, s.world.hw)
    ensures var t := StopStep(s, id, order); Conserved(t.agents, t.world.hw)
  {
    hide Conserved, Leave, EntryDestroy;
    DestroyConserves(s.agents, s.world.hw, id);
    LeaveRetimes(s.agents, s.loop, order, id);
    RetimedConserves(s.agents - {id}, StopStep(s, id, order).agents, StopStep(s, id, order).world.hw);
  }

  lemma ParamChangeConserves(s: State, id: int, p: I32, order: seq<int>)
    requires id in s.agents && Conserved(s.agents, s.world.hw)
    ensures var t := ParamChangeStep(s, id, p, order); Conserved(t.agents, t.world.hw)
  {
    hide Conserved, ChangePollTime;
    ChangeRetimes(s.agents, s.loop, order, id, p);
    RetimedConserves(s.agents, ParamChangeStep(s, id, p, order).agents, s.world.hw);
  }

  lemma TrafficConserves(agents: Roster, hw: Hw, stats: map<int, Counters>, ports: map<int, PortReading>)
    requires Conserved(agents, hw) && stats.Keys == hw.stats.Keys
    ensures Conserved(agents, hw.(stats := stats, ports := ports))
  {
    ReadOnlyConserves(agents, agents, hw, hw.(stats := stats, ports := ports));
  }

  lemma OperatorConserves(s: State, e: Event)
    requires Sound(s) && Enabled(s, e) && Conserved(s.agents, s.world.hw)
    requires !e.Hello? && !e.Stop? && !e.ParamChange? && !e.Expire?
    ensures var t := Step(s, e); Conserved(t.agents, t.world.hw)
  {
    hide Conserved, Armed, Throttled, Named, Toggled, WithThresholds;
    match e
    case ToggleAction(id, action) =>
      if id in s.agents {
        ToggleConserves(s.agents, id, action, s.world.hw);
      }
    case ModifyThresholds(id, packets, bytes) =>
      if id in s.agents {
        ThresholdsConserve(s.agents, id, packets, bytes, s.world.hw);
      }
    case Traffic(stats, ports) => TrafficConserves(s.agents, s.world.hw, stats, ports);
    case _ =>
  }

  // ---------- steps that install ----------

  // What a HELLO asks for.
  function HelloInstalls(c: Config): nat
    requires |c.rows| >= 1
  {
    if c.rows[0].flowExists then 1 else 0
  }

  lemma OneIsTidy(hw: Hw)
    ensures TidyTurn(hw, 0, 1) <==> CleanInstall(hw)
  {
    assert !Refuses(hw, 0);
    assert LeaksBetween(hw, 0, 1) <==> Leaks(hw, 1);
    assert Refuses(hw, 1) <==> Refused(hw, 1);
  }

  lemma FirstStartConservesIff(agents: Roster, hw: Hw, id: int, a: Agent)
    requires id !in agents && Conserved(agents, hw) && WellFormed(a) && Vacant(a, hw)
    ensures var s := StartFlow(a, hw, a.currentState - 1);
            Conserved(Enrolled(agents, id, s), s.hw) <==> TidyTurn(hw, 0, if CurrentRow(a).flowExists then 1 else 0)
  {
    hide Conserved, StartFlow, TidyTurn;
    if CurrentRow(a).flowExists {
      ConservedIffCleanInstall(agents, hw, id, a);
      OneIsTidy(hw);
    } else {
      StartConserves(agents, hw, id, a);
      NothingTidy(hw);
    }
  }

  lemma SameClaimIff(rest: Roster, hw: Hw, id: int, a: Agent, b: Agent)
    requires id !in rest && SameClaim(a, b)
    ensures Conserved(rest[id := a], hw) <==> Conserved(rest[id := b], hw)
  {
    hide Conserved;
    if Conserved(rest[id := a], hw) {
      SameClaimConserves(rest, hw, id, a, b);
    } else if Conserved(rest[id := b], hw) {
      SameClaimConserves(rest, hw, id, b, a);
    }
  }

  lemma NewAgentIsVacant(agents: Roster, hw: Hw, c: Config)
    requires GoodTable(c.rows) && Conserved(agents, hw)
    ensures var a := NewAgent(c);
            Vacant(a, hw) && WellFormed(a) && a.currentState == 1 && CurrentRow(a).flowExists == c.rows[0].flowExists
  {
    assert EntryHeld(agents, hw, 0);
  }

  lemma HelloConservesIff(s: State, c: Config, order: seq<int>)
    requires Sound(s) && Enabled(s, Hello(c, order)) && Conserved(s.agents, s.world.hw)
    ensures var t := HelloStep(s, c);
            Conserved(t.agents, t.world.hw) <==> TidyTurn(s.world.hw, 0, HelloInstalls(c))
  {
    hide StartFlow, Conserved, Vacant, TidyTurn, Join, NewAgent, Armed, Throttled, Named, GoodTable;
    var a, hw := NewAgent(c), s.world.hw;
    NewAgentIsVacant(s.agents, hw, c);
    FirstStartConservesIff(s.agents, hw, c.monId, a);
    var st, t := StartFlow(a, hw, 0), HelloStep(s, c);
    if st.ok {
      JoinRetimes(s.agents, s.loop, c.monId, FirstSamples(st.agent, st.hw));
      assert t.agents.Keys == s.agents.Keys + {c.monId};
      assert forall k :: k in s.agents ==> t.agents[k] == s.agents[k];
      assert t.agents == s.agents[c.monId := t.agents[c.monId]];
      SameClaimIff(s.agents, st.hw, c.monId, st.agent, t.agents[c.monId]);
    }
  }

  // What the answers of the switch must be for the step to keep everything accounted for.
  ghost predicate TidyStep(s: State, e: Event)
    requires AllWellFormed(s.agents) && Enabled(s, e)
  {
    match e
    case Hello(c, order) => TidyTurn(s.world.hw, 0, HelloInstalls(c))
    case Expire(t, order, noted, free) => RoundStarts(s, e) ==> TidyRound(s.agents, s.world.hw, order, PolledGroup(s, e))
    case _ => true
  }

  lemma ExpireConservesIff(s: State, e: Event)
    requires Sound(s) && Enabled(s, e) && e.Expire? && Conserved(s.agents, s.world.hw)
    ensures var t := Step(s, e); Conserved(t.agents, t.world.hw) <==> TidyStep(s, e)
  {
    hide Conserved, PollGroup, TidyRound, Armed, Throttled, Named, Spoilt;
    if RoundStarts(s, e) {
      RoundConservesIff(s.agents, s.world, e.order, PolledGroup(s, e), s.limit, e.noted);
    }
  }

  // Installed entries and statistics objects stay in bijection with the agents that have a
  // flow exactly when the installations of the step are tidy.
  lemma StepConservesIff(s: State, e: Event)
    requires Sound(s) && Enabled(s, e) && Conserved(s.agents, s.world.hw)
    ensures var t := Step(s, e); Conserved(t.agents, t.world.hw) <==> TidyStep(s, e)
  {
    hide HelloStep, StopStep, ParamChangeStep, ExpireStep, Conserved, Sound, TidyTurn, TidyRound;
    match e
    case Hello(c, order) => HelloConservesIff(s, c, order);
    case Stop(id, order) => StopConserves(s, id, order);
    case ParamChange(id, p, order) => ParamChangeConserves(s, id, p, order);
    case Expire(timer, order, noted, free) => ExpireConservesIff(s, e);
    case _ => OperatorConserves(s, e);
  }

  // ---------- how many ----------

  // The agents with a flow, in any order of the hash map.
  function Holders(agents: Roster, order: seq<int>): (h: seq<int>)
    requires AllWellFormed(agents) && Distinct(order) && forall k :: k in order ==> k in agents
    ensures Distinct(h) && forall k :: k in h <==> k in order && CurrentRow(agents[k]).flowExists
  {
    if order == [] then []
    else
      PrefixOfOrder(order);
      var init, last := order[..|order| - 1], order[|order| - 1];
      assert last in agents;
      Holders(agents, init) + if CurrentRow(agents[last]).flowExists then [last] else []
  }

  function Image(keys: seq<int>, f: map<int, int>): set<int>
    requires forall k :: k in keys ==> k in f
  {
    set k | k in keys :: f[k]
  }

  // Distinct keys with distinct values.
  ghost predicate Injective(keys: seq<int>, f: map<int, int>) {
    && Distinct(keys) && (forall k :: k in keys ==> k in f)
    && forall i, j :: i in keys && j in keys && f[i] == f[j] ==> i == j
  }

  lemma {:induction false} SameSize(keys: seq<int>, f: map<int, int>)
    requires Injective(keys, f)
    ensures |Image(keys, f)| == |keys|
  {
    if keys == [] {
      assert Image(keys, f) == {};
    } else {
      var init, last := keys[..|keys| - 1], keys[|keys| - 1];
      PrefixOfOrder(keys);
      assert last in keys;
      SameSize(init, f);
      assert Image(keys, f) == Image(init, f) + {f[last]};
    }
  }

  // There are as many entries, and as many statistics objects, as agents with a flow.
  lemma AsManyAsHolders(agents: Roster, hw: Hw, order: seq<int>)
    requires AllWellFormed(agents) && Conserved(agents, hw) && IsOrder(order, agents)
    ensures |hw.entries.Keys| == |Holders(agents, order)| == |hw.stats.Keys|
  {
    hide Conserved, Holders, Image;
    var entry := map id | id in agents :: agents[id].flowEntry;
    var stat := map id | id in agents :: agents[id].statId;
    HoldersApart(agents, hw, order, entry, stat);
    SameSize(Holders(agents, order), entry);
    SameSize(Holders(agents, order), stat);
    HoldersImage(agents, hw, order, entry, stat);
  }

  lemma HoldersImage(agents: Roster, hw: Hw, order: seq<int>, entry: map<int, int>, stat: map<int, int>)
    requires AllWellFormed(agents) && Conserved(agents, hw) && IsOrder(order, agents) && entry.Keys == stat.Keys == agents.Keys
    requires forall id :: id in agents ==> entry[id] == agents[id].flowEntry && stat[id] == agents[id].statId
    ensures hw.entries.Keys == Image(Holders(agents, order), entry) && hw.stats.Keys == Image(Holders(agents, order), stat)
  {
    hide Conserved, AllWellFormed;
    forall e ensures e in hw.entries.Keys <==> e in Image(Holders(agents, order), entry) {
      EntryOfHolder(agents, hw, order, e);
    }
    forall o ensures o in hw.stats.Keys <==> o in Image(Holders(agents, order), stat) {
      StatOfHolder(agents, hw, order, o);
    }
  }

  lemma HoldersApart(agents: Roster, hw: Hw, order: seq<int>, entry: map<int, int>, stat: map<int, int>)
    requires AllWellFormed(agents) && Conserved(agents, hw) && IsOrder(order, agents) && entry.Keys == stat.Keys == agents.Keys
    requires forall id :: id in agents ==> entry[id] == agents[id].flowEntry && stat[id] == agents[id].statId
    ensures Injective(Holders(agents, order), entry) && Injective(Holders(agents, order), stat)
  {
    var holders := Holders(agents, order);
    forall i, j | i in holders && j in holders && i != j ensures entry[i] != entry[j] && stat[i] != stat[j] {
      assert HasFlow(agents, i) && HasFlow(agents, j) && Unshared(agents, i, j);
    }
  }

  lemma EntryOfHolder(agents: Roster, hw: Hw, order: seq<int>, e: int)
    requires AllWellFormed(agents) && Conserved(agents, hw) && IsOrder(order, agents)
    ensures e in hw.entries <==> exists id :: id in Holders(agents, order) && agents[id].flowEntry == e
  {
    assert EntryHeld(agents, hw, e);
    if e in hw.entries {
      var id :| HoldsEntry(agents, id, e);
      assert id in Holders(agents, order);
    }
    forall id | id in Holders(agents, order) ensures agents[id].flowEntry in hw.entries {
      assert HasFlow(agents, id) && Placed(agents, hw, id);
    }
  }

  lemma StatOfHolder(agents: Roster, hw: Hw, order: seq<int>, o: int)
    requires AllWellFormed(agents) && Conserved(agents, hw) && IsOrder(order, agents)
    ensures o in hw.stats <==> exists id :: id in Holders(agents, order) && agents[id].statId == o
  {
    assert StatHeld(agents, hw, o);
    if o in hw.stats {
      var id :| HoldsStat(agents, id, o);
      assert id in Holders(agents, order);
    }
    forall id | id in Holders(agents, order) ensures agents[id].statId in hw.stats {
      assert HasFlow(agents, id) && Placed(agents, hw, id);
    }
  }

  // A HELLO adds one entry and one statistics object, or none of either.
  lemma HelloHoldings(s: State, c: Config, order: seq<int>)
    requires Sound(s) && Enabled(s, Hello(c, order)) && TidyTurn(s.world.hw, 0, HelloInstalls(c))
    ensures var hw, t := s.world.hw, HelloStep(s, c);
            var adds := c.rows[0].flowExists && hw.entryFate(hw.lastEntry + 1).Created?;
            && t.world.hw.entries.Keys == hw.entries.Keys + (if adds then {hw.lastEntry + 1} else {})
            && t.world.hw.stats.Keys == hw.stats.Keys + (if adds then {hw.lastStat + 1} else {})
            && (c.monId in t.agents <==> adds || !c.rows[0].flowExists)
  {
    hide Join, StartFlow, TidyTurn, FirstSamples, Armed, Throttled, Named;
    var a := NewAgent(c);
    var st := StartFlow(a, s.world.hw, 0);
    assert WellFormed(a) && CurrentRow(a) == c.rows[0];
    if c.rows[0].flowExists {
      OneIsTidy(s.world.hw);
      CleanStart(a, s.world.hw);
    } else {
      IdleStart(a, s.world.hw);
    }
    JoinRetimes(s.agents, s.loop, c.monId, FirstSamples(st.agent, st.hw));
  }

  lemma IdleStart(a: Agent, hw: Hw)
    requires WellFormed(a) && !CurrentRow(a).flowExists
    ensures StartFlow(a, hw, a.currentState - 1) == Start(a, hw, true)
  {
  }

  // A STOP removes the agent's own, and nothing else.
  lemma StopHoldings(s: State, id: int, order: seq<int>)
    requires Sound(s) && id in s.agents && Conserved(s.agents, s.world.hw)
    ensures var a, hw, h := s.agents[id], s.world.hw, StopStep(s, id, order).world.hw;
            if CurrentRow(a).flowExists
            then a.flowEntry in hw.entries && a.statId in hw.stats
                 && h.entries == hw.entries - {a.flowEntry} && h.stats == hw.stats - {a.statId}
            else h == hw
  {
    hide Leave, Armed, Throttled, Named;
    assert Placed(s.agents, s.world.hw, id);
  }

  // ---------- what no step undoes or disturbs ----------

  lemma StepKeepsFates(s: State, e: Event)
    requires Sound(s) && Enabled(s, e)
    ensures var h, k := s.world.hw, Step(s, e).world.hw; SameFates(h, k) && h.lastEntry <= k.lastEntry
  {
    hide Armed, Throttled, Named, Join, Leave, ChangePollTime, PollGroup, EntryDestroy, StartFlow, Refuses, RoundInstalls, WellFormed;
    match e
    case Hello(c, order) => StartAsks(NewAgent(c), s.world.hw, 0);
    case Stop(id, order) => DestroyKeepsIds(s.world.hw, s.agents[id].flowEntry, s.agents[id].statId);
    case Expire(timer, order, noted, free) =>
      if RoundStarts(s, e) {
        RoundAbortsIff(s.agents, s.world, order, PolledGroup(s, e), s.limit, noted);
      }
    case _ =>
  }

  lemma DestroyKeepsIds(hw: Hw, entry: int, stat: int)
    ensures Advanced(hw, EntryDestroy(hw, entry, stat), 0)
  {
  }

  // A leak stays: no later step of the daemon removes what nobody holds.
  lemma StepKeepsLeak(s: State, e: Event)
    requires Sound(s) && Enabled(s, e) && Leaky(s.agents, s.world.hw)
    ensures Leaky(Step(s, e).agents, Step(s, e).world.hw)
  {
    hide Leaky, Armed, Throttled, Named, PollGroup, Leave, ChangePollTime, EntryDestroy, HelloStep, Toggled, WithThresholds;
    var t := Step(s, e);
    match e
    case Hello(c, order) => HelloKeepsLeak(s, c, order);
    case Stop(id, order) =>
      DestroyLeaky(s.agents, s.world.hw, id);
      LeaveRetimes(s.agents, s.loop, order, id);
      SameIdsLeaky(s.agents, t.agents, t.world.hw);
    case ParamChange(id, p, order) =>
      ChangeRetimes(s.agents, s.loop, order, id, p);
      SameIdsLeaky(s.agents, t.agents, t.world.hw);
    case Expire(timer, order, noted, free) =>
      if RoundStarts(s, e) {
        LeakyRound(s.agents, s.world, order, PolledGroup(s, e), s.limit, noted);
      }
    case Traffic(stats, ports) => TrafficLeaky(s.agents, s.world.hw, t.world.hw);
    case _ =>
      UpdatedIds(s, e);
      SameIdsLeaky(s.agents, t.agents, t.world.hw);
  }

  lemma UpdatedIds(s: State, e: Event)
    requires Sound(s) && Enabled(s, e) && !e.Hello? && !e.Stop? && !e.ParamChange? && !e.Expire? && !e.Traffic?
    ensures SameIds(s.agents, Step(s, e).agents) && Step(s, e).world == s.world
  {
    hide WellFormed, Armed, Throttled, Named, TimerStart, TimerEnd;
    if e.ModifyThresholds? && e.id in s.agents {
      assert WellFormed(s.agents[e.id]);
    }
  }

  lemma TrafficLeaky(agents: Roster, hw: Hw, h: Hw)
    requires Leaky(agents, hw) && h == hw.(stats := h.stats, ports := h.ports) && h.stats.Keys == hw.stats.Keys
    ensures Leaky(agents, h)
  {
    if e :| OrphanEntry(agents, hw, e) {
      assert OrphanEntry(agents, h, e);
    } else {
      var s :| OrphanStat(hw, s);
      assert OrphanStat(h, s);
    }
  }

  lemma HelloKeepsLeak(s: State, c: Config, order: seq<int>)
    requires Enabled(s, Hello(c, order)) && Leaky(s.agents, s.world.hw)
    ensures var t := HelloStep(s, c); Leaky(t.agents, t.world.hw)
  {
    hide StartFlow, Leaky, Join, Fresh;
    var a, st, t := NewAgent(c), StartFlow(NewAgent(c), s.world.hw, 0), HelloStep(s, c);
    NewIdsLeaky(s.agents, c.monId, a, s.world.hw);
    LeakyStart(s.agents, c.monId, a, s.world.hw, 0);
    if st.ok {
      JoinRetimes(s.agents, s.loop, c.monId, FirstSamples(st.agent, st.hw));
      SameIdsLeaky(s.agents[c.monId := st.agent], t.agents, t.world.hw);
    }
  }

  lemma NewIdsLeaky(agents: Roster, id: int, a: Agent, hw: Hw)
    requires id !in agents && a.flowEntry == 0 && Leaky(agents, hw)
    ensures Leaky(agents[id := a], hw)
  {
    if e :| OrphanEntry(agents, hw, e) {
      assert OrphanEntry(agents[id := a], hw, e);
    }
  }

  lemma StepKeepsOrderly(s: State, e: Event)
    requires Sound(s) && Enabled(s, e) && Orderly(s.agents, s.world.hw)
    ensures Orderly(Step(s, e).agents, Step(s, e).world.hw)
  {
    hide Armed, Throttled, Named, PollGroup, Leave, ChangePollTime, EntryDestroy, HelloStep, Toggled, WithThresholds, Orderly;
    var t := Step(s, e);
    match e
    case Hello(c, order) => HelloOrderly(s, c, order);
    case Stop(id, order) =>
      LeaveRetimes(s.agents, s.loop, order, id);
      DestroyOrderly(s.agents, s.world.hw, s.agents[id].flowEntry, s.agents[id].statId);
      SameIdsOrderly(s.agents, t.agents, t.world.hw, t.world.hw);
    case ParamChange(id, p, order) =>
      ChangeRetimes(s.agents, s.loop, order, id, p);
      SameIdsOrderly(s.agents, t.agents, s.world.hw, t.world.hw);
    case Expire(timer, order, noted, free) =>
      if RoundStarts(s, e) {
        RoundOrderly(s.agents, s.world, order, PolledGroup(s, e), s.limit, noted);
      }
    case Traffic(stats, ports) => SameIdsOrderly(s.agents, s.agents, s.world.hw, t.world.hw);
    case _ =>
      UpdatedIds(s, e);
      SameIdsOrderly(s.agents, t.agents, s.world.hw, t.world.hw);
  }

  lemma SameIdsOrderly(agents: Roster, more: Roster, hw: Hw, h: Hw)
    requires Orderly(agents, hw) && SameIds(agents, more)
    requires h == hw.(stats := h.stats, ports := h.ports) && h.stats.Keys == hw.stats.Keys
    ensures Orderly(more, h)
  {
    forall s | s in h.stats ensures s in hw.stats {
      assert s in h.stats.Keys;
    }
    forall i, j ensures Apart(more, i, j) {
      assert Apart(agents, i, j);
    }
  }

  lemma DestroyOrderly(agents: Roster, hw: Hw, entry: int, stat: int)
    requires Orderly(agents, hw)
    ensures Orderly(agents, EntryDestroy(hw, entry, stat))
  {
  }

  lemma HelloOrderly(s: State, c: Config, order: seq<int>)
    requires Enabled(s, Hello(c, order)) && Orderly(s.agents, s.world.hw)
    ensures var t := HelloStep(s, c); Orderly(t.agents, t.world.hw)
  {
    hide StartFlow, Join, ReadStat;
    var a, st, t := NewAgent(c), StartFlow(NewAgent(c), s.world.hw, 0), HelloStep(s, c);
    StartSpares(a, s.world.hw, 0);
    if st.ok {
      JoinRetimes(s.agents, s.loop, c.monId, FirstSamples(st.agent, st.hw));
      forall i, j ensures Apart(t.agents, i, j) {
        assert Apart(s.agents, i, j);
      }
    }
  }
}
