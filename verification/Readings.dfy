// No agent disturbs the counters that another one reads, whatever the switch answers.
module Readings {
  import opened Words
  import opened Switch
  import opened Agents
  import opened Turns
  import opened Registry
  import opened Conservation
  import opened Rounds
  import opened Daemon

  ghost predicate Numbered(hw: Hw) {
    && (forall e :: e in hw.entries ==> 0 < e <= hw.lastEntry)
    && (forall s :: s in hw.stats ==> 0 < s <= hw.lastStat)
  }

  ghost predicate Apart(agents: Roster, i: int, j: int) {
    i in agents && j in agents && i != j && agents[i].statId == agents[j].statId ==> agents[i].statId == 0
  }

  // Entries and statistics objects have numbers handed out so far, and no two agents refer to
  // one object.
  ghost predicate Orderly(agents: Roster, hw: Hw) {
    && Numbered(hw)
    && (forall id :: id in agents ==> 0 <= agents[id].statId <= hw.lastStat)
    && (forall i, j :: Apart(agents, i, j))
  }

  // ---------- one turn ----------

  // Only the object `stat` and new ones may read differently.
  ghost predicate Spares(stat: int, before: Hw, after: Hw) {
    && Numbered(after) && before.lastStat <= after.lastStat
    && forall s :: s <= before.lastStat && (s != stat || s == 0) ==> ReadStat(after, s) == ReadStat(before, s)
  }

  // The agent still refers to its object, or to a new one.
  ghost predicate Refers(stat: int, now: int, before: Hw, after: Hw) {
    now == stat || before.lastStat < now <= after.lastStat
  }

  // The latest sample is what the agent's statistics object holds.
  ghost predicate InStep(a: Agent, hw: Hw) {
    a.stats.flowEnd == ReadStat(hw, a.statId)
  }

  lemma SparesTwice(stat: int, now: int, h0: Hw, h1: Hw, h2: Hw)
    requires Spares(stat, h0, h1) && Refers(stat, now, h0, h1) && Spares(now, h1, h2)
    ensures Spares(stat, h0, h2)
  {
    forall s | s <= h0.lastStat && (s != stat || s == 0) ensures ReadStat(h2, s) == ReadStat(h0, s) {
      assert ReadStat(h1, s) == ReadStat(h0, s);
    }
  }

  lemma DestroySpares(hw: Hw, entry: int, stat: int)
    requires Numbered(hw)
    ensures Spares(stat, hw, EntryDestroy(hw, entry, stat))
  {
  }

  lemma StartSpares(a: Agent, hw: Hw, rowNum: nat)
    requires |a.rows| >= 1 && Numbered(hw)
    ensures var s := StartFlow(a, hw, rowNum);
            Spares(0, hw, s.hw) && Refers(a.statId, s.agent.statId, hw, s.hw)
  {
    hide EntryCreate, StatAttachInstall, Keeps, WellFormed;
    var row := a.rows[RowIndex(rowNum, |a.rows|)];
    if row.flowExists {
      var c := EntryCreate(hw, row.flow);
      CreateMakes(hw, row.flow);
      AttachMakes(c.0, c.1);
    }
  }

  lemma GotoSpares(a: Agent, w: World, next: int)
    requires WellFormed(a) && 1 <= next < NO_NEXT_STATE && Numbered(w.hw)
    ensures var t := Goto(a, w, next);
            && Spares(a.statId, w.hw, t.world.hw)
            && (!t.dropped ==> Refers(a.statId, t.agent.statId, w.hw, t.world.hw) && InStep(t.agent, t.world.hw))
  {
    hide StartFlow, EntryDestroy, ReadStat;
    var h, b := EntryDestroy(w.hw, a.flowEntry, a.statId), a.(currentState := next % 256);
    assert h.lastStat == w.hw.lastStat by {
      DestroyKeepsNumbers(w.hw, a.flowEntry, a.statId);
    }
    DestroySpares(w.hw, a.flowEntry, a.statId);
    StartSpares(b, h, b.currentState - 1);
    var s := StartFlow(b, h, b.currentState - 1);
    assert Spares(a.statId, h, s.hw);
    SparesTwice(a.statId, a.statId, w.hw, h, s.hw);
  }

  lemma DestroyKeepsNumbers(hw: Hw, entry: int, stat: int)
    ensures EntryDestroy(hw, entry, stat).lastStat == hw.lastStat
  {
  }

  lemma ActSpares(t: Turn, row: Row, act: Action, note: bool)
    requires !t.dropped && WellFormed(t.agent) && 1 <= row.nextState <= NO_NEXT_STATE && Numbered(t.world.hw)
    ensures var r := Act(t, row, act, note);
            && Spares(t.agent.statId, t.world.hw, r.world.hw)
            && (!r.dropped ==> Refers(t.agent.statId, r.agent.statId, t.world.hw, r.world.hw))
            && (!r.dropped && (InStep(t.agent, t.world.hw) || BranchOf(t.agent, row, act) == Transition)
                ==> InStep(r.agent, r.world.hw))
  {
    hide Goto, Act, ReadStat;
    if BranchOf(t.agent, row, act) == Transition {
      ActIs(t, row, act, note);
      GotoSpares(t.agent, t.world, row.nextState);
    } else {
      StateAfterAct(t, row, act, note);
    }
  }

  lemma {:induction false} ActionsSpare(t: Turn, row: Row, acts: seq<Action>, note: bool)
    requires !t.dropped && WellFormed(t.agent) && 1 <= row.nextState <= NO_NEXT_STATE && Numbered(t.world.hw)
    ensures var r := RunActions(t, row, acts, note);
            && Spares(t.agent.statId, t.world.hw, r.world.hw)
            && (!r.dropped ==> Refers(t.agent.statId, r.agent.statId, t.world.hw, r.world.hw))
            && (!r.dropped && (InStep(t.agent, t.world.hw) || exists act :: act in acts && BranchOf(t.agent, row, act) == Transition)
                ==> InStep(r.agent, r.world.hw))
  {
    hide Act, ReadStat, InStep;
    if acts != [] {
      var init, last := acts[..|acts| - 1], acts[|acts| - 1];
      assert acts == init + [last];
      ActionsSpare(t, row, init, note);
      var before := RunActions(t, row, init, note);
      if !before.dropped {
        assert BranchOf(before.agent, row, last) == BranchOf(t.agent, row, last);
        ActSpares(before, row, last, note);
        var after := Act(before, row, last, note);
        SparesTwice(t.agent.statId, before.agent.statId, t.world.hw, before.world.hw, after.world.hw);
      }
    }
  }

  // A turn touches only its agent's own object, and ends with the latest sample in step.
  lemma PollSpares(a: Agent, w: World, limit: PortLimit, note: bool)
    requires WellFormed(a) && Numbered(w.hw)
    ensures var t := PollAgent(a, w, limit, note);
            && Spares(a.statId, w.hw, t.world.hw)
            && (!t.dropped ==> Refers(a.statId, t.agent.statId, w.hw, t.world.hw))
            && (!t.dropped && (WatchesFlow(a) || TakesGoto(a)) ==> InStep(t.agent, t.world.hw))
  {
    hide RunActions, Spares, Refers, ReadStat, Sampled;
    var t0 := BeforeActions(a, w, limit);
    GoesIffTakesGoto(a, w.hw);
    ActionsSpare(t0, CurrentRow(a), CurrentRow(a).actions, note);
  }

  // ---------- a round ----------

  lemma OthersRead(r: Round, id: int, p: I32, limit: PortLimit, noted: set<int>)
    requires !r.aborted && id in r.agents && AllWellFormed(r.agents) && Orderly(r.agents, r.world.hw)
    ensures var q := PollOne(r, id, p, limit, noted);
            && Orderly(q.agents, q.world.hw)
            && forall k :: k in r.agents && k != id ==> ReadStat(q.world.hw, r.agents[k].statId) == ReadStat(r.world.hw, r.agents[k].statId)
  {
    hide PollAgent, ReadStat, WellFormed, SameMember;
    var a, q := r.agents[id], PollOne(r, id, p, limit, noted);
    if a.pollTime == p {
      assert WellFormed(a);
      PollSpares(a, r.world, limit, id in noted);
      forall k | k in r.agents && k != id ensures ReadStat(q.world.hw, r.agents[k].statId) == ReadStat(r.world.hw, r.agents[k].statId) {
        assert Apart(r.agents, id, k);
      }
      forall i, j ensures Apart(q.agents, i, j) {
        assert Apart(r.agents, i, j);
      }
    }
  }

  lemma {:induction false} RoundOrderly(agents: Roster, w: World, order: seq<int>, p: I32, limit: PortLimit, noted: set<int>)
    requires AllWellFormed(agents) && (forall k :: k in order ==> k in agents) && Orderly(agents, w.hw)
    ensures var r := PollGroup(agents, w, order, p, limit, noted); Orderly(r.agents, r.world.hw)
  {
    hide PollOne, Orderly;
    if order != [] {
      var init := order[..|order| - 1];
      RoundOrderly(agents, w, init, p, limit, noted);
      var r := PollGroup(agents, w, init, p, limit, noted);
      if !r.aborted {
        OthersRead(r, order[|order| - 1], p, limit, noted);
      }
    }
  }

  lemma {:induction false} WaitingReads(agents: Roster, w: World, order: seq<int>, p: I32, limit: PortLimit,
                                        noted: set<int>, id: int)
    requires AllWellFormed(agents) && (forall k :: k in order ==> k in agents) && Orderly(agents, w.hw)
    requires id !in order && id in agents
    ensures var r := PollGroup(agents, w, order, p, limit, noted);
            ReadStat(r.world.hw, agents[id].statId) == ReadStat(w.hw, agents[id].statId)
  {
    hide PollOne, Orderly, ReadStat;
    if order != [] {
      var init, last := order[..|order| - 1], order[|order| - 1];
      assert order == init + [last];
      WaitingReads(agents, w, init, p, limit, noted, id);
      RoundOrderly(agents, w, init, p, limit, noted);
      NotYetPolled(agents, w, init, p, limit, noted, id);
      var r := PollGroup(agents, w, init, p, limit, noted);
      if !r.aborted {
        OthersRead(r, last, p, limit, noted);
      }
    }
  }

  // A turn reads the counters that its object had when the round began, ...
  lemma TurnReads(agents: Roster, w: World, order: seq<int>, p: I32, limit: PortLimit, noted: set<int>, id: int)
    requires AllWellFormed(agents) && Distinct(order) && (forall k :: k in order ==> k in agents) && Orderly(agents, w.hw)
    requires id in agents
    ensures ReadStat(WorldAt(agents, w, order, p, limit, noted, id).hw, agents[id].statId) == ReadStat(w.hw, agents[id].statId)
  {
    NotBefore(order, id);
    WaitingReads(agents, w, Before(order, id), p, limit, noted, id);
  }

  ghost predicate StillInStep(agents: Roster, hw: Hw, id: int) {
    id in agents ==> InStep(agents[id], hw)
  }

  // ... and the round, cut short or not, ends with its latest sample in step.
  lemma {:induction false} TurnSamples(agents: Roster, w: World, order: seq<int>, p: I32, limit: PortLimit,
                                       noted: set<int>, id: int)
    requires AllWellFormed(agents) && Distinct(order) && (forall k :: k in order ==> k in agents) && Orderly(agents, w.hw)
    requires id in agents && HasTurn(agents, w, order, p, limit, noted, id)
    requires WatchesFlow(agents[id]) || TakesGoto(agents[id])
    ensures var r := PollGroup(agents, w, order, p, limit, noted); StillInStep(r.agents, r.world.hw, id)
  {
    hide PollOne, Orderly, ReadStat, WatchesFlow, TakesGoto;
    var init, last := order[..|order| - 1], order[|order| - 1];
    PrefixOfOrder(order);
    var r := PollGroup(agents, w, init, p, limit, noted);
    RoundOrderly(agents, w, init, p, limit, noted);
    if last == id {
      NotYetPolled(agents, w, init, p, limit, noted, id);
      OwnTurnSamples(r, id, limit, noted);
    } else {
      TurnSamples(agents, w, init, p, limit, noted, id);
      if !r.aborted {
        OthersRead(r, last, p, limit, noted);
      }
    }
  }

  lemma OwnTurnSamples(r: Round, id: int, limit: PortLimit, noted: set<int>)
    requires !r.aborted && id in r.agents && AllWellFormed(r.agents) && Orderly(r.agents, r.world.hw)
    requires WatchesFlow(r.agents[id]) || TakesGoto(r.agents[id])
    ensures var q := PollOne(r, id, r.agents[id].pollTime, limit, noted); StillInStep(q.agents, q.world.hw, id)
  {
    hide PollAgent, WatchesFlow, TakesGoto;
    PollSpares(r.agents[id], r.world, limit, id in noted);
  }
}
