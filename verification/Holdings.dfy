// Exactly when turns and rounds keep entries and statistics objects accounted for.
module Holdings {
  import opened Words
  import opened Switch
  import opened Agents
  import opened Turns
  import opened Registry
  import opened Conservation
  import opened Refusals
  import opened Rounds
  import opened Daemon

  // ---------- what is never put right again ----------

  // An installed entry that no agent will destroy.
  ghost predicate OrphanEntry(agents: Roster, hw: Hw, e: int) {
    && e in hw.entries && 0 < e <= hw.lastEntry
    && forall id :: id in agents && agents[id].flowEntry == e ==> hw.entries[e].stat != Some(agents[id].statId)
  }

  // A statistics object that no entry counts into.
  ghost predicate OrphanStat(hw: Hw, s: int) {
    s in hw.stats && s <= hw.lastStat && forall e :: e in hw.entries ==> hw.entries[e].stat != Some(s)
  }

  ghost predicate Leaky(agents: Roster, hw: Hw) {
    (exists e :: OrphanEntry(agents, hw, e)) || (exists s :: OrphanStat(hw, s))
  }

  lemma NoOrphanEntry(agents: Roster, hw: Hw, e: int)
    requires Conserved(agents, hw)
    ensures !OrphanEntry(agents, hw, e)
  {
    assert EntryHeld(agents, hw, e);
    if e in hw.entries {
      var id :| HoldsEntry(agents, id, e);
      assert Placed(agents, hw, id);
    }
  }

  lemma NoOrphanStat(agents: Roster, hw: Hw, s: int)
    requires Conserved(agents, hw)
    ensures !OrphanStat(hw, s)
  {
    assert StatHeld(agents, hw, s);
    if s in hw.stats {
      var id :| HoldsStat(agents, id, s);
      assert Placed(agents, hw, id);
    }
  }

  lemma ConservedIsNotLeaky(agents: Roster, hw: Hw)
    requires Conserved(agents, hw)
    ensures !Leaky(agents, hw)
  {
    forall e ensures !OrphanEntry(agents, hw, e) {
      NoOrphanEntry(agents, hw, e);
    }
    forall s ensures !OrphanStat(hw, s) {
      NoOrphanStat(agents, hw, s);
    }
  }

  // Agents with the same ids, and perhaps fewer of them.
  ghost predicate SameIds(agents: Roster, more: Roster) {
    forall id :: id in more ==> id in agents && more[id].flowEntry == agents[id].flowEntry && more[id].statId == agents[id].statId
  }

  lemma SameIdsLeaky(agents: Roster, more: Roster, hw: Hw)
    requires Leaky(agents, hw) && SameIds(agents, more)
    ensures Leaky(more, hw)
  {
    if e :| OrphanEntry(agents, hw, e) {
      assert OrphanEntry(more, hw, e);
    }
  }

  // Destroying an agent's entry finds no orphan.
  lemma DestroyLeaky(agents: Roster, hw: Hw, id: int)
    requires Leaky(agents, hw) && id in agents
    ensures Leaky(agents, EntryDestroy(hw, agents[id].flowEntry, agents[id].statId))
  {
    var h := EntryDestroy(hw, agents[id].flowEntry, agents[id].statId);
    if e :| OrphanEntry(agents, hw, e) {
      assert OrphanEntry(agents, h, e);
    } else {
      var s :| OrphanStat(hw, s);
      assert OrphanStat(h, s);
    }
  }

  // What was there is there, and what is new has fresh ids.
  ghost predicate Grown(hw: Hw, h: Hw) {
    && hw.lastEntry <= h.lastEntry && hw.lastStat <= h.lastStat
    && (forall e :: e in hw.entries && 0 < e <= hw.lastEntry ==> e in h.entries && h.entries[e] == hw.entries[e])
    && (forall s :: s in hw.stats && s <= hw.lastStat ==> s in h.stats)
    && (forall e, s :: s <= hw.lastStat && e in h.entries && h.entries[e].stat == Some(s)
                       ==> e in hw.entries && hw.entries[e].stat == Some(s))
  }

  // A start deals in fresh ids only, or in none.
  ghost predicate Fresh(a: Agent, hw: Hw, b: Agent, h: Hw) {
    && Grown(hw, h)
    && (0 < b.flowEntry <= hw.lastEntry ==> b.flowEntry == a.flowEntry && b.statId == a.statId)
  }

  lemma CreateGrows(hw: Hw, flow: FlowKey)
    ensures var c := EntryCreate(hw, flow);
            Grown(hw, c.0) && c.0.lastStat == hw.lastStat && (c.1 < 0 || c.1 > hw.lastEntry)
  {
  }

  lemma AttachGrows(hw: Hw, h: Hw, entry: int)
    requires Grown(hw, h) && h.lastStat == hw.lastStat && (entry < 0 || entry > hw.lastEntry)
    ensures Grown(hw, StatAttachInstall(h, entry).0)
  {
    hide StatAttachInstall;
    AttachMakes(h, entry);
  }

  lemma StartIsFresh(a: Agent, hw: Hw, rowNum: nat)
    requires |a.rows| >= 1
    ensures var s := StartFlow(a, hw, rowNum); Fresh(a, hw, s.agent, s.hw)
  {
    hide EntryCreate, StatAttachInstall, Keeps, Grown;
    var row := a.rows[RowIndex(rowNum, |a.rows|)];
    if row.flowExists {
      var c := EntryCreate(hw, row.flow);
      CreateGrows(hw, row.flow);
      AttachGrows(hw, c.0, c.1);
    } else {
      SameGrown(hw);
    }
  }

  lemma SameGrown(hw: Hw)
    ensures Grown(hw, hw)
  {
  }

  lemma FreshLeaky(rest: Roster, id: int, a: Agent, hw: Hw, b: Agent, h: Hw)
    requires Fresh(a, hw, b, h) && Leaky(rest[id := a], hw)
    ensures Leaky(rest[id := b], h)
  {
    var was, now := rest[id := a], rest[id := b];
    if e :| OrphanEntry(was, hw, e) {
      forall k | k in now && now[k].flowEntry == e ensures h.entries[e].stat != Some(now[k].statId) {
        assert k in was;
      }
      assert OrphanEntry(now, h, e);
    } else {
      var s :| OrphanStat(hw, s);
      assert OrphanStat(h, s);
    }
  }

  // ---------- one installation ----------

  // What the n-th next installation leaves: an entry that counts, nothing at all but a code
  // that is taken for an entry, or something that nobody will remove.
  ghost predicate Installed(hw: Hw, n: int) {
    hw.entryFate(hw.lastEntry + n).Created? && hw.statFate(hw.lastStat + n).Attached?
  }

  ghost predicate Missed(hw: Hw, n: int) {
    var fate := hw.entryFate(hw.lastEntry + n);
    fate.CreateRefused? && fate.rc != INTERNAL && hw.statFate(hw.lastStat + n).StatRefused?
  }

  ghost predicate Leaks(hw: Hw, n: int) {
    !Installed(hw, n) && !Missed(hw, n) && hw.entryFate(hw.lastEntry + n) != CreateRefused(INTERNAL)
  }

  // An agent that should have an entry and has an error code instead.
  ghost predicate Bare(a: Agent) {
    WellFormed(a) && CurrentRow(a).flowExists && a.flowEntry < 0
  }

  lemma ConservedIsNotBare(agents: Roster, hw: Hw, id: int)
    requires Conserved(agents, hw) && id in agents
    ensures !Bare(agents[id])
  {
    assert Placed(agents, hw, id) && EntryHeld(agents, hw, agents[id].flowEntry);
  }

  // How an agent in the middle of its turn stands: its entry is in place, it is bare, or
  // something has leaked.
  datatype Standing = Holding | Missing | Leaking

  ghost predicate Stands(st: Standing, rest: Roster, id: int, a: Agent, hw: Hw) {
    match st
    case Holding => Conserved(rest[id := a], hw)
    case Missing => Conserved(rest, hw) && Vacant(a, hw) && Bare(a)
    case Leaking => Leaky(rest[id := a], hw)
  }

  // How a dropped agent leaves the others.
  ghost predicate Leaves(leaks: bool, rest: Roster, hw: Hw) {
    if leaks then Leaky(rest, hw) else Conserved(rest, hw)
  }

  lemma LeakMade(a: Agent, hw: Hw)
    requires WellFormed(a) && CurrentRow(a).flowExists && Leaks(hw, 1) && a.statId <= hw.lastStat
    ensures var s, e, o := StartFlow(a, hw, a.currentState - 1), hw.lastEntry + 1, hw.lastStat + 1;
            && s.hw.lastEntry == e
            && if e in s.hw.entries then s.agent.flowEntry == e ==> s.hw.entries[e].stat != Some(s.agent.statId)
               else o in s.hw.stats && s.hw.lastStat == o
                    && forall k :: k in s.hw.entries ==> k in hw.entries && s.hw.entries[k].stat in {hw.entries[k].stat, Some(o)}
                                                         && (s.hw.entries[k].stat == Some(o) ==> hw.entries[k].stat == Some(o) || k < 0)
  {
    hide EntryCreate, StatAttachInstall, Keeps;
    var flow := CurrentRow(a).flow;
    var c := EntryCreate(hw, flow);
    CreateMakes(hw, flow);
    AttachMakes(c.0, c.1);
  }

  lemma StartLeaks(rest: Roster, hw: Hw, id: int, a: Agent)
    requires id !in rest && Conserved(rest, hw) && WellFormed(a) && Vacant(a, hw) && CurrentRow(a).flowExists && Leaks(hw, 1)
    ensures var s := StartFlow(a, hw, a.currentState - 1);
            Leaky(if s.ok then rest[id := s.agent] else rest, s.hw)
  {
    hide StartFlow, Leaks, HasFlow;
    LeakMade(a, hw);
    var s := StartFlow(a, hw, a.currentState - 1);
    var more := if s.ok then rest[id := s.agent] else rest;
    var e, o := hw.lastEntry + 1, hw.lastStat + 1;
    if e in s.hw.entries {
      forall k | k in more && more[k].flowEntry == e ensures s.hw.entries[e].stat != Some(more[k].statId) {
        assert k in rest ==> Placed(rest, hw, k) && EntryHeld(rest, hw, e);
      }
      assert OrphanEntry(more, s.hw, e);
    } else {
      forall k | k in s.hw.entries ensures s.hw.entries[k].stat != Some(o) {
        StatBelow(rest, hw, k);
      }
      assert OrphanStat(s.hw, o);
    }
  }

  lemma StatBelow(agents: Roster, hw: Hw, e: int)
    requires Conserved(agents, hw) && e in hw.entries
    ensures 0 < e && hw.entries[e].stat != Some(hw.lastStat + 1)
  {
    assert EntryHeld(agents, hw, e);
    var id :| HoldsEntry(agents, id, e);
    assert Placed(agents, hw, id) && StatHeld(agents, hw, agents[id].statId);
  }

  lemma StartMisses(rest: Roster, hw: Hw, id: int, a: Agent)
    requires id !in rest && Conserved(rest, hw) && WellFormed(a) && Vacant(a, hw) && CurrentRow(a).flowExists && Missed(hw, 1)
    ensures var s := StartFlow(a, hw, a.currentState - 1);
            s.ok && Stands(Missing, rest, id, s.agent, s.hw)
  {
    var s := StartFlow(a, hw, a.currentState - 1);
    assert s.agent.flowEntry !in hw.entries by {
      assert EntryHeld(rest, hw, s.agent.flowEntry);
    }
    MoreIdsConserve(rest, hw, s.hw);
  }

  // How the agent stands after one installation.
  ghost function StandingAfter(hw: Hw): Standing {
    if Leaks(hw, 1) then Leaking else if Missed(hw, 1) then Missing else Holding
  }

  lemma StartStands(rest: Roster, hw: Hw, id: int, a: Agent)
    requires id !in rest && Conserved(rest, hw) && WellFormed(a) && Vacant(a, hw)
    ensures var s := StartFlow(a, hw, a.currentState - 1);
            var st := if CurrentRow(a).flowExists then StandingAfter(hw) else Holding;
            if s.ok then Stands(st, rest, id, s.agent, s.hw) else Leaves(st == Leaking, rest, s.hw)
  {
    if CurrentRow(a).flowExists && Leaks(hw, 1) {
      StartLeaks(rest, hw, id, a);
    } else if CurrentRow(a).flowExists && Missed(hw, 1) {
      StartMisses(rest, hw, id, a);
    } else {
      StartConserves(rest, hw, id, a);
    }
  }

  // ---------- a transition ----------

  lemma DestroyFrees(st: Standing, rest: Roster, id: int, a: Agent, hw: Hw)
    requires id !in rest && WellFormed(a) && Stands(st, rest, id, a, hw)
    ensures var h := EntryDestroy(hw, a.flowEntry, a.statId);
            && Advanced(hw, h, 0)
            && if st == Leaking then Leaky(rest[id := a], h) else Conserved(rest, h) && Vacant(a, h)
  {
    match st
    case Holding =>
      DestroyConserves(rest[id := a], hw, id);
      assert rest[id := a] - {id} == rest;
    case Missing =>
    case Leaking => DestroyLeaky(rest[id := a], hw, id);
  }

  // How the agent stands after a transition.
  ghost function Next(st: Standing, hw: Hw, installs: bool): Standing {
    if st == Leaking || (installs && Leaks(hw, 1)) then Leaking
    else if installs && Missed(hw, 1) then Missing
    else Holding
  }

  lemma GotoStands(st: Standing, rest: Roster, id: int, a: Agent, w: World, next: int)
    requires id !in rest && WellFormed(a) && 1 <= next < NO_NEXT_STATE && Stands(st, rest, id, a, w.hw)
    ensures var t, after := Goto(a, w, next), Next(st, w.hw, FlowAfter(a.rows, next));
            if t.dropped then Leaves(after == Leaking, rest, t.world.hw) else Stands(after, rest, id, t.agent, t.world.hw)
  {
    hide Conserved, Leaky, Vacant, StartFlow, EntryDestroy, Bare, Leaks, Missed;
    var t, h, b := Goto(a, w, next), EntryDestroy(w.hw, a.flowEntry, a.statId), a.(currentState := next % 256);
    DestroyFrees(st, rest, id, a, w.hw);
    var s := StartFlow(b, h, b.currentState - 1);
    SameAttempt(w.hw, h);
    if st == Leaking {
      SameIdsLeaky(rest[id := a], rest[id := b], h);
      LeakyStart(rest, id, b, h, b.currentState - 1);
    } else {
      assert Vacant(b, h) by {
        SameVacant(a, b, h);
      }
      StartStands(rest, h, id, b);
    }
    if s.ok {
      SameStanding(Next(st, w.hw, FlowAfter(a.rows, next)), rest, id, s.agent, t.agent, s.hw);
    }
  }

  lemma SameAttempt(h: Hw, k: Hw)
    requires Advanced(h, k, 0)
    ensures Leaks(h, 1) == Leaks(k, 1) && Missed(h, 1) == Missed(k, 1)
  {
  }

  lemma SameVacant(a: Agent, b: Agent, hw: Hw)
    requires Vacant(a, hw) && a.flowEntry == b.flowEntry && a.statId == b.statId
    ensures Vacant(b, hw)
  {
  }

  lemma LeakyStart(rest: Roster, id: int, a: Agent, hw: Hw, rowNum: nat)
    requires id !in rest && |a.rows| >= 1 && Leaky(rest[id := a], hw)
    ensures var s := StartFlow(a, hw, rowNum);
            Leaky(rest[id := s.agent], s.hw) && Leaky(rest, s.hw)
  {
    hide StartFlow, Leaky, Fresh;
    var s := StartFlow(a, hw, rowNum);
    StartIsFresh(a, hw, rowNum);
    FreshLeaky(rest, id, a, hw, s.agent, s.hw);
    SameIdsLeaky(rest[id := s.agent], rest, s.hw);
  }

  // Same table, state and ids: the same claim on the switch.
  ghost predicate SameClaim(a: Agent, b: Agent) {
    && StaticRows(a.rows) == StaticRows(b.rows)
    && a.currentState == b.currentState && a.flowEntry == b.flowEntry && a.statId == b.statId
    && WellFormed(a) && WellFormed(b)
  }

  // Same ids, and a current row for the same flow.
  ghost predicate SameHolding(a: Agent, b: Agent) {
    && a.flowEntry == b.flowEntry && a.statId == b.statId && (WellFormed(a) <==> WellFormed(b))
    && (WellFormed(a) ==> CurrentRow(a).flowExists == CurrentRow(b).flowExists && CurrentRow(a).flow == CurrentRow(b).flow)
  }

  lemma ReadOnlyConserves(agents: Roster, more: Roster, hw: Hw, h: Hw)
    requires Conserved(agents, hw) && agents.Keys == more.Keys
    requires h.entries == hw.entries && h.stats.Keys == hw.stats.Keys
    requires h.lastEntry == hw.lastEntry && h.lastStat == hw.lastStat
    requires forall id :: id in agents ==> SameHolding(agents[id], more[id])
    ensures Conserved(more, h)
  {
    forall k ensures HasFlow(more, k) == HasFlow(agents, k) {
    }
    forall k ensures Placed(more, h, k) {
      assert Placed(agents, hw, k);
    }
    forall i, j ensures Unshared(more, i, j) {
      assert Unshared(agents, i, j);
    }
    forall e ensures EntryHeld(more, h, e) {
      assert EntryHeld(agents, hw, e);
      if e in hw.entries {
        var k :| HoldsEntry(agents, k, e);
        assert HoldsEntry(more, k, e);
      }
    }
    forall s ensures StatHeld(more, h, s) {
      assert StatHeld(agents, hw, s);
      if s in hw.stats {
        var k :| HoldsStat(agents, k, s);
        assert HoldsStat(more, k, s);
      }
    }
  }

  lemma SameClaimConserves(rest: Roster, hw: Hw, id: int, a: Agent, b: Agent)
    requires id !in rest && SameClaim(a, b) && Conserved(rest[id := a], hw)
    ensures Conserved(rest[id := b], hw)
  {
    assert StaticRows(b.rows)[CurrentIndex(a)] == StaticRows(a.rows)[CurrentIndex(a)];
    ReadOnlyConserves(rest[id := a], rest[id := b], hw, hw);
  }

  lemma SameStanding(st: Standing, rest: Roster, id: int, a: Agent, b: Agent, hw: Hw)
    requires id !in rest && SameClaim(a, b) && Stands(st, rest, id, a, hw)
    ensures Stands(st, rest, id, b, hw)
  {
    hide Conserved, Leaky;
    match st
    case Holding => SameClaimConserves(rest, hw, id, a, b);
    case Missing => assert StaticRows(b.rows)[CurrentIndex(a)] == StaticRows(a.rows)[CurrentIndex(a)];
    case Leaking => SameIdsLeaky(rest[id := a], rest[id := b], hw);
  }

  // ---------- a turn ----------

  // One of the installations after the `from`-th up to the `to`-th leaks; none is made after
  // a refusal.
  ghost predicate LeaksBetween(hw: Hw, from: int, to: int) {
    exists k :: from < k <= to && !Refuses(hw, k - 1) && Leaks(hw, k)
  }

  ghost predicate MissesLast(hw: Hw, from: int, to: int) {
    from < to && !Refuses(hw, to) && Missed(hw, to)
  }

  // A turn that makes these installations leaves everything accounted for: none of them
  // leaks, and the last one does not just miss.
  ghost predicate TidyTurn(hw: Hw, from: int, to: int) {
    !LeaksBetween(hw, from, to) && !MissesLast(hw, from, to)
  }

  lemma LeaksNoMore(hw: Hw, from: int, n: nat, m: nat)
    requires n <= m && Refuses(hw, n)
    ensures LeaksBetween(hw, from, n) == LeaksBetween(hw, from, m)
    ensures !MissesLast(hw, from, m) && !MissesLast(hw, from, n)
  {
    forall k: nat | n <= k ensures Refuses(hw, k) {
      RefusesMore(hw, n, k);
    }
  }

  lemma OneMoreLeaks(h: Hw, k: Hw, n: nat)
    requires Advanced(h, k, n) && !Refuses(h, n)
    ensures LeaksBetween(h, 0, n + 1) <==> LeaksBetween(h, 0, n) || Leaks(k, 1)
    ensures MissesLast(h, 0, n + 1) <==> Missed(k, 1)
  {
    assert Leaks(k, 1) == Leaks(h, n + 1) && Missed(k, 1) == Missed(h, n + 1);
    if LeaksBetween(h, 0, n) {
      var i :| 0 < i <= n && !Refuses(h, i - 1) && Leaks(h, i);
      assert 0 < i <= n + 1;
    }
    if Leaks(k, 1) {
      assert !Refuses(h, n + 1 - 1) && Leaks(h, n + 1);
    }
    if Missed(k, 1) {
      assert !Refused(h, n + 1);
    }
  }

  ghost function StandingOf(st: Standing, hw: Hw, n: nat): Standing {
    if st == Leaking || LeaksBetween(hw, 0, n) then Leaking
    else if MissesLast(hw, 0, n) then Missing
    else Holding
  }

  // How the agent stands after its turn, or leaves the others when it is dropped.
  ghost predicate Ends(st: Standing, rest: Roster, id: int, t: Turn) {
    if t.dropped then Leaves(st == Leaking, rest, t.world.hw) else Stands(st, rest, id, t.agent, t.world.hw)
  }

  lemma ActStands(st: Standing, rest: Roster, id: int, t: Turn, row: Row, act: Action, note: bool)
    requires id !in rest && !t.dropped && WellFormed(t.agent) && 1 <= row.nextState <= NO_NEXT_STATE
    requires Stands(st, rest, id, t.agent, t.world.hw)
    ensures var goes := BranchOf(t.agent, row, act) == Transition;
            Ends(if goes then Next(st, t.world.hw, FlowAfter(t.agent.rows, row.nextState)) else st, rest, id, Act(t, row, act, note))
  {
    hide Goto, Act, Stands, Leaves, Next, FlowAfter;
    if BranchOf(t.agent, row, act) == Transition {
      ActIs(t, row, act, note);
      GotoStands(st, rest, id, t.agent, t.world, row.nextState);
    } else {
      StateAfterAct(t, row, act, note);
      SameStanding(st, rest, id, t.agent, Act(t, row, act, note).agent, t.world.hw);
    }
  }

  lemma {:induction false} ActionsStand(st: Standing, rest: Roster, id: int, t: Turn, row: Row, acts: seq<Action>, note: bool, goes: bool)
    requires id !in rest && !t.dropped && WellFormed(t.agent) && 1 <= row.nextState <= NO_NEXT_STATE && Goes(t.agent, row, goes)
    requires st != Missing && Stands(st, rest, id, t.agent, t.world.hw)
    ensures var n := if goes && FlowAfter(t.agent.rows, row.nextState) then GotoCount(acts) else 0;
            Ends(StandingOf(st, t.world.hw, n), rest, id, RunActions(t, row, acts, note))
  {
    hide Act, Stands, Leaves, FlowAfter, LeaksBetween, MissesLast, Leaks, Missed, Refuses;
    var flow := goes && FlowAfter(t.agent.rows, row.nextState);
    if acts == [] {
      NothingAsked(t.world.hw);
    } else {
      var init, last := acts[..|acts| - 1], acts[|acts| - 1];
      var n := if flow then GotoCount(init) else 0;
      ActionsStand(st, rest, id, t, row, init, note, goes);
      ActionsAsk(t, row, init, note, goes);
      var before := RunActions(t, row, init, note);
      if before.dropped {
        LeaksNoMore(t.world.hw, 0, n, if flow then GotoCount(acts) else 0);
      } else {
        assert BranchOf(before.agent, row, last) == BranchOf(t.agent, row, last);
        SameFlowAfter(t.agent.rows, before.agent.rows, row.nextState);
        ActStands(StandingOf(st, t.world.hw, n), rest, id, before, row, last, note);
        OneMoreLeaks(t.world.hw, before.world.hw, n);
        NothingAsked(t.world.hw);
      }
    }
  }

  lemma NothingAsked(hw: Hw)
    ensures !LeaksBetween(hw, 0, 0) && !MissesLast(hw, 0, 0) && !Refuses(hw, 0)
  {
  }

  lemma TurnStands(st: Standing, rest: Roster, id: int, a: Agent, w: World, limit: PortLimit, note: bool)
    requires id !in rest && WellFormed(a) && st != Missing && Stands(st, rest, id, a, w.hw)
    ensures Ends(StandingOf(st, w.hw, Installs(a)), rest, id, PollAgent(a, w, limit, note))
  {
    hide Stands, Ends, RunActions, GotoCount, BranchOf;
    var row, b := CurrentRow(a), Sampled(a, w.hw);
    var goes := TakesGoto(a) || BranchOf(b, row, GotoNextState) == Transition;
    SampledGoes(a, w.hw);
    if GotoNextState !in row.actions {
      NoGoto(row.actions);
    }
    SameFlowAfter(a.rows, b.rows, row.nextState);
    SameStanding(st, rest, id, a, b, w.hw);
    ActionsStand(st, rest, id, BeforeActions(a, w, limit), row, row.actions, note, goes);
  }

  // The roster once the turn of `id` is over.
  function After(rest: Roster, id: int, t: Turn): Roster {
    if t.dropped then rest else rest[id := t.agent]
  }

  // Something that shows has gone wrong.
  ghost predicate Spoilt(agents: Roster, hw: Hw) {
    Leaky(agents, hw) || exists id :: id in agents && Bare(agents[id])
  }

  lemma SpoiltIsNotConserved(agents: Roster, hw: Hw)
    ensures Conserved(agents, hw) ==> !Spoilt(agents, hw)
  {
    hide Leaky, Bare, Conserved;
    if Conserved(agents, hw) {
      ConservedIsNotLeaky(agents, hw);
      forall id | id in agents ensures !Bare(agents[id]) {
        ConservedIsNotBare(agents, hw, id);
      }
    }
  }

  // A turn keeps everything accounted for exactly when its installations are tidy.
  lemma TurnConservesIff(rest: Roster, id: int, a: Agent, w: World, limit: PortLimit, note: bool)
    requires id !in rest && WellFormed(a) && Conserved(rest[id := a], w.hw)
    ensures var t := PollAgent(a, w, limit, note);
            && (Conserved(After(rest, id, t), t.world.hw) <==> TidyTurn(w.hw, 0, Installs(a)))
            && (Spoilt(After(rest, id, t), t.world.hw) <==> !TidyTurn(w.hw, 0, Installs(a)))
  {
    hide Conserved, Leaky, Bare, PollAgent, LeaksBetween, Installs, Vacant;
    var t := PollAgent(a, w, limit, note);
    TurnStands(Holding, rest, id, a, w, limit, note);
    TurnDropsIff(a, w, limit, note);
    SpoiltIsNotConserved(After(rest, id, t), t.world.hw);
    if MissesLast(w.hw, 0, Installs(a)) && !t.dropped {
      assert After(rest, id, t)[id] == t.agent;
    }
  }

  lemma LeakyTurn(rest: Roster, id: int, a: Agent, w: World, limit: PortLimit, note: bool)
    requires id !in rest && WellFormed(a) && Leaky(rest[id := a], w.hw)
    ensures var t := PollAgent(a, w, limit, note); Leaky(After(rest, id, t), t.world.hw)
  {
    hide Leaky, PollAgent;
    TurnStands(Leaking, rest, id, a, w, limit, note);
  }

  // ---------- a round ----------

  // Every turn that the round gets to is tidy. The installations of a round are counted
  // through, in the order of the hash map.
  ghost predicate TidyRound(agents: Roster, hw: Hw, order: seq<int>, p: I32)
    requires AllWellFormed(agents) && forall k :: k in order ==> k in agents
  {
    order == [] ||
    var init, last := order[..|order| - 1], order[|order| - 1];
    assert last in agents;
    && TidyRound(agents, hw, init, p)
    && (agents[last].pollTime == p && !Refuses(hw, RoundInstalls(agents, init, p)) ==>
          TidyTurn(hw, RoundInstalls(agents, init, p), RoundInstalls(agents, order, p)))
  }

  lemma TidyLater(h: Hw, k: Hw, n: nat, m: nat)
    requires Advanced(h, k, n) && !Refuses(h, n)
    ensures TidyTurn(k, 0, m) <==> TidyTurn(h, n, n + m)
  {
    forall i: nat ensures Refuses(k, i) == Refuses(h, n + i) && Leaks(k, i) == Leaks(h, n + i) && Missed(k, i) == Missed(h, n + i) {
      RefusesLater(h, k, n, i);
    }
    if i :| 0 < i <= m && !Refuses(k, i - 1) && Leaks(k, i) {
      assert Leaks(h, n + i) && !Refuses(h, n + (i - 1));
    }
    if i :| n < i <= n + m && !Refuses(h, i - 1) && Leaks(h, i) {
      assert Leaks(k, i - n) && Refuses(k, i - n - 1) == Refuses(h, n + (i - n - 1));
    }
  }

  // One agent's turn in the round.
  lemma PollOneConservesIff(r: Round, id: int, p: I32, limit: PortLimit, noted: set<int>)
    requires !r.aborted && id in r.agents && AllWellFormed(r.agents) && Conserved(r.agents, r.world.hw)
    ensures var q, n := PollOne(r, id, p, limit, noted), if r.agents[id].pollTime == p then Installs(r.agents[id]) else 0;
            && (Conserved(q.agents, q.world.hw) <==> TidyTurn(r.world.hw, 0, n))
            && (Spoilt(q.agents, q.world.hw) <==> !TidyTurn(r.world.hw, 0, n))
  {
    hide Conserved, Spoilt, PollAgent, Installs, TidyTurn, SameMember;
    var a, rest := r.agents[id], r.agents - {id};
    if a.pollTime == p {
      assert rest[id := a] == r.agents;
      TurnConservesIff(rest, id, a, r.world, limit, id in noted);
      var t := PollAgent(a, r.world, limit, id in noted);
      assert !t.dropped ==> r.agents[id := t.agent] == rest[id := t.agent];
    } else {
      NothingTidy(r.world.hw);
      SpoiltIsNotConserved(r.agents, r.world.hw);
    }
  }

  lemma NothingTidy(hw: Hw)
    ensures TidyTurn(hw, 0, 0)
  {
  }

  lemma PollOneLeaky(r: Round, id: int, p: I32, limit: PortLimit, noted: set<int>)
    requires !r.aborted && id in r.agents && AllWellFormed(r.agents) && Leaky(r.agents, r.world.hw)
    ensures var q := PollOne(r, id, p, limit, noted); Leaky(q.agents, q.world.hw)
  {
    hide Leaky, PollAgent, SameMember;
    var a, rest := r.agents[id], r.agents - {id};
    if a.pollTime == p {
      assert rest[id := a] == r.agents;
      LeakyTurn(rest, id, a, r.world, limit, id in noted);
      var t := PollAgent(a, r.world, limit, id in noted);
      assert !t.dropped ==> r.agents[id := t.agent] == rest[id := t.agent];
    }
  }

  lemma {:induction false} LeakyRound(agents: Roster, w: World, order: seq<int>, p: I32, limit: PortLimit, noted: set<int>)
    requires AllWellFormed(agents) && (forall k :: k in order ==> k in agents) && Leaky(agents, w.hw)
    ensures var r := PollGroup(agents, w, order, p, limit, noted); Leaky(r.agents, r.world.hw)
  {
    hide PollOne, Leaky;
    if order != [] {
      var init := order[..|order| - 1];
      LeakyRound(agents, w, init, p, limit, noted);
      var r := PollGroup(agents, w, init, p, limit, noted);
      if !r.aborted {
        PollOneLeaky(r, order[|order| - 1], p, limit, noted);
      }
    }
  }

  // What has gone wrong is not put right by another agent's turn.
  lemma PollOneSpoils(r: Round, id: int, p: I32, limit: PortLimit, noted: set<int>)
    requires !r.aborted && id in r.agents && AllWellFormed(r.agents) && Spoilt(r.agents, r.world.hw) && !Bare(r.agents[id])
    ensures var q := PollOne(r, id, p, limit, noted); Spoilt(q.agents, q.world.hw)
  {
    hide Leaky, Bare, PollAgent, SameMember;
    var q := PollOne(r, id, p, limit, noted);
    if Leaky(r.agents, r.world.hw) {
      PollOneLeaky(r, id, p, limit, noted);
    } else {
      var k :| k in r.agents && Bare(r.agents[k]);
      assert q.agents[k] == r.agents[k];
    }
  }

  lemma {:induction false} RoundConservesIff(agents: Roster, w: World, order: seq<int>, p: I32, limit: PortLimit, noted: set<int>)
    requires AllWellFormed(agents) && Distinct(order) && (forall k :: k in order ==> k in agents) && Conserved(agents, w.hw)
    ensures var r := PollGroup(agents, w, order, p, limit, noted);
            && (Conserved(r.agents, r.world.hw) <==> TidyRound(agents, w.hw, order, p))
            && (Spoilt(r.agents, r.world.hw) <==> !TidyRound(agents, w.hw, order, p))
  {
    hide Conserved, Spoilt, PollOne, Installs, TidyTurn, Refuses, Bare, SameMember, Distinct, Lost;
    SpoiltIsNotConserved(agents, w.hw);
    if order != [] {
      var init, last := order[..|order| - 1], order[|order| - 1];
      PrefixOfOrder(order);
      RoundConservesIff(agents, w, init, p, limit, noted);
      RoundAbortsIff(agents, w, init, p, limit, noted);
      var r, n := PollGroup(agents, w, init, p, limit, noted), RoundInstalls(agents, init, p);
      if !r.aborted {
        NotYetPolled(agents, w, init, p, limit, noted, last);
        if TidyRound(agents, w.hw, init, p) {
          PollOneConservesIff(r, last, p, limit, noted);
          TidyLater(w.hw, r.world.hw, n, if agents[last].pollTime == p then Installs(agents[last]) else 0);
          NothingTidy(r.world.hw);
        } else {
          ConservedIsNotBare(agents, w.hw, last);
          PollOneSpoils(r, last, p, limit, noted);
          SpoiltIsNotConserved(PollOne(r, last, p, limit, noted).agents, PollOne(r, last, p, limit, noted).world.hw);
        }
      }
    }
  }
}
