// TCAM entries and statistics objects are never leaked and never shared.
module Conservation {
  import opened Words
  import opened Switch
  import opened Agents
  import opened Registry

  ghost predicate HasFlow(agents: Roster, id: int) {
    id in agents && WellFormed(agents[id]) && CurrentRow(agents[id]).flowExists
  }

  // The entry of `a` selects the flow of its current row and counts into its statistics object.
  ghost predicate Owns(a: Agent, hw: Hw)
    requires WellFormed(a)
  {
    && a.flowEntry in hw.entries
    && hw.entries[a.flowEntry] == Entry(CurrentRow(a).flow, Some(a.statId))
    && a.statId in hw.stats
  }

  // Ids left over from a flow that is gone, or never set.
  ghost predicate Vacant(a: Agent, hw: Hw) {
    a.flowEntry <= hw.lastEntry && a.statId <= hw.lastStat && a.flowEntry !in hw.entries
  }

  ghost predicate HoldsEntry(agents: Roster, id: int, e: int) {
    HasFlow(agents, id) && agents[id].flowEntry == e
  }

  ghost predicate HoldsStat(agents: Roster, id: int, s: int) {
    HasFlow(agents, id) && agents[id].statId == s
  }

  ghost predicate EntryHeld(agents: Roster, hw: Hw, e: int) {
    e in hw.entries ==> 0 < e <= hw.lastEntry && exists id :: HoldsEntry(agents, id, e)
  }

  ghost predicate StatHeld(agents: Roster, hw: Hw, s: int) {
    s in hw.stats ==> 0 < s <= hw.lastStat && exists id :: HoldsStat(agents, id, s)
  }

  ghost predicate Placed(agents: Roster, hw: Hw, id: int) {
    && (HasFlow(agents, id) ==> Owns(agents[id], hw))
    && (id in agents && !HasFlow(agents, id) ==> Vacant(agents[id], hw))
  }

  ghost predicate Unshared(agents: Roster, i: int, j: int) {
    HasFlow(agents, i) && HasFlow(agents, j) && i != j
    ==> agents[i].flowEntry != agents[j].flowEntry && agents[i].statId != agents[j].statId
  }

  // Installed entries and statistics objects are in bijection with the agents whose
  // current row has a flow, each entry selecting exactly that flow.
  ghost predicate Conserved(agents: Roster, hw: Hw) {
    && (forall id :: Placed(agents, hw, id))
    && (forall i, j :: Unshared(agents, i, j))
    && (forall e :: EntryHeld(agents, hw, e))
    && (forall s :: StatHeld(agents, hw, s))
  }

  // The counters of everybody else's flow are untouched.
  ghost predicate CountersKept(agents: Roster, before: Hw, after: Hw) {
    forall id :: HasFlow(agents, id) && Owns(agents[id], before)
                 ==> ReadStat(after, agents[id].statId) == ReadStat(before, agents[id].statId)
  }

  // ---------- removing a flow ----------

  lemma DestroyConserves(agents: Roster, hw: Hw, id: int)
    requires id in agents && WellFormed(agents[id]) && Conserved(agents, hw)
    ensures var a, h := agents[id], EntryDestroy(hw, agents[id].flowEntry, agents[id].statId);
            && Conserved(agents - {id}, h)
            && Vacant(a, h)
            && CountersKept(agents - {id}, hw, h)
            && h.lastEntry == hw.lastEntry && h.lastStat == hw.lastStat
            && h.entryFate == hw.entryFate && h.statFate == hw.statFate
  {
    var a, rest := agents[id], agents - {id};
    var h := EntryDestroy(hw, a.flowEntry, a.statId);
    assert Placed(agents, hw, id);
    assert EntryHeld(agents, hw, a.flowEntry) && StatHeld(agents, hw, a.statId);
    forall k ensures HasFlow(rest, k) <==> HasFlow(agents, k) && k != id {
    }
    forall k ensures Placed(rest, h, k) {
      assert Placed(agents, hw, k) && Unshared(agents, id, k);
    }
    forall i, j ensures Unshared(rest, i, j) {
      assert Unshared(agents, i, j);
    }
    forall e ensures EntryHeld(rest, h, e) {
      assert EntryHeld(agents, hw, e);
      if e in h.entries {
        var k :| HoldsEntry(agents, k, e);
        assert HoldsEntry(rest, k, e);
      }
    }
    forall s ensures StatHeld(rest, h, s) {
      assert StatHeld(agents, hw, s);
      if s in h.stats {
        var k :| HoldsStat(agents, k, s);
        assert HoldsStat(rest, k, s);
      }
    }
    forall k | HasFlow(rest, k) ensures ReadStat(h, rest[k].statId) == ReadStat(hw, rest[k].statId) {
      assert Unshared(agents, id, k);
    }
  }

  // ---------- starting a flow ----------

  // The next installation ends with an entry that counts, or with nothing and the code -1.
  ghost predicate CleanInstall(hw: Hw) {
    var fate := hw.entryFate(hw.lastEntry + 1);
    fate == CreateRefused(INTERNAL) || (fate.Created? && hw.statFate(hw.lastStat + 1).Attached?)
  }

  function Enrolled(rest: Roster, id: int, s: Start): Roster {
    if s.ok then rest[id := s.agent] else rest
  }

  // A fresh entry with a fresh statistics object, both of one new holder.
  lemma GrantConserves(rest: Roster, hw: Hw, id: int, b: Agent, h: Hw)
    requires id !in rest && Conserved(rest, hw) && WellFormed(b) && CurrentRow(b).flowExists
    requires h.lastEntry == b.flowEntry == hw.lastEntry + 1 && h.lastStat == b.statId == hw.lastStat + 1
    requires h.entries == hw.entries[b.flowEntry := Entry(CurrentRow(b).flow, Some(b.statId))]
    requires h.stats.Keys == hw.stats.Keys + {b.statId}
    ensures Conserved(rest[id := b], h)
  {
    var more := rest[id := b];
    forall k ensures HasFlow(more, k) <==> HasFlow(rest, k) || k == id {
    }
    forall k ensures Placed(more, h, k) && (k != id ==> Unshared(more, id, k) && Unshared(more, k, id)) {
      assert Placed(rest, hw, k);
      if k != id && HasFlow(rest, k) {
        assert EntryHeld(rest, hw, rest[k].flowEntry) && StatHeld(rest, hw, rest[k].statId);
      }
    }
    forall i, j ensures Unshared(more, i, j) {
      assert Unshared(rest, i, j);
    }
    HeldByMore(rest, hw, id, more, h);
  }

  lemma HeldByMore(rest: Roster, hw: Hw, id: int, more: Roster, h: Hw)
    requires id !in rest && id in more && more == rest[id := more[id]] && Conserved(rest, hw)
    requires h.lastEntry >= hw.lastEntry && h.lastStat >= hw.lastStat
    requires forall e :: e in h.entries && e !in hw.entries ==> 0 < e <= h.lastEntry && HoldsEntry(more, id, e)
    requires forall s :: s in h.stats && s !in hw.stats ==> 0 < s <= h.lastStat && HoldsStat(more, id, s)
    ensures forall e :: EntryHeld(more, h, e)
    ensures forall s :: StatHeld(more, h, s)
  {
    forall e ensures EntryHeld(more, h, e) {
      assert EntryHeld(rest, hw, e);
      if e in hw.entries {
        var k :| HoldsEntry(rest, k, e);
        assert HoldsEntry(more, k, e);
      }
    }
    forall s ensures StatHeld(more, h, s) {
      assert StatHeld(rest, hw, s);
      if s in hw.stats {
        var k :| HoldsStat(rest, k, s);
        assert HoldsStat(more, k, s);
      }
    }
  }

  // An agent whose row has no flow.
  lemma IdleConserves(rest: Roster, hw: Hw, id: int, b: Agent)
    requires id !in rest && Conserved(rest, hw) && WellFormed(b) && !CurrentRow(b).flowExists && Vacant(b, hw)
    ensures Conserved(rest[id := b], hw)
  {
    var more := rest[id := b];
    forall k ensures HasFlow(more, k) <==> HasFlow(rest, k) {
    }
    forall k ensures Placed(more, hw, k) {
      assert Placed(rest, hw, k);
    }
    forall i, j ensures Unshared(more, i, j) {
      assert Unshared(rest, i, j);
    }
    HeldByMore(rest, hw, id, more, hw);
  }

  lemma MoreIdsConserve(rest: Roster, hw: Hw, h: Hw)
    requires Conserved(rest, hw) && h.entries == hw.entries && h.stats == hw.stats
    requires h.lastEntry >= hw.lastEntry && h.lastStat >= hw.lastStat
    ensures Conserved(rest, h)
  {
    forall k ensures Placed(rest, h, k) {
      assert Placed(rest, hw, k);
    }
    forall e ensures EntryHeld(rest, h, e) {
      assert EntryHeld(rest, hw, e);
    }
    forall s ensures StatHeld(rest, h, s) {
      assert StatHeld(rest, hw, s);
    }
  }

  lemma FreshCountersKept(rest: Roster, hw: Hw, h: Hw)
    requires Conserved(rest, hw)
    requires forall s :: s in hw.stats && s <= hw.lastStat ==> ReadStat(h, s) == ReadStat(hw, s)
    ensures CountersKept(rest, hw, h)
  {
    forall k | HasFlow(rest, k) && Owns(rest[k], hw) ensures ReadStat(h, rest[k].statId) == ReadStat(hw, rest[k].statId) {
      assert StatHeld(rest, hw, rest[k].statId);
    }
  }

  lemma CreateMakes(hw: Hw, flow: FlowKey)
    ensures var c, e, fate := EntryCreate(hw, flow), hw.lastEntry + 1, hw.entryFate(hw.lastEntry + 1);
            && c.0 == hw.(lastEntry := e, entries := if fate.CreateRefused? then hw.entries else hw.entries[e := Entry(flow, None)])
            && (if fate.Created? then c.1 == e else c.1 == fate.rc && c.1 < 0)
  {
  }

  lemma AttachMakes(hw: Hw, entry: int)
    ensures var c, o, fate := StatAttachInstall(hw, entry), hw.lastStat + 1, hw.statFate(hw.lastStat + 1);
            && c.0 == hw.(lastStat := o, stats := c.0.stats, entries := c.0.entries)
            && (if fate.StatRefused? then c.0.stats == hw.stats else o in c.0.stats && c.0.stats == hw.stats[o := c.0.stats[o]])
            && (if entry in hw.entries && (fate.Attached? || fate.InstallRefused?)
                then c.0.entries == hw.entries[entry := hw.entries[entry].(stat := Some(o))]
                else c.0.entries == hw.entries)
            && c.1 == if fate.Attached? && entry in hw.entries then o else INTERNAL
  {
  }

  lemma CleanStart(a: Agent, hw: Hw)
    requires WellFormed(a) && CurrentRow(a).flowExists && CleanInstall(hw)
    ensures var s := StartFlow(a, hw, a.currentState - 1);
            && s.ok == hw.entryFate(hw.lastEntry + 1).Created?
            && s.hw.lastEntry == hw.lastEntry + 1
            && (!s.ok ==> s.hw == hw.(lastEntry := hw.lastEntry + 1))
            && (s.ok ==>
                 && WellFormed(s.agent) && CurrentRow(s.agent) == CurrentRow(a)
                 && s.agent.flowEntry == hw.lastEntry + 1
                 && s.agent.statId == s.hw.lastStat == hw.lastStat + 1
                 && s.hw.entries == hw.entries[s.agent.flowEntry := Entry(CurrentRow(a).flow, Some(s.agent.statId))]
                 && s.hw.stats == hw.stats[s.agent.statId := s.hw.stats[s.agent.statId]])
  {
    hide EntryCreate, StatAttachInstall, Keeps;
    var flow := CurrentRow(a).flow;
    var c := EntryCreate(hw, flow);
    CreateMakes(hw, flow);
    AttachMakes(c.0, c.1);
  }

  lemma StartConserves(rest: Roster, hw: Hw, id: int, a: Agent)
    requires id !in rest && Conserved(rest, hw) && WellFormed(a) && Vacant(a, hw)
    requires CurrentRow(a).flowExists ==> CleanInstall(hw)
    ensures var s := StartFlow(a, hw, a.currentState - 1);
            && Conserved(Enrolled(rest, id, s), s.hw)
            && CountersKept(rest, hw, s.hw)
  {
    var s := StartFlow(a, hw, a.currentState - 1);
    if !CurrentRow(a).flowExists {
      IdleConserves(rest, hw, id, a);
    } else {
      CleanStart(a, hw);
      FreshCountersKept(rest, hw, s.hw);
      if s.ok {
        GrantConserves(rest, hw, id, s.agent, s.hw);
      } else {
        MoreIdsConserve(rest, hw, s.hw);
      }
    }
  }

  // Any other outcome leaks an entry or a statistics object, or leaves the agent without one.
  lemma ConservedIffCleanInstall(rest: Roster, hw: Hw, id: int, a: Agent)
    requires id !in rest && Conserved(rest, hw) && WellFormed(a) && Vacant(a, hw) && CurrentRow(a).flowExists
    ensures var s := StartFlow(a, hw, a.currentState - 1);
            Conserved(Enrolled(rest, id, s), s.hw) <==> CleanInstall(hw)
  {
    var s := StartFlow(a, hw, a.currentState - 1);
    var more := Enrolled(rest, id, s);
    if CleanInstall(hw) {
      StartConserves(rest, hw, id, a);
    } else if s.ok {
      EntryAfterDirtyStart(rest, hw, a);
      assert HasFlow(more, id);
      assert !Placed(more, s.hw, id) || !EntryHeld(more, s.hw, s.agent.flowEntry);
    } else {
      var e := hw.lastEntry + 1;
      forall k ensures !HoldsEntry(rest, k, e) {
        assert Placed(rest, hw, k) && EntryHeld(rest, hw, e);
      }
      assert !EntryHeld(more, s.hw, e);
    }
  }

  lemma EntryAfterDirtyStart(rest: Roster, hw: Hw, a: Agent)
    requires Conserved(rest, hw) && WellFormed(a) && Vacant(a, hw) && CurrentRow(a).flowExists && !CleanInstall(hw)
    ensures var s := StartFlow(a, hw, a.currentState - 1);
            s.ok ==> s.agent.flowEntry < 0 || !Owns(s.agent, s.hw)
  {
    hide EntryCreate, StatAttachInstall, Keeps, Conserved, StaticRows, GoodTable;
    var flow := CurrentRow(a).flow;
    var c := EntryCreate(hw, flow);
    CreateMakes(hw, flow);
    AttachMakes(c.0, c.1);
  }
}
