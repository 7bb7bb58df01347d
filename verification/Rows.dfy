// Which row of its table an agent samples, judges and acts by, state by state.
module Rows {
  import opened Words
  import opened Switch
  import opened Agents
  import opened Turns
  import opened Refusals
  import opened Conservation

  // State k selects row k - 1, and a state past the table the first row.
  function StateRow(rows: seq<Row>, state: int): (i: int)
    requires |rows| >= 1
    ensures 0 <= i < |rows|
  {
    if 1 <= state <= |rows| then state - 1 else 0
  }

  ghost predicate Selects(rows: seq<Row>, state: int, i: int) {
    |rows| >= 1 && i == StateRow(rows, state)
  }

  ghost predicate InRow(a: Agent, i: int) {
    Selects(a.rows, a.currentState, i)
  }

  lemma RowOfState(a: Agent, i: int)
    requires WellFormed(a) && InRow(a, i)
    ensures CurrentIndex(a) == i && CurrentRow(a) == a.rows[i]
  {
  }

  lemma RowAfter(rows: seq<Row>, next: int, j: int)
    requires 1 <= next && Selects(rows, next, j)
    ensures FlowAfter(rows, next) == rows[j].flowExists
  {
  }

  // ---------- sampling ----------

  // What the counters of a statistics object read: zeros without the object.
  function Reading(hw: Hw, stat: int): Counters {
    if stat in hw.stats then hw.stats[stat] else Counters(0, 0)
  }

  function PortReadingOf(hw: Hw, port: int): PortReading {
    if port in hw.ports then hw.ports[port] else NoPortReading
  }

  // How far a 64-bit counter has moved.
  function Moved(now: U64, before: U64): int {
    (now - before) % TWO_64
  }

  // Over a threshold, which zero turns off.
  predicate Exceeds(value: int, threshold: U64) {
    threshold != 0 && threshold < value
  }

  // Bit 0 for packets, bit 1 for bytes.
  function BitsOf(packets: bool, bytes: bool): bv8 {
    (if packets then 1 else 0) | (if bytes then 2 else 0)
  }

  function NextCount(a: Agent): int {
    if a.totIntervals == 0 then a.intervalCount else (a.intervalCount + 1) % a.totIntervals
  }

  // The row has a flow, and the agent's type is one that watches flows.
  predicate Watches(a: Agent, row: Row) {
    (a.monType == FP || a.monType == FP_STATS) && row.flowExists
  }

  // The bits that the interval up to the reading `now` leaves in the row.
  function BitsAfter(a: Agent, row: Row, now: Counters): bv8 {
    BitsOf(Exceeds(Moved(now.packets, a.stats.flowEnd.packets), row.packetsThreshold),
           Exceeds(Moved(now.bytes, a.stats.flowEnd.bytes), row.bytesThreshold))
  }

  lemma MovedIsDifference(now: Counters, before: Counters)
    ensures Difference(now, before) == Counters(Moved(now.packets, before.packets), Moved(now.bytes, before.bytes))
  {
  }

  lemma BitsAreEvents(interval: Counters, row: Row)
    ensures EventBits(Crossed(interval.packets, row.packetsThreshold), Crossed(interval.bytes, row.bytesThreshold))
            == BitsOf(Exceeds(interval.packets, row.packetsThreshold), Exceeds(interval.bytes, row.bytesThreshold))
  {
  }

  // What the flow half of sampling leaves.
  ghost predicate FlowTaken(a: Agent, b: Agent, i: int, now: Counters)
    requires 0 <= i < |a.rows|
  {
    if Watches(a, a.rows[i]) then
      && b.stats.flowStart == a.stats.flowEnd && b.stats.flowEnd == now
      && b.stats.flowInterval.packets == Moved(now.packets, a.stats.flowEnd.packets)
      && b.stats.flowInterval.bytes == Moved(now.bytes, a.stats.flowEnd.bytes)
      && b.rows == a.rows[i := a.rows[i].(events := BitsAfter(a, a.rows[i], now))]
    else
      && b.stats.flowStart == a.stats.flowStart && b.stats.flowEnd == a.stats.flowEnd
      && b.stats.flowInterval == a.stats.flowInterval && b.rows == a.rows
  }

  lemma SampleFlowTakes(a: Agent, hw: Hw, i: int)
    requires WellFormed(a) && InRow(a, i)
    ensures FlowTaken(a, SampleFlow(a, hw), i, Reading(hw, a.statId))
  {
    RowOfState(a, i);
    var now := ReadStat(hw, a.statId);
    MovedIsDifference(now, a.stats.flowEnd);
    BitsAreEvents(Difference(now, a.stats.flowEnd), a.rows[i]);
    RowOfState(ShiftFlow(a, now), i);
    hide Difference, Moved, Crossed, Exceeds, EventBits, BitsOf, CurrentIndex, InRow, GoodTable, Keeps, EventsMatch;
  }

  // An agent that watches a flow takes the reading of its statistics object, and its row and
  // no other gets the bits of the thresholds that the interval exceeds.
  lemma FlowSampledByState(a: Agent, hw: Hw, i: int)
    requires WellFormed(a) && InRow(a, i)
    ensures FlowTaken(a, Sampled(a, hw), i, Reading(hw, a.statId))
  {
    hide SampleFlow, Moved, BitsAfter, Reading;
    SampleFlowTakes(SamplePorts(CountInterval(a), hw), hw, i);
    SameBitsAfter(a, SamplePorts(CountInterval(a), hw), i, Reading(hw, a.statId));
  }

  lemma SameBitsAfter(a: Agent, c: Agent, i: int, now: Counters)
    requires 0 <= i < |a.rows| && a.rows == c.rows && a.stats.flowEnd == c.stats.flowEnd
    ensures BitsAfter(a, a.rows[i], now) == BitsAfter(c, c.rows[i], now)
  {
  }

  predicate ReadsPorts(t: MonType) {
    t == STATS || t == FP_STATS || t == P_STATS || t == BST_STATS || t == BST_FP_STATS
  }

  function Wrapped(x: int): int {
    (x + 0x8000_0000) % 0x1_0000_0000 - 0x8000_0000
  }

  lemma WrappedDifference(now: PortReading, before: PortReading)
    ensures forall c :: 0 <= c < PORT_COUNTERS ==> PortDifference(now, before)[c] == Wrapped(now[c] as int - before[c])
  {
    forall c | 0 <= c < PORT_COUNTERS ensures PortDifference(now, before)[c] == Wrapped(now[c] as int - before[c]) {
      assert PortDifference(now, before)[c] == Sub32(now[c], before[c]);
    }
  }

  // What the port half leaves.
  ghost predicate PortsTaken(a: Agent, b: Agent, now: PortReading) {
    && (if ReadsPorts(a.monType) then b.stats.portStart == a.stats.portEnd && b.stats.portEnd == now
        else b.stats.portStart == a.stats.portStart && b.stats.portEnd == a.stats.portEnd)
    && (if a.monType == STATS || a.monType == FP_STATS
        then forall c :: 0 <= c < PORT_COUNTERS ==> b.stats.portInterval[c] == Wrapped(now[c] as int - a.stats.portEnd[c])
        else b.stats.portInterval == a.stats.portInterval)
  }

  // Agents of the types that read ports take the reading of their own port, and those of
  // two types the 32-bit differences as well.
  lemma PortsSampledByType(a: Agent, hw: Hw)
    requires WellFormed(a)
    ensures PortsTaken(a, Sampled(a, hw), PortReadingOf(hw, a.portIndex))
  {
    WrappedDifference(PortReadingOf(hw, a.portIndex), a.stats.portEnd);
    hide PortDifference, Wrapped, Difference, EventBits, Crossed, ReadStat;
  }

  // Sampling changes nothing else but the interval counter.
  lemma SamplingKeeps(a: Agent, hw: Hw)
    requires WellFormed(a)
    ensures var b := Sampled(a, hw);
            b == a.(intervalCount := NextCount(a), stats := b.stats, rows := b.rows)
  {
  }

  // ---------- transitions ----------

  // No flag branch comes first, and the row lists a GOTO to a state other than 255.
  ghost predicate Transits(a: Agent, row: Row) {
    && GotoNextState in row.actions && row.nextState != 255
    && !(a.notifyNow && a.totIntervals == 0) && !(a.notifyAfterN && NextCount(a) == 0) && !a.notifyLinkUtil
  }

  lemma TransitsIffTakesGoto(a: Agent, i: int)
    requires WellFormed(a) && InRow(a, i)
    ensures TakesGoto(a) <==> Transits(a, a.rows[i])
  {
    RowOfState(a, i);
  }

  // The turn acts by the row of the state it starts in.
  lemma TransitionByState(a: Agent, w: World, limit: PortLimit, note: bool, i: int)
    requires WellFormed(a) && InRow(a, i)
    ensures var t := PollAgent(a, w, limit, note);
            && t == RunActions(BeforeActions(a, w, limit), a.rows[i], a.rows[i].actions, note)
            && (!t.dropped ==> t.agent.currentState == if Transits(a, a.rows[i]) then a.rows[i].nextState else a.currentState)
  {
    hide RunActions, Sampled, Transits, TakesGoto;
    RowOfState(a, i);
    TransitsIffTakesGoto(a, i);
    OneTransition(a, w, limit, note);
  }

  // ---------- installing ----------

  // The next entry and the next statistics object are granted, and all goes well.
  ghost predicate Grants(hw: Hw) {
    hw.entryFate(hw.lastEntry + 1).Created? && hw.statFate(hw.lastStat + 1).Attached?
  }

  lemma StartInstallsRow(a: Agent, hw: Hw, state: int, j: int)
    requires |a.rows| >= 1 && 1 <= state && Selects(a.rows, state, j) && a.rows[j].flowExists && Grants(hw)
    ensures var s, e, o := StartFlow(a, hw, state - 1), hw.lastEntry + 1, hw.lastStat + 1;
            && s.ok && s.agent.flowEntry == e && s.agent.statId == o
            && e in s.hw.entries && s.hw.entries[e] == Entry(a.rows[j].flow, Some(o))
            && o in s.hw.stats && s.hw.stats[o] == hw.statFate(o).start
  {
  }

  lemma GotoInstallsRow(a: Agent, w: World, next: int, j: int)
    requires WellFormed(a) && 1 <= next < NO_NEXT_STATE && Selects(a.rows, next, j) && a.rows[j].flowExists && Grants(w.hw)
    ensures var t, e, o := Goto(a, w, next), w.hw.lastEntry + 1, w.hw.lastStat + 1;
            && !t.dropped && t.agent.currentState == next && t.agent.flowEntry == e && t.agent.statId == o
            && e in t.world.hw.entries && t.world.hw.entries[e] == Entry(a.rows[j].flow, Some(o))
  {
    hide StartFlow;
    var h := EntryDestroy(w.hw, a.flowEntry, a.statId);
    StartInstallsRow(a.(currentState := next % 256), h, next, j);
  }

  // The n-th entry and the n-th statistics object from `hw` on are the agent's.
  ghost predicate Obtained(t: Turn, hw: Hw, n: int, flow: FlowKey) {
    var e, o := hw.lastEntry + n, hw.lastStat + n;
    && !t.dropped && t.agent.flowEntry == e && t.agent.statId == o
    && e in t.world.hw.entries && t.world.hw.entries[e] == Entry(flow, Some(o))
  }

  // The n-th request from here on gets both, and none before it is answered with -1.
  ghost predicate GrantsAt(hw: Hw, n: int) {
    hw.entryFate(hw.lastEntry + n).Created? && hw.statFate(hw.lastStat + n).Attached? && !Refuses(hw, n)
  }

  lemma GotoObtains(a: Agent, w: World, next: int, hw: Hw, n: nat, j: int)
    requires WellFormed(a) && 1 <= next < NO_NEXT_STATE && Selects(a.rows, next, j) && a.rows[j].flowExists
    requires Advanced(hw, w.hw, n) && GrantsAt(hw, n + 1)
    ensures Obtained(Goto(a, w, next), hw, n + 1, a.rows[j].flow)
  {
    hide Goto, Refuses;
    GotoInstallsRow(a, w, next, j);
  }

  lemma SameFlowOfRow(a: Agent, b: Agent, next: int, j: int)
    requires Keeps(a, b) && Selects(a.rows, next, j)
    ensures Selects(b.rows, next, j) && b.rows[j].flowExists == a.rows[j].flowExists && b.rows[j].flow == a.rows[j].flow
  {
    assert StaticRows(a.rows)[j] == StaticRows(b.rows)[j];
  }

  lemma {:induction false} ActionsObtain(t: Turn, row: Row, acts: seq<Action>, note: bool, j: int)
    requires !t.dropped && WellFormed(t.agent) && 1 <= row.nextState < NO_NEXT_STATE && Goes(t.agent, row, true)
    requires Selects(t.agent.rows, row.nextState, j) && t.agent.rows[j].flowExists
    requires GotoNextState in acts && GrantsAt(t.world.hw, GotoCount(acts))
    ensures Obtained(RunActions(t, row, acts, note), t.world.hw, GotoCount(acts), t.agent.rows[j].flow)
  {
    hide RunActions, Act, Obtained, GrantsAt, Asked, Advanced, Goes, Keeps, GoodTable, BranchOf, OnlyEvents;
    var init, last := acts[..|acts| - 1], acts[|acts| - 1];
    assert acts == init + [last];
    ActionsAsk(t, row, init, note, true);
    RowAfter(t.agent.rows, row.nextState, j);
    var before := RunActions(t, row, init, note);
    GrantedBefore(t.world.hw, before.world.hw, GotoCount(init), GotoCount(acts), before.dropped);
    SameFlowOfRow(t.agent, before.agent, row.nextState, j);
    LastAct(t, row, acts, note);
    if last == GotoNextState {
      GotoObtains(before.agent, before.world, row.nextState, t.world.hw, GotoCount(init), j);
    } else {
      ActionsObtain(t, row, init, note, j);
      StillObtained(before, RunActions(t, row, acts, note), t.world.hw, GotoCount(init), t.agent.rows[j].flow);
    }
  }

  lemma LastAct(t: Turn, row: Row, acts: seq<Action>, note: bool)
    requires !t.dropped && WellFormed(t.agent) && 1 <= row.nextState < NO_NEXT_STATE && Goes(t.agent, row, true)
    requires acts != []
    ensures var before, r := RunActions(t, row, acts[..|acts| - 1], note), RunActions(t, row, acts, note);
            !before.dropped ==>
              if acts[|acts| - 1] == GotoNextState then r == Goto(before.agent, before.world, row.nextState)
              else !r.dropped && r.world.hw == before.world.hw && OnlyEvents(before.agent, r.agent)
  {
    hide Goto, Act, OnlyEvents;
    var before, last := RunActions(t, row, acts[..|acts| - 1], note), acts[|acts| - 1];
    if !before.dropped {
      assert BranchOf(before.agent, row, last) == BranchOf(t.agent, row, last);
      ActIs(before, row, last, note);
      StateAfterAct(before, row, last, note);
    }
  }

  lemma GrantedBefore(h: Hw, k: Hw, n: nat, m: nat, dropped: bool)
    requires Asked(h, k, n, dropped) && n <= m && GrantsAt(h, m)
    ensures !dropped && Advanced(h, k, n)
  {
    if Refuses(h, n) {
      RefusesMore(h, n, m);
    }
  }

  lemma StillObtained(t: Turn, r: Turn, hw: Hw, n: int, flow: FlowKey)
    requires Obtained(t, hw, n, flow) && !r.dropped && r.world.hw == t.world.hw && OnlyEvents(t.agent, r.agent)
    ensures Obtained(r, hw, n, flow)
  {
  }

  // A turn with a transition to state n leaves the agent with an entry for the flow of row
  // n - 1, or of the first row past the table, if the last installation that it makes goes well.
  lemma TurnInstallsRow(a: Agent, w: World, limit: PortLimit, note: bool, i: int, j: int)
    requires WellFormed(a) && InRow(a, i) && Transits(a, a.rows[i])
    requires Selects(a.rows, a.rows[i].nextState, j) && a.rows[j].flowExists
    requires GrantsAt(w.hw, GotoCount(a.rows[i].actions))
    ensures var t := PollAgent(a, w, limit, note);
            && Obtained(t, w.hw, GotoCount(a.rows[i].actions), a.rows[j].flow)
            && t.agent.currentState == a.rows[i].nextState
  {
    var row, b := a.rows[i], Sampled(a, w.hw);
    assert 1 <= row.nextState < NO_NEXT_STATE;
    hide RunActions, Sampled, Transits, Obtained, GrantsAt, TakesGoto, PollAgent, GotoCount;
    RowOfState(a, i);
    TransitionByState(a, w, limit, note, i);
    TransitsIffTakesGoto(a, i);
    SampledGoes(a, w.hw);
    SameFlowOfRow(CountInterval(a), b, row.nextState, j);
    ActionsObtain(BeforeActions(a, w, limit), row, row.actions, note, j);
    assert GotoNextState in row.actions by {
      ListsGoto(a, row);
    }
  }

  lemma ListsGoto(a: Agent, row: Row)
    requires Transits(a, row)
    ensures GotoNextState in row.actions
  {
  }

  // The ids that a start leaves, whatever the switch answers, which numbers entries from one: the code of a refusal other than
  // -1 is taken for an entry, and the statistics id stays unless all goes well.
  lemma StartOutcome(a: Agent, hw: Hw, state: int, j: int)
    requires |a.rows| >= 1 && 1 <= state && Selects(a.rows, state, j) && a.rows[j].flowExists
    requires forall e :: e in hw.entries ==> e > 0
    ensures var s, e, o := StartFlow(a, hw, state - 1), hw.lastEntry + 1, hw.lastStat + 1;
            var made, stat := hw.entryFate(e), hw.statFate(o);
            && (s.ok <==> !Refused(hw, 1))
            && (!s.ok ==> s.agent == a)
            && (s.ok ==> s.agent.flowEntry == if made.Created? then e else made.rc)
            && (s.ok ==> s.agent.statId == if made.Created? && stat.Attached? then o else a.statId)
  {
    hide EntryCreate, StatAttachInstall, Keeps;
    var c := EntryCreate(hw, a.rows[j].flow);
    CreateMakes(hw, a.rows[j].flow);
    AttachMakes(c.0, c.1);
  }

  // And what it leaves in the switch: an entry whose qualifiers were not all set, or without its
  // statistics object, stays.
  lemma StartLeaves(a: Agent, hw: Hw, state: int, j: int)
    requires |a.rows| >= 1 && 1 <= state && Selects(a.rows, state, j) && a.rows[j].flowExists
    requires forall e :: e in hw.entries ==> e > 0
    ensures var h, e, o := StartFlow(a, hw, state - 1).hw, hw.lastEntry + 1, hw.lastStat + 1;
            var made, stat := hw.entryFate(e), hw.statFate(o);
            var counts := made.Created? && (stat.Attached? || stat.InstallRefused?);
            && h.entries == (if made.CreateRefused? then hw.entries
                             else hw.entries[e := Entry(a.rows[j].flow, if counts then Some(o) else None)])
            && h.stats.Keys == hw.stats.Keys + (if Refused(hw, 1) || stat.StatRefused? then {} else {o})
  {
    hide EntryCreate, StatAttachInstall, Keeps;
    var c := EntryCreate(hw, a.rows[j].flow);
    CreateMakes(hw, a.rows[j].flow);
    AttachMakes(c.0, c.1);
  }

  // The samples right after a transition: all else is zero.
  lemma GotoSamples(a: Agent, w: World, next: int)
    requires WellFormed(a) && 1 <= next < NO_NEXT_STATE && !Goto(a, w, next).dropped
    ensures var t := Goto(a, w, next);
            && t.agent.stats.flowEnd == Reading(t.world.hw, t.agent.statId)
            && t.agent.stats.portEnd == PortReadingOf(t.world.hw, a.portIndex)
            && t.agent.stats.flowStart == Counters(0, 0) && t.agent.stats.flowInterval == Counters(0, 0)
            && t.agent.stats.portStart == NoPortReading && t.agent.stats.portInterval == NoPortReading
  {
    hide StartFlow, EntryDestroy;
  }
}
