// One monitoring agent: its state table, its samples and one polling turn, as
// functions from the agent and the world before to the agent and the world after.
module Agents {
  import opened Words
  import opened Switch

  datatype MonType = FP | STATS | FP_STATS | BST_STATS | BST_FP_STATS | BST | BST_FP | P_STATS

  datatype Action =
    | GotoNextState | NotifyController | NotifyPortStats | NotifyAfterN | NotifyLinkUtilization
    | NoAction | LinkStateEnable | LinkStateDisable | Unrecognised

  // The next_state that turns a GOTO off.
  const NO_NEXT_STATE: int := 255

  datatype Row = Row(
    flowExists: bool,
    flow: FlowKey,
    packetsThreshold: U64,
    bytesThreshold: U64,
    events: bv8,
    actions: seq<Action>,
    nextState: int)

  // Samples at the start and at the end of an interval, and their difference.
  datatype Stats = Stats(
    flowStart: Counters, flowEnd: Counters, flowInterval: Counters,
    portStart: PortReading, portEnd: PortReading, portInterval: PortReading)

  const NoCounters: Counters := Counters(0, 0)
  const NoStats: Stats := Stats(NoCounters, NoCounters, NoCounters, NoPortReading, NoPortReading, NoPortReading)

  datatype Agent = Agent(
    monId: int, pollTime: I32, timerId: int,
    monType: MonType, totIntervals: int, intervalCount: int,
    portIndex: int, linkThreshold: int,
    currentState: U8, flowEntry: int, statId: int,
    stats: Stats, rows: seq<Row>,
    notifyNow: bool, notifyAfterN: bool, notifyLinkUtil: bool)

  datatype Msg =
    | EventNotification(monId: int, packets: Option<U64>, bytes: Option<U64>)
    | LinkUtilization(monId: int, unicast: I32, nonUnicast: I32, flowPackets: U64)
    | PortData(monId: int, port: U64, data: U64)
    | MonSwitch(entryCount: nat, minFree: U64, maxEntries: U64)

  // What a handler can change outside the agents: the switch, and the messages published.
  datatype World = World(hw: Hw, sent: seq<Msg>)

  datatype PortLimit = PortLimit(maxData: U64, port: U64)

  // ---------- the state table ----------

  ghost predicate GoodTable(rows: seq<Row>) {
    && |rows| >= 1
    && (forall i :: 0 <= i < |rows| ==> 1 <= rows[i].nextState <= NO_NEXT_STATE)
    && (forall i :: 0 <= i < |rows| ==> rows[i].events <= 3)
  }

  ghost predicate WellFormed(a: Agent) {
    && GoodTable(a.rows)
    && 1 <= a.currentState <= 254
    && 0 <= a.intervalCount
  }

  // A row without the one field that changes.
  function Static(row: Row): Row {
    row.(events := 0)
  }

  // The table as the controller configured it.
  function StaticRows(rows: seq<Row>): (s: seq<Row>)
    ensures |s| == |rows| && forall i :: 0 <= i < |s| ==> s[i] == Static(rows[i])
  {
    seq(|rows|, i requires 0 <= i < |rows| => Static(rows[i]))
  }

  // What no sampling and no action changes: everything but the samples, the state,
  // the flow's ids and the event bits.
  ghost predicate Keeps(a: Agent, b: Agent) {
    && a.monId == b.monId && a.pollTime == b.pollTime && a.timerId == b.timerId
    && a.monType == b.monType && a.totIntervals == b.totIntervals && a.intervalCount == b.intervalCount
    && a.portIndex == b.portIndex && a.linkThreshold == b.linkThreshold
    && a.notifyNow == b.notifyNow && a.notifyAfterN == b.notifyAfterN && a.notifyLinkUtil == b.notifyLinkUtil
    && StaticRows(a.rows) == StaticRows(b.rows)
  }

  // Same flow in the same state on the same samples: at most event bits differ.
  ghost predicate OnlyEvents(a: Agent, b: Agent) {
    && Keeps(a, b)
    && a.currentState == b.currentState && a.flowEntry == b.flowEntry && a.statId == b.statId
    && a.stats == b.stats
  }

  ghost predicate SameFlow(a: Agent, b: Agent) {
    && Keeps(a, b)
    && a.currentState == b.currentState && a.flowEntry == b.flowEntry && a.statId == b.statId
    && (WellFormed(a) ==> WellFormed(b))
  }

  ghost predicate SameFlowSamples(a: Agent, b: Agent) {
    && a.rows == b.rows
    && a.stats.flowStart == b.stats.flowStart && a.stats.flowEnd == b.stats.flowEnd
    && a.stats.flowInterval == b.stats.flowInterval
  }

  // get_row_of_state_machine: rows past the table fall back to the first one.
  function RowIndex(rowNum: int, total: int): int {
    if rowNum < total then rowNum else 0
  }

  function CurrentIndex(a: Agent): (i: nat)
    requires |a.rows| >= 1 && a.currentState >= 1
    ensures i < |a.rows|
  {
    RowIndex(a.currentState - 1, |a.rows|)
  }

  function CurrentRow(a: Agent): Row
    requires |a.rows| >= 1 && a.currentState >= 1
  {
    a.rows[CurrentIndex(a)]
  }

  // ---------- one interval's samples ----------

  predicate SamplesPorts(t: MonType) {
    t in {STATS, FP_STATS, P_STATS, BST_STATS, BST_FP_STATS}
  }

  predicate SamplesFlow(t: MonType) {
    t in {FP, FP_STATS}
  }

  predicate ChecksPorts(t: MonType) {
    t in {STATS, FP_STATS}
  }

  function Difference(now: Counters, before: Counters): Counters {
    Counters(ToU64(now.packets - before.packets), ToU64(now.bytes - before.bytes))
  }

  function PortDifference(now: PortReading, before: PortReading): (d: PortReading) {
    seq(PORT_COUNTERS, i requires 0 <= i < PORT_COUNTERS => Sub32(now[i], before[i]))
  }

  function Sub32(x: int, y: int): I32 {
    ToI32(x - y)
  }

  function CountInterval(a: Agent): Agent {
    if a.totIntervals != 0 then a.(intervalCount := (a.intervalCount + 1) % a.totIntervals) else a
  }

  function SamplePorts(a: Agent, hw: Hw): (b: Agent)
    ensures SameFlow(a, b) && SameFlowSamples(a, b)
  {
    if SamplesPorts(a.monType) then
      a.(stats := a.stats.(portStart := a.stats.portEnd, portEnd := ReadPort(hw, a.portIndex)))
    else a
  }

  predicate Crossed(value: U64, threshold: U64) {
    threshold != 0 && value > threshold
  }

  // Bit 0 reports the packet threshold, bit 1 the byte threshold.
  function EventBits(packets: bool, bytes: bool): bv8 {
    if packets then (if bytes then 3 else 1) else (if bytes then 2 else 0)
  }

  function SetEvents(a: Agent, i: nat, events: bv8): (b: Agent)
    requires i < |a.rows|
    ensures Keeps(a, b)
    ensures WellFormed(a) && events <= 3 ==> WellFormed(b)
  {
    a.(rows := a.rows[i := a.rows[i].(events := events)])
  }

  // The bits of the current row name the thresholds that the last interval crossed.
  ghost predicate EventsMatch(a: Agent)
    requires |a.rows| >= 1 && a.currentState >= 1
  {
    var row := CurrentRow(a);
    row.events == EventBits(Crossed(a.stats.flowInterval.packets, row.packetsThreshold),
                            Crossed(a.stats.flowInterval.bytes, row.bytesThreshold))
  }

  predicate WatchesFlow(a: Agent)
    requires |a.rows| >= 1 && a.currentState >= 1
  {
    SamplesFlow(a.monType) && CurrentRow(a).flowExists
  }

  // The samples of an interval: `now` follows what was the latest sample of `a`.
  ghost predicate Shifted(a: Agent, b: Agent, now: Counters) {
    && b.stats.flowStart == a.stats.flowEnd && b.stats.flowEnd == now
    && b.stats.flowInterval == Difference(now, a.stats.flowEnd)
  }

  function CheckFlowEvents(a: Agent): (b: Agent)
    requires |a.rows| >= 1 && a.currentState >= 1
    ensures SameFlow(a, b) && a.stats == b.stats && EventsMatch(b)
    ensures WellFormed(a) ==> WellFormed(b)
  {
    var row := CurrentRow(a);
    var interval := a.stats.flowInterval;
    SetEvents(a, CurrentIndex(a),
              EventBits(Crossed(interval.packets, row.packetsThreshold), Crossed(interval.bytes, row.bytesThreshold)))
  }

  function ShiftFlow(a: Agent, now: Counters): Agent {
    a.(stats := a.stats.(flowStart := a.stats.flowEnd, flowEnd := now,
                         flowInterval := Difference(now, a.stats.flowEnd)))
  }

  function SampleFlow(a: Agent, hw: Hw): (b: Agent)
    requires |a.rows| >= 1 && a.currentState >= 1
    ensures FlowSampled(a, b, ReadStat(hw, a.statId))
  {
    if WatchesFlow(a) then
      CheckFlowEvents(ShiftFlow(a, ReadStat(hw, a.statId)))
    else a
  }

  function PortIntervals(a: Agent): (b: Agent)
    ensures SameFlow(a, b) && SameFlowSamples(a, b)
  {
    if ChecksPorts(a.monType) then
      a.(stats := a.stats.(portInterval := PortDifference(a.stats.portEnd, a.stats.portStart)))
    else a
  }

  ghost predicate PortsShifted(a: Agent, b: Agent, now: PortReading) {
    && b.stats.portStart == a.stats.portEnd && b.stats.portEnd == now
    && b.stats.portInterval == PortDifference(now, a.stats.portEnd)
  }

  // What sampling does to the flow counters and the bits of the current row.
  ghost predicate FlowSampled(a: Agent, b: Agent, now: Counters)
    requires |a.rows| >= 1 && a.currentState >= 1
  {
    && SameFlow(a, b)
    && if WatchesFlow(a) then Shifted(a, b, now) && EventsMatch(b) else SameFlowSamples(a, b)
  }

  lemma FlowSampledBetween(a: Agent, c: Agent, d: Agent, b: Agent, now: Counters)
    requires |a.rows| >= 1 && a.currentState >= 1
    requires SameFlow(a, c) && SameFlowSamples(a, c)
    requires FlowSampled(c, d, now)
    requires SameFlow(d, b) && SameFlowSamples(d, b)
    ensures FlowSampled(a, b, now)
  {
  }

  // The agent when its samples are taken and its actions are still to come.
  function Sampled(a: Agent, hw: Hw): (b: Agent)
    requires |a.rows| >= 1 && a.currentState >= 1
    ensures FlowSampled(CountInterval(a), b, ReadStat(hw, a.statId))
    ensures ChecksPorts(a.monType) ==> PortsShifted(a, b, ReadPort(hw, a.portIndex))
  {
    var c := SamplePorts(CountInterval(a), hw);
    var d := SampleFlow(c, hw);
    var b := PortIntervals(d);
    FlowSampledBetween(CountInterval(a), c, d, b, ReadStat(hw, a.statId));
    b
  }

  // ---------- actions ----------

  datatype Branch = Notify | LinkCheck | Transition | Nothing

  // The branch of the priority chain that one listed action takes.
  function BranchOf(a: Agent, row: Row, act: Action): Branch {
    if (act == NotifyController || a.notifyNow) && a.totIntervals == 0 then Notify
    else if (act == NotifyAfterN || a.notifyAfterN) && a.intervalCount == 0 then Notify
    else if act == NotifyLinkUtilization || a.notifyLinkUtil then LinkCheck
    else if act == GotoNextState && row.nextState != NO_NEXT_STATE then Transition
    else Nothing
  }

  // send_stats_notification
  function Report(a: Agent): (r: (Agent, seq<Msg>))
    requires |a.rows| >= 1 && a.currentState >= 1
    ensures Keeps(a, r.0) && (WellFormed(a) ==> WellFormed(r.0)) && |r.1| <= 1
  {
    var events := CurrentRow(a).events;
    if events == 0 then (a, [])
    else
      (SetEvents(a, CurrentIndex(a), 0),
       [EventNotification(a.monId,
                          if events & 1 != 0 then Some(a.stats.flowEnd.packets) else None,
                          if events & 2 != 0 then Some(a.stats.flowEnd.bytes) else None)])
  }

  // Share of the port's incoming packets that belong to the flow, in percent, against
  // the threshold; a division by zero gives infinity, or no number for 0 / 0.
  predicate LinkIsUtilized(flowPackets: U64, unicast: I32, nonUnicast: I32, threshold: int) {
    var total := ToU64(ToU64(unicast) + ToU64(nonUnicast));
    if total == 0 then flowPackets != 0 else flowPackets * 100 >= threshold * total
  }

  function LinkReport(a: Agent): seq<Msg> {
    var flow, unicast, other := a.stats.flowInterval.packets, a.stats.portInterval[0], a.stats.portInterval[1];
    if a.monType == FP_STATS && unicast != 0 && a.notifyLinkUtil
       && a.linkThreshold != 0 && LinkIsUtilized(flow, unicast, other, a.linkThreshold)
    then [LinkUtilization(a.monId, unicast, other, flow)] else []
  }

  datatype Start = Start(agent: Agent, hw: Hw, ok: bool)

  // start_flow_stats_state_machine; only the code -1 counts as a failure.
  function StartFlow(a: Agent, hw: Hw, rowNum: int): (s: Start)
    requires |a.rows| >= 1 && 0 <= rowNum
    ensures Keeps(a, s.agent) && s.agent.rows == a.rows && s.agent.currentState == a.currentState
  {
    var row := a.rows[RowIndex(rowNum, |a.rows|)];
    if !row.flowExists then Start(a, hw, true)
    else
      var (h1, entry) := EntryCreate(hw, row.flow);
      if entry == INTERNAL then Start(a, h1, false)
      else
        var (h2, stat) := StatAttachInstall(h1, entry);
        var b := a.(flowEntry := entry);
        if stat == INTERNAL then Start(b, h2, true)
        else Start(b.(statId := stat, stats := b.stats.(flowStart := NoCounters)), h2, true)
  }

  // The first samples of a flow that has just been started.
  function FirstSamples(a: Agent, hw: Hw): (b: Agent)
    ensures SameFlow(a, b)
  {
    a.(stats := a.stats.(portEnd := ReadPort(hw, a.portIndex), flowEnd := ReadStat(hw, a.statId)))
  }

  // An agent in the middle of its turn; a dropped agent has been freed.
  datatype Turn = Turn(agent: Agent, world: World, dropped: bool)

  function Goto(a: Agent, w: World, nextState: int): (t: Turn)
    requires WellFormed(a) && 1 <= nextState < NO_NEXT_STATE
    ensures t.world.sent == w.sent
    ensures !t.dropped ==> WellFormed(t.agent) && Keeps(a, t.agent)
  {
    var hw := EntryDestroy(w.hw, a.flowEntry, a.statId);
    var b := a.(currentState := nextState % 256);
    var s := StartFlow(b, hw, b.currentState - 1);
    if !s.ok then Turn(s.agent, w.(hw := s.hw), true)
    else Turn(FirstSamples(s.agent.(stats := NoStats), s.hw), w.(hw := s.hw), false)
  }

  function Act(t: Turn, row: Row, act: Action, note: bool): (r: Turn)
    requires !t.dropped && WellFormed(t.agent) && 1 <= row.nextState <= NO_NEXT_STATE
    ensures !r.dropped ==> WellFormed(r.agent) && Keeps(t.agent, r.agent)
  {
    match BranchOf(t.agent, row, act)
    case Notify =>
      if note || row.flowExists then
        var (b, msgs) := Report(t.agent);
        Turn(b, t.world.(sent := t.world.sent + msgs), false)
      else t
    case LinkCheck => t.(world := t.world.(sent := t.world.sent + LinkReport(t.agent)))
    case Transition => Goto(t.agent, t.world, row.nextState)
    case Nothing => t
  }

  // The actions are interpreted in order until the agent is dropped.
  function RunActions(t: Turn, row: Row, acts: seq<Action>, note: bool): (r: Turn)
    requires !t.dropped && WellFormed(t.agent) && 1 <= row.nextState <= NO_NEXT_STATE
    ensures !r.dropped ==> WellFormed(r.agent) && Keeps(t.agent, r.agent)
  {
    if acts == [] then t
    else
      var before := RunActions(t, row, acts[..|acts| - 1], note);
      if before.dropped then before else Act(before, row, acts[|acts| - 1], note)
  }

  function PortDataReport(a: Agent, limit: PortLimit): seq<Msg> {
    if a.stats.flowStart.bytes > limit.maxData then [PortData(a.monId, limit.port, a.stats.flowEnd.bytes)] else []
  }

  function BeforeActions(a: Agent, w: World, limit: PortLimit): (t: Turn)
    requires WellFormed(a)
    ensures !t.dropped && WellFormed(t.agent) && Keeps(CountInterval(a), t.agent)
  {
    var b := Sampled(a, w.hw);
    Turn(b, w.(sent := w.sent + PortDataReport(b, limit)), false)
  }

  // One agent's turn in s_timer_event. `note` is what the port check left in `notification`.
  function PollAgent(a: Agent, w: World, limit: PortLimit, note: bool): (t: Turn)
    requires WellFormed(a)
    ensures !t.dropped ==> WellFormed(t.agent) && Keeps(CountInterval(a), t.agent)
  {
    var row := CurrentRow(a);
    RunActions(BeforeActions(a, w, limit), row, row.actions, note)
  }

  // ---------- operator messages ----------

  function Toggled(a: Agent, action: Action): Agent {
    match action
    case NotifyController => a.(notifyNow := !a.notifyNow)
    case NotifyAfterN => a.(notifyAfterN := !a.notifyAfterN)
    case NotifyLinkUtilization => a.(notifyLinkUtil := !a.notifyLinkUtil)
    case _ => a
  }

  function WithThresholds(a: Agent, packets: U64, bytes: U64): Agent
    requires |a.rows| >= 1 && a.currentState >= 1
  {
    var i := CurrentIndex(a);
    a.(rows := a.rows[i := a.rows[i].(packetsThreshold := packets, bytesThreshold := bytes)])
  }
}
