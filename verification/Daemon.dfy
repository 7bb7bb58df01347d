// The whole daemon as a state machine: one step for every event-loop callback,
// and for the passing of time and traffic between them.
module Daemon {
  import opened Words
  import opened Switch
  import opened Agents
  import opened EventLoop
  import opened Registry

  datatype State = State(
    agents: Roster,
    loop: Loop,
    world: World,
    sendSwitch: bool,
    tcamInterval: I32,
    tcamTimer: int,
    maxEntries: U64,
    minFree: U64,
    limit: PortLimit)

  // What a MON_HELLO message configures.
  datatype Config = Config(
    monId: int, pollTime: I32, monType: MonType, totIntervals: int,
    portIndex: int, linkThreshold: int, rows: seq<Row>,
    notifyNow: bool, notifyAfterN: bool, notifyLinkUtil: bool)

  datatype Event =
    | Hello(config: Config, order: seq<int>)
    | Stop(id: int, order: seq<int>)
    | ParamChange(id: int, pollTime: I32, order: seq<int>)
    | Expire(timer: int, order: seq<int>, noted: set<int>, entriesFree: nat)
    | ToggleAction(id: int, action: Action)
    | ModifyThresholds(id: int, packets: U64, bytes: U64)
    | SetTcamTimer(interval: I32)
    | SetTcamLimits(maxEntries: U64, minFree: U64)
    | SetPortLimit(limit: PortLimit)
    | Wait(until: nat)
    | Traffic(stats: map<int, Counters>, ports: map<int, PortReading>)

  ghost predicate AllWellFormed(agents: Roster) {
    forall id :: id in agents ==> WellFormed(agents[id])
  }

  // When an event can happen. Timers fire when they are due, never before, and time
  // does not run past a due timer; STOP and PARAM_CHANGE name a live agent, HELLO a new one.
  ghost predicate Enabled(s: State, e: Event) {
    match e
    case Hello(c, order) => GoodTable(c.rows) && c.monId !in s.agents && IsOrder(order, s.agents)
    case Stop(id, order) => id in s.agents && IsOrder(order, s.agents)
    case ParamChange(id, p, order) => id in s.agents && IsOrder(order, s.agents)
    case Expire(t, order, noted, free) =>
      t in s.loop.timers && s.loop.timers[t].due <= s.loop.now && IsOrder(order, s.agents)
    case Wait(until) =>
      s.loop.now <= until && forall t :: t in s.loop.timers ==> until <= s.loop.timers[t].due
    case Traffic(stats, ports) => stats.Keys == s.world.hw.stats.Keys
    case _ => true
  }

  // ---------- monitoring messages ----------

  function NewAgent(c: Config): Agent {
    Agent(c.monId, c.pollTime, 0, c.monType, c.totIntervals, 0, c.portIndex, c.linkThreshold,
          1, 0, 0, NoStats, c.rows, c.notifyNow, c.notifyAfterN, c.notifyLinkUtil)
  }

  ghost function HelloStep(s: State, c: Config): State
    requires GoodTable(c.rows)
  {
    var st := StartFlow(NewAgent(c), s.world.hw, 0);
    var t := s.(world := s.world.(hw := st.hw));
    if !st.ok then t
    else
      var r := Join(s.agents, s.loop, c.monId, FirstSamples(st.agent, st.hw));
      t.(agents := r.agents, loop := r.loop)
  }

  function StopStep(s: State, id: int, order: seq<int>): State
    requires id in s.agents
  {
    var a, r := s.agents[id], Leave(s.agents, s.loop, order, id);
    s.(agents := r.agents, loop := r.loop,
       world := s.world.(hw := EntryDestroy(s.world.hw, a.flowEntry, a.statId)))
  }

  ghost function ParamChangeStep(s: State, id: int, p: I32, order: seq<int>): State
    requires id in s.agents
  {
    var r := ChangePollTime(s.agents, s.loop, order, id, p);
    s.(agents := r.agents, loop := r.loop)
  }

  // ---------- the poll timer ----------

  // A pass over the hash map; it stops at once when an agent is dropped.
  datatype Round = Round(agents: Roster, world: World, aborted: bool)

  // Same agent in the registry.
  ghost predicate SameMember(a: Agent, b: Agent) {
    a.monId == b.monId && a.pollTime == b.pollTime && a.timerId == b.timerId
  }

  function PollOne(r: Round, id: int, p: I32, limit: PortLimit, noted: set<int>): (q: Round)
    requires !r.aborted && id in r.agents && AllWellFormed(r.agents)
    ensures AllWellFormed(q.agents) && q.agents.Keys == if q.aborted then r.agents.Keys - {id} else r.agents.Keys
    ensures forall k :: k in q.agents ==> SameMember(r.agents[k], q.agents[k])
    ensures forall k :: k in q.agents && k != id ==> q.agents[k] == r.agents[k]
  {
    var a := r.agents[id];
    if a.pollTime != p then r
    else
      var t := PollAgent(a, r.world, limit, id in noted);
      if t.dropped then Round(r.agents - {id}, t.world, true)
      else Round(r.agents[id := t.agent], t.world, false)
  }

  ghost predicate Lost(agents: Roster, rest: Roster, id: int) {
    id in agents && rest.Keys == agents.Keys - {id}
  }

  function PollGroup(agents: Roster, w: World, order: seq<int>, p: I32, limit: PortLimit, noted: set<int>): (q: Round)
    requires AllWellFormed(agents) && forall id :: id in order ==> id in agents
    ensures AllWellFormed(q.agents) && q.agents.Keys <= agents.Keys
    ensures if q.aborted then exists id :: Lost(agents, q.agents, id) else q.agents.Keys == agents.Keys
    ensures forall k :: k in q.agents ==> SameMember(agents[k], q.agents[k])
  {
    if order == [] then Round(agents, w, false)
    else
      var r := PollGroup(agents, w, order[..|order| - 1], p, limit, noted);
      if r.aborted then r
      else
        var last := order[|order| - 1];
        var q := PollOne(r, last, p, limit, noted);
        assert q.aborted ==> Lost(agents, q.agents, last);
        q
  }

  // s_timer_event; the leader may be gone, and then nobody is polled.
  function PollStep(s: State, leader: int, order: seq<int>, noted: set<int>): State
    requires AllWellFormed(s.agents) && forall id :: id in order ==> id in s.agents
  {
    if leader in s.agents then
      var r := PollGroup(s.agents, s.world, order, s.agents[leader].pollTime, s.limit, noted);
      s.(agents := r.agents, world := r.world)
    else s
  }

  // ---------- the TCAM throttle ----------

  // s_fp_group_status_check_timer_event
  function CheckTcamStep(s: State, entriesFree: nat): State {
    if |s.agents| > s.maxEntries && entriesFree < s.minFree && s.sendSwitch then
      s.(world := s.world.(sent := s.world.sent + [MonSwitch(|s.world.hw.entries|, s.minFree, s.maxEntries)]),
         loop := TimerStart(s.loop, Delay(s.tcamInterval), EndThrottle, 0),
         sendSwitch := false)
    else s
  }

  // s_fp_notify_timer_event
  function EndThrottleStep(s: State, timer: int): State {
    s.(sendSwitch := true, loop := TimerEnd(s.loop, timer))
  }

  function SetTcamTimerStep(s: State, interval: I32): State {
    var l := TimerStart(TimerEnd(s.loop, s.tcamTimer), Delay(interval), CheckTcam, 0);
    s.(tcamInterval := interval, tcamTimer := l.lastId, loop := l)
  }

  function ExpireStep(s: State, timer: int, order: seq<int>, noted: set<int>, entriesFree: nat): State
    requires timer in s.loop.timers
    requires AllWellFormed(s.agents) && forall id :: id in order ==> id in s.agents
  {
    var t, fired := s.loop.timers[timer], s.(loop := Rearm(s.loop, timer));
    match t.handler
    case PollAgents => PollStep(fired, t.arg, order, noted)
    case CheckTcam => CheckTcamStep(fired, entriesFree)
    case EndThrottle => EndThrottleStep(fired, timer)
  }

  // ---------- one step ----------

  ghost function Step(s: State, e: Event): State
    requires Enabled(s, e) && AllWellFormed(s.agents)
  {
    match e
    case Hello(c, order) => HelloStep(s, c)
    case Stop(id, order) => StopStep(s, id, order)
    case ParamChange(id, p, order) => ParamChangeStep(s, id, p, order)
    case Expire(t, order, noted, free) => ExpireStep(s, t, order, noted, free)
    case ToggleAction(id, action) =>
      if id in s.agents then s.(agents := s.agents[id := Toggled(s.agents[id], action)]) else s
    case ModifyThresholds(id, packets, bytes) =>
      if id in s.agents then s.(agents := s.agents[id := WithThresholds(s.agents[id], packets, bytes)]) else s
    case SetTcamTimer(interval) => SetTcamTimerStep(s, interval)
    case SetTcamLimits(max, min) => s.(maxEntries := max, minFree := min)
    case SetPortLimit(limit) => s.(limit := limit)
    case Wait(until) => s.(loop := s.loop.(now := until))
    case Traffic(stats, ports) => s.(world := s.world.(hw := s.world.hw.(stats := stats, ports := ports)))
  }

  const DEFAULT_INTERVAL: I32 := 60000

  // main: no agents, nothing installed, the check timer armed.
  function Boot(hw: Hw): State {
    var l := TimerStart(Loop(map[], 0, 0), Delay(DEFAULT_INTERVAL), CheckTcam, 0);
    State(map[], l, World(hw.(entries := map[], stats := map[]), []), true, DEFAULT_INTERVAL, l.lastId, 0, 0, PortLimit(0, 0))
  }
}
