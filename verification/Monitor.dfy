// The daemon process: the hash map of agent objects, the reactor and the callbacks that
// update them in place. Every callback is proved to take the step that Daemon specifies.
module Process {
  import opened Words
  import opened Switch
  import opened Agents
  import opened EventLoop
  import opened Registry
  import opened Daemon
  import opened MonitoringAgent

  class Monitor {
    var agents: map<int, MonAgent>
    var loop: Loop
    const device: Device
    var sendSwitch: bool
    var tcamInterval: I32
    var tcamTimer: int
    var maxEntries: U64
    var minFree: U64
    var limit: PortLimit

    // Every agent is filed under its own mon_id.
    ghost predicate Valid()
      reads this`agents, agents.Values
    {
      forall id :: id in agents ==> agents[id].monId == id
    }

    ghost function Roster(): (r: Registry.Roster)
      reads this`agents, agents.Values
      ensures r.Keys == agents.Keys && forall id :: id in r ==> r[id] == agents[id].View()
    {
      map id | id in agents :: agents[id].View()
    }

    ghost function View(): State
      reads this, agents.Values, device
    {
      State(Roster(), loop, device.View(), sendSwitch, tcamInterval, tcamTimer, maxEntries, minFree, limit)
    }

    // Writing to one agent object changes one entry of the roster.
    twostate lemma OneChanged(id: int)
      requires old(Valid()) && agents == old(agents) && id in agents
      requires forall k :: k in agents && k != id ==> unchanged(agents[k])
      ensures Valid() && Roster() == old(Roster())[id := agents[id].View()]
    {
      forall k | k in agents && k != id ensures Roster()[k] == old(Roster())[k] {
        assert agents[k].View() == old(agents[k].View());
      }
    }

    twostate lemma Untouched()
      requires old(Valid()) && agents == old(agents) && forall k :: k in agents ==> unchanged(agents[k])
      ensures Valid() && Roster() == old(Roster())
    {
      forall k | k in agents ensures Roster()[k] == old(Roster())[k] {
        assert agents[k].View() == old(agents[k].View());
      }
    }

    // main
    constructor (device: Device)
      requires device.sent == [] && device.hw.entries == map[] && device.hw.stats == map[]
      ensures Valid() && this.device == device && View() == Boot(device.hw)
    {
      this.device := device;
      agents := map[];
      loop := TimerStart(Loop(map[], 0, 0), Delay(60000), CheckTcam, 0);
      sendSwitch, tcamInterval, tcamTimer := true, 60000, 1;
      maxEntries, minFree, limit := 0, 0, PortLimit(0, 0);
      new;
      assert Roster() == map[];
      assert device.View() == Boot(device.hw).world;
    }

    // The search for an agent that holds the timer of a poll time.
    method TimerExists(p: I32, order: seq<int>) returns (exist: bool)
      requires Valid() && IsOrder(order, Roster())
      ensures exist <==> HasLeader(Roster(), p)
    {
      exist := false;
      var i := 0;
      while i < |order|
        invariant 0 <= i <= |order| && !exist
        invariant forall k :: 0 <= k < i ==> !Leads(Roster(), order[k], p)
      {
        var m := agents[order[i]];
        if m.pollTime == p && m.timerId != 0 {
          assert Leads(Roster(), order[i], p);
          return true;
        }
        i := i + 1;
      }
      forall id ensures !Leads(Roster(), id, p) {
        if id in Roster() {
          var k :| 0 <= k < |order| && order[k] == id;
        }
      }
    }

    // End the timer of a departing leader and start one for the first follower.
    method HandOver(id: int, order: seq<int>)
      requires Valid() && id in agents && IsOrder(order, Roster())
      modifies this`loop, agents.Values`timerId
      ensures Valid() && agents[id].View() == old(agents[id].View())
      ensures var r := Leave(old(Roster()), old(loop), order, id);
              loop == r.loop && Roster() == r.agents[id := agents[id].View()]
    {
      hide MonAgent.View, Roster, IsOrder, Delay;
      var agent := agents[id];
      agent.Registered();
      if agent.timerId != 0 {
        loop := TimerEnd(loop, agent.timerId);
        StartFollower(id, order);
      }
      assert Roster() == (Roster() - {id})[id := agents[id].View()];
    }

    // A member gets a timer of its own.
    method Lead(m: MonAgent, p: I32)
      requires Valid() && m.monId in agents && agents[m.monId] == m
      modifies this`loop, m`timerId
      ensures Valid() && loop == TimerStart(old(loop), Delay(p), PollAgents, m.monId)
      ensures m.View() == old(m.View()).(timerId := loop.lastId) && Roster() == old(Roster())[m.monId := m.View()]
    {
      hide MonAgent.View, Delay, Roster, TimerStart;
      loop := TimerStart(loop, Delay(p), PollAgents, m.monId);
      m.SetTimer(loop.lastId);
      OneChanged(m.monId);
    }

    // A timer of its own for the first other member of the group that has none.
    method StartFollower(id: int, order: seq<int>)
      requires Valid() && id in agents && agents[id].timerId != 0 && IsOrder(order, Roster())
      modifies this`loop, agents.Values`timerId
      ensures Valid() && agents[id].View() == old(agents[id].View())
      ensures var rest := old(Roster()) - {id};
              var f := FirstFollower(rest, order, agents[id].pollTime);
              var r := if f.Some? then Found(rest, old(loop), f.value) else Registration(rest, old(loop));
              loop == r.loop && Roster() - {id} == r.agents
    {
      hide MonAgent.View, Delay, Roster, FirstFollower, TimerStart, IsOrder;
      ghost var rest := Roster() - {id};
      var f := FindFollower(id, order);
      if f.Some? {
        var m := agents[f.value];
        m.Registered();
        Lead(m, m.pollTime);
        assert Roster() - {id} == rest[f.value := m.View()];
      }
    }

    // The first other member of the group that has no timer.
    method FindFollower(id: int, order: seq<int>) returns (f: Option<int>)
      requires Valid() && id in agents && agents[id].timerId != 0 && IsOrder(order, Roster())
      ensures f == FirstFollower(Roster() - {id}, order, agents[id].pollTime)
      ensures f.Some? ==> f.value in agents && f.value != id
    {
      var agent := agents[id];
      ghost var rest := Roster() - {id};
      var i := 0;
      while i < |order|
        invariant 0 <= i <= |order|
        invariant FirstFollower(rest, order, agent.pollTime) == FirstFollower(rest, order[i..], agent.pollTime)
      {
        var m := agents[order[i]];
        if m.pollTime == agent.pollTime && m.timerId == 0 && agent.monId != m.monId {
          return Some(order[i]);
        }
        i := i + 1;
      }
      return None;
    }

    // MON_STOP
    method Stop(id: int, order: seq<int>)
      requires Valid() && id in agents && IsOrder(order, Roster())
      modifies this`agents, this`loop, agents.Values`timerId, device`hw
      ensures Valid() && View() == StopStep(old(View()), id, order)
    {
      hide Leave, EntryDestroy, IsOrder, Roster, MonAgent.View, Device.View;
      ghost var left, a := Leave(Roster(), loop, order, id), agents[id].View();
      LeaveRetimes(Roster(), loop, order, id);
      HandOver(id, order);
      Remove(id);
      assert left.agents[id := a] - {id} == left.agents;
    }

    // The agent's entry is destroyed and the agent taken from the hash map.
    method Remove(id: int)
      requires Valid() && id in agents
      modifies this`agents, device`hw
      ensures Valid() && Roster() == old(Roster()) - {id}
      ensures var a, w := old(agents[id].View()), old(device.View());
              device.View() == w.(hw := EntryDestroy(w.hw, a.flowEntry, a.statId))
    {
      hide EntryDestroy, Roster, MonAgent.View;
      agents[id].Registered();
      device.hw := EntryDestroy(device.hw, agents[id].flowEntry, agents[id].statId);
      Drop(id);
    }

    // The agent looks for a leader of poll time `p`, or becomes it.
    method JoinGroup(agent: MonAgent, p: I32, order: seq<int>, ghost rest: Registry.Roster)
      requires Valid() && agent.monId in agents && agents[agent.monId] == agent
      requires agent.monId !in rest && agent.timerId == 0 && Roster() == rest[agent.monId := agent.View()]
      requires IsOrder(order, Roster())
      modifies this`loop, agent`timerId, agent`pollTime
      ensures Valid()
      ensures var r := Join(rest, old(loop), agent.monId, old(agent.View()).(pollTime := p));
              loop == r.loop && Roster() == r.agents
    {
      hide IsOrder, HasLeader, Delay, MonAgent.View, Roster, Join, TimerStart;
      agent.Registered();
      Joins(rest, loop, agent.monId, agent.View(), p);
      ghost var a := agent.View();
      var exist := TimerExists(p, order);
      if !exist {
        Lead(agent, p);
      }
      ghost var led := agent.View();
      assert led == if exist then a else a.(timerId := loop.lastId);
      Move(agent, p);
      assert agent.View() == led.(pollTime := p);
      Overwrite(rest, agent.monId, a, led);
      Overwrite(rest, agent.monId, led, agent.View());
    }

    method Move(agent: MonAgent, p: I32)
      requires Valid() && agent.monId in agents && agents[agent.monId] == agent
      modifies agent`pollTime
      ensures Valid() && agent.View() == old(agent.View()).(pollTime := p)
      ensures Roster() == old(Roster())[agent.monId := agent.View()]
    {
      hide MonAgent.View, Roster;
      agent.SetPollTime(p);
      OneChanged(agent.monId);
    }

    // MON_PARAM_CHANGE
    method ParamChange(id: int, p: I32, order: seq<int>)
      requires Valid() && id in agents && IsOrder(order, Roster())
      modifies this`loop, agents.Values`timerId, agents.Values`pollTime
      ensures Valid() && View() == ParamChangeStep(old(View()), id, p, order)
    {
      hide Leave, Join, IsOrder, HasLeader, MonAgent.View, Roster, SameMember;
      ghost var left := Leave(Roster(), loop, order, id);
      Detach(id, order);
      SameOrder(order, old(Roster()), Roster());
      JoinGroup(agents[id], p, order, left.agents);
    }

    // The agent is left without a timer and its group without the agent.
    method Detach(id: int, order: seq<int>)
      requires Valid() && id in agents && IsOrder(order, Roster())
      modifies this`loop, agents.Values`timerId
      ensures Valid() && agents[id].timerId == 0 && agents[id].View() == old(agents[id].View()).(timerId := 0)
      ensures var r := Leave(old(Roster()), old(loop), order, id);
              loop == r.loop && id !in r.agents && Roster() == r.agents[id := agents[id].View()]
    {
      hide Leave, IsOrder, MonAgent.View, Roster;
      LeaveRetimes(Roster(), loop, order, id);
      HandOver(id, order);
      label HandedOver:
      agents[id].SetTimer(0);
      agents[id].Registered();
      OneChanged@HandedOver(id);
    }

    // MON_HELLO
    method Hello(c: Config, order: seq<int>) returns (ok: bool)
      requires Valid() && GoodTable(c.rows) && c.monId !in agents && IsOrder(order, Roster())
      modifies this`agents, this`loop, device`hw
      ensures Valid() && View() == HelloStep(old(View()), c)
      ensures ok <==> c.monId in agents
    {
      hide Agents.StartFlow, FirstSamples, Join, MonAgent.View, NewAgent, IsOrder, Roster;
      FirstRow(c);
      var agent := new MonAgent(NewAgent(c));
      agent.Registered();
      ok := agent.StartFlow(device, agent.currentState as int - 1);
      Untouched();
      if ok {
        agent.TakeFirstSamples(device);
        Untouched();
        agent.Registered();
        Admit(agent, order);
      }
    }

    method Enter(agent: MonAgent)
      requires Valid()
      modifies this`agents
      ensures Valid() && agents == old(agents)[agent.monId := agent]
      ensures Roster() == old(Roster())[agent.monId := agent.View()]
    {
      agents := agents[agent.monId := agent];
    }

    // A new agent enters the hash map and its group.
    method Admit(agent: MonAgent, order: seq<int>)
      requires Valid() && IsOrder(order, Roster())
      requires agent.monId !in agents && agent !in agents.Values && agent.timerId == 0
      modifies this`agents, this`loop, agent`timerId
      ensures Valid() && agents == old(agents)[agent.monId := agent]
      ensures var r := Join(old(Roster()), old(loop), agent.monId, old(agent.View()));
              loop == r.loop && Roster() == r.agents
    {
      hide HasLeader, IsOrder, MonAgent.View, Delay, Roster, Join, TimerStart;
      agent.Registered();
      Joins(Roster(), loop, agent.monId, agent.View(), agent.pollTime);
      LedByOthers(Roster(), agent.monId, agent.View(), agent.pollTime);
      var exist := TimerExists(agent.pollTime, order);
      EnterAs(agent, !exist);
    }

    method EnterAs(agent: MonAgent, lead: bool)
      requires Valid() && agent.monId !in agents
      modifies this`agents, this`loop, agent`timerId
      ensures Valid() && agents == old(agents)[agent.monId := agent]
      ensures loop == if lead then TimerStart(old(loop), Delay(agent.pollTime), PollAgents, agent.monId) else old(loop)
      ensures agent.View() == if lead then old(agent.View()).(timerId := loop.lastId) else old(agent.View())
      ensures Roster() == old(Roster())[agent.monId := agent.View()]
    {
      hide MonAgent.View, Delay, Roster, TimerStart;
      ghost var rest, a := Roster(), agent.View();
      Enter(agent);
      if lead {
        Lead(agent, agent.pollTime);
      }
      Overwrite(rest, agent.monId, a, agent.View());
    }

    // s_timer_event
    method TimerEvent(leader: int, order: seq<int>, noted: set<int>)
      requires Valid() && AllWellFormed(Roster()) && IsOrder(order, Roster())
      modifies this`agents, agents.Values, device
      ensures Valid() && View() == PollStep(old(View()), leader, order, noted)
    {
      hide PollGroup, AllWellFormed, Device.View, SameMember, Lost;
      if leader in agents {
        var aborted := PollAll(agents[leader].pollTime, order, noted);
      }
    }

    // The pass over the hash map; it ends with the agent that is dropped, if any.
    method PollAll(p: I32, order: seq<int>, noted: set<int>) returns (aborted: bool)
      requires Valid() && AllWellFormed(Roster()) && IsOrder(order, Roster())
      modifies this`agents, agents.Values, device
      ensures Valid()
      ensures Round(Roster(), device.View(), aborted)
              == PollGroup(old(Roster()), old(device.View()), order, p, limit, noted)
    {
      hide PollGroup, PollOne, MonAgent.View, AllWellFormed, Device.View, SameMember, Lost;
      ghost var r0, w0 := Roster(), device.View();
      NoTurnsYet(r0, w0, p, limit, noted);
      aborted := false;
      var i := 0;
      while i < |order|
        invariant 0 <= i <= |order| && Valid() && agents == old(agents) && !aborted
        invariant Round(Roster(), device.View(), false) == PollGroup(r0, w0, order[..i], p, limit, noted)
      {
        NextTurn(r0, w0, order, i, p, limit, noted);
        aborted := PollNext(order[i], p, noted);
        if aborted {
          RoundStopsAt(r0, w0, order, i + 1, p, limit, noted);
          return;
        }
        i := i + 1;
      }
      assert order[..|order|] == order;
    }

    // One iteration over the hash map.
    method PollNext(id: int, p: I32, noted: set<int>) returns (aborted: bool)
      requires Valid() && AllWellFormed(Roster()) && id in agents
      modifies this`agents, agents.Values, device
      ensures Valid() && (!aborted ==> agents == old(agents))
      ensures Round(Roster(), device.View(), aborted)
              == PollOne(Round(old(Roster()), old(device.View()), false), id, p, limit, noted)
    {
      hide PollAgent, AllWellFormed, MonAgent.View, Device.View, Roster, SameMember, WellFormed, PollOne;
      WellFormedMember(Roster(), id);
      agents[id].Registered();
      TurnTaken(Round(Roster(), device.View(), false), id, p, limit, noted);
      aborted := false;
      if agents[id].pollTime == p {
        aborted := PollMember(agents[id], id in noted);
        if aborted {
          Drop(id);
        }
      }
    }

    method Drop(id: int)
      requires Valid() && id in agents
      modifies this`agents
      ensures Valid() && agents == old(agents) - {id} && Roster() == old(Roster()) - {id}
    {
      agents := agents - {id};
    }

    method PollMember(m: MonAgent, note: bool) returns (dropped: bool)
      requires Valid() && m.monId in agents && agents[m.monId] == m && WellFormed(m.View())
      modifies m, device
      ensures Valid() && Roster() == old(Roster())[m.monId := m.View()]
      ensures var t := PollAgent(old(m.View()), old(device.View()), limit, note);
              device.View() == t.world && dropped == t.dropped && (!dropped ==> m.View() == t.agent)
    {
      hide PollAgent, MonAgent.View, Device.View, Roster, WellFormed;
      dropped := m.Poll(device, limit, note);
      OneChanged(m.monId);
    }

    // s_fp_group_status_check_timer_event
    method GroupStatusCheck(entriesFree: nat)
      requires Valid()
      modifies this`loop, this`sendSwitch, device`sent
      ensures Valid() && View() == CheckTcamStep(old(View()), entriesFree)
    {
      hide MonAgent.View, TimerStart, Delay, Roster, Monitor.Valid;
      var size := |agents|;
      assert |Roster()| == size by {
        assert |Roster()| == |Roster().Keys|;
      }
      if size > maxEntries && entriesFree < minFree && sendSwitch {
        device.sent := device.sent + [MonSwitch(|device.hw.entries|, minFree, maxEntries)];
        loop := TimerStart(loop, Delay(tcamInterval), EndThrottle, 0);
        sendSwitch := false;
      }
    }

    // s_fp_notify_timer_event
    method NotifyTimerEvent(timer: int)
      modifies this`loop, this`sendSwitch
      ensures View() == EndThrottleStep(old(View()), timer)
    {
      sendSwitch := true;
      loop := TimerEnd(loop, timer);
    }

    // zloop_start, one expiry: the reactor arms the timer again and calls its handler.
    method Fire(timer: int, order: seq<int>, noted: set<int>, entriesFree: nat)
      requires Valid() && AllWellFormed(Roster()) && IsOrder(order, Roster()) && timer in loop.timers
      modifies this`agents, this`loop, this`sendSwitch, agents.Values, device
      ensures Valid() && View() == ExpireStep(old(View()), timer, order, noted, entriesFree)
    {
      hide PollStep, CheckTcamStep, EndThrottleStep, Rearm, AllWellFormed, IsOrder, Roster, MonAgent.View;
      var t := loop.timers[timer];
      loop := Rearm(loop, timer);
      match t.handler
      case PollAgents => TimerEvent(t.arg, order, noted);
      case CheckTcam => GroupStatusCheck(entriesFree);
      case EndThrottle => NotifyTimerEvent(timer);
    }

    // configure-tcam-timer
    method ConfigureTcamTimer(interval: I32)
      modifies this`loop, this`tcamInterval, this`tcamTimer
      ensures View() == SetTcamTimerStep(old(View()), interval)
    {
      hide TimerStart, TimerEnd, Delay, MonAgent.View, Roster;
      assert Roster() == old(Roster());
      tcamInterval := interval;
      loop := TimerEnd(loop, tcamTimer);
      loop := TimerStart(loop, Delay(tcamInterval), CheckTcam, 0);
      tcamTimer := loop.lastId;
    }

    // fp-entry-threshold
    method SetTcamLimits(total: I32, free: I32)
      modifies this`maxEntries, this`minFree
      ensures View() == old(View()).(maxEntries := ToU64(total), minFree := ToU64(free))
    {
      maxEntries := ToU64(total);
      minFree := ToU64(free);
    }

    // port-threshold
    method SetPortLimit(port: I32, maxData: I32)
      modifies this`limit
      ensures View() == old(View()).(limit := PortLimit(ToU64(maxData), ToU64(port)))
    {
      limit := PortLimit(ToU64(maxData), ToU64(port));
    }

    // enable-disable-action
    method EnableDisableAction(id: int, action: Action)
      requires Valid()
      modifies agents.Values`notifyNow, agents.Values`notifyAfterN, agents.Values`notifyLinkUtil
      ensures Valid()
      ensures View() == if id in agents
                        then old(View()).(agents := old(Roster())[id := Toggled(old(agents[id].View()), action)])
                        else old(View())
    {
      hide MonAgent.View, Roster, Toggled;
      if id in agents {
        agents[id].Toggle(action);
        OneChanged(id);
      }
    }

    // modify-event-thresholds
    method ModifyEventThresholds(id: int, packets: I32, bytes: I32)
      requires Valid() && AllWellFormed(Roster())
      modifies agents.Values`rows
      ensures Valid()
      ensures View() == if id in agents
                        then old(View()).(agents := old(Roster())[id := WithThresholds(old(agents[id].View()), ToU64(packets), ToU64(bytes))])
                        else old(View())
    {
      if id in agents {
        WellFormedMember(Roster(), id);
        agents[id].SetThresholds(ToU64(packets), ToU64(bytes));
        OneChanged(id);
      }
    }
  }

  lemma FirstRow(c: Config)
    ensures var a := NewAgent(c);
            a.rows == c.rows && a.currentState == 1 && a.monId == c.monId && a.timerId == 0
  {
  }

  lemma Overwrite(rest: Roster, id: int, a: Agent, b: Agent)
    ensures rest[id := a][id := b] == rest[id := b]
  {
  }

  // The search for a leader may look at the new member as well.
  lemma Joins(rest: Roster, loop: Loop, id: int, a: Agent, p: I32)
    requires id !in rest && a.timerId == 0
    ensures var l := TimerStart(loop, Delay(p), PollAgents, id);
            Join(rest, loop, id, a.(pollTime := p)) ==
            if HasLeader(rest[id := a], p) then Registration(rest[id := a.(pollTime := p)], loop)
            else Registration(rest[id := a.(pollTime := p, timerId := l.lastId)], l)
  {
    LedByOthers(rest, id, a, p);
    var more := rest[id := a.(pollTime := p)];
    var l := TimerStart(loop, Delay(p), PollAgents, id);
    assert more[id := a.(pollTime := p, timerId := l.lastId)] == rest[id := a.(pollTime := p, timerId := l.lastId)];
  }

  // A member without a timer is nobody's leader.
  lemma LedByOthers(rest: Roster, id: int, a: Agent, p: I32)
    requires id !in rest && a.timerId == 0
    ensures HasLeader(rest[id := a], p) <==> HasLeader(rest, p)
  {
    var more := rest[id := a];
    if k :| Leads(rest, k, p) {
      assert Leads(more, k, p);
    }
    if k :| Leads(more, k, p) {
      assert Leads(rest, k, p);
    }
  }

  lemma SameOrder(order: seq<int>, r: Roster, s: Roster)
    requires IsOrder(order, r) && r.Keys == s.Keys
    ensures IsOrder(order, s)
  {
  }

  lemma WellFormedMember(agents: Roster, id: int)
    requires AllWellFormed(agents) && id in agents
    ensures WellFormed(agents[id])
  {
  }

  lemma TurnTaken(r: Round, id: int, p: I32, limit: PortLimit, noted: set<int>)
    requires !r.aborted && id in r.agents && AllWellFormed(r.agents)
    ensures var t := PollAgent(r.agents[id], r.world, limit, id in noted);
            PollOne(r, id, p, limit, noted) ==
            if r.agents[id].pollTime != p then r
            else if t.dropped then Round(r.agents - {id}, t.world, true)
            else Round(r.agents[id := t.agent], t.world, false)
  {
  }

  lemma NoTurnsYet(agents: Roster, w: World, p: I32, limit: PortLimit, noted: set<int>)
    requires AllWellFormed(agents)
    ensures forall order: seq<int> | order == [] :: PollGroup(agents, w, order, p, limit, noted) == Round(agents, w, false)
  {
  }

  lemma NextTurn(agents: Roster, w: World, order: seq<int>, i: nat, p: I32, limit: PortLimit, noted: set<int>)
    requires AllWellFormed(agents) && (forall id :: id in order ==> id in agents) && i < |order|
    requires !PollGroup(agents, w, order[..i], p, limit, noted).aborted
    ensures PollGroup(agents, w, order[..i + 1], p, limit, noted)
            == PollOne(PollGroup(agents, w, order[..i], p, limit, noted), order[i], p, limit, noted)
  {
    assert order[..i + 1][..i] == order[..i];
  }

  // Once a round is cut short the rest of the hash map is not looked at.
  lemma {:induction false} RoundStopsAt(agents: Roster, w: World, order: seq<int>, n: nat, p: I32, limit: PortLimit, noted: set<int>)
    requires AllWellFormed(agents) && forall id :: id in order ==> id in agents
    requires n <= |order| && PollGroup(agents, w, order[..n], p, limit, noted).aborted
    ensures PollGroup(agents, w, order, p, limit, noted) == PollGroup(agents, w, order[..n], p, limit, noted)
    decreases |order|
  {
    hide PollOne, AllWellFormed;
    if n == |order| {
      assert order[..n] == order;
    } else {
      var init := order[..|order| - 1];
      assert init[..n] == order[..n];
      RoundStopsAt(agents, w, init, n, p, limit, noted);
    }
  }
}
