// What every step of the daemon keeps.
module Invariants {
  import opened Words
  import opened Agents
  import opened EventLoop
  import opened Registry
  import opened Refusals
  import opened Rounds
  import opened Daemon

  // ---------- the throttle ----------

  ghost predicate Fires(loop: Loop, t: int, handler: Handler) {
    t in loop.timers && loop.timers[t].handler == handler
  }

  // MON_SWITCH is withheld exactly while one notify timer is pending, and the check
  // timer is always the one recorded.
  ghost predicate Throttled(s: State) {
    && (forall t, u :: Fires(s.loop, t, EndThrottle) && Fires(s.loop, u, EndThrottle) ==> t == u)
    && (s.sendSwitch <==> forall t :: !Fires(s.loop, t, EndThrottle))
    && (forall t :: Fires(s.loop, t, CheckTcam) <==> t == s.tcamTimer)
  }

  // ---------- invariants that need nothing from the switch ----------

  ghost predicate Named(agents: Roster) {
    forall id :: id in agents ==> agents[id].monId == id
  }

  ghost predicate Sound(s: State) {
    AllWellFormed(s.agents) && Named(s.agents) && Armed(s.agents, s.loop) && Throttled(s)
  }

  // Timers of the other kinds come and go without a trace in the registry.
  ghost predicate SameTimers(l: Loop, m: Loop, handler: Handler) {
    forall t :: Fires(l, t, handler) == Fires(m, t, handler)
  }

  lemma LeaveTimers(agents: Roster, loop: Loop, order: seq<int>, id: int, handler: Handler)
    requires Armed(agents, loop) && id in agents && handler != PollAgents
    ensures var r := Leave(agents, loop, order, id); SameTimers(loop, r.loop, handler)
  {
  }

  lemma JoinTimers(agents: Roster, loop: Loop, id: int, a: Agent, handler: Handler)
    requires Armed(agents, loop) && id !in agents && a.timerId == 0 && handler != PollAgents
    ensures var r := Join(agents, loop, id, a); SameTimers(loop, r.loop, handler)
  {
  }

  lemma RegistryKeepsThrottle(s: State, t: State)
    requires Throttled(s) && s.sendSwitch == t.sendSwitch && s.tcamTimer == t.tcamTimer
    requires SameTimers(s.loop, t.loop, EndThrottle) && SameTimers(s.loop, t.loop, CheckTcam)
    ensures Throttled(t)
  {
    forall x ensures Fires(t.loop, x, EndThrottle) == Fires(s.loop, x, EndThrottle) {
    }
    forall x ensures Fires(t.loop, x, CheckTcam) == Fires(s.loop, x, CheckTcam) {
    }
  }

  lemma HelloKeepsSound(s: State, c: Config, order: seq<int>)
    requires Sound(s) && Enabled(s, Hello(c, order))
    ensures Sound(HelloStep(s, c))
  {
    var st := StartFlow(NewAgent(c), s.world.hw, 0);
    if st.ok {
      var a := FirstSamples(st.agent, st.hw);
      JoinKeepsArmed(s.agents, s.loop, c.monId, a);
      JoinTimers(s.agents, s.loop, c.monId, a, EndThrottle);
      JoinTimers(s.agents, s.loop, c.monId, a, CheckTcam);
    }
    RegistryKeepsThrottle(s, HelloStep(s, c));
  }

  lemma StopKeepsSound(s: State, id: int, order: seq<int>)
    requires Sound(s) && id in s.agents
    ensures Sound(StopStep(s, id, order))
  {
    LeaveKeepsArmed(s.agents, s.loop, order, id);
    LeaveTimers(s.agents, s.loop, order, id, EndThrottle);
    LeaveTimers(s.agents, s.loop, order, id, CheckTcam);
    RegistryKeepsThrottle(s, StopStep(s, id, order));
  }

  lemma ChangeKeepsSound(s: State, id: int, p: I32, order: seq<int>)
    requires Sound(s) && id in s.agents
    ensures Sound(ParamChangeStep(s, id, p, order))
  {
    hide Leave, Join, Armed, Throttled;
    ChangeRetimes(s.agents, s.loop, order, id, p);
    ChangeKeepsArmed(s.agents, s.loop, order, id, p);
    LeaveKeepsArmed(s.agents, s.loop, order, id);
    LeaveRetimes(s.agents, s.loop, order, id);
    var left := Leave(s.agents, s.loop, order, id);
    forall h | h == EndThrottle || h == CheckTcam
      ensures SameTimers(s.loop, ParamChangeStep(s, id, p, order).loop, h)
    {
      LeaveTimers(s.agents, s.loop, order, id, h);
      JoinTimers(left.agents, left.loop, id, s.agents[id].(timerId := 0, pollTime := p), h);
    }
    RegistryKeepsThrottle(s, ParamChangeStep(s, id, p, order));
  }

  lemma FiringKeepsSound(s: State, timer: int)
    requires Sound(s) && timer in s.loop.timers && s.loop.timers[timer].due <= s.loop.now
    ensures Sound(s.(loop := Rearm(s.loop, timer)))
  {
    RegistryKeepsThrottle(s, s.(loop := Rearm(s.loop, timer)));
  }

  lemma PollKeepsSound(s: State, leader: int, order: seq<int>, noted: set<int>)
    requires Sound(s) && IsOrder(order, s.agents)
    ensures Sound(PollStep(s, leader, order, noted))
  {
    RegistryKeepsThrottle(s, PollStep(s, leader, order, noted));
  }

  lemma CheckKeepsSound(s: State, entriesFree: nat)
    requires Sound(s)
    ensures Sound(CheckTcamStep(s, entriesFree))
  {
    var t := CheckTcamStep(s, entriesFree);
    forall x ensures Fires(t.loop, x, CheckTcam) == Fires(s.loop, x, CheckTcam) {
    }
    if s.sendSwitch && !t.sendSwitch {
      assert Fires(t.loop, s.loop.lastId + 1, EndThrottle);
      var id := s.loop.lastId + 1;
      forall x ensures Fires(t.loop, x, EndThrottle) == (x == id) {
        assert !Fires(s.loop, x, EndThrottle);
      }
    }
  }

  lemma EndKeepsSound(s: State, timer: int)
    requires Sound(s) && Fires(s.loop, timer, EndThrottle)
    ensures Sound(EndThrottleStep(s, timer))
  {
    var t := EndThrottleStep(s, timer);
    forall x ensures !Fires(t.loop, x, EndThrottle) {
      assert Fires(s.loop, x, EndThrottle) ==> x == timer;
    }
    forall x ensures Fires(t.loop, x, CheckTcam) == Fires(s.loop, x, CheckTcam) {
    }
  }

  lemma TimerKeepsSound(s: State, interval: I32)
    requires Sound(s)
    ensures Sound(SetTcamTimerStep(s, interval))
  {
    var t := SetTcamTimerStep(s, interval);
    assert Fires(s.loop, s.tcamTimer, CheckTcam);
    forall x ensures Fires(t.loop, x, EndThrottle) == Fires(s.loop, x, EndThrottle) {
    }
    forall x ensures Fires(t.loop, x, CheckTcam) <==> x == t.tcamTimer {
      assert Fires(s.loop, x, CheckTcam) ==> x == s.tcamTimer;
    }
  }

  lemma UpdateKeepsSound(s: State, id: int, b: Agent)
    requires Sound(s) && id in s.agents && WellFormed(b) && SameMember(s.agents[id], b)
    ensures Sound(s.(agents := s.agents[id := b]))
  {
    RegistryKeepsThrottle(s, s.(agents := s.agents[id := b]));
  }

  lemma WaitKeepsSound(s: State, until: nat)
    requires Sound(s) && Enabled(s, Wait(until))
    ensures Sound(s.(loop := s.loop.(now := until)))
  {
    RegistryKeepsThrottle(s, s.(loop := s.loop.(now := until)));
  }

  // States that differ only in what no invariant of the registry looks at.
  lemma SettingsKeepSound(s: State, t: State)
    requires Sound(s) && s.agents == t.agents && s.loop == t.loop
    requires s.sendSwitch == t.sendSwitch && s.tcamTimer == t.tcamTimer
    ensures Sound(t)
  {
    RegistryKeepsThrottle(s, t);
  }

  // An operator's message to one agent.
  ghost predicate Updates(s: State, e: Event) {
    (e.ToggleAction? || e.ModifyThresholds?) && e.id in s.agents
  }

  function Updated(a: Agent, e: Event): (b: Agent)
    requires WellFormed(a) && (e.ToggleAction? || e.ModifyThresholds?)
    ensures WellFormed(b) && SameMember(a, b)
  {
    if e.ToggleAction? then Toggled(a, e.action) else WithThresholds(a, e.packets, e.bytes)
  }

  lemma OperatorKeepsSound(s: State, e: Event)
    requires Sound(s) && Enabled(s, e)
    requires e.ToggleAction? || e.ModifyThresholds? || e.SetTcamLimits? || e.SetPortLimit? || e.Wait? || e.Traffic?
    ensures Sound(Step(s, e))
  {
    hide Armed, Throttled, Named, Toggled, WithThresholds;
    if Updates(s, e) {
      assert WellFormed(s.agents[e.id]);
      UpdateKeepsSound(s, e.id, Updated(s.agents[e.id], e));
    } else if e.Wait? {
      WaitKeepsSound(s, e.until);
    } else {
      SettingsKeepSound(s, Step(s, e));
    }
  }

  lemma ExpireKeepsSound(s: State, timer: int, order: seq<int>, noted: set<int>, free: nat)
    requires Sound(s) && Enabled(s, Expire(timer, order, noted, free))
    ensures Sound(ExpireStep(s, timer, order, noted, free))
  {
    hide PollStep, CheckTcamStep, EndThrottleStep, Armed, Throttled;
    FiringKeepsSound(s, timer);
    var t, fired := s.loop.timers[timer], s.(loop := Rearm(s.loop, timer));
    match t.handler {
      case PollAgents => PollKeepsSound(fired, t.arg, order, noted);
      case CheckTcam => CheckKeepsSound(fired, free);
      case EndThrottle => EndKeepsSound(fired, timer);
    }
  }

  // Every step of every run, whatever the switch answers.
  lemma StepKeepsSound(s: State, e: Event)
    requires Sound(s) && Enabled(s, e)
    ensures Sound(Step(s, e))
  {
    hide HelloStep, StopStep, ParamChangeStep, ExpireStep, SetTcamTimerStep, Armed, Throttled, Named;
    match e
    case Hello(c, order) => HelloKeepsSound(s, c, order);
    case Stop(id, order) => StopKeepsSound(s, id, order);
    case ParamChange(id, p, order) => ChangeKeepsSound(s, id, p, order);
    case Expire(timer, order, noted, free) => ExpireKeepsSound(s, timer, order, noted, free);
    case SetTcamTimer(interval) => TimerKeepsSound(s, interval);
    case _ => OperatorKeepsSound(s, e);
  }

  // ---------- the shared timers ----------

  // A polling timer fires, and its leader is there.
  predicate RoundStarts(s: State, e: Event) {
    && e.Expire? && e.timer in s.loop.timers && s.loop.timers[e.timer].handler == PollAgents
    && s.loop.timers[e.timer].arg in s.agents
  }

  function PolledGroup(s: State, e: Event): I32
    requires RoundStarts(s, e)
  {
    s.agents[s.loop.timers[e.timer].arg].pollTime
  }

  // The round gets to its leader, and the switch refuses an entry that the leader asks for.
  ghost predicate LosesLeader(s: State, e: Event)
    requires Enabled(s, e) && AllWellFormed(s.agents)
  {
    RoundStarts(s, e) && Drops(s.agents, s.world.hw, e.order, PolledGroup(s, e), s.loop.timers[e.timer].arg)
  }

  // Registry entries that look the same share timers the same way.
  lemma SameMembersShared(agents: Roster, more: Roster, loop: Loop)
    requires Shared(agents, loop) && agents.Keys == more.Keys
    requires forall id :: id in agents ==> SameMember(agents[id], more[id])
    ensures Shared(more, loop)
  {
    forall i, q ensures Leads(more, i, q) == Leads(agents, i, q) {
    }
    forall t ensures PollTimerOwned(more, loop, t) {
      assert PollTimerOwned(agents, loop, t);
    }
    forall i | i in more ensures Led(more, i) {
      assert Led(agents, i);
      var k :| Leads(agents, k, agents[i].pollTime);
      assert Leads(more, k, more[i].pollTime);
    }
  }

  lemma SamePollTimersShared(agents: Roster, loop: Loop, more: Loop)
    requires Shared(agents, loop) && Punctual(more)
    requires forall t :: Fires(loop, t, PollAgents) == Fires(more, t, PollAgents)
    requires forall t | Fires(loop, t, PollAgents) && t in more.timers ::
               more.timers[t].period == loop.timers[t].period && more.timers[t].arg == loop.timers[t].arg
    ensures Shared(agents, more)
  {
    forall id | id in agents && agents[id].timerId != 0 ensures ArmedFor(more, id, agents[id]) {
      assert Fires(loop, agents[id].timerId, PollAgents);
    }
    forall t ensures PollTimerOwned(agents, more, t) {
      assert PollTimerOwned(agents, loop, t) && Fires(loop, t, PollAgents) == Fires(more, t, PollAgents);
    }
    forall id ensures Led(agents, id) {
    }
  }

  lemma RoundKeepsShared(agents: Roster, more: Roster, loop: Loop, id: int, order: seq<int>)
    requires Shared(agents, loop) && Lost(agents, more, id) && IsOrder(order, agents)
    requires forall k :: k in more ==> SameMember(agents[k], more[k])
    ensures Shared(more, loop) <==> agents[id].timerId == 0
  {
    if agents[id].timerId == 0 {
      LeaveKeepsShared(agents, loop, order, id);
      SameMembersShared(agents - {id}, more, loop);
    } else {
      assert ArmedFor(loop, id, agents[id]);
      assert !PollTimerOwned(more, loop, agents[id].timerId);
    }
  }

  lemma OneLeader(agents: Roster, loop: Loop, id: int, leader: int, p: I32)
    requires Shared(agents, loop) && Leads(agents, leader, p)
    ensures Leads(agents, id, p) <==> id == leader
  {
  }

  lemma PollSharedIff(s: State, leader: int, order: seq<int>, noted: set<int>)
    requires Sound(s) && Shared(s.agents, s.loop) && IsOrder(order, s.agents)
    requires leader in s.agents && s.agents[leader].timerId != 0
    ensures var t := PollStep(s, leader, order, noted);
            Shared(t.agents, t.loop) <==> !Drops(s.agents, s.world.hw, order, s.agents[leader].pollTime, leader)
  {
    hide Shared, Reaches, PollGroup, Armed, Throttled, Named, Refuses;
    var t, p := PollStep(s, leader, order, noted), s.agents[leader].pollTime;
    DroppedIff(s.agents, s.world, order, p, s.limit, noted, leader);
    if id :| Lost(s.agents, t.agents, id) {
      DroppedIff(s.agents, s.world, order, p, s.limit, noted, id);
      RoundKeepsShared(s.agents, t.agents, s.loop, id, order);
      OneLeader(s.agents, s.loop, id, leader, p);
    } else {
      SameMembersShared(s.agents, t.agents, s.loop);
    }
  }

  lemma HelloKeepsShared(s: State, c: Config, order: seq<int>)
    requires Sound(s) && Enabled(s, Hello(c, order)) && Shared(s.agents, s.loop)
    ensures var t := HelloStep(s, c); Shared(t.agents, t.loop)
  {
    var st := StartFlow(NewAgent(c), s.world.hw, 0);
    if st.ok {
      JoinKeepsShared(s.agents, s.loop, c.monId, FirstSamples(st.agent, st.hw));
    }
  }

  lemma FiringKeepsShared(s: State, timer: int)
    requires Sound(s) && timer in s.loop.timers && s.loop.timers[timer].due <= s.loop.now && Shared(s.agents, s.loop)
    ensures Shared(s.agents, Rearm(s.loop, timer))
  {
    FiringKeepsSound(s, timer);
    SamePollTimersShared(s.agents, s.loop, Rearm(s.loop, timer));
  }

  lemma ExpireSharedIff(s: State, timer: int, order: seq<int>, noted: set<int>, free: nat)
    requires Sound(s) && Enabled(s, Expire(timer, order, noted, free)) && Shared(s.agents, s.loop)
    ensures var t := ExpireStep(s, timer, order, noted, free);
            Shared(t.agents, t.loop) <==> !LosesLeader(s, Expire(timer, order, noted, free))
  {
    hide PollStep, Shared, CheckTcamStep, EndThrottleStep, Drops;
    var fired := s.(loop := Rearm(s.loop, timer));
    FiringKeepsSound(s, timer);
    FiringKeepsShared(s, timer);
    match s.loop.timers[timer].handler
    case PollAgents =>
      TimerHasLeader(s, timer);
      PollSharedIff(fired, s.loop.timers[timer].arg, order, noted);
    case CheckTcam => CheckKeepsShared(fired, free);
    case EndThrottle => EndKeepsShared(fired, timer);
  }

  lemma TimerHasLeader(s: State, timer: int)
    requires Shared(s.agents, s.loop) && Fires(s.loop, timer, PollAgents)
    ensures s.loop.timers[timer].arg in s.agents && s.agents[s.loop.timers[timer].arg].timerId == timer != 0
    ensures s.loop.timers[timer].period == Delay(s.agents[s.loop.timers[timer].arg].pollTime)
  {
    assert PollTimerOwned(s.agents, s.loop, timer);
    assert timer != 0 && ArmedFor(s.loop, s.loop.timers[timer].arg, s.agents[s.loop.timers[timer].arg]);
  }

  lemma CheckKeepsShared(s: State, free: nat)
    requires Sound(s) && Shared(s.agents, s.loop)
    ensures var t := CheckTcamStep(s, free); t.agents == s.agents && Shared(t.agents, t.loop)
  {
    CheckKeepsSound(s, free);
    SamePollTimersShared(s.agents, s.loop, CheckTcamStep(s, free).loop);
  }

  lemma EndKeepsShared(s: State, timer: int)
    requires Sound(s) && Shared(s.agents, s.loop) && Fires(s.loop, timer, EndThrottle)
    ensures var t := EndThrottleStep(s, timer); t.agents == s.agents && Shared(t.agents, t.loop)
  {
    EndKeepsSound(s, timer);
    SamePollTimersShared(s.agents, s.loop, EndThrottleStep(s, timer).loop);
  }

  lemma TimerKeepsShared(s: State, interval: I32)
    requires Sound(s) && Shared(s.agents, s.loop)
    ensures var t := SetTcamTimerStep(s, interval); Shared(t.agents, t.loop)
  {
    TimerKeepsSound(s, interval);
    assert Fires(s.loop, s.tcamTimer, CheckTcam);
    SamePollTimersShared(s.agents, s.loop, SetTcamTimerStep(s, interval).loop);
  }

  lemma WaitKeepsShared(s: State, until: nat)
    requires Sound(s) && Enabled(s, Wait(until)) && Shared(s.agents, s.loop)
    ensures Shared(s.agents, s.loop.(now := until))
  {
    SamePollTimersShared(s.agents, s.loop, s.loop.(now := until));
  }

  lemma OperatorKeepsShared(s: State, e: Event)
    requires Sound(s) && Enabled(s, e) && Shared(s.agents, s.loop)
    requires e.ToggleAction? || e.ModifyThresholds? || e.SetTcamLimits? || e.SetPortLimit? || e.Wait? || e.Traffic?
    ensures var t := Step(s, e); Shared(t.agents, t.loop)
  {
    hide Shared, Toggled, WithThresholds, Armed, Throttled;
    if Updates(s, e) {
      assert Step(s, e).agents == s.agents[e.id := Updated(s.agents[e.id], e)];
      SameMembersShared(s.agents, Step(s, e).agents, s.loop);
    } else if e.Wait? {
      WaitKeepsShared(s, e.until);
    }
  }

  // A step keeps the sharing exactly when no entry is refused to the leader of the round.
  lemma StepSharedIff(s: State, e: Event)
    requires Sound(s) && Enabled(s, e) && Shared(s.agents, s.loop)
    ensures var t := Step(s, e); Shared(t.agents, t.loop) <==> !LosesLeader(s, e)
  {
    hide HelloStep, ExpireStep, SetTcamTimerStep, Shared, Sound, Drops;
    match e
    case Hello(c, order) => HelloKeepsShared(s, c, order);
    case Stop(id, order) => LeaveKeepsShared(s.agents, s.loop, order, id);
    case ParamChange(id, p, order) => ChangeKeepsShared(s.agents, s.loop, order, id, p);
    case Expire(timer, order, noted, free) => ExpireSharedIff(s, timer, order, noted, free);
    case SetTcamTimer(interval) => TimerKeepsShared(s, interval);
    case _ => OperatorKeepsShared(s, e);
  }

  // ---------- one group's leader ----------

  // A round of the group, whoever's timer started it, drops its leader and leaves others
  // behind.
  ghost predicate Strands(s: State, e: Event, p: I32)
    requires Enabled(s, e) && AllWellFormed(s.agents)
  {
    && RoundStarts(s, e) && PolledGroup(s, e) == p
    && exists l, k :: Leads(s.agents, l, p) && Drops(s.agents, s.world.hw, e.order, p, l)
                      && k in s.agents && s.agents[k].pollTime == p && k != l
  }

  lemma SameMembersLed(agents: Roster, more: Roster, p: I32)
    requires agents.Keys == more.Keys && OneLeaderEach(agents)
    requires forall id :: id in agents ==> SameMember(agents[id], more[id])
    ensures OneLeaderEach(more) && (GroupLed(agents, p) ==> GroupLed(more, p))
  {
    forall i, q ensures Leads(more, i, q) == Leads(agents, i, q) {
    }
    if k :| Leads(agents, k, p) {
      assert Leads(more, k, p);
    }
  }

  lemma LostOneLeader(agents: Roster, more: Roster, id: int)
    requires OneLeaderEach(agents) && Lost(agents, more, id)
    requires forall k :: k in more ==> SameMember(agents[k], more[k])
    ensures forall i, q :: Leads(more, i, q) == (i != id && Leads(agents, i, q))
    ensures OneLeaderEach(more)
  {
    forall i, q ensures Leads(more, i, q) == (i != id && Leads(agents, i, q)) {
      assert i in more.Keys <==> i in agents.Keys && i != id;
    }
  }

  lemma LostLedIff(agents: Roster, more: Roster, id: int, p: I32)
    requires OneLeaderEach(agents) && GroupLed(agents, p) && Lost(agents, more, id)
    requires forall k :: k in more ==> SameMember(agents[k], more[k])
    ensures GroupLed(more, p)
            <==> !(Leads(agents, id, p) && exists k :: k in agents && agents[k].pollTime == p && k != id)
  {
    LostOneLeader(agents, more, id);
    if Leads(agents, id, p) {
      if k :| k in agents && agents[k].pollTime == p && k != id {
        assert k in more.Keys && more[k].pollTime == p;
      }
    } else if k :| Leads(agents, k, p) {
      assert Leads(more, k, p);
    }
  }

  lemma RoundLedIff(s: State, e: Event, p: I32)
    requires Sound(s) && Enabled(s, e) && RoundStarts(s, e) && OneLeaderEach(s.agents)
    ensures OneLeaderEach(Step(s, e).agents)
    ensures GroupLed(s.agents, p) ==> (GroupLed(Step(s, e).agents, p) <==> !Strands(s, e, p))
  {
    hide PollGroup, Reaches, Refuses, Armed, Throttled, Named, GroupLed, OneLeaderEach;
    var t, q := Step(s, e), PolledGroup(s, e);
    forall id | id in s.agents ensures id !in t.agents <==> Drops(s.agents, s.world.hw, e.order, q, id) {
      DroppedIff(s.agents, s.world, e.order, q, s.limit, e.noted, id);
    }
    if id :| Lost(s.agents, t.agents, id) {
      LostOneLeader(s.agents, t.agents, id);
      assert id !in t.agents.Keys && forall k :: k in s.agents && k != id ==> k in t.agents.Keys;
      if GroupLed(s.agents, p) {
        LostLedIff(s.agents, t.agents, id, p);
      }
    } else {
      SameMembersLed(s.agents, t.agents, p);
    }
  }

  // In every state each poll time has at most one leader; and a step takes the leader from
  // a group that stays in use exactly when a round of that group strands it.
  lemma StepLedIff(s: State, e: Event, p: I32)
    requires Sound(s) && Enabled(s, e) && OneLeaderEach(s.agents)
    ensures OneLeaderEach(Step(s, e).agents)
    ensures GroupLed(s.agents, p) ==> (GroupLed(Step(s, e).agents, p) <==> !Strands(s, e, p))
  {
    hide Armed, Throttled, Named, GroupLed, OneLeaderEach, Leave, ChangePollTime, Join, StartFlow, Drops;
    if RoundStarts(s, e) {
      RoundLedIff(s, e, p);
    } else {
      match e
      case Hello(c, order) =>
        var st := StartFlow(NewAgent(c), s.world.hw, 0);
        JoinKeepsLed(s.agents, s.loop, c.monId, FirstSamples(st.agent, st.hw), p);
      case Stop(id, order) => LeaveKeepsLed(s.agents, s.loop, order, id, p);
      case ParamChange(id, q, order) => ChangeKeepsLed(s.agents, s.loop, order, id, q, p);
      case _ =>
        OtherKeepsMembers(s, e);
        SameMembersLed(s.agents, Step(s, e).agents, p);
    }
  }

  // The events that leave the registry alone.
  lemma OtherKeepsMembers(s: State, e: Event)
    requires Sound(s) && Enabled(s, e) && !e.Hello? && !e.Stop? && !e.ParamChange? && !RoundStarts(s, e)
    ensures var t := Step(s, e);
            t.agents.Keys == s.agents.Keys && forall id :: id in s.agents ==> SameMember(s.agents[id], t.agents[id])
  {
    hide Armed, Throttled, Named, Toggled, WithThresholds, TimerStart, TimerEnd, PollGroup;
    if Updates(s, e) {
      assert Step(s, e).agents == s.agents[e.id := Updated(s.agents[e.id], e)];
    }
  }
}
