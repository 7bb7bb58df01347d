// When timers fire: on time, and exactly their period apart.
module Timers {
  import opened Words
  import opened Switch
  import opened Agents
  import opened EventLoop
  import opened Registry
  import opened Daemon
  import opened Invariants
  import opened Runs
  import opened Polling

  // A poll time as the loop takes it, in milliseconds; it is unsigned there.
  function Milliseconds(p: int): int {
    if p >= 0 then p else p + 0x1_0000_0000_0000_0000
  }

  lemma DelayIsMilliseconds(p: I32)
    ensures Delay(p) == Milliseconds(p)
  {
  }

  // ---------- one step ----------

  // A timer fires at the very time it is due.
  lemma FiresWhenDue(s: State, e: Event)
    requires Sound(s) && Enabled(s, e) && e.Expire?
    ensures s.loop.now == s.loop.timers[e.timer].due
  {
  }

  ghost predicate SameButDue(a: Timer, b: Timer) {
    a == b.(due := a.due)
  }

  // An old timer is as it was, except that firing makes it due one period later.
  ghost predicate Ticks(l: Loop, m: Loop, t: int, fires: bool) {
    && t in l.timers && t in m.timers && SameButDue(l.timers[t], m.timers[t])
    && m.timers[t].due == l.timers[t].due + if fires then l.timers[t].period else 0
  }

  // A new one is due one period from now.
  ghost predicate Starts(l: Loop, m: Loop, t: int) {
    t in m.timers && m.timers[t].due == l.now + m.timers[t].period
  }

  ghost predicate LoopSteps(l: Loop, m: Loop, firing: int) {
    && l.lastId <= m.lastId && m.now == l.now
    && (forall t :: t in m.timers && t <= l.lastId ==> Ticks(l, m, t, t == firing))
    && (forall t :: t in m.timers && t > l.lastId ==> Starts(l, m, t))
  }

  lemma LeaveSteps(agents: Roster, loop: Loop, order: seq<int>, id: int)
    requires id in agents && Punctual(loop)
    ensures LoopSteps(loop, Leave(agents, loop, order, id).loop, 0)
  {
  }

  lemma JoinSteps(agents: Roster, loop: Loop, id: int, a: Agent)
    requires Punctual(loop)
    ensures LoopSteps(loop, Join(agents, loop, id, a).loop, 0)
  {
  }

  lemma SameLoop(l: Loop)
    requires Punctual(l)
    ensures LoopSteps(l, l, 0)
  {
  }

  lemma ChangeSteps(agents: Roster, loop: Loop, order: seq<int>, id: int, p: I32)
    requires id in agents && Armed(agents, loop)
    ensures LoopSteps(loop, ChangePollTime(agents, loop, order, id, p).loop, 0)
  {
    hide Leave, Join;
    var left := Leave(agents, loop, order, id);
    var a := agents[id].(timerId := 0, pollTime := p);
    LeaveSteps(agents, loop, order, id);
    LeaveKeepsArmed(agents, loop, order, id);
    JoinSteps(left.agents, left.loop, id, a);
    ChangeKeepsArmed(agents, loop, order, id, p);
    StepsTwice(loop, left.loop, ChangePollTime(agents, loop, order, id, p).loop);
  }

  lemma StepsTwice(l: Loop, m: Loop, n: Loop)
    requires LoopSteps(l, m, 0) && LoopSteps(m, n, 0) && Punctual(m) && Punctual(n)
    ensures LoopSteps(l, n, 0)
  {
    forall t | t in n.timers && t <= l.lastId ensures Ticks(l, n, t, false) {
      assert t != 0 && Ticks(m, n, t, false) && Ticks(l, m, t, false);
    }
    forall t | t in n.timers && t > l.lastId ensures Starts(l, n, t) {
      assert t <= m.lastId ==> Ticks(m, n, t, false) && Starts(l, m, t);
    }
  }

  lemma ExpireSteps(s: State, e: Event)
    requires Sound(s) && Enabled(s, e) && e.Expire?
    ensures LoopSteps(s.loop, Step(s, e).loop, e.timer)
  {
    hide PollGroup, Throttled, Named;
  }

  ghost function FiringOf(e: Event): int {
    if e.Expire? then e.timer else 0
  }

  lemma StepLoops(s: State, e: Event)
    requires Sound(s) && Enabled(s, e) && !e.Wait?
    ensures LoopSteps(s.loop, Step(s, e).loop, FiringOf(e))
  {
    hide LoopSteps, Throttled, Named, Leave, Join, ChangePollTime, StartFlow, ExpireStep, SetTcamTimerStep;
    SameLoop(s.loop);
    match e
    case Hello(c, order) =>
      var st := StartFlow(NewAgent(c), s.world.hw, 0);
      JoinSteps(s.agents, s.loop, c.monId, FirstSamples(st.agent, st.hw));
    case Stop(id, order) => LeaveSteps(s.agents, s.loop, order, id);
    case ParamChange(id, p, order) => ChangeSteps(s.agents, s.loop, order, id, p);
    case Expire(timer, order, noted, free) => ExpireSteps(s, e);
    case SetTcamTimer(interval) => ResetSteps(s, interval);
    case _ =>
  }

  lemma ResetSteps(s: State, interval: I32)
    requires Sound(s)
    ensures LoopSteps(s.loop, SetTcamTimerStep(s, interval).loop, 0)
  {
  }

  // ---------- runs ----------

  ghost predicate FiresAtStep(es: seq<Event>, k: nat, t: int) {
    k < |es| && es[k].Expire? && es[k].timer == t
  }

  ghost function Firings(es: seq<Event>, t: int, i: nat, j: nat): nat {
    if j <= i then 0 else Firings(es, t, i, j - 1) + if FiresAtStep(es, j - 1, t) then 1 else 0
  }

  // The timer t of state j is that of state i, and has become due one period later for
  // every firing in between.
  ghost predicate SameTimer(ss: seq<State>, es: seq<Event>, t: int, i: nat, j: nat)
    requires i < |ss| && j < |ss|
  {
    && t in ss[i].loop.timers && t in ss[j].loop.timers && SameButDue(ss[i].loop.timers[t], ss[j].loop.timers[t])
    && ss[j].loop.timers[t].due == ss[i].loop.timers[t].due + Firings(es, t, i, j) * ss[i].loop.timers[t].period
  }

  lemma OneMoreFiring(n: nat, period: nat)
    ensures (n + 1) * period == n * period + period
  {
  }

  lemma {:induction false} TimerRuns(ss: seq<State>, es: seq<Event>, t: int, i: nat, j: nat)
    requires IsRun(ss, es) && i <= j < |ss| && t <= ss[i].loop.lastId && t in ss[j].loop.timers
    ensures ss[i].loop.lastId <= ss[j].loop.lastId && SameTimer(ss, es, t, i, j)
  {
    hide Step, Sound, Enabled, Boot;
    if i < j {
      var k := j - 1;
      RunIsSound(ss, es, k);
      StepOfRun(ss, es, k);
      IdsGrow(ss, es, i, k);
      RunIsSound(ss, es, j);
      SoundIdsArePositive(ss[j], t);
      if es[k].Wait? {
        WaitKeepsTimers(ss[k], es[k]);
      } else {
        StepLoops(ss[k], es[k]);
        assert Ticks(ss[k].loop, ss[j].loop, t, t == FiringOf(es[k]));
      }
      TimerRuns(ss, es, t, i, k);
      FiringsOf(es, t, k);
      OneMoreFiring(Firings(es, t, i, k), ss[i].loop.timers[t].period);
    }
  }

  lemma FiringsOf(es: seq<Event>, t: int, k: nat)
    requires k < |es| && t != 0
    ensures FiresAtStep(es, k, t) <==> t == FiringOf(es[k])
  {
  }

  lemma SoundIdsArePositive(s: State, t: int)
    requires Sound(s)
    ensures t in s.loop.timers ==> 0 < t <= s.loop.lastId
  {
  }

  lemma WaitKeepsTimers(s: State, e: Event)
    requires AllWellFormed(s.agents) && Enabled(s, e) && e.Wait?
    ensures Step(s, e).loop.timers == s.loop.timers && Step(s, e).loop.lastId == s.loop.lastId
  {
  }

  lemma {:induction false} IdsGrow(ss: seq<State>, es: seq<Event>, i: nat, j: nat)
    requires IsRun(ss, es) && i <= j < |ss|
    ensures ss[i].loop.lastId <= ss[j].loop.lastId
  {
    hide Step, Sound, Enabled, Boot;
    if i < j {
      IdsGrow(ss, es, i, j - 1);
      RunIsSound(ss, es, j - 1);
      StepOfRun(ss, es, j - 1);
      if es[j - 1].Wait? {
        WaitKeepsTimers(ss[j - 1], es[j - 1]);
      } else {
        StepLoops(ss[j - 1], es[j - 1]);
      }
    }
  }

  // Every firing of a timer comes exactly as many periods after an earlier one as it has
  // fired since.
  lemma FiringsApart(ss: seq<State>, es: seq<Event>, t: int, i: nat, j: nat)
    requires IsRun(ss, es) && i <= j && FiresAtStep(es, i, t) && FiresAtStep(es, j, t)
    ensures j < |ss| && t in ss[i].loop.timers
    ensures ss[j].loop.now == ss[i].loop.now + Firings(es, t, i, j) * ss[i].loop.timers[t].period
  {
    hide Step, Sound, IsRun, Boot;
    assert |ss| == |es| + 1 by {
      StatesOfRun(ss, es);
    }
    StepOfRun(ss, es, i);
    StepOfRun(ss, es, j);
    RunIsSound(ss, es, i);
    RunIsSound(ss, es, j);
    FiresWhenDue(ss[i], es[i]);
    FiresWhenDue(ss[j], es[j]);
    SoundIdsArePositive(ss[i], t);
    TimerRuns(ss, es, t, i, j);
  }

  lemma {:induction false} NoFirings(es: seq<Event>, t: int, i: nat, j: nat)
    requires i <= j && forall k: nat | i <= k < j :: !FiresAtStep(es, k, t)
    ensures Firings(es, t, i, j) == 0
  {
    if i < j {
      NoFirings(es, t, i, j - 1);
    }
  }

  lemma {:induction false} FiringsAdd(es: seq<Event>, t: int, i: nat, k: nat, j: nat)
    requires i <= k <= j
    ensures Firings(es, t, i, j) == Firings(es, t, i, k) + Firings(es, t, k, j)
  {
    if k < j {
      FiringsAdd(es, t, i, k, j - 1);
    }
  }

  // Two successive firings are one period apart.
  lemma SuccessiveFirings(ss: seq<State>, es: seq<Event>, t: int, i: nat, j: nat)
    requires IsRun(ss, es) && i < j && FiresAtStep(es, i, t) && FiresAtStep(es, j, t)
    requires forall k: nat | i < k < j :: !FiresAtStep(es, k, t)
    ensures j < |ss| && t in ss[i].loop.timers
    ensures ss[j].loop.now == ss[i].loop.now + ss[i].loop.timers[t].period
  {
    hide IsRun;
    FiringsApart(ss, es, t, i, j);
    NoFirings(es, t, i + 1, j);
    FiringsAdd(es, t, i, i + 1, j);
    assert Firings(es, t, i, i + 1) == 1;
  }

  lemma NewStarts(s: State, e: Event, t: int)
    requires Sound(s) && Enabled(s, e) && t > s.loop.lastId && t in Step(s, e).loop.timers
    ensures Starts(s.loop, Step(s, e).loop, t)
  {
    hide Step, Enabled, Armed, Throttled, Named;
    if e.Wait? {
      WaitKeepsTimers(s, e);
      SoundIdsArePositive(s, t);
    } else {
      StepLoops(s, e);
    }
  }

  // And the first comes one period after the timer is started, at step i.
  lemma FirstFiring(ss: seq<State>, es: seq<Event>, t: int, i: nat, j: nat)
    requires IsRun(ss, es) && i < j && i < |es| && FiresAtStep(es, j, t)
    requires ss[i].loop.lastId < t && t in ss[i + 1].loop.timers
    requires forall k: nat | i < k < j :: !FiresAtStep(es, k, t)
    ensures ss[j].loop.now == ss[i].loop.now + ss[i + 1].loop.timers[t].period
  {
    hide Step, Sound, IsRun, Boot;
    StatesOfRun(ss, es);
    StepOfRun(ss, es, i);
    StepOfRun(ss, es, j);
    RunIsSound(ss, es, i);
    RunIsSound(ss, es, i + 1);
    RunIsSound(ss, es, j);
    SoundIdsArePositive(ss[i + 1], t);
    FiresWhenDue(ss[j], es[j]);
    NewStarts(ss[i], es[i], t);
    TimerRuns(ss, es, t, i + 1, j);
    NoFirings(es, t, i + 1, j);
  }

  // ---------- the turns of a group ----------

  lemma LeaderPeriod(s: State, l: int, p: I32)
    requires Sound(s) && Leads(s.agents, l, p)
    ensures s.agents[l].timerId in s.loop.timers && s.loop.timers[s.agents[l].timerId].period == Milliseconds(p)
  {
    DelayIsMilliseconds(p);
    assert ArmedFor(s.loop, l, s.agents[l]);
  }

  // Who leads `more` with an old timer led `agents` with it.
  ghost predicate LeadsOn(agents: Roster, more: Roster, lastId: int) {
    forall l, p :: Leads(more, l, p) && more[l].timerId <= lastId ==> Leads(agents, l, p) && agents[l].timerId == more[l].timerId
  }

  lemma JoinLeadsOn(agents: Roster, loop: Loop, id: int, a: Agent)
    requires id !in agents && a.timerId == 0
    ensures var r := Join(agents, loop, id, a); LeadsOn(agents, r.agents, loop.lastId) && loop.lastId <= r.loop.lastId
  {
  }

  lemma LeaveLeadsOn(agents: Roster, loop: Loop, order: seq<int>, id: int)
    requires id in agents
    ensures var r := Leave(agents, loop, order, id); LeadsOn(agents, r.agents, loop.lastId) && loop.lastId <= r.loop.lastId
  {
  }

  lemma ChangeLeadsOn(agents: Roster, loop: Loop, order: seq<int>, id: int, q: I32)
    requires id in agents
    ensures LeadsOn(agents, ChangePollTime(agents, loop, order, id, q).agents, loop.lastId)
  {
    hide Leave, Join;
    LeaveLeadsOn(agents, loop, order, id);
    LeaveRetimes(agents, loop, order, id);
    var left := Leave(agents, loop, order, id);
    JoinLeadsOn(left.agents, left.loop, id, agents[id].(timerId := 0, pollTime := q));
  }

  // Who holds an old timer held it before.
  lemma LedBefore(s: State, e: Event)
    requires Sound(s) && Enabled(s, e)
    ensures LeadsOn(s.agents, Step(s, e).agents, s.loop.lastId)
  {
    hide Throttled, Named, Armed, PollGroup, StartFlow, Toggled, WithThresholds, Leave, Join, ChangePollTime, LeadsOn, AllWellFormed;
    match e
    case Hello(c, order) =>
      var st := StartFlow(NewAgent(c), s.world.hw, 0);
      JoinLeadsOn(s.agents, s.loop, c.monId, FirstSamples(st.agent, st.hw));
      SameLeadsOn(s.agents, s.agents, s.loop.lastId);
    case Stop(id, order) => LeaveLeadsOn(s.agents, s.loop, order, id);
    case ParamChange(id, q, order) => ChangeLeadsOn(s.agents, s.loop, order, id, q);
    case Expire(timer, order, noted, free) => PollLeadsOn(s, e);
    case _ =>
      OtherKeepsMembers(s, e);
      SameLeadsOn(s.agents, Step(s, e).agents, s.loop.lastId);
  }

  lemma SameLeadsOn(agents: Roster, more: Roster, lastId: int)
    requires forall k :: k in more ==> k in agents && SameMember(agents[k], more[k])
    ensures LeadsOn(agents, more, lastId)
  {
  }

  lemma PollLeadsOn(s: State, e: Event)
    requires Sound(s) && Enabled(s, e) && e.Expire?
    ensures LeadsOn(s.agents, Step(s, e).agents, s.loop.lastId)
  {
    hide Throttled, Named, Armed, LeadsOn, PollOne;
    SameLeadsOn(s.agents, Step(s, e).agents, s.loop.lastId);
  }

  lemma {:induction false} LedSince(ss: seq<State>, es: seq<Event>, l: int, p: I32, i: nat, j: nat)
    requires IsRun(ss, es) && i <= j < |ss| && Leads(ss[j].agents, l, p) && ss[j].agents[l].timerId <= ss[i].loop.lastId
    ensures Leads(ss[i].agents, l, p) && ss[i].agents[l].timerId == ss[j].agents[l].timerId
  {
    hide Step, Sound, Enabled, Boot;
    if i < j {
      RunIsSound(ss, es, j - 1);
      StepOfRun(ss, es, j - 1);
      IdsGrow(ss, es, i, j - 1);
      LedBefore(ss[j - 1], es[j - 1]);
      LedSince(ss, es, l, p, i, j - 1);
    }
  }

  // A timer that is started after state i is due a period later at the earliest.
  lemma {:induction false} NewTimerDue(ss: seq<State>, es: seq<Event>, t: int, i: nat, j: nat)
    requires IsRun(ss, es) && i <= j < |ss| && t in ss[j].loop.timers && ss[i].loop.lastId < t
    ensures ss[j].loop.timers[t].due >= ss[i].loop.now + ss[j].loop.timers[t].period
  {
    hide Step, Sound, Enabled, Boot;
    RunIsSound(ss, es, j);
    SoundIdsArePositive(ss[j], t);
    if i < j {
      var k := j - 1;
      RunIsSound(ss, es, k);
      StepOfRun(ss, es, k);
      TimeFlows(ss, es, i, k);
      if es[k].Wait? {
        WaitKeepsTimers(ss[k], es[k]);
        NewTimerDue(ss, es, t, i, k);
      } else {
        StepLoops(ss[k], es[k]);
        if t <= ss[k].loop.lastId {
          assert Ticks(ss[k].loop, ss[j].loop, t, t == FiringOf(es[k]));
          NewTimerDue(ss, es, t, i, k);
        } else {
          assert Starts(ss[k].loop, ss[j].loop, t);
        }
      }
    }
  }

  // Two rounds that the leaders of a group start are at least its poll time apart, whatever
  // hand-overs and losses come between them.
  lemma RoundsApart(ss: seq<State>, es: seq<Event>, p: I32, i: nat, j: nat)
    requires IsRun(ss, es) && i < j < |es| && LeaderFires(ss[i], es[i], p) && LeaderFires(ss[j], es[j], p)
    ensures ss[j].loop.now >= ss[i].loop.now + Milliseconds(p)
  {
    hide Step, Sound, IsRun, Boot, OneLeaderEach, Enabled;
    StatesOfRun(ss, es);
    StepOfRun(ss, es, j);
    RunIsSound(ss, es, j);
    var l :| Leads(ss[j].agents, l, p) && ss[j].agents[l].timerId == es[j].timer;
    var t := es[j].timer;
    LeaderPeriod(ss[j], l, p);
    FiresWhenDue(ss[j], es[j]);
    if t > ss[i].loop.lastId {
      NewTimerDue(ss, es, t, i, j);
    } else {
      LedSince(ss, es, l, p, i, j);
      RunHasOneLeaderEach(ss, es, i);
      SameLeader(ss[i], es[i], l, p);
      TimerRuns(ss, es, t, i, j);
      FiringsApart(ss, es, t, i, j);
      FiringsAdd(es, t, i, i + 1, j);
      assert Firings(es, t, i, i + 1) == 1;
      AtLeastOnePeriod(Firings(es, t, i, j), ss[i].loop.timers[t].period);
    }
  }

  lemma SameLeader(s: State, e: Event, l: int, p: I32)
    requires OneLeaderEach(s.agents) && Leads(s.agents, l, p) && LeaderFires(s, e, p)
    ensures s.agents[l].timerId == e.timer
  {
  }

  lemma AtLeastOnePeriod(n: nat, period: nat)
    requires n >= 1
    ensures n * period >= period
  {
  }

  // So are two turns of an agent at poll time p that no stray timer starts: it is polled at
  // most once in p milliseconds.
  lemma TurnsApart(ss: seq<State>, es: seq<Event>, id: int, p: I32, i: nat, j: nat)
    requires IsRun(ss, es) && i < j < |es| && id in ss[i].agents && id in ss[j].agents
    requires ss[i].agents[id].pollTime == p && ss[j].agents[id].pollTime == p
    requires !StrayFires(ss[i], es[i], p) && !StrayFires(ss[j], es[j], p)
    ensures PolledAt(ss, es, id, i) && PolledAt(ss, es, id, j) ==> ss[j].loop.now >= ss[i].loop.now + Milliseconds(p)
  {
    hide Step, IsRun, Polls, LeaderFires, StrayFires;
    StatesOfRun(ss, es);
    RunIsSound(ss, es, i);
    RunIsSound(ss, es, j);
    if PolledAt(ss, es, id, i) && PolledAt(ss, es, id, j) {
      PollsIffGroupFires(ss[i], es[i], id);
      PollsIffGroupFires(ss[j], es[j], id);
      RoundsApart(ss, es, p, i, j);
    }
  }

  // ---------- the check timer ----------

  ghost predicate ChecksAt(s: State) {
    && s.tcamTimer in s.loop.timers && s.loop.timers[s.tcamTimer].handler == CheckTcam
    && s.loop.timers[s.tcamTimer].period == Milliseconds(s.tcamInterval)
  }

  lemma StepChecks(s: State, e: Event)
    requires Sound(s) && Enabled(s, e) && ChecksAt(s)
    ensures ChecksAt(Step(s, e))
    ensures e.SetTcamTimer? ==> Step(s, e).tcamInterval == e.interval
    ensures !e.SetTcamTimer? ==> Step(s, e).tcamInterval == s.tcamInterval
  {
    hide StartFlow, PollGroup, Toggled, WithThresholds, Leave, Join, ChangePollTime, AllWellFormed;
    StepKeepsSound(s, e);
    SoundChecks(Step(s, e));
    if e.SetTcamTimer? {
      DelayIsMilliseconds(e.interval);
    } else if !e.Wait? {
      StepLoops(s, e);
      CheckTimerStays(s, e);
      assert Ticks(s.loop, Step(s, e).loop, s.tcamTimer, s.tcamTimer == FiringOf(e));
    }
  }

  lemma SoundChecks(s: State)
    requires Sound(s)
    ensures s.tcamTimer in s.loop.timers && s.loop.timers[s.tcamTimer].handler == CheckTcam && 0 < s.tcamTimer <= s.loop.lastId
  {
    assert Fires(s.loop, s.tcamTimer, CheckTcam);
  }

  lemma CheckTimerStays(s: State, e: Event)
    requires Sound(s) && Enabled(s, e) && !e.SetTcamTimer?
    ensures Step(s, e).tcamTimer == s.tcamTimer <= s.loop.lastId
  {
    SoundChecks(s);
    hide Armed, Throttled, Named, StartFlow, PollGroup, Toggled, WithThresholds, Leave, Join, ChangePollTime;
  }

  // At boot nothing is installed, nobody is polled and MON_SWITCH is allowed; the one timer
  // checks the TCAM in a minute.
  lemma BootState(hw: Hw)
    ensures var s := Boot(hw);
            && s.agents == map[] && s.world.sent == [] && s.world.hw.entries == map[] && s.world.hw.stats == map[]
            && s.loop.now == 0 && s.loop.timers == map[s.tcamTimer := Timer(CheckTcam, 60000, 0, 60000)] && s.sendSwitch
  {
  }

  // In every state the check timer's period is the interval last configured, a minute at first.
  lemma {:induction false} ChecksEveryInterval(ss: seq<State>, es: seq<Event>, i: nat)
    requires IsRun(ss, es) && i < |ss|
    ensures ChecksAt(ss[i])
    ensures i == 0 ==> ss[i].tcamInterval == 60000
  {
    hide Step, Sound, Enabled;
    if i > 0 {
      ChecksEveryInterval(ss, es, i - 1);
      RunIsSound(ss, es, i - 1);
      StepOfRun(ss, es, i - 1);
      StepChecks(ss[i - 1], es[i - 1]);
    }
  }
}
