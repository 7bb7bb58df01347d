// A run that loses a leader, strands its group, and has a stray timer poll another group.
module LostLeader {
  import opened Switch
  import opened Agents
  import opened Refusals
  import opened EventLoop
  import opened Registry
  import opened Rounds
  import opened Daemon
  import opened Invariants
  import opened Runs
  import opened Polling

  const WATCH: Row := Row(true, FlowKey(1, 0, 2, 0), 0, 0, 0, [GotoNextState], 2)
  const NARROW: Row := Row(true, FlowKey(3, 0, 4, 0), 0, 0, 0, [], NO_NEXT_STATE)
  const IDLE: Row := Row(false, FlowKey(0, 0, 0, 0), 0, 0, 0, [], NO_NEXT_STATE)
  const LEADER: Config := Config(1, 10, FP, 0, 0, 0, [WATCH, NARROW], false, false, false)
  const FOLLOWER: Config := Config(2, 10, FP, 0, 0, 0, [IDLE], false, false, false)
  const NEWCOMER: Config := Config(1, 20, FP, 0, 0, 0, [IDLE], false, false, false)

  // One entry is granted, all others are refused.
  function SmallSwitch(): Hw {
    Hw(map[], map[], map[], 0, 0, n => if n == 1 then Created else CreateRefused(INTERNAL), n => Attached(NoCounters))
  }

  ghost predicate Granted(hw: Hw) {
    hw.lastEntry == 1 && hw.entryFate == SmallSwitch().entryFate
  }

  // The leader of poll time ten, with a transition to make.
  ghost predicate Watching(a: Agent) {
    WellFormed(a) && a.pollTime == 10 && a.timerId == 2 && Installs(a) == 1
  }

  ghost predicate FirstTimers(l: Loop, due: nat) {
    && l.timers.Keys == {1, 2} && l.lastId == 2
    && l.timers[1].due == 60000 && l.timers[2] == Timer(PollAgents, 10, 1, due)
  }

  // The step can be taken, and keeps the state sound.
  ghost predicate Takes(s: State, e: Event) {
    Enabled(s, e) && AllWellFormed(s.agents) && Moves(s, e, Step(s, e)) && Sound(Step(s, e))
  }

  lemma CanTake(s: State, e: Event)
    requires Sound(s) && Enabled(s, e)
    ensures Takes(s, e)
  {
    hide Armed, Throttled, Named, Step;
    StepKeepsSound(s, e);
  }

  // ---------- the two members join ----------

  lemma LeaderStarts()
    ensures var st := StartFlow(NewAgent(LEADER), SmallSwitch(), 0);
            && st.ok && Granted(st.hw)
            && st.agent.rows == LEADER.rows && st.agent.currentState == 1 && st.agent.pollTime == 10
            && st.agent.intervalCount == 0 && !st.agent.notifyNow && !st.agent.notifyAfterN && !st.agent.notifyLinkUtil
  {
  }

  lemma AsksForOne(a: Agent)
    requires a.rows == LEADER.rows && a.currentState == 1 && a.intervalCount == 0
    requires !a.notifyNow && !a.notifyAfterN && !a.notifyLinkUtil
    ensures WellFormed(a) && Installs(a) == 1
  {
    assert CurrentRow(a) == WATCH;
    assert GotoNextState in WATCH.actions && WATCH.actions[..0] == [];
    assert GotoCount([GotoNextState]) == 1;
  }

  lemma LeaderJoins(s: State)
    requires s == Boot(SmallSwitch()) && Sound(s)
    ensures Takes(s, Hello(LEADER, []))
    ensures var t := Step(s, Hello(LEADER, []));
            t.agents.Keys == {1} && Watching(t.agents[1]) && Granted(t.world.hw) && FirstTimers(t.loop, 10) && t.loop.now == 0
  {
    hide StartFlow, Installs, SmallSwitch, Armed, Throttled, Named, Takes;
    assert GoodTable(LEADER.rows) && !HasLeader(s.agents, 10) && s.world.hw == SmallSwitch() by {
      NothingInstalled();
    }
    LeaderStarts();
    CanTake(s, Hello(LEADER, []));
    AsksForOne(Step(s, Hello(LEADER, [])).agents[1]);
  }

  lemma NothingInstalled()
    ensures Boot(SmallSwitch()).world.hw == SmallSwitch()
  {
  }

  // Both members, before the first poll.
  ghost predicate Paired(s: State) {
    && s.agents.Keys == {1, 2} && Watching(s.agents[1]) && s.agents[2].pollTime == 10
    && Granted(s.world.hw) && FirstTimers(s.loop, 10)
  }

  lemma FollowerJoins(s: State)
    requires Sound(s) && s.agents.Keys == {1} && Watching(s.agents[1]) && Granted(s.world.hw) && FirstTimers(s.loop, 10)
    ensures Takes(s, Hello(FOLLOWER, [1]))
    ensures var t := Step(s, Hello(FOLLOWER, [1])); Paired(t) && t.loop.now == s.loop.now
  {
    hide Installs, Granted, Armed, Throttled, Named, Takes;
    assert GoodTable(FOLLOWER.rows) && Leads(s.agents, 1, 10);
    CanTake(s, Hello(FOLLOWER, [1]));
  }

  lemma BothWait(s: State)
    requires Sound(s) && Paired(s) && s.loop.now == 0
    ensures Takes(s, Wait(10))
    ensures var t := Step(s, Wait(10)); Paired(t) && t.loop.now == 10
  {
    hide Watching, Granted, Armed, Throttled, Named, Takes;
    CanTake(s, Wait(10));
  }

  // ---------- the leader is lost ----------

  lemma LeaderDrops(s: State)
    requires Sound(s) && Paired(s)
    ensures Drops(s.agents, s.world.hw, [1, 2], 10, 1)
  {
    assert [1, 2][..1] == [1] && Before([1], 1) == [] && Before([1, 2], 1) == [];
    assert RoundInstalls(s.agents, [], 10) == 0;
    assert Refused(s.world.hw, 1);
  }

  lemma LeaderGoes(s: State)
    requires Sound(s) && Paired(s) && s.loop.now == 10
    ensures var e := Expire(2, [1, 2], {}, 0);
            && Takes(s, e) && LosesLeader(s, e) && Strands(s, e, 10)
            && var t := Step(s, e);
               t.agents.Keys == {2} && t.agents[2].pollTime == 10 && FirstTimers(t.loop, 20) && t.loop.now == 10
  {
    hide Armed, Throttled, Named, Granted, WellFormed, PollGroup, Drops, Installs, Takes;
    var e := Expire(2, [1, 2], {}, 0);
    CanTake(s, e);
    LeaderDrops(s);
    assert Leads(s.agents, 1, 10);
    DroppedIff(s.agents, s.world, e.order, 10, s.limit, e.noted, 1);
    var t := Step(s, e);
    assert Lost(s.agents, t.agents, 1) by {
      if id :| Lost(s.agents, t.agents, id) {
        assert 1 !in t.agents.Keys;
      }
    }
  }

  // ---------- its mon_id is used again ----------

  ghost predicate Reused(s: State) {
    && s.agents.Keys == {1, 2} && s.agents[1].pollTime == 20 && s.agents[1].timerId == 3
    && s.loop.timers.Keys == {1, 2, 3} && s.loop.timers[1].due == 60000
    && s.loop.timers[2] == Timer(PollAgents, 10, 1, 20) && s.loop.timers[3].due == 30
  }

  lemma NewcomerJoins(s: State)
    requires Sound(s) && s.agents.Keys == {2} && s.agents[2].pollTime == 10 && FirstTimers(s.loop, 20) && s.loop.now == 10
    ensures Takes(s, Hello(NEWCOMER, [2]))
    ensures var t := Step(s, Hello(NEWCOMER, [2])); Reused(t) && t.loop.now == 10
  {
    hide Armed, Throttled, Named, Takes;
    assert GoodTable(NEWCOMER.rows) && !HasLeader(s.agents, 20);
    CanTake(s, Hello(NEWCOMER, [2]));
  }

  lemma AllWait(s: State)
    requires Sound(s) && Reused(s) && s.loop.now == 10
    ensures Takes(s, Wait(20))
    ensures var t := Step(s, Wait(20)); Reused(t) && t.loop.now == 20
  {
    hide Armed, Throttled, Named, Takes;
    CanTake(s, Wait(20));
  }

  lemma StrayPolls(s: State)
    requires Sound(s) && Reused(s) && s.loop.now == 20
    ensures var e := Expire(2, [1, 2], {}, 0); Takes(s, e) && StrayFires(s, e, 20) && Polls(s, e, 1)
  {
    hide Armed, Throttled, Named, Takes, PollOne;
    CanTake(s, Expire(2, [1, 2], {}, 0));
    assert [1, 2][..1] == [1] && Before([1], 1) == [] && Before([1, 2], 1) == [];
  }

  // ---------- the run ----------

  ghost predicate Shows(ss: seq<State>, es: seq<Event>) {
    && IsRun(ss, es) && |es| == 7
    && LosesLeaderAt(ss, es, 3) && !SharedAt(ss, 4)
    && StrandsAt(ss, es, 3, 10) && !LedAt(ss, 4, 10)
    && StrayFires(ss[6], es[6], 20) && PolledAt(ss, es, 1, 6)
  }

  // At its first poll the leader is refused the flow of its second state and is gone; its
  // timer stays, its follower is left without one, and when the mon_id is in use again the
  // stray timer polls the group of the new agent.
  lemma LeaderIsLost()
    ensures exists ss: seq<State>, es: seq<Event> :: Shows(ss, es)
  {
    hide Step, Moves, Enabled, Sound, Paired, Watching, Granted, FirstTimers, Reused, AllWellFormed, Boot, SmallSwitch,
      LosesLeader, Strands, StrayFires, Polls, LEADER, FOLLOWER, NEWCOMER;
    var s0 := Boot(SmallSwitch());
    BootIsSound(SmallSwitch());
    BootsAgain(SmallSwitch());
    LeaderJoins(s0);
    var e0, e1, e2, e3 := Hello(LEADER, []), Hello(FOLLOWER, [1]), Wait(10), Expire(2, [1, 2], {}, 0);
    var e4, e5, e6 := Hello(NEWCOMER, [2]), Wait(20), Expire(2, [1, 2], {}, 0);
    var s1 := Step(s0, e0);
    FollowerJoins(s1);
    var s2 := Step(s1, e1);
    BothWait(s2);
    var s3 := Step(s2, e2);
    LeaderGoes(s3);
    var s4 := Step(s3, e3);
    NewcomerJoins(s4);
    var s5 := Step(s4, e4);
    AllWait(s5);
    var s6 := Step(s5, e5);
    StrayPolls(s6);
    var ss, es := [s0, s1, s2, s3, s4, s5, s6, Step(s6, e6)], [e0, e1, e2, e3, e4, e5, e6];
    assert IsRun(ss, es);
    NobodyIsLed(ss, es);
    assert Shows(ss, es);
  }

  lemma NobodyIsLed(ss: seq<State>, es: seq<Event>)
    requires IsRun(ss, es) && |es| == 7 && LosesLeaderAt(ss, es, 3) && StrandsAt(ss, es, 3, 10)
    requires forall i: nat | i < 3 :: !es[i].Expire?
    ensures !SharedAt(ss, 4) && !LedAt(ss, 4, 10)
  {
    hide Step, Sound, Shared, OneLeaderEach, GroupLed, Boot, Drops;
    forall i: nat | i < 3 ensures !LosesLeaderAt(ss, es, i) && !StrandsAt(ss, es, i, 10) {
    }
    SharedUntilLoss(ss, es, 3);
    NobodyLeadsAtBoot(ss[0].world.hw, 10);
    LedUntilStranded(ss, es, 10, 0, 3);
    RunIsSound(ss, es, 3);
    RunHasOneLeaderEach(ss, es, 3);
    StepOfRun(ss, es, 3);
    StepSharedIff(ss[3], es[3]);
    StepLedIff(ss[3], es[3], 10);
  }
}
