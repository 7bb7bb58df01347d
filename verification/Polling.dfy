// How often, how soon and with what effect the agents of a shared timer are polled.
module Polling {
  import opened Words
  import opened Switch
  import opened Agents
  import opened Refusals
  import opened EventLoop
  import opened Registry
  import opened Rounds
  import opened Daemon
  import opened Invariants
  import opened Runs

  // The event is a round of the group of `id`.
  ghost predicate GroupRound(s: State, e: Event, id: int) {
    id in s.agents && RoundStarts(s, e) && PolledGroup(s, e) == s.agents[id].pollTime
  }

  // And the round gets as far as `id`, which has its turn.
  ghost predicate Polls(s: State, e: Event, id: int)
    requires AllWellFormed(s.agents) && Enabled(s, e)
  {
    GroupRound(s, e, id) && HasTurn(s.agents, s.world, e.order, s.agents[id].pollTime, s.limit, e.noted, id)
  }

  // The round ends before `id` has had a turn.
  ghost predicate CutShort(s: State, e: Event, id: int)
    requires AllWellFormed(s.agents) && Enabled(s, e)
  {
    GroupRound(s, e, id) && !Reaches(s.agents, s.world.hw, e.order, s.agents[id].pollTime, id)
  }

  // ---------- the effect of a round ----------

  ghost function TurnWorld(s: State, e: Event, id: int): World
    requires AllWellFormed(s.agents) && Enabled(s, e) && Polls(s, e, id)
  {
    WorldAt(s.agents, s.world, e.order, s.agents[id].pollTime, s.limit, e.noted, id)
  }

  ghost function TurnOf(s: State, e: Event, id: int): Turn
    requires AllWellFormed(s.agents) && Enabled(s, e) && Polls(s, e, id)
  {
    PollAgent(s.agents[id], TurnWorld(s, e, id), s.limit, id in e.noted)
  }

  // A polling timer gives an agent of the leader's poll time exactly one turn, unless the
  // round is cut short before, and leaves every other agent as it is.
  lemma RoundPollsGroupOnce(s: State, e: Event, id: int)
    requires Sound(s) && Enabled(s, e) && e.Expire? && id in s.agents
    ensures var t := Step(s, e);
            if Polls(s, e, id) && TurnOf(s, e, id).dropped then id !in t.agents
            else id in t.agents && t.agents[id] == if Polls(s, e, id) then TurnOf(s, e, id).agent else s.agents[id]
  {
    hide PollAgent, PollGroup, Armed, Throttled, Named;
    if RoundStarts(s, e) {
      OneTurnEach(s.agents, s.world, e.order, PolledGroup(s, e), s.limit, e.noted, id);
      NobodyElse(s, e, id);
    }
  }

  lemma NobodyElse(s: State, e: Event, id: int)
    requires AllWellFormed(s.agents) && Enabled(s, e) && RoundStarts(s, e) && id in s.agents
    ensures HasTurn(s.agents, s.world, e.order, PolledGroup(s, e), s.limit, e.noted, id) <==> Polls(s, e, id)
  {
  }

  // An agent has its turn in a round of its group exactly when no member before it is
  // refused an entry, and it is dropped exactly when it is refused one itself.
  lemma PollsIffReached(s: State, e: Event, id: int)
    requires Sound(s) && Enabled(s, e) && GroupRound(s, e, id)
    ensures Polls(s, e, id) <==> !CutShort(s, e, id)
    ensures id !in Step(s, e).agents <==> Drops(s.agents, s.world.hw, e.order, s.agents[id].pollTime, id)
  {
    hide PollGroup, PollAgent, Reaches, Drops, Armed, Throttled, Named;
    DroppedIff(s.agents, s.world, e.order, s.agents[id].pollTime, s.limit, e.noted, id);
  }

  // ---------- how soon ----------

  // The timer of the group is due by then.
  ghost predicate DueBy(agents: Roster, loop: Loop, p: I32, limit: nat) {
    forall id :: Leads(agents, id, p) && agents[id].timerId in loop.timers ==>
                   loop.timers[agents[id].timerId].due <= limit
  }

  // The leader of the group leaves it, or starts over in it.
  ghost predicate HandsOver(s: State, e: Event, p: I32) {
    (e.Stop? || e.ParamChange?) && Leads(s.agents, e.id, p)
  }

  lemma LeaveDue(agents: Roster, loop: Loop, order: seq<int>, id: int, p: I32, limit: nat)
    requires Armed(agents, loop) && id in agents && DueBy(agents, loop, p, limit)
    ensures var r := Leave(agents, loop, order, id);
            DueBy(r.agents, r.loop, p, if Leads(agents, id, p) then limit + Delay(p) else limit)
  {
    var r := Leave(agents, loop, order, id);
    forall k | Leads(r.agents, k, p) && r.agents[k].timerId in r.loop.timers
      ensures r.loop.timers[r.agents[k].timerId].due <= if Leads(agents, id, p) then limit + Delay(p) else limit
    {
      assert ArmedFor(loop, id, agents[id]) || agents[id].timerId == 0;
      if Leads(agents, k, p) {
        assert ArmedFor(loop, k, agents[k]);
      }
    }
  }

  lemma JoinDue(agents: Roster, loop: Loop, id: int, a: Agent, p: I32, limit: nat)
    requires Armed(agents, loop) && id !in agents && a.timerId == 0 && DueBy(agents, loop, p, limit)
    requires a.pollTime == p ==> HasLeader(agents, p) || loop.now + Delay(p) <= limit
    ensures var r := Join(agents, loop, id, a); DueBy(r.agents, r.loop, p, limit)
  {
    var r := Join(agents, loop, id, a);
    forall k | Leads(r.agents, k, p) && r.agents[k].timerId in r.loop.timers
      ensures r.loop.timers[r.agents[k].timerId].due <= limit
    {
      if k != id {
        assert Leads(agents, k, p) && ArmedFor(loop, k, agents[k]);
      }
    }
  }

  lemma ChangeDue(agents: Roster, loop: Loop, order: seq<int>, id: int, q: I32, p: I32, limit: nat)
    requires Armed(agents, loop) && id in agents && DueBy(agents, loop, p, limit)
    requires HasLeader(agents, p)
    ensures var r := ChangePollTime(agents, loop, order, id, q);
            DueBy(r.agents, r.loop, p, if Leads(agents, id, p) then limit + Delay(p) else limit)
  {
    var left := Leave(agents, loop, order, id);
    LeaveKeepsArmed(agents, loop, order, id);
    LeaveDue(agents, loop, order, id, p, limit);
    var k :| Leads(agents, k, p);
    assert ArmedFor(loop, k, agents[k]);
    if k != id {
      assert Leads(left.agents, k, p);
    }
    JoinDue(left.agents, left.loop, id, agents[id].(timerId := 0, pollTime := q), p,
            if Leads(agents, id, p) then limit + Delay(p) else limit);
  }

  lemma SameMembersDue(agents: Roster, more: Roster, loop: Loop, p: I32, limit: nat)
    requires DueBy(agents, loop, p, limit) && more.Keys <= agents.Keys
    requires forall id :: id in more ==> SameMember(agents[id], more[id])
    ensures DueBy(more, loop, p, limit)
  {
    forall k | Leads(more, k, p) ensures Leads(agents, k, p) {
    }
  }

  // The timer that the group's leader holds fires.
  ghost predicate LeaderFires(s: State, e: Event, p: I32) {
    e.Expire? && exists l :: Leads(s.agents, l, p) && s.agents[l].timerId == e.timer
  }

  lemma OtherTimerDue(s: State, e: Event, p: I32, limit: nat)
    requires Sound(s) && Enabled(s, e) && e.Expire? && !LeaderFires(s, e, p) && DueBy(s.agents, s.loop, p, limit)
    ensures var t := Step(s, e); DueBy(t.agents, t.loop, p, limit)
  {
    hide PollGroup, Throttled, Named;
    var fired := Rearm(s.loop, e.timer);
    forall k | Leads(s.agents, k, p) ensures fired.timers[s.agents[k].timerId] == s.loop.timers[s.agents[k].timerId] {
      assert ArmedFor(s.loop, k, s.agents[k]);
    }
    assert DueBy(s.agents, fired, p, limit);
    SameMembersDue(s.agents, Step(s, e).agents, fired, p, limit);
    assert forall k :: k in fired.timers && k in Step(s, e).loop.timers ==> Step(s, e).loop.timers[k] == fired.timers[k];
  }

  // The leader's timer is armed again one period later.
  lemma LeaderTimerDue(s: State, e: Event, p: I32, limit: nat)
    requires Sound(s) && Enabled(s, e) && LeaderFires(s, e, p) && DueBy(s.agents, s.loop, p, limit)
    ensures var t := Step(s, e); DueBy(t.agents, t.loop, p, limit + Delay(p))
  {
    hide PollGroup, Throttled, Named;
    var t := Step(s, e);
    var l :| Leads(s.agents, l, p) && s.agents[l].timerId == e.timer;
    assert ArmedFor(s.loop, l, s.agents[l]);
    forall k | Leads(t.agents, k, p) && t.agents[k].timerId in t.loop.timers
      ensures t.loop.timers[t.agents[k].timerId].due <= limit + Delay(p)
    {
      assert Leads(s.agents, k, p) && ArmedFor(s.loop, k, s.agents[k]);
    }
  }

  lemma HelloDue(s: State, c: Config, order: seq<int>, p: I32, limit: nat)
    requires Sound(s) && Enabled(s, Hello(c, order))
    requires HasLeader(s.agents, p) && DueBy(s.agents, s.loop, p, limit)
    ensures var t := HelloStep(s, c); DueBy(t.agents, t.loop, p, limit)
  {
    var st := StartFlow(NewAgent(c), s.world.hw, 0);
    if st.ok {
      JoinDue(s.agents, s.loop, c.monId, FirstSamples(st.agent, st.hw), p, limit);
    }
  }

  lemma OperatorDue(s: State, e: Event, p: I32, limit: nat)
    requires Sound(s) && Enabled(s, e) && DueBy(s.agents, s.loop, p, limit)
    requires !e.Hello? && !e.Stop? && !e.ParamChange? && !e.Expire?
    ensures var t := Step(s, e); DueBy(t.agents, t.loop, p, limit)
  {
    hide AllWellFormed, Named, Toggled, WithThresholds, Led;
    var t := Step(s, e);
    OtherKeepsMembers(s, e);
    SameMembersDue(s.agents, t.agents, s.loop, p, limit);
    if e.SetTcamTimer? {
      assert Fires(s.loop, s.tcamTimer, CheckTcam);
    }
    forall k | Leads(s.agents, k, p) ensures t.loop.timers[s.agents[k].timerId] == s.loop.timers[s.agents[k].timerId] {
      assert ArmedFor(s.loop, k, s.agents[k]);
    }
  }

  // What lets an agent wait one period longer: a hand-over, or a firing of its leader's
  // timer whose round is cut short before it.
  ghost predicate Delays(s: State, e: Event, id: int)
    requires AllWellFormed(s.agents) && Enabled(s, e) && id in s.agents
  {
    var p := s.agents[id].pollTime;
    HandsOver(s, e, p) || (CutShort(s, e, id) && LeaderFires(s, e, p))
  }

  // While the agent has no turn, only that moves its deadline, by one period at most.
  lemma StepDue(s: State, e: Event, id: int, limit: nat)
    requires Sound(s) && Enabled(s, e) && id in s.agents && HasLeader(s.agents, s.agents[id].pollTime)
    requires !Polls(s, e, id) && DueBy(s.agents, s.loop, s.agents[id].pollTime, limit)
    ensures var t, p := Step(s, e), s.agents[id].pollTime;
            DueBy(t.agents, t.loop, p, if Delays(s, e, id) then limit + Delay(p) else limit)
  {
    hide HelloStep, ExpireStep, Leave, ChangePollTime, Throttled, Named, Polls, CutShort, LeaderFires;
    var p := s.agents[id].pollTime;
    match e
    case Hello(c, order) => HelloDue(s, c, order, p, limit);
    case Stop(k, order) => LeaveDue(s.agents, s.loop, order, k, p, limit);
    case ParamChange(k, q, order) => ChangeDue(s.agents, s.loop, order, k, q, p, limit);
    case Expire(timer, order, noted, free) =>
      if LeaderFires(s, e, p) {
        LeaderFiringIsRound(s, e, id);
        PollsIffReached(s, e, id);
        LeaderTimerDue(s, e, p, limit);
      } else {
        OtherTimerDue(s, e, p, limit);
      }
    case _ => OperatorDue(s, e, p, limit);
  }

  lemma LeaderFiringIsRound(s: State, e: Event, id: int)
    requires Sound(s) && Enabled(s, e) && id in s.agents && LeaderFires(s, e, s.agents[id].pollTime)
    ensures GroupRound(s, e, id)
  {
    hide Throttled, Named;
    var l :| Leads(s.agents, l, s.agents[id].pollTime) && s.agents[l].timerId == e.timer;
    assert ArmedFor(s.loop, l, s.agents[l]);
  }

  lemma NotCut(s: State, e: Event, id: int)
    requires AllWellFormed(s.agents) && Enabled(s, e) && !GroupRound(s, e, id)
    ensures !CutShort(s, e, id) && !Polls(s, e, id)
  {
  }

  // `id` lives with poll time p in all states from i to j.
  ghost predicate Stays(ss: seq<State>, id: int, p: I32, i: nat, j: nat) {
    forall k | i <= k <= j && k < |ss| :: id in ss[k].agents && ss[k].agents[id].pollTime == p
  }

  ghost predicate PolledAt(ss: seq<State>, es: seq<Event>, id: int, k: nat) {
    && k < |es| && k < |ss| && AllWellFormed(ss[k].agents) && Enabled(ss[k], es[k])
    && Polls(ss[k], es[k], id)
  }

  ghost predicate DelayedAt(ss: seq<State>, es: seq<Event>, id: int, k: nat) {
    && k < |es| && k < |ss| && AllWellFormed(ss[k].agents) && Enabled(ss[k], es[k]) && id in ss[k].agents
    && Delays(ss[k], es[k], id)
  }

  // The hand-overs of the agent's group, and its rounds that did not get to the agent.
  ghost function DelayCount(ss: seq<State>, es: seq<Event>, id: int, i: nat, j: nat): nat {
    if j <= i then 0 else DelayCount(ss, es, id, i, j - 1) + if DelayedAt(ss, es, id, j - 1) then 1 else 0
  }

  // One period, and one more for every delay.
  function Deadline(now: nat, delays: nat, p: I32): (d: nat)
    ensures d == now + (delays + 1) * Delay(p)
  {
    now + (delays + 1) * Delay(p)
  }

  lemma {:induction false} DueWhileWaiting(ss: seq<State>, es: seq<Event>, id: int, p: I32, i: nat, j: nat)
    requires IsRun(ss, es) && i <= j < |ss| && Stays(ss, id, p, i, j)
    requires forall k | i <= k < j :: LedAt(ss, k, p) && !PolledAt(ss, es, id, k)
    ensures DueBy(ss[j].agents, ss[j].loop, p, Deadline(ss[i].loop.now, DelayCount(ss, es, id, i, j), p))
  {
    hide Step, Throttled, Delays, Polls, Armed, AllWellFormed, Named, DueBy;
    RunIsSound(ss, es, j);
    if i == j {
      assert Deadline(ss[i].loop.now, 0, p) == ss[i].loop.now + Delay(p);
      DueAtOnce(ss[i], p);
    } else {
      DueWhileWaiting(ss, es, id, p, i, j - 1);
      RunIsSound(ss, es, j - 1);
      StepOfRun(ss, es, j - 1);
      assert LedAt(ss, j - 1, p) && !PolledAt(ss, es, id, j - 1);
      var h := DelayCount(ss, es, id, i, j - 1);
      StepDue(ss[j - 1], es[j - 1], id, Deadline(ss[i].loop.now, h, p));
      assert Deadline(ss[i].loop.now, h + 1, p) == Deadline(ss[i].loop.now, h, p) + Delay(p);
    }
  }

  lemma DueAtOnce(s: State, p: I32)
    requires Sound(s)
    ensures DueBy(s.agents, s.loop, p, s.loop.now + Delay(p))
  {
    forall k | Leads(s.agents, k, p) ensures ArmedFor(s.loop, k, s.agents[k]) {
    }
  }

  lemma LeaderNotOverdue(s: State, p: I32, limit: nat)
    requires Sound(s) && HasLeader(s.agents, p) && DueBy(s.agents, s.loop, p, limit)
    ensures s.loop.now <= limit
  {
    var k :| Leads(s.agents, k, p);
    assert ArmedFor(s.loop, k, s.agents[k]);
  }

  // From any state on in which its group has a leader, and until the group is stranded, an
  // agent that keeps its poll time p waits for its next turn at most (h + c + 1) * p, where h
  // counts the hand-overs of its group in between and c the firings of the leader's timer
  // whose rounds are cut short before it: the clock cannot pass that deadline before a turn,
  // whether the agent has just joined or has just been polled, and whatever happens to
  // other groups.
  lemma PolledInTime(ss: seq<State>, es: seq<Event>, id: int, p: I32, i: nat, j: nat)
    requires IsRun(ss, es) && i <= j < |ss| && Stays(ss, id, p, i, j) && LedAt(ss, i, p)
    requires forall k: nat | i <= k < j :: !StrandsAt(ss, es, k, p) && !PolledAt(ss, es, id, k)
    ensures ss[j].loop.now <= Deadline(ss[i].loop.now, DelayCount(ss, es, id, i, j), p)
  {
    hide Step, Throttled, Deadline, Strands, Armed, Polls;
    RunIsSound(ss, es, j);
    forall k: nat | i <= k <= j ensures LedAt(ss, k, p) {
      LedUntilStranded(ss, es, p, i, k);
    }
    DueWhileWaiting(ss, es, id, p, i, j);
    assert LedAt(ss, j, p);
    LeaderNotOverdue(ss[j], p, Deadline(ss[i].loop.now, DelayCount(ss, es, id, i, j), p));
  }

  // Its HELLO, or a PARAM_CHANGE, brings an agent into a group that has a leader.
  lemma JoinerIsLed(ss: seq<State>, es: seq<Event>, id: int, k: nat)
    requires IsRun(ss, es) && k < |es| && id in ss[k + 1].agents
    requires (es[k].Hello? && es[k].config.monId == id) || (es[k].ParamChange? && es[k].id == id)
    ensures LedAt(ss, k + 1, ss[k + 1].agents[id].pollTime)
  {
    StepOfRun(ss, es, k);
    RunIsSound(ss, es, k);
    RunHasOneLeaderEach(ss, es, k);
    hide IsRun, Sound, StartFlow, FirstSamples, Join, Leave, GroupLed, OneLeaderEach;
    var s, p := ss[k], ss[k + 1].agents[id].pollTime;
    match es[k]
    case Hello(c, order) =>
      var st := StartFlow(NewAgent(c), s.world.hw, 0);
      JoinRetimes(s.agents, s.loop, id, FirstSamples(st.agent, st.hw));
      JoinKeepsLed(s.agents, s.loop, id, FirstSamples(st.agent, st.hw), p);
    case ParamChange(_, q, order) =>
      LeaveRetimes(s.agents, s.loop, order, id);
      LeaveKeepsLed(s.agents, s.loop, order, id, p);
      var left := Leave(s.agents, s.loop, order, id);
      JoinRetimes(left.agents, left.loop, id, s.agents[id].(timerId := 0, pollTime := q));
      JoinKeepsLed(left.agents, left.loop, id, s.agents[id].(timerId := 0, pollTime := q), p);
    case _ =>
  }

  lemma PollTakesNoTime(ss: seq<State>, es: seq<Event>, id: int, i: nat)
    requires IsRun(ss, es) && PolledAt(ss, es, id, i)
    ensures ss[i + 1].loop.now == ss[i].loop.now
  {
    hide Step;
    StepOfRun(ss, es, i);
    StepTime(ss[i], es[i]);
  }

  // After a turn of the agent the same holds up to the next one.
  lemma GapBetweenPolls(ss: seq<State>, es: seq<Event>, id: int, p: I32, i: nat, j: nat)
    requires IsRun(ss, es) && i < j < |ss| && Stays(ss, id, p, i, j) && LedAt(ss, i + 1, p)
    requires forall k: nat | i < k < j :: !StrandsAt(ss, es, k, p) && !PolledAt(ss, es, id, k)
    ensures PolledAt(ss, es, id, i) ==>
              ss[j].loop.now <= Deadline(ss[i].loop.now, DelayCount(ss, es, id, i + 1, j), p)
  {
    hide Step, Polls, DelayCount, Enabled, IsRun, Deadline, Strands, GroupLed;
    PolledInTime(ss, es, id, p, i + 1, j);
    if PolledAt(ss, es, id, i) {
      PollTakesNoTime(ss, es, id, i);
    }
  }

  // Without refused entries only hand-overs count: (h + 1) * p.
  ghost function HandOvers(ss: seq<State>, es: seq<Event>, p: I32, i: nat, j: nat): nat
    requires j <= |es| < |ss|
  {
    if j <= i then 0
    else HandOvers(ss, es, p, i, j - 1) + if HandsOver(ss[j - 1], es[j - 1], p) then 1 else 0
  }

  lemma {:induction false} OnlyHandOvers(ss: seq<State>, es: seq<Event>, id: int, p: I32, i: nat, j: nat)
    requires IsRun(ss, es) && i <= j < |ss| && Stays(ss, id, p, i, j)
    requires forall k: nat | i <= k < j :: !RefusedIn(ss, es, k, p)
    ensures DelayCount(ss, es, id, i, j) == HandOvers(ss, es, p, i, j)
  {
    hide Step, HandsOver, CutShort, RefusedIn, LeaderFires;
    if i < j {
      OnlyHandOvers(ss, es, id, p, i, j - 1);
      StepOfRun(ss, es, j - 1);
      assert !RefusedIn(ss, es, j - 1, p);
      NotRefusedNotCut(ss, es, id, j - 1);
    }
  }

  lemma NotRefusedNotCut(ss: seq<State>, es: seq<Event>, id: int, k: nat)
    requires IsRun(ss, es) && k < |es| && id in ss[k].agents && !RefusedIn(ss, es, k, ss[k].agents[id].pollTime)
    ensures AllWellFormed(ss[k].agents) && Enabled(ss[k], es[k]) && !CutShort(ss[k], es[k], id)
  {
    hide Step, Refuses, RoundInstalls;
    StepOfRun(ss, es, k);
    var s, e := ss[k], es[k];
    if GroupRound(s, e, id) {
      ReachedIfNotRefused(s.agents, s.world.hw, e.order, PolledGroup(s, e), id);
    }
  }

  lemma {:induction false} ReachedIfNotRefused(agents: Roster, hw: Hw, order: seq<int>, p: I32, id: int)
    requires AllWellFormed(agents) && (forall k :: k in order ==> k in agents) && id in order
    requires !Refuses(hw, RoundInstalls(agents, order, p))
    ensures Reaches(agents, hw, order, p, id)
  {
    hide Installs;
    var init, last := order[..|order| - 1], order[|order| - 1];
    assert order == init + [last];
    if Refuses(hw, RoundInstalls(agents, init, p)) {
      RefusesMore(hw, RoundInstalls(agents, init, p), RoundInstalls(agents, order, p));
    }
    if last != id {
      ReachedIfNotRefused(agents, hw, init, p, id);
    }
  }

  // While the switch refuses no entry to the group's members in a round, turns are at most
  // (h + 1) * p apart, whatever it refuses to others.
  lemma PolledInTimeUnrefused(ss: seq<State>, es: seq<Event>, id: int, p: I32, i: nat, j: nat)
    requires IsRun(ss, es) && i <= j < |ss| && Stays(ss, id, p, i, j) && LedAt(ss, i, p)
    requires forall k: nat | i <= k < j :: !RefusedIn(ss, es, k, p) && !PolledAt(ss, es, id, k)
    ensures ss[j].loop.now <= Deadline(ss[i].loop.now, HandOvers(ss, es, p, i, j), p)
  {
    hide Step, Polls, Enabled, Deadline, RefusedIn, GroupLed, Strands;
    forall k: nat | i <= k < j ensures !StrandsAt(ss, es, k, p) {
      assert !RefusedIn(ss, es, k, p);
      StrandingIsRefusal(ss, es, k, p);
    }
    OnlyHandOvers(ss, es, id, p, i, j);
    PolledInTime(ss, es, id, p, i, j);
  }

  // ---------- how often ----------

  ghost function PollCount(ss: seq<State>, es: seq<Event>, id: int, i: nat, j: nat): nat {
    if j <= i then 0 else PollCount(ss, es, id, i, j - 1) + if PolledAt(ss, es, id, j - 1) then 1 else 0
  }

  // The round of the agent's group that did not get to it.
  ghost predicate CutAt(ss: seq<State>, es: seq<Event>, id: int, k: nat) {
    && k < |es| && k < |ss| && AllWellFormed(ss[k].agents) && Enabled(ss[k], es[k])
    && CutShort(ss[k], es[k], id)
  }

  ghost function CutCount(ss: seq<State>, es: seq<Event>, id: int, i: nat, j: nat): nat {
    if j <= i then 0 else CutCount(ss, es, id, i, j - 1) + if CutAt(ss, es, id, j - 1) then 1 else 0
  }

  // A timer fires whose agent does not hold it, but is a member of the group: the timer of a
  // lost leader whose mon_id is in use again.
  ghost predicate StrayFires(s: State, e: Event, p: I32) {
    RoundStarts(s, e) && PolledGroup(s, e) == p && s.agents[s.loop.timers[e.timer].arg].timerId != e.timer
  }

  // An agent has a turn exactly when its leader's timer or a stray one of its group fires,
  // and the switch refuses no entry to the members before it.
  lemma PollsIffGroupFires(s: State, e: Event, id: int)
    requires Sound(s) && Enabled(s, e) && id in s.agents
    ensures var p := s.agents[id].pollTime;
            && !(LeaderFires(s, e, p) && StrayFires(s, e, p))
            && (GroupRound(s, e, id) <==> LeaderFires(s, e, p) || StrayFires(s, e, p))
            && (Polls(s, e, id) <==> (LeaderFires(s, e, p) || StrayFires(s, e, p))
                                     && Reaches(s.agents, s.world.hw, e.order, p, id))
  {
    hide Polls, Reaches, HasTurn, Throttled, Named;
    var p := s.agents[id].pollTime;
    if LeaderFires(s, e, p) {
      LeaderFiringIsRound(s, e, id);
      var l :| Leads(s.agents, l, p) && s.agents[l].timerId == e.timer;
      assert ArmedFor(s.loop, l, s.agents[l]);
    }
    if GroupRound(s, e, id) {
      PollsIffReached(s, e, id);
      var arg := s.loop.timers[e.timer].arg;
      if s.agents[arg].timerId == e.timer {
        assert Leads(s.agents, arg, p);
      }
    } else {
      NotCut(s, e, id);
    }
  }

  // A polling timer of that period fires.
  ghost predicate GroupFires(s: State, e: Event, p: I32) {
    e.Expire? && Fires(s.loop, e.timer, PollAgents) && s.loop.timers[e.timer].period == Delay(p)
  }

  // While timers are shared as they should be there are no strays, and the leader's timer is
  // the one of that period.
  lemma SharedFirings(s: State, e: Event, p: I32)
    requires Sound(s) && Enabled(s, e) && Shared(s.agents, s.loop)
    ensures !StrayFires(s, e, p) && (LeaderFires(s, e, p) <==> GroupFires(s, e, p))
  {
    hide Shared, Throttled, Named;
    if e.Expire? && Fires(s.loop, e.timer, PollAgents) {
      TimerHasLeader(s, e.timer);
      var arg := s.loop.timers[e.timer].arg;
      if s.loop.timers[e.timer].period == Delay(p) {
        DelayInjective(s.agents[arg].pollTime, p);
        assert Leads(s.agents, arg, p);
      }
    }
    if LeaderFires(s, e, p) {
      var l :| Leads(s.agents, l, p) && s.agents[l].timerId == e.timer;
      assert ArmedFor(s.loop, l, s.agents[l]);
    }
  }

  ghost function LeaderFirings(ss: seq<State>, es: seq<Event>, p: I32, i: nat, j: nat): nat
    requires j <= |es| < |ss|
  {
    if j <= i then 0 else LeaderFirings(ss, es, p, i, j - 1) + if LeaderFires(ss[j - 1], es[j - 1], p) then 1 else 0
  }

  ghost function StrayFirings(ss: seq<State>, es: seq<Event>, p: I32, i: nat, j: nat): nat
    requires j <= |es| < |ss|
  {
    if j <= i then 0 else StrayFirings(ss, es, p, i, j - 1) + if StrayFires(ss[j - 1], es[j - 1], p) then 1 else 0
  }

  ghost function GroupFirings(ss: seq<State>, es: seq<Event>, p: I32, i: nat, j: nat): nat
    requires j <= |es| < |ss|
  {
    if j <= i then 0 else GroupFirings(ss, es, p, i, j - 1) + if GroupFires(ss[j - 1], es[j - 1], p) then 1 else 0
  }

  // Every firing of the leader's timer, and of a stray one, is a turn of the agent or a round
  // cut short before it, and there are no others.
  lemma {:induction false} PolledByEveryFiring(ss: seq<State>, es: seq<Event>, id: int, p: I32, i: nat, j: nat)
    requires IsRun(ss, es) && i <= j <= |es| && Stays(ss, id, p, i, j)
    ensures PollCount(ss, es, id, i, j) + CutCount(ss, es, id, i, j)
            == LeaderFirings(ss, es, p, i, j) + StrayFirings(ss, es, p, i, j)
  {
    hide Step, Polls, LeaderFires, StrayFires, Enabled, CutShort, GroupRound;
    if i < j {
      PolledByEveryFiring(ss, es, id, p, i, j - 1);
      FiringIsTurnOrCut(ss, es, id, p, j - 1);
    }
  }

  lemma FiringIsTurnOrCut(ss: seq<State>, es: seq<Event>, id: int, p: I32, k: nat)
    requires IsRun(ss, es) && k < |es| && id in ss[k].agents && ss[k].agents[id].pollTime == p
    ensures PolledAt(ss, es, id, k) || CutAt(ss, es, id, k) <==> LeaderFires(ss[k], es[k], p) || StrayFires(ss[k], es[k], p)
    ensures !(PolledAt(ss, es, id, k) && CutAt(ss, es, id, k))
    ensures !(LeaderFires(ss[k], es[k], p) && StrayFires(ss[k], es[k], p))
  {
    hide Step, Polls, LeaderFires, StrayFires, CutShort, GroupRound;
    RunIsSound(ss, es, k);
    StepOfRun(ss, es, k);
    PollsIffGroupFires(ss[k], es[k], id);
    if GroupRound(ss[k], es[k], id) {
      PollsIffReached(ss[k], es[k], id);
    } else {
      NotCut(ss[k], es[k], id);
    }
  }

  // While timers are shared, these are the firings of the period.
  lemma {:induction false} SharedRunFirings(ss: seq<State>, es: seq<Event>, p: I32, i: nat, j: nat)
    requires IsRun(ss, es) && i <= j <= |es| && forall k | i <= k < j :: SharedAt(ss, k)
    ensures LeaderFirings(ss, es, p, i, j) == GroupFirings(ss, es, p, i, j) && StrayFirings(ss, es, p, i, j) == 0
  {
    hide Step, LeaderFires, StrayFires, GroupFires, Enabled, Sound, Shared;
    if i < j {
      SharedRunFirings(ss, es, p, i, j - 1);
      RunIsSound(ss, es, j - 1);
      StepOfRun(ss, es, j - 1);
      assert SharedAt(ss, j - 1);
      SharedFirings(ss[j - 1], es[j - 1], p);
    }
  }

  // ---------- the interval counter ----------

  ghost predicate Alive(ss: seq<State>, id: int, i: nat, j: nat) {
    forall k | i <= k <= j && k < |ss| :: id in ss[k].agents
  }

  // Everything that decides how an agent counts and samples.
  ghost predicate SameTask(a: Agent, b: Agent) {
    a.totIntervals == b.totIntervals && a.monType == b.monType && a.portIndex == b.portIndex
  }

  lemma StepCounts(s: State, e: Event, id: int)
    requires Sound(s) && Enabled(s, e) && id in s.agents && id in Step(s, e).agents
    ensures var a, b := s.agents[id], Step(s, e).agents[id];
            SameTask(a, b) && b.intervalCount == if Polls(s, e, id) then CountInterval(a).intervalCount else a.intervalCount
  {
    hide Step, Polls, HasTurn;
    if e.Expire? {
      RoundCounts(s, e, id);
    } else {
      NotCut(s, e, id);
      QuietStepCounts(s, e, id);
    }
  }

  lemma RoundCounts(s: State, e: Event, id: int)
    requires Sound(s) && Enabled(s, e) && id in s.agents && id in Step(s, e).agents && e.Expire?
    ensures var a, b := s.agents[id], Step(s, e).agents[id];
            SameTask(a, b) && b.intervalCount == if Polls(s, e, id) then CountInterval(a).intervalCount else a.intervalCount
  {
    hide PollAgent, Step, Polls, TurnWorld, Armed, Throttled, Named;
    RoundPollsGroupOnce(s, e, id);
  }

  // Messages about other agents, and other settings, change at most who holds a timer.
  lemma OthersStepRetimes(s: State, e: Event, id: int)
    requires Sound(s) && Enabled(s, e) && !e.Expire? && !(Updates(s, e) && e.id == id)
    requires id in s.agents && id in Step(s, e).agents
    ensures Retimed(s.agents[id], Step(s, e).agents[id])
  {
    hide StartFlow, FirstSamples, Found, Leave, ChangePollTime, Join, Updated, Toggled, WithThresholds;
    match e
    case Hello(c, order) =>
      var st := StartFlow(NewAgent(c), s.world.hw, 0);
      JoinRetimes(s.agents, s.loop, c.monId, FirstSamples(st.agent, st.hw));
    case Stop(k, order) => LeaveRetimes(s.agents, s.loop, order, k);
    case ParamChange(k, p, order) => ChangeRetimes(s.agents, s.loop, order, k, p);
    case _ =>
  }

  lemma QuietStepCounts(s: State, e: Event, id: int)
    requires Sound(s) && Enabled(s, e) && id in s.agents && id in Step(s, e).agents && !e.Expire?
    ensures var a, b := s.agents[id], Step(s, e).agents[id];
            SameTask(a, b) && b.intervalCount == a.intervalCount
  {
    hide Armed, Throttled, Named, HelloStep, StopStep, ParamChangeStep;
    if Updates(s, e) && e.id == id {
      assert Step(s, e).agents[id] == Updated(s.agents[id], e);
    } else {
      OthersStepRetimes(s, e, id);
    }
  }

  // The polls in the range that end with a counter of zero.
  ghost function Windows(ss: seq<State>, es: seq<Event>, id: int, i: nat, j: nat): nat
    requires j <= |es| < |ss| && Alive(ss, id, i, j)
  {
    if j <= i then 0
    else Windows(ss, es, id, i, j - 1) +
         (if PolledAt(ss, es, id, j - 1) && ss[j].agents[id].intervalCount == 0 then 1 else 0)
  }

  lemma NextResidue(n: nat, k: nat)
    requires n > 0
    ensures (k % n + 1) % n == (k + 1) % n
    ensures (k + 1) / n == k / n + (if (k + 1) % n == 0 then 1 else 0)
  {
    var q, r := k / n, k % n;
    assert k == q * n + r;
    if r + 1 == n {
      assert k + 1 == (q + 1) * n;
      QuotientAndRest(k + 1, q + 1, 0, n);
      QuotientAndRest(r + 1, 1, 0, n);
    } else {
      QuotientAndRest(k + 1, q, r + 1, n);
      QuotientAndRest(r + 1, 0, r + 1, n);
    }
  }

  lemma QuotientAndRest(x: int, q: int, r: int, n: int)
    requires n > 0 && 0 <= r < n && x == q * n + r
    ensures x / n == q && x % n == r
  {
    var d := x / n - q;
    assert d * n == r - x % n;
    assert d >= 1 ==> d * n >= n;
    assert d <= -1 ==> d * n <= -n;
  }

  lemma {:induction false} CountsModulo(ss: seq<State>, es: seq<Event>, id: int, n: nat, i: nat, j: nat)
    requires IsRun(ss, es) && i <= j <= |es| && Alive(ss, id, i, j) && n > 0
    requires ss[i].agents[id].totIntervals == n && ss[i].agents[id].intervalCount == 0
    ensures ss[j].agents[id].totIntervals == n
    ensures ss[j].agents[id].intervalCount == PollCount(ss, es, id, i, j) % n
    ensures Windows(ss, es, id, i, j) == PollCount(ss, es, id, i, j) / n
  {
    hide Step, Sound, Polls, Enabled;
    if i == j {
      QuotientAndRest(0, 0, 0, n);
    } else {
      CountsModulo(ss, es, id, n, i, j - 1);
      RunIsSound(ss, es, j - 1);
      StepOfRun(ss, es, j - 1);
      StepCounts(ss[j - 1], es[j - 1], id);
      NextResidue(n, PollCount(ss, es, id, i, j - 1));
    }
  }

  // MON_HELLO accepts the agent.
  ghost predicate JoinsAt(ss: seq<State>, es: seq<Event>, id: int, i: nat) {
    i < |es| < |ss| && es[i].Hello? && es[i].config.monId == id && id in ss[i + 1].agents
  }

  // With N intervals configured, after k turns the counter is k mod N, through hand-overs
  // and changes of poll time, and it was zero at the end of floor(k / N) of them.
  lemma CounterIsPollsModN(ss: seq<State>, es: seq<Event>, id: int, i: nat, j: nat)
    requires IsRun(ss, es) && JoinsAt(ss, es, id, i) && i < j <= |es| && Alive(ss, id, i + 1, j)
    requires es[i].config.totIntervals > 0
    ensures var n, polls := es[i].config.totIntervals, PollCount(ss, es, id, i + 1, j);
            ss[j].agents[id].intervalCount == polls % n && Windows(ss, es, id, i + 1, j) == polls / n
  {
    hide Step, Sound, Polls, Enabled;
    assert ss[i + 1].agents[id].totIntervals == es[i].config.totIntervals && ss[i + 1].agents[id].intervalCount == 0 by {
      JoinedAgentIsNew(ss, es, id, i);
    }
    CountsModulo(ss, es, id, es[i].config.totIntervals, i + 1, j);
  }

  lemma JoinedAgentIsNew(ss: seq<State>, es: seq<Event>, id: int, i: nat)
    requires IsRun(ss, es) && JoinsAt(ss, es, id, i)
    ensures ss[i + 1].agents[id].totIntervals == es[i].config.totIntervals && ss[i + 1].agents[id].intervalCount == 0
  {
    StepOfRun(ss, es, i);
  }
}
