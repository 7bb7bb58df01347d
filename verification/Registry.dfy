// Agents with the same poll time share one loop timer, held by their leader.
module Registry {
  import opened Words
  import opened Agents
  import opened EventLoop

  type Roster = map<int, Agent>

  // Any iteration order of the hash map.
  ghost predicate IsOrder(order: seq<int>, agents: Roster) {
    && (forall id :: id in order <==> id in agents)
    && (forall i, j :: 0 <= i < j < |order| ==> order[i] != order[j])
  }

  predicate Leads(agents: Roster, id: int, p: I32) {
    id in agents && agents[id].timerId != 0 && agents[id].pollTime == p
  }

  predicate Follows(agents: Roster, id: int, p: I32) {
    id in agents && agents[id].timerId == 0 && agents[id].pollTime == p
  }

  ghost predicate HasLeader(agents: Roster, p: I32) {
    exists id :: Leads(agents, id, p)
  }

  // ---------- operations ----------

  datatype Registration = Registration(agents: Roster, loop: Loop)

  function FirstFollower(agents: Roster, order: seq<int>, p: I32): (f: Option<int>)
    ensures f.Some? ==> Follows(agents, f.value, p)
    ensures f.None? ==> forall id :: id in order ==> !Follows(agents, id, p)
  {
    if order == [] then None
    else if Follows(agents, order[0], p) then Some(order[0])
    else FirstFollower(agents, order[1..], p)
  }

  // Give `id`, a member without a timer, a timer of its own.
  function Found(agents: Roster, loop: Loop, id: int): Registration
    requires id in agents
  {
    var a := agents[id];
    var l := TimerStart(loop, Delay(a.pollTime), PollAgents, id);
    Registration(agents[id := a.(timerId := l.lastId)], l)
  }

  // A new member follows the leader of its poll time, or becomes it.
  ghost function Join(agents: Roster, loop: Loop, id: int, a: Agent): Registration {
    var more := agents[id := a];
    if HasLeader(agents, a.pollTime) then Registration(more, loop) else Found(more, loop, id)
  }

  // A leaving leader ends its timer, and the first follower found takes over with a fresh one.
  function Leave(agents: Roster, loop: Loop, order: seq<int>, id: int): Registration
    requires id in agents
  {
    var a, rest := agents[id], agents - {id};
    if a.timerId == 0 then Registration(rest, loop)
    else
      var l := TimerEnd(loop, a.timerId);
      match FirstFollower(rest, order, a.pollTime)
      case None => Registration(rest, l)
      case Some(f) => Found(rest, l, f)
  }

  ghost function ChangePollTime(agents: Roster, loop: Loop, order: seq<int>, id: int, p: I32): Registration
    requires id in agents
  {
    var left := Leave(agents, loop, order, id);
    Join(left.agents, left.loop, id, agents[id].(timerId := 0, pollTime := p))
  }

  // Nothing but the registration differs.
  ghost predicate Retimed(a: Agent, b: Agent) {
    b == a.(timerId := b.timerId, pollTime := b.pollTime)
  }

  lemma JoinRetimes(agents: Roster, loop: Loop, id: int, a: Agent)
    requires id !in agents
    ensures var r := Join(agents, loop, id, a);
            r.agents.Keys == agents.Keys + {id} && Retimed(a, r.agents[id]) && forall k :: k in agents ==> r.agents[k] == agents[k]
    ensures Join(agents, loop, id, a).agents[id].pollTime == a.pollTime
  {
  }

  lemma LeaveRetimes(agents: Roster, loop: Loop, order: seq<int>, id: int)
    requires id in agents
    ensures var r := Leave(agents, loop, order, id);
            r.agents.Keys == agents.Keys - {id} && forall k :: k in r.agents ==> Retimed(agents[k], r.agents[k])
    ensures var r := Leave(agents, loop, order, id); forall k :: k in r.agents ==> r.agents[k].pollTime == agents[k].pollTime
  {
  }

  lemma ChangeRetimes(agents: Roster, loop: Loop, order: seq<int>, id: int, p: I32)
    requires id in agents
    ensures var r := ChangePollTime(agents, loop, order, id, p);
            r.agents.Keys == agents.Keys && forall k :: k in r.agents ==> Retimed(agents[k], r.agents[k])
    ensures var r := ChangePollTime(agents, loop, order, id, p);
            forall k :: k in r.agents ==> r.agents[k].pollTime == if k == id then p else agents[k].pollTime
  {
    hide Leave, Join;
    LeaveRetimes(agents, loop, order, id);
    var left := Leave(agents, loop, order, id);
    JoinRetimes(left.agents, left.loop, id, agents[id].(timerId := 0, pollTime := p));
  }

  // A leader's timer is ended, and the i-th of the order, the first follower there, gets a new
  // one that is due a poll time from now; nobody else's changes.
  lemma LeaveHandsOver(agents: Roster, loop: Loop, order: seq<int>, id: int, i: nat)
    requires Punctual(loop) && id in agents && agents[id].timerId in loop.timers && i < |order|
    requires order[i] != id && Follows(agents, order[i], agents[id].pollTime)
    requires forall k :: 0 <= k < i ==> order[k] == id || !Follows(agents, order[k], agents[id].pollTime)
    ensures var r, f, t := Leave(agents, loop, order, id), order[i], loop.lastId + 1;
            && r.agents == (agents - {id})[f := agents[f].(timerId := t)]
            && r.loop.timers == (loop.timers - {agents[id].timerId})[t := Timer(PollAgents, Delay(agents[id].pollTime), f, loop.now + Delay(agents[id].pollTime))]
  {
    var p, rest := agents[id].pollTime, agents - {id};
    FirstAt(rest, order, p, i);
  }

  lemma {:induction false} FirstAt(agents: Roster, order: seq<int>, p: I32, i: nat)
    requires i < |order| && Follows(agents, order[i], p) && forall k :: 0 <= k < i ==> !Follows(agents, order[k], p)
    ensures FirstFollower(agents, order, p) == Some(order[i])
  {
    if i > 0 {
      assert !Follows(agents, order[0], p);
      assert forall k :: 0 <= k < i - 1 ==> order[1..][k] == order[k + 1];
      FirstAt(agents, order[1..], p, i - 1);
    }
  }

  // ---------- the invariant ----------

  ghost predicate ArmedFor(loop: Loop, id: int, a: Agent) {
    && a.timerId in loop.timers
    && loop.timers[a.timerId].handler == PollAgents
    && loop.timers[a.timerId].period == Delay(a.pollTime)
    && loop.timers[a.timerId].arg == id
  }

  ghost predicate PollTimerOwned(agents: Roster, loop: Loop, t: int) {
    t in loop.timers && loop.timers[t].handler == PollAgents
    ==> loop.timers[t].arg in agents && agents[loop.timers[t].arg].timerId == t
  }

  ghost predicate Led(agents: Roster, id: int) {
    id in agents ==> HasLeader(agents, agents[id].pollTime)
  }

  // Every leader's timer is armed with its poll time and its mon_id.
  ghost predicate Armed(agents: Roster, loop: Loop) {
    && Punctual(loop)
    && (forall id :: id in agents && agents[id].timerId != 0 ==> ArmedFor(loop, id, agents[id]))
  }

  ghost predicate OneLeaderEach(agents: Roster) {
    forall i, j, p :: Leads(agents, i, p) && Leads(agents, j, p) ==> i == j
  }

  // Every poll time in use has exactly one leader, whose timer is armed with that period
  // and that leader's mon_id; no other polling timer is armed.
  ghost predicate Shared(agents: Roster, loop: Loop) {
    && Armed(agents, loop)
    && (forall t :: PollTimerOwned(agents, loop, t))
    && (forall id :: Led(agents, id))
    && OneLeaderEach(agents)
  }

  lemma JoinKeepsArmed(agents: Roster, loop: Loop, id: int, a: Agent)
    requires Armed(agents, loop) && id !in agents && a.timerId == 0
    ensures var r := Join(agents, loop, id, a); Armed(r.agents, r.loop)
  {
  }

  lemma LeaveKeepsArmed(agents: Roster, loop: Loop, order: seq<int>, id: int)
    requires Armed(agents, loop) && id in agents
    ensures var r := Leave(agents, loop, order, id); Armed(r.agents, r.loop)
  {
  }

  lemma ChangeKeepsArmed(agents: Roster, loop: Loop, order: seq<int>, id: int, p: I32)
    requires Armed(agents, loop) && id in agents
    ensures var r := ChangePollTime(agents, loop, order, id, p); Armed(r.agents, r.loop)
  {
    LeaveKeepsArmed(agents, loop, order, id);
    var left := Leave(agents, loop, order, id);
    JoinKeepsArmed(left.agents, left.loop, id, agents[id].(timerId := 0, pollTime := p));
  }

  lemma FoundKeepsShared(agents: Roster, loop: Loop, id: int)
    requires id in agents && agents[id].timerId == 0
    requires !HasLeader(agents, agents[id].pollTime)
    requires Armed(agents, loop)
    requires forall t :: PollTimerOwned(agents, loop, t)
    requires forall i :: i in agents && agents[i].pollTime != agents[id].pollTime ==> Led(agents, i)
    requires OneLeaderEach(agents)
    ensures var r := Found(agents, loop, id); Shared(r.agents, r.loop)
  {
    var r := Found(agents, loop, id);
    var p := agents[id].pollTime;
    assert Leads(r.agents, id, p);
    forall i ensures Led(r.agents, i) {
      if i in r.agents && agents[i].pollTime != p {
        var k :| Leads(agents, k, agents[i].pollTime);
        assert Leads(r.agents, k, r.agents[i].pollTime);
      }
    }
    forall t ensures PollTimerOwned(r.agents, r.loop, t) {
      assert PollTimerOwned(agents, loop, t);
    }
    forall i, j, q | Leads(r.agents, i, q) && Leads(r.agents, j, q) ensures i == j {
      assert i != id ==> Leads(agents, i, q);
      assert j != id ==> Leads(agents, j, q);
    }
  }

  lemma JoinKeepsShared(agents: Roster, loop: Loop, id: int, a: Agent)
    requires Shared(agents, loop) && id !in agents && a.timerId == 0
    ensures var r := Join(agents, loop, id, a); Shared(r.agents, r.loop)
  {
    var more := agents[id := a];
    forall i, q ensures Leads(more, i, q) == Leads(agents, i, q) {
    }
    forall i | i in agents ensures Led(more, i) {
      assert Led(agents, i);
      var k :| Leads(agents, k, agents[i].pollTime);
      assert Leads(more, k, more[i].pollTime);
    }
    forall t ensures PollTimerOwned(more, loop, t) {
      assert PollTimerOwned(agents, loop, t);
    }
    if HasLeader(agents, a.pollTime) {
      var k :| Leads(agents, k, a.pollTime);
      assert Leads(more, k, a.pollTime);
      assert Led(more, id);
    } else {
      FoundKeepsShared(more, loop, id);
    }
  }

  lemma LeaveKeepsShared(agents: Roster, loop: Loop, order: seq<int>, id: int)
    requires Shared(agents, loop) && id in agents && IsOrder(order, agents)
    ensures var r := Leave(agents, loop, order, id); Shared(r.agents, r.loop)
  {
    var a, rest := agents[id], agents - {id};
    var p := a.pollTime;
    forall i, q ensures Leads(rest, i, q) == (i != id && Leads(agents, i, q)) {
    }
    forall i | i in rest && (rest[i].pollTime != p || a.timerId == 0) ensures Led(rest, i) {
      assert Led(agents, i);
      var k :| Leads(agents, k, agents[i].pollTime);
      assert Leads(rest, k, rest[i].pollTime);
    }
    if a.timerId == 0 {
      forall t ensures PollTimerOwned(rest, loop, t) {
        assert PollTimerOwned(agents, loop, t);
      }
    } else {
      var l := TimerEnd(loop, a.timerId);
      assert Leads(agents, id, p);
      forall t ensures PollTimerOwned(rest, l, t) {
        assert PollTimerOwned(agents, loop, t);
      }
      var f := FirstFollower(rest, order, p);
      match f
      case None =>
        forall i | i in rest ensures rest[i].pollTime != p {
          assert !Follows(rest, i, p);
          assert Leads(agents, i, p) ==> i == id;
        }
      case Some(k) =>
        assert !HasLeader(rest, p);
        FoundKeepsShared(rest, l, k);
    }
  }

  lemma ChangeKeepsShared(agents: Roster, loop: Loop, order: seq<int>, id: int, p: I32)
    requires Shared(agents, loop) && id in agents && IsOrder(order, agents)
    ensures var r := ChangePollTime(agents, loop, order, id, p); Shared(r.agents, r.loop)
  {
    LeaveKeepsShared(agents, loop, order, id);
    var left := Leave(agents, loop, order, id);
    JoinKeepsShared(left.agents, left.loop, id, agents[id].(timerId := 0, pollTime := p));
  }

  // ---------- one group at a time ----------

  // The group has a leader, or no members.
  ghost predicate GroupLed(agents: Roster, p: I32) {
    forall id :: id in agents && agents[id].pollTime == p ==> HasLeader(agents, p)
  }

  lemma FoundKeepsLed(agents: Roster, loop: Loop, id: int, p: I32)
    requires id in agents && OneLeaderEach(agents) && !HasLeader(agents, agents[id].pollTime)
    ensures var r := Found(agents, loop, id);
            OneLeaderEach(r.agents) && (p == agents[id].pollTime || GroupLed(agents, p) ==> GroupLed(r.agents, p))
  {
    var r := Found(agents, loop, id);
    assert Leads(r.agents, id, agents[id].pollTime);
    forall i, q ensures Leads(r.agents, i, q) <==> Leads(agents, i, q) || (i == id && q == agents[id].pollTime) {
    }
    if k :| Leads(agents, k, p) {
      assert Leads(r.agents, k, p);
    }
  }

  lemma JoinKeepsLed(agents: Roster, loop: Loop, id: int, a: Agent, p: I32)
    requires id !in agents && a.timerId == 0 && OneLeaderEach(agents)
    ensures var r := Join(agents, loop, id, a);
            OneLeaderEach(r.agents) && (p == a.pollTime || GroupLed(agents, p) ==> GroupLed(r.agents, p))
  {
    var more := agents[id := a];
    forall i, q ensures Leads(more, i, q) == Leads(agents, i, q) {
    }
    if k :| Leads(agents, k, p) {
      assert Leads(more, k, p);
    }
    if !HasLeader(agents, a.pollTime) {
      FoundKeepsLed(more, loop, id, p);
    }
  }

  lemma LeaveKeepsLed(agents: Roster, loop: Loop, order: seq<int>, id: int, p: I32)
    requires id in agents && IsOrder(order, agents) && OneLeaderEach(agents)
    ensures var r := Leave(agents, loop, order, id);
            OneLeaderEach(r.agents) && (GroupLed(agents, p) ==> GroupLed(r.agents, p))
  {
    var a, rest := agents[id], agents - {id};
    forall i, q ensures Leads(rest, i, q) == (i != id && Leads(agents, i, q)) {
    }
    if a.timerId == 0 || a.pollTime != p {
      if k :| Leads(agents, k, p) {
        assert Leads(rest, k, p);
      }
    }
    if a.timerId != 0 {
      assert Leads(agents, id, a.pollTime);
      var f := FirstFollower(rest, order, a.pollTime);
      if f.None? {
        forall i | i in rest ensures rest[i].pollTime != a.pollTime {
          assert !Follows(rest, i, a.pollTime) && !Leads(rest, i, a.pollTime);
        }
      } else {
        FoundKeepsLed(rest, TimerEnd(loop, a.timerId), f.value, p);
      }
    }
  }

  lemma ChangeKeepsLed(agents: Roster, loop: Loop, order: seq<int>, id: int, q: I32, p: I32)
    requires id in agents && IsOrder(order, agents) && OneLeaderEach(agents)
    ensures var r := ChangePollTime(agents, loop, order, id, q);
            OneLeaderEach(r.agents) && (GroupLed(agents, p) ==> GroupLed(r.agents, p))
  {
    hide Leave, Join;
    LeaveRetimes(agents, loop, order, id);
    LeaveKeepsLed(agents, loop, order, id, p);
    var left := Leave(agents, loop, order, id);
    JoinKeepsLed(left.agents, left.loop, id, agents[id].(timerId := 0, pollTime := q), p);
  }
}
