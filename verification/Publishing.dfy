// What each step publishes, agent by agent.
module Publishing {
  import opened Words
  import opened Switch
  import opened Agents
  import opened Turns
  import opened Rows
  import opened Notices
  import opened Readings
  import opened EventLoop
  import opened Registry
  import opened Rounds
  import opened Daemon
  import opened Invariants
  import opened Runs
  import opened Polling
  import opened Throttle

  // ---------- messages of one agent and of one kind ----------

  function MessagesOf(msgs: seq<Msg>, id: int): seq<Msg> {
    if msgs == [] then []
    else
      var rest, last := MessagesOf(msgs[..|msgs| - 1], id), msgs[|msgs| - 1];
      if !last.MonSwitch? && last.monId == id then rest + [last] else rest
  }

  lemma {:induction false} MessagesConcat(x: seq<Msg>, y: seq<Msg>, id: int)
    ensures MessagesOf(x + y, id) == MessagesOf(x, id) + MessagesOf(y, id)
  {
    if y == [] {
      assert x + y == x;
    } else {
      var init := y[..|y| - 1];
      assert (x + y)[..|x + y| - 1] == x + init;
      MessagesConcat(x, init, id);
    }
  }

  lemma {:induction false} ReportsConcat(x: seq<Msg>, y: seq<Msg>)
    ensures Reports(x + y) == Reports(x) + Reports(y)
  {
    if y == [] {
      assert x + y == x;
    } else {
      var init := y[..|y| - 1];
      assert (x + y)[..|x + y| - 1] == x + init;
      ReportsConcat(x, init);
    }
  }

  lemma {:induction false} OthersConcat(x: seq<Msg>, y: seq<Msg>, links: bool)
    ensures Others(x + y, links) == Others(x, links) + Others(y, links)
  {
    if y == [] {
      assert x + y == x;
    } else {
      var init := y[..|y| - 1];
      assert (x + y)[..|x + y| - 1] == x + init;
      OthersConcat(x, init, links);
    }
  }

  function ReportsFor(msgs: seq<Msg>, id: int): seq<Msg> {
    Reports(MessagesOf(msgs, id))
  }

  // Messages that agent `id` may publish.
  ghost predicate From(msgs: seq<Msg>, id: int) {
    forall i :: 0 <= i < |msgs| ==> !msgs[i].MonSwitch? && msgs[i].monId == id
  }

  lemma {:induction false} OwnMessages(msgs: seq<Msg>, id: int, k: int)
    requires From(msgs, id)
    ensures MessagesOf(msgs, k) == if k == id then msgs else []
  {
    if msgs != [] {
      OwnMessages(msgs[..|msgs| - 1], id, k);
      assert msgs == msgs[..|msgs| - 1] + [msgs[|msgs| - 1]];
    }
  }

  // ---------- one turn ----------

  ghost predicate Extends(before: seq<Msg>, after: seq<Msg>, id: int) {
    before <= after && From(after[|before|..], id)
  }

  lemma ExtendsTwice(x: seq<Msg>, y: seq<Msg>, z: seq<Msg>, id: int)
    requires Extends(x, y, id) && Extends(y, z, id)
    ensures Extends(x, z, id)
  {
    assert z[|x|..] == y[|x|..] + z[|y|..];
  }

  lemma ActPublishes(t: Turn, row: Row, act: Action, note: bool)
    requires !t.dropped && WellFormed(t.agent) && 1 <= row.nextState <= NO_NEXT_STATE
    ensures Extends(t.world.sent, Act(t, row, act, note).world.sent, t.agent.monId)
  {
    hide Goto, Keeps, GoodTable;
  }

  lemma {:induction false} ActionsPublish(t: Turn, row: Row, acts: seq<Action>, note: bool)
    requires !t.dropped && WellFormed(t.agent) && 1 <= row.nextState <= NO_NEXT_STATE
    ensures Extends(t.world.sent, RunActions(t, row, acts, note).world.sent, t.agent.monId)
  {
    hide Act, Extends;
    if acts == [] {
      NothingExtends(t.world.sent, t.agent.monId);
    } else {
      var init := acts[..|acts| - 1];
      ActionsPublish(t, row, init, note);
      var before := RunActions(t, row, init, note);
      if before.dropped {
        assert RunActions(t, row, acts, note) == before;
      } else {
        var after := Act(before, row, acts[|acts| - 1], note);
        assert RunActions(t, row, acts, note) == after;
        ActPublishes(before, row, acts[|acts| - 1], note);
        ExtendsTwice(t.world.sent, before.world.sent, after.world.sent, t.agent.monId);
      }
    }
  }

  lemma NothingExtends(x: seq<Msg>, id: int)
    ensures Extends(x, x, id)
  {
  }

  lemma PollPublishes(a: Agent, w: World, limit: PortLimit, note: bool)
    requires WellFormed(a)
    ensures Extends(w.sent, PollAgent(a, w, limit, note).world.sent, a.monId)
  {
    hide RunActions, Sampled;
    var t0 := BeforeActions(a, w, limit);
    ActionsPublish(t0, CurrentRow(a), CurrentRow(a).actions, note);
    assert Extends(w.sent, t0.world.sent, a.monId);
    ExtendsTwice(w.sent, t0.world.sent, PollAgent(a, w, limit, note).world.sent, a.monId);
  }

  // ---------- one round ----------

  // The messages after the first `before`.
  function New(before: seq<Msg>, after: seq<Msg>): seq<Msg>
    requires before <= after
  {
    after[|before|..]
  }

  ghost predicate NoSwitch(msgs: seq<Msg>) {
    forall i :: 0 <= i < |msgs| ==> !msgs[i].MonSwitch?
  }

  ghost predicate RoundExtends(before: seq<Msg>, after: seq<Msg>) {
    before <= after && NoSwitch(New(before, after))
  }

  lemma PollOnePublishes(r: Round, last: int, p: I32, limit: PortLimit, noted: set<int>, id: int)
    requires !r.aborted && last in r.agents && AllWellFormed(r.agents) && r.agents[last].monId == last
    ensures var q, a := PollOne(r, last, p, limit, noted), r.agents[last];
            && RoundExtends(r.world.sent, q.world.sent)
            && (var t := PollAgent(a, r.world, limit, last in noted);
                && Extends(r.world.sent, t.world.sent, last)
                && MessagesOf(New(r.world.sent, q.world.sent), id)
                   == if id == last && a.pollTime == p then New(r.world.sent, t.world.sent) else [])
  {
    hide PollAgent;
    PollPublishes(r.agents[last], r.world, limit, last in noted);
    var q := PollOne(r, last, p, limit, noted);
    OwnMessages(New(r.world.sent, q.world.sent), last, id);
  }

  // What `id` publishes in its turn of the round.
  ghost function TurnMessages(agents: Roster, w: World, order: seq<int>, p: I32, limit: PortLimit, noted: set<int>, id: int): seq<Msg>
    requires AllWellFormed(agents) && (forall k :: k in order ==> k in agents) && id in agents
  {
    var at := WorldAt(agents, w, order, p, limit, noted, id);
    PollPublishes(agents[id], at, limit, id in noted);
    New(at.sent, PollAgent(agents[id], at, limit, id in noted).world.sent)
  }

  lemma AddNew(x: seq<Msg>, y: seq<Msg>, z: seq<Msg>, id: int)
    requires RoundExtends(x, y) && RoundExtends(y, z)
    ensures RoundExtends(x, z)
    ensures MessagesOf(New(x, z), id) == MessagesOf(New(x, y), id) + MessagesOf(New(y, z), id)
  {
    assert New(x, z) == New(x, y) + New(y, z);
    MessagesConcat(New(x, y), New(y, z), id);
  }

  // The messages of `id` in a round are those of its own turn, if the round gets to it.
  lemma {:induction false} RoundPublishes(agents: Roster, w: World, order: seq<int>, p: I32, limit: PortLimit,
                                          noted: set<int>, id: int)
    requires AllWellFormed(agents) && Named(agents) && Distinct(order) && (forall k :: k in order ==> k in agents)
    requires id in agents
    ensures var r := PollGroup(agents, w, order, p, limit, noted);
            && RoundExtends(w.sent, r.world.sent)
            && MessagesOf(New(w.sent, r.world.sent), id)
               == if HasTurn(agents, w, order, p, limit, noted, id) then TurnMessages(agents, w, order, p, limit, noted, id) else []
  {
    hide PollAgent, PollOne, MessagesOf, RoundExtends, New;
    if order == [] {
      NothingNew(w.sent, id);
    } else {
      var init, last := order[..|order| - 1], order[|order| - 1];
      PrefixOfOrder(order);
      RoundPublishes(agents, w, init, p, limit, noted, id);
      var r := PollGroup(agents, w, init, p, limit, noted);
      if !r.aborted {
        var q := PollOne(r, last, p, limit, noted);
        NotYetPolled(agents, w, init, p, limit, noted, last);
        PollOnePublishes(r, last, p, limit, noted, id);
        AddNew(w.sent, r.world.sent, q.world.sent, id);
      }
    }
  }

  lemma NothingNew(x: seq<Msg>, id: int)
    ensures RoundExtends(x, x) && MessagesOf(New(x, x), id) == [] && ReportsFor(New(x, x), id) == []
  {
    assert New(x, x) == [];
  }

  // ---------- one step ----------

  lemma TurnReportsAreReports(a: Agent, w: World, limit: PortLimit, note: bool, x: seq<Msg>)
    requires WellFormed(a)
    requires Reports(PollAgent(a, w, limit, note).world.sent) == Reports(w.sent) + x
    ensures var t := PollAgent(a, w, limit, note);
            Extends(w.sent, t.world.sent, a.monId) && Reports(New(w.sent, t.world.sent)) == x
  {
    hide PollAgent, Reports;
    PollPublishes(a, w, limit, note);
    var t := PollAgent(a, w, limit, note);
    assert t.world.sent == w.sent + New(w.sent, t.world.sent);
    ReportsConcat(w.sent, New(w.sent, t.world.sent));
    SameRest(Reports(w.sent), x, Reports(New(w.sent, t.world.sent)));
  }

  lemma TurnOthersAreOthers(a: Agent, w: World, limit: PortLimit, note: bool, links: bool, x: seq<Msg>)
    requires WellFormed(a)
    requires Others(PollAgent(a, w, limit, note).world.sent, links) == Others(w.sent, links) + x
    ensures var t := PollAgent(a, w, limit, note);
            Extends(w.sent, t.world.sent, a.monId) && Others(New(w.sent, t.world.sent), links) == x
  {
    hide PollAgent, Others;
    PollPublishes(a, w, limit, note);
    var t := PollAgent(a, w, limit, note);
    assert t.world.sent == w.sent + New(w.sent, t.world.sent);
    OthersConcat(w.sent, New(w.sent, t.world.sent), links);
    SameRest(Others(w.sent, links), x, Others(New(w.sent, t.world.sent), links));
  }

  lemma SameRest(r: seq<Msg>, x: seq<Msg>, y: seq<Msg>)
    requires r + x == r + y
    ensures x == y
  {
    assert (r + x)[|r|..] == x && (r + y)[|r|..] == y;
  }

  // The report that a step owes an agent which reads these counters: the one of its interval
  // or of older bits, if it has its turn, its row or its flags tell the controller, and there
  // is an event or the row has a flow.
  ghost function ReportsDue(s: State, e: Event, id: int, hw: Hw): seq<Msg>
    requires AllWellFormed(s.agents) && Enabled(s, e) && id in s.agents
  {
    var a, i := s.agents[id], StateRow(s.agents[id].rows, s.agents[id].currentState);
    if Polls(s, e, id) && (id in e.noted || a.rows[i].flowExists) && Telling(a, a.rows[i].actions) then OwnNotice(a, i, hw) else []
  }

  // The turn of the agent, if it has one, takes no transition.
  ghost predicate StaysInState(s: State, e: Event, id: int)
    requires AllWellFormed(s.agents) && Enabled(s, e) && id in s.agents
  {
    var a, i := s.agents[id], StateRow(s.agents[id].rows, s.agents[id].currentState);
    Polls(s, e, id) ==> !Transits(a, a.rows[i])
  }

  ghost function TurnHw(s: State, e: Event, id: int): Hw
    requires AllWellFormed(s.agents) && Enabled(s, e) && id in s.agents
  {
    if Polls(s, e, id) then TurnWorld(s, e, id).hw else s.world.hw
  }

  // While no two agents refer to one statistics object, the turn reads what it read before
  // the round.
  lemma DueByReading(s: State, e: Event, id: int)
    requires Sound(s) && Enabled(s, e) && id in s.agents && Orderly(s.agents, s.world.hw)
    ensures ReportsDue(s, e, id, TurnHw(s, e, id)) == ReportsDue(s, e, id, s.world.hw)
  {
    hide Armed, Throttled, Named, Orderly, WorldAt, HasTurn, Telling, BitsAfter;
    if Polls(s, e, id) {
      TurnReads(s.agents, s.world, e.order, s.agents[id].pollTime, s.limit, e.noted, id);
    }
  }

  lemma ExpireExtends(s: State, e: Event)
    requires Sound(s) && Enabled(s, e) && e.Expire? && !Alarms(s, e)
    ensures RoundExtends(s.world.sent, Step(s, e).world.sent)
  {
    var tm := s.loop.timers[e.timer];
    if tm.handler == PollAgents && tm.arg in s.agents {
      RoundPublishes(s.agents, s.world, e.order, s.agents[tm.arg].pollTime, s.limit, e.noted, tm.arg);
    }
  }

  // A step publishes a MON_SWITCH, just one and nothing else, exactly when it is an alarm: with
  // the number of entries installed and the two limits in force.
  lemma SwitchIffAlarm(s: State, e: Event)
    requires Sound(s) && Enabled(s, e)
    ensures s.world.sent <= Step(s, e).world.sent
    ensures var news := New(s.world.sent, Step(s, e).world.sent);
            if Alarms(s, e) then news == [MonSwitch(|s.world.hw.entries|, s.minFree, s.maxEntries)] else NoSwitch(news)
  {
    hide HelloStep, Armed, Throttled, Named, AllWellFormed, PollGroup, Leave, Join;
    if Alarms(s, e) {
      AlarmStep(s, e);
    } else if e.Expire? {
      ExpireExtends(s, e);
    } else {
      QuietStepPublishesNothing(s, e);
      NothingNew(s.world.sent, 0);
    }
  }

  lemma QuietStepPublishesNothing(s: State, e: Event)
    requires AllWellFormed(s.agents) && Enabled(s, e) && !e.Expire?
    ensures Step(s, e).world.sent == s.world.sent
  {
    hide StartFlow, Join, Leave, ChangePollTime;
  }

  lemma NoMessages()
    ensures Reports([]) == [] && Others([], true) == [] && Others([], false) == []
  {
  }

  // The MON_EVENT_NOTIFICATIONs that a round publishes for an agent taking no transition are
  // what is due, however many actions call for it.
  lemma ExpireReports(s: State, e: Event, id: int)
    requires Sound(s) && Enabled(s, e) && e.Expire? && !Alarms(s, e) && id in s.agents && StaysInState(s, e, id)
    ensures RoundExtends(s.world.sent, Step(s, e).world.sent)
    ensures ReportsFor(New(s.world.sent, Step(s, e).world.sent), id) == ReportsDue(s, e, id, TurnHw(s, e, id))
  {
    hide PollAgent, PollGroup, Telling, OwnNotice, Transits, Armed, Throttled, Reports, MessagesOf, WorldAt, BitsNow;
    ExpireExtends(s, e);
    NoMessages();
    if RoundStarts(s, e) {
      var a, p := s.agents[id], PolledGroup(s, e);
      var i := StateRow(a.rows, a.currentState);
      RoundPublishes(s.agents, s.world, e.order, p, s.limit, e.noted, id);
      NobodyElse(s, e, id);
      if Polls(s, e, id) {
        var at := TurnWorld(s, e, id);
        ReportIffDue(a, at, s.limit, id in e.noted, i);
        TurnReportsAreReports(a, at, s.limit, id in e.noted, ReportsDue(s, e, id, at.hw));
      }
    } else {
      NothingNew(s.world.sent, id);
    }
  }

  lemma AlarmReportsNothing(s: State, e: Event, id: int)
    requires Sound(s) && Enabled(s, e) && Alarms(s, e) && id in s.agents
    ensures s.world.sent <= Step(s, e).world.sent
    ensures MessagesOf(New(s.world.sent, Step(s, e).world.sent), id) == [] && !Polls(s, e, id)
  {
    AlarmStep(s, e);
    var news := New(s.world.sent, Step(s, e).world.sent);
    assert |news| == 1 && news[0].MonSwitch? && news[..0] == [];
  }

  // The same for any step.
  lemma StepReports(s: State, e: Event, id: int)
    requires Sound(s) && Enabled(s, e) && id in s.agents && StaysInState(s, e, id)
    ensures s.world.sent <= Step(s, e).world.sent
    ensures ReportsFor(New(s.world.sent, Step(s, e).world.sent), id) == ReportsDue(s, e, id, TurnHw(s, e, id))
  {
    hide Step, Transits, MessagesOf, Reports, Telling, OwnNotice, HasTurn;
    NoMessages();
    if Alarms(s, e) {
      AlarmReportsNothing(s, e, id);
    } else if e.Expire? {
      ExpireReports(s, e, id);
    } else {
      QuietStepPublishesNothing(s, e);
      NothingNew(s.world.sent, id);
    }
  }

  // What a step owes an agent of the other two kinds.
  ghost function OthersDue(s: State, e: Event, id: int, hw: Hw, links: bool): seq<Msg>
    requires AllWellFormed(s.agents) && Enabled(s, e) && id in s.agents
  {
    var a, i := s.agents[id], StateRow(s.agents[id].rows, s.agents[id].currentState);
    if !Polls(s, e, id) then []
    else if links then CheckNotices(a, Sampled(a, hw), a.rows[i].actions)
    else PortNotice(a, i, hw, s.limit)
  }

  lemma ExpireOthers(s: State, e: Event, id: int, links: bool)
    requires Sound(s) && Enabled(s, e) && e.Expire? && !Alarms(s, e) && id in s.agents
    ensures RoundExtends(s.world.sent, Step(s, e).world.sent)
    ensures Others(MessagesOf(New(s.world.sent, Step(s, e).world.sent), id), links) == OthersDue(s, e, id, TurnHw(s, e, id), links)
  {
    hide PollAgent, PollGroup, CheckNotices, PortNotice, Armed, Throttled, Others, MessagesOf, WorldAt, Sampled;
    ExpireExtends(s, e);
    NoMessages();
    if RoundStarts(s, e) {
      var a, p := s.agents[id], PolledGroup(s, e);
      RoundPublishes(s.agents, s.world, e.order, p, s.limit, e.noted, id);
      NobodyElse(s, e, id);
      if Polls(s, e, id) {
        var at := TurnWorld(s, e, id);
        TurnOthers(a, at, s.limit, id in e.noted, StateRow(a.rows, a.currentState));
        TurnOthersAreOthers(a, at, s.limit, id in e.noted, links, OthersDue(s, e, id, at.hw, links));
      }
    } else {
      NothingNew(s.world.sent, id);
    }
  }

  // The link and port notifications of an agent in any step, with the port limit in force.
  lemma StepOthers(s: State, e: Event, id: int, links: bool)
    requires Sound(s) && Enabled(s, e) && id in s.agents
    ensures s.world.sent <= Step(s, e).world.sent
    ensures Others(MessagesOf(New(s.world.sent, Step(s, e).world.sent), id), links) == OthersDue(s, e, id, TurnHw(s, e, id), links)
  {
    hide Step, MessagesOf, Others, HasTurn, CheckNotices, PortNotice;
    NoMessages();
    if Alarms(s, e) {
      AlarmReportsNothing(s, e, id);
    } else if e.Expire? {
      ExpireOthers(s, e, id, links);
    } else {
      QuietStepPublishesNothing(s, e);
      NothingNew(s.world.sent, id);
    }
  }

  // ---------- runs ----------

  ghost function RunReportsDue(ss: seq<State>, es: seq<Event>, id: int, i: nat, j: nat): seq<Msg>
    requires IsRun(ss, es) && j <= |es| && Alive(ss, id, i, j)
  {
    if j <= i then []
    else
      StepOfRun(ss, es, j - 1);
      RunReportsDue(ss, es, id, i, j - 1) + ReportsDue(ss[j - 1], es[j - 1], id, ss[j - 1].world.hw)
  }

  ghost predicate StaysAt(ss: seq<State>, es: seq<Event>, id: int, k: nat) {
    k < |es| < |ss| && id in ss[k].agents && AllWellFormed(ss[k].agents) && Enabled(ss[k], es[k]) ==> StaysInState(ss[k], es[k], id)
  }

  // Between two transitions, everything ever reported for an agent is, poll by poll, what was
  // due on the readings of its statistics object at the time.
  lemma {:induction false} RunReports(ss: seq<State>, es: seq<Event>, id: int, i: nat, j: nat)
    requires IsRun(ss, es) && i <= j <= |es| && Alive(ss, id, i, j)
    requires forall k | i <= k < j :: StaysAt(ss, es, id, k)
    ensures ss[i].world.sent <= ss[j].world.sent
    ensures ReportsFor(New(ss[i].world.sent, ss[j].world.sent), id) == RunReportsDue(ss, es, id, i, j)
  {
    hide Step, Enabled, StaysInState, ReportsFor, ReportsDue, TurnHw, Sound, New;
    if i == j {
      NothingNew(ss[i].world.sent, id);
    } else {
      var k := j - 1;
      RunReports(ss, es, id, i, k);
      RunIsSound(ss, es, k);
      RunIsOrderly(ss, es, k);
      StepOfRun(ss, es, k);
      assert StaysAt(ss, es, id, k);
      StepReports(ss[k], es[k], id);
      DueByReading(ss[k], es[k], id);
      AddNewer(ss[i].world.sent, ss[k].world.sent, ss[j].world.sent, id);
    }
  }

  lemma AddNewer(x: seq<Msg>, y: seq<Msg>, z: seq<Msg>, id: int)
    requires x <= y <= z
    ensures x <= z && ReportsFor(New(x, z), id) == ReportsFor(New(x, y), id) + ReportsFor(New(y, z), id)
  {
    assert New(x, z) == New(x, y) + New(y, z);
    MessagesConcat(New(x, y), New(y, z), id);
    ReportsConcat(MessagesOf(New(x, y), id), MessagesOf(New(y, z), id));
  }
}
