// What each message of the controller or the operator sets, and what it leaves alone.
module Messages {
  import opened Words
  import opened Switch
  import opened Agents
  import opened Refusals
  import opened Rows
  import opened Notices
  import opened Registry
  import opened Conservation
  import opened Rounds
  import opened Daemon
  import opened Invariants
  import opened Runs
  import opened Polling
  import opened Publishing

  // ---------- HELLO ----------

  // The daemon refuses an agent whose first row has a flow that it cannot get an entry for.
  lemma HelloAcceptedIff(s: State, c: Config, order: seq<int>)
    requires Sound(s) && Enabled(s, Hello(c, order))
    ensures c.monId in Step(s, Hello(c, order)).agents
            <==> !(c.rows[0].flowExists && AnswersMinusOne(s.world.hw, s.world.hw.lastEntry + 1))
  {
    hide Join, AllWellFormed, Armed, Throttled, Named, Keeps, StatAttachInstall;
    JoinRetimesHello(s, c, order);
  }

  lemma JoinRetimesHello(s: State, c: Config, order: seq<int>)
    requires Enabled(s, Hello(c, order))
    ensures var st := StartFlow(NewAgent(c), s.world.hw, 0);
            var b, r := FirstSamples(st.agent, st.hw), Join(s.agents, s.loop, c.monId, FirstSamples(st.agent, st.hw));
            && r.agents.Keys == s.agents.Keys + {c.monId} && Retimed(b, r.agents[c.monId])
            && r.agents[c.monId].pollTime == b.pollTime && forall k :: k in s.agents ==> r.agents[k] == s.agents[k]
  {
    hide StartFlow, Join, FirstSamples;
    var st := StartFlow(NewAgent(c), s.world.hw, 0);
    JoinRetimes(s.agents, s.loop, c.monId, FirstSamples(st.agent, st.hw));
  }

  // A new agent is what the message says, in state 1 and on its first samples.
  ghost predicate Configured(b: Agent, c: Config, hw: Hw) {
    && b.monId == c.monId && b.pollTime == c.pollTime && b.monType == c.monType
    && b.totIntervals == c.totIntervals && b.intervalCount == 0
    && b.portIndex == c.portIndex && b.linkThreshold == c.linkThreshold
    && b.currentState == 1 && b.rows == c.rows
    && b.notifyNow == c.notifyNow && b.notifyAfterN == c.notifyAfterN && b.notifyLinkUtil == c.notifyLinkUtil
    && b.stats == Stats(Counters(0, 0), Reading(hw, b.statId), Counters(0, 0),
                        NoPortReading, PortReadingOf(hw, c.portIndex), NoPortReading)
  }

  lemma HelloConfigures(s: State, c: Config, order: seq<int>)
    requires Sound(s) && Enabled(s, Hello(c, order))
    ensures var t := Step(s, Hello(c, order));
            && (c.monId in t.agents ==> Configured(t.agents[c.monId], c, t.world.hw))
            && t.agents.Keys - {c.monId} == s.agents.Keys && (forall k :: k in s.agents ==> t.agents[k] == s.agents[k])
  {
    hide Join, StartFlow, AllWellFormed, Armed, Throttled, Named;
    JoinRetimesHello(s, c, order);
    StartKeepsSamples(NewAgent(c), s.world.hw);
  }

  lemma StartKeepsSamples(a: Agent, hw: Hw)
    requires |a.rows| >= 1 && a.stats == NoStats
    ensures var b := StartFlow(a, hw, 0).agent; b == a.(flowEntry := b.flowEntry, statId := b.statId)
  {
    hide EntryCreate, StatAttachInstall;
  }

  // If the switch grants both, the new agent holds an entry for the flow of the first row.
  lemma HelloInstallsFirstRow(s: State, c: Config, order: seq<int>)
    requires Sound(s) && Enabled(s, Hello(c, order)) && c.rows[0].flowExists && Grants(s.world.hw)
    ensures var hw, t := s.world.hw, Step(s, Hello(c, order));
            var e, o := hw.lastEntry + 1, hw.lastStat + 1;
            && c.monId in t.agents && t.agents[c.monId].flowEntry == e && t.agents[c.monId].statId == o
            && e in t.world.hw.entries && t.world.hw.entries[e] == Entry(c.rows[0].flow, Some(o))
            && t.agents[c.monId].stats.flowEnd == hw.statFate(o).start
  {
    hide Join, StartFlow, AllWellFormed, Armed, Throttled, Named;
    JoinRetimesHello(s, c, order);
    StartInstallsRow(NewAgent(c), s.world.hw, 1, 0);
  }

  // While entries are accounted for, every agent in state k holds one for the flow of row
  // k - 1, or of the first row past the table, if that row has a flow.
  lemma EntryOfState(agents: Roster, hw: Hw, id: int, i: int)
    requires Conserved(agents, hw) && id in agents && WellFormed(agents[id]) && InRow(agents[id], i)
    requires agents[id].rows[i].flowExists
    ensures var a := agents[id];
            && a.flowEntry in hw.entries && hw.entries[a.flowEntry] == Entry(a.rows[i].flow, Some(a.statId))
            && a.statId in hw.stats
  {
    RowOfState(agents[id], i);
    assert Placed(agents, hw, id);
  }

  // ---------- STOP and PARAM_CHANGE ----------

  // The agent goes, and of the others at most a timer changes hands.
  lemma StopRemoves(s: State, id: int, order: seq<int>)
    requires Sound(s) && Enabled(s, Stop(id, order))
    ensures var t := Step(s, Stop(id, order));
            && t.agents.Keys == s.agents.Keys - {id} && t.world.sent == s.world.sent
            && forall k :: k in t.agents ==> t.agents[k] == s.agents[k].(timerId := t.agents[k].timerId)
  {
    hide Leave, AllWellFormed, Armed, Throttled, Named, EntryDestroy;
    LeaveRetimes(s.agents, s.loop, order, id);
  }

  // The agent has the new poll time, and of the others at most a timer changes hands.
  lemma ParamChangeSets(s: State, id: int, p: I32, order: seq<int>)
    requires Sound(s) && Enabled(s, ParamChange(id, p, order))
    ensures var t := Step(s, ParamChange(id, p, order));
            && t.agents.Keys == s.agents.Keys && t.world == s.world
            && t.agents[id] == s.agents[id].(pollTime := p, timerId := t.agents[id].timerId)
            && forall k :: k in t.agents && k != id ==> t.agents[k] == s.agents[k].(timerId := t.agents[k].timerId)
  {
    hide ChangePollTime, AllWellFormed, Armed, Throttled, Named;
    ChangeRetimes(s.agents, s.loop, order, id, p);
  }

  // ---------- the operator's messages ----------

  // A known agent's flag for the action is flipped and its other two are kept.
  lemma ToggleFlips(s: State, id: int, action: Action)
    requires Sound(s) && id in s.agents
    ensures var a, t := s.agents[id], Step(s, ToggleAction(id, action));
            var b := t.agents[id];
            && t == s.(agents := s.agents[id := b])
            && b == a.(notifyNow := b.notifyNow, notifyAfterN := b.notifyAfterN, notifyLinkUtil := b.notifyLinkUtil)
            && (b.notifyNow != a.notifyNow <==> action == NotifyController)
            && (b.notifyAfterN != a.notifyAfterN <==> action == NotifyAfterN)
            && (b.notifyLinkUtil != a.notifyLinkUtil <==> action == NotifyLinkUtilization)
  {
    hide AllWellFormed, Armed, Throttled, Named;
  }

  // A known agent's row, and no other, gets the two thresholds.
  lemma ThresholdsSet(s: State, id: int, packets: U64, bytes: U64, i: int)
    requires Sound(s) && id in s.agents && InRow(s.agents[id], i)
    ensures var a, t := s.agents[id], Step(s, ModifyThresholds(id, packets, bytes));
            var b := t.agents[id];
            && t == s.(agents := s.agents[id := b]) && b == a.(rows := b.rows) && |b.rows| == |a.rows|
            && b.rows[i].packetsThreshold == packets && b.rows[i].bytesThreshold == bytes
            && b.rows[i].(packetsThreshold := 0, bytesThreshold := 0) == a.rows[i].(packetsThreshold := 0, bytesThreshold := 0)
            && forall k :: 0 <= k < |a.rows| && k != i ==> b.rows[k] == a.rows[k]
  {
    hide Armed, Throttled, Named;
    assert WellFormed(s.agents[id]);
    RowOfState(s.agents[id], i);
  }

  // An unknown one changes nothing.
  lemma UnknownAgent(s: State, e: Event)
    requires Sound(s) && (e.ToggleAction? || e.ModifyThresholds?) && e.id !in s.agents
    ensures Step(s, e) == s
  {
    hide AllWellFormed, Armed, Throttled, Named;
  }

  // ---------- limits over a run ----------

  ghost predicate LimitsAt(es: seq<Event>, k: nat) {
    k < |es| && es[k].SetTcamLimits?
  }

  ghost predicate PortLimitAt(es: seq<Event>, k: nat) {
    k < |es| && es[k].SetPortLimit?
  }

  lemma StepSetsLimits(s: State, e: Event)
    requires Sound(s) && Enabled(s, e)
    ensures var t := Step(s, e);
            && t.maxEntries == (if e.SetTcamLimits? then e.maxEntries else s.maxEntries)
            && t.minFree == (if e.SetTcamLimits? then e.minFree else s.minFree)
            && t.limit.maxData == (if e.SetPortLimit? then e.limit.maxData else s.limit.maxData)
            && t.limit.port == (if e.SetPortLimit? then e.limit.port else s.limit.port)
  {
    hide Armed, Throttled, Named, AllWellFormed, StartFlow, Join, Leave, ChangePollTime, PollGroup, Toggled, WithThresholds;
  }

  // The check compares with the numbers sent last, or zero.
  lemma {:induction false} LatestLimits(ss: seq<State>, es: seq<Event>, i: nat, j: nat)
    requires IsRun(ss, es) && i <= j < |ss| && if LimitsAt(es, i) then i < j else i == 0
    requires forall k: nat | i < k < j :: !LimitsAt(es, k)
    ensures if LimitsAt(es, i) then ss[j].maxEntries == es[i].maxEntries && ss[j].minFree == es[i].minFree
            else ss[j].maxEntries == 0 == ss[j].minFree
  {
    hide Step, Sound, Enabled;
    if j > 0 {
      RunIsSound(ss, es, j - 1);
      StepOfRun(ss, es, j - 1);
      StepSetsLimits(ss[j - 1], es[j - 1]);
      if j - 1 > i || !LimitsAt(es, i) {
        assert !LimitsAt(es, j - 1);
        LatestLimits(ss, es, i, j - 1);
      }
    }
  }

  // So does the port data notification.
  lemma {:induction false} LatestPortLimit(ss: seq<State>, es: seq<Event>, i: nat, j: nat)
    requires IsRun(ss, es) && i <= j < |ss| && if PortLimitAt(es, i) then i < j else i == 0
    requires forall k: nat | i < k < j :: !PortLimitAt(es, k)
    ensures var limit := ss[j].limit;
            if PortLimitAt(es, i) then limit.maxData == es[i].limit.maxData && limit.port == es[i].limit.port
            else limit.maxData == 0 == limit.port
  {
    hide Step, Sound, Enabled;
    if j > 0 {
      RunIsSound(ss, es, j - 1);
      StepOfRun(ss, es, j - 1);
      StepSetsLimits(ss[j - 1], es[j - 1]);
      if j - 1 > i || !PortLimitAt(es, i) {
        assert !PortLimitAt(es, j - 1);
        LatestPortLimit(ss, es, i, j - 1);
      }
    }
  }

  // ---------- thresholds over a run ----------

  // Same table but for the event bits.
  ghost predicate SameTable(a: Agent, b: Agent) {
    |a.rows| == |b.rows| && forall k :: 0 <= k < |a.rows| ==> b.rows[k] == a.rows[k].(events := b.rows[k].events)
  }

  lemma KeepsTable(a: Agent, b: Agent)
    requires Keeps(a, b)
    ensures SameTable(a, b)
  {
    forall k | 0 <= k < |a.rows| ensures b.rows[k] == a.rows[k].(events := b.rows[k].events) {
      assert StaticRows(a.rows)[k] == StaticRows(b.rows)[k];
    }
  }

  // Nothing but modify-event-thresholds changes what a table says.
  lemma StepKeepsTable(s: State, e: Event, id: int)
    requires Sound(s) && Enabled(s, e) && id in s.agents && id in Step(s, e).agents
    requires !(e.ModifyThresholds? && e.id == id)
    ensures SameTable(s.agents[id], Step(s, e).agents[id])
  {
    hide SameTable, Keeps, Armed, Throttled, Named, PollAgent, Polls, HasTurn;
    if e.Expire? {
      ExpireKeepsTable(s, e, id);
    } else if Updates(s, e) && e.id == id {
      ToggleKeepsTable(s, e, id);
    } else {
      OthersStepRetimes(s, e, id);
      RetimedTable(s.agents[id], Step(s, e).agents[id]);
    }
  }

  lemma RetimedTable(a: Agent, b: Agent)
    requires Retimed(a, b)
    ensures SameTable(a, b)
  {
  }

  lemma ToggleKeepsTable(s: State, e: Event, id: int)
    requires Sound(s) && e.ToggleAction? && id == e.id && id in s.agents
    ensures SameTable(s.agents[id], Step(s, e).agents[id])
  {
    hide Step;
    ToggleFlips(s, id, e.action);
  }

  lemma ExpireKeepsTable(s: State, e: Event, id: int)
    requires Sound(s) && Enabled(s, e) && id in s.agents && id in Step(s, e).agents && e.Expire?
    ensures SameTable(s.agents[id], Step(s, e).agents[id])
  {
    hide Step, SameTable, Keeps, Armed, Throttled, Named, PollAgent, HasTurn, TurnWorld;
    RoundPollsGroupOnce(s, e, id);
    if Polls(s, e, id) {
      var a, b := s.agents[id], Step(s, e).agents[id];
      KeepsTable(CountInterval(a), b);
      assert SameTable(CountInterval(a), b) ==> SameTable(a, b) by {
        CountingTable(a, b);
      }
    } else {
      RetimedTable(s.agents[id], s.agents[id]);
    }
  }

  lemma CountingTable(a: Agent, b: Agent)
    ensures SameTable(CountInterval(a), b) <==> SameTable(a, b)
  {
  }

  ghost predicate ModifiesAt(es: seq<Event>, id: int, k: nat) {
    k < |es| && es[k].ModifyThresholds? && es[k].id == id
  }

  lemma {:induction false} RunKeepsTable(ss: seq<State>, es: seq<Event>, id: int, i: nat, j: nat)
    requires IsRun(ss, es) && i <= j < |ss| && Alive(ss, id, i, j)
    requires forall k: nat | i <= k < j :: !ModifiesAt(es, id, k)
    ensures SameTable(ss[i].agents[id], ss[j].agents[id])
  {
    hide Step, Sound, Enabled, Boot;
    if i == j {
      RetimedTable(ss[i].agents[id], ss[i].agents[id]);
    } else {
      RunKeepsTable(ss, es, id, i, j - 1);
      RunIsSound(ss, es, j - 1);
      StepOfRun(ss, es, j - 1);
      assert !ModifiesAt(es, id, j - 1);
      StepKeepsTable(ss[j - 1], es[j - 1], id);
    }
  }

  // The numbers sent last are the thresholds of the row that the agent was in.
  lemma LatestThresholds(ss: seq<State>, es: seq<Event>, id: int, i: nat, j: nat, r: int)
    requires IsRun(ss, es) && ModifiesAt(es, id, i) && i < j < |ss| && Alive(ss, id, i, j)
    requires forall k: nat | i < k < j :: !ModifiesAt(es, id, k)
    requires InRow(ss[i].agents[id], r)
    ensures var rows := ss[j].agents[id].rows;
            |rows| > r >= 0 && rows[r].packetsThreshold == es[i].packets && rows[r].bytesThreshold == es[i].bytes
  {
    hide Step, Sound, Enabled, Boot;
    RunIsSound(ss, es, i);
    StepOfRun(ss, es, i);
    ThresholdsSet(ss[i], id, es[i].packets, es[i].bytes, r);
    RunKeepsTable(ss, es, id, i + 1, j);
  }

  // What is reported of an interval against two thresholds.
  function ReportOf(monId: int, before: Counters, now: Counters, packets: U64, bytes: U64): seq<Msg> {
    var overPackets := packets != 0 && Moved(now.packets, before.packets) > packets;
    var overBytes := bytes != 0 && Moved(now.bytes, before.bytes) > bytes;
    if overPackets || overBytes
    then [EventNotification(monId, if overPackets then Some(now.packets) else None, if overBytes then Some(now.bytes) else None)]
    else []
  }

  lemma NoticeIsReport(a: Agent, i: int, hw: Hw)
    requires 0 <= i < |a.rows| && Watches(a, a.rows[i])
    ensures OwnNotice(a, i, hw) == ReportOf(a.monId, a.stats.flowEnd, Reading(hw, a.statId),
                                            a.rows[i].packetsThreshold, a.rows[i].bytesThreshold)
  {
    hide Moved, Reading;
  }

  // A poll in that row which takes no transition and tells the controller reports packets
  // exactly if the interval has more of them than the nonzero number sent last, and bytes
  // likewise.
  lemma ReportByLatestThresholds(ss: seq<State>, es: seq<Event>, id: int, i: nat, j: nat, r: int)
    requires IsRun(ss, es) && ModifiesAt(es, id, i) && i < j && PolledAt(ss, es, id, j) && Alive(ss, id, i, j)
    requires forall k: nat | i < k < j :: !ModifiesAt(es, id, k)
    requires InRow(ss[i].agents[id], r) && InRow(ss[j].agents[id], r)
    requires var a := ss[j].agents[id];
             Watches(a, a.rows[r]) && !Transits(a, a.rows[r]) && Telling(a, a.rows[r].actions)
    ensures j + 1 < |ss| && ss[j].world.sent <= ss[j + 1].world.sent
    ensures var a := ss[j].agents[id];
            ReportsFor(New(ss[j].world.sent, ss[j + 1].world.sent), id)
            == ReportOf(id, a.stats.flowEnd, Reading(ss[j].world.hw, a.statId), es[i].packets, es[i].bytes)
  {
    hide Step, Sound, Enabled, Boot, Polls, Transits, Telling, OwnNotice, ReportOf, ReportsFor, New, IsRun;
    StatesOfRun(ss, es);
    StepOfRun(ss, es, j);
    RunIsSound(ss, es, j);
    RunIsOrderly(ss, es, j);
    LatestThresholds(ss, es, id, i, j, r);
    StepReports(ss[j], es[j], id);
    DueByReading(ss[j], es[j], id);
    NamedById(ss[j], id);
    NoticeIsReport(ss[j].agents[id], r, ss[j].world.hw);
  }

  lemma NamedById(s: State, id: int)
    requires Sound(s) && id in s.agents
    ensures s.agents[id].monId == id
  {
  }
}
