// The agent object of the daemon, updated in place by the functions that get a pointer to
// it. Every method is proved to do what Agents specifies on values.
module MonitoringAgent {
  import opened Words
  import opened Switch
  import opened Agents
  import opened Turns

  // The switch unit and the publisher socket.
  class Device {
    var hw: Hw
    var sent: seq<Msg>

    constructor (hw: Hw)
      ensures this.hw == hw && sent == []
    {
      this.hw := hw;
      sent := [];
    }

    ghost function View(): World
      reads this
    {
      World(hw, sent)
    }

    method Publish(m: Msg)
      modifies this
      ensures View() == World(old(hw), old(sent) + [m])
    {
      sent := sent + [m];
    }
  }

  class MonAgent {
    const monId: int
    var pollTime: I32
    var timerId: int
    const monType: MonType
    const totIntervals: int
    var intervalCount: int
    const portIndex: int
    const linkThreshold: int
    var currentState: U8
    var flowEntry: int
    var statId: int
    var stats: Stats
    var rows: seq<Row>
    var notifyNow: bool
    var notifyAfterN: bool
    var notifyLinkUtil: bool

    // An agent as its configuration describes it.
    constructor (a: Agent)
      ensures View() == a
    {
      monId, pollTime, timerId := a.monId, a.pollTime, a.timerId;
      monType, totIntervals, intervalCount := a.monType, a.totIntervals, a.intervalCount;
      portIndex, linkThreshold := a.portIndex, a.linkThreshold;
      currentState, flowEntry, statId := a.currentState, a.flowEntry, a.statId;
      stats, rows := a.stats, a.rows;
      notifyNow, notifyAfterN, notifyLinkUtil := a.notifyNow, a.notifyAfterN, a.notifyLinkUtil;
    }

    ghost function View(): Agent
      reads this
    {
      Agent(monId, pollTime, timerId, monType, totIntervals, intervalCount, portIndex, linkThreshold,
            currentState, flowEntry, statId, stats, rows, notifyNow, notifyAfterN, notifyLinkUtil)
    }

    // What the registry reads in an agent.
    lemma Registered()
      ensures View().monId == monId && View().timerId == timerId && View().pollTime == pollTime
      ensures View().flowEntry == flowEntry && View().statId == statId
      ensures View().currentState == currentState && View().rows == rows
    {
    }

    method SetTimer(id: int)
      modifies this`timerId
      ensures View() == old(View()).(timerId := id)
    {
      timerId := id;
    }

    method SetPollTime(p: I32)
      modifies this`pollTime
      ensures View() == old(View()).(pollTime := p)
    {
      pollTime := p;
    }

    // The toggle of enable-disable-action.
    method Toggle(action: Action)
      modifies this`notifyNow, this`notifyAfterN, this`notifyLinkUtil
      ensures View() == Toggled(old(View()), action)
    {
      if action == NotifyController {
        notifyNow := !notifyNow;
      } else if action == NotifyAfterN {
        notifyAfterN := !notifyAfterN;
      } else if action == NotifyLinkUtilization {
        notifyLinkUtil := !notifyLinkUtil;
      }
    }

    // The row write of modify-event-thresholds.
    method SetThresholds(packets: U64, bytes: U64)
      requires WellFormed(View())
      modifies this`rows
      ensures View() == WithThresholds(old(View()), packets, bytes)
    {
      var i := RowAt(currentState as int - 1);
      rows := rows[i := rows[i].(packetsThreshold := packets, bytesThreshold := bytes)];
    }

    // get_row_of_state_machine
    function RowAt(rowNum: int): (i: int)
      reads this
      ensures i == RowIndex(rowNum, |rows|)
    {
      if rowNum < |rows| then rowNum else 0
    }

    method SetEvents(i: nat, events: bv8)
      requires i < |rows|
      modifies this`rows
      ensures View() == Agents.SetEvents(old(View()), i, events)
    {
      rows := rows[i := rows[i].(events := events)];
    }

    // calculate_current_interval_flow_stats
    method CalculateFlowInterval()
      modifies this`stats
      ensures View() == old(View()).(stats := old(stats).(flowInterval := Difference(old(stats).flowEnd, old(stats).flowStart)))
    {
      var packets := ToU64(stats.flowEnd.packets - stats.flowStart.packets);
      var bytes := ToU64(stats.flowEnd.bytes - stats.flowStart.bytes);
      stats := stats.(flowInterval := Counters(packets, bytes));
    }

    // check_events_flow_stats: one bit of the bitmap at a time.
    method CheckFlowEvents() returns (event: bool)
      requires WellFormed(View())
      modifies this`rows
      ensures View() == Agents.CheckFlowEvents(old(View()))
      ensures event <==> CurrentRow(View()).events != 0
    {
      var i := RowAt(currentState as int - 1);
      var row := rows[i];
      var events := row.events;
      event := false;
      if stats.flowInterval.packets > row.packetsThreshold && row.packetsThreshold != 0 {
        event := true;
        events := events | 1;
      } else {
        events := events & 0xFE;
      }
      if stats.flowInterval.bytes > row.bytesThreshold && row.bytesThreshold != 0 {
        event := true;
        events := events | 2;
      } else {
        events := events & 0xFD;
      }
      SetEvents(i, events);
    }

    // calculate_the_current_interval_values: the port counters, one at a time.
    method CalculatePortIntervals()
      modifies this`stats
      ensures View() == if monType in {STATS, FP_STATS, BST_STATS, BST_FP_STATS} then
                old(View()).(stats := old(stats).(portInterval := PortDifference(old(stats).portEnd, old(stats).portStart)))
              else old(View())
    {
      if monType in {STATS, FP_STATS, BST_STATS, BST_FP_STATS} {
        ghost var before := stats;
        for index := 0 to PORT_COUNTERS
          invariant stats == before.(portInterval := stats.portInterval)
          invariant forall k :: 0 <= k < index ==> stats.portInterval[k] == Sub32(before.portEnd[k], before.portStart[k])
        {
          var difference := Sub32(stats.portEnd[index], stats.portStart[index]);
          stats := stats.(portInterval := stats.portInterval[index := difference]);
        }
        assert stats.portInterval == PortDifference(before.portEnd, before.portStart);
      }
    }

    method TakePortSample(d: Device)
      modifies this`stats
      ensures View() == SamplePorts(old(View()), d.hw)
    {
      if monType in {STATS, FP_STATS, P_STATS, BST_STATS, BST_FP_STATS} {
        stats := stats.(portStart := stats.portEnd);
        stats := stats.(portEnd := ReadPort(d.hw, portIndex));
      }
    }

    method TakeFlowSample(d: Device)
      requires WellFormed(View())
      modifies this`stats, this`rows
      ensures View() == SampleFlow(old(View()), d.hw)
    {
      if monType in {FP, FP_STATS} && rows[RowAt(currentState as int - 1)].flowExists {
        stats := stats.(flowStart := stats.flowEnd);
        stats := stats.(flowEnd := ReadStat(d.hw, statId));
        CalculateFlowInterval();
        assert View() == ShiftFlow(old(View()), ReadStat(d.hw, statId));
        var event := CheckFlowEvents();
      }
    }

    // The sampling half of one polling turn.
    method Sample(d: Device)
      requires WellFormed(View())
      modifies this`intervalCount, this`stats, this`rows
      ensures View() == Sampled(old(View()), d.hw)
    {
      hide SamplePorts, SampleFlow;
      if totIntervals != 0 {
        intervalCount := (intervalCount + 1) % totIntervals;
      }
      assert View() == CountInterval(old(View()));
      TakePortSample(d);
      TakeFlowSample(d);
      if monType == FP_STATS || monType == STATS {
        CalculatePortIntervals();
      }
    }

    // start_flow_stats_state_machine
    method StartFlow(d: Device, rowNum: nat) returns (ok: bool)
      requires |rows| >= 1
      modifies this`flowEntry, this`statId, this`stats, d`hw
      ensures var s := Agents.StartFlow(old(View()), old(d.hw), rowNum);
              View() == s.agent && d.hw == s.hw && ok == s.ok
    {
      ok := true;
      if |rows| != 0 {
        var row := rows[RowAt(rowNum)];
        if row.flowExists {
          var entry, stat := -1, -1;
          var created := EntryCreate(d.hw, row.flow);
          d.hw, entry := created.0, created.1;
          if entry != -1 {
            flowEntry := entry;
            var attached := StatAttachInstall(d.hw, entry);
            d.hw, stat := attached.0, attached.1;
            if stat != -1 {
              statId := stat;
              stats := stats.(flowStart := Counters(0, 0));
            }
          } else {
            return false;
          }
        }
      }
    }

    method TakeFirstSamples(d: Device)
      modifies this`stats
      ensures View() == FirstSamples(old(View()), d.hw)
    {
      stats := stats.(portEnd := ReadPort(d.hw, portIndex));
      stats := stats.(flowEnd := ReadStat(d.hw, statId));
    }

    // send_stats_notification: the two bits are told apart by the size of the bitmap.
    method SendStatsNotification(d: Device)
      requires WellFormed(View())
      modifies this`rows, d`sent
      ensures var r := Report(old(View()));
              View() == r.0 && d.sent == old(d.sent) + r.1
    {
      var i := RowAt(currentState as int - 1);
      var events := rows[i].events;
      if events != 0 {
        var packets, bytes := None, None;
        if events == 1 || events > 2 {
          packets := Some(stats.flowEnd.packets);
          events := events & 0xFE;
        }
        if events >= 2 {
          bytes := Some(stats.flowEnd.bytes);
          events := events & 0xFD;
        }
        SetEvents(i, events);
        d.sent := d.sent + [EventNotification(monId, packets, bytes)];
      }
    }

    // The GOTO_NXT_STATE action: the flow of this state out, the flow of the next one in.
    method GotoNextState(d: Device, nextState: int) returns (ok: bool)
      requires WellFormed(View()) && 1 <= nextState < NO_NEXT_STATE
      modifies this`currentState, this`flowEntry, this`statId, this`stats, d`hw
      ensures var t := Goto(old(View()), old(d.View()), nextState);
              d.View() == t.world && ok == !t.dropped && (ok ==> View() == t.agent)
    {
      d.hw := EntryDestroy(d.hw, flowEntry, statId);
      currentState := nextState % 256;
      ok := StartFlow(d, currentState as int - 1);
      if ok {
        stats := NoStats;
        TakeFirstSamples(d);
      }
    }

    method SendLinkUtilization(d: Device)
      modifies d`sent
      ensures d.View() == old(d.View()).(sent := old(d.sent) + LinkReport(View()))
    {
      var unicast, other := stats.portInterval[0], stats.portInterval[1];
      if monType == FP_STATS && unicast != 0 && notifyLinkUtil {
        if LinkIsUtilized(stats.flowInterval.packets, unicast, other, linkThreshold) && linkThreshold != 0 {
          d.sent := d.sent + [LinkUtilization(monId, unicast, other, stats.flowInterval.packets)];
        }
      }
    }

    // A notification, if there is something to notify about.
    method NotifyIfAny(d: Device, any: bool)
      requires WellFormed(View())
      modifies this`rows, d`sent
      ensures var r := Report(old(View()));
              if any then View() == r.0 && d.View() == old(d.View()).(sent := old(d.sent) + r.1)
              else View() == old(View()) && d.View() == old(d.View())
    {
      hide Report, Keeps, GoodTable;
      if any {
        SendStatsNotification(d);
      }
    }

    // One action of the row that was current when the turn began.
    method TakeAction(d: Device, row: Row, action: Action, note: bool) returns (dropped: bool)
      requires WellFormed(View()) && 1 <= row.nextState <= NO_NEXT_STATE
      modifies this`currentState, this`flowEntry, this`statId, this`stats, this`rows, d
      ensures var t := Act(Turn(old(View()), old(d.View()), false), row, action, note);
              d.View() == t.world && dropped == t.dropped && (!dropped ==> View() == t.agent)
    {
      hide Act, Goto, Report, LinkReport, Keeps, GoodTable;
      ActIs(Turn(View(), d.View(), false), row, action, note);
      dropped := false;
      if (action == NotifyController || notifyNow) && totIntervals == 0 {
        NotifyIfAny(d, note || row.flowExists);
      } else if (action == NotifyAfterN || notifyAfterN) && intervalCount == 0 {
        NotifyIfAny(d, note || row.flowExists);
      } else if action == NotifyLinkUtilization || notifyLinkUtil {
        SendLinkUtilization(d);
      } else if action == Action.GotoNextState && row.nextState != NO_NEXT_STATE {
        var ok := GotoNextState(d, row.nextState);
        dropped := !ok;
      }
    }

    // The row's actions in order.
    method TakeActions(d: Device, row: Row, note: bool) returns (dropped: bool)
      requires WellFormed(View()) && 1 <= row.nextState <= NO_NEXT_STATE
      modifies this`currentState, this`flowEntry, this`statId, this`stats, this`rows, d
      ensures var t := RunActions(Turn(old(View()), old(d.View()), false), row, row.actions, note);
              d.View() == t.world && dropped == t.dropped && (!dropped ==> View() == t.agent)
    {
      hide Act, Keeps, GoodTable;
      ghost var t0 := Turn(View(), d.View(), false);
      dropped := false;
      for act := 0 to |row.actions|
        invariant WellFormed(View()) && !dropped
        invariant Turn(View(), d.View(), false) == RunActions(t0, row, row.actions[..act], note)
      {
        assert row.actions[..act + 1][..act] == row.actions[..act];
        dropped := TakeAction(d, row, row.actions[act], note);
        if dropped {
          ActionsStopAt(t0, row, row.actions, act + 1, note);
          return;
        }
      }
      assert row.actions[..|row.actions|] == row.actions;
    }

    // The turn of one agent in s_timer_event.
    method Poll(d: Device, limit: PortLimit, note: bool) returns (dropped: bool)
      requires WellFormed(View())
      modifies this`intervalCount, this`currentState, this`flowEntry, this`statId, this`stats, this`rows, d
      ensures var t := PollAgent(old(View()), old(d.View()), limit, note);
              d.View() == t.world && dropped == t.dropped && (!dropped ==> View() == t.agent)
    {
      hide RunActions, Sampled, Keeps;
      var row := rows[RowAt(currentState as int - 1)];
      Sample(d);
      if stats.flowStart.bytes > limit.maxData {
        d.Publish(PortData(monId, limit.port, stats.flowEnd.bytes));
      }
      assert Turn(View(), d.View(), false) == BeforeActions(old(View()), old(d.View()), limit);
      dropped := TakeActions(d, row, note);
    }
  }

  // Once the agent is dropped the rest of the list is not looked at.
  lemma {:induction false} ActionsStopAt(t: Turn, row: Row, acts: seq<Action>, n: nat, note: bool)
    requires !t.dropped && WellFormed(t.agent) && 1 <= row.nextState <= NO_NEXT_STATE
    requires n <= |acts| && RunActions(t, row, acts[..n], note).dropped
    ensures RunActions(t, row, acts, note) == RunActions(t, row, acts[..n], note)
    decreases |acts|
  {
    if n == |acts| {
      assert acts[..n] == acts;
    } else {
      var init := acts[..|acts| - 1];
      assert init[..n] == acts[..n];
      ActionsStopAt(t, row, init, n, note);
    }
  }
}
