// What one polling turn keeps, decides and reports, for every agent and every world.
module Turns {
  import opened Switch
  import opened Agents

  // ---------- at most one transition, decided by the row at the start ----------

  // No flag branch comes before GOTO, and the current row lists a GOTO that is not turned off.
  ghost predicate TakesGoto(a: Agent)
    requires WellFormed(a)
  {
    && GotoNextState in CurrentRow(a).actions
    && CurrentRow(a).nextState != NO_NEXT_STATE
    && !(a.notifyNow && a.totIntervals == 0)
    && !(a.notifyAfterN && CountInterval(a).intervalCount == 0)
    && !a.notifyLinkUtil
  }

  // What one action does, branch by branch.
  lemma ActIs(t: Turn, row: Row, act: Action, note: bool)
    requires !t.dropped && WellFormed(t.agent) && 1 <= row.nextState <= NO_NEXT_STATE
    ensures var r := Report(t.agent);
            Act(t, row, act, note) ==
            match BranchOf(t.agent, row, act)
            case Notify => if note || row.flowExists then Turn(r.0, t.world.(sent := t.world.sent + r.1), false) else t
            case LinkCheck => Turn(t.agent, t.world.(sent := t.world.sent + LinkReport(t.agent)), false)
            case Transition => Goto(t.agent, t.world, row.nextState)
            case Nothing => t
  {
    hide Goto, Report, LinkReport;
  }

  lemma StateAfterAct(t: Turn, row: Row, act: Action, note: bool)
    requires !t.dropped && WellFormed(t.agent) && 1 <= row.nextState <= NO_NEXT_STATE
    ensures var r := Act(t, row, act, note);
            if BranchOf(t.agent, row, act) == Transition
            then !r.dropped ==> r.agent.currentState == row.nextState
            else !r.dropped && r.world.hw == t.world.hw && OnlyEvents(t.agent, r.agent)
  {
  }

  lemma {:induction false} StateAfterActions(t: Turn, row: Row, acts: seq<Action>, note: bool)
    requires !t.dropped && WellFormed(t.agent) && 1 <= row.nextState <= NO_NEXT_STATE
    ensures var r := RunActions(t, row, acts, note);
            var goes := exists act :: act in acts && BranchOf(t.agent, row, act) == Transition;
            && (!r.dropped ==> r.agent.currentState == if goes then row.nextState else t.agent.currentState)
            && (!goes ==> !r.dropped && r.world.hw == t.world.hw && OnlyEvents(t.agent, r.agent))
  {
    if acts != [] {
      var init, last := acts[..|acts| - 1], acts[|acts| - 1];
      assert acts == init + [last];
      StateAfterActions(t, row, init, note);
      var before := RunActions(t, row, init, note);
      if !before.dropped {
        assert BranchOf(before.agent, row, last) == BranchOf(t.agent, row, last);
        StateAfterAct(before, row, last, note);
      }
    }
  }

  lemma GoesIffTakesGoto(a: Agent, hw: Hw)
    requires WellFormed(a)
    ensures (exists act :: act in CurrentRow(a).actions && BranchOf(Sampled(a, hw), CurrentRow(a), act) == Transition)
       <==> TakesGoto(a)
  {
    var b, row := Sampled(a, hw), CurrentRow(a);
    if TakesGoto(a) {
      assert BranchOf(b, row, GotoNextState) == Transition;
    }
  }

  // However often GOTO is listed, the turn ends in the start row's next state; without
  // GOTO it ends in the state, with the flow and on the samples it started with.
  lemma OneTransition(a: Agent, w: World, limit: PortLimit, note: bool)
    requires WellFormed(a)
    ensures var t := PollAgent(a, w, limit, note);
            && (!t.dropped ==> t.agent.currentState == if TakesGoto(a) then CurrentRow(a).nextState else a.currentState)
            && (!TakesGoto(a) ==>
                 !t.dropped && t.world.hw == w.hw && OnlyEvents(Sampled(a, w.hw), t.agent))
  {
    var row := CurrentRow(a);
    GoesIffTakesGoto(a, w.hw);
    StateAfterActions(BeforeActions(a, w, limit), row, row.actions, note);
  }

  // ---------- a report if and only if a threshold is crossed ----------

  function Reports(msgs: seq<Msg>): seq<Msg> {
    if msgs == [] then []
    else
      var rest, last := Reports(msgs[..|msgs| - 1]), msgs[|msgs| - 1];
      if last.EventNotification? then rest + [last] else rest
  }

  lemma ReportsOfAppend(msgs: seq<Msg>, more: seq<Msg>)
    requires |more| <= 1
    ensures Reports(msgs + more) == Reports(msgs) + Reports(more)
  {
    if more == [] {
      assert msgs + more == msgs;
    } else {
      assert (msgs + more)[..|msgs + more| - 1] == msgs;
      assert more[..0] == [];
    }
  }

  lemma LinkReportIsNoReport(a: Agent)
    ensures |LinkReport(a)| <= 1 && Reports(LinkReport(a)) == []
  {
    if LinkReport(a) != [] {
      assert LinkReport(a)[..0] == [];
    }
  }

  lemma PortReportIsNoReport(a: Agent, limit: PortLimit)
    ensures |PortDataReport(a, limit)| <= 1 && Reports(PortDataReport(a, limit)) == []
  {
    if PortDataReport(a, limit) != [] {
      assert PortDataReport(a, limit)[..0] == [];
    }
  }

  lemma DueReportIsReport(a: Agent)
    requires WellFormed(a)
    ensures Reports(DueReport(a)) == DueReport(a)
  {
    if DueReport(a) != [] {
      assert DueReport(a)[..0] == [];
    }
  }

  // The sender tests the numeric value of the bitmap: first for a packet event, and for a
  // byte event once the packet bit is cleared. That reads bits 0 and 1 exactly while no
  // higher bit is set, or both of them are.
  lemma SenderReadsBitsIff(events: bv8)
    ensures var packets := events == 1 || events > 2;
            var rest := if packets then events & 0xFE else events;
            (packets == (events & 1 != 0) && (rest >= 2) == (events & 2 != 0)) <==> events <= 3 || events & 3 == 3
  {
  }

  // The one report due while the bits of the current row are set.
  function DueReport(a: Agent): seq<Msg>
    requires WellFormed(a)
  {
    Report(a).1
  }

  // A listed action notifies the controller: at every poll when no number of intervals is
  // set, or when the counter has come round; a flag does for any action what listing does.
  predicate Tells(a: Agent, act: Action) {
    || ((act == NotifyController || a.notifyNow) && a.totIntervals == 0)
    || ((act == NotifyAfterN || a.notifyAfterN) && a.intervalCount == 0)
  }

  ghost predicate Notifies(a: Agent, acts: seq<Action>) {
    exists act :: act in acts && Tells(a, act)
  }

  lemma TellsIsNotify(a: Agent, row: Row, act: Action)
    ensures BranchOf(a, row, act) == Notify <==> Tells(a, act)
  {
  }

  lemma ReportsOfAct(t: Turn, row: Row, act: Action, note: bool)
    requires !t.dropped && WellFormed(t.agent) && 1 <= row.nextState <= NO_NEXT_STATE
    requires BranchOf(t.agent, row, act) != Transition
    ensures var r := Act(t, row, act, note);
            var sends := Tells(t.agent, act) && (note || row.flowExists);
            && !r.dropped
            && Reports(r.world.sent) == Reports(t.world.sent) + (if sends then DueReport(t.agent) else [])
            && r.agent == (if sends then Report(t.agent).0 else t.agent)
            && r.world.hw == t.world.hw
  {
    TellsIsNotify(t.agent, row, act);
    hide Goto, LinkReport, Report, Reports, Keeps, GoodTable, Tells;
    DueReportIsReport(t.agent);
    LinkReportIsNoReport(t.agent);
    ReportsOfAppend(t.world.sent, DueReport(t.agent));
    ReportsOfAppend(t.world.sent, LinkReport(t.agent));
  }

  // A second report finds no bit set.
  lemma ReportClears(a: Agent)
    requires WellFormed(a)
    ensures CurrentRow(Report(a).0).events == 0
    ensures Report(Report(a).0) == (Report(a).0, [])
  {
  }

  lemma NotifiesAppend(a: Agent, acts: seq<Action>, last: Action)
    ensures Notifies(a, acts + [last]) <==> Notifies(a, acts) || Tells(a, last)
  {
    assert last in acts + [last];
    assert forall act :: act in acts ==> act in acts + [last];
  }

  lemma {:induction false} ReportsOfActions(t: Turn, row: Row, acts: seq<Action>, note: bool)
    requires !t.dropped && WellFormed(t.agent) && 1 <= row.nextState <= NO_NEXT_STATE
    requires forall act :: act in acts ==> BranchOf(t.agent, row, act) != Transition
    ensures var r := RunActions(t, row, acts, note);
            var sends := Notifies(t.agent, acts) && (note || row.flowExists);
            && !r.dropped
            && Reports(r.world.sent) == Reports(t.world.sent) + (if sends then DueReport(t.agent) else [])
            && r.agent == (if sends then Report(t.agent).0 else t.agent)
            && r.world.hw == t.world.hw
  {
    hide Act, Report, Reports, GoodTable, Tells;
    if acts != [] {
      var init, last := acts[..|acts| - 1], acts[|acts| - 1];
      assert acts == init + [last];
      ReportsOfActions(t, row, init, note);
      var before := RunActions(t, row, init, note);
      assert BranchOf(before.agent, row, last) == BranchOf(t.agent, row, last);
      SameTells(t.agent, before.agent, last);
      NotifiesAppend(t.agent, init, last);
      ReportClears(t.agent);
      ReportsOfAct(before, row, last, note);
    }
  }

  lemma SameTells(a: Agent, b: Agent, act: Action)
    requires Keeps(a, b)
    ensures Tells(a, act) == Tells(b, act)
  {
  }

  lemma CurrentRowKept(a: Agent, b: Agent)
    requires WellFormed(a) && SameFlow(a, b)
    ensures Static(CurrentRow(b)) == Static(CurrentRow(a))
  {
    assert StaticRows(b.rows)[CurrentIndex(a)] == StaticRows(a.rows)[CurrentIndex(a)];
  }
}
