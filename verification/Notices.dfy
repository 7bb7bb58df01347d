// Which notifications a turn publishes, for every agent and every answer of the switch, in
// terms of the row, the flags, the thresholds and the readings.
module Notices {
  import opened Words
  import opened Switch
  import opened Agents
  import opened Turns
  import opened Refusals
  import opened Rows

  // The report of the counters whose bits are set, with their latest values.
  function Notice(monId: int, bits: bv8, latest: Counters): Msg {
    EventNotification(monId,
                      if bits == 1 || bits == 3 then Some(latest.packets) else None,
                      if bits == 2 || bits == 3 then Some(latest.bytes) else None)
  }

  lemma ReportIsNotice(b: Agent, i: int)
    requires WellFormed(b) && InRow(b, i)
    ensures var bits := b.rows[i].events;
            && Report(b).1 == (if bits == 0 then [] else [Notice(b.monId, bits, b.stats.flowEnd)])
            && Report(b).0 == b.(rows := b.rows[i := b.rows[i].(events := 0)])
  {
    RowOfState(b, i);
    SmallBits(b.rows[i].events);
    assert b.rows[i].events == 0 ==> b.rows[i := b.rows[i].(events := 0)] == b.rows;
  }

  lemma SmallBits(bits: bv8)
    requires bits <= 3
    ensures (bits & 1 != 0 <==> bits == 1 || bits == 3) && (bits & 2 != 0 <==> bits == 2 || bits == 3)
  {
  }

  // ---------- who is told ----------

  // Listing an action, or setting the flag of its kind, notifies the controller: at every
  // poll when no number of intervals is set, or when the counter comes round at this one.
  predicate TellsNow(a: Agent, act: Action) {
    || ((act == NotifyController || a.notifyNow) && a.totIntervals == 0)
    || ((act == NotifyAfterN || a.notifyAfterN) && NextCount(a) == 0)
  }

  ghost predicate Telling(a: Agent, acts: seq<Action>) {
    exists act :: act in acts && TellsNow(a, act)
  }

  lemma TellsWhenSampled(a: Agent, hw: Hw, b: Agent, acts: seq<Action>)
    requires WellFormed(a) && Keeps(Sampled(a, hw), b)
    ensures forall act :: Tells(b, act) == TellsNow(a, act)
    ensures Notifies(b, acts) == Telling(a, acts)
  {
    hide Sampled;
    SamplingKeeps(a, hw);
  }

  // What the flow half of sampling leaves for the report.
  function BitsNow(a: Agent, i: int, hw: Hw): bv8
    requires 0 <= i < |a.rows|
  {
    if Watches(a, a.rows[i]) then BitsAfter(a, a.rows[i], Reading(hw, a.statId)) else a.rows[i].events
  }

  function LatestNow(a: Agent, i: int, hw: Hw): Counters
    requires 0 <= i < |a.rows|
  {
    if Watches(a, a.rows[i]) then Reading(hw, a.statId) else a.stats.flowEnd
  }

  // The one report that is due if the controller is told.
  function OwnNotice(a: Agent, i: int, hw: Hw): seq<Msg>
    requires 0 <= i < |a.rows|
  {
    if BitsNow(a, i, hw) == 0 then [] else [Notice(a.monId, BitsNow(a, i, hw), LatestNow(a, i, hw))]
  }

  lemma SampledNotice(a: Agent, hw: Hw, i: int)
    requires WellFormed(a) && InRow(a, i)
    ensures var b := Sampled(a, hw);
            && WellFormed(b) && InRow(b, i) && b.rows == a.rows[i := a.rows[i].(events := BitsNow(a, i, hw))]
            && Report(b).1 == OwnNotice(a, i, hw)
            && Report(b).0 == b.(rows := a.rows[i := a.rows[i].(events := 0)])
  {
    hide Sampled, Notice, BitsAfter, Reading, GoodTable;
    FlowSampledByState(a, hw, i);
    SamplingKeeps(a, hw);
    var b := Sampled(a, hw);
    assert WellFormed(b);
    assert !Watches(a, a.rows[i]) ==> a.rows[i := a.rows[i].(events := a.rows[i].events)] == a.rows;
    ReportIsNotice(b, i);
    assert a.rows[i := a.rows[i].(events := BitsNow(a, i, hw))][i := b.rows[i].(events := 0)] == a.rows[i := a.rows[i].(events := 0)];
  }

  // ---------- turns without a transition ----------

  // The actions up to the first transition publish the due report if one of them tells the
  // controller and there is an event or the row has a flow, however many do, and no other.
  lemma ActionsBeforeGoto(a: Agent, w: World, limit: PortLimit, note: bool, i: int, acts: seq<Action>)
    requires WellFormed(a) && InRow(a, i)
    requires forall act :: act in acts ==> BranchOf(Sampled(a, w.hw), a.rows[i], act) != Transition
    ensures var r := RunActions(BeforeActions(a, w, limit), a.rows[i], acts, note);
            var sends := (note || a.rows[i].flowExists) && Telling(a, acts);
            && !r.dropped && r.world.hw == w.hw && r.agent.monId == a.monId
            && Reports(r.world.sent) == Reports(w.sent) + (if sends then OwnNotice(a, i, w.hw) else [])
            && r.agent.rows == a.rows[i := a.rows[i].(events := if sends then 0 else BitsNow(a, i, w.hw))]
  {
    hide RunActions, Sampled, Reports, OwnNotice, BitsNow, Report, PortDataReport;
    var b, t0 := Sampled(a, w.hw), BeforeActions(a, w, limit);
    SampledNotice(a, w.hw, i);
    SamplingKeeps(a, w.hw);
    TellsWhenSampled(a, w.hw, b, acts);
    PortReportIsNoReport(b, limit);
    ReportsOfAppend(w.sent, PortDataReport(b, limit));
    ReportsOfActions(t0, a.rows[i], acts, note);
  }

  lemma NoTransition(a: Agent, hw: Hw, i: int)
    requires WellFormed(a) && InRow(a, i) && !Transits(a, a.rows[i])
    ensures forall act :: act in a.rows[i].actions ==> BranchOf(Sampled(a, hw), a.rows[i], act) != Transition
  {
    hide Sampled, BranchOf;
    RowOfState(a, i);
    TransitsIffTakesGoto(a, i);
    GoesIffTakesGoto(a, hw);
  }

  // All the reports of a turn without a transition.
  lemma ReportIffDue(a: Agent, w: World, limit: PortLimit, note: bool, i: int)
    requires WellFormed(a) && InRow(a, i) && !Transits(a, a.rows[i])
    ensures var t, row := PollAgent(a, w, limit, note), a.rows[i];
            var sends := (note || row.flowExists) && Telling(a, row.actions);
            && !t.dropped
            && Reports(t.world.sent) == Reports(w.sent) + (if sends then OwnNotice(a, i, w.hw) else [])
            && t.agent.rows == a.rows[i := row.(events := if sends then 0 else BitsNow(a, i, w.hw))]
  {
    hide RunActions, Sampled, Reports, OwnNotice, BitsNow, Transits;
    RowOfState(a, i);
    NoTransition(a, w.hw, i);
    ActionsBeforeGoto(a, w, limit, note, i, a.rows[i].actions);
  }

  // ---------- turns with a transition ----------

  // The actions from the first transition on report, at most once, what is set in the row
  // that it selects.
  ghost predicate LaterReports(before: seq<Msg>, after: seq<Msg>, sends: bool, monId: int, bits: bv8) {
    if sends && bits != 0 then exists latest :: Reports(after) == Reports(before) + [Notice(monId, bits, latest)]
    else Reports(after) == Reports(before)
  }

  // Still in the state of the transition, with these bits in its row.
  ghost predicate Arrived(a: Agent, state: int, j: int, bits: bv8) {
    WellFormed(a) && a.currentState == state && InRow(a, j) && a.rows[j].events == bits
  }

  lemma GotoPublishesNothing(a: Agent, w: World, next: int)
    requires WellFormed(a) && 1 <= next < NO_NEXT_STATE
    ensures var t := Goto(a, w, next);
            && t.world.sent == w.sent
            && (!t.dropped ==> t.agent.rows == a.rows && t.agent.currentState == next && t.agent.monId == a.monId)
  {
    hide StartFlow, EntryDestroy;
  }

  // One action after the first transition.
  lemma ActAfterGoto(t: Turn, row: Row, act: Action, note: bool, j: int, bits: bv8)
    requires !t.dropped && 1 <= row.nextState < NO_NEXT_STATE && Arrived(t.agent, row.nextState, j, bits)
    ensures var r := Act(t, row, act, note);
            var sends := Tells(t.agent, act) && (note || row.flowExists);
            && LaterReports(t.world.sent, r.world.sent, sends, t.agent.monId, bits)
            && (!r.dropped ==> r.agent.monId == t.agent.monId && Arrived(r.agent, row.nextState, j, if sends then 0 else bits))
  {
    TellsIsNotify(t.agent, row, act);
    ActIs(t, row, act, note);
    ReportIsNotice(t.agent, j);
    hide Act, Goto, LinkReport, Report, Reports, Notice, Tells, BranchOf, GoodTable;
    if BranchOf(t.agent, row, act) == Transition {
      GotoPublishesNothing(t.agent, t.world, row.nextState);
    } else if BranchOf(t.agent, row, act) == LinkCheck {
      LinkReportIsNoReport(t.agent);
      ReportsOfAppend(t.world.sent, LinkReport(t.agent));
    } else if BranchOf(t.agent, row, act) == Notify {
      ReportsOfAppend(t.world.sent, Report(t.agent).1);
      DueReportIsReport(t.agent);
    }
  }

  // Some action between the n-th and the k-th tells the controller, and the agent was not
  // dropped before it.
  ghost predicate ToldBetween(a: Agent, t0: Turn, row: Row, acts: seq<Action>, note: bool, n: nat, k: nat)
    requires !t0.dropped && WellFormed(t0.agent) && 1 <= row.nextState <= NO_NEXT_STATE && k <= |acts|
  {
    exists m :: n < m < k && TellsNow(a, acts[m]) && !RunActions(t0, row, acts[..m], note).dropped
  }

  lemma ToldNext(a: Agent, t0: Turn, row: Row, acts: seq<Action>, note: bool, n: nat, k: nat)
    requires !t0.dropped && WellFormed(t0.agent) && 1 <= row.nextState <= NO_NEXT_STATE && n < k < |acts|
    ensures ToldBetween(a, t0, row, acts, note, n, k + 1)
            <==> ToldBetween(a, t0, row, acts, note, n, k)
                 || (TellsNow(a, acts[k]) && !RunActions(t0, row, acts[..k], note).dropped)
  {
    if m :| n < m < k && TellsNow(a, acts[m]) && !RunActions(t0, row, acts[..m], note).dropped {
      assert n < m < k + 1;
    }
  }

  ghost predicate AfterGoto(a: Agent, t0: Turn, row: Row, acts: seq<Action>, note: bool, n: nat, k: nat, j: int, bits: bv8, sent: seq<Msg>)
    requires !t0.dropped && WellFormed(t0.agent) && 1 <= row.nextState <= NO_NEXT_STATE && k <= |acts|
  {
    var r, sends := RunActions(t0, row, acts[..k], note), (note || row.flowExists) && ToldBetween(a, t0, row, acts, note, n, k);
    && LaterReports(sent, r.world.sent, sends, a.monId, bits)
    && (!r.dropped ==> r.agent.monId == a.monId && Arrived(r.agent, row.nextState, j, if sends then 0 else bits))
  }

  lemma RunNext(t0: Turn, row: Row, acts: seq<Action>, note: bool, k: nat)
    requires !t0.dropped && WellFormed(t0.agent) && 1 <= row.nextState <= NO_NEXT_STATE && k < |acts|
    ensures var before := RunActions(t0, row, acts[..k], note);
            RunActions(t0, row, acts[..k + 1], note) == if before.dropped then before else Act(before, row, acts[k], note)
  {
    assert acts[..k + 1][..k] == acts[..k];
  }

  lemma {:induction false} ActionsAfterGoto(a: Agent, hw: Hw, t0: Turn, row: Row, acts: seq<Action>, note: bool, n: nat, k: nat, j: int, bits: bv8, sent: seq<Msg>)
    requires WellFormed(a) && !t0.dropped && WellFormed(t0.agent) && Keeps(Sampled(a, hw), t0.agent)
    requires 1 <= row.nextState < NO_NEXT_STATE && n < k <= |acts|
    requires AfterGoto(a, t0, row, acts, note, n, n + 1, j, bits, sent)
    ensures AfterGoto(a, t0, row, acts, note, n, k, j, bits, sent)
  {
    hide RunActions, Act, Sampled, LaterReports, Arrived, TellsNow, Tells, ToldBetween, Keeps;
    if n + 1 < k {
      ActionsAfterGoto(a, hw, t0, row, acts, note, n, k - 1, j, bits, sent);
      var before := RunActions(t0, row, acts[..k - 1], note);
      RunNext(t0, row, acts, note, k - 1);
      ToldNext(a, t0, row, acts, note, n, k - 1);
      if !before.dropped {
        var told := (note || row.flowExists) && ToldBetween(a, t0, row, acts, note, n, k - 1);
        KeepsTwice(Sampled(a, hw), t0.agent, before.agent);
        TellsWhenSampled(a, hw, before.agent, acts);
        ArrivedIsWellFormed(before.agent, row.nextState, j, if told then 0 else bits);
        ActAfterGoto(before, row, acts[k - 1], note, j, if told then 0 else bits);
        ReportsLater(sent, before.world.sent, RunActions(t0, row, acts[..k], note).world.sent, told,
                     Tells(before.agent, acts[k - 1]) && (note || row.flowExists), a.monId, bits);
      }
    }
  }

  lemma ArrivedIsWellFormed(a: Agent, state: int, j: int, bits: bv8)
    requires Arrived(a, state, j, bits)
    ensures WellFormed(a)
  {
  }

  lemma KeepsItself(a: Agent)
    ensures Keeps(a, a)
  {
  }

  lemma KeepsTwice(a: Agent, b: Agent, c: Agent)
    requires Keeps(a, b) && Keeps(b, c)
    ensures Keeps(a, c)
  {
  }

  lemma ReportsLater(x: seq<Msg>, y: seq<Msg>, z: seq<Msg>, first: bool, second: bool, monId: int, bits: bv8)
    requires LaterReports(x, y, first, monId, bits) && LaterReports(y, z, second, monId, if first then 0 else bits)
    ensures LaterReports(x, z, first || second, monId, bits)
  {
  }

  // The n-th action is the first GOTO of the row.
  ghost predicate FirstGoto(row: Row, n: nat) {
    n < |row.actions| && row.actions[n] == GotoNextState && GotoNextState !in row.actions[..n]
  }

  // The bits of the row that the transition selects, as the actions before it leave them.
  function BitsThen(a: Agent, i: int, j: int, hw: Hw, reported: bool): bv8
    requires 0 <= i < |a.rows| && 0 <= j < |a.rows|
  {
    if j != i then a.rows[j].events else if reported then 0 else BitsNow(a, i, hw)
  }

  // The actions before the first GOTO take no transition, and the GOTO does.
  lemma FirstGotoGoes(a: Agent, w: World, limit: PortLimit, note: bool, i: int, n: nat)
    requires WellFormed(a) && InRow(a, i) && Transits(a, a.rows[i]) && FirstGoto(a.rows[i], n)
    ensures forall act :: act in a.rows[i].actions[..n] ==> BranchOf(Sampled(a, w.hw), a.rows[i], act) != Transition
    ensures var row, t0 := a.rows[i], BeforeActions(a, w, limit);
            var before := RunActions(t0, row, row.actions[..n], note);
            1 <= row.nextState < NO_NEXT_STATE
            && (!before.dropped ==>
                  RunActions(t0, row, row.actions[..n + 1], note) == Goto(before.agent, before.world, row.nextState))
  {
    var row, b, t0 := a.rows[i], Sampled(a, w.hw), BeforeActions(a, w, limit);
    RowOfState(a, i);
    TransitsIffTakesGoto(a, i);
    SampledGoes(a, w.hw);
    assert 1 <= row.nextState < NO_NEXT_STATE && t0.agent == b;
    hide RunActions, BeforeActions, Act, Goto, Sampled, Transits, TakesGoto, BranchOf, GoodTable, Keeps;
    var before := RunActions(t0, row, row.actions[..n], note);
    RunNext(t0, row, row.actions, note, n);
    if !before.dropped {
      SameBranch(b, before.agent, row, GotoNextState);
      ActIs(before, row, GotoNextState, note);
    }
  }

  lemma GotoArrives(a: Agent, w: World, limit: PortLimit, note: bool, i: int, n: nat, j: int)
    requires WellFormed(a) && InRow(a, i) && Transits(a, a.rows[i])
    requires FirstGoto(a.rows[i], n) && Selects(a.rows, a.rows[i].nextState, j)
    ensures var row, t0 := a.rows[i], BeforeActions(a, w, limit);
            var first := (note || row.flowExists) && Telling(a, row.actions[..n]);
            var before := RunActions(t0, row, row.actions[..n], note);
            && Reports(before.world.sent) == Reports(w.sent) + (if first then OwnNotice(a, i, w.hw) else [])
            && AfterGoto(a, t0, row, row.actions, note, n, n + 1, j, BitsThen(a, i, j, w.hw, first), before.world.sent)
  {
    var row, t0 := a.rows[i], BeforeActions(a, w, limit);
    assert 1 <= row.nextState <= NO_NEXT_STATE;
    hide RunActions, BeforeActions, Goto, Sampled, Reports, OwnNotice, BitsNow, Transits, Telling, TellsNow, BranchOf, GoodTable,
      Keeps, LaterReports, BitsThen, Arrived, ToldBetween;
    FirstGotoGoes(a, w, limit, note, i, n);
    ActionsBeforeGoto(a, w, limit, note, i, row.actions[..n]);
    var before := RunActions(t0, row, row.actions[..n], note);
    var first := (note || row.flowExists) && Telling(a, row.actions[..n]);
    var bits := BitsThen(a, i, j, w.hw, first);
    RowThen(a, i, j, w.hw, first, before.agent);
    GotoPublishesNothing(before.agent, before.world, row.nextState);
    ArrivesInRow(before.agent, before.world, row.nextState, j, bits);
    NothingLater(before.world.sent, a.monId, bits);
    ToldNothing(a, t0, row, row.actions, note, n);
  }

  lemma ToldNothing(a: Agent, t0: Turn, row: Row, acts: seq<Action>, note: bool, n: nat)
    requires !t0.dropped && WellFormed(t0.agent) && 1 <= row.nextState <= NO_NEXT_STATE && n < |acts|
    ensures !ToldBetween(a, t0, row, acts, note, n, n + 1)
  {
  }

  lemma NothingLater(sent: seq<Msg>, monId: int, bits: bv8)
    ensures LaterReports(sent, sent, false, monId, bits)
  {
  }

  lemma RowThen(a: Agent, i: int, j: int, hw: Hw, reported: bool, c: Agent)
    requires 0 <= i < |a.rows| && 0 <= j < |a.rows|
    requires c.rows == a.rows[i := a.rows[i].(events := if reported then 0 else BitsNow(a, i, hw))]
    ensures |c.rows| == |a.rows| && c.rows[j].events == BitsThen(a, i, j, hw, reported)
  {
  }

  lemma ArrivesInRow(c: Agent, w: World, next: int, j: int, bits: bv8)
    requires WellFormed(c) && 1 <= next < NO_NEXT_STATE && Selects(c.rows, next, j) && c.rows[j].events == bits
    ensures var t := Goto(c, w, next); !t.dropped ==> Arrived(t.agent, next, j, bits)
  {
    hide Goto;
    GotoPublishesNothing(c, w, next);
  }

  lemma SameBranch(b: Agent, c: Agent, row: Row, act: Action)
    requires Keeps(b, c)
    ensures BranchOf(b, row, act) == BranchOf(c, row, act)
  {
  }

  // The m-th action is taken: the switch has refused none of the entries that the GOTOs
  // before it ask for.
  ghost predicate Taken(a: Agent, hw: Hw, row: Row, j: int, m: int)
    requires 0 <= j < |a.rows| && 0 <= m <= |row.actions|
  {
    !Refuses(hw, if a.rows[j].flowExists then GotoCount(row.actions[..m]) else 0)
  }

  lemma TakenIff(a: Agent, w: World, limit: PortLimit, note: bool, i: int, j: int, m: nat)
    requires WellFormed(a) && InRow(a, i) && Transits(a, a.rows[i]) && Selects(a.rows, a.rows[i].nextState, j)
    requires m <= |a.rows[i].actions|
    ensures Taken(a, w.hw, a.rows[i], j, m)
            <==> !RunActions(BeforeActions(a, w, limit), a.rows[i], a.rows[i].actions[..m], note).dropped
  {
    var row, b := a.rows[i], Sampled(a, w.hw);
    RowOfState(a, i);
    TransitsIffTakesGoto(a, i);
    SampledGoes(a, w.hw);
    RowAfter(a.rows, row.nextState, j);
    SameFlowAfter(a.rows, b.rows, row.nextState);
    hide RunActions, Sampled, Transits, TakesGoto, BranchOf, FlowAfter, Refuses;
    ActionsAsk(BeforeActions(a, w, limit), row, row.actions[..m], note, true);
  }

  // Some action after the n-th is taken and tells the controller.
  ghost predicate ToldLater(a: Agent, hw: Hw, row: Row, j: int, n: nat)
    requires 0 <= j < |a.rows|
  {
    exists m :: n < m < |row.actions| && TellsNow(a, row.actions[m]) && Taken(a, hw, row, j, m)
  }

  lemma ToldLaterIff(a: Agent, w: World, limit: PortLimit, note: bool, i: int, n: nat, j: int)
    requires WellFormed(a) && InRow(a, i) && Transits(a, a.rows[i]) && Selects(a.rows, a.rows[i].nextState, j)
    ensures var row := a.rows[i];
            ToldLater(a, w.hw, row, j, n) <==> ToldBetween(a, BeforeActions(a, w, limit), row, row.actions, note, n, |row.actions|)
  {
    hide RunActions, Transits, TellsNow, Taken;
    var row := a.rows[i];
    forall m: nat | m < |row.actions|
      ensures Taken(a, w.hw, row, j, m) <==> !RunActions(BeforeActions(a, w, limit), row, row.actions[..m], note).dropped
    {
      TakenIff(a, w, limit, note, i, j, m);
    }
  }

  // All the reports of a turn with a transition: what is due before it, as in any other turn;
  // and after it, at most once, what the bits in the row that it selects call for.
  lemma TransitionReports(a: Agent, w: World, limit: PortLimit, note: bool, i: int, n: nat, j: int)
    requires WellFormed(a) && InRow(a, i) && Transits(a, a.rows[i])
    requires FirstGoto(a.rows[i], n) && Selects(a.rows, a.rows[i].nextState, j)
    ensures var row, t := a.rows[i], PollAgent(a, w, limit, note);
            var any := note || row.flowExists;
            var first := any && Telling(a, row.actions[..n]);
            var bits := BitsThen(a, i, j, w.hw, first);
            var own := Reports(w.sent) + if first then OwnNotice(a, i, w.hw) else [];
            if any && ToldLater(a, w.hw, row, j, n) && bits != 0
            then exists latest :: Reports(t.world.sent) == own + [Notice(a.monId, bits, latest)]
            else Reports(t.world.sent) == own
  {
    var row, t0 := a.rows[i], BeforeActions(a, w, limit);
    RowOfState(a, i);
    assert 1 <= row.nextState < NO_NEXT_STATE && t0.agent == Sampled(a, w.hw);
    KeepsItself(t0.agent);
    hide RunActions, BeforeActions, Sampled, Reports, OwnNotice, BitsNow, BitsThen, Transits, Telling, ToldLater, ToldBetween, GoodTable, Keeps;
    GotoArrives(a, w, limit, note, i, n, j);
    var first := (note || row.flowExists) && Telling(a, row.actions[..n]);
    ActionsAfterGoto(a, w.hw, t0, row, row.actions, note, n, |row.actions|, j, BitsThen(a, i, j, w.hw, first),
                     RunActions(t0, row, row.actions[..n], note).world.sent);
    ToldLaterIff(a, w, limit, note, i, n, j);
    assert row.actions[..|row.actions|] == row.actions;
  }

  lemma {:induction false} SomeFirstGoto(acts: seq<Action>)
    requires GotoNextState in acts
    ensures exists n: nat :: n < |acts| && acts[n] == GotoNextState && GotoNextState !in acts[..n]
  {
    var init, last := acts[..|acts| - 1], acts[|acts| - 1];
    assert acts == init + [last];
    if GotoNextState in init {
      SomeFirstGoto(init);
      var n: nat :| n < |init| && init[n] == GotoNextState && GotoNextState !in init[..n];
      assert acts[n] == GotoNextState && acts[..n] == init[..n];
    } else {
      assert acts[..|acts| - 1] == init && acts[|acts| - 1] == GotoNextState;
    }
  }

  // ---------- link utilisation and port data ----------

  // The messages of one of the other two kinds.
  function Others(msgs: seq<Msg>, links: bool): seq<Msg> {
    if msgs == [] then []
    else
      var rest, last := Others(msgs[..|msgs| - 1], links), msgs[|msgs| - 1];
      if (if links then last.LinkUtilization? else last.PortData?) then rest + [last] else rest
  }

  lemma OthersOfAppend(msgs: seq<Msg>, more: seq<Msg>, links: bool)
    requires |more| <= 1
    ensures Others(msgs + more, links) == Others(msgs, links) + Others(more, links)
  {
    if more == [] {
      assert msgs + more == msgs;
    } else {
      assert (msgs + more)[..|msgs + more| - 1] == msgs;
      assert more[..0] == [];
    }
  }

  lemma OneMessage(m: Msg, links: bool)
    ensures Others([m], links) == if (if links then m.LinkUtilization? else m.PortData?) then [m] else []
  {
    assert [m][..0] == [];
  }

  // The flow's share of the port's incoming packets, in percent, is at the threshold; the
  // sum of the two counters is unsigned, and with a sum of zero any packet counts.
  predicate Utilized(flow: int, unicast: int, nonUnicast: int, threshold: int) {
    var sum := (unicast + nonUnicast) % TWO_64;
    if sum == 0 then flow != 0 else threshold * sum <= 100 * flow
  }

  // The notification that a check of the link publishes.
  function LinkNotice(a: Agent): seq<Msg> {
    var flow, unicast, other := a.stats.flowInterval.packets, a.stats.portInterval[0], a.stats.portInterval[1];
    if a.notifyLinkUtil && a.monType == FP_STATS && unicast != 0 && a.linkThreshold != 0
       && Utilized(flow, unicast, other, a.linkThreshold)
    then [LinkUtilization(a.monId, unicast, other, flow)] else []
  }

  lemma LinkReportIsNotice(a: Agent)
    ensures LinkReport(a) == LinkNotice(a)
  {
    UnsignedSum(a.stats.portInterval[0], a.stats.portInterval[1]);
  }

  lemma UnsignedSum(x: int, y: int)
    ensures ToU64(ToU64(x) + ToU64(y)) == (x + y) % TWO_64
  {
  }

  lemma NoticeKinds(a: Agent, links: bool)
    requires WellFormed(a)
    ensures |LinkNotice(a)| <= 1 && Others(LinkNotice(a), links) == if links then LinkNotice(a) else []
    ensures |Report(a).1| <= 1 && Others(Report(a).1, links) == []
  {
    LinkNoticeIsLink(a);
    ReportIsEvent(a);
    hide LinkNotice, Report, GoodTable, Keeps;
    if LinkNotice(a) != [] {
      OneMessage(LinkNotice(a)[0], links);
      assert LinkNotice(a) == [LinkNotice(a)[0]];
    }
    if Report(a).1 != [] {
      OneMessage(Report(a).1[0], links);
      assert Report(a).1 == [Report(a).1[0]];
    }
  }

  lemma LinkNoticeIsLink(a: Agent)
    ensures LinkNotice(a) == [] || (|LinkNotice(a)| == 1 && LinkNotice(a)[0].LinkUtilization?)
  {
    hide Utilized;
  }

  lemma ReportIsEvent(a: Agent)
    requires WellFormed(a)
    ensures Report(a).1 == [] || (|Report(a).1| == 1 && Report(a).1[0].EventNotification?)
  {
    hide SetEvents, GoodTable, Keeps;
  }

  // An action that does not tell the controller checks the link, if it is of that kind or
  // the flag is set.
  predicate Checks(a: Agent, act: Action) {
    !TellsNow(a, act) && (act == NotifyLinkUtilization || a.notifyLinkUtil)
  }

  lemma LinkBranch(a: Agent, row: Row, act: Action)
    ensures BranchOf(a, row, act) == LinkCheck <==> !Tells(a, act) && (act == NotifyLinkUtilization || a.notifyLinkUtil)
  {
  }

  lemma OthersOfAct(a: Agent, t: Turn, row: Row, act: Action, note: bool, links: bool)
    requires !t.dropped && WellFormed(t.agent) && 1 <= row.nextState <= NO_NEXT_STATE
    requires Tells(t.agent, act) == TellsNow(a, act) && t.agent.notifyLinkUtil == a.notifyLinkUtil
    ensures var r := Act(t, row, act, note);
            Others(r.world.sent, links) == Others(t.world.sent, links) + (if links && Checks(a, act) then LinkNotice(t.agent) else [])
  {
    TellsIsNotify(t.agent, row, act);
    LinkBranch(t.agent, row, act);
    ActIs(t, row, act, note);
    hide Act, Goto, LinkReport, LinkNotice, Report, Others, Tells, TellsNow, BranchOf, GoodTable;
    LinkReportIsNotice(t.agent);
    NoticeKinds(t.agent, links);
    OthersOfAppend(t.world.sent, LinkNotice(t.agent), links);
    OthersOfAppend(t.world.sent, Report(t.agent).1, links);
    if BranchOf(t.agent, row, act) == Transition {
      GotoPublishesNothing(t.agent, t.world, row.nextState);
    }
  }

  // What the checks among the actions publish from an agent on these samples: the same
  // notification for each.
  function CheckNotices(a: Agent, b: Agent, acts: seq<Action>): seq<Msg> {
    if acts == [] then []
    else
      CheckNotices(a, b, acts[..|acts| - 1]) + if Checks(a, acts[|acts| - 1]) then LinkNotice(b) else []
  }

  lemma SameLinkNotice(a: Agent, b: Agent, c: Agent)
    requires Keeps(b, c) && b.notifyLinkUtil == a.notifyLinkUtil && (a.notifyLinkUtil ==> b.stats == c.stats)
    ensures LinkNotice(b) == LinkNotice(c)
  {
  }

  // With the link flag set no action is a transition, so the samples stay; without it the
  // notification is never due.
  lemma {:induction false} OthersOfActions(a: Agent, hw: Hw, t0: Turn, row: Row, acts: seq<Action>, note: bool, links: bool)
    requires WellFormed(a) && !t0.dropped && WellFormed(t0.agent) && t0.agent == Sampled(a, hw) && 1 <= row.nextState <= NO_NEXT_STATE
    ensures var r := RunActions(t0, row, acts, note);
            && Others(r.world.sent, links) == Others(t0.world.sent, links) + (if links then CheckNotices(a, t0.agent, acts) else [])
            && (a.notifyLinkUtil ==> !r.dropped && r.agent.stats == t0.agent.stats)
  {
    hide Act, Sampled, LinkNotice, Others, Checks, Tells, TellsNow;
    if acts != [] {
      var init, last := acts[..|acts| - 1], acts[|acts| - 1];
      OthersOfActions(a, hw, t0, row, init, note, links);
      SamplingKeeps(a, hw);
      var before := RunActions(t0, row, init, note);
      if before.dropped {
        NothingWithoutFlag(a, t0.agent, last);
      } else {
        TellsWhenSampled(a, hw, before.agent, acts);
        SameLinkNotice(a, t0.agent, before.agent);
        OthersOfAct(a, before, row, last, note, links);
        StateAfterAct(before, row, last, note);
        FlagBlocksGoto(before.agent, row, last);
      }
    }
  }

  lemma NothingWithoutFlag(a: Agent, b: Agent, act: Action)
    requires b.notifyLinkUtil == a.notifyLinkUtil
    ensures !a.notifyLinkUtil ==> LinkNotice(b) == []
  {
  }

  lemma FlagBlocksGoto(a: Agent, row: Row, act: Action)
    ensures a.notifyLinkUtil ==> BranchOf(a, row, act) != Transition
  {
  }

  // The port data notification, over the limit at the start of the interval.
  function PortNotice(a: Agent, i: int, hw: Hw, limit: PortLimit): seq<Msg>
    requires 0 <= i < |a.rows|
  {
    var before := if Watches(a, a.rows[i]) then a.stats.flowEnd.bytes else a.stats.flowStart.bytes;
    if limit.maxData < before then [PortData(a.monId, limit.port, LatestNow(a, i, hw).bytes)] else []
  }

  lemma PortDataIsNotice(a: Agent, hw: Hw, i: int, limit: PortLimit)
    requires WellFormed(a) && InRow(a, i)
    ensures PortDataReport(Sampled(a, hw), limit) == PortNotice(a, i, hw, limit)
  {
    hide Sampled, BitsAfter, Moved;
    FlowSampledByState(a, hw, i);
    SamplingKeeps(a, hw);
  }

  // The other notifications of any turn: the link's, once for every check that its actions
  // make, if it is over the threshold; and the port's at most once.
  lemma TurnOthers(a: Agent, w: World, limit: PortLimit, note: bool, i: int)
    requires WellFormed(a) && InRow(a, i)
    ensures var t := PollAgent(a, w, limit, note);
            && Others(t.world.sent, true) == Others(w.sent, true) + CheckNotices(a, Sampled(a, w.hw), a.rows[i].actions)
            && Others(t.world.sent, false) == Others(w.sent, false) + PortNotice(a, i, w.hw, limit)
  {
    hide RunActions, Sampled, Others, CheckNotices, PortNotice, PortDataReport, PollAgent, Transits;
    var t0, row := BeforeActions(a, w, limit), a.rows[i];
    TransitionByState(a, w, limit, note, i);
    PortDataIsNotice(a, w.hw, i, limit);
    OnePortNotice(a, i, w.hw, limit);
    OthersOfAppend(w.sent, PortNotice(a, i, w.hw, limit), true);
    OthersOfAppend(w.sent, PortNotice(a, i, w.hw, limit), false);
    OthersOfActions(a, w.hw, t0, row, row.actions, note, true);
    OthersOfActions(a, w.hw, t0, row, row.actions, note, false);
  }

  lemma OnePortNotice(a: Agent, i: int, hw: Hw, limit: PortLimit)
    requires 0 <= i < |a.rows|
    ensures var m := PortNotice(a, i, hw, limit);
            |m| <= 1 && Others(m, true) == [] && Others(m, false) == m
  {
    hide LatestNow, Watches;
    var m := PortNotice(a, i, hw, limit);
    if m != [] {
      OneMessage(m[0], true);
      OneMessage(m[0], false);
      assert m == [m[0]];
    }
  }
}
