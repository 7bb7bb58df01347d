// The installations that a turn asks of the switch, and the refusals that end it.
module Refusals {
  import opened Switch
  import opened Agents
  import opened Turns

  // The n-th entry ever asked for is answered with -1, the one code that counts as a failure.
  ghost predicate AnswersMinusOne(hw: Hw, n: int) {
    hw.entryFate(n) == CreateRefused(INTERNAL) || hw.entryFate(n) == QualifyRefused(INTERNAL)
  }

  // The n-th from here on is.
  ghost predicate Refused(hw: Hw, n: int) {
    AnswersMinusOne(hw, hw.lastEntry + n)
  }

  // One of the next `n` is.
  ghost predicate Refuses(hw: Hw, n: int) {
    exists k :: 1 <= k <= n && Refused(hw, k)
  }

  ghost predicate SameFates(h: Hw, k: Hw) {
    h.entryFate == k.entryFate && h.statFate == k.statFate
  }

  // `n` entries and `n` statistics objects have been asked for since.
  ghost predicate Advanced(h: Hw, k: Hw, n: int) {
    SameFates(h, k) && k.lastEntry == h.lastEntry + n && k.lastStat == h.lastStat + n
  }

  // The latest answer was that refusal.
  ghost predicate JustRefused(h: Hw, k: Hw) {
    SameFates(h, k) && h.lastEntry < k.lastEntry && Refused(k, 0)
  }

  lemma RefusesLater(h: Hw, k: Hw, n: nat, m: nat)
    requires Advanced(h, k, n) && !Refuses(h, n)
    ensures Refuses(k, m) <==> Refuses(h, n + m)
  {
    if i :| 1 <= i <= m && Refused(k, i) {
      assert Refused(h, n + i);
    }
    if i :| 1 <= i <= n + m && Refused(h, i) {
      assert Refused(k, i - n);
    }
  }

  // Asking for `n` entries, and `m` more if none of them is refused.
  ghost predicate Asked(h: Hw, k: Hw, n: int, refused: bool) {
    && (refused <==> Refuses(h, n))
    && if refused then JustRefused(h, k) else Advanced(h, k, n)
  }

  lemma AskedMore(h: Hw, k: Hw, l: Hw, n: nat, m: nat, refused: bool)
    requires Asked(h, k, n, false) && Asked(k, l, m, refused)
    ensures Asked(h, l, n + m, refused)
  {
    RefusesLater(h, k, n, m);
  }

  lemma AskedBefore(h: Hw, k: Hw, n: nat, m: nat)
    requires Asked(h, k, n, true) && n <= m
    ensures Asked(h, k, m, true)
  {
    RefusesMore(h, n, m);
  }

  lemma AskedNothing(h: Hw)
    ensures Asked(h, h, 0, false)
  {
  }

  lemma RefusesMore(h: Hw, n: nat, m: nat)
    requires Refuses(h, n) && n <= m
    ensures Refuses(h, m)
  {
  }

  // ---------- one turn ----------

  function GotoCount(acts: seq<Action>): nat {
    if acts == [] then 0
    else GotoCount(acts[..|acts| - 1]) + if acts[|acts| - 1] == GotoNextState then 1 else 0
  }

  // The row that a transition selects has a flow to install.
  predicate FlowAfter(rows: seq<Row>, nextState: int)
    requires |rows| >= 1 && 1 <= nextState
  {
    rows[RowIndex(nextState - 1, |rows|)].flowExists
  }

  lemma SameFlowAfter(a: seq<Row>, b: seq<Row>, nextState: int)
    requires |a| >= 1 && 1 <= nextState && StaticRows(a) == StaticRows(b)
    ensures |b| >= 1 && FlowAfter(a, nextState) == FlowAfter(b, nextState)
  {
    var i := RowIndex(nextState - 1, |a|);
    assert StaticRows(a)[i] == StaticRows(b)[i];
  }

  // How many entries the turn of `a` asks for if none is refused.
  ghost function Installs(a: Agent): nat
    requires WellFormed(a)
  {
    if TakesGoto(a) && FlowAfter(a.rows, CurrentRow(a).nextState) then GotoCount(CurrentRow(a).actions) else 0
  }

  lemma StartAsks(a: Agent, hw: Hw, rowNum: nat)
    requires |a.rows| >= 1
    ensures var s, n := StartFlow(a, hw, rowNum), if FlowAfter(a.rows, rowNum + 1) then 1 else 0;
            Asked(hw, s.hw, n, !s.ok)
  {
    assert Refuses(hw, 1) <==> Refused(hw, 1);
    hide Refuses, Keeps, WellFormed;
  }

  lemma GotoAsks(a: Agent, w: World, next: int)
    requires WellFormed(a) && 1 <= next < NO_NEXT_STATE
    ensures var t, n := Goto(a, w, next), if FlowAfter(a.rows, next) then 1 else 0;
            Asked(w.hw, t.world.hw, n, t.dropped)
  {
    hide StartFlow, FlowAfter, Refused;
    var h, b := EntryDestroy(w.hw, a.flowEntry, a.statId), a.(currentState := next % 256);
    var s := StartFlow(b, h, next - 1);
    StartAsks(b, h, next - 1);
    AskedMore(w.hw, h, s.hw, 0, if FlowAfter(a.rows, next) then 1 else 0, !s.ok);
  }

  // The actions take a transition for each GOTO, or for none.
  ghost predicate Goes(a: Agent, row: Row, goes: bool) {
    forall act :: BranchOf(a, row, act) == Transition <==> goes && act == GotoNextState
  }

  lemma {:induction false} ActionsAsk(t: Turn, row: Row, acts: seq<Action>, note: bool, goes: bool)
    requires !t.dropped && WellFormed(t.agent) && 1 <= row.nextState <= NO_NEXT_STATE && Goes(t.agent, row, goes)
    ensures var r := RunActions(t, row, acts, note);
            var n := if goes && FlowAfter(t.agent.rows, row.nextState) then GotoCount(acts) else 0;
            Asked(t.world.hw, r.world.hw, n, r.dropped)
  {
    hide Asked, Act, FlowAfter;
    AskedNothing(t.world.hw);
    if acts != [] {
      var init, last := acts[..|acts| - 1], acts[|acts| - 1];
      ActionsAsk(t, row, init, note, goes);
      var before := RunActions(t, row, init, note);
      var n := if goes && FlowAfter(t.agent.rows, row.nextState) then GotoCount(init) else 0;
      if before.dropped {
        AskedBefore(t.world.hw, before.world.hw, n, if goes && FlowAfter(t.agent.rows, row.nextState) then GotoCount(acts) else 0);
      } else {
        assert BranchOf(before.agent, row, last) == BranchOf(t.agent, row, last);
        SameFlowAfter(t.agent.rows, before.agent.rows, row.nextState);
        ActAsks(before, row, last, note);
        AskedMore(t.world.hw, before.world.hw, Act(before, row, last, note).world.hw, n,
                  if BranchOf(t.agent, row, last) == Transition && FlowAfter(t.agent.rows, row.nextState) then 1 else 0,
                  Act(before, row, last, note).dropped);
      }
    }
  }

  lemma ActAsks(t: Turn, row: Row, act: Action, note: bool)
    requires !t.dropped && WellFormed(t.agent) && 1 <= row.nextState <= NO_NEXT_STATE
    ensures var r := Act(t, row, act, note);
            var n := if BranchOf(t.agent, row, act) == Transition && FlowAfter(t.agent.rows, row.nextState) then 1 else 0;
            Asked(t.world.hw, r.world.hw, n, r.dropped)
  {
    hide Goto, Report, LinkReport;
    if BranchOf(t.agent, row, act) == Transition {
      GotoAsks(t.agent, t.world, row.nextState);
    }
  }

  lemma SampledGoes(a: Agent, hw: Hw)
    requires WellFormed(a)
    ensures Goes(Sampled(a, hw), CurrentRow(a), TakesGoto(a) || BranchOf(Sampled(a, hw), CurrentRow(a), GotoNextState) == Transition)
    ensures GotoNextState in CurrentRow(a).actions && BranchOf(Sampled(a, hw), CurrentRow(a), GotoNextState) == Transition ==> TakesGoto(a)
  {
  }

  lemma {:induction false} NoGoto(acts: seq<Action>)
    requires GotoNextState !in acts
    ensures GotoCount(acts) == 0
  {
    if acts != [] {
      NoGoto(acts[..|acts| - 1]);
    }
  }

  // A turn drops its agent exactly when one of the entries it asks for is refused.
  lemma TurnDropsIff(a: Agent, w: World, limit: PortLimit, note: bool)
    requires WellFormed(a)
    ensures var t := PollAgent(a, w, limit, note);
            && (t.dropped <==> Refuses(w.hw, Installs(a)))
            && Asked(w.hw, t.world.hw, Installs(a), t.dropped)
  {
    var row, b := CurrentRow(a), Sampled(a, w.hw);
    var goes := TakesGoto(a) || BranchOf(b, row, GotoNextState) == Transition;
    SampledGoes(a, w.hw);
    if GotoNextState !in row.actions {
      NoGoto(row.actions);
    }
    SameFlowAfter(a.rows, b.rows, row.nextState);
    ActionsAsk(BeforeActions(a, w, limit), row, row.actions, note, goes);
  }
}
