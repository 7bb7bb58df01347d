// A run that leaks: a HELLO while the TCAM table is full.
module FullTable {
  import opened Switch
  import opened Agents
  import opened Registry
  import opened Conservation
  import opened Holdings
  import opened Daemon
  import opened Invariants
  import opened Accounts
  import opened Runs

  const TABLE_FULL: ErrorCode := -6

  const ONLY: Row := Row(true, FlowKey(1, 0, 2, 0), 0, 0, 0, [], NO_NEXT_STATE)
  const CONFIG: Config := Config(1, 10, FP, 0, 0, 0, [ONLY], false, false, false)

  function FullSwitch(): Hw {
    Hw(map[], map[], map[], 0, 0, _ => CreateRefused(TABLE_FULL), _ => Attached(NoCounters))
  }

  // The code is taken for an entry, and a statistics object is made that nothing counts into.
  lemma StartLeavesOrphan()
    ensures var st := StartFlow(NewAgent(CONFIG), FullSwitch(), 0);
            && st.ok && st.agent.flowEntry == TABLE_FULL && OrphanStat(st.hw, 1)
  {
  }

  lemma HelloLeaks(s: State)
    requires s == Boot(FullSwitch()) && Sound(s) && Conserved(s.agents, s.world.hw)
    ensures Enabled(s, Hello(CONFIG, [])) && AllWellFormed(s.agents)
    ensures var t := Step(s, Hello(CONFIG, []));
            1 in t.agents && Leaky(t.agents, t.world.hw) && !TidyStep(s, Hello(CONFIG, []))
  {
    hide StartFlow, OrphanStat, Conserved, TidyTurn, Armed, Throttled, Named;
    assert GoodTable(CONFIG.rows) && s.world.hw == FullSwitch();
    StartLeavesOrphan();
    var t := Step(s, Hello(CONFIG, []));
    assert OrphanStat(t.world.hw, 1);
    StepConservesIff(s, Hello(CONFIG, []));
    if Conserved(t.agents, t.world.hw) {
      ConservedIsNotLeaky(t.agents, t.world.hw);
    }
  }

  // The HELLO is accepted; from then on a statistics object is lost.
  lemma FullTableLeaks()
    ensures exists ss: seq<State>, es: seq<Event> ::
              IsRun(ss, es) && UntidyAt(ss, es, 0) && Leaky(ss[1].agents, ss[1].world.hw) && !ConservedAt(ss, 1)
  {
    hide Step, Enabled, Sound, Conserved, Leaky, TidyStep, AllWellFormed, Boot, FullSwitch, CONFIG;
    var s, e := Boot(FullSwitch()), Hello(CONFIG, []);
    BootIsSound(FullSwitch());
    BootsAgain(FullSwitch());
    HelloLeaks(s);
    var ss, es := [s, Step(s, e)], [e];
    assert IsRun(ss, es) && UntidyAt(ss, es, 0);
    LeaksStay(ss, es, 1, 1);
  }
}
