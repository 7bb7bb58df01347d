// Runs of the daemon from boot, and what holds in every state of every run.
module Runs {
  import opened Words
  import opened Switch
  import opened EventLoop
  import opened Registry
  import opened Conservation
  import opened Refusals
  import opened Rounds
  import opened Readings
  import opened Holdings
  import opened Daemon
  import opened Invariants
  import opened Accounts

  ghost predicate Moves(s: State, e: Event, t: State) {
    AllWellFormed(s.agents) && Enabled(s, e) && t == Step(s, e)
  }

  // States ss[0], ss[1], ... joined by the events es[0], es[1], ...
  ghost predicate IsRun(ss: seq<State>, es: seq<Event>) {
    && |ss| == |es| + 1
    && ss[0] == Boot(ss[0].world.hw)
    && forall i :: 0 <= i < |es| ==> Moves(ss[i], es[i], ss[i + 1])
  }

  lemma StatesOfRun(ss: seq<State>, es: seq<Event>)
    requires IsRun(ss, es)
    ensures |ss| == |es| + 1
  {
  }

  lemma StepOfRun(ss: seq<State>, es: seq<Event>, i: nat)
    requires IsRun(ss, es) && i < |es|
    ensures Moves(ss[i], es[i], ss[i + 1])
  {
  }

  ghost predicate LosesLeaderAt(ss: seq<State>, es: seq<Event>, i: nat) {
    i < |es| < |ss| && AllWellFormed(ss[i].agents) && Enabled(ss[i], es[i]) && LosesLeader(ss[i], es[i])
  }

  lemma BootIsSound(hw: Hw)
    ensures var s := Boot(hw);
            Sound(s) && Shared(s.agents, s.loop) && Conserved(s.agents, s.world.hw) && Orderly(s.agents, s.world.hw)
  {
    assert Fires(Boot(hw).loop, 1, CheckTcam);
  }

  lemma BootsAgain(hw: Hw)
    ensures Boot(Boot(hw).world.hw) == Boot(hw)
  {
  }

  // ---------- invariants of all runs ----------

  lemma {:induction false} RunIsSound(ss: seq<State>, es: seq<Event>, i: nat)
    requires IsRun(ss, es) && i < |ss|
    ensures Sound(ss[i])
  {
    hide Step, Sound, Boot;
    if i == 0 {
      BootIsSound(ss[0].world.hw);
    } else {
      RunIsSound(ss, es, i - 1);
      assert Moves(ss[i - 1], es[i - 1], ss[i]);
      StepKeepsSound(ss[i - 1], es[i - 1]);
    }
  }

  ghost predicate SharedAt(ss: seq<State>, i: nat) {
    i < |ss| ==> Shared(ss[i].agents, ss[i].loop)
  }

  lemma {:induction false} SharedUntilLoss(ss: seq<State>, es: seq<Event>, n: nat)
    requires IsRun(ss, es) && n < |ss|
    requires forall i: nat | i < n :: !LosesLeaderAt(ss, es, i)
    ensures SharedAt(ss, n)
  {
    hide Step, Shared, Sound, Boot;
    if n == 0 {
      BootIsSound(ss[0].world.hw);
    } else {
      SharedUntilLoss(ss, es, n - 1);
      RunIsSound(ss, es, n - 1);
      assert Moves(ss[n - 1], es[n - 1], ss[n]);
      assert !LosesLeaderAt(ss, es, n - 1);
      StepSharedIff(ss[n - 1], es[n - 1]);
    }
  }

  // In every state of a run each poll time in use has exactly one armed leader, and no
  // other polling timer is armed - exactly if the switch never refuses an entry to the
  // leader of a round.
  lemma SharedThroughout(ss: seq<State>, es: seq<Event>)
    requires IsRun(ss, es)
    ensures (forall i: nat :: SharedAt(ss, i)) <==> (forall i: nat :: !LosesLeaderAt(ss, es, i))
  {
    hide Step, Sound, Shared;
    if forall i: nat :: !LosesLeaderAt(ss, es, i) {
      forall i: nat ensures SharedAt(ss, i) {
        if i < |ss| {
          SharedUntilLoss(ss, es, i);
        }
      }
    } else {
      var i: nat :| LosesLeaderAt(ss, es, i);
      RunIsSound(ss, es, i);
      assert Moves(ss[i], es[i], ss[i + 1]);
      if SharedAt(ss, i) {
        StepSharedIff(ss[i], es[i]);
        assert !SharedAt(ss, i + 1);
      }
    }
  }

  // ---------- one group ----------

  ghost predicate LedAt(ss: seq<State>, i: nat, p: I32) {
    i < |ss| ==> GroupLed(ss[i].agents, p)
  }

  ghost predicate StrandsAt(ss: seq<State>, es: seq<Event>, i: nat, p: I32) {
    i < |es| < |ss| && AllWellFormed(ss[i].agents) && Enabled(ss[i], es[i]) && Strands(ss[i], es[i], p)
  }

  lemma NobodyLeadsAtBoot(hw: Hw, p: I32)
    ensures OneLeaderEach(Boot(hw).agents) && GroupLed(Boot(hw).agents, p)
  {
  }

  lemma {:induction false} RunHasOneLeaderEach(ss: seq<State>, es: seq<Event>, i: nat)
    requires IsRun(ss, es) && i < |ss|
    ensures OneLeaderEach(ss[i].agents)
  {
    hide Step, Sound, OneLeaderEach, Boot, Strands;
    if i == 0 {
      NobodyLeadsAtBoot(ss[0].world.hw, 0);
    } else {
      RunHasOneLeaderEach(ss, es, i - 1);
      RunIsSound(ss, es, i - 1);
      StepOfRun(ss, es, i - 1);
      StepLedIff(ss[i - 1], es[i - 1], 0);
    }
  }

  // A led group stays led until it is stranded.
  lemma {:induction false} LedUntilStranded(ss: seq<State>, es: seq<Event>, p: I32, i: nat, j: nat)
    requires IsRun(ss, es) && i <= j < |ss| && LedAt(ss, i, p)
    requires forall k: nat | i <= k < j :: !StrandsAt(ss, es, k, p)
    ensures LedAt(ss, j, p)
  {
    hide Step, Sound, OneLeaderEach, GroupLed, Boot, Strands;
    if i < j {
      LedUntilStranded(ss, es, p, i, j - 1);
      RunIsSound(ss, es, j - 1);
      RunHasOneLeaderEach(ss, es, j - 1);
      StepOfRun(ss, es, j - 1);
      assert !StrandsAt(ss, es, j - 1, p);
      StepLedIff(ss[j - 1], es[j - 1], p);
    }
  }

  // One group by itself, whatever happens to the others: it has a leader in every state in
  // which it has members exactly if none of its rounds strands it.
  lemma LedThroughout(ss: seq<State>, es: seq<Event>, p: I32)
    requires IsRun(ss, es)
    ensures (forall i: nat :: LedAt(ss, i, p)) <==> (forall i: nat :: !StrandsAt(ss, es, i, p))
  {
    hide Step, Sound, OneLeaderEach, GroupLed, Strands, Boot;
    if forall i: nat :: !StrandsAt(ss, es, i, p) {
      NobodyLeadsAtBoot(ss[0].world.hw, p);
      forall i: nat ensures LedAt(ss, i, p) {
        if i < |ss| {
          LedUntilStranded(ss, es, p, 0, i);
        }
      }
    } else {
      var i: nat :| StrandsAt(ss, es, i, p);
      RunIsSound(ss, es, i);
      RunHasOneLeaderEach(ss, es, i);
      StepOfRun(ss, es, i);
      if LedAt(ss, i, p) {
        StepLedIff(ss[i], es[i], p);
        assert !LedAt(ss, i + 1, p);
      }
    }
  }

  // ---------- refusals ----------

  // Some member of the round is refused an entry that it asks for.
  ghost predicate RefusedAt(ss: seq<State>, es: seq<Event>, i: nat) {
    && i < |es| < |ss| && AllWellFormed(ss[i].agents) && Enabled(ss[i], es[i]) && RoundStarts(ss[i], es[i])
    && Refuses(ss[i].world.hw, RoundInstalls(ss[i].agents, es[i].order, PolledGroup(ss[i], es[i])))
  }

  lemma {:induction false} FatesAreFixed(ss: seq<State>, es: seq<Event>, i: nat, j: nat)
    requires IsRun(ss, es) && i <= j < |ss|
    ensures SameFates(ss[i].world.hw, ss[j].world.hw) && ss[i].world.hw.lastEntry <= ss[j].world.hw.lastEntry
  {
    hide Step, Sound, Boot;
    if i < j {
      FatesAreFixed(ss, es, i, j - 1);
      RunIsSound(ss, es, j - 1);
      StepOfRun(ss, es, j - 1);
      StepKeepsFates(ss[j - 1], es[j - 1]);
    }
  }

  lemma RefusalIsAnswered(ss: seq<State>, es: seq<Event>, i: nat)
    requires IsRun(ss, es) && RefusedAt(ss, es, i)
    ensures exists n :: ss[i].world.hw.lastEntry < n <= ss[i + 1].world.hw.lastEntry && AnswersMinusOne(ss[i].world.hw, n)
  {
    var s, e := ss[i], es[i];
    StepOfRun(ss, es, i);
    hide Sound, IsRun, Enabled, Refuses, RoundInstalls, PollGroup;
    RoundAbortsIff(s.agents, s.world, e.order, PolledGroup(s, e), s.limit, e.noted);
    assert ss[i + 1].world.hw == PollGroup(s.agents, s.world, e.order, PolledGroup(s, e), s.limit, e.noted).world.hw;
    assert AnswersMinusOne(s.world.hw, ss[i + 1].world.hw.lastEntry);
  }

  // If none of the entries asked for in a run was answered with -1, no round was cut short
  // and the timers were shared throughout.
  lemma NoRefusals(ss: seq<State>, es: seq<Event>)
    requires IsRun(ss, es)
    requires forall n :: ss[0].world.hw.lastEntry < n <= ss[|es|].world.hw.lastEntry ==> !AnswersMinusOne(ss[0].world.hw, n)
    ensures forall i: nat :: !RefusedAt(ss, es, i) && SharedAt(ss, i)
  {
    hide Step, Sound, Shared, IsRun, RefusedAt, LosesLeaderAt;
    forall i: nat ensures !RefusedAt(ss, es, i) {
      RefusalInRange(ss, es, i);
    }
    forall i: nat ensures !LosesLeaderAt(ss, es, i) {
      LossIsRefusal(ss, es, i);
    }
    SharedThroughout(ss, es);
  }

  lemma RefusalInRange(ss: seq<State>, es: seq<Event>, i: nat)
    requires IsRun(ss, es)
    ensures RefusedAt(ss, es, i) ==>
              exists n :: ss[0].world.hw.lastEntry < n <= ss[|es|].world.hw.lastEntry && AnswersMinusOne(ss[0].world.hw, n)
  {
    if RefusedAt(ss, es, i) {
      assert i < |es|;
      hide Step, RefusedAt;
      FatesAreFixed(ss, es, 0, i);
      FatesAreFixed(ss, es, i + 1, |es|);
      RefusalIsAnswered(ss, es, i);
      var n :| ss[i].world.hw.lastEntry < n <= ss[i + 1].world.hw.lastEntry && AnswersMinusOne(ss[i].world.hw, n);
      assert AnswersMinusOne(ss[0].world.hw, n);
    }
  }

  lemma LossIsRefusal(ss: seq<State>, es: seq<Event>, i: nat)
    ensures LosesLeaderAt(ss, es, i) ==> RefusedAt(ss, es, i)
  {
    hide Step;
    if LosesLeaderAt(ss, es, i) {
      var s, e := ss[i], es[i];
      DropIsRefusal(s.agents, s.world.hw, e.order, PolledGroup(s, e), s.loop.timers[e.timer].arg);
    }
  }

  // The round is one of group p.
  ghost predicate RefusedIn(ss: seq<State>, es: seq<Event>, i: nat, p: I32) {
    RefusedAt(ss, es, i) && PolledGroup(ss[i], es[i]) == p
  }

  lemma StrandingIsRefusal(ss: seq<State>, es: seq<Event>, i: nat, p: I32)
    ensures StrandsAt(ss, es, i, p) ==> RefusedIn(ss, es, i, p)
  {
    hide Step, Refuses, RoundInstalls, Drops;
    if StrandsAt(ss, es, i, p) {
      var s, e := ss[i], es[i];
      var l :| Leads(s.agents, l, p) && Drops(s.agents, s.world.hw, e.order, p, l);
      DropIsRefusal(s.agents, s.world.hw, e.order, p, l);
    }
  }

  lemma {:induction false} DropIsRefusal(agents: Roster, hw: Hw, order: seq<int>, p: I32, id: int)
    requires AllWellFormed(agents) && (forall k :: k in order ==> k in agents) && Drops(agents, hw, order, p, id)
    ensures Refuses(hw, RoundInstalls(agents, order, p))
  {
    hide Installs, Refuses;
    var init, last := order[..|order| - 1], order[|order| - 1];
    assert order == init + [last];
    if last != id {
      DropIsRefusal(agents, hw, init, p, id);
      RefusesMore(hw, RoundInstalls(agents, init, p), RoundInstalls(agents, order, p));
    }
  }

  // ---------- entries and statistics objects ----------

  ghost predicate ConservedAt(ss: seq<State>, i: nat) {
    i < |ss| ==> Conserved(ss[i].agents, ss[i].world.hw)
  }

  ghost predicate UntidyAt(ss: seq<State>, es: seq<Event>, i: nat) {
    i < |es| < |ss| && AllWellFormed(ss[i].agents) && Enabled(ss[i], es[i]) && !TidyStep(ss[i], es[i])
  }

  lemma {:induction false} ConservedUntilUntidy(ss: seq<State>, es: seq<Event>, n: nat)
    requires IsRun(ss, es) && n < |ss|
    requires forall i: nat | i < n :: !UntidyAt(ss, es, i)
    ensures ConservedAt(ss, n)
  {
    hide Step, Conserved, Sound, Boot, TidyStep;
    if n == 0 {
      BootIsSound(ss[0].world.hw);
    } else {
      ConservedUntilUntidy(ss, es, n - 1);
      RunIsSound(ss, es, n - 1);
      StepOfRun(ss, es, n - 1);
      assert !UntidyAt(ss, es, n - 1);
      StepConservesIff(ss[n - 1], es[n - 1]);
    }
  }

  // In every state of a run the installed entries and statistics objects are in bijection
  // with the agents whose current row has a flow - exactly if every step's installations
  // are tidy.
  lemma ConservedThroughout(ss: seq<State>, es: seq<Event>)
    requires IsRun(ss, es)
    ensures (forall i: nat :: ConservedAt(ss, i)) <==> (forall i: nat :: !UntidyAt(ss, es, i))
  {
    hide Step, Sound, Conserved, TidyStep;
    if forall i: nat :: !UntidyAt(ss, es, i) {
      forall i: nat ensures ConservedAt(ss, i) {
        if i < |ss| {
          ConservedUntilUntidy(ss, es, i);
        }
      }
    } else {
      var i: nat :| UntidyAt(ss, es, i);
      RunIsSound(ss, es, i);
      StepOfRun(ss, es, i);
      if ConservedAt(ss, i) {
        StepConservesIff(ss[i], es[i]);
        assert !ConservedAt(ss, i + 1);
      }
    }
  }

  // What has leaked once is there for good.
  lemma {:induction false} LeaksStay(ss: seq<State>, es: seq<Event>, i: nat, j: nat)
    requires IsRun(ss, es) && i <= j < |ss| && Leaky(ss[i].agents, ss[i].world.hw)
    ensures Leaky(ss[j].agents, ss[j].world.hw) && !ConservedAt(ss, j)
  {
    hide Step, Sound, Leaky, Conserved, Boot;
    if i < j {
      LeaksStay(ss, es, i, j - 1);
      RunIsSound(ss, es, j - 1);
      StepOfRun(ss, es, j - 1);
      StepKeepsLeak(ss[j - 1], es[j - 1]);
    }
    if ConservedAt(ss, j) {
      ConservedIsNotLeaky(ss[j].agents, ss[j].world.hw);
    }
  }

  lemma {:induction false} RunIsOrderly(ss: seq<State>, es: seq<Event>, i: nat)
    requires IsRun(ss, es) && i < |ss|
    ensures Orderly(ss[i].agents, ss[i].world.hw)
  {
    hide Step, Sound, Orderly, Boot;
    if i == 0 {
      BootIsSound(ss[0].world.hw);
    } else {
      RunIsOrderly(ss, es, i - 1);
      RunIsSound(ss, es, i - 1);
      StepOfRun(ss, es, i - 1);
      StepKeepsOrderly(ss[i - 1], es[i - 1]);
    }
  }

  // ---------- time ----------

  lemma StepTime(s: State, e: Event)
    requires AllWellFormed(s.agents) && Enabled(s, e)
    ensures Step(s, e).loop.now == if e.Wait? then e.until else s.loop.now
    ensures s.loop.now <= Step(s, e).loop.now
  {
  }

  lemma {:induction false} TimeFlows(ss: seq<State>, es: seq<Event>, i: nat, j: nat)
    requires IsRun(ss, es) && i <= j < |ss|
    ensures ss[i].loop.now <= ss[j].loop.now
  {
    hide Step, Enabled;
    if i < j {
      TimeFlows(ss, es, i, j - 1);
      assert Moves(ss[j - 1], es[j - 1], ss[j]);
      StepTime(ss[j - 1], es[j - 1]);
    }
  }
}
