// Two MON_SWITCH notifications are never closer than the throttle interval.
module Throttle {
  import opened Words
  import opened Switch
  import opened Agents
  import opened EventLoop
  import opened Registry
  import opened Daemon
  import opened Invariants
  import opened Runs

  // The event publishes a MON_SWITCH notification.
  ghost predicate Alarms(s: State, e: Event) {
    && e.Expire? && Fires(s.loop, e.timer, CheckTcam)
    && |s.agents| > s.maxEntries && e.entriesFree < s.minFree && s.sendSwitch
  }

  // An alarm leaves exactly one message - the number of entries installed and the two limits -
  // a notify timer and a closed gate.
  lemma AlarmStep(s: State, e: Event)
    requires Sound(s) && Enabled(s, e) && Alarms(s, e)
    ensures var t := Step(s, e);
            && t.world.sent == s.world.sent + [MonSwitch(|s.world.hw.entries|, s.minFree, s.maxEntries)]
            && !t.sendSwitch && Pending(t, t.loop.lastId, s.loop.now + Delay(s.tcamInterval))
  {
  }

  ghost predicate Pending(s: State, timer: int, due: nat) {
    Fires(s.loop, timer, EndThrottle) && s.loop.timers[timer].due == due
  }

  // Nothing but its own expiry takes a pending notify timer away or moves it.
  lemma PendingStays(s: State, e: Event, timer: int, due: nat)
    requires Sound(s) && Enabled(s, e) && Pending(s, timer, due)
    requires !(e.Expire? && e.timer == timer)
    ensures Pending(Step(s, e), timer, due)
  {
    hide WellFormed, Named, PollGroup, StartFlow, Toggled, WithThresholds, EntryDestroy;
    match e
    case ParamChange(id, p, order) =>
      var left := Leave(s.agents, s.loop, order, id);
      assert timer in left.loop.timers && left.loop.timers[timer] == s.loop.timers[timer];
    case SetTcamTimer(interval) =>
      assert Fires(s.loop, s.tcamTimer, CheckTcam);
    case _ =>
  }

  ghost predicate FiresAt(ss: seq<State>, es: seq<Event>, k: nat, timer: int, due: nat) {
    && k < |es| < |ss| && es[k].Expire? && es[k].timer == timer
    && Pending(ss[k], timer, due) && due <= ss[k].loop.now
  }

  ghost predicate FiresBetween(ss: seq<State>, es: seq<Event>, i: nat, j: nat, timer: int, due: nat) {
    exists k | i <= k < j :: FiresAt(ss, es, k, timer, due)
  }

  lemma FiresNow(ss: seq<State>, es: seq<Event>, k: nat, timer: int, due: nat)
    requires IsRun(ss, es) && k < |es| && es[k].Expire? && es[k].timer == timer && Pending(ss[k], timer, due)
    ensures FiresAt(ss, es, k, timer, due)
  {
    assert Moves(ss[k], es[k], ss[k + 1]);
  }

  lemma {:induction false} PendingUntilFired(ss: seq<State>, es: seq<Event>, timer: int, due: nat, i: nat, j: nat)
    requires IsRun(ss, es) && i <= j < |ss| && Pending(ss[i], timer, due)
    ensures Pending(ss[j], timer, due) || FiresBetween(ss, es, i, j, timer, due)
  {
    hide Step, Sound, Pending;
    if i < j {
      PendingUntilFired(ss, es, timer, due, i, j - 1);
      RunIsSound(ss, es, j - 1);
      StepOfRun(ss, es, j - 1);
      if Pending(ss[j - 1], timer, due) {
        if es[j - 1].Expire? && es[j - 1].timer == timer {
          FiresNow(ss, es, j - 1, timer, due);
        } else {
          PendingStays(ss[j - 1], es[j - 1], timer, due);
        }
      }
    }
  }

  lemma GateClosed(s: State, timer: int, due: nat)
    requires Sound(s) && s.sendSwitch
    ensures !Pending(s, timer, due)
  {
    assert !Fires(s.loop, timer, EndThrottle);
  }

  lemma FiringTime(ss: seq<State>, es: seq<Event>, k: nat, timer: int, due: nat)
    requires FiresAt(ss, es, k, timer, due)
    ensures due <= ss[k].loop.now
  {
  }

  // Between two alarms the notify timer started by the first one fires, so they are at
  // least the interval apart that was in force at the first, whatever is configured since.
  lemma AlarmsAreApart(ss: seq<State>, es: seq<Event>, i: nat, j: nat)
    requires IsRun(ss, es) && i < j < |es|
    requires Alarms(ss[i], es[i]) && Alarms(ss[j], es[j])
    ensures FiresBetween(ss, es, i, j, ss[i + 1].loop.lastId, ss[i].loop.now + Delay(ss[i].tcamInterval))
    ensures ss[j].loop.now >= ss[i].loop.now + Delay(ss[i].tcamInterval)
  {
    var timer, due := ss[i + 1].loop.lastId, ss[i].loop.now + Delay(ss[i].tcamInterval);
    hide Step, IsRun, Sound, FiresAt, Pending;
    RunIsSound(ss, es, i);
    assert Moves(ss[i], es[i], ss[i + 1]) by {
      StepOfRun(ss, es, i);
    }
    AlarmStep(ss[i], es[i]);
    PendingUntilFired(ss, es, timer, due, i + 1, j);
    RunIsSound(ss, es, j);
    assert !Pending(ss[j], timer, due) by {
      GateClosed(ss[j], timer, due);
    }
    var k :| i + 1 <= k < j && FiresAt(ss, es, k, timer, due);
    assert due <= ss[k].loop.now by {
      FiringTime(ss, es, k, timer, due);
    }
    TimeFlows(ss, es, k, j);
  }
}
