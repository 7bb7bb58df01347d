# A model of the monitoring daemon

The daemon watches flows and ports of a switch for a controller. It is one thread around an
event loop: messages from the controller create, change and stop monitoring agents, and loop
timers poll the agents, each of which runs a small state table that decides what to report and
which flow to watch next. This project models that daemon in Dafny and proves what it keeps,
does and reports over every run.

The project has three layers.

* **Specification on values.** `Switch` is the ASIC (TCAM entries, statistics objects, port
  counters) with arbitrary outcomes for every installation; `Agents` is one agent, its table and
  its polling turn; `EventLoop` and `Registry` are the loop timers and their sharing; `Daemon` is
  the whole state with one step per callback (`Enabled`, `Step`, `Boot`). Hash map iteration is
  an arbitrary order given to each step.
* **The daemon itself, in place.** `MonitoringAgent` has the agent object with the methods that
  update its fields, and `Process` has the class `Monitor` with the hash map of agents, the loop
  and the callbacks. Every method is proved to do exactly what the specification says of the old
  state. The loops over the hash map, the actions and the counters are loops there.
* **Theorems.** `Turns`, `Rows`, `Notices`, `Refusals`, `Rounds`, `Readings`, `Conservation`, `Holdings`,
  `Invariants`, `Accounts`, `Runs`, `Polling`, `Timers`, `Throttle`, `Flows`, `PortSamples`, `Publishing` and
  `Messages` prove properties of one turn, one round, one step and all runs from boot. What is sampled,
  reported, installed, timed and configured is stated on row numbers, flags, thresholds, counter readings
  and milliseconds. A run is any sequence of states and events in which every event is enabled; timers
  fire when they are due and never before, and time does not run past a due timer. What the switch answers
  to an installation is arbitrary throughout: a theorem that depends on it says on which answers, in terms
  of the state before the step.

A poll of an agent is a turn that it has, not just a firing of its timer: when an agent is dropped in
the middle of a round, the agents behind it in the hash map have none.

Beside the daemon stand its port check (`PortEvents`) and its text handling: `MacAddress`,
`IpAddress`, `CConstants` (with `Numerals`) and `Squeeze`.

Where the code departs from what it is meant to do, the code is modelled and the exact condition
is proved:

* Only the code -1 of an entry creation counts as a failure; the other negative codes, such as a
  full table, are stored as entry ids, and a statistics object that cannot be attached or installed
  is left behind (`src/monitoring_utilities.c:833-848`). `Runs.ConservedThroughout` says exactly when
  entries and statistics objects stay accounted for over a run: no installation that is made leaves
  something half made, and the last one of a turn does not take an error code for an entry.
  `Runs.LeaksStay` says that what has leaked is never recovered. `FullTable.FullTableLeaks` is a run
  of one HELLO on a full table that leaks.
* A GOTO whose flow cannot be installed removes the agent without passing its timer on, and ends
  the round (`src/monitor-automata.c:1252-1260`). `Refusals.TurnDropsIff` says when that happens,
  `Polling.PollsIffReached` who misses the turn, `Runs.SharedThroughout` when the sharing of all timers
  survives, and `Runs.LedThroughout` when one group keeps a leader, whatever happens to the others.
  The timer that is left keeps firing: it polls nobody while its mon_id is unused, and the group of
  the agent that uses it again, in addition to that group's own timer. `LostLeader.LeaderIsLost` is a
  run that loses a leader, strands its follower and has the stray timer poll another group.
* Reports carry the cumulative counters of the flow, not the interval that crossed the threshold
  (`src/monitoring_utilities.c:1188-1206`); `Notices.ReportIffDue` and `Publishing.RunReports` say so.
* The port check is skipped in the last state of a table (`src/monitoring_utilities.c:1007`), and an
  event that it does not recognise hides all later ones. `PortEvents.AllJudgedIff` says when every
  listed event is judged, `PortEvents.RightIff` when the answer is right whatever the counters are, and
  `PortEvents.MisspeltHidesOctets` has a list that hides a counter.
* The constant parser takes every decimal digit in every base (`CConstants.StrictIff`);
  `CConstants.LargeDigits` has 0b2 read as two and 09 as nine.
* The copy of a configuration file that ends in a blank gets a stray byte 255
  (`Squeeze.CopyIsSqueezedIff`).
* The timer of a changed poll time is started with a variable that is never set on that path
  (`src/monitor-automata.c:1538`). The comments there and the statement after the branch call for
  the new poll time, and that is what the model uses.

IPv4 addresses are those of section 3.2.2 of RFC 3986, C constants those of section 6.4.4.1 of
ISO/IEC 9899:2011.

## Model

| member | source | states |
|---|---|---|
| Registry.JoinKeepsShared | src/monitor-automata.c:1400-1421 | a HELLO keeps the rule that each poll time in use has exactly one leader, whose timer is armed with that period and that leader's mon_id, and that no other polling timer is armed |
| Registry.LeaveKeepsShared | src/monitor-automata.c:1457-1479 | a STOP keeps it, whoever leaves and in whatever order the hash map is searched |
| Registry.ChangeKeepsShared | src/monitor-automata.c:1508-1547 | a PARAM_CHANGE keeps it, also to the same poll time and by a follower |
| Registry.FirstFollower | src/monitor-automata.c:1465-1472 | the successor is a member of the group without a timer, and none is found only if there is none |
| Registry.LeaveHandsOver | src/monitor-automata.c:1457-1472 | if the leader leaves, its timer ends and the first follower in the order of the hash map gets a new one with the same period and its own mon_id, due a period from now; every other agent and timer stays |
| Refusals.TurnDropsIff | src/monitor-automata.c:1227-1260 | a turn drops its agent if and only if it takes its GOTO, the next row has a flow, and the switch answers -1 to one of as many requests for an entry as the row lists GOTOs; otherwise exactly that many are made |
| Rounds.OneTurnEach | src/monitor-automata.c:1020-1296 | a pass over the hash map in any order, cut short or not, is one independent turn for each member of the group that it reaches, and leaves everybody else alone |
| Rounds.RoundAbortsIff | src/monitor-automata.c:1020-1296 | a pass is cut short if and only if one of the entries that its members ask for, counted through in the order of the hash map, is answered with -1 |
| Rounds.DroppedIff | src/monitor-automata.c:1252-1260 | an agent has its turn if and only if no entry is refused to the members before it, and it is dropped if and only if then one is refused to itself |
| Invariants.StepSharedIff | src/monitor-automata.c:1252-1260 | any step keeps the sharing of timers if and only if it is not a round that reaches its leader and in which the switch refuses the leader an entry |
| Runs.SharedThroughout | src/monitor-automata.c:1400-1547 | the sharing holds in every state of a run if and only if no round of it refuses its leader an entry |
| Runs.NoRefusals | src/monitor-automata.c:1252-1260 | if none of the entries asked for in a run is answered with -1, no round is cut short and the sharing holds in every state |
| Invariants.StepLedIff | src/monitor-automata.c:1252-1260 | each poll time has at most one leader after every step, and a led group stays led in a step if and only if the step is not a round of that group, whoever's timer started it, in which the switch refuses the leader an entry while the group has other members |
| Runs.LedThroughout | src/monitor-automata.c:1400-1547 | one group by itself, whatever happens to the others, has a leader in every state of a run in which it has members if and only if no round of it strands it so |
| Runs.RunHasOneLeaderEach | src/monitor-automata.c:1400-1547 | no poll time ever has two leaders, whatever the switch answers |
| LostLeader.LeaderIsLost | src/monitor-automata.c:1252-1260 | a run from boot in which a leader is refused its second flow and is dropped, its follower is left in a group without a leader, and the timer it left polls the group of the next agent with its mon_id |
| Invariants.StepKeepsSound | src/monitor-automata.c:939-1547 | every step keeps what needs nothing from the switch: agents well formed and filed under their mon_id, leaders' timers armed, no timer overdue, the throttle's gate matching its timer |
| Runs.RunIsSound | src/monitor-automata.c:2078-2090 | that holds in every state of every run from boot |
| Runs.TimeFlows | src/monitor-automata.c:2078-2090 | the loop's clock never runs backwards in a run |
| Polling.RoundPollsGroupOnce | src/monitor-automata.c:1016-1024 | an expiry gives each agent of the leader's poll time that the round reaches exactly one turn and leaves every other agent as it is |
| Polling.PollsIffReached | src/monitor-automata.c:1016-1297 | in a round of its group an agent has a turn unless an entry is refused to a member before it, and is dropped if and only if it is refused one itself |
| Polling.PollsIffGroupFires | src/monitor-automata.c:1016-1024 | an agent has a turn in a step if and only if its leader's timer, or a timer left by a lost leader whose mon_id is now in its group, fires, and no entry is refused to a member before it |
| Polling.PolledByEveryFiring | src/monitor-automata.c:1016-1024 | over any stretch of any run the agent's turns and the rounds cut short before it are together the firings of its leaders' timers and of such stray timers |
| Polling.SharedRunFirings | src/monitor-automata.c:1016-1024 | while the timers of all groups are shared as they should be there are no stray firings, and the leaders' are those of the period |
| Polling.StepDue | src/monitor-automata.c:1459-1547 | for an agent whose group has a leader, a step without a turn of it moves the expiry of the leader's timer only by a hand-over or a round of that timer cut short before it, and then by at most one period |
| Polling.PolledInTime | src/monitor-automata.c:1400-1547 | from any state in which its group has a leader, and until the group is stranded, an agent that keeps its poll time p waits for its next turn at most (h+c+1)p, with h hand-overs of its group in between and c rounds of the leader's timer cut short before it, whatever happens to other groups |
| Polling.JoinerIsLed | src/monitor-automata.c:1401-1416 | an agent's HELLO or PARAM_CHANGE brings it into a group that has a leader, so the bound holds from there |
| Polling.GapBetweenPolls | src/monitor-automata.c:1016-1024 | two consecutive turns of an agent are at most (h+c+1)p apart, on the same condition on its own group |
| Polling.PolledInTimeUnrefused | src/monitor-automata.c:1400-1547 | the bound is (h+1)p while the switch refuses no entry to a member of the group in a round, whatever it answers to a HELLO or to other groups |
| Polling.CountsModulo | src/monitor-automata.c:1023-1024 | from a counter of zero, the counter is the number of turns modulo N and was zero after floor(turns / N) of them, whoever else is dropped meanwhile |
| Polling.CounterIsPollsModN | src/monitor-automata.c:1023-1024 | so since its HELLO, through hand-overs, changes of poll time and rounds cut short |
| Conservation.DestroyConserves | src/monitoring_utilities.c:499-534 | destroying an agent's entry keeps entries and statistics objects in bijection with the agents that have a flow, and everybody else's counters |
| Conservation.StartConserves | src/monitoring_utilities.c:810-855 | so does starting a flow whose installation is complete or refused with the code -1 |
| Conservation.ConservedIffCleanInstall | src/monitoring_utilities.c:338-441 | the bijection survives a start if and only if the installation is clean in that sense |
| Holdings.TurnConservesIff | src/monitor-automata.c:1238-1260 | a whole turn keeps the bijection if and only if none of the installations it makes leaks and its last one does not take an error code for an entry; otherwise something has leaked or an agent stands without its entry |
| Holdings.RoundConservesIff | src/monitor-automata.c:1016-1297 | a whole round keeps it if and only if every turn it reaches is tidy in that sense, judged by the switch's answers in the order of the hash map |
| Accounts.HelloConservesIff | src/monitor-automata.c:1360-1369 | a HELLO keeps it if and only if its one installation, if any, is clean |
| Accounts.HelloHoldings | src/monitor-automata.c:1360-1369 | such a HELLO adds exactly one entry and one statistics object, with fresh ids, or nothing when the row has no flow or the entry is refused |
| Accounts.StopConserves | src/monitor-automata.c:1476-1479 | a STOP keeps it |
| Accounts.StopHoldings | src/monitor-automata.c:1476-1479 | and removes exactly the agent's own entry and statistics object, or nothing when its row has no flow |
| Accounts.AsManyAsHolders | src/monitor-automata.c:1238-1479 | there are then as many entries, and as many statistics objects, as agents whose current row has a flow |
| Accounts.StepConservesIff | src/monitor-automata.c:1238-1251 | any step keeps the bijection if and only if its installations are tidy |
| Runs.ConservedThroughout | src/monitor-automata.c:1238-1479 | in every state of a run installed entries and statistics objects are in bijection with the live agents whose current row has a flow, none leaked and none shared, if and only if every step's installations are tidy |
| Accounts.StepKeepsLeak | src/monitoring_utilities.c:499-534 | no step removes an entry or a statistics object that nobody holds |
| Runs.LeaksStay | src/monitoring_utilities.c:833-848 | so what has leaked once is there in every later state of the run |
| FullTable.FullTableLeaks | src/monitoring_utilities.c:833-848 | a run from boot of one accepted HELLO on a full table after which a statistics object has leaked and the bijection is lost |
| Readings.PollSpares | src/monitor-automata.c:1119-1288 | whatever the switch answers, a turn changes the readings of no statistics object but its agent's own and new ones, and leaves the latest sample of a flow current |
| Readings.TurnReads | src/monitor-automata.c:1119-1136 | the turns of others before an agent's own do not change what its statistics object reads |
| Readings.TurnSamples | src/monitor-automata.c:1119-1288 | after a round, cut short or not, the latest sample of an agent that had a turn is what its statistics object holds |
| Runs.RunIsOrderly | src/monitoring_utilities.c:400-441 | in every state of every run all ids of entries and statistics objects are positive numbers handed out so far, and no two agents refer to one statistics object |
| Flows.SampleIsCurrent | src/monitor-automata.c:1119-1136 | after a turn, with a GOTO or without, or a HELLO the latest sample is the reading of the agent's own statistics object |
| Flows.HasLastSample | src/monitor-automata.c:1360-1398 | every agent has an earlier sampling, at the latest its HELLO |
| Flows.OneFlowPerInterval | src/monitor-automata.c:1119-1288 | whenever an interval is computed, both samples it subtracts are readings of the agent's current statistics object in its current state, the one now and the one at its last sampling, for every run and all answers of the switch |
| Flows.IntervalIsOfOwnFlow | src/monitor-automata.c:1119-1136 | with entries accounted for, that object is the one the agent's own entry counts into |
| Flows.FlowTelescopes | src/monitor-automata.c:1121-1136 | between two transitions the intervals of packets and of bytes add up to last sample minus first, modulo 2^64, and exactly while the counters do not fall |
| PortSamples.PortSampleIsCurrent | src/monitor-automata.c:1284-1286 | after a HELLO, a turn of an agent that reads ports and a turn with a transition, the latest port sample is what the agent's own port reads at that moment |
| PortSamples.OnePortPerInterval | src/monitor-automata.c:1097-1106 | whenever port intervals are computed, each is the 32-bit difference of two readings of the agent's own port, the one now and the one at its last sampling, a HELLO and a GOTO included |
| Flows.PortTelescopes | src/monitor-automata.c:1097-1106 | so do the intervals of each of the 18 port counters, modulo 2^32, and exactly without int overflow |
| Turns.OneTransition | src/monitor-automata.c:1170-1293 | a turn ends in the start row's next state if and only if that row lists GOTO, its next state is not 255 and no flag branch comes first, however often GOTO is listed; otherwise state, flow and samples stay |
| Rows.FlowSampledByState | src/monitor-automata.c:1119-1137 | an agent in state k, of a type that watches flows and with a flow in row k-1 (the first row past the table), takes the reading of its statistics object, the differences modulo 2^64, and in that row and no other the bits of the nonzero thresholds there that they exceed; any other agent keeps its flow samples and bits |
| Rows.PortsSampledByType | src/monitor-automata.c:1097-1106 | agents of the five types that read ports take the reading of their own port, STATS and FP_STATS agents the 32-bit differences of all 18 counters as well, any other type neither |
| Rows.SamplingKeeps | src/monitor-automata.c:1082-1150 | sampling changes nothing else but the interval counter, which counts modulo a nonzero number of intervals |
| Rows.TransitionByState | src/monitor-automata.c:1082-1172 | a turn runs the actions of row k-1 of state k, the first row past the table, and ends in that row's next state or stays |
| Rows.TurnInstallsRow | src/monitoring_utilities.c:670-684 | a turn with a transition to state n ends with an entry for the flow of row n-1, the first row past the table, if the last installation it asks for is granted and none is answered with -1 |
| Rows.StartOutcome | src/monitoring_utilities.c:829-852 | for every answer of the switch, which numbers its entries from one (Runs.RunIsOrderly), the ids that starting a flow leaves: a code other than -1 is stored as the entry id, and the statistics id stays unless the object is attached and installed |
| Rows.StartLeaves | src/monitoring_utilities.c:338-441 | and what is left in the switch: an entry stays when its qualifiers were not all set or its statistics object was not attached, and an object stays when it was not attached or the entry not installed |
| Rows.GotoSamples | src/monitor-automata.c:1262-1288 | right after a transition the latest samples are the readings of the new statistics object and of the agent's own port, and all other samples are zero |
| Notices.ReportIffDue | src/monitor-automata.c:1172-1208 | all reports of a turn without transition, for every agent: exactly one, with the counters whose bits are set, if an action listed in row k-1, or a set flag, tells the controller - at once without a number of intervals, or as the counter comes round - there is an event or the row has a flow, and some bit is set; none otherwise, and the bits are cleared if and only if the controller is told |
| Notices.TransitionReports | src/monitor-automata.c:1172-1293 | all reports of a turn with a transition: what is due by the actions before the first GOTO, and by those after it, unless the agent is dropped before, one for the bits in the row that the transition selects |
| Notices.TurnOthers | src/monitor-automata.c:1152-1226 | the other notifications of any turn: one for the link per listed action that checks it, if the flow's share of the port's incoming packets is at the threshold, and one for the port if the bytes at the start of the interval exceed the limit |
| Turns.SenderReadsBitsIff | src/monitoring_utilities.c:1193-1204 | the sender's numeric tests agree with bits 0 and 1 exactly for bitmaps up to 3 and those with both bits set |
| Agents.PollAgent | src/monitor-automata.c:1082-1293 | a turn keeps the agent well formed: current_state in 1..254, every event bitmap at most 3, next states in 1..255; and it keeps the configuration |
| Agents.CheckFlowEvents | src/monitoring_utilities.c:952-994 | the bits of the current row say exactly which thresholds the interval crossed |
| Agents.SampleFlow | src/monitor-automata.c:1119-1137 | an agent that watches a flow shifts its samples, takes the new one from its statistics object and sets the bits; any other is left alone |
| Agents.Sampled | src/monitor-automata.c:1097-1150 | the sampling half of a turn does that and shifts the port samples, and changes neither state nor flow |
| Publishing.StepReports | src/monitor-automata.c:1172-1208 | the reports a step publishes for an agent that takes no transition are the one that Notices.ReportIffDue calls for, on the reading at its turn, if the step polls it, and none otherwise |
| Publishing.StepOthers | src/monitor-automata.c:1152-1226 | the link and port notifications a step publishes for an agent are those of its turn, with the port limit in force, if the step polls it, and none otherwise |
| Publishing.RunReports | src/monitor-automata.c:1172-1208 | over any stretch of a run in which it takes no transition, everything reported for an agent of any type is, poll by poll, what was due on the readings of its statistics object at the time, and nothing else |
| Publishing.RoundPublishes | src/monitor-automata.c:1016-1297 | everything an agent publishes in a round, cut short or not, is what its own turn publishes, if the round reaches it |
| Publishing.SwitchIffAlarm | src/monitoring_utilities.c:593-606 | a step publishes a MON_SWITCH message, exactly one and nothing else, if and only if it is a check with too many agents, too few free entries and an open gate; it carries the number of installed entries, the minimum of free ones and the maximum of entries in force |
| Timers.StepLoops | src/monitor-automata.c:2078-2090 | every event but the passing of time leaves the due time of every timer that stays, except that the one that fires becomes due one period later, and every new one is due one period from now |
| Timers.SuccessiveFirings | src/monitor-automata.c:1413 | two successive firings of one timer are exactly its period apart, in every run |
| Timers.FirstFiring | src/monitor-automata.c:1413-1414 | and the first comes exactly one period after the timer is started |
| Timers.LeaderPeriod | src/monitor-automata.c:1398-1414 | a leader's timer runs with its poll time in milliseconds, taken as unsigned |
| Timers.RoundsApart | src/monitor-automata.c:1016-1024 | two rounds that leaders of a group start are at least its poll time apart, whatever hand-overs and losses lie between |
| Timers.TurnsApart | src/monitor-automata.c:1016-1024 | two turns of an agent at poll time p that no stray timer starts are at least p milliseconds apart, p taken as unsigned, also through hand-overs and changes of poll time in between |
| Timers.ChecksEveryInterval | src/monitor-automata.c:1599-1600 | in every state of every run the check timer runs with the interval configured last, 60000 at boot |
| Timers.BootState | src/monitor-automata.c:2078-2090 | at boot there are no agents and nothing is installed, MON_SWITCH is allowed, and one timer is armed, for a check in 60000 ms |
| Throttle.PendingStays | src/monitor-automata.c:939-944 | nothing but its own expiry removes or moves a pending notify timer |
| Throttle.AlarmsAreApart | src/monitor-automata.c:939-978 | between two MON_SWITCH messages the notify timer of the first fires, so they are at least the interval in force at the first apart, whatever is configured in between |
| Invariants.TimerKeepsSound | src/monitor-automata.c:1587-1604 | configuring the check timer leaves the gate, the pending notify timer and the single check timer consistent |
| Messages.HelloAcceptedIff | src/monitor-automata.c:1360-1369 | a HELLO is accepted unless its first row has a flow and the entry asked for is answered with -1 |
| Messages.HelloConfigures | src/monitor-automata.c:1356-1398 | a new agent has every field that the message configures, is in state 1 with a counter of zero, and its latest samples are the readings of its statistics object and of its own port; the other agents stay as they are |
| Messages.HelloInstallsFirstRow | src/monitoring_utilities.c:810-855 | if the switch grants an entry and a statistics object, the new agent holds them, for the flow of the first row of the message, and its first sample is what the object starts with |
| Messages.EntryOfState | src/monitoring_utilities.c:670-684 | while entries are accounted for, each agent in state k whose row k-1 (the first row past the table) has a flow holds an entry for that very flow |
| Messages.StopRemoves | src/monitor-automata.c:1457-1480 | a STOP removes its agent, and of the others at most the timer id changes |
| Messages.ParamChangeSets | src/monitor-automata.c:1508-1547 | a PARAM_CHANGE sets its agent's poll time, and of the others at most the timer id changes |
| Messages.ToggleFlips | src/monitor-automata.c:1628-1641 | enable-disable-action flips one agent's flag of that action and keeps its other flags, everything else about it and everybody else |
| Messages.ThresholdsSet | src/monitor-automata.c:1671-1676 | modify-event-thresholds sets the packet and the byte threshold of row k-1 of one agent in state k, the first row past the table, and keeps all other fields, rows and agents |
| Messages.ReportByLatestThresholds | src/monitoring_utilities.c:952-994 | after it, a poll in that row, without a transition, that tells the controller reports packets if and only if the interval has more of them than the nonzero number sent last, and bytes likewise, however many other events came in between |
| Messages.LatestLimits | src/monitor-automata.c:1684-1704 | in every state of a run the two limits are those sent last, or zero |
| Messages.LatestPortLimit | src/monitor-automata.c:1706-1731 | and so are the port and its limit |
| Process.Monitor.constructor | src/monitor-automata.c:2078-2090 | the daemon starts in the boot state |
| Process.Monitor.TimerExists | src/monitor-automata.c:1401-1410 | the search finds a leader of the poll time if and only if there is one |
| Process.Monitor.HandOver | src/monitor-automata.c:1457-1473 | a leaving leader's timer is ended and its first follower gets one, as specified for leaving |
| Process.Monitor.FindFollower | src/monitor-automata.c:1465-1472 | the loop over the hash map finds the first other member of the group without a timer, if there is one |
| Process.Monitor.StartFollower | src/monitor-automata.c:1463-1472 | exactly one fresh timer is armed, for that member |
| Process.Monitor.Stop | src/monitor-automata.c:1457-1480 | MON_STOP takes the specified step |
| Process.Monitor.Remove | src/monitor-automata.c:1476-1479 | the agent's entry is destroyed and the agent leaves the hash map; nothing else changes |
| Process.Monitor.JoinGroup | src/monitor-automata.c:1527-1547 | an agent without a timer joins the group of a poll time or leads it, as specified for joining |
| Process.Monitor.ParamChange | src/monitor-automata.c:1508-1547 | MON_PARAM_CHANGE takes the specified step |
| Process.Monitor.Hello | src/monitor-automata.c:1356-1421 | MON_HELLO takes the specified step, including the refused installation |
| Process.Monitor.TimerEvent | src/monitor-automata.c:988-1310 | a polling timer takes the specified step; a vanished leader polls nobody |
| Process.Monitor.PollAll | src/monitor-automata.c:1020-1296 | the loop over the hash map is the specified round, cut short when an agent is dropped |
| Process.RoundStopsAt | src/monitor-automata.c:1252-1260 | a dropped agent ends the round |
| Process.Monitor.GroupStatusCheck | src/monitor-automata.c:950-980 | the check callback takes the specified step |
| Process.Monitor.NotifyTimerEvent | src/monitor-automata.c:939-944 | the notify callback takes the specified step |
| Process.Monitor.ConfigureTcamTimer | src/monitor-automata.c:1587-1604 | the new interval is stored and the check timer replaced |
| Process.Monitor.SetTcamLimits | src/monitor-automata.c:1684-1704 | the two limits become the values read, as uint64, and nothing else changes |
| Process.Monitor.SetPortLimit | src/monitor-automata.c:1706-1731 | the port and its limit become the values read, as uint64, and nothing else changes |
| Process.Monitor.EnableDisableAction | src/monitor-automata.c:1606-1648 | one agent's flag is toggled and nothing else changes; an unknown agent changes nothing |
| Process.Monitor.ModifyEventThresholds | src/monitor-automata.c:1649-1683 | the current row's two thresholds of one agent become the numbers read, as uint64, and nothing else changes |
| Process.Monitor.Fire | src/monitor-automata.c:2078-2090 | one expiry in the loop, whatever its handler, takes the specified step |
| MonitoringAgent.MonAgent.CalculateFlowInterval | src/monitoring_utilities.c:930-944 | the interval is end minus start modulo 2^64, for packets and bytes, and nothing else changes |
| MonitoringAgent.MonAgent.CheckFlowEvents | src/monitoring_utilities.c:952-994 | setting and resetting one bit at a time gives the specified bitmap, and the result is true if and only if it is nonzero |
| MonitoringAgent.MonAgent.CalculatePortIntervals | src/monitoring_utilities.c:893-923 | the loop leaves each port interval as the 32-bit difference of its samples |
| MonitoringAgent.MonAgent.Sample | src/monitor-automata.c:1097-1150 | the sampling half of a turn, field by field, is the specified one |
| MonitoringAgent.MonAgent.StartFlow | src/monitoring_utilities.c:810-855 | starting a row's flow, with all its partial failures, is the specified one |
| MonitoringAgent.MonAgent.SendStatsNotification | src/monitoring_utilities.c:1117-1225 | the sender's numeric tests publish exactly the counters whose bits are set and clear the row |
| MonitoringAgent.MonAgent.GotoNextState | src/monitor-automata.c:1238-1288 | destroy, transition, start, reset and first samples in that order give the specified transition |
| MonitoringAgent.MonAgent.NotifyIfAny | src/monitor-automata.c:1181-1208 | the report goes out if there is an event or the row has a flow, and nothing happens otherwise |
| MonitoringAgent.MonAgent.TakeAction | src/monitor-automata.c:1177-1293 | the priority chain takes the specified branch for every action and every setting of the flags |
| MonitoringAgent.MonAgent.TakeActions | src/monitor-automata.c:1170-1295 | the loop over the actions is the specified run of the start row |
| MonitoringAgent.MonAgent.Poll | src/monitor-automata.c:1082-1295 | the turn of one agent is the specified one |
| PortEvents.CounterOf | src/monitoring_utilities.c:744-788 | a recognised name has the index 0..9 of its counter and any other 0xFF |
| PortEvents.CounterNames | src/monitoring_utilities.c:751-788 | the ten names, one by one, and their indices |
| PortEvents.BitOfCounter | src/monitoring_utilities.c:1062-1066 | the bit of counter j is 1 << j |
| PortEvents.Validate | src/monitoring_utilities.c:789-802 | the index is that of the named counter, and it is within bounds if and only if it is below the threshold |
| PortEvents.BitFollowsLastThreshold | src/monitoring_utilities.c:1001-1068 | after a list of recognised events bit j is set if and only if counter j is at or above the last threshold listed for it; unlisted bits and all bits above 9 keep their value |
| PortEvents.CheckPortEvents | src/monitoring_utilities.c:1001-1082 | the loop handles exactly the events before the first unrecognised one, only in a row with port thresholds before the last state, and the result is true if and only if the bitmap is nonzero |
| PortEvents.AllJudgedIff | src/monitoring_utilities.c:1007-1070 | every listed event is judged if and only if all of them are recognised and the row has port thresholds and is not the last, or there are none |
| PortEvents.RightIff | src/monitoring_utilities.c:1007-1082 | the bits agree with the last listed thresholds for all counters and all old bits if and only if each of those thresholds is also the last one of its counter before the first unrecognised event, in a row that is not skipped |
| PortEvents.MisspeltHidesOctets | src/monitoring_utilities.c:1055-1070 | a list with a misspelt event first in which a counter of nine with a threshold of one gets no bit |
| MacAddress.MacParse | src/util.c:179-236 | the backward scan leaves the specified bytes in the array and reports failure for the specified texts; a null or long string gives zeros and failure |
| MacAddress.BackwardIsForward | src/util.c:179-236 | for any six colon-separated groups of one or two hex digits the backward scan stores the value of the i-th group, read forwards, in the i-th byte |
| MacAddress.PrintedParses | src/util.c:243-256 | every address comes back from its printed form |
| MacAddress.PlainHexParses | src/util.c:190-193 | every address comes back from its twelve digits, with or without 0x |
| MacAddress.PrefixIsDropped | src/util.c:190-193 | a leading 0x or 0X makes no difference to a text of up to 15 characters |
| MacAddress.LegibleIsAccepted | src/util.c:199-235 | a scan over hex digits and colons never fails, however they are grouped |
| MacAddress.LegibleAcceptedIff | src/util.c:186-193 | such a text is accepted if and only if it has at most 17 characters, and is refused with zeros otherwise |
| MacAddress.IllegibleIsRefused | src/util.c:199-235 | a text with any other character among its last six is refused |
| MacAddress.JoinedSplit | src/util.c:243-256 | joining the groups of a text with colons gives the text back |
| IpAddress.IpParse | src/util.c:266-297 | the token loop returns the value of four octets and fails for every other number of tokens, every token above 255 and every long text |
| IpAddress.AcceptedIff | src/util.c:271-297 | a text is an address if and only if it has at most 16 characters and four tokens that atoi reads as 0 to 255; the first is the most significant octet |
| IpAddress.AtoiReads | src/util.c:281 | a token reads as the number after its white space and sign, up to the first character that is no digit |
| IpAddress.NextOctet | src/util.c:278-288 | after n octets, up to four, the accumulator is their big-endian value and below 2^(8n) |
| IpAddress.PrintedParses | src/util.c:308-317 | every 32-bit address comes back from its dotted decimal form |
| IpAddress.NextTokenIsNextRun | src/util.c:277-287 | a token is the next maximal run without dots |
| IpAddress.DotsCollapse | src/util.c:277-287 | repeating a dot changes no token, so addresses with doubled dots are accepted |
| CConstants.Ctoi | src/util.c:328-366 | sign, base and digit loop give the signed 32-bit wrap of the value of the longest accepted digit run, and the end of that run |
| CConstants.OneMoreDigit | src/util.c:355-359 | wrapping the accumulator at every digit gives the same as wrapping the value once |
| CConstants.WrittenConstant | src/util.c:328-366 | every int comes back from its decimal, octal, hexadecimal and binary notation, with prefix letters of either case and an optional minus, and the whole text is used |
| CConstants.NoConstant | src/util.c:328-366 | a text that begins with neither minus nor digit reads as zero and none of it is used |
| Numerals.DigitTable | src/util.c:355-359 | the sixteen digits in order, letters of either case |
| CConstants.StrictIff | src/util.c:355-359 | the run is the one C reads if and only if no accepted digit is too large for the base |
| Squeeze.Copy | src/monitor-automata.c:1907-1919 | the copy is the file with every run of blanks shortened to one, plus the byte 255 if the file ends in a blank |
| Squeeze.SqueezedWords | src/monitor-automata.c:1907-1919 | squeezing keeps the words of a text |
| Squeeze.SqueezedShape | src/monitor-automata.c:1907-1919 | no two blanks in a row are left, and the text begins and ends as before |
| Squeeze.SqueezedSameIff | src/monitor-automata.c:1907-1919 | it changes exactly the texts with two blanks in a row |
| Squeeze.SqueezedTwice | src/monitor-automata.c:1907-1919 | squeezing twice is squeezing once |
| Squeeze.CopyIsSqueezedIff | src/monitor-automata.c:1907-1919 | the copy is the squeezed text if and only if the file does not end in a space; otherwise it has one word more, the byte 255 |

## Left out

- Sockets, logging, the XML reader, daemonizing and memory management: a HELLO brings a finished table, published messages are a sequence, and an agent freed twice after a failed GOTO (`src/monitor-automata.c:1257-1258`) is an agent that is gone.
- Tables without a row or with a next_state outside 1..255, a HELLO with the mon_id of a live agent, and STOP or PARAM_CHANGE for an agent that does not exist: the code dereferences a null or stray pointer there or finds one of two agents.
- Reuse of ids: entry, statistics and timer ids count up and are never handed out again.
- Entry and flow priorities, and all qualifiers of a flow but the addresses: nothing in the modelled code reads them back.
- The call of the port check inside a poll passes locals that are never set (`src/monitor-automata.c:1149`); the model takes its answer as an arbitrary input of the turn and models the check on its own.
- MonitoringAgent.MonAgent.SendStatsNotification: does not model the port part of the message and the port bits it clears, because the flow part decides alone whether anything is sent.
- MonitoringAgent.MonAgent.TakeAction: decides link utilisation by comparing exact products, because rounding to float is not modelled.
- Notices.TransitionReports: does not say which counter values a report after the transition carries, because they are those of the new flow's first sample, which Rows.GotoSamples has.
- Polling.GapBetweenPolls: says nothing once the agent's own group is stranded, because until an agent joins it anew nothing but stray timers polls it; Runs.LedThroughout has the exact condition.
- IpAddress.IpParse: takes atoi to wrap like a 64-bit strtol cut to an int, and does not model the terminator that a text of 16 characters writes past the buffer.
- MacAddress.MacParse: does not model the read one place before the text, whose value never matters.
- Code under BST, LINK_MONITORING, PRESEL and CHECK_POLLING_ACCURACY, the heavy-hitter and status replies, VLAN and port helpers, list and vector code.
