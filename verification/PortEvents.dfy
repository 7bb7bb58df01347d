// The check of the port counters against the thresholds of a row.
module PortEvents {
  import opened Words

  const STAT_COUNTERS: nat := 18

  datatype PortEvent = PortEvent(name: string, value: I32)

  // The events a row may list, each at the index of the counter it watches.
  const NAMES: seq<string> := [
    "opennsl_spl_snmpIfInUcastPkts", "opennsl_spl_snmpIfInNUcastPkts",
    "opennsl_spl_snmpIfOutUcastPkts", "opennsl_spl_snmpIfOutNUcastPkts",
    "opennsl_spl_snmpIfInOctets", "opennsl_spl_snmpIfOutOctets",
    "opennsl_spl_snmpIfInErrors", "opennsl_spl_snmpIfOutErrors",
    "opennsl_spl_snmpIfInDiscards", "opennsl_spl_snmpIfOutDiscards"]

  predicate Recognised(name: string) {
    name in NAMES
  }

  // The last case of the C chain of comparisons, 0xFF, is out of reach for recognised names.
  function CounterOf(name: string): (j: nat)
    ensures Recognised(name) ==> j < 10 && NAMES[j] == name
    ensures !Recognised(name) ==> j == 0xFF
  {
    if name == NAMES[0] then 0
    else if name == NAMES[1] then 1
    else if name == NAMES[2] then 2
    else if name == NAMES[3] then 3
    else if name == NAMES[4] then 4
    else if name == NAMES[5] then 5
    else if name == NAMES[6] then 6
    else if name == NAMES[7] then 7
    else if name == NAMES[8] then 8
    else if name == NAMES[9] then 9
    else 0xFF
  }

  // The ten names and the counters that they stand for.
  lemma CounterNames()
    ensures CounterOf("opennsl_spl_snmpIfInUcastPkts") == 0 && CounterOf("opennsl_spl_snmpIfInNUcastPkts") == 1
    ensures CounterOf("opennsl_spl_snmpIfOutUcastPkts") == 2 && CounterOf("opennsl_spl_snmpIfOutNUcastPkts") == 3
    ensures CounterOf("opennsl_spl_snmpIfInOctets") == 4 && CounterOf("opennsl_spl_snmpIfOutOctets") == 5
    ensures CounterOf("opennsl_spl_snmpIfInErrors") == 6 && CounterOf("opennsl_spl_snmpIfOutErrors") == 7
    ensures CounterOf("opennsl_spl_snmpIfInDiscards") == 8 && CounterOf("opennsl_spl_snmpIfOutDiscards") == 9
  {
    hide CounterOf;
    CounterAt(0);
    CounterAt(1);
    CounterAt(2);
    CounterAt(3);
    CounterAt(4);
    CounterAt(5);
    CounterAt(6);
    CounterAt(7);
    CounterAt(8);
    CounterAt(9);
  }

  lemma CounterAt(j: nat)
    requires j < 10
    ensures CounterOf(NAMES[j]) == j
  {
    NamesDiffer(j, CounterOf(NAMES[j]));
  }

  lemma NamesDiffer(i: nat, j: nat)
    requires i < 10 && j < 10
    ensures NAMES[i] == NAMES[j] ==> i == j
  {
  }

  datatype Verdict = Verdict(within: bool, index: nat)

  // validate_port_input_event_thresholds
  function Validate(name: string, threshold: I32, stats: seq<I32>): (v: Verdict)
    requires Recognised(name) && |stats| == STAT_COUNTERS
    ensures v.index < 10 && NAMES[v.index] == name
    ensures v.within <==> stats[v.index] < threshold
  {
    var index := CounterOf(name);
    Verdict(stats[index] < threshold, index)
  }

  // 1 << j, for the counters a row can watch.
  function Mask(j: nat): bv32
    requires j < 10
  {
    [1, 2, 4, 8, 16, 32, 64, 128, 256, 512][j]
  }

  function SetBits(b: bv32, m: bv32): bv32 {
    b | m
  }

  function ResetBits(b: bv32, m: bv32): bv32 {
    b & !m
  }

  function Common(b: bv32, m: bv32): bv32 {
    b & m
  }

  predicate HasBits(b: bv32, m: bv32) {
    Common(b, m) != 0
  }

  // The bits no event stands for.
  function OtherBits(b: bv32): bv32 {
    b & 0xFFFF_FC00
  }

  predicate Bit(bitmap: bv32, j: nat)
    requires j < 10
  {
    HasBits(bitmap, Mask(j))
  }

  function WithBit(bitmap: bv32, j: nat, on: bool): bv32
    requires j < 10
  {
    if on then SetBits(bitmap, Mask(j)) else ResetBits(bitmap, Mask(j))
  }

  // Counter j has the bit of that number, counted from the lowest.
  lemma BitOfCounter(bitmap: bv32, j: nat)
    requires j < 10
    ensures Bit(bitmap, j) <==> bitmap & (1 << j) != 0
  {
    ShiftedOne(j);
  }

  lemma ShiftedOne(j: nat)
    requires j < 10
    ensures Mask(j) == 1 << j
  {
  }

  lemma OneBit(bitmap: bv32, j: nat, on: bool, k: nat)
    requires j < 10 && k < 10
    ensures Bit(WithBit(bitmap, j, on), k) == if k == j then on else Bit(bitmap, k)
    ensures OtherBits(WithBit(bitmap, j, on)) == OtherBits(bitmap)
  {
    hide Mask, SetBits, ResetBits, HasBits, OtherBits;
    MasksApart(j, k);
    SetAndReset(bitmap, Mask(j));
    OthersSet(bitmap, Mask(j));
    OthersReset(bitmap, Mask(j));
    BitsApart(bitmap, Mask(j), Mask(k));
  }

  lemma MasksApart(j: nat, k: nat)
    requires j < 10 && k < 10
    ensures HasBits(Mask(j), Mask(k)) <==> j == k
    ensures OtherBits(Mask(j)) == 0
  {
  }

  lemma SetAndReset(b: bv32, m: bv32)
    ensures HasBits(m, m) ==> HasBits(SetBits(b, m), m)
    ensures !HasBits(ResetBits(b, m), m)
  {
  }

  lemma OthersSet(b: bv32, m: bv32)
    requires OtherBits(m) == 0
    ensures OtherBits(SetBits(b, m)) == OtherBits(b)
  {
  }

  lemma OthersReset(b: bv32, m: bv32)
    requires OtherBits(m) == 0
    ensures OtherBits(ResetBits(b, m)) == OtherBits(b)
  {
  }

  lemma BitsApart(b: bv32, m: bv32, n: bv32)
    ensures !HasBits(m, n) ==> HasBits(SetBits(b, m), n) == HasBits(b, n) == HasBits(ResetBits(b, m), n)
  {
    hide Common, SetBits, ResetBits;
    if Common(m, n) == 0 {
      SetApart(b, m, n);
      ResetApart(b, m, n);
    }
  }

  lemma SetApart(b: bv32, m: bv32, n: bv32)
    requires Common(m, n) == 0
    ensures Common(SetBits(b, m), n) == Common(b, n)
  {
  }

  lemma ResetApart(b: bv32, m: bv32, n: bv32)
    requires Common(m, n) == 0
    ensures Common(ResetBits(b, m), n) == Common(b, n)
  {
  }

  // The bitmap after a list of recognised events.
  function Checked(bitmap: bv32, events: seq<PortEvent>, stats: seq<I32>): bv32
    requires |stats| == STAT_COUNTERS && forall e :: e in events ==> Recognised(e.name)
  {
    if events == [] then bitmap
    else
      var e := events[|events| - 1];
      var v := Validate(e.name, e.value, stats);
      WithBit(Checked(bitmap, events[..|events| - 1], stats), v.index, !v.within)
  }

  // The number of events before the first one that is not recognised.
  function Prefix(events: seq<PortEvent>): (n: nat)
    ensures n <= |events| && forall i :: 0 <= i < n ==> Recognised(events[i].name)
    ensures n < |events| ==> !Recognised(events[n].name)
  {
    if events == [] || !Recognised(events[0].name) then 0
    else 1 + Prefix(events[1..])
  }

  // How many of the listed events are looked at; only those of a row that has port thresholds
  // and is not the last one are.
  function Judged(active: bool, events: seq<PortEvent>): nat {
    if active then Prefix(events) else 0
  }

  // Event `i` is the last of the list that watches counter `j`.
  ghost predicate LastFor(events: seq<PortEvent>, i: int, j: nat) {
    && 0 <= i < |events| && CounterOf(events[i].name) == j
    && forall k :: i < k < |events| ==> CounterOf(events[k].name) != j
  }

  ghost predicate Unwatched(events: seq<PortEvent>, j: nat) {
    forall k :: 0 <= k < |events| ==> CounterOf(events[k].name) != j
  }

  // The last threshold listed for a counter decides its bit, other bits keep their value.
  lemma {:induction false} BitFollowsLastThreshold(bitmap: bv32, events: seq<PortEvent>, stats: seq<I32>, i: int, j: nat)
    requires |stats| == STAT_COUNTERS && forall e :: e in events ==> Recognised(e.name)
    requires j < 10
    ensures LastFor(events, i, j) ==> (Bit(Checked(bitmap, events, stats), j) <==> stats[j] >= events[i].value)
    ensures Unwatched(events, j) ==> Bit(Checked(bitmap, events, stats), j) == Bit(bitmap, j)
    ensures OtherBits(Checked(bitmap, events, stats)) == OtherBits(bitmap)
  {
    hide Mask, Bit, WithBit, OtherBits, CounterOf;
    if events != [] {
      var n := |events| - 1;
      var init, e := events[..n], events[n];
      assert init + [e] == events;
      BitFollowsLastThreshold(bitmap, init, stats, i, j);
      var v := Validate(e.name, e.value, stats);
      OneBit(Checked(bitmap, init, stats), v.index, !v.within, j);
      if LastFor(events, i, j) && i < n {
        assert CounterOf(events[n].name) != j;
        assert LastFor(init, i, j);
      }
      if Unwatched(events, j) {
        assert Unwatched(init, j);
      }
    }
  }

  class EventRow {
    const portThresholdExists: bool
    const events: seq<PortEvent>
    var portEvents: bv32

    constructor (portThresholdExists: bool, events: seq<PortEvent>)
      ensures this.portThresholdExists == portThresholdExists && this.events == events && portEvents == 0
    {
      this.portThresholdExists, this.events, portEvents := portThresholdExists, events, 0;
    }
  }

  // check_events_bst_port_stats; an event that is not recognised keeps the cursor where it is.
  method CheckPortEvents(rows: seq<EventRow>, stats: seq<I32>, currentState: int) returns (notification: bool)
    requires |stats| == STAT_COUNTERS && 1 <= currentState
    modifies if currentState < |rows| then {rows[currentState - 1]} else {}
    ensures notification <==> currentState < |rows| && rows[currentState - 1].portEvents != 0
    ensures currentState < |rows| ==>
              var row := rows[currentState - 1];
              var judged := Judged(row.portThresholdExists, row.events);
              row.portEvents == Checked(old(row.portEvents), row.events[..judged], stats)
  {
    hide Mask, SetBits, ResetBits, CounterOf, Recognised, Prefix, NAMES;
    notification := false;
    if currentState < |rows| {
      var row := rows[currentState - 1];
      if row.portThresholdExists {
        var event := 0;
        var i := 0;
        while i < |row.events|
          invariant 0 <= i <= |row.events|
          invariant event == if i <= Prefix(row.events) then i else Prefix(row.events)
          invariant row.portEvents == Checked(old(row.portEvents), row.events[..event], stats)
        {
          if Recognised(row.events[event].name) {
            var v := Validate(row.events[event].name, row.events[event].value, stats);
            assert row.events[..event + 1][..event] == row.events[..event];
            if !v.within {
              row.portEvents := SetBits(row.portEvents, Mask(v.index));
            } else {
              row.portEvents := ResetBits(row.portEvents, Mask(v.index));
            }
            event := event + 1;
          }
          i := i + 1;
        }
      }
      notification := row.portEvents != 0;
    }
  }

  // ---------- when the answers are right ----------

  lemma AllJudgedIff(active: bool, events: seq<PortEvent>)
    ensures Judged(active, events) == |events|
            <==> events == [] || (active && forall i :: 0 <= i < |events| ==> Recognised(events[i].name))
  {
    if Prefix(events) < |events| {
      assert !Recognised(events[Prefix(events)].name);
    }
  }

  function Result(active: bool, bitmap: bv32, events: seq<PortEvent>, stats: seq<I32>): bv32
    requires |stats| == STAT_COUNTERS
  {
    Checked(bitmap, events[..Judged(active, events)], stats)
  }

  // Every counter with a listed threshold has its bit set exactly when it is at or above the
  // last one.
  ghost predicate Right(bitmap: bv32, events: seq<PortEvent>, stats: seq<I32>)
    requires |stats| == STAT_COUNTERS
  {
    forall i: int, j: nat :: j < 10 && LastFor(events, i, j) ==> (Bit(bitmap, j) <==> stats[j] >= events[i].value)
  }

  // The last threshold of the counter is also the last one among the events that are judged.
  ghost predicate Covered(active: bool, events: seq<PortEvent>, i: int, j: nat)
    requires 0 <= i < |events|
  {
    exists h :: LastFor(events[..Judged(active, events)], h, j) && events[h].value == events[i].value
  }

  lemma {:induction false} WatchedOrNot(events: seq<PortEvent>, j: nat)
    ensures Unwatched(events, j) || exists i :: LastFor(events, i, j)
  {
    hide CounterOf;
    if events != [] {
      var n := |events| - 1;
      WatchedOrNot(events[..n], j);
      assert forall k :: 0 <= k < n ==> events[..n][k] == events[k];
      if CounterOf(events[n].name) == j {
        assert LastFor(events, n, j);
      } else if i :| LastFor(events[..n], i, j) {
        assert LastFor(events, i, j);
      } else {
        assert forall k :: 0 <= k < n ==> CounterOf(events[k].name) == CounterOf(events[..n][k].name);
      }
    }
  }

  // A bitmap and counters that the check answers wrongly.
  lemma WrongAnswer(active: bool, events: seq<PortEvent>, i: int, j: nat)
    requires j < 10 && LastFor(events, i, j) && !Covered(active, events, i, j)
    ensures exists bitmap, stats: seq<I32> ::
              |stats| == STAT_COUNTERS && !(Bit(Result(active, bitmap, events, stats), j) <==> stats[j] >= events[i].value)
  {
    hide Bit, CounterOf;
    var judged, v := events[..Judged(active, events)], events[i].value;
    if !Unwatched(judged, j) {
      WatchedOrNot(judged, j);
      var h :| LastFor(judged, h, j);
      var least: I32 := if judged[h].value < v then judged[h].value else v;
      var stats: seq<I32> := seq(STAT_COUNTERS, _ => least);
      BitFollowsLastThreshold(0, judged, stats, h, j);
      assert !(Bit(Result(active, 0, events, stats), j) <==> stats[j] >= v);
    } else {
      var stats: seq<I32> := seq(STAT_COUNTERS, _ => v);
      BitFollowsLastThreshold(0, judged, stats, i, j);
      NoBits(j);
      assert !(Bit(Result(active, 0, events, stats), j) <==> stats[j] >= v);
    }
  }

  lemma NoBits(j: nat)
    requires j < 10
    ensures !Bit(0, j)
  {
  }

  // The check answers rightly, whatever the counters and the old bits, exactly when every
  // last threshold is covered.
  lemma RightIff(active: bool, events: seq<PortEvent>)
    ensures (forall bitmap, stats: seq<I32> :: |stats| == STAT_COUNTERS ==> Right(Result(active, bitmap, events, stats), events, stats))
            <==> forall i: int, j: nat :: j < 10 && LastFor(events, i, j) ==> Covered(active, events, i, j)
  {
    hide Bit, CounterOf, Checked, Covered, Result;
    if i: int, j: nat :| j < 10 && LastFor(events, i, j) && !Covered(active, events, i, j) {
      WrongAnswer(active, events, i, j);
      var bitmap: bv32, stats: seq<I32> :| |stats| == STAT_COUNTERS
        && !(Bit(Result(active, bitmap, events, stats), j) <==> stats[j] >= events[i].value);
      assert !Right(Result(active, bitmap, events, stats), events, stats);
    } else {
      forall bitmap, stats: seq<I32> | |stats| == STAT_COUNTERS ensures Right(Result(active, bitmap, events, stats), events, stats) {
        forall i: int, j: nat | j < 10 && LastFor(events, i, j)
          ensures Bit(Result(active, bitmap, events, stats), j) <==> stats[j] >= events[i].value
        {
          CoveredIsRight(active, bitmap, events, stats, i, j);
        }
      }
    }
  }

  lemma CoveredIsRight(active: bool, bitmap: bv32, events: seq<PortEvent>, stats: seq<I32>, i: int, j: nat)
    requires |stats| == STAT_COUNTERS && j < 10 && LastFor(events, i, j) && Covered(active, events, i, j)
    ensures Bit(Result(active, bitmap, events, stats), j) <==> stats[j] >= events[i].value
  {
    hide Bit, CounterOf;
    var judged := events[..Judged(active, events)];
    var h :| LastFor(judged, h, j) && events[h].value == events[i].value;
    BitFollowsLastThreshold(bitmap, judged, stats, h, j);
  }

  // A row with a misspelt event before the one that counts: received octets go unnoticed.
  const MISSPELT: seq<PortEvent> := [PortEvent("opennsl_spl_snmpIfInOctet", 1), PortEvent("opennsl_spl_snmpIfInOctets", 1)]

  lemma MisspeltHidesOctets()
    ensures LastFor(MISSPELT, 1, 4) && !Covered(true, MISSPELT, 1, 4)
    ensures var stats: seq<I32> := seq(STAT_COUNTERS, _ => 9);
            stats[4] >= MISSPELT[1].value && !Bit(Result(true, 0, MISSPELT, stats), 4)
  {
    assert !Recognised(MISSPELT[0].name) by {
      assert MISSPELT[0].name[|MISSPELT[0].name| - 1] == 't';
    }
    assert Prefix(MISSPELT) == 0;
    assert MISSPELT[1].name == NAMES[4] && CounterOf(NAMES[4]) == 4;
    NoBits(4);
  }
}
