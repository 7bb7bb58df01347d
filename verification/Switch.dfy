// The switch ASIC as the daemon sees it: TCAM entries, statistics objects and
// port counters. Ids are handed out once and never again; whether a creation
// succeeds, and what a failing one leaves behind, is decided by two arbitrary
// functions of the attempt number.
module Switch {
  import opened Words

  const PORT_COUNTERS: nat := 18

  datatype Counters = Counters(packets: U64, bytes: U64)

  // The qualifiers that select the packets of one flow.
  datatype FlowKey = FlowKey(srcIp: int, srcIpMask: int, dstIp: int, dstIpMask: int)

  datatype Entry = Entry(flow: FlowKey, stat: Option<int>)

  type PortReading = s: seq<I32> | |s| == 18 witness [0, 0, 0, 0, 0, 0, 0, 0, 0, 0, 0, 0, 0, 0, 0, 0, 0, 0]

  const NoPortReading: PortReading := [0, 0, 0, 0, 0, 0, 0, 0, 0, 0, 0, 0, 0, 0, 0, 0, 0, 0]

  type ErrorCode = x: int | x < 0 witness -1

  const INTERNAL: ErrorCode := -1

  datatype EntryFate =
    | Created
    | CreateRefused(rc: ErrorCode)   // no entry
    | QualifyRefused(rc: ErrorCode)  // an entry whose qualifiers were not all set

  datatype StatFate =
    | Attached(start: Counters)
    | StatRefused     // no statistics object
    | AttachRefused   // an object attached to nothing
    | InstallRefused  // attached, but the entry is not written to the TCAM

  datatype Hw = Hw(
    entries: map<int, Entry>,
    stats: map<int, Counters>,
    ports: map<int, PortReading>,
    lastEntry: nat,
    lastStat: nat,
    entryFate: int -> EntryFate,
    statFate: int -> StatFate)

  // mon_fp_stats_feature_entry_create: an entry id, or the code of the first call that failed.
  function EntryCreate(hw: Hw, flow: FlowKey): (Hw, int) {
    var e := hw.lastEntry + 1;
    var h := hw.(lastEntry := e);
    var made := h.(entries := h.entries[e := Entry(flow, None)]);
    match hw.entryFate(e)
    case Created => (made, e)
    case CreateRefused(rc) => (h, rc)
    case QualifyRefused(rc) => (made, rc)
  }

  // mon_fp_feature_stat_attach_entry_install: a statistics id, or -1.
  function StatAttachInstall(hw: Hw, entry: int): (Hw, int) {
    var s := hw.lastStat + 1;
    var h := hw.(lastStat := s);
    var fate := hw.statFate(s);
    if fate.StatRefused? then
      (h, INTERNAL)
    else
      var start := if fate.Attached? then fate.start else Counters(0, 0);
      var made := h.(stats := h.stats[s := start]);
      if fate.AttachRefused? || entry !in hw.entries then
        (made, INTERNAL)
      else
        (made.(entries := made.entries[entry := made.entries[entry].(stat := Some(s))]),
         if fate.InstallRefused? then INTERNAL else s)
  }

  // mon_fp_stats_feature_entry_destroy: detaching a statistics object that is not
  // attached to the entry fails, and then nothing is destroyed.
  function EntryDestroy(hw: Hw, entry: int, stat: int): Hw {
    if entry in hw.entries && hw.entries[entry].stat == Some(stat) then
      hw.(entries := hw.entries - {entry}, stats := hw.stats - {stat})
    else
      hw
  }

  // get_stats_attached_to_flow_enty: zeros when the object does not exist.
  function ReadStat(hw: Hw, stat: int): Counters {
    if stat in hw.stats then hw.stats[stat] else Counters(0, 0)
  }

  // per_port_pkt_stats: zeros when the port cannot be read.
  function ReadPort(hw: Hw, port: int): PortReading {
    if port in hw.ports then hw.ports[port] else NoPortReading
  }
}
