/** The structured-event printer: each operation yields the records and
    message-only lines it would write. The wall-clock instant stamped on a
    record is the parameter `now`; a clock reading used for elapsed time is
    the parameter `clock`. */
module JsonPrinter {
  import opened Wrappers
  import opened Clock
  import opened Statistics
  import opened JsonEncoding

  /** printStart: a start event naming the hostname and port. */
  function PrintStart(s: Stats, now: Time): (rec: JsonRecord)
    ensures rec.eventType == StartEvent && rec.timestamp == now
    ensures rec.message == Starting(s.hostname, s.port)
    ensures rec.hostname == OmitZero(s.hostname, "") && rec.port == OmitZero(s.port, 0)
    ensures TargetOnly(rec)
  {
    var d := Empty(StartEvent, Starting(s.hostname, s.port), now).(hostname := s.hostname, port := s.port);
    Encode(d).value
  }

  /** The struct printReply builds: address, port, `is_ip` and `success`
      set up front; the hostname and `is_ip = false` for a hostname target;
      then latency and the success counter for a successful reply, or the
      failure counter for a failed one. */
  function ReplyData(s: Stats, r: ReplyMsg, now: Time): (d: JsonData)
    ensures d.totalPacketLoss == Num(0.0)
  {
    var base := Empty(ProbeEvent, Blank, now).(addr := s.ip, port := s.port, isIP := Some(true), success := Some(false));
    var named := if !s.isIP then base.(hostname := s.hostname, isIP := Some(false)) else base;
    var host := if !s.isIP then Named(s.hostname, s.ip) else Address(s.ip);
    var withMessage := named.(message := ProbeReply(r.msg, host, s.port));
    if r.msg != NoReply then
      withMessage.(latency := r.rtt, totalSuccessfulProbes := s.totalSuccessfulProbes, success := Some(true))
    else
      withMessage.(totalUnsuccessfulProbes := s.totalUnsuccessfulProbes)
  }

  /** printReply: the probe record. `success` is always present and true
      exactly for a successful reply; `is_ip` and the address are always
      present (address text is never empty) and the hostname only for a
      hostname target. A successful record carries the latency and the
      success counter and never the failure counter; a failed record the
      reverse. `omitempty` drops a zero latency or counter. */
  function PrintReply(s: Stats, r: ReplyMsg, now: Time): (rec: JsonRecord)
    ensures rec.eventType == ProbeEvent && rec.timestamp == now
    ensures rec.message == ProbeReply(r.msg, TargetOf(s), s.port)
    ensures rec.success == Some(Succeeded(r))
    ensures rec.isIP == Some(s.isIP)
    ensures rec.addr == Some(s.ip)
    ensures rec.hostname.Some? <==> !s.isIP && s.hostname != ""
    ensures rec.hostname.Some? ==> rec.hostname.value == s.hostname
    ensures rec.port == OmitZero(s.port, 0)
    ensures Succeeded(r) ==> rec.latency == OmitZero(r.rtt, 0.0)
                             && rec.totalSuccessfulProbes == OmitZero(s.totalSuccessfulProbes, 0)
                             && rec.totalUnsuccessfulProbes.None?
    ensures !Succeeded(r) ==> rec.latency.None? && rec.totalSuccessfulProbes.None?
                              && rec.totalUnsuccessfulProbes == OmitZero(s.totalUnsuccessfulProbes, 0)
    ensures rec.totalPackets.None? && rec.totalPacketLoss.None?
            && rec.lastSuccessfulProbe.None? && rec.lastUnsuccessfulProbe.None?
            && rec.longestUptime.None? && rec.longestUptimeStart.None? && rec.longestUptimeEnd.None?
            && rec.totalUptime.None? && rec.totalDowntime.None?
  {
    Encode(ReplyData(s, r, now)).value
  }

  /** printRetryingToResolve: a retry event naming the hostname. */
  function PrintRetryingToResolve(s: Stats, now: Time): (rec: JsonRecord)
    ensures rec.eventType == RetryEvent && rec.timestamp == now
    ensures rec.message == Resolving(s.hostname)
    ensures rec.hostname == OmitZero(s.hostname, "")
    ensures TargetOnly(rec) && rec.port.None?
  {
    Encode(Empty(RetryEvent, Resolving(s.hostname), now).(hostname := s.hostname)).value
  }

  /** printDurationStats: one message with the start time, the end time or
      "still running", and the span. */
  function PrintDurationStats(s: Stats, clock: Time): (n: NoteText)
    ensures n.DurationNote? && n.started == s.startTime && n.ended == s.endTime
    ensures s.startTime + n.d == (if s.endTime.Some? then s.endTime.value else clock)
  {
    DurationNote(s.startTime, s.endTime, RunningSpan(s, clock))
  }

  /** printLongestDowntime: nothing while the longest downtime is zero,
      otherwise one message with its length rounded up to whole seconds. */
  function PrintLongestDowntime(s: Stats): (n: Option<NoteText>)
    ensures n.None? <==> s.longestDowntime.duration == 0.0
    ensures n.Some? ==> n.value.LongestDowntimeNote?
                        && n.value.start == s.longestDowntime.start && n.value.end == s.longestDowntime.end
                        && s.longestDowntime.duration <= n.value.seconds as real < s.longestDowntime.duration + 1.0
  {
    if s.longestDowntime.duration == 0.0 then None
    else Some(LongestDowntimeNote(Ceil(s.longestDowntime.duration), s.longestDowntime.start, s.longestDowntime.end))
  }

  /** printRetryResolveStats: how many times resolving the hostname was retried. */
  function PrintRetryResolveStats(s: Stats): (n: NoteText)
    ensures n.RetryResolveNote? && n.n == s.retriedHostnameResolves
  {
    RetryResolveNote(s.retriedHostnameResolves)
  }

  /** printTotalDownTime: the time since the current downtime began, rounded
      up to whole seconds, measured against the clock reading `clock`. */
  function PrintTotalDownTime(s: Stats, clock: Time): (n: NoteText)
    ensures n.NoResponseNote?
    ensures (n.seconds - 1) * NanosPerSecond < clock - s.startOfDowntime <= n.seconds * NanosPerSecond
  {
    NoResponseNote(SecondsRoundedUp(clock - s.startOfDowntime))
  }

  /** The struct of the stats event. The counters, loss, last-probe times
      and totals are read before the final tracker call; the longest uptime
      fields are set from `f`, the record after it, and only when its
      duration is non-zero. */
  function StatsData(s: Stats, f: Stats, now: Time): (d: JsonData)
    ensures d.totalPacketLoss == PacketLoss(s)
  {
    var base := Empty(StatsEvent, Blank, now).(hostname := s.hostname);
    var counted := base.(
      totalPacketLoss := PacketLoss(s),
      totalPackets := TotalPackets(s),
      totalSuccessfulProbes := s.totalSuccessfulProbes,
      totalUnsuccessfulProbes := s.totalUnsuccessfulProbes,
      lastSuccessfulProbe := s.lastSuccessfulProbe,
      lastUnsuccessfulProbe := s.lastUnsuccessfulProbe,
      totalUptime := Seconds(s.totalUptime),
      totalDowntime := Seconds(s.totalDowntime));
    if f.longestUptime.duration != 0.0 then
      counted.(longestUptime := f.longestUptime.duration,
               longestUptimeStart := Some(f.longestUptime.start),
               longestUptimeEnd := Some(f.longestUptime.end))
    else counted
  }

  /** The stats event as written. It is written only when there was at least
      one probe: with none the loss is NaN and the encoder refuses it. It
      carries the hostname even for a literal IP target, `total_packets` as
      the sum of the two counters, each last-probe time only when there is
      one, and the longest uptime with its start and end only when it is
      non-zero after the final tracker call. */
  function StatsRecord(s: Stats, tr: Tracker, now: Time): (rec: Option<JsonRecord>)
    ensures rec.Some? <==> TotalPackets(s) > 0
    ensures rec.Some? ==>
      var r := rec.value;
      && r.eventType == StatsEvent && r.message == Blank && r.timestamp == now
      && r.hostname == OmitZero(s.hostname, "")
      && r.totalPackets == Some(s.totalSuccessfulProbes + s.totalUnsuccessfulProbes)
      && r.totalSuccessfulProbes == OmitZero(s.totalSuccessfulProbes, 0)
      && r.totalUnsuccessfulProbes == OmitZero(s.totalUnsuccessfulProbes, 0)
      && (r.totalPacketLoss.None? <==> s.totalUnsuccessfulProbes == 0)
      && (r.totalPacketLoss.Some? ==>
            r.totalPacketLoss.value * TotalPackets(s) as real == 100.0 * s.totalUnsuccessfulProbes as real)
      && r.lastSuccessfulProbe == s.lastSuccessfulProbe
      && r.lastUnsuccessfulProbe == s.lastUnsuccessfulProbe
      && (r.totalUptime.None? <==> s.totalUptime == 0)
      && (r.totalUptime.Some? ==> r.totalUptime.value == Seconds(s.totalUptime))
      && (r.totalDowntime.None? <==> s.totalDowntime == 0)
      && (r.totalDowntime.Some? ==> r.totalDowntime.value == Seconds(s.totalDowntime))
      && (r.longestUptime.Some? <==> Finalize(s, tr).longestUptime.duration != 0.0)
      && (r.longestUptimeStart.Some? <==> r.longestUptime.Some?)
      && (r.longestUptimeEnd.Some? <==> r.longestUptime.Some?)
      && (r.longestUptime.Some? ==>
            && r.longestUptime.value == Finalize(s, tr).longestUptime.duration
            && r.longestUptimeStart.value == Finalize(s, tr).longestUptime.start
            && r.longestUptimeEnd.value == Finalize(s, tr).longestUptime.end)
      && r.success.None? && r.latency.None? && r.addr.None? && r.isIP.None? && r.port.None?
  {
    Encode(StatsData(s, Finalize(s, tr), now))
  }

  /** The output of the structured printStatistics, part by part. */
  datatype StatsReport = StatsReport(
    longestDowntime: Option<NoteText>,
    retries: Option<NoteText>,
    rtt: NoteText,
    duration: NoteText,
    record: Option<JsonRecord>)

  function NotesOf(o: Option<NoteText>): (out: seq<JsonOut>)
    ensures o.None? ==> out == []
    ensures o.Some? ==> out == [Note(o.value)]
  {
    match o
    case None => []
    case Some(n) => [Note(n)]
  }

  /** The lines of a stats report in the order they are written: the
      longest-downtime and retry messages when present, then the RTT and
      duration messages, and the stats event, when there is one, last. */
  function Outputs(r: StatsReport): (out: seq<JsonOut>)
    ensures |out| == |NotesOf(r.longestDowntime)| + |NotesOf(r.retries)| + 2 + (if r.record.Some? then 1 else 0)
    ensures var a := |NotesOf(r.longestDowntime)|;
            var b := a + |NotesOf(r.retries)|;
            out[..a] == NotesOf(r.longestDowntime)
            && out[a..b] == NotesOf(r.retries)
            && out[b] == Note(r.rtt) && out[b + 1] == Note(r.duration)
    ensures r.record.Some? ==> out[|out| - 1] == Event(r.record.value)
    ensures forall i :: 0 <= i < |out| - 1 ==> out[i].Note?
    ensures r.record.None? ==> forall i :: 0 <= i < |out| ==> out[i].Note?
  {
    var record := match r.record
      case None => []
      case Some(rec) => [Event(rec)];
    NotesOf(r.longestDowntime) + NotesOf(r.retries) + [Note(r.rtt), Note(r.duration)] + record
  }

  /** printStatistics: nothing at all without RTT samples. Otherwise the
      longest-downtime message only when that interval is non-zero after the
      final tracker call, the retry message only for a hostname target, the
      RTT and duration messages, and the stats event. */
  function PrintStatistics(s: Stats, tr: Tracker, now: Time, clock: Time): (r: Option<StatsReport>)
    ensures r.None? <==> |s.rtt| == 0
    ensures r.Some? ==>
      && (r.value.longestDowntime.Some? <==> Finalize(s, tr).longestDowntime.duration != 0.0)
      && r.value.longestDowntime == PrintLongestDowntime(Finalize(s, tr))
      && (r.value.retries.Some? <==> !s.isIP)
      && (r.value.retries.Some? ==> r.value.retries.value == RetryResolveNote(s.retriedHostnameResolves))
      && r.value.rtt == RttNote(s.rtt)
      && r.value.duration == PrintDurationStats(s, clock)
      && r.value.record == StatsRecord(s, tr, now)
      && (r.value.record.Some? <==> TotalPackets(s) > 0)
    ensures WellFormed(s) && r.Some? ==> r.value.record.Some?
  {
    if |s.rtt| == 0 then None
    else
      var f := Finalize(s, tr);
      Some(StatsReport(
        PrintLongestDowntime(f),
        if !s.isIP then Some(PrintRetryResolveStats(s)) else None,
        RttNote(s.rtt),
        PrintDurationStats(s, clock),
        StatsRecord(s, tr, now)))
  }
}
