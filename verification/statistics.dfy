/** The statistics record the two printers read, frozen as an immutable
    snapshot, together with the small pieces of decision logic both printers
    share: which counter a reply shows, the packet-loss percentage and its
    severity band, and which longest-interval update runs before a final
    report. */
module Statistics {
  import opened Wrappers
  import opened Clock
  import F32 = Float32

  /** A TCP port, Go's `uint16`. */
  type Port = p: int | 0 <= p < 0x1_0000

  /** The text form of the resolved address, `ip.String()`. Go's address
      types never print as empty text: a nil or invalid address still prints
      as a placeholder such as "<nil>". */
  type AddrText = a: string | a != "" witness "<nil>"

  /** A longest run of consecutive up (or down) time: its length in seconds
      and the instants it started and ended. */
  datatype Interval = Interval(duration: real, start: Time, end: Time)

  /** A snapshot of the shared statistics record. A last-probe time of `None`
      stands for Go's zero time ("never"); the total up and down times are
      non-negative nanosecond counts; `rtt` holds the latencies of the
      successful probes. */
  datatype Stats = Stats(
    hostname: string,
    ip: AddrText,
    port: Port,
    isIP: bool,
    totalSuccessfulProbes: nat,
    totalUnsuccessfulProbes: nat,
    lastSuccessfulProbe: Option<Time>,
    lastUnsuccessfulProbe: Option<Time>,
    totalUptime: nat,
    totalDowntime: nat,
    wasDown: bool,
    startOfDowntime: Time,
    longestUptime: Interval,
    longestDowntime: Interval,
    retriedHostnameResolves: nat,
    rtt: seq<real>,
    startTime: Time,
    endTime: Option<Time>)

  /** One probe outcome as handed to `printReply`: the text to show and the
      measured latency in milliseconds. */
  datatype ReplyMsg = ReplyMsg(msg: string, rtt: real)

  /** The message the prober uses for a failed connection attempt. */
  const NoReply: string := "No reply"

  /** A reply counts as successful exactly when its message is not "No reply". */
  predicate Succeeded(r: ReplyMsg) {
    r.msg != NoReply
  }

  /** How a target is named in reply output: the bare address for a literal
      IP target, "hostname (address)" otherwise. */
  datatype Host = Address(ip: string) | Named(hostname: string, ip: string)

  function TargetOf(s: Stats): (h: Host)
    ensures h.ip == s.ip
    ensures h.Named? <==> !s.isIP
    ensures h.Named? ==> h.hostname == s.hostname
  {
    if s.isIP then Address(s.ip) else Named(s.hostname, s.ip)
  }

  function TotalPackets(s: Stats): nat {
    s.totalSuccessfulProbes + s.totalUnsuccessfulProbes
  }

  /** A record the prober keeps: a latency sample is appended only for a
      successful probe, so there are never more samples than successes. */
  predicate WellFormed(s: Stats) {
    |s.rtt| <= s.totalSuccessfulProbes
  }

  /** A float32 value: a number, or NaN. */
  datatype Float = Num(value: real) | NaN

  /** The packet-loss percentage, failures over all probes times 100. With no
      probes at all the float32 division is 0/0, which is NaN. */
  function PacketLoss(s: Stats): (loss: Float)
    ensures loss.NaN? <==> TotalPackets(s) == 0
    ensures loss.Num? ==> loss.value * TotalPackets(s) as real == 100.0 * s.totalUnsuccessfulProbes as real
    ensures loss.Num? ==> 0.0 <= loss.value <= 100.0
  {
    var total := TotalPackets(s);
    if total == 0 then NaN
    else
      var u, t := s.totalUnsuccessfulProbes as real, total as real;
      var q := u / t;
      assert q * t == u;
      F32.DivideOut(q, 1.0, t);
      F32.DivideOut(0.0, q, t);
      assert (q * 100.0) * t == 100.0 * (q * t);
      Num(q * 100.0)
  }

  /** The colour band of the packet-loss figure. */
  datatype Severity = Good | Warning | Bad

  /** Exactly zero is good, anything in (0, 30] a warning, everything else
      (including NaN, which fails both comparisons) bad. */
  function SeverityOf(loss: Float): Severity {
    match loss
    case NaN => Bad
    case Num(x) =>
      if x == 0.0 then Good
      else if 0.0 < x <= 30.0 then Warning
      else Bad
  }

  /** Multiplying by a positive total preserves both comparisons of the band. */
  lemma ScaledBounds(x: real, t: real, u: real)
    requires t > 0.0 && x * t == 100.0 * u
    ensures x <= 30.0 <==> 10.0 * u <= 3.0 * t
    ensures 0.0 < x <==> 0.0 < u
    ensures x == 0.0 <==> u == 0.0
  {
  }

  /** The band stated directly in the counters, without the division. */
  lemma LossSeverityByCounts(s: Stats)
    ensures SeverityOf(PacketLoss(s)) == Good
            <==> s.totalUnsuccessfulProbes == 0 < s.totalSuccessfulProbes
    ensures SeverityOf(PacketLoss(s)) == Warning
            <==> 0 < 10 * s.totalUnsuccessfulProbes <= 3 * TotalPackets(s)
    ensures SeverityOf(PacketLoss(s)) == Bad
            <==> TotalPackets(s) == 0 || 7 * s.totalUnsuccessfulProbes > 3 * s.totalSuccessfulProbes
  {
    var total := TotalPackets(s);
    if total > 0 {
      ScaledBounds(PacketLoss(s).value, total as real, s.totalUnsuccessfulProbes as real);
    }
  }

  /** The packet-loss percentage as the source computes it: each operand is
      converted to float32 and the quotient and the product are each rounded
      to float32. */
  function PacketLossAsWritten(s: Stats): (loss: Float)
    ensures loss.NaN? <==> TotalPackets(s) == 0
    ensures loss.Num? ==> 0.0 <= loss.value
    ensures loss.Num? ==> (loss.value == 0.0 <==> s.totalUnsuccessfulProbes == 0)
  {
    var total := TotalPackets(s);
    if total == 0 then NaN
    else
      var q := F32.Div(F32.FromNat(s.totalUnsuccessfulProbes), F32.FromNat(total));
      Num(F32.Value(F32.Mul(q, F32.FromNat(100))))
  }

  /** The float32 loss and the exact loss agree on NaN and on zero, so they
      agree on the good band. */
  lemma AsWrittenAgreesOnZero(s: Stats)
    ensures PacketLossAsWritten(s).NaN? <==> PacketLoss(s).NaN?
    ensures PacketLoss(s).Num? ==> (PacketLossAsWritten(s).value == 0.0 <==> PacketLoss(s).value == 0.0)
    ensures SeverityOf(PacketLossAsWritten(s)) == Good <==> SeverityOf(PacketLoss(s)) == Good
  {
    var total := TotalPackets(s);
    if total > 0 {
      ScaledBounds(PacketLoss(s).value, total as real, s.totalUnsuccessfulProbes as real);
    }
  }

  /** While the probe count is below 2^24 (every count converts to float32
      exactly) the float32 loss is within 2^-22 of the exact loss, relative
      to it. */
  lemma AsWrittenNearExact(s: Stats)
    ensures 0 < TotalPackets(s) < F32.High ==>
              var exact := PacketLoss(s).value;
              -exact <= 4194304.0 * (PacketLossAsWritten(s).value - exact) <= exact
  {
    var u, t := s.totalUnsuccessfulProbes, TotalPackets(s);
    if 0 < t < F32.High {
      F32.LossRounding(u, t);
      assert PacketLoss(s) == Num(u as real / t as real * 100.0);
      assert PacketLossAsWritten(s)
             == Num(F32.Value(F32.Mul(F32.Div(F32.FromNat(u), F32.FromNat(t)), F32.FromNat(100))));
    }
  }

  /** Exactly 30% loss (3 failures in 10 probes) is coloured as a warning by
      the exact computation, but float32 rounding lifts it to 30.000002, which
      the source colours as bad. */
  lemma ThirtyPercentRoundsToBad(s: Stats)
    requires s.totalSuccessfulProbes == 7 && s.totalUnsuccessfulProbes == 3
    ensures PacketLoss(s) == Num(30.0) && SeverityOf(PacketLoss(s)) == Warning
    ensures PacketLossAsWritten(s).value > 30.0 && SeverityOf(PacketLossAsWritten(s)) == Bad
  {
    F32.ThreeTenthsTimesHundred();
    assert F32.FromNat(3) == F32.Ratio(3, 1) && F32.FromNat(10) == F32.Ratio(10, 1);
    assert PacketLossAsWritten(s) == Num(F32.Value(F32.Ratio(15728641, 524288)));
  }

  /** The longest-interval update a final report runs before printing, and
      the instant it passes as the end of the still-open interval. */
  datatype TrackerCall = LongestUptimeUntil(end: Option<Time>) | LongestDowntimeUntil(end: Option<Time>)

  /** While the target is up the open uptime interval is closed at the last
      success; while it is down the open downtime interval is closed at the
      last failure. */
  function FinalCall(s: Stats): (c: TrackerCall)
    ensures c.LongestUptimeUntil? <==> !s.wasDown
    ensures c.LongestUptimeUntil? ==> c.end == s.lastSuccessfulProbe
    ensures c.LongestDowntimeUntil? ==> c.end == s.lastUnsuccessfulProbe
  {
    if !s.wasDown then LongestUptimeUntil(s.lastSuccessfulProbe)
    else LongestDowntimeUntil(s.lastUnsuccessfulProbe)
  }

  /** The longest-interval updates `calcLongestUptime` and
      `calcLongestDowntime`, whose bodies are not part of this model: each
      yields the new longest interval of its kind from the record and the end
      instant it is given. */
  datatype Tracker = Tracker(
    longestUptime: (Stats, Option<Time>) -> Interval,
    longestDowntime: (Stats, Option<Time>) -> Interval)

  /** The record after the final tracker call: only the interval of the
      call's kind is replaced, by the tracker's answer. */
  function Finalize(s: Stats, tr: Tracker): (f: Stats)
    ensures f.(longestUptime := s.longestUptime, longestDowntime := s.longestDowntime) == s
    ensures FinalCall(s).LongestUptimeUntil? ==>
              f.longestDowntime == s.longestDowntime
              && f.longestUptime == tr.longestUptime(s, s.lastSuccessfulProbe)
    ensures FinalCall(s).LongestDowntimeUntil? ==>
              f.longestUptime == s.longestUptime
              && f.longestDowntime == tr.longestDowntime(s, s.lastUnsuccessfulProbe)
  {
    match FinalCall(s)
    case LongestUptimeUntil(end) => s.(longestUptime := tr.longestUptime(s, end))
    case LongestDowntimeUntil(end) => s.(longestDowntime := tr.longestDowntime(s, end))
  }

  /** The span a duration report covers: up to the end time once the session
      has ended, otherwise up to the clock reading `clock` (`time.Since`). */
  function RunningSpan(s: Stats, clock: Time): (d: Duration)
    ensures s.endTime.Some? ==> s.startTime + d == s.endTime.value
    ensures s.endTime.None? ==> s.startTime + d == clock
  {
    match s.endTime
    case Some(end) => end - s.startTime
    case None => clock - s.startTime
  }
}
