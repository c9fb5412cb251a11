/** The plain-text printer: each operation yields the lines it would print,
    as abstract `Line` values. Colours and the textual formatting of
    instants and durations are not modelled; a line carries the values the
    source formats into it. */
module PlainPrinter {
  import opened Wrappers
  import opened Clock
  import opened Statistics

  datatype Line =
    | Starting(hostname: string, port: Port)
    | Reply(msg: string, host: Host, port: Port, conn: nat, time: Option<real>)
    | StatsHeader(hostname: string, ip: Option<string>)
    | Transmitted(total: nat, port: Port, received: nat, loss: Float, severity: Severity)
    | SuccessfulCount(n: nat)
    | UnsuccessfulCount(n: nat)
    | LastSuccessAt(at: Time)
    | NeverSucceeded
    | LastFailureAt(at: Time)
    | NeverFailed
    | TotalUptime(wholeSeconds: nat)
    | TotalDowntime(wholeSeconds: nat)
    | LongestUptime(seconds: int, start: Time, end: Time)
    | LongestDowntime(seconds: int, start: Time, end: Time)
    | RetryStats(n: nat)
    | RttSummary(samples: seq<real>)
    | Rule
    | StartedAt(at: Time)
    | EndedAt(at: Time)
    | RunningTime(d: Duration)
    | NoResponseFor(seconds: int)
    | RetryingToResolve(hostname: string)

  /** printStart: announces the hostname and port before probing. */
  function PrintStart(s: Stats): (l: Line)
    ensures l.Starting? && l.hostname == s.hostname && l.port == s.port
  {
    Starting(s.hostname, s.port)
  }

  /** printReply: one line per probe. The host part names the hostname only
      for a hostname target; a failed reply shows the failure counter and no
      time, a successful one the success counter and the latency. */
  function PrintReply(s: Stats, r: ReplyMsg): (l: Line)
    ensures l.Reply? && l.msg == r.msg && l.port == s.port
    ensures l.host == TargetOf(s)
    ensures l.host.Named? <==> !s.isIP
    ensures l.time.Some? <==> Succeeded(r)
    ensures Succeeded(r) ==> l.conn == s.totalSuccessfulProbes && l.time == Some(r.rtt)
    ensures !Succeeded(r) ==> l.conn == s.totalUnsuccessfulProbes
  {
    if s.isIP then
      if r.msg == NoReply then Reply(r.msg, Address(s.ip), s.port, s.totalUnsuccessfulProbes, None)
      else Reply(r.msg, Address(s.ip), s.port, s.totalSuccessfulProbes, Some(r.rtt))
    else
      if r.msg == NoReply then Reply(r.msg, Named(s.hostname, s.ip), s.port, s.totalUnsuccessfulProbes, None)
      else Reply(r.msg, Named(s.hostname, s.ip), s.port, s.totalSuccessfulProbes, Some(r.rtt))
  }

  /** printLastSucUnsucProbes: the two last-probe instants, a missing one
      shown as "Never succeeded" / "Never failed". */
  function PrintLastSucUnsucProbes(s: Stats): (ls: seq<Line>)
    ensures |ls| == 2
    ensures ls[0] == NeverSucceeded <==> s.lastSuccessfulProbe.None?
    ensures ls[1] == NeverFailed <==> s.lastUnsuccessfulProbe.None?
    ensures forall t :: ls[0] == LastSuccessAt(t) <==> s.lastSuccessfulProbe == Some(t)
    ensures forall t :: ls[1] == LastFailureAt(t) <==> s.lastUnsuccessfulProbe == Some(t)
  {
    var success := match s.lastSuccessfulProbe
      case None => NeverSucceeded
      case Some(t) => LastSuccessAt(t);
    var failure := match s.lastUnsuccessfulProbe
      case None => NeverFailed
      case Some(t) => LastFailureAt(t);
    [success, failure]
  }

  /** printDurationStats: a rule, the start time, the end time only when the
      session has ended, and the span. */
  function PrintDurationStats(s: Stats, clock: Time): (ls: seq<Line>)
    ensures |ls| == if s.endTime.Some? then 4 else 3
    ensures ls[0] == Rule && ls[1] == StartedAt(s.startTime)
    ensures (exists t :: EndedAt(t) in ls) <==> s.endTime.Some?
    ensures s.endTime.Some? ==> ls[2] == EndedAt(s.endTime.value)
    ensures ls[|ls| - 1] == RunningTime(RunningSpan(s, clock))
  {
    var ended := match s.endTime
      case None => []
      case Some(end) => [EndedAt(end)];
    [Rule, StartedAt(s.startTime)] + ended + [RunningTime(RunningSpan(s, clock))]
  }

  /** printLongestUptime: nothing while the longest uptime is zero, otherwise
      one line with its length rounded up to whole seconds. */
  function PrintLongestUptime(s: Stats): (l: Option<Line>)
    ensures l.None? <==> s.longestUptime.duration == 0.0
    ensures l.Some? ==> l.value.LongestUptime?
                        && l.value.start == s.longestUptime.start && l.value.end == s.longestUptime.end
                        && s.longestUptime.duration <= l.value.seconds as real < s.longestUptime.duration + 1.0
  {
    if s.longestUptime.duration == 0.0 then None
    else Some(LongestUptime(Ceil(s.longestUptime.duration), s.longestUptime.start, s.longestUptime.end))
  }

  /** printLongestDowntime: the same rule for the longest downtime. */
  function PrintLongestDowntime(s: Stats): (l: Option<Line>)
    ensures l.None? <==> s.longestDowntime.duration == 0.0
    ensures l.Some? ==> l.value.LongestDowntime?
                        && l.value.start == s.longestDowntime.start && l.value.end == s.longestDowntime.end
                        && s.longestDowntime.duration <= l.value.seconds as real < s.longestDowntime.duration + 1.0
  {
    if s.longestDowntime.duration == 0.0 then None
    else Some(LongestDowntime(Ceil(s.longestDowntime.duration), s.longestDowntime.start, s.longestDowntime.end))
  }

  /** printRetryResolveStats: how many times resolving the hostname was retried. */
  function PrintRetryResolveStats(s: Stats): (l: Line)
    ensures l.RetryStats? && l.n == s.retriedHostnameResolves
  {
    RetryStats(s.retriedHostnameResolves)
  }

  /** printRetryingToResolve: announces a resolution retry for the hostname. */
  function PrintRetryingToResolve(s: Stats): (l: Line)
    ensures l.RetryingToResolve? && l.hostname == s.hostname
  {
    RetryingToResolve(s.hostname)
  }

  /** printTotalDownTime: the time since the current downtime began, rounded
      up to whole seconds, measured against the clock reading `clock`. */
  function PrintTotalDownTime(s: Stats, clock: Time): (l: Line)
    ensures l.NoResponseFor?
    ensures (l.seconds - 1) * NanosPerSecond < clock - s.startOfDowntime <= l.seconds * NanosPerSecond
  {
    NoResponseFor(SecondsRoundedUp(clock - s.startOfDowntime))
  }

  /** The end-of-session report, section by section. A section that may be
      suppressed is an `Option`. */
  datatype Report = Report(
    header: Line,
    transmitted: Line,
    successes: Line,
    failures: Line,
    lastProbes: seq<Line>,
    uptime: Line,
    downtime: Line,
    longestUptime: Option<Line>,
    longestDowntime: Option<Line>,
    retries: Option<Line>,
    rtt: Option<Line>,
    duration: seq<Line>)

  function LinesOf(o: Option<Line>): (ls: seq<Line>)
    ensures o.None? ==> ls == []
    ensures o.Some? ==> ls == [o.value]
  {
    match o
    case None => []
    case Some(l) => [l]
  }

  /** The lines of a report in the order they are printed: header, loss
      line, the two counters, the last-probe lines, total up and down time,
      then whichever of longest uptime, longest downtime, retry stats and RTT
      are present, in that order, and the duration lines last. */
  function Lines(r: Report): (ls: seq<Line>)
    ensures |ls| == 6 + |r.lastProbes| + |LinesOf(r.longestUptime)| + |LinesOf(r.longestDowntime)|
                     + |LinesOf(r.retries)| + |LinesOf(r.rtt)| + |r.duration|
    ensures ls[..4] == [r.header, r.transmitted, r.successes, r.failures]
    ensures ls[4..4 + |r.lastProbes|] == r.lastProbes
    ensures ls[4 + |r.lastProbes|] == r.uptime && ls[5 + |r.lastProbes|] == r.downtime
    ensures var a := 6 + |r.lastProbes|;
            var b := a + |LinesOf(r.longestUptime)|;
            var c := b + |LinesOf(r.longestDowntime)|;
            var d := c + |LinesOf(r.retries)|;
            var e := d + |LinesOf(r.rtt)|;
            ls[a..b] == LinesOf(r.longestUptime)
            && ls[b..c] == LinesOf(r.longestDowntime)
            && ls[c..d] == LinesOf(r.retries)
            && ls[d..e] == LinesOf(r.rtt)
            && ls[e..] == r.duration
  {
    var head := [r.header, r.transmitted, r.successes, r.failures] + r.lastProbes + [r.uptime, r.downtime];
    var optional := LinesOf(r.longestUptime) + LinesOf(r.longestDowntime) + LinesOf(r.retries) + LinesOf(r.rtt);
    var ls := head + optional + r.duration;
    assert ls[..|head|] == head && ls[|head| + |optional|..] == r.duration;
    assert ls[|head|..|head| + |optional|] == optional;
    ls
  }

  /** printStatistics: the end-of-session report. The header names the
      address only for a hostname target; the loss line carries the loss and
      its band; a missing last-probe time reads "never"; the longest-interval
      lines are those of the record after the final tracker call and are
      suppressed when zero; retry stats appear only for a hostname target, the
      RTT line only when there are samples, the end time only once the session
      has ended. */
  function PrintStatistics(s: Stats, tr: Tracker, clock: Time): (r: Report)
    ensures r.header == StatsHeader(s.hostname, if s.isIP then None else Some(s.ip))
    ensures r.transmitted.Transmitted?
            && r.transmitted.total == s.totalSuccessfulProbes + s.totalUnsuccessfulProbes
            && r.transmitted.received == s.totalSuccessfulProbes
            && r.transmitted.port == s.port
            && r.transmitted.loss == PacketLoss(s)
            && r.transmitted.severity == SeverityOf(PacketLoss(s))
    ensures r.successes == SuccessfulCount(s.totalSuccessfulProbes)
    ensures r.failures == UnsuccessfulCount(s.totalUnsuccessfulProbes)
    ensures r.lastProbes == PrintLastSucUnsucProbes(s)
    ensures r.lastProbes[0] == NeverSucceeded <==> s.lastSuccessfulProbe.None?
    ensures r.lastProbes[1] == NeverFailed <==> s.lastUnsuccessfulProbe.None?
    ensures r.uptime.TotalUptime?
            && r.uptime.wholeSeconds * NanosPerSecond <= s.totalUptime < (r.uptime.wholeSeconds + 1) * NanosPerSecond
    ensures r.downtime.TotalDowntime?
            && r.downtime.wholeSeconds * NanosPerSecond <= s.totalDowntime < (r.downtime.wholeSeconds + 1) * NanosPerSecond
    ensures r.longestUptime == PrintLongestUptime(Finalize(s, tr))
    ensures r.longestDowntime == PrintLongestDowntime(Finalize(s, tr))
    ensures r.longestUptime.Some? <==> Finalize(s, tr).longestUptime.duration != 0.0
    ensures r.longestDowntime.Some? <==> Finalize(s, tr).longestDowntime.duration != 0.0
    ensures r.retries.Some? <==> !s.isIP
    ensures r.retries.Some? ==> r.retries.value == RetryStats(s.retriedHostnameResolves)
    ensures r.rtt.Some? <==> |s.rtt| > 0
    ensures r.rtt.Some? ==> r.rtt.value == RttSummary(s.rtt)
    ensures r.duration == PrintDurationStats(s, clock)
    ensures (exists t :: EndedAt(t) in r.duration) <==> s.endTime.Some?
    ensures r.duration[|r.duration| - 1] == RunningTime(RunningSpan(s, clock))
  {
    var f := Finalize(s, tr);
    var loss := PacketLoss(s);
    // The final tracker call replaces only a longest interval, so every
    // other section reads the same values from `f` as from `s`.
    Report(
      if !s.isIP then StatsHeader(s.hostname, Some(s.ip)) else StatsHeader(s.hostname, None),
      Transmitted(TotalPackets(s), s.port, s.totalSuccessfulProbes, loss, SeverityOf(loss)),
      SuccessfulCount(s.totalSuccessfulProbes),
      UnsuccessfulCount(s.totalUnsuccessfulProbes),
      PrintLastSucUnsucProbes(s),
      TotalUptime(WholeSeconds(s.totalUptime)),
      TotalDowntime(WholeSeconds(s.totalDowntime)),
      PrintLongestUptime(f),
      PrintLongestDowntime(f),
      if !s.isIP then Some(PrintRetryResolveStats(s)) else None,
      if |s.rtt| > 0 then Some(RttSummary(s.rtt)) else None,
      PrintDurationStats(s, clock))
  }
}
