/** The two printers present the same facts in different encodings. These
    lemmas connect each plain-text output with its structured counterpart;
    the last ones are worked examples of the loss band and of the rounding
    of a downtime. */
module Agreement {
  import opened Wrappers
  import opened Clock
  import opened Statistics
  import Plain = PlainPrinter
  import Json = JsonPrinter
  import opened JsonEncoding

  /** A reply shows a time in plain text exactly when its record says
      `success: true`; the record's counter, when present, is the one the
      plain line shows, and the host part is the same. */
  lemma ReplyVariantsAgree(s: Stats, r: ReplyMsg, now: Time)
    ensures var line := Plain.PrintReply(s, r);
            var rec := Json.PrintReply(s, r, now);
            && (line.time.Some? <==> rec.success == Some(true))
            && rec.message.from == line.host
            && (rec.success == Some(true) ==> rec.totalSuccessfulProbes == OmitZero(line.conn, 0))
            && (rec.success == Some(false) ==> rec.totalUnsuccessfulProbes == OmitZero(line.conn, 0))
  {
  }

  /** The smaller operations carry the same facts in both encodings: the
      start announcement, the retry announcement, the retry count, the
      current downtime and the duration section. The record names the
      hostname unless it is empty, which `omitempty` drops. */
  lemma EventVariantsAgree(s: Stats, now: Time, clock: Time)
    ensures var line := Plain.PrintStart(s);
            var rec := Json.PrintStart(s, now);
            && rec.hostname == OmitZero(line.hostname, "") && rec.port == OmitZero(line.port, 0)
            && rec.message == Starting(line.hostname, line.port)
    ensures var line := Plain.PrintRetryingToResolve(s);
            var rec := Json.PrintRetryingToResolve(s, now);
            rec.hostname == OmitZero(line.hostname, "") && rec.message == Resolving(line.hostname)
    ensures Json.PrintRetryResolveStats(s).n == Plain.PrintRetryResolveStats(s).n
    ensures Json.PrintTotalDownTime(s, clock).seconds == Plain.PrintTotalDownTime(s, clock).seconds
    ensures var lines := Plain.PrintDurationStats(s, clock);
            var note := Json.PrintDurationStats(s, clock);
            && lines[1] == Plain.StartedAt(note.started)
            && ((exists t :: Plain.EndedAt(t) in lines) <==> note.ended.Some?)
            && (note.ended.Some? ==> lines[2] == Plain.EndedAt(note.ended.value))
            && lines[|lines| - 1] == Plain.RunningTime(note.d)
  {
  }

  /** With RTT samples present, both reports suppress or show the same
      sections with the same content: the longest downtime (same rounded
      length, start and end), the retry count, the RTT summary over the same
      samples. When the stats event is written it carries what the plain
      report prints: the probe counters, the loss, the total up and down
      times (the plain report dropping the fraction of a second), the
      last-probe instants (absent
      exactly where the plain report says "never"), and the longest uptime,
      whose start and end are the plain line's and whose length the plain
      line rounds up to whole seconds. */
  lemma StatisticsVariantsAgree(s: Stats, tr: Tracker, now: Time, clock: Time)
    requires |s.rtt| > 0
    ensures var plain := Plain.PrintStatistics(s, tr, clock);
            var json := Json.PrintStatistics(s, tr, now, clock);
            && json.Some?
            && (plain.longestDowntime.Some? <==> json.value.longestDowntime.Some?)
            && (plain.longestDowntime.Some? ==>
                  && plain.longestDowntime.value.seconds == json.value.longestDowntime.value.seconds
                  && plain.longestDowntime.value.start == json.value.longestDowntime.value.start
                  && plain.longestDowntime.value.end == json.value.longestDowntime.value.end)
            && (plain.retries.Some? <==> json.value.retries.Some?)
            && (plain.retries.Some? ==> plain.retries.value.n == json.value.retries.value.n)
            && plain.rtt == Some(Plain.RttSummary(json.value.rtt.samples))
    ensures var plain := Plain.PrintStatistics(s, tr, clock);
            var json := Json.PrintStatistics(s, tr, now, clock);
            json.Some? && json.value.record.Some? ==>
              var rec := json.value.record.value;
              && rec.totalPackets == Some(plain.transmitted.total)
              && rec.totalSuccessfulProbes == OmitZero(plain.successes.n, 0)
              && rec.totalUnsuccessfulProbes == OmitZero(plain.failures.n, 0)
              && (rec.totalPacketLoss.Some? ==> plain.transmitted.loss == Num(rec.totalPacketLoss.value))
              && (rec.totalUptime.Some? ==> plain.uptime.wholeSeconds == rec.totalUptime.value.Floor)
              && (rec.totalDowntime.Some? ==> plain.downtime.wholeSeconds == rec.totalDowntime.value.Floor)
              && (plain.lastProbes[0] == Plain.NeverSucceeded <==> rec.lastSuccessfulProbe.None?)
              && (plain.lastProbes[1] == Plain.NeverFailed <==> rec.lastUnsuccessfulProbe.None?)
              && (rec.lastSuccessfulProbe.Some? ==>
                    plain.lastProbes[0] == Plain.LastSuccessAt(rec.lastSuccessfulProbe.value))
              && (rec.lastUnsuccessfulProbe.Some? ==>
                    plain.lastProbes[1] == Plain.LastFailureAt(rec.lastUnsuccessfulProbe.value))
              && (plain.longestUptime.Some? <==> rec.longestUptime.Some?)
              && (plain.longestUptime.Some? ==>
                    && plain.longestUptime.value.start == rec.longestUptimeStart.value
                    && plain.longestUptime.value.end == rec.longestUptimeEnd.value
                    && plain.longestUptime.value.seconds == Ceil(rec.longestUptime.value))
  {
  }

  /** The structured stats event omits `total_packet_loss` exactly when the
      plain report shows the loss in the good band. */
  lemma LossFieldMatchesBand(s: Stats, tr: Tracker, now: Time)
    requires TotalPackets(s) > 0
    ensures Json.StatsRecord(s, tr, now).Some?
    ensures Json.StatsRecord(s, tr, now).value.totalPacketLoss.None?
            <==> SeverityOf(PacketLoss(s)) == Good
  {
  }

  /** Worked example of the counts band: one failure in three probes
      (7 × 1 > 3 × 2), 33.3% loss, is past the warning band. */
  lemma OneInThreeIsBad(s: Stats)
    requires s.totalSuccessfulProbes == 2 && s.totalUnsuccessfulProbes == 1
    ensures SeverityOf(PacketLoss(s)) == Bad
  {
  }

  /** Given a downtime that began 125 seconds before the clock reading, both
      printers report 125 seconds. */
  lemma DowntimeOf125Seconds(s: Stats, clock: Time)
    requires clock == s.startOfDowntime + 125 * NanosPerSecond
    ensures Plain.PrintTotalDownTime(s, clock).seconds == 125
    ensures Json.PrintTotalDownTime(s, clock).seconds == 125
  {
  }
}
