# tcping statistics printers, modelled in Dafny

tcping probes a TCP host:port repeatedly and reports reachability. A shared
statistics record holds the success and failure counters, the last-probe
times, the total and longest up and down times, the hostname-resolution
retry count and the RTT samples. Two printers render that record: a
plain-text printer that writes coloured lines for a terminal, and a JSON
printer that writes one structured event per line.

This project models the decision logic of both printers in
`statsprinter.go`. Given an immutable snapshot of the statistics record and
a probe reply, the model says which output items appear and which fields
they carry. It does not produce strings.

- `wrappers.dfy` (`Wrappers`): `Option`, standing in for Go's nil pointers and for the zero-time "never" sentinel.
- `clock.dfy` (`Clock`): instants and durations as integer nanoseconds. It has `Ceil` and the two ways the printers turn a span into whole seconds: truncating with `uint(d.Seconds())` and rounding up with `math.Ceil`.
- `float32.dfy` (`Float32`): single-precision rounding of non-negative rationals, enough to evaluate the source's float32 packet-loss expression exactly as written.
- `statistics.dfy` (`Statistics`): the `Stats` snapshot, the reply message, the host part of a reply, the packet-loss percentage (NaN with zero probes) and its severity band. It also has the final longest-interval update that a report runs before printing. The loss is computed in exact arithmetic; `PacketLossAsWritten` computes it with float32 rounding, for the finding below.
- `plain_printer.dfy` (`PlainPrinter`): one function per `statsPlanePrinter` method, yielding abstract `Line` values. The end-of-session report is a `Report` record of sections; a section that may be suppressed is an `Option`. `Lines` flattens a report into print order.
- `json_encoding.dfy` (`JsonEncoding`): `JsonData`, the Go struct with zero values, and `JsonRecord`, what the encoder writes. `Encode` applies `omitempty` and fails on NaN, and `Decode` inverts it.
- `json_printer.dfy` (`JsonPrinter`): one function per `statsJsonPrinter` method. A probe, start or retry event is one record. The structured stats output is a `StatsReport`: message-only lines followed by the stats event.
- `agreement.dfy` (`Agreement`): lemmas that connect the two printers, and worked examples.

The `omitempty` rule is modelled as Go applies it: a field is absent exactly when it holds its zero value. So a successful probe event carries `latency` only when the latency is non-zero, and `total_successful_probes` only when the counter is non-zero. The counter is non-zero whenever the prober incremented it before printing. The contracts state both halves of each such rule.

The declaration of the statistics record is not part of this model. Two facts about it are taken from how the printers use it. First, the address is printed with `ip.String()`, and Go's address types never print as empty text, so `Stats.ip` is a non-empty `AddrText`. Second, an RTT sample is recorded only for a successful probe, which `Statistics.WellFormed` states as `|rtt| <= totalSuccessfulProbes`.

## Model

| member | source | states |
|---|---|---|
| Statistics.TargetOf | statsprinter.go:183-199 | A reply names "hostname (address)" exactly when the target is not a literal IP, and the bare address otherwise. |
| Statistics.PacketLoss | statsprinter.go:409-410 | Loss times the probe count is 100 times the failures, so it lies in [0, 100]. It is NaN exactly when there were no probes (float32 0/0). |
| Statistics.LossSeverityByCounts | statsprinter.go:127-133 | The band in terms of the counters, with the loss computed exactly: good exactly when there are no failures and some successes; a warning exactly when 0 < 10 × failures ≤ 3 × probes; bad exactly when there are no probes or 7 × failures > 3 × successes. |
| Statistics.PacketLossAsWritten | statsprinter.go:115 | The loss as float32 computes it, each operand converted and each operation rounded: NaN exactly when there were no probes, otherwise non-negative and zero exactly when there were no failures. |
| Statistics.ThirtyPercentRoundsToBad | statsprinter.go:115-133 | With 7 successes and 3 failures the exact loss is 30%, a warning, but the float32 loss is above 30 and so in the bad band. |
| Float32.Round | statsprinter.go:115 | Rounding a non-negative rational gives a float32 value: zero, or a significand of at most 24 bits times a power of two. Zero stays exactly zero, and any other value moves by at most 2^-24 of itself. |
| Float32.RoundHalfEven | statsprinter.go:115 | The significand is n/d rounded to the nearest integer: the floor or the floor plus one, within half a unit, and even on a tie. |
| Float32.ThreeTenthsTimesHundred | statsprinter.go:115 | In float32, 3/10 is 10066330 / 2^25 and that times 100 is 15728641 / 2^19, which is above 30. |
| Float32.LossRounding | statsprinter.go:410 | For counts below 2^24, the float32 expression failures / probes × 100 lies within 2^-22 of the exact percentage, relative to it. |
| Statistics.AsWrittenAgreesOnZero | statsprinter.go:115-128 | The float32 loss and the exact loss are NaN together and zero together, so both put the same reports in the good band. |
| Statistics.AsWrittenNearExact | statsprinter.go:115 | With fewer than 2^24 probes, the float32 loss is within 2^-22 of the exact loss, relative to it. |
| Statistics.FinalCall | statsprinter.go:153-158 | Before printing, a final report closes the open uptime interval at the last success while the target is up, and otherwise the open downtime interval at the last failure. |
| Statistics.Finalize | statsprinter.go:425-430 | The final tracker call replaces only the longest interval of its kind, with the tracker's answer. Every other field of the record is unchanged. |
| Statistics.RunningSpan | statsprinter.go:82-88 | A report's span runs from the start time to the end time once the session has ended, and to the current clock reading otherwise. |
| Clock.WholeSeconds | statsprinter.go:112-113 | The total up or down time is shown as the whole seconds elapsed, with the fraction dropped: the floor of the span in seconds. |
| Clock.SecondsRoundedUp | statsprinter.go:204-205 | The time since a downtime began is shown rounded up: the smallest whole number of seconds that covers the span. |
| PlainPrinter.PrintStart | statsprinter.go:50-52 | The start line names the hostname and the port. |
| PlainPrinter.PrintReply | statsprinter.go:182-200 | The host part names the hostname only for a hostname target. A failed reply shows the failure counter and no time. A successful reply shows the success counter and the RTT. |
| PlainPrinter.PrintLastSucUnsucProbes | statsprinter.go:55-72 | A missing last-success time reads "Never succeeded" and a missing last-failure time reads "Never failed". Otherwise each line shows its instant. |
| PlainPrinter.PrintDurationStats | statsprinter.go:75-92 | A rule and the start time come first. An end-time line appears exactly when the session has ended. The span comes last. |
| PlainPrinter.PrintLongestUptime | statsprinter.go:210-223 | The line is suppressed exactly when the longest uptime is zero. Otherwise it shows the interval's start and end and its length rounded up to whole seconds. |
| PlainPrinter.PrintLongestDowntime | statsprinter.go:226-239 | The same rule for the longest downtime. |
| PlainPrinter.PrintRetryResolveStats | statsprinter.go:242-246 | The line shows the number of hostname-resolution retries. |
| PlainPrinter.PrintRetryingToResolve | statsprinter.go:249-251 | The retry announcement names the hostname. |
| PlainPrinter.PrintTotalDownTime | statsprinter.go:203-207 | The line shows the current downtime rounded up to whole seconds. |
| PlainPrinter.Lines | statsprinter.go:117-178 | Each section sits at its position in source order: header, loss line, the two counters, the last-probe lines, total uptime and downtime, then whichever of longest uptime, longest downtime, retry stats and RTT are present, in that order, and the duration lines last. |
| PlainPrinter.PrintStatistics | statsprinter.go:110-179 | The header shows the address only for a hostname target. The loss line carries the loss and its band. The last-probe lines fall back to "never". Each longest-interval line is the one its printer gives for the record after the final tracker call: suppressed when zero, otherwise that interval's start, end and rounded-up length. Retry stats appear only for a hostname target. The RTT line appears only when samples exist. The end time appears only once the session has ended. |
| JsonEncoding.Encode | statsprinter.go:274-315 | Encoding fails exactly when the loss is NaN. Otherwise no present field holds a zero value, and decoding gives back the struct. |
| JsonEncoding.EncodeDecode | statsprinter.go:293-314 | A record with no zero-valued optional field survives decoding and re-encoding unchanged. |
| JsonPrinter.PrintStart | statsprinter.go:329-337 | A start event carries the hostname and port and none of the other optional fields: no success flag, latency, address, counters, loss or times. |
| JsonPrinter.PrintReply | statsprinter.go:340-372 | `success` is always present and is true exactly when the message is not "No reply". `is_ip` is always present and equals the target's literal-IP flag. `addr` is always present and is the address text. `hostname` is present only for a hostname target. A successful record carries the latency and the success counter and never the failure counter. A failed record carries the failure counter and neither of the other two. No field that only a stats event uses is present: no totals, loss, last-probe times or longest uptime. |
| JsonPrinter.PrintRetryingToResolve | statsprinter.go:484-491 | A retry event carries the hostname and none of the other optional fields: no port, success flag, latency, address, counters, loss or times. |
| JsonPrinter.PrintDurationStats | statsprinter.go:375-394 | The duration message carries the start time, the end time or "still running", and the span. |
| JsonPrinter.PrintLongestDowntime | statsprinter.go:464-475 | The message is suppressed exactly when the longest downtime is zero. Otherwise it carries the interval and its length rounded up. |
| JsonPrinter.PrintRetryResolveStats | statsprinter.go:478-480 | The message carries the number of hostname-resolution retries. |
| JsonPrinter.PrintTotalDownTime | statsprinter.go:456-461 | The message carries the current downtime rounded up to whole seconds. |
| JsonPrinter.StatsRecord | statsprinter.go:403-436 | The stats event is written exactly when there was at least one probe. `total_packets` is the sum of the counters. `total_uptime` and `total_downtime` are the totals in seconds, absent when zero. Each `last_*_probe` is present only when that time exists. The longest-uptime duration, start and end are present only when the duration after the final tracker call is non-zero. The event carries the hostname even for a literal-IP target. |
| JsonPrinter.Outputs | statsprinter.go:438-452 | The longest-downtime and retry messages come first when present, in that order, then the RTT and duration messages. Every line but the last is a message-only line, and the stats event, when written, is the last line. |
| JsonPrinter.PrintStatistics | statsprinter.go:397-453 | With no RTT samples nothing at all is written. Otherwise the longest-downtime message appears only when that interval is non-zero after the final tracker call and the retry message only for a hostname target, followed by the RTT and duration messages. The stats event is written exactly when there was a probe, which for a well-formed record (RTT samples come from successes) is always. |
| Agreement.ReplyVariantsAgree | statsprinter.go:340-372 | The plain line shows a time exactly when the event says `success: true`. The event's counter, when present, is the one the plain line shows, and the host part is the same. |
| Agreement.EventVariantsAgree | statsprinter.go:329-337 | Both printers carry the same facts for the smaller operations: the start and retry announcements' hostname (absent from the event when empty), the start event's port field and both messages, the retry count, the current downtime in seconds, and the start time, end time (its presence and its value) and span of the duration section. |
| Agreement.StatisticsVariantsAgree | statsprinter.go:397-453 | With RTT samples present, both reports show or suppress the same longest-downtime, retry and RTT sections with the same start, end, rounded length, count and samples. When the stats event is written it has the plain report's probe counters, its loss, its total up and down times (the plain report shows the whole seconds of the event's value), its last-probe instants (absent exactly where the plain report says "never"), and its longest uptime with the same start and end, the plain length being the event's rounded up. |
| Agreement.LossFieldMatchesBand | statsprinter.go:409-412 | With at least one probe, the stats event omits `total_packet_loss` exactly when the plain report shows the loss in the good band. |
| Agreement.OneInThreeIsBad | statsprinter.go:131-133 | 2 successes and 1 failure give a loss above 30%, which is in the bad band. |
| Agreement.DowntimeOf125Seconds | statsprinter.go:203-207 | A downtime that began 125 seconds before the clock reading is reported as 125 seconds by both printers. |

## Notes on the source's behaviour

- `omitempty` is applied to plain numbers, so zero packet loss, a zero counter and zero total up or down time are absent from the stats event, not written as 0. Only the `*bool` fields keep a false value, as the source's comment on `Success` explains (statsprinter.go:289-292).
- The `now` argument of `printTotalDownTime` is ignored. The downtime is measured against the wall clock, which the model takes as its `clock` parameter.
- The loss is divided even when there were no probes, giving NaN. The plain report shows NaN in the bad band. The JSON encoder refuses a NaN field, so a stats event with zero probes is not written. The structured report only reaches that division when RTT samples exist, and samples come from successes, so for a well-formed record this path is not taken.
- The structured `printStatistics` writes nothing at all without RTT samples. Otherwise it writes message-only lines with no `type` field before the stats event.

## Left out

- Colour: the `color.*.Printf` primitives are terminal I/O. Every line's content is modelled; its colour is not, except for the packet-loss band.
- Writing to stdout through `json.NewEncoder(os.Stdout)` and `jsonPrintf`: an event is a `JsonRecord` and a message-only line is a `NoteText`. JSON text is not produced.
- `time.Now`, `time.Since` and the formatting of instants and durations (`timeFormat`, `hourFormat`, `calcTime`): the instant stamped on an event is the parameter `now`, a clock reading is the parameter `clock`, and lines carry the instants and durations unformatted.
- `calcLongestUptime`, `calcLongestDowntime` and `findMinAvgMaxRttTime` are not part of this model, because their bodies are defined elsewhere. The two interval updates are the function fields of `Tracker`. They are assumed to replace only their own longest interval. The RTT summary line and message carry the samples they summarise, and "has results" is taken to mean the sample list is non-empty.
- The tracker calls in `printStatistics` (statsprinter.go:153-158, 425-430) update the shared record, so the finalized interval outlives the report. The model's `PrintStatistics` uses `Finalize(s, tr)` for the report and does not return it, so the updated record is not carried to any later call.
- `printRttResults` is formatting only. It is represented by the `RttSummary` line.
- Statistics.PacketLoss: float32 arithmetic is replaced by exact rationals, and the loss written into the stats event is the exact value. Rounding does move boundary cases: for 3 failures in 10 probes, float32 0.3 × 100 rounds to 30.000002, so the source does colour an exact 30% loss as bad where the model says warning (see Findings; `Statistics.PacketLossAsWritten` models the float32 value).
- Statistics.LossSeverityByCounts: states the band of the exact loss, which puts 10 × failures = 3 × probes in the warning band. The source's float32 loss puts that case in the bad band (see Findings).
- Float32.Round: the contract states that the result is on the float32 grid and within 2^-24 of x. It does not state that no other grid value is nearer; that nearest-with-ties-to-even rule is stated one level down, on the significand, by `Float32.RoundHalfEven`.
- Statistics.AsWrittenNearExact: the error bound is stated only for fewer than 2^24 probes, where both counts convert to float32 exactly. Above that the conversions add roundings that the lemma does not bound.
- Seconds, durations and latencies use exact reals. float64 rounding is not modelled.
- Go `uint` wrap-around of the counters and of their sum is not modelled. Nor is `uint` conversion of a negative span, which Go leaves implementation-dependent.
- The source detects a "never" time by comparing its formatted text with the zero time's text. The model uses `Option`, so it also tells apart a non-zero instant that formats like the zero time.
- The `statsPrinter` interface and the choice of printer at start-up: the two modules are the two implementations, and dispatch is not modelled.

## Findings

| source | as written | input that shows it | evidently intended | confidence | as-written member | corrected member |
|---|---|---|---|---|---|---|
| statsprinter.go:115-133 | The loss is the float32 quotient of failures over probes, times 100, with each step rounded to float32. The result is then compared with `<= 30` to choose the warning colour. | 7 successes and 3 failures: the float32 loss is 15728641 / 2^19 ≈ 30.000002, which is coloured as bad. | A loss of exactly 30% is in the inclusive warning band. | not executed; high (the rounding is proved step by step) | Statistics.PacketLossAsWritten, Statistics.ThirtyPercentRoundsToBad | Statistics.PacketLoss, Statistics.LossSeverityByCounts |
