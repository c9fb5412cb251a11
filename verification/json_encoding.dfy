/** The structured-event record in two forms: `JsonData`, the Go struct with
    every field holding a value (zero when unset), and `JsonRecord`, what
    the encoder writes, where each `omitempty` field is absent exactly when
    it holds its zero value. Decoding an encoded record restores the struct,
    so omitting zeros loses nothing. */
module JsonEncoding {
  import opened Wrappers
  import opened Clock
  import opened Statistics

  /** The mandatory `type` field. */
  datatype EventType = StartEvent | ProbeEvent | RetryEvent | StatsEvent

  /** The mandatory `message` field, by the format it is printed with. */
  datatype Message =
    | Blank                                            // ""
    | Starting(hostname: string, port: Port)           // "TCPinging %s on port %d"
    | ProbeReply(reply: string, from: Host, port: Port) // "%s from %s on port %d"
    | Resolving(hostname: string)                      // "retrying to resolve %s"

  /** The Go struct. Pointer fields are `Option`s (`None` is nil); the other
      optional fields hold their zero value when unset. */
  datatype JsonData = JsonData(
    eventType: EventType,
    message: Message,
    timestamp: Time,
    success: Option<bool>,
    latency: real,
    addr: string,
    hostname: string,
    isIP: Option<bool>,
    lastSuccessfulProbe: Option<Time>,
    lastUnsuccessfulProbe: Option<Time>,
    longestUptime: real,
    longestUptimeEnd: Option<Time>,
    longestUptimeStart: Option<Time>,
    port: Port,
    totalPacketLoss: Float,
    totalPackets: nat,
    totalSuccessfulProbes: nat,
    totalUnsuccessfulProbes: nat,
    totalUptime: real,
    totalDowntime: real)

  /** A struct literal that sets only the three mandatory fields. */
  function Empty(t: EventType, m: Message, timestamp: Time): (d: JsonData)
    ensures d.eventType == t && d.message == m && d.timestamp == timestamp
    ensures d.success.None? && d.isIP.None? && d.lastSuccessfulProbe.None?
    ensures d.latency == 0.0 && d.addr == "" && d.hostname == "" && d.port == 0
    ensures d.totalPackets == 0 && d.totalPacketLoss == Num(0.0)
  {
    JsonData(t, m, timestamp, None, 0.0, "", "", None, None, None, 0.0, None, None,
             0, Num(0.0), 0, 0, 0, 0.0, 0.0)
  }

  /** The record as written: a field is `None` when it is omitted. */
  datatype JsonRecord = JsonRecord(
    eventType: EventType,
    message: Message,
    timestamp: Time,
    success: Option<bool>,
    latency: Option<real>,
    addr: Option<string>,
    hostname: Option<string>,
    isIP: Option<bool>,
    lastSuccessfulProbe: Option<Time>,
    lastUnsuccessfulProbe: Option<Time>,
    longestUptime: Option<real>,
    longestUptimeEnd: Option<Time>,
    longestUptimeStart: Option<Time>,
    port: Option<Port>,
    totalPacketLoss: Option<real>,
    totalPackets: Option<nat>,
    totalSuccessfulProbes: Option<nat>,
    totalUnsuccessfulProbes: Option<nat>,
    totalUptime: Option<real>,
    totalDowntime: Option<real>)

  /** `omitempty`: a field holding its type's zero value is left out. */
  function OmitZero<T(==)>(x: T, zero: T): (o: Option<T>)
    ensures o.None? <==> x == zero
    ensures o.Some? ==> o.value == x
  {
    if x == zero then None else Some(x)
  }

  /** No present field holds the zero value `omitempty` would have dropped. */
  predicate Canonical(r: JsonRecord) {
    && r.latency != Some(0.0)
    && r.addr != Some("")
    && r.hostname != Some("")
    && r.longestUptime != Some(0.0)
    && r.port != Some(0)
    && r.totalPacketLoss != Some(0.0)
    && r.totalPackets != Some(0)
    && r.totalSuccessfulProbes != Some(0)
    && r.totalUnsuccessfulProbes != Some(0)
    && r.totalUptime != Some(0.0)
    && r.totalDowntime != Some(0.0)
  }

  /** Apart from the mandatory fields, at most the hostname and the port are
      present: no probe outcome, address, counter, loss or time. */
  predicate TargetOnly(r: JsonRecord) {
    && r.success.None? && r.latency.None? && r.addr.None? && r.isIP.None?
    && r.lastSuccessfulProbe.None? && r.lastUnsuccessfulProbe.None?
    && r.longestUptime.None? && r.longestUptimeEnd.None? && r.longestUptimeStart.None?
    && r.totalPacketLoss.None? && r.totalPackets.None?
    && r.totalSuccessfulProbes.None? && r.totalUnsuccessfulProbes.None?
    && r.totalUptime.None? && r.totalDowntime.None?
  }

  /** Reading a record back into a fresh struct: an absent field keeps its
      zero value. */
  function Decode(r: JsonRecord): (d: JsonData)
    ensures d.eventType == r.eventType && d.message == r.message && d.timestamp == r.timestamp
    ensures d.success == r.success && d.isIP == r.isIP
    ensures r.latency.None? ==> d.latency == 0.0
    ensures r.totalPackets.None? ==> d.totalPackets == 0
  {
    JsonData(r.eventType, r.message, r.timestamp, r.success, r.latency.GetOr(0.0),
             r.addr.GetOr(""), r.hostname.GetOr(""), r.isIP,
             r.lastSuccessfulProbe, r.lastUnsuccessfulProbe, r.longestUptime.GetOr(0.0),
             r.longestUptimeEnd, r.longestUptimeStart, r.port.GetOr(0),
             Num(r.totalPacketLoss.GetOr(0.0)), r.totalPackets.GetOr(0),
             r.totalSuccessfulProbes.GetOr(0), r.totalUnsuccessfulProbes.GetOr(0),
             r.totalUptime.GetOr(0.0), r.totalDowntime.GetOr(0.0))
  }

  /** `json.Encoder.Encode`: every zero-valued `omitempty` field is dropped
      and nil pointers are dropped. A NaN float cannot be encoded, so the
      encoder fails and writes nothing (`None`). Otherwise the record is
      canonical and decodes back to the struct. */
  function Encode(d: JsonData): (r: Option<JsonRecord>)
    ensures r.None? <==> d.totalPacketLoss.NaN?
    ensures r.Some? ==> Canonical(r.value) && Decode(r.value) == d
  {
    match d.totalPacketLoss
    case NaN => None
    case Num(loss) =>
      Some(JsonRecord(d.eventType, d.message, d.timestamp, d.success, OmitZero(d.latency, 0.0),
                      OmitZero(d.addr, ""), OmitZero(d.hostname, ""), d.isIP,
                      d.lastSuccessfulProbe, d.lastUnsuccessfulProbe, OmitZero(d.longestUptime, 0.0),
                      d.longestUptimeEnd, d.longestUptimeStart, OmitZero(d.port, 0),
                      OmitZero(loss, 0.0), OmitZero(d.totalPackets, 0),
                      OmitZero(d.totalSuccessfulProbes, 0), OmitZero(d.totalUnsuccessfulProbes, 0),
                      OmitZero(d.totalUptime, 0.0), OmitZero(d.totalDowntime, 0.0)))
  }

  /** The converse round trip: a canonical record survives decoding and
      re-encoding unchanged. */
  lemma EncodeDecode(r: JsonRecord)
    requires Canonical(r)
    ensures Encode(Decode(r)) == Some(r)
  {
  }

  /** One line of structured output: an event record, or a message-only line
      written by `jsonPrintf`. */
  datatype JsonOut = Event(record: JsonRecord) | Note(note: NoteText)

  /** The texts written as message-only lines, by the format they use. */
  datatype NoteText =
    | LongestDowntimeNote(seconds: int, start: Time, end: Time) // "longest consecutive downtime: %v from %v to %v"
    | RetryResolveNote(n: nat)                                  // "retried to resolve hostname %d times"
    | RttNote(samples: seq<real>)                               // "rtt min/avg/max: ..."
    | DurationNote(started: Time, ended: Option<Time>, d: Duration) // "started at ... ended at / still running ... duration"
    | NoResponseNote(seconds: int)                              // "No response received for %s"
}
