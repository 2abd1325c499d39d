/** The `flightEvent` handler of the flight service: it acknowledges a message
    with the message itself and the time it was received. The clock reading
    (milliseconds since the Unix epoch) is a parameter. */
module FlightService {

  datatype FlightRequest = FlightRequest(message: string)

  /** A protobuf `Timestamp`. */
  datatype Timestamp = Timestamp(seconds: int, nanos: int)

  datatype FlightResponse = FlightResponse(acknowledgment: string, receivedAt: Timestamp)

  const MILLIS_PER_SECOND := 1000
  const NANOS_PER_MILLI := 1_000_000

  /** `flightEvent`: `seconds` is `Math.floor(ms / 1000)` and `nanos` is the
      millisecond-of-second component (`getMilliseconds()`, never negative)
      scaled to nanoseconds. */
  function FlightEvent(req: FlightRequest, nowMs: int): (r: FlightResponse)
    ensures r.acknowledgment == req.message
    // seconds is the floor of the time in seconds
    ensures r.receivedAt.seconds * 1000 <= nowMs < r.receivedAt.seconds * 1000 + 1000
    // nanos is a whole number of milliseconds within one second
    ensures 0 <= r.receivedAt.nanos <= 999_000_000 && r.receivedAt.nanos % 1_000_000 == 0
  {
    FlightResponse(
      req.message,
      Timestamp(nowMs / MILLIS_PER_SECOND, (nowMs % MILLIS_PER_SECOND) * NANOS_PER_MILLI))
  }

  /** The timestamp gives back the received instant exactly, at millisecond
      precision, for every reading including those before the epoch. */
  lemma TimestampIsExact(req: FlightRequest, nowMs: int)
    ensures
      var t := FlightEvent(req, nowMs).receivedAt;
      t.seconds * 1_000_000_000 + t.nanos == nowMs * 1_000_000
  {
  }
}
