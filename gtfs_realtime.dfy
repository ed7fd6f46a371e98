/** The decoded shape of a GTFS Realtime vehicle-position feed, as the
    normaliser sees it after the protocol-buffer decoder has run.

    Only the messages and fields the normaliser touches are modelled, plus a
    few it never reads (kept so that the model shows they are dropped).
    Every optional sub-message and every optional leaf field is an `Option`:
    `None` is the decoded object not carrying that field. */
module GtfsRealtime {
  import opened Wrappers

  /** A 32-bit IEEE-754 float, kept as its bit pattern. The normaliser only
      copies such values, so no arithmetic on them is modelled. */
  datatype Float32 = Float32(bits: bv32)

  /** `TripDescriptor`: which scheduled trip and route the vehicle is serving. */
  datatype TripDescriptor = TripDescriptor(
    tripId: Option<string>,
    routeId: Option<string>,
    directionId: Option<nat>,
    startTime: Option<string>,
    startDate: Option<string>)

  /** `Position`: where the vehicle is and how it moves. */
  datatype Position = Position(
    latitude: Option<Float32>,
    longitude: Option<Float32>,
    bearing: Option<Float32>,
    speed: Option<Float32>)

  /** `VehicleDescriptor`: the physical vehicle; never read by the normaliser. */
  datatype VehicleDescriptor = VehicleDescriptor(
    id: Option<string>,
    vehicleLabel: Option<string>,  // the schema's `label`; a keyword in Dafny
    licensePlate: Option<string>)

  /** `VehiclePosition`: one vehicle's real-time report. `timestamp` is in
      seconds since the POSIX epoch. */
  datatype VehiclePosition = VehiclePosition(
    trip: Option<TripDescriptor>,
    vehicle: Option<VehicleDescriptor>,
    position: Option<Position>,
    currentStopSequence: Option<nat>,
    stopId: Option<string>,
    timestamp: Option<nat>)

  /** `FeedEntity`: one element of the feed. An entity without a `vehicle`
      sub-message carries some other kind of update (a trip update or an
      alert, whose payloads are not modelled). */
  datatype FeedEntity = FeedEntity(
    id: string,
    isDeleted: Option<bool>,
    vehicle: Option<VehiclePosition>)

  /** `FeedHeader`: metadata about the whole feed; never read by the normaliser. */
  datatype FeedHeader = FeedHeader(
    gtfsRealtimeVersion: string,
    timestamp: Option<nat>)

  /** `FeedMessage`: the decoded top-level value, its entities in wire order. */
  datatype FeedMessage = FeedMessage(header: FeedHeader, entity: seq<FeedEntity>)

  /** Why a byte sequence failed to decode; the detail is only logged. */
  datatype DecodeError = Truncated | InvalidWireType | MissingRequiredField
}
