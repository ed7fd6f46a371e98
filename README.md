# Live bus feed handler — a Dafny model

This project models the core of a serverless function that serves live bus
positions. The function fetches a GTFS Realtime vehicle-position feed and
decodes it from protocol-buffer bytes into a `FeedMessage`. It then
normalises every vehicle entity into a flat bus record
(`id`, `tripId`, `routeId`, `latitude`, `longitude`, `bearing`, `speed`,
`timestamp`) and returns the list as a JSON response, or a fixed error
response if anything fails.

Files:

- `wrappers.dfy` — `Option` (the explicit "absent" marker) and `Result`.
- `gtfs_realtime.dfy` — the decoded messages `FeedMessage`, `FeedHeader`,
  `FeedEntity`, `VehiclePosition`, `TripDescriptor`, `Position` and
  `VehicleDescriptor`. Every optional sub-message and leaf field is an `Option`.
- `normalizer.dfy` — the `map(...).filter(...)` normaliser, the reference
  definitions it is proved against, and its properties.
- `handler.dfy` — the response envelope: status 200 with the two headers
  and the bus list, or status 500 with the fixed error object.

The normaliser is modelled in two stages, as the source writes it. The map
stage is `ProjectEntity` over every entity, with `None` standing for `null`.
The filter stage is `DropNulls`. Optional chaining (`?.`) is the helper
`Chain`. The proofs compare the result with independent reference
definitions: `VehicleIndices` gives the positions of the vehicle entities,
`VehicleCount` counts them, and `VehicleIdCount` counts them per `id`.

Two behaviours of the code that are easy to miss, and that the model follows:

- The failure response carries no headers (getBuses.js:52-55).
- A failure while reading the response body also gives the failure response.
  `arrayBuffer` is awaited inside the same `try` (getBuses.js:17).

## Model

| member | source | states |
|---|---|---|
| Normalizer.ProjectEntity | netlify/functions/getBuses.js:25-37 | a record exists exactly when the entity has a `vehicle`; `id` is copied verbatim; `tripId`/`routeId` are both absent when `trip` is missing and copied otherwise; the four position fields are all absent when `position` is missing and copied otherwise; `timestamp` is copied or absent |
| Normalizer.Chain | netlify/functions/getBuses.js:28-33 | optional chaining `o?.field`: absent whenever `o` is absent, otherwise exactly the field's value (itself possibly absent) |
| Normalizer.Flatten | netlify/functions/getBuses.js:26-35 | the object literal: `id` copied; `tripId`/`routeId` both absent when `trip` is missing and copied otherwise; the four position fields all absent when `position` is missing and copied otherwise; `timestamp` copied |
| Normalizer.MapEntities | netlify/functions/getBuses.js:24-37 | `feed.entity.map(...)`: one slot per entity, in order, the i-th slot being the callback's result on the i-th entity |
| Normalizer.DropNulls | netlify/functions/getBuses.js:38 | the filter keeps exactly the non-null values (`y` is in the output iff `Some(y)` is in the input) and never lengthens the list |
| Normalizer.NormalizeEntities | netlify/functions/getBuses.js:24-38 | the map-then-filter pipeline on an entity list, the function the lemmas below are stated about; its output is never longer than its input |
| Normalizer.Normalize | netlify/functions/getBuses.js:24-38 | the feed-level wrapper, `NormalizeEntities` of `feed.entity`: the bus list is no longer than the entity list, and every record is the projection of some entity of the feed |
| Normalizer.NormalizeCons | netlify/functions/getBuses.js:24-38 | the map-then-filter pipeline handles one entity at a time: the first entity's record, if any, comes before the records of the rest |
| Normalizer.NormalizeCount | netlify/functions/getBuses.js:24-38 | the output length equals the number of entities with a `vehicle`, which is at most the entity count |
| Normalizer.NormalizeEmpty | netlify/functions/getBuses.js:24-38 | the output is empty exactly when no entity has a `vehicle` |
| Normalizer.NormalizeAppend | netlify/functions/getBuses.js:24-38 | the records of a concatenated entity list are the records of the first part followed by those of the second (order is preserved, entities are independent) |
| Normalizer.VehicleIndicesSelect | netlify/functions/getBuses.js:25 | the reference index list names each entity with a `vehicle` once, in strictly increasing order, and no other entity |
| Normalizer.BuiltAlongCons | netlify/functions/getBuses.js:24-38 | putting the first entity's index and record, if it has a `vehicle`, in front of a matching index list and record list keeps the two in step |
| Normalizer.NormalizeAlongIndices | netlify/functions/getBuses.js:24-38 | the k-th record is the flattening of the entity at the k-th vehicle position, and the output has one record per such position |
| Normalizer.NormalizeSelects | netlify/functions/getBuses.js:24-38 | the output lists exactly the vehicle entities, in feed order, one record per entity, each carrying that entity's `id` and fields |
| Normalizer.NormalizeKeepsDuplicates | netlify/functions/getBuses.js:24-38 | there is no deduplication by `id`: the number of records with a given `id` equals the number of vehicle entities with that `id` |
| Normalizer.ProjectRebuild | netlify/functions/getBuses.js:26-35 | every record shape comes from some entity: projecting the rebuilt entity of a record gives that record back |
| Normalizer.RebuildProject | netlify/functions/getBuses.js:26-35 | a record loses only what the normaliser never reads: rebuilding it gives the entity with the unread parts erased |
| Normalizer.SameRecordIff | netlify/functions/getBuses.js:26-35 | two vehicle entities give the same record iff they agree once the unread parts are erased |
| Normalizer.TwoEntityFeed | netlify/functions/getBuses.js:24-38 | a feed with a fully populated vehicle entity "1" and a non-vehicle entity "2" yields exactly one record, "1" with every field copied |
| Handler.Acquire | netlify/functions/getBuses.js:13-21 | the steps before normalising succeed iff the fetch returned an OK status, the body was read and the decoder accepted it; a non-OK status gives an upstream-status error |
| Handler.Respond | netlify/functions/getBuses.js:41-55 | success gives status 200 with `Content-Type: application/json`, `Access-Control-Allow-Origin: *` and the bus list; any error gives status 500, no headers and the fixed error object |
| Handler.Handle | netlify/functions/getBuses.js:11-55 | status 200 iff the fetch was OK and the bytes decoded, and then the body is the normalised feed; otherwise exactly the failure response |
| Handler.ErrorsCollapse | netlify/functions/getBuses.js:50-55 | every error kind gives the same response: status 500 and an error object, with no error detail |
| Handler.UpstreamStatusFails | netlify/functions/getBuses.js:14-55 | a non-OK upstream status (503, say) gives the failure response, whatever the body and the decoder |
| Handler.DecodeFailureFails | netlify/functions/getBuses.js:21-55 | bytes the decoder rejects give the failure response and never a partial bus list |
| Handler.SuccessCarriesEveryVehicle | netlify/functions/getBuses.js:41-47 | on success the body holds one record per vehicle entity of the decoded feed |

## Left out

- The HTTP fetch (getBuses.js:3, 9, 13, 17) is network I/O. Its outcome is the input `FetchOutcome`: a network failure, or a status with a body that was read or could not be read. The endpoint URL is not modelled.
- The protocol-buffer decoder (getBuses.js:21) is the external gtfs-realtime-bindings library, which is not part of this model. It is a function parameter from bytes to `Result<FeedMessage, DecodeError>`. The model does not capture how that library fills in schema defaults for scalar fields that are missing on the wire. The normaliser copies whatever the decoded message holds. The library's generated message classes give missing scalar fields their schema defaults on the decoded object: a vehicle with no `timestamp` decodes to 0 rather than absent, and a present `trip` with no `trip_id` decodes to `""`. So the leaf-level "absent" results stated by `ProjectEntity` and `Flatten` arise only from a decoder that returns `None` for such a field. Absence at the sub-message level (a missing `trip` or `position`) behaves as in the source.
- Logging with `console.error` (getBuses.js:51) is a side effect only.
- JSON text serialisation (getBuses.js:47, 54) is not modelled. The body is the structured record list or the error object. Absent fields stay `None` and are never given a value.
- The float32 fields `latitude`, `longitude`, `bearing` and `speed` are kept as their 32-bit patterns. They are only copied, so no floating-point arithmetic is modelled.
- `timestamp` is an unbounded `nat`. The schema's 64-bit unsigned range and the library's `Long` representation are not modelled, because the value is only copied.
- Trip-update and alert payloads of `FeedEntity`, and schema fields the normaliser never reads (odometer, congestion and occupancy, for example), are not modelled. An entity with only such a payload is an entity whose `vehicle` is `None`.
- `async`/`await` and the runtime's `event`/`context` parameters (getBuses.js:7) are runtime plumbing.
