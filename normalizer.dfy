/** The vehicle normaliser of the bus-data handler: the
    `feed.entity.map(...).filter(...)` expression that turns a decoded
    GTFS Realtime feed into a flat list of bus records.

    The map step turns each entity into a record, or into `null` when the
    entity carries no `vehicle` sub-message; the filter step then drops the
    `null`s. Nested fields are read with optional chaining, so a missing
    `trip` or `position` gives absent fields, never defaults. */
module Normalizer {
  import opened Wrappers
  import opened GtfsRealtime

  /** The flat record emitted for one vehicle entity. */
  datatype BusRecord = BusRecord(
    id: string,
    tripId: Option<string>,
    routeId: Option<string>,
    latitude: Option<Float32>,
    longitude: Option<Float32>,
    bearing: Option<Float32>,
    speed: Option<Float32>,
    timestamp: Option<nat>)

  /** JavaScript's optional chaining `o?.field`: absent when `o` is absent,
      otherwise whatever the field holds (itself possibly absent). */
  function Chain<A, B>(o: Option<A>, field: A -> Option<B>): (r: Option<B>)
    ensures o.None? ==> r.None?
    ensures o.Some? ==> r == field(o.value)
  {
    match o
    case None => None
    case Some(a) => field(a)
  }

  /** The object literal built for an entity whose `vehicle` is present. */
  function Flatten(id: string, v: VehiclePosition): (r: BusRecord)
    ensures r.id == id
    ensures TripCopied(v.trip, r) && PositionCopied(v.position, r)
    ensures r.timestamp == v.timestamp
  {
    BusRecord(
      id := id,
      tripId := Chain(v.trip, (t: TripDescriptor) => t.tripId),
      routeId := Chain(v.trip, (t: TripDescriptor) => t.routeId),
      latitude := Chain(v.position, (p: Position) => p.latitude),
      longitude := Chain(v.position, (p: Position) => p.longitude),
      bearing := Chain(v.position, (p: Position) => p.bearing),
      speed := Chain(v.position, (p: Position) => p.speed),
      timestamp := v.timestamp)
  }

  /** The trip fields of `b` are those of `trip` when it is present, and are
      both absent (never an empty string) when it is not. */
  predicate TripCopied(trip: Option<TripDescriptor>, b: BusRecord)
  {
    match trip
    case None => b.tripId.None? && b.routeId.None?
    case Some(t) => b.tripId == t.tripId && b.routeId == t.routeId
  }

  /** The position fields of `b` are those of `position` when it is present,
      and are all absent (never 0) when it is not. */
  predicate PositionCopied(position: Option<Position>, b: BusRecord)
  {
    match position
    case None => b.latitude.None? && b.longitude.None? && b.bearing.None? && b.speed.None?
    case Some(p) =>
      b.latitude == p.latitude && b.longitude == p.longitude &&
      b.bearing == p.bearing && b.speed == p.speed
  }

  /** The callback given to `map`: a record for a vehicle entity, `null`
      (here `None`) for any other entity. */
  function ProjectEntity(e: FeedEntity): (r: Option<BusRecord>)
    ensures r.Some? <==> e.vehicle.Some?
    ensures r.Some? ==> r.value.id == e.id
    ensures r.Some? ==> TripCopied(e.vehicle.value.trip, r.value)
    ensures r.Some? ==> PositionCopied(e.vehicle.value.position, r.value)
    ensures r.Some? ==> r.value.timestamp == e.vehicle.value.timestamp
  {
    if e.vehicle.Some? then Some(Flatten(e.id, e.vehicle.value)) else None
  }

  /** `Array.prototype.map` with `ProjectEntity`: one slot per entity. */
  function MapEntities(es: seq<FeedEntity>): (r: seq<Option<BusRecord>>)
    ensures |r| == |es|
    ensures forall i :: 0 <= i < |es| ==> r[i] == ProjectEntity(es[i])
  {
    seq(|es|, i requires 0 <= i < |es| => ProjectEntity(es[i]))
  }

  /** `.filter(bus => bus !== null)`: the present values, in order. */
  function DropNulls(xs: seq<Option<BusRecord>>): (r: seq<BusRecord>)
    ensures |r| <= |xs|
    ensures forall y :: y in r <==> Some(y) in xs
  {
    if xs == [] then []
    else
      assert xs == [xs[0]] + xs[1..];
      var rest := DropNulls(xs[1..]);
      if xs[0].None? then rest else [xs[0].value] + rest
  }

  /** The normaliser on an entity list: map, then filter. The lemmas below
      are stated about this function. */
  function NormalizeEntities(es: seq<FeedEntity>): (r: seq<BusRecord>)
    ensures |r| <= |es|
  {
    DropNulls(MapEntities(es))
  }

  /** The bus list built from a decoded feed: `NormalizeEntities` applied to
      the feed's entity list. */
  function Normalize(feed: FeedMessage): (r: seq<BusRecord>)
    ensures |r| <= |feed.entity|
    ensures forall b :: b in r ==> exists e :: e in feed.entity && ProjectEntity(e) == Some(b)
  {
    var r := NormalizeEntities(feed.entity);
    assert forall b :: b in r ==> Some(b) in MapEntities(feed.entity);
    r
  }

  // ---------------------------------------------------------------------
  // Reference definitions, independent of how records are built

  /** How many entities carry a `vehicle` sub-message. */
  function VehicleCount(es: seq<FeedEntity>): nat
  {
    if es == [] then 0
    else (if es[0].vehicle.Some? then 1 else 0) + VehicleCount(es[1..])
  }

  /** How many entities carry a `vehicle` sub-message and the given `id`. */
  function VehicleIdCount(es: seq<FeedEntity>, id: string): nat
  {
    if es == [] then 0
    else (if es[0].vehicle.Some? && es[0].id == id then 1 else 0) + VehicleIdCount(es[1..], id)
  }

  /** How many records carry the given `id`. */
  function RecordIdCount(bs: seq<BusRecord>, id: string): nat
  {
    if bs == [] then 0
    else (if bs[0].id == id then 1 else 0) + RecordIdCount(bs[1..], id)
  }

  /** Every index of `s` moved one place to the right. */
  function Shift(s: seq<nat>): (r: seq<nat>)
  {
    seq(|s|, k requires 0 <= k < |s| => s[k] + 1)
  }

  /** The positions, in increasing order, of the entities that carry a
      `vehicle` sub-message. */
  function VehicleIndices(es: seq<FeedEntity>): seq<nat>
  {
    if es == [] then []
    else (if es[0].vehicle.Some? then [0] else []) + Shift(VehicleIndices(es[1..]))
  }

  /** `idx` lists, in strictly increasing order and each once, exactly the
      positions of `es` whose entity carries a `vehicle` sub-message. */
  ghost predicate SelectsVehicles(es: seq<FeedEntity>, idx: seq<nat>)
  {
    (forall k :: 0 <= k < |idx| ==> idx[k] < |es|) &&
    (forall j, k :: 0 <= j < k < |idx| ==> idx[j] < idx[k]) &&
    (forall i :: 0 <= i < |es| ==> (i in idx <==> es[i].vehicle.Some?))
  }

  // ---------------------------------------------------------------------
  // Properties of the normaliser

  /** One step of the map-then-filter pipeline: the first entity contributes
      its record, if any, in front of the records of the rest. */
  lemma NormalizeCons(es: seq<FeedEntity>)
    requires es != []
    ensures NormalizeEntities(es) ==
      (if es[0].vehicle.Some? then [Flatten(es[0].id, es[0].vehicle.value)] else [])
      + NormalizeEntities(es[1..])
  {
    assert MapEntities(es)[1..] == MapEntities(es[1..]);
  }

  /** The output has one record per vehicle entity, so never more records
      than the feed has entities. */
  lemma {:induction false} NormalizeCount(es: seq<FeedEntity>)
    ensures |NormalizeEntities(es)| == VehicleCount(es) <= |es|
  {
    if es != [] {
      NormalizeCons(es);
      NormalizeCount(es[1..]);
    }
  }

  /** A feed yields no records exactly when none of its entities carries a
      `vehicle` sub-message. */
  lemma {:induction false} NormalizeEmpty(es: seq<FeedEntity>)
    ensures NormalizeEntities(es) == [] <==> forall i :: 0 <= i < |es| ==> es[i].vehicle.None?
  {
    if es != [] {
      NormalizeCons(es);
      NormalizeEmpty(es[1..]);
      if es[0].vehicle.None? {
        forall i | 0 < i < |es| ensures es[i] == es[1..][i - 1] { }
      }
    }
  }

  /** Normalising is compositional over the entity order: the records of a
      concatenated feed are the records of its first part followed by those
      of its second part. */
  lemma {:induction false} NormalizeAppend(a: seq<FeedEntity>, b: seq<FeedEntity>)
    ensures NormalizeEntities(a + b) == NormalizeEntities(a) + NormalizeEntities(b)
  {
    if a == [] {
      assert a + b == b;
    } else {
      assert (a + b)[0] == a[0];
      assert (a + b)[1..] == a[1..] + b;
      NormalizeCons(a + b);
      NormalizeCons(a);
      NormalizeAppend(a[1..], b);
    }
  }

  /** `VehicleIndices` picks out exactly the vehicle entities, in order. */
  lemma {:induction false} VehicleIndicesSelect(es: seq<FeedEntity>)
    ensures SelectsVehicles(es, VehicleIndices(es))
  {
    if es != [] {
      var rest := VehicleIndices(es[1..]);
      VehicleIndicesSelect(es[1..]);
      var head: seq<nat> := if es[0].vehicle.Some? then [0] else [];
      var idx := head + Shift(rest);
      assert idx == VehicleIndices(es);
      forall k | 0 <= k < |Shift(rest)| ensures 1 <= Shift(rest)[k] < |es| { }
      forall i | 0 <= i < |es| ensures i in idx <==> es[i].vehicle.Some? {
        if i == 0 {
          assert 0 !in Shift(rest);
        } else {
          assert es[i] == es[1..][i - 1];
          assert (i - 1 in rest) <==> (i in Shift(rest)) by {
            if i - 1 in rest {
              var k :| 0 <= k < |rest| && rest[k] == i - 1;
              assert Shift(rest)[k] == i;
            }
          }
        }
      }
    }
  }

  /** `out` holds, for each position listed in `idx`, the record built from
      the vehicle entity at that position of `es`. */
  ghost predicate BuiltAlong(es: seq<FeedEntity>, idx: seq<nat>, out: seq<BusRecord>)
  {
    |out| == |idx| &&
    forall k :: 0 <= k < |idx| ==>
      idx[k] < |es| && es[idx[k]].vehicle.Some? &&
      out[k] == Flatten(es[idx[k]].id, es[idx[k]].vehicle.value)
  }

  /** The step of `NormalizeAlongIndices`: putting the first entity's index
      and record in front keeps index list and output in step. */
  lemma BuiltAlongCons(es: seq<FeedEntity>, rest: seq<nat>, tail: seq<BusRecord>)
    requires es != [] && BuiltAlong(es[1..], rest, tail)
    ensures BuiltAlong(es,
      (if es[0].vehicle.Some? then [0] else []) + Shift(rest),
      (if es[0].vehicle.Some? then [Flatten(es[0].id, es[0].vehicle.value)] else []) + tail)
  {
    var idx := (if es[0].vehicle.Some? then [0] else []) + Shift(rest);
    var out := (if es[0].vehicle.Some? then [Flatten(es[0].id, es[0].vehicle.value)] else []) + tail;
    var h := if es[0].vehicle.Some? then 1 else 0;
    forall k | h <= k < |idx|
      ensures idx[k] < |es| && es[idx[k]].vehicle.Some?
      ensures out[k] == Flatten(es[idx[k]].id, es[idx[k]].vehicle.value)
    {
      assert idx[k] == rest[k - h] + 1;
      assert out[k] == tail[k - h];
      assert es[idx[k]] == es[1..][rest[k - h]];
    }
  }

  /** The k-th record is built from the entity at the k-th vehicle position:
      its `id` verbatim and its nested fields copied. */
  lemma {:induction false} NormalizeAlongIndices(es: seq<FeedEntity>)
    ensures BuiltAlong(es, VehicleIndices(es), NormalizeEntities(es))
  {
    if es != [] {
      NormalizeCons(es);
      NormalizeAlongIndices(es[1..]);
      BuiltAlongCons(es, VehicleIndices(es[1..]), NormalizeEntities(es[1..]));
    }
  }

  /** The full characterisation: the output lists, in feed order and one
      record each, exactly the entities carrying a `vehicle` sub-message. */
  lemma NormalizeSelects(feed: FeedMessage)
    ensures var idx := VehicleIndices(feed.entity);
      SelectsVehicles(feed.entity, idx) &&
      |Normalize(feed)| == |idx| &&
      forall k :: 0 <= k < |idx| ==>
        Normalize(feed)[k] == Flatten(feed.entity[idx[k]].id, feed.entity[idx[k]].vehicle.value)
  {
    VehicleIndicesSelect(feed.entity);
    NormalizeAlongIndices(feed.entity);
  }

  /** No deduplication by `id`: every vehicle entity with a given `id`
      yields its own record, so duplicates in the feed stay duplicates. */
  lemma {:induction false} NormalizeKeepsDuplicates(es: seq<FeedEntity>, id: string)
    ensures RecordIdCount(NormalizeEntities(es), id) == VehicleIdCount(es, id)
  {
    if es != [] {
      NormalizeCons(es);
      NormalizeKeepsDuplicates(es[1..], id);
      var head := if es[0].vehicle.Some? then [Flatten(es[0].id, es[0].vehicle.value)] else [];
      var tail := NormalizeEntities(es[1..]);
      if head != [] {
        assert (head + tail)[1..] == tail;
      } else {
        assert head + tail == tail;
      }
    }
  }

  // ---------------------------------------------------------------------
  // What one record keeps of its entity

  /** The simplest entity that yields `b`: sub-messages present only when
      some field of theirs is, and no fields the normaliser does not read. */
  function Rebuild(b: BusRecord): FeedEntity
  {
    var trip :=
      if b.tripId.None? && b.routeId.None? then None
      else Some(TripDescriptor(b.tripId, b.routeId, None, None, None));
    var position :=
      if b.latitude.None? && b.longitude.None? && b.bearing.None? && b.speed.None? then None
      else Some(Position(b.latitude, b.longitude, b.bearing, b.speed));
    FeedEntity(b.id, None, Some(VehiclePosition(trip, None, position, None, None, b.timestamp)))
  }

  /** Every record shape is reachable, and the record of an entity carries
      exactly the fields the entity's sub-messages supplied. */
  lemma ProjectRebuild(b: BusRecord)
    ensures ProjectEntity(Rebuild(b)) == Some(b)
  {
  }

  /** An entity with everything the normaliser does not read erased: no
      `is_deleted`, no vehicle descriptor, no stop fields, no trip fields
      beyond the two identifiers, and a sub-message whose read fields are all
      missing replaced by a missing sub-message. */
  function Canonical(e: FeedEntity): FeedEntity
    requires e.vehicle.Some?
  {
    var v := e.vehicle.value;
    var trip := match v.trip
      case None => None
      case Some(t) =>
        if t.tripId.None? && t.routeId.None? then None
        else Some(TripDescriptor(t.tripId, t.routeId, None, None, None));
    var position := match v.position
      case None => None
      case Some(p) =>
        if p.latitude.None? && p.longitude.None? && p.bearing.None? && p.speed.None? then None
        else Some(p);
    FeedEntity(e.id, None, Some(VehiclePosition(trip, None, position, None, None, v.timestamp)))
  }

  /** Rebuilding from a vehicle entity's record gives back the entity with
      exactly the unread parts erased: the record loses nothing else. */
  lemma RebuildProject(e: FeedEntity)
    requires e.vehicle.Some?
    ensures Rebuild(ProjectEntity(e).value) == Canonical(e)
  {
  }

  /** Two vehicle entities give the same record exactly when they agree once
      the unread parts are erased; in particular a missing `trip` or
      `position` and one whose read fields are all missing look the same. */
  lemma SameRecordIff(e1: FeedEntity, e2: FeedEntity)
    requires e1.vehicle.Some? && e2.vehicle.Some?
    ensures ProjectEntity(e1) == ProjectEntity(e2) <==> Canonical(e1) == Canonical(e2)
  {
  }

  // ---------------------------------------------------------------------
  // A worked feed

  /** A feed of two entities: a fully populated vehicle and an entity with
      no vehicle. Only the first yields a record, with every field copied. */
  lemma TwoEntityFeed()
    ensures
      var vehicle := VehiclePosition(
        Some(TripDescriptor(Some("T1"), Some("R1"), None, None, None)),
        None,
        Some(Position(Some(Float32(0x40466666)), Some(Float32(0x42CB3333)),
                      Some(Float32(0x42B40000)), Some(Float32(0x41400000)))),
        None, None, Some(1700000000));
      var feed := FeedMessage(FeedHeader("2.0", None),
        [FeedEntity("1", None, Some(vehicle)), FeedEntity("2", None, None)]);
      Normalize(feed) == [BusRecord("1", Some("T1"), Some("R1"),
        Some(Float32(0x40466666)), Some(Float32(0x42CB3333)),
        Some(Float32(0x42B40000)), Some(Float32(0x41400000)), Some(1700000000))]
  {
  }
}
