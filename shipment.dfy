/** The shipment record as the server keeps it in its JSON store, and the
    in-memory list of records that the request handlers and the
    set-in-transit script update in place.

    Absent JSON fields (`undefined`/`null`) are `None`; ISO timestamps are
    milliseconds since the epoch; the opaque sub-objects `dimensions` and
    `vehicle` are string maps. */
module ShipmentModel {
  import opened Wrappers
  import opened Js

  /** Milliseconds since the epoch. */
  type Time = int

  type Obj = map<string, string>

  /** One `[lat, lng]` vertex of a route polyline, or a coordinate pair. */
  datatype Point = Point(lat: real, lng: real)

  datatype Address = Address(
    city: string, state: string, country: string, zipCode: string,
    lat: Option<real>, lng: Option<real>)

  datatype Party = Party(
    name: Option<string>, email: Option<string>, phone: Option<string>,
    address: Option<Address>)

  datatype Location = Location(lat: Option<real>, lng: Option<real>, city: string)

  /** One entry of the status history. */
  datatype Event = Event(
    id: string, status: string, title: string, description: string,
    location: string, timestamp: Option<Time>, completed: bool, current: bool)

  /** The `autoProgress` sub-record; `pausedDuration` is cumulative
      milliseconds, read as 0 where the code writes `pausedDuration || 0`. */
  datatype AutoProgress = AutoProgress(
    enabled: bool, paused: bool, pausedAt: Option<Time>, pauseReason: Option<string>,
    pausedDuration: int, startedAt: Option<Time>, lastUpdate: Option<Time>)

  datatype Package = Package(
    kind: Option<string>, weight: Option<real>, dimensions: Option<Obj>,
    description: Option<string>, value: Option<real>, currency: Option<string>,
    vehicle: Option<Obj>)

  datatype Service = Service(kind: Option<string>, priority: Option<string>, insurance: Option<bool>)

  datatype Cost = Cost(
    base: Option<real>, shipping: Option<real>, insurance: Option<real>,
    total: Option<real>, currency: Option<string>)

  datatype Shipment = Shipment(
    id: Option<string>, trackingId: string, status: string,
    createdAt: Option<Time>, updatedAt: Option<Time>, deliveredAt: Option<Time>,
    sender: Option<Party>, recipient: Option<Party>,
    package: Option<Package>, service: Option<Service>,
    events: Option<seq<Event>>, cost: Option<Cost>,
    estimatedDelivery: Option<Time>, currentLocation: Option<Location>,
    autoProgress: Option<AutoProgress>,
    receipt: Option<string>, receiptUploadedAt: Option<Time>,
    routeGeometry: Option<seq<Point>>, routeDistanceMiles: Option<real>)

  /** The record the handlers install when `autoProgress` is missing. */
  const DEFAULT_AUTO_PROGRESS: AutoProgress :=
    AutoProgress(true, false, None, None, 0, None, None)

  /** `shipment.sender?.address`. */
  function SenderAddress(s: Shipment): Option<Address> {
    if s.sender.Some? then s.sender.value.address else None
  }

  /** `shipment.recipient?.address`. */
  function RecipientAddress(s: Shipment): Option<Address> {
    if s.recipient.Some? then s.recipient.value.address else None
  }

  /** `address?.lat`. */
  function LatOf(a: Option<Address>): Option<real> {
    if a.Some? then a.value.lat else None
  }

  /** `address?.lng`. */
  function LngOf(a: Option<Address>): Option<real> {
    if a.Some? then a.value.lng else None
  }

  /** `address?.city || ''`. */
  function CityOf(a: Option<Address>): string {
    if a.Some? then a.value.city else ""
  }

  /** `shipment.currentLocation?.city || ''`. */
  function CurrentCity(s: Shipment): string {
    if s.currentLocation.Some? then s.currentLocation.value.city else ""
  }

  /** The event as `forEach(e => { e.completed = true; e.current = false; })`
      leaves it. */
  function Closed(e: Event): (r: Event)
    ensures r.completed && !r.current
    ensures r == e.(completed := true, current := false)
  {
    e.(completed := true, current := false)
  }

  /** `shipments.findIndex(s => s.trackingId === id)`. */
  function IndexOf(shipments: seq<Shipment>, id: string): (r: Option<nat>)
    ensures r.Some? ==> r.value < |shipments| && shipments[r.value].trackingId == id
    ensures r.Some? ==> forall j :: 0 <= j < r.value ==> shipments[j].trackingId != id
    ensures r.None? ==> forall j :: 0 <= j < |shipments| ==> shipments[j].trackingId != id
    decreases |shipments|
  {
    if shipments == [] then None
    else if shipments[0].trackingId == id then Some(0)
    else
      match IndexOf(shipments[1..], id)
      case None => None
      case Some(k) => Some(k + 1)
  }

  /** What a request handler answers: the updated record, 404 for an
      unknown tracking id, or 500 when the record cannot be processed (its
      event list is missing). */
  datatype HandlerResult = Updated(shipment: Shipment) | NotFound | ServerError

  /** The list of shipment records a handler reads, changes and writes back;
      reading and writing the JSON file or the database is not modelled. */
  class ShipmentStore {
    var shipments: seq<Shipment>

    constructor (initial: seq<Shipment>)
      ensures shipments == initial
    {
      shipments := initial;
    }
  }
}
