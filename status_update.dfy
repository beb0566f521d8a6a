/** The status-update handler (`PUT /api/shipments/:trackingId/status`):
    it closes the history, appends the new status event, starts or clears
    the progression clock, moves the current location (to an endpoint, to a
    location the admin typed, or to the engine's position) and stamps the
    record. The event id, the clock and the engine's collaborators are
    parameters. */
module StatusUpdate {
  import opened Wrappers
  import opened Js
  import opened ShipmentModel
  import opened Locations
  import opened Progression

  /** The fields of the request body. */
  datatype StatusRequest = StatusRequest(status: string, location: Option<string>, description: Option<string>)

  /** `statusMap[status]`: the title and description of a known status. */
  function StatusInfo(status: string): Option<(string, string)> {
    match status
    case "pending" => Some(("Pending Pickup", "Awaiting carrier pickup"))
    case "picked_up" => Some(("Picked Up", "Package picked up by carrier"))
    case "in_transit" => Some(("In Transit", "Package is in transit"))
    case "out_for_delivery" => Some(("Out for Delivery", "Package is out for delivery"))
    case "delivered" => Some(("Delivered", "Package has been delivered"))
    case "exception" => Some(("Exception", "An exception occurred"))
    case _ => None
  }

  /** A status after which the shipment keeps moving. */
  predicate IsActive(status: string) {
    status != "pending" && status != "delivered"
  }

  /** The event the handler appends. */
  function StatusEvent(s: Shipment, req: StatusRequest, now: Time, eventId: string): (e: Event)
    ensures e.status == req.status && e.id == eventId && e.timestamp == Some(now)
    ensures e.completed == (req.status == "delivered") && e.current == !e.completed
    ensures e.title == (if StatusInfo(req.status).Some? then StatusInfo(req.status).value.0 else req.status)
    ensures TruthyStr(req.description) ==> e.description == req.description.value
    ensures TruthyStr(req.location) ==> e.location == req.location.value
    ensures !TruthyStr(req.location) ==> e.location == CurrentCity(s)
  {
    var info := StatusInfo(req.status);
    var title := if info.Some? then info.value.0 else req.status;
    var fallback := if info.Some? then info.value.1 else "";
    Event(eventId, req.status, title, StrOr(req.description, fallback),
          StrOr(req.location, CurrentCity(s)), Some(now),
          req.status == "delivered", req.status != "delivered")
  }

  /** The whole history marked completed and not current. */
  function ClosedEvents(events: seq<Event>): (r: seq<Event>)
    ensures |r| == |events|
    ensures forall i :: 0 <= i < |events| ==> r[i] == Closed(events[i])
  {
    seq(|events|, i requires 0 <= i < |events| => Closed(events[i]))
  }

  /** An address as `getCityCoordinates` receives it. */
  function AddressInput(a: Address): LocationInput {
    Fields(Some(a.city), Some(a.state), Some(a.country), Some(a.zipCode), None, None)
  }

  /** The location of an endpoint on the delivered and pending statuses: the
      endpoint's city (else the typed location, else ''), and its own
      coordinates when both are truthy, else those the city table gives for
      the address (or for the city text without an address). */
  function EndpointLocation(address: Option<Address>, location: Option<string>): (r: Location)
    ensures r.city == (if CityOf(address) != "" then CityOf(address) else StrOr(location, ""))
    ensures TruthyNum(LatOf(address)) && TruthyNum(LngOf(address)) ==>
      r.lat == LatOf(address) && r.lng == LngOf(address)
  {
    var city := if CityOf(address) != "" then CityOf(address) else StrOr(location, "");
    var coords :=
      if TruthyNum(LatOf(address)) && TruthyNum(LngOf(address)) then Some(Point(LatOf(address).value, LngOf(address).value))
      else CityCoordinates(FALLBACK_CITIES, if address.Some? then AddressInput(address.value) else Text(city));
    Location(
      FirstTruthy(if coords.Some? then Some(coords.value.lat) else None, LatOf(address)),
      FirstTruthy(if coords.Some? then Some(coords.value.lng) else None, LngOf(address)),
      city)
  }

  /** A location typed by the admin: its coordinates from the city table,
      else the previous ones. */
  function TypedLocation(s: Shipment, location: string): (r: Location)
    ensures r.city == location
  {
    var coords := CityCoordinates(FALLBACK_CITIES, Text(location));
    var current := s.currentLocation;
    Location(
      FirstTruthy(if coords.Some? then Some(coords.value.lat) else None, if current.Some? then current.value.lat else None),
      FirstTruthy(if coords.Some? then Some(coords.value.lng) else None, if current.Some? then current.value.lng else None),
      location)
  }

  /** The record the engine branch hands to the engine: its clock started
      now unless it already has a start time. */
  function ClockStarted(s: Shipment, now: Time): (r: Shipment)
    requires s.autoProgress.Some?
    ensures r.autoProgress.Some?
    ensures r.autoProgress.value.startedAt == (if s.autoProgress.value.startedAt.Some? then s.autoProgress.value.startedAt else Some(now))
    ensures r.autoProgress.value == s.autoProgress.value.(startedAt := r.autoProgress.value.startedAt)
    ensures r == s.(autoProgress := r.autoProgress)
  {
    var ap := s.autoProgress.value;
    if ap.startedAt.None? then s.(autoProgress := Some(ap.(startedAt := Some(now)))) else s
  }

  /** The engine branch: start the clock if needed, run the engine on the
      record as it stands (still under its previous status), keep any route
      the engine fetched, and move the shipment when the engine answers. */
  function AutoAdvanced(s: Shipment, now: Time, env: Env): (r: Shipment)
    requires s.autoProgress.Some?
    ensures Untouched(s, r) && r.events == s.events && r.status == s.status && r.deliveredAt == s.deliveredAt
    ensures r.autoProgress.Some? && r.autoProgress.value.enabled == s.autoProgress.value.enabled
    ensures r.autoProgress.value.paused == s.autoProgress.value.paused
    ensures r.autoProgress.value.startedAt == (if s.autoProgress.value.startedAt.Some? then s.autoProgress.value.startedAt else Some(now))
    ensures r.currentLocation != s.currentLocation ==> r.autoProgress.value.lastUpdate == Some(now)
    ensures var pos := ComputeProgress(ClockStarted(s, now), now, env);
      && (pos.Some? ==> r.currentLocation == Some(pos.value.location) && r.autoProgress.value.lastUpdate == Some(now))
      && (pos.None? ==> r.currentLocation == s.currentLocation && r.autoProgress.value.lastUpdate == s.autoProgress.value.lastUpdate)
    ensures Eligible(s) && s.routeGeometry.None? && env.fetchedRoute.Some? ==>
      r.routeGeometry == Some(env.fetchedRoute.value.geometry) && r.routeDistanceMiles == Some(env.fetchedRoute.value.distanceMiles)
    ensures !(Eligible(s) && s.routeGeometry.None? && env.fetchedRoute.Some?) ==>
      r.routeGeometry == s.routeGeometry && r.routeDistanceMiles == s.routeDistanceMiles
    ensures r.autoProgress.value.pausedAt == s.autoProgress.value.pausedAt
    ensures r.autoProgress.value.pauseReason == s.autoProgress.value.pauseReason
    ensures r.autoProgress.value.pausedDuration == s.autoProgress.value.pausedDuration
    ensures r == s.(autoProgress := r.autoProgress, currentLocation := r.currentLocation,
                    routeGeometry := r.routeGeometry, routeDistanceMiles := r.routeDistanceMiles)
  {
    var s1 := ClockStarted(s, now);
    var ap' := s1.autoProgress.value;
    var pos := ComputeProgress(s1, now, env);
    var s2 := WithCachedRoute(s1, env);
    assert Eligible(s1) == Eligible(s);
    if pos.Some? then
      s2.(currentLocation := Some(pos.value.location), autoProgress := Some(ap'.(lastUpdate := Some(now))))
    else s2
  }

  /** The fields no step of the handler writes. */
  predicate Untouched(s: Shipment, r: Shipment) {
    r.trackingId == s.trackingId && r.id == s.id && r.createdAt == s.createdAt &&
    r.sender == s.sender && r.recipient == s.recipient &&
    r.package == s.package && r.service == s.service && r.cost == s.cost &&
    r.estimatedDelivery == s.estimatedDelivery && r.receipt == s.receipt &&
    r.receiptUploadedAt == s.receiptUploadedAt
  }

  /** The history and the clock after the first steps of the handler. */
  function Journaled(s: Shipment, req: StatusRequest, now: Time, eventId: string): (r: Shipment)
    requires s.events.Some?
    ensures Untouched(s, r) && r.status == s.status && r.deliveredAt == s.deliveredAt
    ensures r.currentLocation == s.currentLocation && r.routeGeometry == s.routeGeometry
    ensures r.events == Some(ClosedEvents(s.events.value) + [StatusEvent(s, req, now, eventId)])
    ensures r.autoProgress.Some?
  {
    var events := ClosedEvents(s.events.value) + [StatusEvent(s, req, now, eventId)];
    var ap0 := s.autoProgress.GetOr(DEFAULT_AUTO_PROGRESS);
    var ap1 :=
      if s.status == "pending" && IsActive(req.status) && ap0.startedAt.None? then
        ap0.(startedAt := Some(now), enabled := true, paused := false)
      else ap0;
    s.(events := Some(events), autoProgress := Some(ap1))
  }

  /** The current-location step, on the journaled record `j` of `s`. */
  function Relocated(s: Shipment, j: Shipment, req: StatusRequest, now: Time, env: Env): (r: Shipment)
    requires j.autoProgress.Some?
    ensures Untouched(j, r) && r.events == j.events && r.status == j.status && r.deliveredAt == j.deliveredAt
    ensures r.autoProgress.Some?
  {
    var ap1 := j.autoProgress.value;
    if req.status == "delivered" then
      j.(currentLocation := Some(EndpointLocation(RecipientAddress(s), req.location)))
    else if req.status == "pending" then
      j.(currentLocation := Some(EndpointLocation(SenderAddress(s), req.location)),
         autoProgress := Some(ap1.(startedAt := None)))
    else if TruthyStr(req.location) && Trim(req.location.value) != "" then
      j.(currentLocation := Some(TypedLocation(s, req.location.value)))
    else if IsActive(req.status) && ap1.enabled && !ap1.paused then
      AutoAdvanced(j, now, env)
    else j
  }

  /** The record after a successful status update. */
  function StatusUpdated(s: Shipment, req: StatusRequest, now: Time, eventId: string, env: Env): (r: Shipment)
    requires s.events.Some?
    ensures r.status == req.status && r.updatedAt == Some(now)
    ensures r.events == Some(ClosedEvents(s.events.value) + [StatusEvent(s, req, now, eventId)])
    ensures r.deliveredAt == (if req.status == "delivered" then Some(now) else s.deliveredAt)
    ensures Untouched(s, r) && r.autoProgress.Some?
  {
    var r := Relocated(s, Journaled(s, req, now, eventId), req, now, env);
    r.(status := req.status, updatedAt := Some(now),
       deliveredAt := if req.status == "delivered" then Some(now) else r.deliveredAt)
  }

  /** The handler on the in-memory list: find the record by the upper-cased
      tracking id, then rewrite it step by step. */
  method UpdateStatus(store: ShipmentStore, trackingId: string, req: StatusRequest, now: Time, eventId: string, env: Env)
      returns (result: HandlerResult)
    modifies store
    ensures var i := IndexOf(old(store.shipments), ToUpper(trackingId));
      && (i.None? ==> result == NotFound && store.shipments == old(store.shipments))
      && (i.Some? && old(store.shipments)[i.value].events.None? ==>
            result == ServerError && store.shipments == old(store.shipments))
      && (i.Some? && old(store.shipments)[i.value].events.Some? ==>
            var s' := StatusUpdated(old(store.shipments)[i.value], req, now, eventId, env);
            result == Updated(s') && store.shipments == old(store.shipments)[i.value := s'])
  {
    var index := IndexOf(store.shipments, ToUpper(trackingId));
    if index.None? {
      return NotFound;
    }
    var i := index.value;
    var s := store.shipments[i];
    if s.events.None? {
      return ServerError;
    }

    // shipment.events.forEach(event => { completed = true; current = false })
    var events := s.events.value;
    var k := 0;
    while k < |events|
      invariant 0 <= k <= |events| && |events| == |s.events.value|
      invariant forall j :: 0 <= j < k ==> events[j] == Closed(s.events.value[j])
      invariant forall j :: k <= j < |events| ==> events[j] == s.events.value[j]
    {
      events := events[k := Closed(events[k])];
      k := k + 1;
    }
    assert events == ClosedEvents(s.events.value);
    events := events + [StatusEvent(s, req, now, eventId)];

    var ap := s.autoProgress.GetOr(DEFAULT_AUTO_PROGRESS);
    if s.status == "pending" && IsActive(req.status) && ap.startedAt.None? {
      ap := ap.(startedAt := Some(now), enabled := true, paused := false);
    }
    var t := s.(events := Some(events), autoProgress := Some(ap));
    assert t == Journaled(s, req, now, eventId);
    ghost var j := t;

    if req.status == "delivered" {
      t := t.(currentLocation := Some(EndpointLocation(RecipientAddress(s), req.location)));
    } else if req.status == "pending" {
      t := t.(currentLocation := Some(EndpointLocation(SenderAddress(s), req.location)));
      t := t.(autoProgress := Some(ap.(startedAt := None)));
    } else if TruthyStr(req.location) && Trim(req.location.value) != "" {
      t := t.(currentLocation := Some(TypedLocation(s, req.location.value)));
    } else if IsActive(req.status) && ap.enabled && !ap.paused {
      t := AutoAdvanced(t, now, env);
    }

    assert t == Relocated(s, j, req, now, env);
    t := t.(status := req.status, updatedAt := Some(now));
    if req.status == "delivered" {
      t := t.(deliveredAt := Some(now));
    }
    store.shipments := store.shipments[i := t];
    return Updated(t);
  }
}
