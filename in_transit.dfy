/** The maintenance script that forces a shipment into transit and starts
    (or keeps) its progression clock. The event id and the clock are
    parameters; an unknown tracking id is reported as `NotFound` where the
    script throws. */
module InTransit {
  import opened Wrappers
  import opened Js
  import opened ShipmentModel
  import opened StatusUpdate

  /** `location: currentLocation?.city || sender?.address?.city || 'In Transit'`. */
  function ForcedEventCity(s: Shipment): (r: string)
    ensures r != ""
    ensures CurrentCity(s) != "" ==> r == CurrentCity(s)
  {
    if CurrentCity(s) != "" then CurrentCity(s)
    else if CityOf(SenderAddress(s)) != "" then CityOf(SenderAddress(s))
    else "In Transit"
  }

  /** The journal entry the script appends. */
  function ForcedEvent(s: Shipment, now: Time, eventId: string): (e: Event)
    ensures e.id == eventId && e.status == "in_transit" && e.timestamp == Some(now)
    ensures e.current && !e.completed && e.location == ForcedEventCity(s)
  {
    Event(eventId, "in_transit", "Shipment In Transit", "Shipment forced into transit for testing",
          ForcedEventCity(s), Some(now), false, true)
  }

  /** The clock record: running and unpaused, with the paused total and the
      start time kept when present. An absent record reads as the default
      one, which agrees with `{}` on every field the script keeps. */
  function ForcedClock(s: Shipment, now: Time): (r: AutoProgress)
    ensures r.enabled && !r.paused && r.pausedAt.None? && r.pauseReason.None?
    ensures r.lastUpdate == Some(now)
    ensures r.startedAt.Some?
    ensures s.autoProgress.Some? && s.autoProgress.value.startedAt.Some? ==> r.startedAt == s.autoProgress.value.startedAt
    ensures s.autoProgress.None? || s.autoProgress.value.startedAt.None? ==> r.startedAt == Some(now)
    ensures r.pausedDuration == (if s.autoProgress.Some? then s.autoProgress.value.pausedDuration else 0)
  {
    var ap := s.autoProgress.GetOr(DEFAULT_AUTO_PROGRESS);
    ap.(enabled := true, paused := false, pausedAt := None, pauseReason := None,
        startedAt := if ap.startedAt.Some? then ap.startedAt else Some(now),
        lastUpdate := Some(now))
  }

  /** A current location without truthy coordinates is replaced by the
      sender's when both endpoints have a truthy latitude. */
  predicate NeedsLocation(s: Shipment)
    ensures s.currentLocation.Some? && TruthyNum(s.currentLocation.value.lat) && TruthyNum(s.currentLocation.value.lng) ==>
      !NeedsLocation(s)
    ensures NeedsLocation(s) ==> LatOf(SenderAddress(s)).Some? && LatOf(SenderAddress(s)).value != 0.0
    ensures NeedsLocation(s) ==> LatOf(RecipientAddress(s)).Some? && LatOf(RecipientAddress(s)).value != 0.0
  {
    (s.currentLocation.None? || !TruthyNum(s.currentLocation.value.lat) || !TruthyNum(s.currentLocation.value.lng))
    && TruthyNum(LatOf(SenderAddress(s))) && TruthyNum(LatOf(RecipientAddress(s)))
  }

  /** The sender's coordinates, labelled with the sender's city or 'Origin'. */
  function OriginLocation(s: Shipment): (r: Location)
    ensures r.lat == LatOf(SenderAddress(s)) && r.lng == LngOf(SenderAddress(s))
    ensures r.city != ""
    ensures CityOf(SenderAddress(s)) != "" ==> r.city == CityOf(SenderAddress(s))
  {
    var o := SenderAddress(s);
    Location(LatOf(o), LngOf(o), if CityOf(o) != "" then CityOf(o) else "Origin")
  }

  /** The record as the script leaves it. */
  function ForcedInTransit(s: Shipment, now: Time, eventId: string): (r: Shipment)
    ensures r.status == "in_transit" && r.updatedAt == Some(now) && r.autoProgress == Some(ForcedClock(s, now))
    ensures r.events == Some(ClosedEvents(if s.events.Some? then s.events.value else []) + [ForcedEvent(s, now, eventId)])
    ensures r.currentLocation == (if NeedsLocation(s) then Some(OriginLocation(s)) else s.currentLocation)
    ensures r == s.(status := r.status, updatedAt := r.updatedAt, autoProgress := r.autoProgress,
                    events := r.events, currentLocation := r.currentLocation)
  {
    var history := if s.events.Some? then s.events.value else [];
    s.(status := "in_transit", updatedAt := Some(now),
       autoProgress := Some(ForcedClock(s, now)),
       events := Some(ClosedEvents(history) + [ForcedEvent(s, now, eventId)]),
       currentLocation := if NeedsLocation(s) then Some(OriginLocation(s)) else s.currentLocation)
  }

  /** `setInTransit(trackingId)` on the in-memory list: the id is trimmed and
      upper-cased before the lookup. */
  method SetInTransit(store: ShipmentStore, trackingId: string, now: Time, eventId: string)
      returns (result: HandlerResult)
    modifies store
    ensures var i := IndexOf(old(store.shipments), ToUpper(Trim(trackingId)));
      && (i.None? ==> result == NotFound && store.shipments == old(store.shipments))
      && (i.Some? ==>
            var s' := ForcedInTransit(old(store.shipments)[i.value], now, eventId);
            result == Updated(s') && store.shipments == old(store.shipments)[i.value := s'])
  {
    var normalized := ToUpper(Trim(trackingId));
    var index := IndexOf(store.shipments, normalized);
    if index.None? {
      return NotFound;
    }
    var i := index.value;
    var s := store.shipments[i];

    var ap := s.autoProgress.GetOr(DEFAULT_AUTO_PROGRESS);
    ap := ap.(enabled := true, paused := false, pausedAt := None, pauseReason := None);
    if ap.startedAt.None? {
      ap := ap.(startedAt := Some(now));
    }
    ap := ap.(lastUpdate := Some(now));

    var history := if s.events.Some? then s.events.value else [];
    var events := history;
    var k := 0;
    while k < |events|
      invariant 0 <= k <= |events| && |events| == |history|
      invariant forall j :: 0 <= j < k ==> events[j] == Closed(history[j])
      invariant forall j :: k <= j < |events| ==> events[j] == history[j]
    {
      events := events[k := Closed(events[k])];
      k := k + 1;
    }
    assert events == ClosedEvents(history);
    events := events + [ForcedEvent(s, now, eventId)];

    var t := s.(status := "in_transit", updatedAt := Some(now), autoProgress := Some(ap), events := Some(events));
    if NeedsLocation(s) {
      t := t.(currentLocation := Some(OriginLocation(s)));
    }
    store.shipments := store.shipments[i := t];
    return Updated(t);
  }
}
