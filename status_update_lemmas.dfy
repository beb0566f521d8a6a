/** Properties of the status-update handler's record rewrite. */
module StatusUpdateLemmas {
  import opened Wrappers
  import opened Js
  import opened ShipmentModel
  import opened Progression
  import opened StatusUpdate

  /** The previous history is closed, entry by entry, and exactly one event
      is appended: the new status, completed exactly when delivered. */
  lemma HistoryRewritten(s: Shipment, req: StatusRequest, now: Time, eventId: string, env: Env)
    requires s.events.Some?
    ensures var r := StatusUpdated(s, req, now, eventId, env);
      && r.events.Some?
      && |r.events.value| == |s.events.value| + 1
      && (forall i :: 0 <= i < |s.events.value| ==> r.events.value[i] == Closed(s.events.value[i]))
      && r.events.value[|s.events.value|] == StatusEvent(s, req, now, eventId)
      && r.events.value[|s.events.value|].completed == (req.status == "delivered")
  {
  }

  /** The record takes the requested status and the update time; its
      identity and parties are untouched; only a delivery stamps
      `deliveredAt`. */
  lemma StampsAndIdentity(s: Shipment, req: StatusRequest, now: Time, eventId: string, env: Env)
    requires s.events.Some?
    ensures var r := StatusUpdated(s, req, now, eventId, env);
      && r.status == req.status && r.updatedAt == Some(now)
      && r.trackingId == s.trackingId && r.id == s.id && r.createdAt == s.createdAt
      && r.sender == s.sender && r.recipient == s.recipient
      && r.package == s.package && r.service == s.service && r.cost == s.cost
      && r.estimatedDelivery == s.estimatedDelivery && r.receipt == s.receipt
      && r.deliveredAt == (if req.status == "delivered" then Some(now) else s.deliveredAt)
  {
  }

  /** A pending shipment that becomes active with no start time gets one
      now; auto progress is switched on and unpaused. */
  lemma ClockStartsOnActivation(s: Shipment, req: StatusRequest, now: Time, eventId: string, env: Env)
    requires s.events.Some?
    requires s.status == "pending" && IsActive(req.status)
    requires s.autoProgress.GetOr(DEFAULT_AUTO_PROGRESS).startedAt.None?
    ensures var ap := StatusUpdated(s, req, now, eventId, env).autoProgress;
      ap.Some? && ap.value.startedAt == Some(now) && ap.value.enabled && !ap.value.paused
  {
  }

  /** Reverting to pending clears the start time. */
  lemma ClockClearedOnPending(s: Shipment, req: StatusRequest, now: Time, eventId: string, env: Env)
    requires s.events.Some? && req.status == "pending"
    ensures var ap := StatusUpdated(s, req, now, eventId, env).autoProgress;
      ap.Some? && ap.value.startedAt.None?
  {
  }

  /** Any other status keeps an existing start time. */
  lemma ClockKept(s: Shipment, req: StatusRequest, now: Time, eventId: string, env: Env)
    requires s.events.Some? && req.status != "pending"
    requires s.autoProgress.GetOr(DEFAULT_AUTO_PROGRESS).startedAt.Some?
    ensures var ap := StatusUpdated(s, req, now, eventId, env).autoProgress;
      ap.Some? && ap.value.startedAt == s.autoProgress.GetOr(DEFAULT_AUTO_PROGRESS).startedAt
  {
  }

  /** A start time appears only for an active status, and it is the time of
      the update. */
  lemma ClockStartsOnlyWhenActive(s: Shipment, req: StatusRequest, now: Time, eventId: string, env: Env)
    requires s.events.Some?
    requires s.autoProgress.GetOr(DEFAULT_AUTO_PROGRESS).startedAt.None?
    requires StatusUpdated(s, req, now, eventId, env).autoProgress.value.startedAt.Some?
    ensures StatusUpdated(s, req, now, eventId, env).autoProgress.value.startedAt == Some(now)
    ensures IsActive(req.status)
  {
  }

  /** On delivery the current location becomes the recipient's city (else
      the typed location, else ''), at the recipient's own coordinates when
      it has both. */
  lemma DeliveredAtRecipient(s: Shipment, req: StatusRequest, now: Time, eventId: string, env: Env)
    requires s.events.Some? && req.status == "delivered"
    ensures var r := StatusUpdated(s, req, now, eventId, env);
      var d := RecipientAddress(s);
      && r.currentLocation.Some?
      && r.currentLocation.value.city == (if CityOf(d) != "" then CityOf(d) else StrOr(req.location, ""))
      && (TruthyNum(LatOf(d)) && TruthyNum(LngOf(d)) ==>
            r.currentLocation.value.lat == LatOf(d) && r.currentLocation.value.lng == LngOf(d))
      && r.deliveredAt == Some(now)
  {
  }

  /** Back to pending, the current location becomes the sender's city. */
  lemma PendingAtSender(s: Shipment, req: StatusRequest, now: Time, eventId: string, env: Env)
    requires s.events.Some? && req.status == "pending"
    ensures var r := StatusUpdated(s, req, now, eventId, env);
      var o := SenderAddress(s);
      && r.currentLocation.Some?
      && r.currentLocation.value.city == (if CityOf(o) != "" then CityOf(o) else StrOr(req.location, ""))
      && (TruthyNum(LatOf(o)) && TruthyNum(LngOf(o)) ==>
            r.currentLocation.value.lat == LatOf(o) && r.currentLocation.value.lng == LngOf(o))
  {
  }

  /** For any other status, a location typed by the admin becomes the
      current city, and the progression clock is not consulted. */
  lemma TypedLocationWins(s: Shipment, req: StatusRequest, now: Time, eventId: string, env: Env)
    requires s.events.Some? && IsActive(req.status)
    requires TruthyStr(req.location) && Trim(req.location.value) != ""
    ensures var r := StatusUpdated(s, req, now, eventId, env);
      && r.currentLocation.Some? && r.currentLocation.value.city == req.location.value
      && r.autoProgress.value.lastUpdate == s.autoProgress.GetOr(DEFAULT_AUTO_PROGRESS).lastUpdate
      && r.routeGeometry == s.routeGeometry
  {
  }

  /** Without a typed location, an active, enabled, unpaused shipment is
      moved by the engine: the location changes only together with a fresh
      `lastUpdate`. */
  lemma EngineMovesOnlyWithLastUpdate(s: Shipment, req: StatusRequest, now: Time, eventId: string, env: Env)
    requires s.events.Some? && IsActive(req.status)
    requires !(TruthyStr(req.location) && Trim(req.location.value) != "")
    ensures var r := StatusUpdated(s, req, now, eventId, env);
      r.currentLocation != s.currentLocation ==> r.autoProgress.value.lastUpdate == Some(now)
  {
  }

  /** Without a typed location, an active shipment whose clock is enabled
      and unpaused is moved to the engine's answer for the journaled record
      with its clock started, and keeps any route the engine fetched; when
      the engine has no answer the shipment stays where it was. */
  lemma EngineMovesShipment(s: Shipment, req: StatusRequest, now: Time, eventId: string, env: Env)
    requires s.events.Some? && IsActive(req.status)
    requires !(TruthyStr(req.location) && Trim(req.location.value) != "")
    requires s.autoProgress.GetOr(DEFAULT_AUTO_PROGRESS).enabled && !s.autoProgress.GetOr(DEFAULT_AUTO_PROGRESS).paused
    ensures var r := StatusUpdated(s, req, now, eventId, env);
      var engineInput := ClockStarted(Journaled(s, req, now, eventId), now);
      var pos := ComputeProgress(engineInput, now, env);
      && (pos.Some? ==> r.currentLocation == Some(pos.value.location) && r.autoProgress.value.lastUpdate == Some(now))
      && (pos.None? ==> r.currentLocation == s.currentLocation)
      && r.routeGeometry == WithCachedRoute(engineInput, env).routeGeometry
      && r.routeDistanceMiles == WithCachedRoute(engineInput, env).routeDistanceMiles
      && r.autoProgress.value.pausedDuration == s.autoProgress.GetOr(DEFAULT_AUTO_PROGRESS).pausedDuration
  {
  }

  /** The engine runs under the previous status: reopening a delivered
      shipment without a typed location leaves it where it was. */
  lemma ReopenedDeliveryStaysPut(s: Shipment, req: StatusRequest, now: Time, eventId: string, env: Env)
    requires s.events.Some? && s.status == "delivered" && IsActive(req.status)
    requires !(TruthyStr(req.location) && Trim(req.location.value) != "")
    ensures StatusUpdated(s, req, now, eventId, env).currentLocation == s.currentLocation
  {
  }
}
