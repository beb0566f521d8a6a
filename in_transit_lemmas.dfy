/** Properties of the set-in-transit script, alone and together with the
    progression engine. */
module InTransitLemmas {
  import opened Wrappers
  import opened Js
  import opened ShipmentModel
  import opened Progression
  import opened ProgressionLemmas
  import opened StatusUpdate
  import opened InTransit

  /** The record is in transit, stamped now, its history closed with one
      open in-transit event appended (an absent history reads as empty),
      and its identity and parties are untouched. */
  lemma ForcedInTransitEffect(s: Shipment, now: Time, eventId: string)
    ensures var r := ForcedInTransit(s, now, eventId);
      var history := if s.events.Some? then s.events.value else [];
      && Untouched(s, r)
      && r.status == "in_transit" && r.updatedAt == Some(now)
      && r.events.Some? && |r.events.value| == |history| + 1
      && (forall i :: 0 <= i < |history| ==> r.events.value[i] == Closed(history[i]))
      && r.events.value[|history|].status == "in_transit"
      && r.events.value[|history|].current && !r.events.value[|history|].completed
      && r.events.value[|history|].location != ""
  {
  }

  /** A current location with truthy coordinates is kept; one without them
      moves to the sender's coordinates only when both endpoints are
      located. */
  lemma LocationOnlyFilledIn(s: Shipment, now: Time, eventId: string)
    ensures var r := ForcedInTransit(s, now, eventId);
      && ((s.currentLocation.Some? && TruthyNum(s.currentLocation.value.lat) && TruthyNum(s.currentLocation.value.lng))
            ==> r.currentLocation == s.currentLocation)
      && (r.currentLocation != s.currentLocation ==>
            && r.currentLocation.Some?
            && r.currentLocation.value.lat == LatOf(SenderAddress(s))
            && r.currentLocation.value.lng == LngOf(SenderAddress(s))
            && TruthyNum(LatOf(RecipientAddress(s))))
  {
  }

  /** Running the script again never restarts the clock nor loses paused
      time. */
  lemma RerunKeepsClock(s: Shipment, t1: Time, t2: Time, id1: string, id2: string)
    ensures var r1 := ForcedInTransit(s, t1, id1);
      var r2 := ForcedInTransit(r1, t2, id2);
      && r2.autoProgress.value.startedAt == r1.autoProgress.value.startedAt
      && r2.autoProgress.value.pausedDuration == r1.autoProgress.value.pausedDuration
      && r2.autoProgress.value.lastUpdate == Some(t2)
  {
  }

  /** Once both endpoints are located, the forced record is one the engine
      moves: on a clock started by the script the engine reports the start of
      the route (or the sender's coordinates without one) at zero progress. */
  lemma FreshTransitStartsAtOrigin(s: Shipment, now: Time, eventId: string, env: Env)
    requires TruthyNum(LatOf(SenderAddress(s))) && TruthyNum(LatOf(RecipientAddress(s)))
    requires s.autoProgress.None? || (s.autoProgress.value.startedAt.None? && s.autoProgress.value.pausedDuration >= 0)
    ensures var r := ForcedInTransit(s, now, eventId);
      && Eligible(r)
      && ComputeProgress(r, now, env) == Some(MovingUpdate(r, env, 0.0))
      && var route := RouteGeometry(r, env);
      && (route.Some? && route.value != [] ==> PositionAt(r, env, 0.0) == route.value[0])
      && (route.None? || route.value == [] ==>
            PositionAt(r, env, 0.0) == Point(NumOr0(LatOf(SenderAddress(s))), NumOr0(LngOf(SenderAddress(s)))))
  {
    var r := ForcedInTransit(s, now, eventId);
    var ap := r.autoProgress.value;
    assert StartTime(ap, r) == Some(now);
    assert EffectiveHours(ap, now, now) == 0.0;
    assert HandlingProgress(0.0) == 0.0;
    var route := RouteGeometry(r, env);
    if route.Some? && route.value != [] {
      PointOnRouteEnds(route.value, 0.0);
    }
  }
}
