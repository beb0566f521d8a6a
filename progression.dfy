/** The automatic progression engine: from a shipment snapshot and the
    current time it computes a simulated position along the route, or
    nothing when the shipment should not move.

    The three outside services are inputs: the road route the routing
    service would return for the two endpoints (when the shipment has no
    cached one), the great-circle distance between the endpoints, and the
    nearest-city lookup for a coordinate pair. */
module Progression {
  import opened Wrappers
  import opened Js
  import opened ShipmentModel

  const TRUCK_SPEED_MPH: real := 55.0
  const MIN_MILES_PER_MINUTE: real := 1.0
  const DAILY_DRIVING_HOURS: real := 11.0
  const HANDLING_DELAY_HOURS: real := 4.0
  /** The share of the trip reported at the end of the handling delay. */
  const HANDLING_CREEP: real := 0.05
  const MS_PER_HOUR: real := 3600000.0

  /** What the routing service answers: the polyline and its length. */
  datatype RouteData = RouteData(geometry: seq<Point>, distanceMiles: real)

  /** The engine's collaborators, fixed for one call. */
  datatype Env = Env(
    fetchedRoute: Option<RouteData>,
    directMiles: real,
    nearest: (real, real) -> string)

  /** A computed position and the share of the trip it stands for. */
  datatype Update = Update(location: Location, progress: real)

  // ------------------------------------------------------ route geometry

  function Clamp01(p: real): (r: real)
    ensures 0.0 <= r <= 1.0
    ensures 0.0 <= p <= 1.0 ==> r == p
    ensures p <= 0.0 ==> r == 0.0
    ensures p >= 1.0 ==> r == 1.0
  {
    Max(0.0, Min(1.0, p))
  }

  /** `a + (b - a) * f`. */
  function Lerp(a: real, b: real, f: real): real {
    a + (b - a) * f
  }

  function LerpPoint(a: Point, b: Point, f: real): Point {
    Point(Lerp(a.lat, b.lat, f), Lerp(a.lng, b.lng, f))
  }

  /** Index of the segment a clamped progress falls in: `floor(p * (n - 1))`. */
  function SegmentIndex(p: real, n: nat): (i: int)
    requires 0.0 <= p <= 1.0 && n >= 1
    ensures 0 <= i <= n - 1
    ensures p < 1.0 && n >= 2 ==> i < n - 1
  {
    ScaleBounds(p, (n - 1) as real);
    (p * (n - 1) as real).Floor
  }

  /** `getPointOnRoute`: the point a share `progress` of the way along the
      polyline, measured in vertices, interpolating inside a segment. */
  function PointOnRoute(route: seq<Point>, progress: real): (r: Option<Point>)
    ensures r.None? <==> route == []
  {
    if route == [] then None
    else
      var n := |route|;
      var p := Clamp01(progress);
      var index := SegmentIndex(p, n);
      var fraction := p * (n - 1) as real - index as real;
      if index >= n - 1 then Some(route[n - 1])
      else Some(LerpPoint(route[index], route[index + 1], fraction))
  }

  lemma ScaleBounds(p: real, m: real)
    requires 0.0 <= p <= 1.0 && m >= 0.0
    ensures 0.0 <= p * m <= m
    ensures p < 1.0 && m > 0.0 ==> p * m < m
  {
    assert p * m <= 1.0 * m;
    if p < 1.0 && m > 0.0 {
      assert (1.0 - p) * m > 0.0;
    }
  }

  // ------------------------------------------------------ timing model

  /** `events.find(e => e.status && e.status !== 'pending')`. */
  function FirstActiveEvent(events: seq<Event>): (r: Option<Event>)
    ensures r.Some? ==> r.value in events && r.value.status != "" && r.value.status != "pending"
    ensures r.Some? ==> exists i ::
      && 0 <= i < |events| && events[i] == r.value
      && (forall j :: 0 <= j < i ==> events[j].status == "" || events[j].status == "pending")
    ensures r.None? ==> forall e :: e in events ==> e.status == "" || e.status == "pending"
    decreases |events|
  {
    if events == [] then None
    else if events[0].status != "" && events[0].status != "pending" then Some(events[0])
    else FirstActiveEvent(events[1..])
  }

  /** The start of the clock: `autoProgress.startedAt`, else `createdAt`,
      else the timestamp of the first event that is not pending. */
  function StartTime(ap: AutoProgress, s: Shipment): (r: Option<Time>)
    ensures ap.startedAt.Some? ==> r == ap.startedAt
    ensures ap.startedAt.None? && s.createdAt.Some? ==> r == s.createdAt
    ensures ap.startedAt.None? && s.createdAt.None? ==>
      r == (if s.events.Some? && FirstActiveEvent(s.events.value).Some?
            then FirstActiveEvent(s.events.value).value.timestamp else None)
  {
    if ap.startedAt.Some? then ap.startedAt
    else if s.createdAt.Some? then s.createdAt
    else if s.events.Some? && |s.events.value| > 0 then
      match FirstActiveEvent(s.events.value)
      case Some(e) => e.timestamp
      case None => None
    else None
  }

  function Hours(ms: int): real {
    ms as real / MS_PER_HOUR
  }

  /** Stored paused time plus, while paused, the running pause. */
  function PausedHours(ap: AutoProgress, now: Time): (r: real)
    ensures !(ap.paused && ap.pausedAt.Some?) ==> r == Hours(ap.pausedDuration)
    ensures r >= Hours(ap.pausedDuration)
    ensures ap.paused && ap.pausedAt.Some? && now >= ap.pausedAt.value ==>
      r == Hours(ap.pausedDuration) + Hours(now - ap.pausedAt.value)
  {
    Hours(ap.pausedDuration) +
    (if ap.paused && ap.pausedAt.Some? then Max(0.0, Hours(now - ap.pausedAt.value)) else 0.0)
  }

  /** Hours the shipment has been moving: wall-clock time since the start
      less paused time, never negative. */
  function EffectiveHours(ap: AutoProgress, start: Time, now: Time): (r: real)
    ensures r >= 0.0
    ensures r <= Max(0.0, Hours(now - start) - Hours(ap.pausedDuration))
    ensures !ap.paused || ap.pausedAt.None? ==> r == Max(0.0, Hours(now - start) - Hours(ap.pausedDuration))
  {
    Max(0.0, Hours(now - start) - PausedHours(ap, now))
  }

  /** The creep reported during the handling delay. */
  function HandlingProgress(e: real): (r: real)
    ensures 0.0 <= e ==> 0.0 <= r <= HANDLING_CREEP
    ensures 0.0 < e ==> 0.0 < r
    ensures e <= HANDLING_DELAY_HOURS ==> r == e * HANDLING_CREEP / HANDLING_DELAY_HOURS
    ensures e >= HANDLING_DELAY_HOURS ==> r == HANDLING_CREEP
  {
    Min(HANDLING_CREEP, e / HANDLING_DELAY_HOURS * HANDLING_CREEP)
  }

  /** Hours driven in a driving window under the daily duty cycle: each full
      day contributes the daily cap, the partial day at most the cap. */
  function DrivingHours(window: real): (r: real)
    ensures 0.0 <= window < 24.0 ==> r == Min(DAILY_DRIVING_HOURS, window)
  {
    assert 0.0 <= window < 24.0 ==> (window / 24.0).Floor == 0;
    var fullDays := (window / 24.0).Floor;
    var remainder := window - fullDays as real * 24.0;
    fullDays as real * DAILY_DRIVING_HOURS + Min(DAILY_DRIVING_HOURS, remainder)
  }

  /** The progress estimate of the driving phase: the duty-cycle share,
      floored by the minimum-speed share, capped at 1. */
  function DrivingProgress(window: real, total: real): (r: real)
    requires total != 0.0
    ensures 0.0 <= r <= 1.0
  {
    var required := total / TRUCK_SPEED_MPH;
    var dutyCycle := Min(1.0, Max(0.0, DrivingHours(window) / required));
    MinSpeedProgress(window, total, dutyCycle)
  }

  function MinSpeedShare(window: real, total: real): real {
    var minutes := Max(0.0, window * 60.0);
    if total > 0.0 then Min(1.0, minutes * MIN_MILES_PER_MINUTE / total) else 0.0
  }

  function MinSpeedProgress(window: real, total: real, dutyCycle: real): real {
    Min(1.0, Max(dutyCycle, MinSpeedShare(window, total)))
  }

  // ------------------------------------------------------ route selection

  /** The polyline the engine uses: the cached one, else the fetched one. */
  function RouteGeometry(s: Shipment, env: Env): Option<seq<Point>> {
    if s.routeGeometry.Some? then s.routeGeometry
    else if env.fetchedRoute.Some? then Some(env.fetchedRoute.value.geometry)
    else None
  }

  function RouteMiles(s: Shipment, env: Env): Option<real> {
    if s.routeGeometry.None? && env.fetchedRoute.Some? then Some(env.fetchedRoute.value.distanceMiles)
    else s.routeDistanceMiles
  }

  /** `routeDistanceMiles || haversine(origin, destination)`. */
  function TotalMiles(s: Shipment, env: Env): (r: real)
    ensures s.routeGeometry.Some? || env.fetchedRoute.None? ==>
      r == (if TruthyNum(s.routeDistanceMiles) then s.routeDistanceMiles.value else env.directMiles)
    ensures s.routeGeometry.None? && env.fetchedRoute.Some? ==>
      r == (if env.fetchedRoute.value.distanceMiles != 0.0 then env.fetchedRoute.value.distanceMiles else env.directMiles)
  {
    var m := RouteMiles(s, env);
    if TruthyNum(m) then m.value else env.directMiles
  }

  /** The shipment after the engine has cached a freshly fetched route on it
      (the routing call happens once the first checks have passed). */
  function WithCachedRoute(s: Shipment, env: Env): (r: Shipment)
    ensures Eligible(s) && s.routeGeometry.None? && env.fetchedRoute.Some? ==>
      && r.routeGeometry == Some(env.fetchedRoute.value.geometry)
      && r.routeDistanceMiles == Some(env.fetchedRoute.value.distanceMiles)
      && r == s.(routeGeometry := r.routeGeometry, routeDistanceMiles := r.routeDistanceMiles)
    ensures !(Eligible(s) && s.routeGeometry.None? && env.fetchedRoute.Some?) ==> r == s
  {
    if Eligible(s) && s.routeGeometry.None? && env.fetchedRoute.Some? then
      s.(routeGeometry := Some(env.fetchedRoute.value.geometry),
         routeDistanceMiles := Some(env.fetchedRoute.value.distanceMiles))
    else s
  }

  // ------------------------------------------------------ the engine

  /** `findNearestCity`: the lookup's label, or 'In Transit' without a point. */
  function NearestCity(lookup: (real, real) -> string, lat: Option<real>, lng: Option<real>): (r: string)
    ensures lat.None? || lng.None? ==> r == "In Transit"
  {
    if lat.None? || lng.None? then "In Transit" else lookup(lat.value, lng.value)
  }

  /** Auto progress on, not delivered, both endpoint latitudes truthy. */
  predicate Eligible(s: Shipment)
    ensures Eligible(s) ==> s.autoProgress.Some? && s.autoProgress.value.enabled
    ensures s.status == "delivered" ==> !Eligible(s)
    ensures Eligible(s) ==> LatOf(SenderAddress(s)).Some? && LatOf(SenderAddress(s)).value != 0.0
    ensures Eligible(s) ==> LatOf(RecipientAddress(s)).Some? && LatOf(RecipientAddress(s)).value != 0.0
  {
    s.autoProgress.Some? && s.autoProgress.value.enabled && s.status != "delivered" &&
    TruthyNum(LatOf(SenderAddress(s))) && TruthyNum(LatOf(RecipientAddress(s)))
  }

  /** The position a share `p` of the way: on the route when there is a
      non-empty one, else on the straight line between the endpoints. */
  function PositionAt(s: Shipment, env: Env, p: real): (r: Point)
    ensures RouteGeometry(s, env).Some? && |RouteGeometry(s, env).value| > 0 ==>
      r == PointOnRoute(RouteGeometry(s, env).value, p).value
    ensures !(RouteGeometry(s, env).Some? && |RouteGeometry(s, env).value| > 0) ==>
      r == LerpPoint(EndpointPoint(SenderAddress(s)), EndpointPoint(RecipientAddress(s)), p)
    ensures !(RouteGeometry(s, env).Some? && |RouteGeometry(s, env).value| > 0) && p == 0.0 ==>
      r == EndpointPoint(SenderAddress(s))
  {
    var route := RouteGeometry(s, env);
    if route.Some? && |route.value| > 0 then PointOnRoute(route.value, p).value
    else LerpPoint(EndpointPoint(SenderAddress(s)), EndpointPoint(RecipientAddress(s)), p)
  }

  /** An endpoint's coordinates as the arithmetic reads them (`null` is 0). */
  function EndpointPoint(a: Option<Address>): Point {
    Point(NumOr0(LatOf(a)), NumOr0(LngOf(a)))
  }

  /** The update for a shipment still on its way: the position a share `p`
      of the way, labelled with the nearest city to that very point. */
  function MovingUpdate(s: Shipment, env: Env, p: real): (r: Update)
    ensures r.progress == p
    ensures r.location.lat == Some(PositionAt(s, env, p).lat)
    ensures r.location.lng == Some(PositionAt(s, env, p).lng)
    ensures r.location.city == env.nearest(r.location.lat.value, r.location.lng.value)
  {
    var pt := PositionAt(s, env, p);
    Update(Location(Some(pt.lat), Some(pt.lng), NearestCity(env.nearest, Some(pt.lat), Some(pt.lng))), p)
  }

  /** The update at the destination. */
  function ArrivedUpdate(s: Shipment): (r: Update)
    ensures r.progress == 1.0
    ensures r.location.lat == LatOf(RecipientAddress(s)) && r.location.lng == LngOf(RecipientAddress(s))
    ensures r.location.city == (if CityOf(RecipientAddress(s)) != "" then CityOf(RecipientAddress(s)) else "Destination")
  {
    var d := RecipientAddress(s);
    Update(Location(LatOf(d), LngOf(d), if CityOf(d) != "" then CityOf(d) else "Destination"), 1.0)
  }

  /** `calculateAutomaticProgression`, without the route caching (see
      WithCachedRoute). */
  function ComputeProgress(s: Shipment, now: Time, env: Env): (r: Option<Update>)
    ensures !Eligible(s) ==> r.None?
    ensures r.Some? ==> StartTime(s.autoProgress.value, s).Some? && StartTime(s.autoProgress.value, s).value <= now
  {
    if !Eligible(s) then None
    else
      var ap := s.autoProgress.value;
      match StartTime(ap, s)
      case None => None
      case Some(start) =>
        if Hours(now - start) < 0.0 then None
        else
          var e := EffectiveHours(ap, start, now);
          if e <= HANDLING_DELAY_HOURS then
            Some(MovingUpdate(s, env, HandlingProgress(e)))
          else
            var total := TotalMiles(s, env);
            if total == 0.0 then None
            else
              var p := DrivingProgress(e - HANDLING_DELAY_HOURS, total);
              if p >= 1.0 then Some(ArrivedUpdate(s))
              else Some(MovingUpdate(s, env, p))
  }
}
