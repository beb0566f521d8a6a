/** Properties of the progression engine: when it declines to move a
    shipment, the bounds of its progress in each phase, the duty cycle,
    the terminal snap, the effect of pausing, monotonicity in time within
    the driving phase (and its failure across the handling-delay boundary),
    and the route interpolation. */
module ProgressionLemmas {
  import opened Wrappers
  import opened Js
  import opened ShipmentModel
  import opened Progression

  // ------------------------------------------------------ arithmetic helpers

  lemma DivMonotone(a: real, b: real, c: real)
    requires a <= b && c > 0.0
    ensures a / c <= b / c
  {
    assert b / c - a / c == (b - a) / c;
  }

  lemma LerpBetween(a: real, b: real, f: real, lo: real, hi: real)
    requires 0.0 <= f <= 1.0
    requires lo <= a <= hi && lo <= b <= hi
    ensures lo <= Lerp(a, b, f) <= hi
  {
    var d := b - a;
    var m := d * f;
    assert Lerp(a, b, f) == a + m;
    if d >= 0.0 {
      assert 0.0 <= m <= d by { ScaleBounds(f, d); }
    } else {
      assert d <= m <= 0.0 by { ScaleBounds(f, -d); assert m == -(f * -d); }
    }
  }

  // ------------------------------------------------------ route geometry

  /** The interpolated point never leaves the latitude and longitude range
      spanned by the polyline's vertices. */
  lemma {:induction false} PointOnRouteWithinRange(route: seq<Point>, progress: real, lo: Point, hi: Point)
    requires route != []
    requires forall i :: 0 <= i < |route| ==> lo.lat <= route[i].lat <= hi.lat && lo.lng <= route[i].lng <= hi.lng
    ensures PointOnRoute(route, progress).Some?
    ensures lo.lat <= PointOnRoute(route, progress).value.lat <= hi.lat
    ensures lo.lng <= PointOnRoute(route, progress).value.lng <= hi.lng
  {
    var n := |route|;
    var p := Clamp01(progress);
    var index := SegmentIndex(p, n);
    var fraction := p * (n - 1) as real - index as real;
    if index < n - 1 {
      SegmentFraction(p, n);
      var a, b := route[index], route[index + 1];
      InSegment(route, progress);
      assert lo.lat <= a.lat <= hi.lat && lo.lng <= a.lng <= hi.lng;
      assert lo.lat <= b.lat <= hi.lat && lo.lng <= b.lng <= hi.lng;
      LerpBetween(a.lat, b.lat, fraction, lo.lat, hi.lat);
      LerpBetween(a.lng, b.lng, fraction, lo.lng, hi.lng);
    } else {
      assert PointOnRoute(route, progress) == Some(route[n - 1]);
    }
  }

  lemma InSegment(route: seq<Point>, progress: real)
    requires route != []
    requires SegmentIndex(Clamp01(progress), |route|) < |route| - 1
    ensures
      var p := Clamp01(progress);
      var index := SegmentIndex(p, |route|);
      PointOnRoute(route, progress)
        == Some(LerpPoint(route[index], route[index + 1], p * (|route| - 1) as real - index as real))
  {
  }

  /** The within-segment fraction lies in [0, 1). */
  lemma SegmentFraction(p: real, n: nat)
    requires 0.0 <= p <= 1.0 && n >= 1
    ensures 0.0 <= p * (n - 1) as real - SegmentIndex(p, n) as real < 1.0
  {
    FloorFraction(p * (n - 1) as real);
  }

  lemma FloorFraction(x: real)
    ensures 0.0 <= x - x.Floor as real < 1.0
  {
  }

  /** On a two-point route the polyline position is the straight-line
      interpolation between its ends (at the clamped progress). */
  lemma TwoPointRouteIsStraightLine(a: Point, b: Point, progress: real)
    ensures PointOnRoute([a, b], progress) == Some(LerpPoint(a, b, Clamp01(progress)))
  {
    var p := Clamp01(progress);
    var index := SegmentIndex(p, 2);
    if p < 1.0 {
      assert index == 0;
      assert p * 1.0 == p;
    } else {
      assert p == 1.0;
      assert b == LerpPoint(a, b, 1.0);
    }
  }

  /** The ends of the route: progress at or past 1 gives the last vertex,
      progress at or below 0 the first. */
  lemma PointOnRouteEnds(route: seq<Point>, progress: real)
    requires route != []
    ensures progress >= 1.0 ==> PointOnRoute(route, progress) == Some(route[|route| - 1])
    ensures progress <= 0.0 ==> PointOnRoute(route, progress) == Some(route[0])
  {
    var n := |route|;
    var p := Clamp01(progress);
    if progress <= 0.0 {
      assert p == 0.0;
      assert SegmentIndex(p, n) == 0;
      if n > 1 {
        assert LerpPoint(route[0], route[1], 0.0) == route[0];
      }
    }
  }

  /** Out-of-range progress is clamped before interpolation. */
  lemma PointOnRouteClamps(route: seq<Point>, progress: real)
    ensures PointOnRoute(route, progress) == PointOnRoute(route, Clamp01(progress))
  {
    assert Clamp01(Clamp01(progress)) == Clamp01(progress);
  }

  // ------------------------------------------------------ duty cycle

  lemma FloorFacts(w: real)
    requires w >= 0.0
    ensures 0 <= (w / 24.0).Floor
    ensures 0.0 <= w - (w / 24.0).Floor as real * 24.0 < 24.0
  {
  }

  /** The driven hours never exceed the driving window, and are never
      negative. */
  lemma DrivingHoursBounds(w: real)
    requires w >= 0.0
    ensures 0.0 <= DrivingHours(w) <= w
  {
    FloorFacts(w);
  }

  /** Driven hours grow with the window, across day boundaries too. */
  lemma DrivingHoursMonotone(w1: real, w2: real)
    requires 0.0 <= w1 <= w2
    ensures DrivingHours(w1) <= DrivingHours(w2)
  {
    FloorFacts(w1);
    FloorFacts(w2);
    var d1 := (w1 / 24.0).Floor;
    var d2 := (w2 / 24.0).Floor;
    DivMonotone(w1, w2, 24.0);
    assert d1 <= d2;
    if d1 < d2 {
      assert DrivingHours(w1) <= d1 as real * 11.0 + 11.0;
      assert (d1 + 1) as real * 11.0 <= d2 as real * 11.0;
    }
  }

  /** At one mile per minute the minimum-speed floor is faster than the
      55 mph truck, so on a route of positive length the driving-phase
      progress is exactly the minimum-speed share, capped at 1: the duty
      cycle never decides the result. */
  lemma MinimumSpeedDominates(w: real, total: real)
    requires w >= 0.0 && total > 0.0
    ensures DrivingProgress(w, total) == Min(1.0, w * 60.0 / total)
  {
    DrivingHoursBounds(w);
    var required := total / TRUCK_SPEED_MPH;
    var dh := DrivingHours(w);
    assert dh / required == dh * 55.0 / total;
    DivMonotone(dh * 55.0, w * 60.0, total);
    assert Max(0.0, w * 60.0) == w * 60.0;
  }

  /** On a route of negative length (a corrupt cached distance) the
      driving-phase progress is 0. */
  lemma NegativeDistanceProgress(w: real, total: real)
    requires w >= 0.0 && total < 0.0
    ensures DrivingProgress(w, total) == 0.0
  {
    DrivingHoursBounds(w);
    var required := total / TRUCK_SPEED_MPH;
    var dh := DrivingHours(w);
    assert dh / required == -(dh / -required);
    assert dh / -required >= 0.0;
  }

  /** The driving-phase progress lies in [0, 1], never below the
      minimum-speed share. */
  lemma DrivingProgressBounds(w: real, total: real)
    requires w >= 0.0 && total != 0.0
    ensures 0.0 <= DrivingProgress(w, total) <= 1.0
    ensures DrivingProgress(w, total) >= MinSpeedShare(w, total)
  {
    if total > 0.0 {
      MinimumSpeedDominates(w, total);
      assert w * 60.0 / total >= 0.0;
    } else {
      NegativeDistanceProgress(w, total);
    }
  }

  /** The driving-phase progress grows with the driving window. */
  lemma DrivingProgressMonotone(w1: real, w2: real, total: real)
    requires 0.0 <= w1 <= w2 && total != 0.0
    ensures DrivingProgress(w1, total) <= DrivingProgress(w2, total)
  {
    if total > 0.0 {
      MinimumSpeedDominates(w1, total);
      MinimumSpeedDominates(w2, total);
      DivMonotone(w1 * 60.0, w2 * 60.0, total);
    } else {
      NegativeDistanceProgress(w1, total);
      NegativeDistanceProgress(w2, total);
    }
  }

  // ------------------------------------------------------ time

  /** Effective elapsed time never decreases as the clock advances, paused
      or not. */
  lemma EffectiveHoursMonotone(ap: AutoProgress, start: Time, now1: Time, now2: Time)
    requires now1 <= now2
    ensures EffectiveHours(ap, start, now1) <= EffectiveHours(ap, start, now2)
  {
    if ap.paused && ap.pausedAt.Some? {
      var pa := ap.pausedAt.value;
      if now2 <= pa {
        assert EffectiveHours(ap, start, now1) == Max(0.0, Hours(now1 - start) - Hours(ap.pausedDuration));
      }
    }
  }

  /** While paused, effective elapsed time is the time run before the pause
      less the stored paused time, whatever the clock says. */
  lemma PausedEffectiveHours(ap: AutoProgress, start: Time, now: Time)
    requires ap.paused && ap.pausedAt.Some? && now >= ap.pausedAt.value
    ensures EffectiveHours(ap, start, now) == Max(0.0, Hours(ap.pausedAt.value - start - ap.pausedDuration))
  {
  }

  // ------------------------------------------------------ the engine

  /** The engine declines (returns null) exactly when auto progress is off,
      the shipment is delivered, an endpoint latitude is missing or 0, no
      start time can be found, the clock is before the start, or, past the
      handling delay, the total distance is 0. */
  lemma NoUpdateIff(s: Shipment, now: Time, env: Env)
    ensures ComputeProgress(s, now, env).None? <==>
      (s.autoProgress.None? || !s.autoProgress.value.enabled || s.status == "delivered" ||
       !TruthyNum(LatOf(SenderAddress(s))) || !TruthyNum(LatOf(RecipientAddress(s))) ||
       StartTime(s.autoProgress.value, s).None? ||
       now < StartTime(s.autoProgress.value, s).value ||
       (EffectiveHours(s.autoProgress.value, StartTime(s.autoProgress.value, s).value, now) > HANDLING_DELAY_HOURS &&
        TotalMiles(s, env) == 0.0))
  {
    if Eligible(s) {
      var ap := s.autoProgress.value;
      if StartTime(ap, s).Some? {
        var start := StartTime(ap, s).value;
        assert Hours(now - start) < 0.0 <==> now < start;
      }
    }
  }

  /** During the handling delay the reported progress is the linear creep
      `min(0.05, e / 4 * 0.05)`, so it lies in [0, 0.05]; it is positive once
      any time has run. */
  lemma HandlingPhaseProgress(s: Shipment, now: Time, env: Env)
    requires Eligible(s)
    requires StartTime(s.autoProgress.value, s).Some?
    requires now >= StartTime(s.autoProgress.value, s).value
    requires EffectiveHours(s.autoProgress.value, StartTime(s.autoProgress.value, s).value, now) <= HANDLING_DELAY_HOURS
    ensures ComputeProgress(s, now, env).Some?
    ensures var e := EffectiveHours(s.autoProgress.value, StartTime(s.autoProgress.value, s).value, now);
      && ComputeProgress(s, now, env).value.progress == Min(0.05, e / 4.0 * 0.05)
      && 0.0 <= ComputeProgress(s, now, env).value.progress <= 0.05
      && (e > 0.0 ==> ComputeProgress(s, now, env).value.progress > 0.0)
  {
    var start := StartTime(s.autoProgress.value, s).value;
    assert Hours(now - start) >= 0.0;
  }

  /** Past the handling delay the progress lies in [0, 1] and is at least
      the minimum-speed share; when the estimate reaches 1 the result is the
      destination itself: its coordinates, its city (or 'Destination'), and
      progress exactly 1. */
  lemma DrivingPhaseProgress(s: Shipment, now: Time, env: Env)
    requires Eligible(s)
    requires StartTime(s.autoProgress.value, s).Some?
    requires now >= StartTime(s.autoProgress.value, s).value
    requires EffectiveHours(s.autoProgress.value, StartTime(s.autoProgress.value, s).value, now) > HANDLING_DELAY_HOURS
    requires TotalMiles(s, env) != 0.0
    ensures ComputeProgress(s, now, env).Some?
    ensures var w := EffectiveHours(s.autoProgress.value, StartTime(s.autoProgress.value, s).value, now) - HANDLING_DELAY_HOURS;
      var u := ComputeProgress(s, now, env).value;
      && 0.0 <= u.progress <= 1.0
      && u.progress >= MinSpeedShare(w, TotalMiles(s, env))
      && (DrivingProgress(w, TotalMiles(s, env)) >= 1.0 ==>
            u.progress == 1.0 &&
            u.location.lat == LatOf(RecipientAddress(s)) &&
            u.location.lng == LngOf(RecipientAddress(s)) &&
            u.location.city == (if CityOf(RecipientAddress(s)) != "" then CityOf(RecipientAddress(s)) else "Destination"))
  {
    var start := StartTime(s.autoProgress.value, s).value;
    assert Hours(now - start) >= 0.0;
    var w := EffectiveHours(s.autoProgress.value, start, now) - HANDLING_DELAY_HOURS;
    DrivingProgressBounds(w, TotalMiles(s, env));
  }

  /** Whatever the input, a reported progress lies in [0, 1]. */
  lemma ProgressInUnitInterval(s: Shipment, now: Time, env: Env)
    requires ComputeProgress(s, now, env).Some?
    ensures 0.0 <= ComputeProgress(s, now, env).value.progress <= 1.0
  {
    var ap := s.autoProgress.value;
    var start := StartTime(ap, s).value;
    if EffectiveHours(ap, start, now) > HANDLING_DELAY_HOURS {
      DrivingPhaseProgress(s, now, env);
    }
  }

  /** A progress of 1 is only ever reported at the destination. */
  lemma FullProgressIsDestination(s: Shipment, now: Time, env: Env)
    requires ComputeProgress(s, now, env).Some?
    requires ComputeProgress(s, now, env).value.progress >= 1.0
    ensures ComputeProgress(s, now, env).value == ArrivedUpdate(s)
    ensures ComputeProgress(s, now, env).value.location.lat == LatOf(RecipientAddress(s))
  {
  }

  /** While paused (and past the pause start), the engine's answer does not
      depend on the clock: the shipment is frozen where it was. */
  lemma PauseFreezesProgress(s: Shipment, now1: Time, now2: Time, env: Env)
    requires s.autoProgress.Some? && s.autoProgress.value.paused && s.autoProgress.value.pausedAt.Some?
    requires var pa := s.autoProgress.value.pausedAt.value; now1 >= pa && now2 >= pa
    requires StartTime(s.autoProgress.value, s).Some? ==>
      StartTime(s.autoProgress.value, s).value <= s.autoProgress.value.pausedAt.value
    ensures ComputeProgress(s, now1, env) == ComputeProgress(s, now2, env)
  {
    var ap := s.autoProgress.value;
    if Eligible(s) && StartTime(ap, s).Some? {
      var start := StartTime(ap, s).value;
      PausedEffectiveHours(ap, start, now1);
      PausedEffectiveHours(ap, start, now2);
      assert Hours(now1 - start) >= 0.0 && Hours(now2 - start) >= 0.0;
    }
  }

  /** Within the driving phase, progress never decreases as time passes. */
  lemma ProgressMonotoneInDrivingPhase(s: Shipment, now1: Time, now2: Time, env: Env)
    requires now1 <= now2
    requires ComputeProgress(s, now1, env).Some?
    requires EffectiveHours(s.autoProgress.value, StartTime(s.autoProgress.value, s).value, now1) > HANDLING_DELAY_HOURS
    ensures ComputeProgress(s, now2, env).Some?
    ensures ComputeProgress(s, now1, env).value.progress <= ComputeProgress(s, now2, env).value.progress
  {
    var ap := s.autoProgress.value;
    var start := StartTime(ap, s).value;
    EffectiveHoursMonotone(ap, start, now1, now2);
    assert Hours(now2 - start) >= Hours(now1 - start) >= 0.0;
    var total := TotalMiles(s, env);
    var e1 := EffectiveHours(ap, start, now1);
    var e2 := EffectiveHours(ap, start, now2);
    DrivingProgressMonotone(e1 - HANDLING_DELAY_HOURS, e2 - HANDLING_DELAY_HOURS, total);
    DrivingProgressBounds(e2 - HANDLING_DELAY_HOURS, total);
  }

  /** Once the destination is reached the answer stays the same for every
      later time. */
  lemma ArrivalIsFinal(s: Shipment, now1: Time, now2: Time, env: Env)
    requires now1 <= now2
    requires ComputeProgress(s, now1, env).Some?
    requires ComputeProgress(s, now1, env).value.progress >= 1.0
    ensures ComputeProgress(s, now2, env) == ComputeProgress(s, now1, env)
  {
    var ap := s.autoProgress.value;
    var start := StartTime(ap, s).value;
    if EffectiveHours(ap, start, now1) <= HANDLING_DELAY_HOURS {
      HandlingPhaseProgress(s, now1, env);
    }
    ProgressMonotoneInDrivingPhase(s, now1, now2, env);
    ProgressInUnitInterval(s, now2, env);
  }

  /** A shipment that has not arrived is placed on the route when there is
      a non-empty one, else on the straight line between the endpoints, in
      both cases at the share of the trip it reports, and it is labelled
      with the nearest city to that point. */
  lemma MovingPosition(s: Shipment, now: Time, env: Env)
    requires ComputeProgress(s, now, env).Some?
    requires ComputeProgress(s, now, env).value.progress < 1.0
    ensures var u := ComputeProgress(s, now, env).value;
      var route := RouteGeometry(s, env);
      && u.location.lat.Some? && u.location.lng.Some?
      && (route.Some? && |route.value| > 0 ==>
            Point(u.location.lat.value, u.location.lng.value) == PointOnRoute(route.value, u.progress).value)
      && (!(route.Some? && |route.value| > 0) ==>
            && u.location.lat.value == Lerp(NumOr0(LatOf(SenderAddress(s))), NumOr0(LatOf(RecipientAddress(s))), u.progress)
            && u.location.lng.value == Lerp(NumOr0(LngOf(SenderAddress(s))), NumOr0(LngOf(RecipientAddress(s))), u.progress))
      && u.location.city == env.nearest(u.location.lat.value, u.location.lng.value)
  {
    var u := ComputeProgress(s, now, env).value;
    assert u == MovingUpdate(s, env, u.progress);
  }

  /** Without a route, a position between the start and the end of the trip
      lies between the two endpoints' coordinates. */
  lemma StraightLineBetweenEndpoints(s: Shipment, env: Env, p: real)
    requires !(RouteGeometry(s, env).Some? && |RouteGeometry(s, env).value| > 0)
    requires 0.0 <= p <= 1.0
    ensures var o := EndpointPoint(SenderAddress(s));
      var d := EndpointPoint(RecipientAddress(s));
      && Min(o.lat, d.lat) <= PositionAt(s, env, p).lat <= Max(o.lat, d.lat)
      && Min(o.lng, d.lng) <= PositionAt(s, env, p).lng <= Max(o.lng, d.lng)
  {
    var o := EndpointPoint(SenderAddress(s));
    var d := EndpointPoint(RecipientAddress(s));
    LerpBetween(o.lat, d.lat, p, Min(o.lat, d.lat), Max(o.lat, d.lat));
    LerpBetween(o.lng, d.lng, p, Min(o.lng, d.lng), Max(o.lng, d.lng));
  }

  /** Caching a freshly fetched route on the shipment does not change what
      the engine computes. */
  lemma CachedRouteIsTransparent(s: Shipment, now: Time, env: Env)
    ensures ComputeProgress(WithCachedRoute(s, env), now, env) == ComputeProgress(s, now, env)
  {
    var c := WithCachedRoute(s, env);
    assert RouteGeometry(c, env) == RouteGeometry(s, env);
    assert RouteMiles(c, env) == RouteMiles(s, env);
    assert Eligible(c) == Eligible(s);
    forall p: real ensures PositionAt(c, env, p) == PositionAt(s, env, p) { }
  }

  // ------------------------------------------------------ scenarios

  function SampleAddress(city: string, lat: real, lng: real): Address {
    Address(city, "", "CM", "", Some(lat), Some(lng))
  }

  /** A Douala to Yaounde shipment whose clock started at time 0, with no
      cached route and the given stored route length. */
  function SampleShipment(miles: Option<real>): Shipment {
    Shipment(
      None, "CT1", "in_transit", Some(0), Some(0), None,
      Some(Party(None, None, None, Some(SampleAddress("Douala", 4.0511, 9.7679)))),
      Some(Party(None, None, None, Some(SampleAddress("Yaounde", 3.848, 11.5021)))),
      None, None, Some([]), None, None, None,
      Some(DEFAULT_AUTO_PROGRESS.(startedAt := Some(0))), None, None, None, miles)
  }

  function SampleEnv(directMiles: real): Env {
    Env(None, directMiles, (lat: real, lng: real) => "Edea")
  }

  /** One hour into the handling delay a shipment reports 1.25% progress and,
      with no route, sits 1.25% of the way from Douala towards Yaounde: near
      the origin but not on it, labelled with the lookup's city. */
  lemma OneHourIntoHandling()
    ensures ComputeProgress(SampleShipment(None), 3600000, SampleEnv(150.0)).Some?
    ensures ComputeProgress(SampleShipment(None), 3600000, SampleEnv(150.0)).value.progress == 0.0125
    ensures ComputeProgress(SampleShipment(None), 3600000, SampleEnv(150.0)).value.location ==
      Location(Some(4.04856125), Some(9.7895775), "Edea")
    ensures ComputeProgress(SampleShipment(None), 3600000, SampleEnv(150.0)).value.location.lat != Some(4.0511)
  {
    assert Hours(3600000) == 1.0;
  }

  /** A 600-mile trip is at its destination ten driving hours after the
      handling delay ends. */
  lemma SixHundredMilesArriveAfterFourteenHours()
    ensures ComputeProgress(SampleShipment(Some(600.0)), 14 * 3600000, SampleEnv(150.0)) ==
      Some(ArrivedUpdate(SampleShipment(Some(600.0))))
  {
    var s := SampleShipment(Some(600.0));
    assert Hours(14 * 3600000) == 14.0;
    MinimumSpeedDominates(10.0, 600.0);
  }

  /** Progress is not monotone across the end of the handling delay: at
      exactly four hours the creep reports 5%, a millisecond later the
      driving estimate restarts from almost nothing. */
  lemma HandlingBoundaryDrop()
    ensures ComputeProgress(SampleShipment(None), 4 * 3600000, SampleEnv(150.0)).Some?
    ensures ComputeProgress(SampleShipment(None), 4 * 3600000 + 1, SampleEnv(150.0)).Some?
    ensures ComputeProgress(SampleShipment(None), 4 * 3600000, SampleEnv(150.0)).value.progress == 0.05
    ensures ComputeProgress(SampleShipment(None), 4 * 3600000 + 1, SampleEnv(150.0)).value.progress < 0.001
  {
    assert Hours(4 * 3600000) == 4.0;
    var w := Hours(4 * 3600000 + 1) - HANDLING_DELAY_HOURS;
    assert w == 1.0 / 3600000.0;
    MinimumSpeedDominates(w, 150.0);
  }
}
