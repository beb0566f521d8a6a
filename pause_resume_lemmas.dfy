/** Properties of the pause/resume handler, alone and together with the
    progression engine. */
module PauseResumeLemmas {
  import opened Wrappers
  import opened Js
  import opened ShipmentModel
  import opened Progression
  import opened ProgressionLemmas
  import opened PauseResume

  /** Pausing a paused shipment, or resuming a running one, stamps the
      update time and installs the default clock record, and changes
      nothing else. */
  lemma RepeatedToggleIsNoop(s: Shipment, flag: PauseFlag, reason: Option<string>, now: Time, eventId: string)
    requires WantsPause(flag) == s.autoProgress.GetOr(DEFAULT_AUTO_PROGRESS).paused
    ensures Toggled(s, flag, reason, now, eventId)
         == Updated(s.(autoProgress := Some(s.autoProgress.GetOr(DEFAULT_AUTO_PROGRESS)), updatedAt := Some(now)))
  {
  }

  /** A pause of a running shipment: the clock stops at `now` with the given
      reason (else 'Maintenance'), the paused total is kept, and exactly one
      exception event is appended; a record without a history fails. */
  lemma PauseEffect(s: Shipment, flag: PauseFlag, reason: Option<string>, now: Time, eventId: string)
    requires WantsPause(flag) && !s.autoProgress.GetOr(DEFAULT_AUTO_PROGRESS).paused
    ensures var r := Toggled(s, flag, reason, now, eventId);
      var ap := s.autoProgress.GetOr(DEFAULT_AUTO_PROGRESS);
      && (s.events.None? <==> r == ServerError)
      && (r.Updated? ==>
            && r.shipment.autoProgress == Some(ap.(paused := true, pausedAt := Some(now),
                                                   pauseReason := Some(StrOr(reason, "Maintenance"))))
            && r.shipment.events.Some?
            && r.shipment.events.value[..|s.events.value|] == s.events.value
            && |r.shipment.events.value| == |s.events.value| + 1
            && r.shipment.events.value[|s.events.value|].status == "exception"
            && r.shipment.events.value[|s.events.value|].current
            && !r.shipment.events.value[|s.events.value|].completed
            && r.shipment == s.(autoProgress := r.shipment.autoProgress, events := r.shipment.events,
                                updatedAt := Some(now)))
  {
  }

  /** A resume of a paused shipment: the running pause joins the paused
      total (when its start is known), the pause fields are cleared, and one
      in-transit event naming the old reason is appended. */
  lemma ResumeEffect(s: Shipment, flag: PauseFlag, reason: Option<string>, now: Time, eventId: string)
    requires !WantsPause(flag) && s.autoProgress.Some? && s.autoProgress.value.paused
    ensures var r := Toggled(s, flag, reason, now, eventId);
      var ap := s.autoProgress.value;
      && (s.events.None? <==> r == ServerError)
      && (r.Updated? ==>
            && r.shipment.autoProgress.Some?
            && var ap' := r.shipment.autoProgress.value;
            && !ap'.paused && ap'.pausedAt.None? && ap'.pauseReason.None?
            && ap'.pausedDuration == ap.pausedDuration + (if ap.pausedAt.Some? then now - ap.pausedAt.value else 0)
            && ap'.startedAt == ap.startedAt && ap'.enabled == ap.enabled
            && r.shipment.events.Some?
            && r.shipment.events.value == s.events.value + [ResumeEvent(s, ap.pauseReason, now, eventId)]
            && r.shipment.events.value[|s.events.value|].description
               == "Shipment resumed after: " + StrOr(ap.pauseReason, "maintenance")
            && r.shipment == s.(autoProgress := r.shipment.autoProgress, events := r.shipment.events,
                                updatedAt := Some(now)))
  {
  }

  /** Pausing at `t1` and resuming at `t2` leaves the clock record as it was
      except that the paused total grew by exactly `t2 - t1`. */
  lemma PauseThenResume(s: Shipment, reason: Option<string>, t1: Time, t2: Time, id1: string, id2: string)
    requires s.events.Some? && !s.autoProgress.GetOr(DEFAULT_AUTO_PROGRESS).paused
    ensures var p := Toggled(s, FlagBool(true), reason, t1, id1);
      && p.Updated?
      && var q := Toggled(p.shipment, FlagBool(false), None, t2, id2);
      && q.Updated?
      && var ap := s.autoProgress.GetOr(DEFAULT_AUTO_PROGRESS);
      && q.shipment.autoProgress == Some(ap.(pausedDuration := ap.pausedDuration + (t2 - t1),
                                            pauseReason := None, pausedAt := None))
      && q.shipment.events.Some? && |q.shipment.events.value| == |s.events.value| + 2
      && q.shipment.events.value[|s.events.value| + 1].description
         == "Shipment resumed after: " + StrOr(reason, "Maintenance")
  {
    var ap := s.autoProgress.GetOr(DEFAULT_AUTO_PROGRESS);
    var p := Toggled(s, FlagBool(true), reason, t1, id1);
    assert p.shipment.autoProgress == Some(PausedAt(ap, reason, t1));
    assert StrOr(Some(StrOr(reason, "Maintenance")), "maintenance") == StrOr(reason, "Maintenance");
  }

  /** Two records with the same parties, status and route, whose clocks
      started at the same time and have run for the same effective time,
      get the same answer from the engine. */
  lemma EngineSeesOnlyTheClock(s: Shipment, t: Shipment, now: Time, now': Time, env: Env)
    requires t.sender == s.sender && t.recipient == s.recipient && t.status == s.status
    requires t.routeGeometry == s.routeGeometry && t.routeDistanceMiles == s.routeDistanceMiles
    requires s.autoProgress.Some? && t.autoProgress.Some?
    requires t.autoProgress.value.enabled == s.autoProgress.value.enabled
    requires s.autoProgress.value.startedAt.Some? && t.autoProgress.value.startedAt == s.autoProgress.value.startedAt
    requires var start := s.autoProgress.value.startedAt.value;
      && start <= now' && start <= now
      && EffectiveHours(t.autoProgress.value, start, now) == EffectiveHours(s.autoProgress.value, start, now')
    ensures ComputeProgress(t, now, env) == ComputeProgress(s, now', env)
  {
    forall p: real ensures PositionAt(t, env, p) == PositionAt(s, env, p) {
    }
    assert TotalMiles(t, env) == TotalMiles(s, env) && ArrivedUpdate(t) == ArrivedUpdate(s);
  }

  /** While paused (from `t1` on) a shipment that had started reports the
      position it had reached when the pause began. */
  lemma PausedShipmentHolds(s: Shipment, reason: Option<string>, t1: Time, now: Time, eventId: string, env: Env)
    requires s.events.Some? && s.autoProgress.Some? && !s.autoProgress.value.paused
    requires s.autoProgress.value.startedAt.Some? && s.autoProgress.value.startedAt.value <= t1 <= now
    ensures var p := Toggled(s, FlagBool(true), reason, t1, eventId).shipment;
      ComputeProgress(p, now, env) == ComputeProgress(s, t1, env)
  {
    var p := Toggled(s, FlagBool(true), reason, t1, eventId).shipment;
    var start := s.autoProgress.value.startedAt.value;
    assert p.autoProgress == Some(PausedAt(s.autoProgress.value, reason, t1));
    PauseFreezesProgress(p, t1, now, env);
    assert EffectiveHours(p.autoProgress.value, start, t1) == EffectiveHours(s.autoProgress.value, start, t1);
    EngineSeesOnlyTheClock(s, p, t1, t1, env);
  }

  /** Paused time does not count: after a pause from `t1` to `t2`, the engine
      reports at `now` what it would have reported at `now - (t2 - t1)`
      without the pause. */
  lemma PauseSetsClockBack(s: Shipment, reason: Option<string>, t1: Time, t2: Time, now: Time,
                           id1: string, id2: string, env: Env)
    requires s.events.Some? && s.autoProgress.Some? && !s.autoProgress.value.paused
    requires s.autoProgress.value.startedAt.Some? && s.autoProgress.value.startedAt.value <= t1 <= t2 <= now
    ensures var p := Toggled(s, FlagBool(true), reason, t1, id1).shipment;
      var q := Toggled(p, FlagBool(false), None, t2, id2).shipment;
      ComputeProgress(q, now, env) == ComputeProgress(s, now - (t2 - t1), env)
  {
    var q := PauseResumeRecord(s, reason, t1, t2, id1, id2);
    var ap := s.autoProgress.value;
    ShiftedPause(ap, ap.startedAt.value, t1, t2, now);
    EngineSeesOnlyTheClock(s, q, now, now - (t2 - t1), env);
  }

  /** The record after a pause at `t1` and a resume at `t2`: only the clock,
      the events and the update time differ from the original. */
  lemma PauseResumeRecord(s: Shipment, reason: Option<string>, t1: Time, t2: Time, id1: string, id2: string)
      returns (q: Shipment)
    requires s.events.Some? && s.autoProgress.Some? && !s.autoProgress.value.paused
    ensures q == Toggled(Toggled(s, FlagBool(true), reason, t1, id1).shipment, FlagBool(false), None, t2, id2).shipment
    ensures var ap := s.autoProgress.value;
      && q == s.(autoProgress := q.autoProgress, events := q.events, updatedAt := Some(t2))
      && q.autoProgress == Some(ap.(pausedDuration := ap.pausedDuration + (t2 - t1), pauseReason := None, pausedAt := None))
  {
    PauseThenResume(s, reason, t1, t2, id1, id2);
    q := Toggled(Toggled(s, FlagBool(true), reason, t1, id1).shipment, FlagBool(false), None, t2, id2).shipment;
  }

  /** A completed pause of length `t2 - t1` in the clock record is the same
      as starting the clock that much later. */
  lemma ShiftedPause(ap: AutoProgress, start: Time, t1: Time, t2: Time, now: Time)
    requires !ap.paused && start <= t1 <= t2 <= now
    ensures EffectiveHours(ap.(pausedDuration := ap.pausedDuration + (t2 - t1), pauseReason := None, pausedAt := None), start, now)
         == EffectiveHours(ap, start, now - (t2 - t1))
  {
    assert Hours(now - start) - Hours(ap.pausedDuration + (t2 - t1))
        == Hours(now - (t2 - t1) - start) - Hours(ap.pausedDuration);
  }
}
