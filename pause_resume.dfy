/** The pause/resume handler (`PUT /api/shipments/:trackingId/pause`): a
    pause freezes the progression clock and journals an exception event; a
    resume adds the pause's length to the paused total and journals an
    in-transit event. The event id and the clock are parameters. */
module PauseResume {
  import opened Wrappers
  import opened Js
  import opened ShipmentModel

  /** The `pause` field of the request body as it arrives. */
  datatype PauseFlag = FlagBool(b: bool) | FlagText(text: string) | FlagAbsent

  /** `pause === true || pause === 'true'`; every other value resumes. */
  predicate WantsPause(flag: PauseFlag) {
    flag == FlagBool(true) || flag == FlagText("true")
  }

  /** The journal entry of a pause: a current 'exception' event at the
      current city, described by the reason or a default. */
  function PauseEvent(s: Shipment, reason: Option<string>, now: Time, eventId: string): (e: Event)
    ensures e.id == eventId && e.status == "exception" && e.timestamp == Some(now)
    ensures e.current && !e.completed && e.location == CurrentCity(s)
    ensures e.description == (if TruthyStr(reason) then reason.value else "Shipment paused for maintenance")
  {
    Event(eventId, "exception", "Shipment Paused", StrOr(reason, "Shipment paused for maintenance"),
          CurrentCity(s), Some(now), false, true)
  }

  /** The journal entry of a resume: a current 'in_transit' event at the
      current city, naming the reason of the pause. */
  function ResumeEvent(s: Shipment, pauseReason: Option<string>, now: Time, eventId: string): (e: Event)
    ensures e.id == eventId && e.status == "in_transit" && e.timestamp == Some(now)
    ensures e.current && !e.completed && e.location == CurrentCity(s)
    ensures e.description == "Shipment resumed after: " + (if TruthyStr(pauseReason) then pauseReason.value else "maintenance")
  {
    Event(eventId, "in_transit", "Shipment Resumed", "Shipment resumed after: " + StrOr(pauseReason, "maintenance"),
          CurrentCity(s), Some(now), false, true)
  }

  /** The clock record once paused at `now`. */
  function PausedAt(ap: AutoProgress, reason: Option<string>, now: Time): (r: AutoProgress)
    ensures r.paused && r.pausedAt == Some(now) && r.pauseReason == Some(StrOr(reason, "Maintenance"))
    ensures r.enabled == ap.enabled && r.pausedDuration == ap.pausedDuration
    ensures r.startedAt == ap.startedAt && r.lastUpdate == ap.lastUpdate
  {
    ap.(paused := true, pausedAt := Some(now), pauseReason := Some(StrOr(reason, "Maintenance")))
  }

  /** The clock record once resumed at `now`: the running pause joins the
      paused total. */
  function ResumedAt(ap: AutoProgress, now: Time): (r: AutoProgress)
    ensures !r.paused && r.pausedAt.None? && r.pauseReason.None?
    ensures r.pausedDuration == ap.pausedDuration + (if ap.pausedAt.Some? then now - ap.pausedAt.value else 0)
    ensures r.enabled == ap.enabled && r.startedAt == ap.startedAt && r.lastUpdate == ap.lastUpdate
  {
    var total := if ap.pausedAt.Some? then ap.pausedDuration + (now - ap.pausedAt.value) else ap.pausedDuration;
    ap.(pausedDuration := total, paused := false, pauseReason := None, pausedAt := None)
  }

  /** The outcome for one record: the default clock record is installed when
      missing; a pause of a running shipment or a resume of a paused one
      changes the clock and appends one event, which fails when the record
      has no event list; the update time is always stamped. */
  function Toggled(s: Shipment, flag: PauseFlag, reason: Option<string>, now: Time, eventId: string): (r: HandlerResult)
    ensures !r.NotFound?
    ensures r.ServerError? <==> s.events.None? && WantsPause(flag) != s.autoProgress.GetOr(DEFAULT_AUTO_PROGRESS).paused
    ensures r.Updated? ==>
      && r.shipment.updatedAt == Some(now) && r.shipment.autoProgress.Some?
      && r.shipment.autoProgress.value.paused == WantsPause(flag)
      && r.shipment.trackingId == s.trackingId && r.shipment.status == s.status
    ensures r.Updated? ==>
      r.shipment == s.(autoProgress := r.shipment.autoProgress, events := r.shipment.events, updatedAt := Some(now))
    ensures r.Updated? && s.events.Some? ==>
      && r.shipment.events.Some? && |s.events.value| <= |r.shipment.events.value| <= |s.events.value| + 1
      && r.shipment.events.value[..|s.events.value|] == s.events.value
  {
    var ap := s.autoProgress.GetOr(DEFAULT_AUTO_PROGRESS);
    var idle := s.(autoProgress := Some(ap), updatedAt := Some(now));
    if WantsPause(flag) then
      if ap.paused then Updated(idle)
      else if s.events.None? then ServerError
      else Updated(idle.(autoProgress := Some(PausedAt(ap, reason, now)),
                         events := Some(s.events.value + [PauseEvent(s, reason, now, eventId)])))
    else
      if !ap.paused then Updated(idle)
      else if s.events.None? then ServerError
      else Updated(idle.(autoProgress := Some(ResumedAt(ap, now)),
                         events := Some(s.events.value + [ResumeEvent(s, ap.pauseReason, now, eventId)])))
  }

  /** The handler on the in-memory list. */
  method TogglePause(store: ShipmentStore, trackingId: string, flag: PauseFlag, reason: Option<string>, now: Time, eventId: string)
      returns (result: HandlerResult)
    modifies store
    ensures var i := IndexOf(old(store.shipments), ToUpper(trackingId));
      && (i.None? ==> result == NotFound)
      && (i.Some? ==> result == Toggled(old(store.shipments)[i.value], flag, reason, now, eventId))
      && (result.Updated? ==> store.shipments == old(store.shipments)[i.value := result.shipment])
      && (!result.Updated? ==> store.shipments == old(store.shipments))
  {
    var index := IndexOf(store.shipments, ToUpper(trackingId));
    if index.None? {
      return NotFound;
    }
    var i := index.value;
    var s := store.shipments[i];
    var ap := s.autoProgress.GetOr(DEFAULT_AUTO_PROGRESS);
    var t := s.(autoProgress := Some(ap));
    if WantsPause(flag) {
      if !ap.paused {
        ap := ap.(paused := true);
        ap := ap.(pausedAt := Some(now));
        ap := ap.(pauseReason := Some(StrOr(reason, "Maintenance")));
        if s.events.None? {
          return ServerError;
        }
        t := t.(autoProgress := Some(ap), events := Some(s.events.value + [PauseEvent(s, reason, now, eventId)]));
      }
    } else {
      if ap.paused {
        var reasonBefore := ap.pauseReason;
        if ap.pausedAt.Some? {
          ap := ap.(pausedDuration := ap.pausedDuration + (now - ap.pausedAt.value));
        }
        ap := ap.(paused := false);
        ap := ap.(pauseReason := None);
        ap := ap.(pausedAt := None);
        if s.events.None? {
          return ServerError;
        }
        t := t.(autoProgress := Some(ap), events := Some(s.events.value + [ResumeEvent(s, reasonBefore, now, eventId)]));
      }
    }
    t := t.(updatedAt := Some(now));
    store.shipments := store.shipments[i := t];
    return Updated(t);
  }
}
