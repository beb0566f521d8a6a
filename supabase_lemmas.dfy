/** Round trips through the database mapping. */
module SupabaseLemmas {
  import opened Wrappers
  import opened Js
  import opened ShipmentModel
  import opened Supabase

  /** What a load returns is canonical. */
  lemma LoadedShipmentIsCanonical(row: ShipmentRow)
    ensures Canonical(ShipmentFromRow(row))
  {
  }

  /** A canonical record survives a save and a load unchanged. */
  lemma CanonicalRoundTrip(s: Shipment)
    requires Canonical(s)
    ensures ShipmentFromRow(ShipmentToRow(s)) == s
  {
  }

  /** Saving what was loaded from a saved row writes the same row again. */
  lemma SavedRowIsStable(s: Shipment)
    ensures ShipmentToRow(ShipmentFromRow(ShipmentToRow(s))) == ShipmentToRow(s)
  {
    LoadedShipmentIsCanonical(ShipmentToRow(s));
    CanonicalRoundTrip(ShipmentFromRow(ShipmentToRow(s)));
  }

  /** Any record, saved and loaded, reads the same to the handlers and the
      engine: identity, status, history, clock (absent ones as the
      default), endpoint coordinates and cities, and the current city. Only
      the cached route is lost. */
  lemma RoundTripKeepsWhatHandlersRead(s: Shipment)
    ensures var t := ShipmentFromRow(ShipmentToRow(s));
      && t.trackingId == s.trackingId && t.status == s.status && t.id == s.id
      && t.createdAt == s.createdAt && t.updatedAt == s.updatedAt && t.deliveredAt == s.deliveredAt
      && PartyName(t.sender) == PartyName(s.sender) && PartyEmail(t.sender) == PartyEmail(s.sender)
      && PartyPhone(t.sender) == PartyPhone(s.sender)
      && PartyName(t.recipient) == PartyName(s.recipient) && PartyEmail(t.recipient) == PartyEmail(s.recipient)
      && PartyPhone(t.recipient) == PartyPhone(s.recipient)
      && t.estimatedDelivery == s.estimatedDelivery
      && t.events == Some(OrElse(s.events, []))
      && t.autoProgress == Some(OrElse(s.autoProgress, DEFAULT_AUTO_PROGRESS))
      && LatOf(SenderAddress(t)) == LatOf(SenderAddress(s)) && LngOf(SenderAddress(t)) == LngOf(SenderAddress(s))
      && LatOf(RecipientAddress(t)) == LatOf(RecipientAddress(s)) && LngOf(RecipientAddress(t)) == LngOf(RecipientAddress(s))
      && CityOf(SenderAddress(t)) == CityOf(SenderAddress(s)) && CityOf(RecipientAddress(t)) == CityOf(RecipientAddress(s))
      && CurrentCity(t) == CurrentCity(s)
      && t.routeGeometry.None? && t.routeDistanceMiles.None?
  {
  }

  /** Currencies default to USD on save; an explicit one is kept. */
  lemma CurrencyDefaults(s: Shipment)
    ensures var row := ShipmentToRow(s);
      && (s.cost.Some? && TruthyStr(s.cost.value.currency) ==> row.cost_currency == s.cost.value.currency)
      && (s.cost.None? || !TruthyStr(s.cost.value.currency) ==> row.cost_currency == Some(DEFAULT_CURRENCY))
      && (s.package.Some? && TruthyStr(s.package.value.currency) ==> row.package_currency == s.package.value.currency)
      && (s.package.None? || !TruthyStr(s.package.value.currency) ==> row.package_currency == Some(DEFAULT_CURRENCY))
  {
  }

  /** And on load: a row without a currency reads as USD. */
  lemma LoadedCurrencyDefaults(row: ShipmentRow)
    ensures var s := ShipmentFromRow(row);
      && s.cost.Some? && s.package.Some?
      && s.cost.value.currency == Some(StrOr(row.cost_currency, DEFAULT_CURRENCY))
      && s.package.value.currency == Some(StrOr(row.package_currency, DEFAULT_CURRENCY))
      && (!TruthyStr(row.cost_currency) ==> s.cost.value.currency == Some(DEFAULT_CURRENCY))
      && (!TruthyStr(row.package_currency) ==> s.package.value.currency == Some(DEFAULT_CURRENCY))
  {
  }

  /** A row without a clock record loads, and saves back, with the default
      one: enabled, not paused, nothing paused yet. */
  lemma MissingClockBecomesDefault(row: ShipmentRow)
    requires row.auto_progress.None?
    ensures var ap := ShipmentFromRow(row).autoProgress;
      && ap == Some(DEFAULT_AUTO_PROGRESS)
      && ap.value.enabled && !ap.value.paused && ap.value.pausedDuration == 0 && ap.value.pausedAt.None?
      && ShipmentToRow(ShipmentFromRow(row)).auto_progress == Some(DEFAULT_AUTO_PROGRESS)
  {
  }

  /** A user whose optional fields are absent or non-empty, without legacy
      names and with a role, survives a save and a load unchanged. */
  lemma UserRoundTrip(u: User)
    requires !TruthyStr(u.firstName) ==> u.firstName.None?
    requires !TruthyStr(u.lastName) ==> u.lastName.None?
    requires !TruthyStr(u.createdAt) ==> u.createdAt.None?
    requires !TruthyStr(u.updatedAt) ==> u.updatedAt.None?
    requires u.first_name.None? && u.last_name.None? && u.created_at.None? && u.updated_at.None?
    requires TruthyStr(u.role)
    ensures UserFromRow(UserToRow(u)) == u
  {
  }

  /** A legacy snake-case name is carried over when the camel-case one is
      missing or empty, and a missing role becomes 'user'. */
  lemma LegacyUserMigrates(u: User)
    requires !TruthyStr(u.firstName) && !TruthyStr(u.role)
    ensures var v := UserFromRow(UserToRow(u));
      v.firstName == u.first_name && v.role == Some("user") && v.password == u.password
  {
  }
}
