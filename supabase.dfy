/** The mapping between the camel-case records the server works on and the
    snake-case rows of the hosted database (`transformShipmentToDB`,
    `transformShipmentFromDB`, `transformUserToDB`, `transformUserFromDB`).
    Only the pure mappings are modelled; the queries are not. */
module Supabase {
  import opened Wrappers
  import opened Js
  import opened ShipmentModel

  /** `{}` where an address or a location object is expected. */
  const EMPTY_ADDRESS: Address := Address("", "", "", "", None, None)
  const EMPTY_LOCATION: Location := Location(None, None, "")
  const DEFAULT_CURRENCY: string := "USD"

  /** A `shipments` row; every column may hold `null`. */
  datatype ShipmentRow = ShipmentRow(
    id: Option<string>, tracking_id: string, status: string,
    created_at: Option<Time>, updated_at: Option<Time>, delivered_at: Option<Time>,
    sender_name: Option<string>, sender_email: Option<string>, sender_phone: Option<string>,
    sender_address: Option<Address>,
    recipient_name: Option<string>, recipient_email: Option<string>, recipient_phone: Option<string>,
    recipient_address: Option<Address>,
    package_type: Option<string>, package_weight: Option<real>, package_dimensions: Option<Obj>,
    package_description: Option<string>, package_value: Option<real>, package_currency: Option<string>,
    package_vehicle: Option<Obj>,
    service_type: Option<string>, service_priority: Option<string>, service_insurance: Option<bool>,
    events: Option<seq<Event>>,
    cost_base: Option<real>, cost_shipping: Option<real>, cost_insurance: Option<real>,
    cost_total: Option<real>, cost_currency: Option<string>,
    estimated_delivery: Option<Time>, current_location: Option<Location>,
    auto_progress: Option<AutoProgress>,
    receipt: Option<string>, receipt_uploaded_at: Option<Time>)

  /** `x || {}` and `x || []` on an object or an array: only absence falls
      back, since an empty object or array is truthy. */
  function OrElse<T>(x: Option<T>, d: T): (r: T)
    ensures x.Some? ==> r == x.value
    ensures x.None? ==> r == d
  {
    if x.Some? then x.value else d
  }

  /** `flag || false`. */
  function FlagOrFalse(x: Option<bool>): (r: bool)
    ensures r <==> x == Some(true)
  {
    x.Some? && x.value
  }

  function PartyName(p: Option<Party>): Option<string> { if p.Some? then p.value.name else None }
  function PartyEmail(p: Option<Party>): Option<string> { if p.Some? then p.value.email else None }
  function PartyPhone(p: Option<Party>): Option<string> { if p.Some? then p.value.phone else None }
  function PartyAddress(p: Option<Party>): Option<Address> { if p.Some? then p.value.address else None }

  /** `transformShipmentToDB`. The cached route is not a column. */
  function ShipmentToRow(s: Shipment): (r: ShipmentRow)
    ensures r.tracking_id == s.trackingId && r.status == s.status && r.id == s.id
    ensures r.events == Some(OrElse(s.events, []))
    ensures r.auto_progress == Some(OrElse(s.autoProgress, DEFAULT_AUTO_PROGRESS))
    ensures r.sender_address.Some? && r.recipient_address.Some? && r.current_location.Some?
    ensures TruthyStr(r.package_currency) && TruthyStr(r.cost_currency)
  {
    var pk := s.package;
    var sv := s.service;
    var c := s.cost;
    ShipmentRow(
      s.id, s.trackingId, s.status, s.createdAt, s.updatedAt, s.deliveredAt,
      PartyName(s.sender), PartyEmail(s.sender), PartyPhone(s.sender),
      Some(OrElse(PartyAddress(s.sender), EMPTY_ADDRESS)),
      PartyName(s.recipient), PartyEmail(s.recipient), PartyPhone(s.recipient),
      Some(OrElse(PartyAddress(s.recipient), EMPTY_ADDRESS)),
      if pk.Some? then pk.value.kind else None,
      if pk.Some? then pk.value.weight else None,
      Some(OrElse(if pk.Some? then pk.value.dimensions else None, map[])),
      if pk.Some? then pk.value.description else None,
      if pk.Some? then pk.value.value else None,
      Some(StrOr(if pk.Some? then pk.value.currency else None, DEFAULT_CURRENCY)),
      Some(OrElse(if pk.Some? then pk.value.vehicle else None, map[])),
      if sv.Some? then sv.value.kind else None,
      if sv.Some? then sv.value.priority else None,
      Some(FlagOrFalse(if sv.Some? then sv.value.insurance else None)),
      Some(OrElse(s.events, [])),
      if c.Some? then c.value.base else None,
      if c.Some? then c.value.shipping else None,
      if c.Some? then c.value.insurance else None,
      if c.Some? then c.value.total else None,
      Some(StrOr(if c.Some? then c.value.currency else None, DEFAULT_CURRENCY)),
      s.estimatedDelivery,
      Some(OrElse(s.currentLocation, EMPTY_LOCATION)),
      Some(OrElse(s.autoProgress, DEFAULT_AUTO_PROGRESS)),
      s.receipt, s.receiptUploadedAt)
  }

  /** `transformShipmentFromDB`: every sub-record is rebuilt, with the same
      defaults; no route is cached. */
  function ShipmentFromRow(row: ShipmentRow): (s: Shipment)
    ensures s.trackingId == row.tracking_id && s.status == row.status && s.id == row.id
    ensures s.events == Some(OrElse(row.events, []))
    ensures s.autoProgress == Some(OrElse(row.auto_progress, DEFAULT_AUTO_PROGRESS))
    ensures s.routeGeometry.None? && s.routeDistanceMiles.None?
  {
    Shipment(
      row.id, row.tracking_id, row.status, row.created_at, row.updated_at, row.delivered_at,
      Some(Party(row.sender_name, row.sender_email, row.sender_phone, Some(OrElse(row.sender_address, EMPTY_ADDRESS)))),
      Some(Party(row.recipient_name, row.recipient_email, row.recipient_phone, Some(OrElse(row.recipient_address, EMPTY_ADDRESS)))),
      Some(Package(row.package_type, row.package_weight, Some(OrElse(row.package_dimensions, map[])),
                   row.package_description, row.package_value, Some(StrOr(row.package_currency, DEFAULT_CURRENCY)),
                   Some(OrElse(row.package_vehicle, map[])))),
      Some(Service(row.service_type, row.service_priority, Some(FlagOrFalse(row.service_insurance)))),
      Some(OrElse(row.events, [])),
      Some(Cost(row.cost_base, row.cost_shipping, row.cost_insurance, row.cost_total,
                Some(StrOr(row.cost_currency, DEFAULT_CURRENCY)))),
      row.estimated_delivery,
      Some(OrElse(row.current_location, EMPTY_LOCATION)),
      Some(OrElse(row.auto_progress, DEFAULT_AUTO_PROGRESS)),
      row.receipt, row.receipt_uploaded_at,
      None, None)
  }

  /** A record in the shape `ShipmentFromRow` builds: every sub-record and
      default present, no cached route. */
  predicate Canonical(s: Shipment) {
    && s.sender.Some? && s.sender.value.address.Some?
    && s.recipient.Some? && s.recipient.value.address.Some?
    && s.package.Some? && s.package.value.dimensions.Some? && s.package.value.vehicle.Some?
    && TruthyStr(s.package.value.currency)
    && s.service.Some? && s.service.value.insurance.Some?
    && s.events.Some?
    && s.cost.Some? && TruthyStr(s.cost.value.currency)
    && s.currentLocation.Some? && s.autoProgress.Some?
    && s.routeGeometry.None? && s.routeDistanceMiles.None?
  }

  /** A `users` row. */
  datatype UserRow = UserRow(
    id: Option<string>, username: Option<string>, email: Option<string>, password: Option<string>,
    first_name: Option<string>, last_name: Option<string>, role: Option<string>,
    created_at: Option<string>, updated_at: Option<string>)

  /** A user record; older records of the JSON store carry the snake-case
      names, which `transformUserToDB` accepts as fallbacks. */
  datatype User = User(
    id: Option<string>, username: Option<string>, email: Option<string>, password: Option<string>,
    firstName: Option<string>, lastName: Option<string>, role: Option<string>,
    createdAt: Option<string>, updatedAt: Option<string>,
    first_name: Option<string>, last_name: Option<string>,
    created_at: Option<string>, updated_at: Option<string>)

  /** `transformUserToDB`: the camel-case name wins when truthy; the role
      defaults to 'user'. */
  function UserToRow(u: User): (r: UserRow)
    ensures r.id == u.id && r.username == u.username && r.email == u.email && r.password == u.password
    ensures r.first_name == OrStr(u.firstName, u.first_name) && r.last_name == OrStr(u.lastName, u.last_name)
    ensures r.role == Some(StrOr(u.role, "user"))
    ensures r.created_at == OrStr(u.createdAt, u.created_at) && r.updated_at == OrStr(u.updatedAt, u.updated_at)
  {
    UserRow(u.id, u.username, u.email, u.password,
            OrStr(u.firstName, u.first_name), OrStr(u.lastName, u.last_name),
            Some(StrOr(u.role, "user")),
            OrStr(u.createdAt, u.created_at), OrStr(u.updatedAt, u.updated_at))
  }

  /** `transformUserFromDB`: a column-for-column copy into camel case. */
  function UserFromRow(row: UserRow): (u: User)
    ensures u.id == row.id && u.username == row.username && u.email == row.email && u.password == row.password
    ensures u.firstName == row.first_name && u.lastName == row.last_name && u.role == row.role
    ensures u.createdAt == row.created_at && u.updatedAt == row.updated_at
    ensures u.first_name.None? && u.last_name.None? && u.created_at.None? && u.updated_at.None?
  {
    User(row.id, row.username, row.email, row.password, row.first_name, row.last_name, row.role,
         row.created_at, row.updated_at, None, None, None, None)
  }
}
