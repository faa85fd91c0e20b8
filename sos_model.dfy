/** The SOS schema (van-rakshak-backend/models/SOS.js): an officer's
    emergency alert with its status, priority and the optional fields that
    the acknowledge and resolve updates stamp. */
module SosModel {
  import opened Common

  const SosStatuses: set<string> := {"active", "acknowledged", "resolved"}
  const Priorities: set<string> := {"critical", "high", "medium"}

  const DefaultStatus := "active"
  const DefaultPriority := "critical"

  datatype Coordinates = Coordinates(latitude: real, longitude: real)

  datatype Sos = Sos(
    officerId: Id,
    location: Coordinates,
    timestamp: int,
    status: string,
    priority: string,
    notes: Option<string>,
    acknowledgedBy: Option<string>,
    acknowledgedAt: Option<int>,
    resolvedAt: Option<int>)

  datatype CoordinatesBody = CoordinatesBody(latitude: Option<real>, longitude: Option<real>)

  datatype SosBody = SosBody(
    officerId: Option<Id>,
    location: Option<CoordinatesBody>,
    timestamp: Option<int>,
    status: Option<string>,
    priority: Option<string>,
    notes: Option<string>,
    acknowledgedBy: Option<string>,
    acknowledgedAt: Option<int>,
    resolvedAt: Option<int>)

  function Latitude(body: SosBody): Option<real> {
    if body.location.Some? then body.location.value.latitude else None
  }

  function Longitude(body: SosBody): Option<real> {
    if body.location.Some? then body.location.value.longitude else None
  }

  /** The schema paths whose validators reject `body`. */
  function Errors(body: SosBody): set<string> {
    (if body.officerId.Some? then {} else {"officerId"})
    + (if Latitude(body).Some? then {} else {"location.latitude"})
    + (if Longitude(body).Some? then {} else {"location.longitude"})
    + (if body.status.None? || body.status.value in SosStatuses then {} else {"status"})
    + (if body.priority.None? || body.priority.value in Priorities then {} else {"priority"})
  }

  predicate ValidSos(s: Sos) {
    s.status in SosStatuses && s.priority in Priorities
  }

  /** `new SOS(body)` followed by validation. */
  function NewSos(body: SosBody, now: int): (r: Result<Sos, set<string>>)
    ensures r.Ok? <==> Errors(body) == {}
    ensures r.Err? ==> r.error == Errors(body)
    ensures r.Ok? ==> ValidSos(r.value)
    ensures r.Ok? ==> r.value.status == body.status.GetOr(DefaultStatus)
    ensures r.Ok? ==> r.value.priority == body.priority.GetOr(DefaultPriority)
    ensures r.Ok? ==> r.value.timestamp == body.timestamp.GetOr(now)
    ensures r.Ok? ==> r.value.officerId == body.officerId.value
    ensures r.Ok? ==> && r.value.notes == body.notes && r.value.acknowledgedBy == body.acknowledgedBy
                      && r.value.acknowledgedAt == body.acknowledgedAt && r.value.resolvedAt == body.resolvedAt
  {
    var errors := Errors(body);
    if errors != {} then Err(errors)
    else
      Ok(Sos(body.officerId.value,
        Coordinates(Latitude(body).value, Longitude(body).value),
        body.timestamp.GetOr(now),
        body.status.GetOr(DefaultStatus),
        body.priority.GetOr(DefaultPriority),
        body.notes, body.acknowledgedBy, body.acknowledgedAt, body.resolvedAt))
  }

  /** A body that only names the officer and the coordinates builds an
      active, critical alert with no acknowledge or resolve stamps. */
  lemma FreshAlertDefaults(officer: Id, lat: real, lon: real, now: int)
    ensures var r := NewSos(SosBody(Some(officer), Some(CoordinatesBody(Some(lat), Some(lon))),
                                    None, None, None, None, None, None, None), now);
      && r == Ok(Sos(officer, Coordinates(lat, lon), now, "active", "critical", None, None, None, None))
  {
  }
}
