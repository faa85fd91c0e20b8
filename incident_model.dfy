/** The Incident schema (van-rakshak-backend/models/Incident.js): the
    stored document, the request body it is built from, the schema's
    validators and the defaults filled in when a document is created. */
module IncidentModel {
  import opened Common

  const IncidentTypes: set<string> :=
    {"fire", "poaching", "illegal-logging", "wildlife-injury", "encroachment", "other"}
  const Severities: set<string> := {"low", "medium", "high", "critical"}
  const Statuses: set<string> := {"reported", "investigating", "resolved", "false-alarm"}

  const DefaultSeverity := "medium"
  const DefaultStatus := "reported"

  datatype Location = Location(latitude: real, longitude: real, address: Option<string>)

  /** A stored incident. `kind` is the schema's `type` path. Enumerated
      fields are kept as strings: an update that skips the validators can
      store any string in them. */
  datatype Incident = Incident(
    kind: string,
    description: string,
    location: Location,
    reportedBy: Id,
    severity: string,
    status: string,
    images: seq<string>,
    timestamp: int,
    resolvedAt: Option<int>,
    notes: Option<string>)

  datatype LocationBody = LocationBody(latitude: Option<real>, longitude: Option<real>, address: Option<string>)

  /** The fields a create request may carry; keys outside the schema are
      dropped by the schema and have no counterpart here. */
  datatype IncidentBody = IncidentBody(
    kind: Option<string>,
    description: Option<string>,
    location: Option<LocationBody>,
    reportedBy: Option<Id>,
    severity: Option<string>,
    status: Option<string>,
    images: Option<seq<string>>,
    timestamp: Option<int>,
    resolvedAt: Option<int>,
    notes: Option<string>)

  /** A required string rejects a missing value and the empty string. */
  predicate RequiredString(s: Option<string>) {
    s.Some? && s.value != ""
  }

  /** An enumerated path with a default accepts absence (the default is
      used) or one of the listed values. */
  predicate EnumOrDefault(s: Option<string>, values: set<string>) {
    s.None? || s.value in values
  }

  function Latitude(body: IncidentBody): Option<real> {
    if body.location.Some? then body.location.value.latitude else None
  }

  function Longitude(body: IncidentBody): Option<real> {
    if body.location.Some? then body.location.value.longitude else None
  }

  /** The schema paths whose validators reject `body`. */
  function Errors(body: IncidentBody): set<string> {
    (if RequiredString(body.kind) && body.kind.value in IncidentTypes then {} else {"type"})
    + (if RequiredString(body.description) then {} else {"description"})
    + (if Latitude(body).Some? then {} else {"location.latitude"})
    + (if Longitude(body).Some? then {} else {"location.longitude"})
    + (if body.reportedBy.Some? then {} else {"reportedBy"})
    + (if EnumOrDefault(body.severity, Severities) then {} else {"severity"})
    + (if EnumOrDefault(body.status, Statuses) then {} else {"status"})
  }

  /** A stored incident satisfies every validator of the schema. */
  predicate ValidIncident(i: Incident) {
    && i.kind in IncidentTypes
    && i.description != ""
    && i.severity in Severities
    && i.status in Statuses
  }

  /** `new Incident(body)` followed by validation: on success the document
      with the defaults filled in, otherwise the set of failing paths. */
  function NewIncident(body: IncidentBody, now: int): (r: Result<Incident, set<string>>)
    ensures r.Ok? <==> Errors(body) == {}
    ensures r.Err? ==> r.error == Errors(body)
    ensures r.Ok? ==> ValidIncident(r.value)
    ensures r.Ok? ==> r.value.severity == body.severity.GetOr(DefaultSeverity)
    ensures r.Ok? ==> r.value.status == body.status.GetOr(DefaultStatus)
    ensures r.Ok? ==> r.value.timestamp == body.timestamp.GetOr(now)
    ensures r.Ok? ==> r.value.images == body.images.GetOr([])
    ensures r.Ok? ==> r.value.resolvedAt == body.resolvedAt && r.value.notes == body.notes
  {
    var errors := Errors(body);
    if errors != {} then Err(errors)
    else
      Ok(Incident(
        body.kind.value,
        body.description.value,
        Location(Latitude(body).value, Longitude(body).value, body.location.value.address),
        body.reportedBy.value,
        body.severity.GetOr(DefaultSeverity),
        body.status.GetOr(DefaultStatus),
        body.images.GetOr([]),
        body.timestamp.GetOr(now),
        body.resolvedAt,
        body.notes))
  }

  /** The body that holds exactly the fields of a stored document. */
  function BodyOf(i: Incident): IncidentBody {
    IncidentBody(Some(i.kind), Some(i.description),
      Some(LocationBody(Some(i.location.latitude), Some(i.location.longitude), i.location.address)),
      Some(i.reportedBy), Some(i.severity), Some(i.status), Some(i.images),
      Some(i.timestamp), i.resolvedAt, i.notes)
  }

  /** A valid document passes validation again unchanged, and only valid
      documents do: validation is exactly the schema's predicate. */
  lemma RevalidateStored(i: Incident, now: int)
    ensures ValidIncident(i) <==> NewIncident(BodyOf(i), now) == Ok(i)
  {
  }

  /** A body without `type`, `description`, a location or `reportedBy`
      is rejected. */
  lemma RequiredFieldsRejected(body: IncidentBody, now: int)
    requires body.kind.None? || body.description.None? || body.location.None? || body.reportedBy.None?
    ensures NewIncident(body, now).Err?
  {
  }

  /** A created incident with no severity or status in the body gets
      severity medium and status reported. */
  lemma DefaultsOnCreate(body: IncidentBody, now: int)
    requires Errors(body) == {} && body.severity.None? && body.status.None?
    ensures NewIncident(body, now).Ok?
    ensures NewIncident(body, now).value.severity == "medium"
    ensures NewIncident(body, now).value.status == "reported"
  {
  }
}
