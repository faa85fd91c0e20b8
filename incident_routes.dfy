/** The incident routes (van-rakshak-backend/routes/incidents.js): list
    with optional filters, create, partial update and delete. */
module IncidentRoutes {
  import opened Common
  import opened IncidentModel
  import Query
  import Store

  /** The query string of `GET /api/incidents`. */
  datatype IncidentQuery = IncidentQuery(status: Option<string>, kind: Option<string>, severity: Option<string>)

  /** The filter object: a parameter constrains the listing only when it is truthy. */
  predicate Matches(q: IncidentQuery, i: Incident) {
    && (Truthy(q.status) ==> i.status == q.status.value)
    && (Truthy(q.kind) ==> i.kind == q.kind.value)
    && (Truthy(q.severity) ==> i.severity == q.severity.value)
  }

  /** `GET /api/incidents`: the matching incidents, newest first. */
  method List(db: Store.Db, q: IncidentQuery) returns (r: Reply<seq<(Id, Incident)>>)
    ensures r.Success? && r.code == 200
    ensures forall x :: x in r.payload <==> x.0 in db.incidents && db.incidents[x.0] == x.1 && Matches(q, x.1)
    ensures Query.DistinctIds(r.payload)
    ensures forall i, j :: 0 <= i < j < |r.payload| ==> r.payload[i].1.timestamp >= r.payload[j].1.timestamp
  {
    var found := Query.Select(db.incidents, (i: Incident) => Matches(q, i), (i: Incident) => i.timestamp);
    r := Success(200, found);
  }

  /** `POST /api/incidents`: stores the body when the schema accepts it
      (201), and answers 500 with the failing paths otherwise. */
  method Create(db: Store.Db, body: IncidentBody, now: int) returns (r: Reply<(Id, Incident)>)
    requires db.Valid()
    modifies db
    ensures db.Valid()
    ensures db.officers == old(db.officers) && db.patrols == old(db.patrols)
    ensures db.patrolLocations == old(db.patrolLocations) && db.sosAlerts == old(db.sosAlerts)
    ensures NewIncident(body, now).Ok? ==>
      && r == Success(201, (old(db.nextId), NewIncident(body, now).value))
      && db.incidents == old(db.incidents)[old(db.nextId) := NewIncident(body, now).value]
      && db.nextId == old(db.nextId) + 1
    ensures NewIncident(body, now).Err? ==>
      && r == Fail(500, ValidationFailed(Errors(body)))
      && db.incidents == old(db.incidents) && db.nextId == old(db.nextId)
  {
    var built := NewIncident(body, now);
    if built.Err? {
      return Fail(500, ValidationFailed(built.error));
    }
    var id := db.nextId;
    db.incidents := db.incidents[id := built.value];
    db.nextId := id + 1;
    r := Success(201, (id, built.value));
  }

  /** The body of `PATCH /api/incidents/:id`. */
  datatype IncidentPatch = IncidentPatch(status: Option<string>, notes: Option<string>, severity: Option<string>)

  /** The `update` object: the fields to set, each absent when not set. */
  datatype IncidentUpdate = IncidentUpdate(
    status: Option<string>, notes: Option<string>, severity: Option<string>, resolvedAt: Option<int>)

  /** Builds `update` field by field: each of status, notes and severity
      only when truthy, and `resolvedAt` for a status of resolved. */
  function UpdateOf(p: IncidentPatch, now: int): IncidentUpdate {
    var u := IncidentUpdate(None, None, None, None);
    var u := if Truthy(p.status) then u.(status := p.status) else u;
    var u := if Truthy(p.notes) then u.(notes := p.notes) else u;
    var u := if Truthy(p.severity) then u.(severity := p.severity) else u;
    if p.status == Some("resolved") then u.(resolvedAt := Some(now)) else u
  }

  /** `findByIdAndUpdate` with `update`: the set fields replace the stored
      ones, no validator runs. */
  function ApplyUpdate(i: Incident, u: IncidentUpdate): Incident {
    i.(status := u.status.GetOr(i.status),
       notes := if u.notes.Some? then u.notes else i.notes,
       severity := u.severity.GetOr(i.severity),
       resolvedAt := if u.resolvedAt.Some? then u.resolvedAt else i.resolvedAt)
  }

  /** The stored incident after a PATCH. */
  function Patched(i: Incident, p: IncidentPatch, now: int): (r: Incident)
    ensures r.status == (if Truthy(p.status) then p.status.value else i.status)
    ensures r.notes == (if Truthy(p.notes) then p.notes else i.notes)
    ensures r.severity == (if Truthy(p.severity) then p.severity.value else i.severity)
    ensures r.resolvedAt == (if p.status == Some("resolved") then Some(now) else i.resolvedAt)
    ensures r.(status := i.status, notes := i.notes, severity := i.severity, resolvedAt := i.resolvedAt) == i
  {
    ApplyUpdate(i, UpdateOf(p, now))
  }

  /** `PATCH /api/incidents/:id`: updates the incident when it exists; a
      missing id changes nothing and still answers success with null. */
  method Patch(db: Store.Db, id: Id, p: IncidentPatch, now: int) returns (r: Reply<Option<(Id, Incident)>>)
    requires db.Valid()
    modifies db
    ensures db.Valid()
    ensures db.officers == old(db.officers) && db.patrols == old(db.patrols) && db.nextId == old(db.nextId)
    ensures db.patrolLocations == old(db.patrolLocations) && db.sosAlerts == old(db.sosAlerts)
    ensures id in old(db.incidents) ==>
      && db.incidents == old(db.incidents)[id := Patched(old(db.incidents)[id], p, now)]
      && r == Success(200, Some((id, db.incidents[id])))
    ensures id !in old(db.incidents) ==> db.incidents == old(db.incidents) && r == Success(200, None)
  {
    if id in db.incidents {
      var updated := ApplyUpdate(db.incidents[id], UpdateOf(p, now));
      db.incidents := db.incidents[id := updated];
      r := Success(200, Some((id, updated)));
    } else {
      r := Success(200, None);
    }
  }

  /** `DELETE /api/incidents/:id`: removes that incident, if any, and
      answers success either way. */
  method Delete(db: Store.Db, id: Id) returns (r: Reply<string>)
    requires db.Valid()
    modifies db
    ensures db.Valid()
    ensures db.incidents == old(db.incidents) - {id}
    ensures db.officers == old(db.officers) && db.patrols == old(db.patrols) && db.nextId == old(db.nextId)
    ensures db.patrolLocations == old(db.patrolLocations) && db.sosAlerts == old(db.sosAlerts)
    ensures r == Success(200, "Incident deleted")
  {
    db.incidents := db.incidents - {id};
    r := Success(200, "Incident deleted");
  }

  /** Repeating a PATCH with the same body and time changes nothing more. */
  lemma PatchIdempotent(i: Incident, p: IncidentPatch, now: int)
    ensures Patched(Patched(i, p, now), p, now) == Patched(i, p, now)
  {
  }

  /** Resolving stamps `resolvedAt` no earlier than the report time when
      the clock has not gone back. */
  lemma ResolveStampsTime(i: Incident, p: IncidentPatch, now: int)
    requires p.status == Some("resolved") && i.timestamp <= now
    ensures Patched(i, p, now).status == "resolved"
    ensures Patched(i, p, now).resolvedAt.Some? && Patched(i, p, now).resolvedAt.value >= i.timestamp
  {
  }

  /** A PATCH whose truthy values are members of their enumerations keeps a
      valid incident valid. */
  lemma PatchKeepsValid(i: Incident, p: IncidentPatch, now: int)
    requires ValidIncident(i)
    requires Truthy(p.status) ==> p.status.value in Statuses
    requires Truthy(p.severity) ==> p.severity.value in Severities
    ensures ValidIncident(Patched(i, p, now))
  {
  }

  /** No validator runs on the update: a status outside the enumeration is
      stored as given. */
  lemma PatchSkipsValidators(i: Incident, now: int)
    requires ValidIncident(i)
    ensures !ValidIncident(Patched(i, IncidentPatch(Some("closed"), None, None), now))
  {
  }
}
