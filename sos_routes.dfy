/** The SOS routes (van-rakshak-backend/routes/sos.js): list by status,
    create, and the status update that stamps acknowledge and resolve
    times. */
module SosRoutes {
  import opened Common
  import opened SosModel
  import Query
  import Store

  /** `GET /api/sos`: the alerts with the given status (all alerts when the
      parameter is not truthy), newest first. */
  method List(db: Store.Db, status: Option<string>) returns (r: Reply<seq<(Id, Sos)>>)
    ensures r.Success? && r.code == 200
    ensures forall x :: x in r.payload <==>
      x.0 in db.sosAlerts && db.sosAlerts[x.0] == x.1 && (Truthy(status) ==> x.1.status == status.value)
    ensures Query.DistinctIds(r.payload)
    ensures forall i, j :: 0 <= i < j < |r.payload| ==> r.payload[i].1.timestamp >= r.payload[j].1.timestamp
  {
    var found := Query.Select(db.sosAlerts, (s: Sos) => Truthy(status) ==> s.status == status.value,
                              (s: Sos) => s.timestamp);
    r := Success(200, found);
  }

  /** The body of `POST /api/sos`; its own priority and status are ignored. */
  datatype SosRequest = SosRequest(
    officerId: Option<Id>, location: Option<CoordinatesBody>, notes: Option<string>,
    priority: Option<string>, status: Option<string>)

  /** The document the route builds: what the
      body says of officer, location and notes, and a fixed priority and status. */
  function CreateBody(req: SosRequest): (b: SosBody)
    ensures b.priority == Some("critical") && b.status == Some("active")
    ensures b.officerId == req.officerId && b.location == req.location && b.notes == req.notes
    ensures b.timestamp.None? && b.acknowledgedBy.None? && b.acknowledgedAt.None? && b.resolvedAt.None?
  {
    SosBody(req.officerId, req.location, None, Some("active"), Some("critical"), req.notes, None, None, None)
  }

  /** `POST /api/sos`: 201 with the stored alert, or 500 when the officer
      or a coordinate is missing. */
  method Create(db: Store.Db, req: SosRequest, now: int) returns (r: Reply<(Id, Sos)>)
    requires db.Valid()
    modifies db
    ensures db.Valid()
    ensures db.officers == old(db.officers) && db.patrols == old(db.patrols)
    ensures db.patrolLocations == old(db.patrolLocations) && db.incidents == old(db.incidents)
    ensures NewSos(CreateBody(req), now).Ok? ==>
      && r == Success(201, (old(db.nextId), NewSos(CreateBody(req), now).value))
      && db.sosAlerts == old(db.sosAlerts)[old(db.nextId) := NewSos(CreateBody(req), now).value]
      && db.nextId == old(db.nextId) + 1
    ensures NewSos(CreateBody(req), now).Err? ==>
      && r == Fail(500, ValidationFailed(Errors(CreateBody(req))))
      && db.sosAlerts == old(db.sosAlerts) && db.nextId == old(db.nextId)
  {
    var built := NewSos(CreateBody(req), now);
    if built.Err? {
      return Fail(500, ValidationFailed(built.error));
    }
    var id := db.nextId;
    db.sosAlerts := db.sosAlerts[id := built.value];
    db.nextId := id + 1;
    r := Success(201, (id, built.value));
  }

  /** Whatever priority and status the request carries, a created alert is
      critical and active, stamped with the creation time. */
  lemma CreatedAlertIsCriticalAndActive(req: SosRequest, now: int)
    requires NewSos(CreateBody(req), now).Ok?
    ensures var s := NewSos(CreateBody(req), now).value;
      && s.priority == "critical" && s.status == "active" && s.timestamp == now
      && s.acknowledgedAt.None? && s.resolvedAt.None?
  {
  }

  /** The body of `PATCH /api/sos/:id`. */
  datatype SosPatch = SosPatch(status: Option<string>, acknowledgedBy: Option<string>, notes: Option<string>)

  /** The `update` object; an absent field is left out of the update. */
  datatype SosUpdate = SosUpdate(
    status: Option<string>, notes: Option<string>,
    acknowledgedBy: Option<string>, acknowledgedAt: Option<int>, resolvedAt: Option<int>)

  /** Status and notes always go into the update (no truthiness test);
      acknowledged adds who and when, resolved adds when. */
  function UpdateOf(p: SosPatch, now: int): SosUpdate {
    var u := SosUpdate(p.status, p.notes, None, None, None);
    if p.status == Some("acknowledged") then u.(acknowledgedBy := p.acknowledgedBy, acknowledgedAt := Some(now))
    else if p.status == Some("resolved") then u.(resolvedAt := Some(now))
    else u
  }

  function ApplyUpdate(s: Sos, u: SosUpdate): Sos {
    s.(status := u.status.GetOr(s.status),
       notes := if u.notes.Some? then u.notes else s.notes,
       acknowledgedBy := if u.acknowledgedBy.Some? then u.acknowledgedBy else s.acknowledgedBy,
       acknowledgedAt := if u.acknowledgedAt.Some? then u.acknowledgedAt else s.acknowledgedAt,
       resolvedAt := if u.resolvedAt.Some? then u.resolvedAt else s.resolvedAt)
  }

  /** The stored alert after a PATCH. */
  function Patched(s: Sos, p: SosPatch, now: int): (r: Sos)
    ensures r.status == p.status.GetOr(s.status)
    ensures r.notes == (if p.notes.Some? then p.notes else s.notes)
    ensures p.status == Some("acknowledged") ==>
      && r.acknowledgedAt == Some(now)
      && r.acknowledgedBy == (if p.acknowledgedBy.Some? then p.acknowledgedBy else s.acknowledgedBy)
      && r.resolvedAt == s.resolvedAt
    ensures p.status == Some("resolved") ==>
      r.resolvedAt == Some(now) && r.acknowledgedAt == s.acknowledgedAt && r.acknowledgedBy == s.acknowledgedBy
    ensures p.status != Some("acknowledged") && p.status != Some("resolved") ==>
      r.acknowledgedAt == s.acknowledgedAt && r.acknowledgedBy == s.acknowledgedBy && r.resolvedAt == s.resolvedAt
    ensures r.officerId == s.officerId && r.location == s.location
    ensures r.timestamp == s.timestamp && r.priority == s.priority
  {
    ApplyUpdate(s, UpdateOf(p, now))
  }

  /** `PATCH /api/sos/:id`: no check that the transition is legal; a
      missing id changes nothing and answers success with null. */
  method Patch(db: Store.Db, id: Id, p: SosPatch, now: int) returns (r: Reply<Option<(Id, Sos)>>)
    requires db.Valid()
    modifies db
    ensures db.Valid()
    ensures db.officers == old(db.officers) && db.patrols == old(db.patrols) && db.nextId == old(db.nextId)
    ensures db.patrolLocations == old(db.patrolLocations) && db.incidents == old(db.incidents)
    ensures id in old(db.sosAlerts) ==>
      && db.sosAlerts == old(db.sosAlerts)[id := Patched(old(db.sosAlerts)[id], p, now)]
      && r == Success(200, Some((id, db.sosAlerts[id])))
    ensures id !in old(db.sosAlerts) ==> db.sosAlerts == old(db.sosAlerts) && r == Success(200, None)
  {
    if id in db.sosAlerts {
      var updated := ApplyUpdate(db.sosAlerts[id], UpdateOf(p, now));
      db.sosAlerts := db.sosAlerts[id := updated];
      r := Success(200, Some((id, updated)));
    } else {
      r := Success(200, None);
    }
  }

  /** Any status is written as given, even one that goes back from
      resolved to active. */
  lemma NoTransitionOrder(s: Sos, now: int)
    requires s.status == "resolved"
    ensures Patched(s, SosPatch(Some("active"), None, None), now).status == "active"
    ensures Patched(s, SosPatch(Some("active"), None, None), now).resolvedAt == s.resolvedAt
  {
  }

  /** Unlike an incident PATCH, an empty status string is written. */
  lemma EmptyStatusWritten(s: Sos, now: int)
    ensures Patched(s, SosPatch(Some(""), None, None), now).status == ""
  {
  }
}
