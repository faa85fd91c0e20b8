/** The Patrol schema (van-rakshak-backend/models/Patrol.js): a patrol
    session of one officer with its ordered route of waypoints. */
module PatrolModel {
  import opened Common

  const PatrolStatuses: set<string> := {"active", "completed", "paused"}
  const DefaultStatus := "active"

  /** One entry of `route`; the schema makes all three fields optional. */
  datatype Waypoint = Waypoint(latitude: Option<real>, longitude: Option<real>, timestamp: Option<int>)

  datatype Patrol = Patrol(
    officerId: Id,
    startTime: int,
    endTime: Option<int>,
    status: string,
    distance: real,          // kilometres
    route: seq<Waypoint>,
    notes: Option<string>,
    area: Option<string>)    // forest area or sector name

  datatype PatrolBody = PatrolBody(
    officerId: Option<Id>,
    startTime: Option<int>,
    endTime: Option<int>,
    status: Option<string>,
    distance: Option<real>,
    route: Option<seq<Waypoint>>,
    notes: Option<string>,
    area: Option<string>)

  function Errors(body: PatrolBody): set<string> {
    (if body.officerId.Some? then {} else {"officerId"})
    + (if body.status.None? || body.status.value in PatrolStatuses then {} else {"status"})
  }

  predicate ValidPatrol(p: Patrol) {
    p.status in PatrolStatuses
  }

  /** `new Patrol(body)` followed by validation. `startTime` is required,
      but its default (the creation time) always satisfies it. */
  function NewPatrol(body: PatrolBody, now: int): (r: Result<Patrol, set<string>>)
    ensures r.Ok? <==> Errors(body) == {}
    ensures r.Err? ==> r.error == Errors(body)
    ensures r.Ok? ==> ValidPatrol(r.value)
    ensures r.Ok? ==> r.value.officerId == body.officerId.value
    ensures r.Ok? ==> r.value.startTime == body.startTime.GetOr(now)
    ensures r.Ok? ==> r.value.status == body.status.GetOr(DefaultStatus)
    ensures r.Ok? ==> r.value.distance == body.distance.GetOr(0.0)
    ensures r.Ok? ==> r.value.route == body.route.GetOr([])
    ensures r.Ok? ==> r.value.endTime == body.endTime && r.value.notes == body.notes && r.value.area == body.area
  {
    var errors := Errors(body);
    if errors != {} then Err(errors)
    else
      Ok(Patrol(body.officerId.value, body.startTime.GetOr(now), body.endTime,
        body.status.GetOr(DefaultStatus), body.distance.GetOr(0.0), body.route.GetOr([]),
        body.notes, body.area))
  }

  /** A patrol built from an officer alone is active, has covered no
      distance, has an empty route and no end time. */
  lemma FreshPatrolDefaults(officer: Id, now: int)
    ensures NewPatrol(PatrolBody(Some(officer), None, None, None, None, None, None, None), now)
         == Ok(Patrol(officer, now, None, "active", 0.0, [], None, None))
  {
  }
}
