/** The PatrolLocation schema (van-rakshak-backend/models/PatrolLocation.js):
    one GPS sample of a patrol. */
module PatrolLocationModel {
  import opened Common

  datatype Coordinates = Coordinates(latitude: real, longitude: real)

  datatype PatrolLocation = PatrolLocation(
    patrolId: Id,
    officerId: Id,
    location: Coordinates,
    accuracy: Option<real>,   // GPS accuracy in metres
    speed: Option<real>,      // km/h
    timestamp: int)

  datatype CoordinatesBody = CoordinatesBody(latitude: Option<real>, longitude: Option<real>)

  datatype PatrolLocationBody = PatrolLocationBody(
    patrolId: Option<Id>,
    officerId: Option<Id>,
    location: Option<CoordinatesBody>,
    accuracy: Option<real>,
    speed: Option<real>,
    timestamp: Option<int>)

  function Latitude(body: PatrolLocationBody): Option<real> {
    if body.location.Some? then body.location.value.latitude else None
  }

  function Longitude(body: PatrolLocationBody): Option<real> {
    if body.location.Some? then body.location.value.longitude else None
  }

  function Errors(body: PatrolLocationBody): set<string> {
    (if body.patrolId.Some? then {} else {"patrolId"})
    + (if body.officerId.Some? then {} else {"officerId"})
    + (if Latitude(body).Some? then {} else {"location.latitude"})
    + (if Longitude(body).Some? then {} else {"location.longitude"})
  }

  /** `new PatrolLocation(body)` followed by validation. */
  function NewPatrolLocation(body: PatrolLocationBody, now: int): (r: Result<PatrolLocation, set<string>>)
    ensures r.Ok? <==> Errors(body) == {}
    ensures r.Err? ==> r.error == Errors(body)
    ensures r.Ok? ==> && r.value.patrolId == body.patrolId.value && r.value.officerId == body.officerId.value
                      && r.value.location == Coordinates(Latitude(body).value, Longitude(body).value)
    ensures r.Ok? ==> r.value.accuracy == body.accuracy && r.value.speed == body.speed
    ensures r.Ok? ==> r.value.timestamp == body.timestamp.GetOr(now)
  {
    var errors := Errors(body);
    if errors != {} then Err(errors)
    else
      Ok(PatrolLocation(body.patrolId.value, body.officerId.value,
        Coordinates(Latitude(body).value, Longitude(body).value),
        body.accuracy, body.speed, body.timestamp.GetOr(now)))
  }
}
