/** The patrol routes (van-rakshak-backend/routes/patrols.js): list, start,
    record a GPS sample, end, and list a patrol's samples. */
module PatrolRoutes {
  import opened Common
  import opened PatrolModel
  import PL = PatrolLocationModel
  import Query
  import Store

  /** `GET /api/patrols`: the patrols with the given status (all when the
      parameter is not truthy), latest start first. */
  method List(db: Store.Db, status: Option<string>) returns (r: Reply<seq<(Id, Patrol)>>)
    ensures r.Success? && r.code == 200
    ensures forall x :: x in r.payload <==>
      x.0 in db.patrols && db.patrols[x.0] == x.1 && (Truthy(status) ==> x.1.status == status.value)
    ensures Query.DistinctIds(r.payload)
    ensures forall i, j :: 0 <= i < j < |r.payload| ==> r.payload[i].1.startTime >= r.payload[j].1.startTime
  {
    var found := Query.Select(db.patrols, (p: Patrol) => Truthy(status) ==> p.status == status.value,
                              (p: Patrol) => p.startTime);
    r := Success(200, found);
  }

  /** The document `POST /api/patrols/start` builds. */
  function StartBody(officerId: Option<Id>, area: Option<string>, now: int): (b: PatrolBody)
    ensures b.officerId == officerId && b.area == area
    ensures b.status == Some("active") && b.startTime == Some(now)
    ensures b.endTime.None? && b.distance.None? && b.route.None? && b.notes.None?
  {
    PatrolBody(officerId, Some(now), None, Some("active"), None, None, None, area)
  }

  /** `POST /api/patrols/start`: 201 with a new active patrol that started
      now, or 500 when no officer is given. */
  method Start(db: Store.Db, officerId: Option<Id>, area: Option<string>, now: int)
    returns (r: Reply<(Id, Patrol)>)
    requires db.Valid()
    modifies db
    ensures db.Valid()
    ensures db.officers == old(db.officers) && db.incidents == old(db.incidents)
    ensures db.patrolLocations == old(db.patrolLocations) && db.sosAlerts == old(db.sosAlerts)
    ensures officerId.Some? ==>
      var p := Patrol(officerId.value, now, None, "active", 0.0, [], None, area);
      && r == Success(201, (old(db.nextId), p))
      && db.patrols == old(db.patrols)[old(db.nextId) := p]
      && db.nextId == old(db.nextId) + 1
    ensures officerId.None? ==>
      && r == Fail(500, ValidationFailed({"officerId"}))
      && db.patrols == old(db.patrols) && db.nextId == old(db.nextId)
  {
    var built := NewPatrol(StartBody(officerId, area, now), now);
    assert Errors(StartBody(officerId, area, now)) == if officerId.Some? then {} else {"officerId"};
    if built.Err? {
      return Fail(500, ValidationFailed(built.error));
    }
    var id := db.nextId;
    db.patrols := db.patrols[id := built.value];
    db.nextId := id + 1;
    r := Success(201, (id, built.value));
  }

  /** The document `POST /api/patrols/:id/location` builds from the request
      and the patrol it belongs to. */
  function SampleBody(patrolId: Id, patrol: Patrol, location: Option<PL.CoordinatesBody>,
                      accuracy: Option<real>, speed: Option<real>): (b: PL.PatrolLocationBody)
    ensures b.patrolId == Some(patrolId) && b.officerId == Some(patrol.officerId)
    ensures b.location == location && b.accuracy == accuracy && b.speed == speed && b.timestamp.None?
  {
    PL.PatrolLocationBody(Some(patrolId), Some(patrol.officerId), location, accuracy, speed, None)
  }

  /** The waypoint pushed onto the route: the request's coordinates and
      the time of the request. */
  function WaypointOf(location: PL.CoordinatesBody, now: int): (w: Waypoint)
    ensures w.latitude == location.latitude && w.longitude == location.longitude
    ensures w.timestamp == Some(now)
  {
    Waypoint(location.latitude, location.longitude, Some(now))
  }

  /** The patrol after one accepted sample: one more waypoint at the end
      of its route, and nothing else changed. */
  function WithWaypoint(p: Patrol, location: PL.CoordinatesBody, now: int): (r: Patrol)
    ensures r.route == p.route + [WaypointOf(location, now)]
    ensures r.(route := p.route) == p
  {
    p.(route := p.route + [WaypointOf(location, now)])
  }

  /** The patrol after accepted samples `locations[i]` at times `times[i]`,
      in this order. */
  function Tracked(p: Patrol, locations: seq<PL.CoordinatesBody>, times: seq<int>): Patrol
    requires |locations| == |times|
    decreases |locations|
  {
    if locations == [] then p
    else WithWaypoint(Tracked(p, locations[..|locations| - 1], times[..|times| - 1]),
                      locations[|locations| - 1], times[|times| - 1])
  }

  /** After n accepted samples the route has grown by exactly n waypoints,
      in call order, behind the earlier ones, and nothing else changed. */
  lemma {:induction false} TrackedRoute(p: Patrol, locations: seq<PL.CoordinatesBody>, times: seq<int>)
    requires |locations| == |times|
    ensures |Tracked(p, locations, times).route| == |p.route| + |locations|
    ensures Tracked(p, locations, times).route[..|p.route|] == p.route
    ensures forall i :: 0 <= i < |locations| ==>
      Tracked(p, locations, times).route[|p.route| + i] == WaypointOf(locations[i], times[i])
    ensures Tracked(p, locations, times).(route := p.route) == p
    decreases |locations|
  {
    if locations != [] {
      var n := |locations| - 1;
      TrackedRoute(p, locations[..n], times[..n]);
      var before := Tracked(p, locations[..n], times[..n]);
      var after := Tracked(p, locations, times);
      assert after.route == before.route + [WaypointOf(locations[n], times[n])];
      forall i | 0 <= i < |locations|
        ensures after.route[|p.route| + i] == WaypointOf(locations[i], times[i])
      {
        if i < n {
          assert locations[..n][i] == locations[i] && times[..n][i] == times[i];
        }
      }
    }
  }

  /** `POST /api/patrols/:id/location`: 404 for an unknown patrol; 500 when
      a coordinate is missing; otherwise the sample is stored under the
      patrol's own officer and the patrol's route grows by one waypoint at
      its end. */
  method AddLocation(db: Store.Db, id: Id, location: Option<PL.CoordinatesBody>,
                     accuracy: Option<real>, speed: Option<real>, now: int)
    returns (r: Reply<(Id, PL.PatrolLocation)>)
    requires db.Valid()
    modifies db
    ensures db.Valid()
    ensures db.officers == old(db.officers) && db.incidents == old(db.incidents) && db.sosAlerts == old(db.sosAlerts)
    ensures id !in old(db.patrols) ==>
      r == Fail(404, NotFound) && db.patrols == old(db.patrols)
      && db.patrolLocations == old(db.patrolLocations) && db.nextId == old(db.nextId)
    ensures id in old(db.patrols) ==>
      var built := PL.NewPatrolLocation(SampleBody(id, old(db.patrols)[id], location, accuracy, speed), now);
      if built.Err? then
        && r == Fail(500, ValidationFailed(built.error))
        && db.patrols == old(db.patrols) && db.patrolLocations == old(db.patrolLocations)
        && db.nextId == old(db.nextId)
      else
        var p := old(db.patrols)[id];
        && r == Success(200, (old(db.nextId), built.value))
        && db.patrolLocations == old(db.patrolLocations)[old(db.nextId) := built.value]
        && db.patrols == old(db.patrols)[id := WithWaypoint(p, location.value, now)]
        && |db.patrolLocations| == |old(db.patrolLocations)| + 1
        && db.nextId == old(db.nextId) + 1
  {
    if id !in db.patrols {
      return Fail(404, NotFound);
    }
    var patrol := db.patrols[id];
    var built := PL.NewPatrolLocation(SampleBody(id, patrol, location, accuracy, speed), now);
    if built.Err? {
      return Fail(500, ValidationFailed(built.error));
    }
    var sampleId := db.nextId;
    db.patrolLocations := db.patrolLocations[sampleId := built.value];
    db.nextId := sampleId + 1;
    db.patrols := db.patrols[id := patrol.(route := patrol.route + [WaypointOf(location.value, now)])];
    assert sampleId !in old(db.patrolLocations);
    r := Success(200, (sampleId, built.value));
  }

  /** A stored sample carries the patrol's officer, the coordinates sent
      and the time of the request; a sample is accepted exactly when both
      coordinates are present. */
  lemma SampleMatchesPatrol(id: Id, patrol: Patrol, location: Option<PL.CoordinatesBody>,
                            accuracy: Option<real>, speed: Option<real>, now: int)
    ensures var built := PL.NewPatrolLocation(SampleBody(id, patrol, location, accuracy, speed), now);
      built.Ok? <==> (location.Some? && location.value.latitude.Some? && location.value.longitude.Some?)
    ensures var built := PL.NewPatrolLocation(SampleBody(id, patrol, location, accuracy, speed), now);
      built.Ok? ==>
        && built.value.officerId == patrol.officerId && built.value.patrolId == id
        && built.value.timestamp == now
        && Some(built.value.location.latitude) == WaypointOf(location.value, now).latitude
        && Some(built.value.location.longitude) == WaypointOf(location.value, now).longitude
  {
  }

  /** The update `PATCH /api/patrols/:id/end` applies: completed, ended
      now, and distance and notes when the body has them. */
  function Ended(p: Patrol, distance: Option<real>, notes: Option<string>, now: int): (r: Patrol)
    ensures r.status == "completed" && r.endTime == Some(now)
    ensures r.distance == distance.GetOr(p.distance)
    ensures r.notes == (if notes.Some? then notes else p.notes)
    ensures r.officerId == p.officerId && r.startTime == p.startTime
    ensures r.route == p.route && r.area == p.area
  {
    p.(status := "completed", endTime := Some(now), distance := distance.GetOr(p.distance),
       notes := if notes.Some? then notes else p.notes)
  }

  /** `PATCH /api/patrols/:id/end`; a missing id changes nothing and
      answers success with null. */
  method End(db: Store.Db, id: Id, distance: Option<real>, notes: Option<string>, now: int)
    returns (r: Reply<Option<(Id, Patrol)>>)
    requires db.Valid()
    modifies db
    ensures db.Valid()
    ensures db.officers == old(db.officers) && db.incidents == old(db.incidents) && db.sosAlerts == old(db.sosAlerts)
    ensures db.patrolLocations == old(db.patrolLocations) && db.nextId == old(db.nextId)
    ensures id in old(db.patrols) ==>
      && db.patrols == old(db.patrols)[id := Ended(old(db.patrols)[id], distance, notes, now)]
      && r == Success(200, Some((id, db.patrols[id])))
    ensures id !in old(db.patrols) ==> db.patrols == old(db.patrols) && r == Success(200, None)
  {
    if id in db.patrols {
      var p := db.patrols[id];
      var ended := p.(status := "completed", endTime := Some(now), distance := distance.GetOr(p.distance),
                      notes := if notes.Some? then notes else p.notes);
      db.patrols := db.patrols[id := ended];
      r := Success(200, Some((id, ended)));
    } else {
      r := Success(200, None);
    }
  }

  /** Ending a patrol keeps its schema valid, and ending it twice only
      moves the end time. */
  lemma EndKeepsValidAndRepeats(p: Patrol, distance: Option<real>, notes: Option<string>, t1: int, t2: int)
    ensures ValidPatrol(Ended(p, distance, notes, t1))
    ensures Ended(Ended(p, distance, notes, t1), distance, notes, t2) == Ended(p, distance, notes, t2)
  {
  }

  /** `GET /api/patrols/:id/locations`: the samples of one patrol, oldest
      first. */
  method ListLocations(db: Store.Db, id: Id) returns (r: Reply<seq<(Id, PL.PatrolLocation)>>)
    ensures r.Success? && r.code == 200
    ensures forall x :: x in r.payload <==>
      x.0 in db.patrolLocations && db.patrolLocations[x.0] == x.1 && x.1.patrolId == id
    ensures Query.DistinctIds(r.payload)
    ensures forall i, j :: 0 <= i < j < |r.payload| ==> r.payload[i].1.timestamp <= r.payload[j].1.timestamp
  {
    var found := Query.Select(db.patrolLocations, (l: PL.PatrolLocation) => l.patrolId == id,
                              (l: PL.PatrolLocation) => -l.timestamp);
    r := Success(200, found);
  }
}
