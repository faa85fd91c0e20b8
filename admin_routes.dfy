/** The admin dashboard routes (van-rakshak-backend/routes/admin.js): the
    headline counters with the five latest incidents and alerts, and the
    officer roster without passwords. */
module AdminRoutes {
  import opened Common
  import Query
  import Store
  import OfficerModel
  import IncidentModel
  import PatrolModel
  import SosModel

  const RecentLimit := 5

  datatype Stats = Stats(activeOfficers: nat, activePatrols: nat, activeSos: nat, totalIncidents: nat)

  datatype Dashboard = Dashboard(
    stats: Stats,
    recentIncidents: seq<(Id, IncidentModel.Incident)>,
    recentSos: seq<(Id, SosModel.Sos)>)

  function Min(a: nat, b: nat): nat { if a < b then a else b }

  /** `GET /api/admin/stats`. */
  method GetStats(db: Store.Db) returns (r: Reply<Dashboard>)
    ensures r.Success? && r.code == 200
    ensures r.payload.stats.activeOfficers == |set k | k in db.officers && db.officers[k].status == "active"|
    ensures r.payload.stats.activePatrols == |set k | k in db.patrols && db.patrols[k].status == "active"|
    ensures r.payload.stats.activeSos == |set k | k in db.sosAlerts && db.sosAlerts[k].status == "active"|
    ensures r.payload.stats.totalIncidents == |db.incidents|
    // the five latest incidents: as many as there are, up to five, newest first, and no
    // incident left out is newer than one listed
    ensures var recent := r.payload.recentIncidents;
      && |recent| == Min(RecentLimit, |db.incidents|)
      && (forall x :: x in recent ==> x.0 in db.incidents && db.incidents[x.0] == x.1)
      && Query.DistinctIds(recent)
      && (forall i, j :: 0 <= i < j < |recent| ==> recent[i].1.timestamp >= recent[j].1.timestamp)
      && (forall k, i :: k in db.incidents && (k, db.incidents[k]) !in recent && 0 <= i < |recent| ==>
            db.incidents[k].timestamp <= recent[i].1.timestamp)
    ensures var recent := r.payload.recentSos;
      && |recent| == Min(RecentLimit, |db.sosAlerts|)
      && (forall x :: x in recent ==> x.0 in db.sosAlerts && db.sosAlerts[x.0] == x.1)
      && Query.DistinctIds(recent)
      && (forall i, j :: 0 <= i < j < |recent| ==> recent[i].1.timestamp >= recent[j].1.timestamp)
      && (forall k, i :: k in db.sosAlerts && (k, db.sosAlerts[k]) !in recent && 0 <= i < |recent| ==>
            db.sosAlerts[k].timestamp <= recent[i].1.timestamp)
  {
    var officers := |set k | k in db.officers && db.officers[k].status == "active"|;
    var patrols := |set k | k in db.patrols && db.patrols[k].status == "active"|;
    var alerts := |set k | k in db.sosAlerts && db.sosAlerts[k].status == "active"|;

    var recentIncidents := Query.Latest(db.incidents, (i: IncidentModel.Incident) => i.timestamp, RecentLimit);
    var recentSos := Query.Latest(db.sosAlerts, (s: SosModel.Sos) => s.timestamp, RecentLimit);
    r := Success(200, Dashboard(Stats(officers, patrols, alerts, |db.incidents|), recentIncidents, recentSos));
  }

  /** `GET /api/admin/officers`: every officer once, without the password. */
  method Officers(db: Store.Db) returns (r: Reply<seq<(Id, OfficerModel.OfficerView)>>)
    ensures r.Success? && r.code == 200
    ensures forall x :: x in r.payload <==> x.0 in db.officers && x.1 == OfficerModel.ViewOf(db.officers[x.0])
    ensures Query.DistinctIds(r.payload)
    ensures |r.payload| == |db.officers|
  {
    var views: seq<(Id, OfficerModel.OfficerView)> := [];
    var todo := db.officers.Keys;
    while todo != {}
      invariant todo <= db.officers.Keys
      invariant forall x :: x in views <==>
        x.0 in db.officers.Keys - todo && x.1 == OfficerModel.ViewOf(db.officers[x.0])
      invariant Query.DistinctIds(views)
      invariant |views| == |db.officers.Keys - todo|
      decreases todo
    {
      var k :| k in todo;
      assert db.officers.Keys - (todo - {k}) == (db.officers.Keys - todo) + {k};
      views := views + [(k, OfficerModel.ViewOf(db.officers[k]))];
      todo := todo - {k};
    }
    assert db.officers.Keys - todo == db.officers.Keys;
    r := Success(200, views);
  }
}
