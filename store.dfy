/** The document database behind the REST routes, as one object holding a
    map from identifier to document per collection. Requests are served one
    at a time and the database never fails. Identifiers come from one
    counter, so a new document never reuses an identifier. */
module Store {
  import opened Common
  import Text
  import OfficerModel
  import IncidentModel
  import PatrolModel
  import PatrolLocationModel
  import SosModel

  class Db {
    var officers: map<Id, OfficerModel.Officer>
    var incidents: map<Id, IncidentModel.Incident>
    var patrols: map<Id, PatrolModel.Patrol>
    var patrolLocations: map<Id, PatrolLocationModel.PatrolLocation>
    var sosAlerts: map<Id, SosModel.Sos>
    var nextId: nat

    /** Every identifier in use is below `nextId`; the officers satisfy
        their schema and its unique indexes; every patrol satisfies its
        schema (its later saves would otherwise fail). */
    ghost predicate Valid()
      reads this
    {
      && (forall k :: k in officers ==> k < nextId)
      && (forall k :: k in incidents ==> k < nextId)
      && (forall k :: k in patrols ==> k < nextId)
      && (forall k :: k in patrolLocations ==> k < nextId)
      && (forall k :: k in sosAlerts ==> k < nextId)
      && (forall k :: k in officers ==> OfficerModel.ValidOfficer(officers[k]))
      && OfficerModel.UniqueOfficers(officers)
      && (forall k :: k in patrols ==> PatrolModel.ValidPatrol(patrols[k]))
    }

    constructor ()
      ensures Valid()
      ensures officers == map[] && incidents == map[] && patrols == map[]
      ensures patrolLocations == map[] && sosAlerts == map[] && nextId == 0
    {
      officers, incidents, patrols := map[], map[], map[];
      patrolLocations, sosAlerts := map[], map[];
      nextId := 0;
    }

    /** Saves a new officer: the schema's validators first, then the unique
        indexes on the (lower-cased) email and on the badge number. */
    method AddOfficer(body: OfficerModel.OfficerBody, now: int) returns (r: Result<Id, Failure>)
      requires Valid()
      modifies this
      ensures Valid()
      ensures incidents == old(incidents) && patrols == old(patrols)
      ensures patrolLocations == old(patrolLocations) && sosAlerts == old(sosAlerts)
      ensures OfficerModel.NewOfficer(body, now).Err? ==>
        r == Err(ValidationFailed(OfficerModel.NewOfficer(body, now).error)) && officers == old(officers)
      ensures OfficerModel.NewOfficer(body, now).Ok? ==>
        var o := OfficerModel.NewOfficer(body, now).value;
        if exists k :: k in old(officers) && old(officers)[k].email == o.email then
          r == Err(DuplicateKey("email")) && officers == old(officers)
        else if exists k :: k in old(officers) && old(officers)[k].badgeNumber == o.badgeNumber then
          r == Err(DuplicateKey("badgeNumber")) && officers == old(officers)
        else
          r == Ok(old(nextId)) && officers == old(officers)[old(nextId) := o]
      ensures r.Ok? ==> nextId == old(nextId) + 1
      ensures r.Err? ==> nextId == old(nextId)
    {
      var built := OfficerModel.NewOfficer(body, now);
      if built.Err? {
        return Err(ValidationFailed(built.error));
      }
      var o := built.value;
      if exists k :: k in officers && officers[k].email == o.email {
        return Err(DuplicateKey("email"));
      }
      if exists k :: k in officers && officers[k].badgeNumber == o.badgeNumber {
        return Err(DuplicateKey("badgeNumber"));
      }
      officers := officers[nextId := o];
      r := Ok(nextId);
      nextId := nextId + 1;
    }
  }

  /** Two stored officers never have emails that agree up to letter case. */
  lemma EmailsDifferIgnoringCase(db: Db, a: Id, b: Id)
    requires db.Valid() && a in db.officers && b in db.officers && a != b
    ensures Text.ToLower(db.officers[a].email) != Text.ToLower(db.officers[b].email)
  {
  }
}
