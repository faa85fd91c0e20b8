/** The Officer schema (van-rakshak-backend/models/Officer.js): field
    personnel accounts, with the email stored lower-cased and the unique
    indexes on email and badge number stated over the whole collection. */
module OfficerModel {
  import opened Common
  import Text

  const OfficerStatuses: set<string> := {"active", "inactive", "on-leave"}
  const DefaultStatus := "active"

  datatype CurrentLocation = CurrentLocation(latitude: Option<real>, longitude: Option<real>, timestamp: Option<int>)

  datatype Officer = Officer(
    name: string,
    email: string,
    password: string,
    phone: string,
    badgeNumber: string,
    station: string,
    status: string,
    currentLocation: CurrentLocation,
    deviceToken: Option<string>,
    createdAt: int)

  datatype OfficerBody = OfficerBody(
    name: Option<string>,
    email: Option<string>,
    password: Option<string>,
    phone: Option<string>,
    badgeNumber: Option<string>,
    station: Option<string>,
    status: Option<string>,
    currentLocation: CurrentLocation,
    deviceToken: Option<string>,
    createdAt: Option<int>)

  predicate RequiredString(s: Option<string>) {
    s.Some? && s.value != ""
  }

  function Errors(body: OfficerBody): set<string> {
    (if RequiredString(body.name) then {} else {"name"})
    + (if RequiredString(body.email) then {} else {"email"})
    + (if RequiredString(body.password) then {} else {"password"})
    + (if RequiredString(body.phone) then {} else {"phone"})
    + (if RequiredString(body.badgeNumber) then {} else {"badgeNumber"})
    + (if RequiredString(body.station) then {} else {"station"})
    + (if body.status.None? || body.status.value in OfficerStatuses then {} else {"status"})
  }

  predicate ValidOfficer(o: Officer) {
    && o.name != "" && o.email != "" && o.password != "" && o.phone != ""
    && o.badgeNumber != "" && o.station != ""
    && o.status in OfficerStatuses
    && o.email == Text.ToLower(o.email)
  }

  /** `new Officer(body)` followed by validation; the email is lower-cased
      as it is set. */
  function NewOfficer(body: OfficerBody, now: int): (r: Result<Officer, set<string>>)
    ensures r.Ok? <==> Errors(body) == {}
    ensures r.Err? ==> r.error == Errors(body)
    ensures r.Ok? ==> ValidOfficer(r.value)
    ensures r.Ok? ==> r.value.email == Text.ToLower(body.email.value)
    ensures r.Ok? ==> r.value.status == body.status.GetOr(DefaultStatus)
    ensures r.Ok? ==> r.value.createdAt == body.createdAt.GetOr(now)
    ensures r.Ok? ==> && r.value.name == body.name.value && r.value.password == body.password.value
                      && r.value.phone == body.phone.value && r.value.badgeNumber == body.badgeNumber.value
                      && r.value.station == body.station.value
    ensures r.Ok? ==> r.value.currentLocation == body.currentLocation && r.value.deviceToken == body.deviceToken
  {
    var errors := Errors(body);
    if errors != {} then Err(errors)
    else
      Text.ToLowerIdempotent(body.email.value);
      Ok(Officer(body.name.value, Text.ToLower(body.email.value), body.password.value,
        body.phone.value, body.badgeNumber.value, body.station.value,
        body.status.GetOr(DefaultStatus), body.currentLocation, body.deviceToken,
        body.createdAt.GetOr(now)))
  }

  /** The unique indexes: no two officers share an email or a badge number. */
  predicate UniqueOfficers(officers: map<Id, Officer>) {
    forall a, b :: a in officers && b in officers && a != b ==>
      officers[a].email != officers[b].email && officers[a].badgeNumber != officers[b].badgeNumber
  }

  /** What `select('-password')` leaves of an officer. */
  datatype OfficerView = OfficerView(
    name: string, email: string, phone: string, badgeNumber: string, station: string,
    status: string, currentLocation: CurrentLocation, deviceToken: Option<string>, createdAt: int)

  function ViewOf(o: Officer): (v: OfficerView)
    ensures v.email == o.email && v.badgeNumber == o.badgeNumber && v.status == o.status
  {
    OfficerView(o.name, o.email, o.phone, o.badgeNumber, o.station, o.status,
      o.currentLocation, o.deviceToken, o.createdAt)
  }
}
