# Van Rakshak forest-protection system, modelled in Dafny

Van Rakshak is a forest-protection system with three parts.

- An Express/MongoDB **backend** takes incident reports, SOS alerts from
  forest officers and patrols with their GPS waypoints. It also serves the
  statistics of an admin dashboard, the officer list and an admin login
  that issues JSON Web Tokens.
- A React **admin console** lists and filters incidents, exports them as
  CSV, acknowledges and resolves SOS alerts, shows a live overview and
  shows the patrolling officers.
- A React **community app** lets a villager log in, report an incident
  (helped by voice dictation parsed by a language model) and browse the
  alerts.

The project models the following, one module per source file:

- **Schemas:** the Mongoose schemas (`IncidentModel`, `OfficerModel`,
  `PatrolModel`, `PatrolLocationModel`, `SosModel`). Each schema has its
  validators, its defaults and its unique indexes. Validation returns the
  set of failing paths.
- **Database:** the collections, as one `Store.Db` object holding a map per
  collection. Identifiers come from a shared counter.
- **Routes:** the REST handlers (`IncidentRoutes`, `SosRoutes`,
  `PatrolRoutes`, `AdminRoutes`, `AuthRoutes`). They are methods on the
  database and state the reply and the whole new state.
- **Queries:** the `find().sort().limit()` queries are the generic methods
  `Query.Select` and `Query.Latest`, which loop over a collection.
- **Admin pages:** the pages are classes whose fields are the React state
  (`AdminIncidents.IncidentsPage`, `AdminSos.SosPage`,
  `AdminOverview.OverviewPage`). Each event handler is a method. The
  incident table is sorted in place on an array (`ArraySort.SortByKey`).
- **Community app:** `CommunityApp.App` and `ReportForm.IncidentForm` are
  classes. The pure helpers (time-ago text, icons, language tags, the login
  rules, the extraction of the JSON object from the model's reply) are
  functions.

Time, the random steps of the overview's simulation, `window.confirm`, the
language model's reply, `JSON.parse` and the JWT library are parameters of
the operations that use them.

`Common` holds `Option`, `Result`, the reply shapes and JavaScript
truthiness. `Text` holds ASCII case mapping, substring search,
split/join with its round trip, and integer rendering. `Lists` holds
`filter` and its properties.

## Model

| member | source | states |
|---|---|---|
| IncidentModel.NewIncident | van-rakshak-backend/models/Incident.js:3-46 | Creation succeeds exactly when no validator fails. A refusal carries exactly the failing paths. A created incident satisfies the schema, with severity "medium", status "reported", timestamp "now" and no images unless the body gives them. |
| IncidentModel.RevalidateStored | van-rakshak-backend/models/Incident.js:3-46 | A document validates back to itself exactly when it satisfies every validator of the schema. |
| IncidentModel.RequiredFieldsRejected | van-rakshak-backend/models/Incident.js:4-28 | A body without type, description, location or reportedBy is refused. |
| IncidentModel.DefaultsOnCreate | van-rakshak-backend/models/Incident.js:29-38 | A valid body without severity or status yields severity "medium" and status "reported". |
| OfficerModel.NewOfficer | van-rakshak-backend/models/Officer.js:3-46 | Creation succeeds exactly when the six required strings are non-empty and the status is listed or absent. The stored email is lower-cased. Status defaults to "active" and createdAt to "now". The other fields are copied. |
| OfficerModel.ViewOf | van-rakshak-backend/routes/admin.js:51 | The view without the password keeps the officer's email, badge number and status. |
| Store.Db.AddOfficer | van-rakshak-backend/models/Officer.js:8-26 | An officer is saved only when valid and when neither the lower-cased email nor the badge number is already taken. Otherwise the validation errors or the duplicate key are reported and nothing changes. The database invariant, including both unique indexes, is kept. |
| Store.EmailsDifferIgnoringCase | van-rakshak-backend/models/Officer.js:8-13 | No two stored officers have emails that are equal up to letter case. |
| PatrolModel.NewPatrol | van-rakshak-backend/models/Patrol.js:3-31 | Creation succeeds exactly when officerId is present and the status is listed or absent. It takes the defaults: startTime "now", status "active", distance 0 and an empty route. |
| PatrolModel.FreshPatrolDefaults | van-rakshak-backend/models/Patrol.js:9-28 | A patrol given only an officer starts now, active, with distance 0 and no waypoints. |
| PatrolLocationModel.NewPatrolLocation | van-rakshak-backend/models/PatrolLocation.js:3-30 | A waypoint is accepted exactly when patrolId, officerId and both coordinates are present. Its timestamp defaults to "now". |
| SosModel.NewSos | van-rakshak-backend/models/SOS.js:3-37 | An alert is accepted exactly when officerId and both coordinates are present and status and priority are listed or absent. Status defaults to "active", priority to "critical" and the timestamp to "now". |
| SosModel.FreshAlertDefaults | van-rakshak-backend/models/SOS.js:18-31 | An alert given only an officer and a position is active and critical, stamped now, with no acknowledgement or resolution. |
| IncidentRoutes.List | van-rakshak-backend/routes/incidents.js:6-29 | The reply lists exactly the stored incidents that match every truthy query filter (status, type, severity), each once, newest first. |
| IncidentRoutes.Create | van-rakshak-backend/routes/incidents.js:32-50 | A valid body is stored under a fresh id and answered with 201. An invalid one is answered with 500 and the failing paths, and nothing is stored. |
| IncidentRoutes.Patched | van-rakshak-backend/routes/incidents.js:55-67 | Truthy status, notes and severity replace the stored ones. Status "resolved" stamps resolvedAt with the request time. Every other field is unchanged. |
| IncidentRoutes.Patch | van-rakshak-backend/routes/incidents.js:53-79 | An existing incident is replaced by its patched form and returned. A missing id yields 200 with a null incident. The other collections are unchanged. |
| IncidentRoutes.Delete | van-rakshak-backend/routes/incidents.js:82-95 | The incident with the id is removed when present. The reply is "Incident deleted" whether or not it existed. |
| IncidentRoutes.PatchIdempotent | van-rakshak-backend/routes/incidents.js:55-67 | Applying the same patch twice at the same time is the same as applying it once. |
| IncidentRoutes.ResolveStampsTime | van-rakshak-backend/routes/incidents.js:61 | Resolving sets the status to "resolved" and a resolvedAt no earlier than the report. |
| IncidentRoutes.PatchKeepsValid | van-rakshak-backend/routes/incidents.js:58-67 | A patch with listed status and severity values keeps a valid incident valid. |
| IncidentRoutes.PatchSkipsValidators | van-rakshak-backend/routes/incidents.js:63-67 | A patch whose status is outside the enumeration is written anyway, and the stored incident no longer satisfies its schema. |
| SosRoutes.List | van-rakshak-backend/routes/sos.js:6-25 | The reply lists exactly the alerts whose status equals a truthy status filter, or all alerts, each once, newest first. |
| SosRoutes.CreateBody | van-rakshak-backend/routes/sos.js:30-38 | Only officerId, location and notes are taken from the request. Priority is forced to "critical" and status to "active". |
| SosRoutes.Create | van-rakshak-backend/routes/sos.js:28-53 | A valid alert is stored under a fresh id with 201. Otherwise the reply is 500 with the failing paths and nothing is stored. |
| SosRoutes.CreatedAlertIsCriticalAndActive | van-rakshak-backend/routes/sos.js:30-40 | Every alert the route creates is critical, active, stamped with the request time and neither acknowledged nor resolved. |
| SosRoutes.Patched | van-rakshak-backend/routes/sos.js:58-72 | A given status and notes are written. "acknowledged" also sets acknowledgedBy and acknowledgedAt; "resolved" sets resolvedAt. The officer, position, timestamp and priority never change. |
| SosRoutes.Patch | van-rakshak-backend/routes/sos.js:56-84 | An existing alert is replaced by its patched form and returned. A missing id yields 200 with a null alert. |
| SosRoutes.NoTransitionOrder | van-rakshak-backend/routes/sos.js:58-66 | A resolved alert can be set back to "active", and its resolvedAt stays. |
| SosRoutes.EmptyStatusWritten | van-rakshak-backend/routes/sos.js:58-59 | An empty status string is stored as it is, since the update runs no validator. |
| PatrolRoutes.List | van-rakshak-backend/routes/patrols.js:7-26 | The reply lists exactly the patrols matching a truthy status filter, each once, latest start first. |
| PatrolRoutes.StartBody | van-rakshak-backend/routes/patrols.js:31-38 | A new patrol takes officerId and area from the request, status "active" and startTime "now", and nothing else. |
| PatrolRoutes.Start | van-rakshak-backend/routes/patrols.js:29-54 | With an officer, the active patrol is stored under a fresh id and returned with 201. Without one, the reply is 500 for path officerId and nothing is stored. |
| PatrolRoutes.SampleBody | van-rakshak-backend/routes/patrols.js:70-76 | A waypoint document carries the patrol's id and officer and the request's location, accuracy and speed. |
| PatrolRoutes.WaypointOf | van-rakshak-backend/routes/patrols.js:81-84 | A route entry copies the request's coordinates and carries the request time. |
| PatrolRoutes.WithWaypoint | van-rakshak-backend/routes/patrols.js:81-86 | Pushing a waypoint appends exactly one entry to the route and changes no other field. |
| PatrolRoutes.TrackedRoute | van-rakshak-backend/routes/patrols.js:57-98 | After n successive samples the route has grown by n entries, in order, the old entries are kept and no other field changed. |
| PatrolRoutes.AddLocation | van-rakshak-backend/routes/patrols.js:57-98 | An unknown patrol yields 404 and nothing changes. An invalid sample yields 500 and nothing changes. Otherwise the sample is stored under a fresh id (one more waypoint document), its route entry is appended to the patrol, and the sample is returned. |
| PatrolRoutes.SampleMatchesPatrol | van-rakshak-backend/routes/patrols.js:70-84 | A sample is saved exactly when both coordinates are given. A saved sample carries the patrol's officer, the request time and the same coordinates as the route entry. |
| PatrolRoutes.Ended | van-rakshak-backend/routes/patrols.js:103-113 | Ending sets status "completed" and endTime "now", and writes distance and notes when given. Officer, start, route and area are unchanged. |
| PatrolRoutes.End | van-rakshak-backend/routes/patrols.js:101-126 | An existing patrol is replaced by its ended form and returned. A missing id yields 200 with a null patrol. |
| PatrolRoutes.EndKeepsValidAndRepeats | van-rakshak-backend/routes/patrols.js:105-113 | An ended patrol satisfies its schema. Ending again only moves endTime to the later time. |
| PatrolRoutes.ListLocations | van-rakshak-backend/routes/patrols.js:129-144 | The reply lists exactly the waypoint documents of the patrol, each once, oldest first. |
| AdminRoutes.GetStats | van-rakshak-backend/routes/admin.js:9-46 | The counts are the numbers of active officers, active patrols and active alerts, and the total number of incidents. Each recent list holds min(5, collection size) distinct stored documents, newest first, and no document left out is newer than a listed one. |
| AdminRoutes.Officers | van-rakshak-backend/routes/admin.js:49-62 | The reply holds one password-free view of every officer and nothing else. |
| AuthRoutes.LoginAsWritten | van-rakshak-backend/routes/auth.js:7-36 | The strict-equality test of the code, with its three outcomes: 200 with a token and role admin, 401 on mismatch, and 500 when no secret is set. |
| AuthRoutes.UnsetCredentialsAdmitEmptyLogin | van-rakshak-backend/routes/auth.js:12 | With neither admin variable set, a login body without email and password is accepted. |
| AuthRoutes.Login | van-rakshak-backend/routes/auth.js:7-36 | The corrected login succeeds exactly when both admin variables are set, both fields equal them and a secret is configured. It never succeeds without both fields. |
| AuthRoutes.LoginAgreesWhenConfigured | van-rakshak-backend/routes/auth.js:12 | When both admin variables are set, the corrected login answers as the code does. |
| AuthRoutes.UnconfiguredRefusesEverybody | van-rakshak-backend/routes/auth.js:12 | When an admin variable is unset, the corrected login refuses every body with 401. |
| AuthRoutes.BearerToken | van-rakshak-backend/routes/auth.js:41 | Without a header there is no token. With one, a token exists exactly when splitting it on spaces yields at least two parts. |
| AuthRoutes.Verify | van-rakshak-backend/routes/auth.js:39-52 | The answer is valid with 200 exactly when the token is non-empty, a secret is set and the token verifies against it. Otherwise it is 401. |
| AuthRoutes.BearerHeaderCarriesToken | van-rakshak-backend/routes/auth.js:41 | The header "Bearer t" yields the token t for any t without spaces. |
| AuthRoutes.IssuedTokenVerifies | van-rakshak-backend/routes/auth.js:7-52 | A token issued by a successful login, sent back as a bearer header, is answered as valid. |
| AuthRoutes.EmptyBearerRefused | van-rakshak-backend/routes/auth.js:41-45 | The header "Bearer " with nothing after it is refused with 401. |
| Query.Select | van-rakshak-backend/routes/incidents.js:15-17 | The result lists exactly the documents that satisfy the filter, each id once, in descending key order. |
| Query.Latest | van-rakshak-backend/routes/admin.js:17-25 | The result holds min(n, collection size) distinct documents in descending key order, and no document left out has a larger key than a listed one. |
| Lists.Keep | van-rakshak-admin/src/pages/Incidents.jsx:92 | The filter keeps every element that passes, with its multiplicity, and drops every element that fails. |
| ArraySort.SortByKey | van-rakshak-admin/src/pages/Incidents.jsx:122-129 | The array is sorted by the comparator's key and is a permutation of its old contents. |
| AdminIncidents.EmptySearchMatchesAll | van-rakshak-admin/src/pages/Incidents.jsx:113-116 | An empty search term matches every incident. |
| AdminIncidents.SearchIgnoresCase | van-rakshak-admin/src/pages/Incidents.jsx:114-116 | A search term and its lower-cased form match the same incidents. |
| AdminIncidents.FilteredSpec | van-rakshak-admin/src/pages/Incidents.jsx:113-120 | The filtered list is a subsequence of the incidents holding exactly those that match the search, status and priority. With no search and both filters "All" it is the whole list. |
| AdminIncidents.PriorityRank | van-rakshak-admin/src/pages/Incidents.jsx:127-128 | Critical, High, Medium and Low rank below 4; every other priority ranks 4. |
| AdminIncidents.PriorityColor | van-rakshak-admin/src/pages/Incidents.jsx:64-72 | A priority gets a colour other than grey exactly when its lower-cased form is critical, high, medium or low. |
| AdminIncidents.StatusColor | van-rakshak-admin/src/pages/Incidents.jsx:74-82 | A status gets a colour other than grey exactly when its lower-cased form is open, in progress, resolved or closed. |
| AdminIncidents.ColorsIgnoreCase | van-rakshak-admin/src/pages/Incidents.jsx:64-82 | Both colour choices ignore letter case. |
| AdminIncidents.StatusChanged | van-rakshak-admin/src/pages/Incidents.jsx:84-88 | The list keeps its length. The rows with the id take the new status and all other rows are unchanged. |
| AdminIncidents.StatusChangeProperties | van-rakshak-admin/src/pages/Incidents.jsx:84-88 | A status change alters only the status of the matching rows, and a second change overrides the first. |
| AdminIncidents.Cells | van-rakshak-admin/src/pages/Incidents.jsx:99-101 | A data row has one cell per header column. |
| AdminIncidents.Lines | van-rakshak-admin/src/pages/Incidents.jsx:97-102 | The export has a header line followed by one comma-joined line per incident, in order. |
| AdminIncidents.CsvRoundTrip | van-rakshak-admin/src/pages/Incidents.jsx:96-102 | When no cell holds a comma or a newline, splitting the CSV on newlines and then on commas gives back the header and every row's cells. |
| AdminIncidents.IncidentsPage.constructor | van-rakshak-admin/src/pages/Incidents.jsx:6-60 | The page starts with the given incidents, an empty search, both filters "All" and sorting "newest". |
| AdminIncidents.IncidentsPage.ChangeStatus | van-rakshak-admin/src/pages/Incidents.jsx:84-88 | The incident list becomes the status-changed list and the filters are untouched. |
| AdminIncidents.IncidentsPage.Delete | van-rakshak-admin/src/pages/Incidents.jsx:90-94 | After confirmation the incidents with the id are removed. Without confirmation nothing changes. |
| AdminIncidents.IncidentsPage.Displayed | van-rakshak-admin/src/pages/Incidents.jsx:112-129 | The displayed rows are a permutation of the filtered rows, sorted by the selected order. With an unknown order they are the filtered rows as they are. |
| AdminIncidents.IncidentsPage.Export | van-rakshak-admin/src/pages/Incidents.jsx:96-129 | The exported CSV is built from the displayed (filtered and sorted) rows. |
| AdminIncidents.DeleteSpec | van-rakshak-admin/src/pages/Incidents.jsx:90-94 | Deleting removes every row with the id and keeps every other row, with its multiplicity and order. |
| AdminIncidents.SortOrders | van-rakshak-admin/src/pages/Incidents.jsx:122-129 | The sorted orders are: newest puts later times first, oldest puts earlier times first, and priority puts Critical before High before Medium before Low. |
| AdminSos.SosPage.constructor | van-rakshak-admin/src/pages/SOS.jsx:6-38 | The page starts with the given alerts and resolved count, and no alert selected. |
| AdminSos.SosPage.Acknowledge | van-rakshak-admin/src/pages/SOS.jsx:49-53 | The alerts become the acknowledged list and the other state is untouched. |
| AdminSos.SosPage.Resolve | van-rakshak-admin/src/pages/SOS.jsx:55-61 | On confirmation the alerts with the id are removed, the resolved count grows by one and the selection is cleared. Otherwise nothing changes. |
| AdminSos.SosPage.Dispatch | van-rakshak-admin/src/pages/SOS.jsx:63-70 | The alerts become the dispatched list and the other state is untouched. |
| AdminSos.Acknowledged | van-rakshak-admin/src/pages/SOS.jsx:49-53 | Every alert with the id becomes "Responding". Every other alert is unchanged. |
| AdminSos.Dispatched | van-rakshak-admin/src/pages/SOS.jsx:63-70 | Every alert with the id gains one dispatched responder. Every other alert is unchanged. |
| AdminSos.CountsBounded | van-rakshak-admin/src/pages/SOS.jsx:94-95 | The active and responding counts together never exceed the number of alerts. |
| AdminSos.AcknowledgeProperties | van-rakshak-admin/src/pages/SOS.jsx:49-53 | Acknowledging changes only the status of the matching alerts. |
| AdminSos.DispatchProperties | van-rakshak-admin/src/pages/SOS.jsx:63-70 | Dispatching changes only the responder count of the matching alerts and leaves both header counts unchanged. |
| AdminSos.ResolveProperties | van-rakshak-admin/src/pages/SOS.jsx:55-61 | Resolving keeps exactly the alerts without the id, in order. |
| AdminSos.PriorityStyle | van-rakshak-admin/src/pages/SOS.jsx:72-83 | Border and text colour agree. The green style is chosen exactly for priorities other than Critical, High and Medium. |
| AdminSos.StatusColor | van-rakshak-admin/src/pages/SOS.jsx:85-92 | A status is grey exactly when it is not Active, Responding or Resolved. |
| AdminOverview.Clamp | van-rakshak-admin/src/pages/overview.jsx:31-32 | The clamped value lies within the bounds and equals the input when the input is already inside them. |
| AdminOverview.TickProperties | van-rakshak-admin/src/pages/overview.jsx:24-37 | After a tick, active patrols lie in 8..15 and pending incidents in 0..10. A step of at most one moves each by at most one, and no other statistic changes. |
| AdminOverview.OverviewPage.constructor | van-rakshak-admin/src/pages/overview.jsx:5-21 | The overview starts with the given statistics and feed, with auto-refresh on. |
| AdminOverview.OverviewPage.Tick | van-rakshak-admin/src/pages/overview.jsx:24-37 | With auto-refresh on, the statistics take their ticked values. With it off, nothing changes. |
| AdminOverview.OverviewPage.Acknowledge | van-rakshak-admin/src/pages/overview.jsx:80-82 | The feed loses the entries with the id and nothing else changes. |
| AdminOverview.OverviewPage.ClearAll | van-rakshak-admin/src/pages/overview.jsx:209 | The feed becomes empty and the statistics are untouched. |
| AdminOverview.AcknowledgeRemovesExactly | van-rakshak-admin/src/pages/overview.jsx:80-82 | Acknowledging keeps exactly the entries with another id, in order. |
| AdminOverview.PriorityColor | van-rakshak-admin/src/pages/overview.jsx:88-95 | A priority is grey exactly when it is not high, medium or low. |
| AdminOverview.PriorityBg | van-rakshak-admin/src/pages/overview.jsx:97-103 | A priority gets the neutral background exactly when it is not high, medium or low. |
| AdminPatrols.StatusColor | van-rakshak-admin/src/pages/Patrols.jsx:77-85 | A status is grey exactly when its lower-cased form is not on duty, patrolling, break or offline. |
| AdminPatrols.StatusColorIgnoresCase | van-rakshak-admin/src/pages/Patrols.jsx:77-85 | The status colour ignores letter case. |
| AdminPatrols.BatteryColor | van-rakshak-admin/src/pages/Patrols.jsx:87-91 | The colour is green above 60, amber above 30 up to 60, and red at 30 or below. |
| AdminPatrols.Repeat | van-rakshak-admin/src/pages/Patrols.jsx:94 | Repeating a glyph n times gives n copies of it. |
| AdminPatrols.SignalBars | van-rakshak-admin/src/pages/Patrols.jsx:93-95 | A strength from 0 to 4 gives four glyphs: the first "strength" are full bars and the rest empty. Any other strength is a RangeError. |
| AdminPatrols.SignalBarsCount | van-rakshak-admin/src/pages/Patrols.jsx:93-95 | The bar string holds exactly "strength" full bars and 4 - strength empty ones. |
| AlertList.ElapsedSeconds | Van-Rakshak-Community-App/src/components/AlertList.js:7 | The elapsed seconds are the floor of the millisecond difference divided by 1000. |
| AlertList.Bucket | Van-Rakshak-Community-App/src/components/AlertList.js:9-12 | Under 60 seconds the unit is seconds, under an hour minutes, under a day hours, and days otherwise. Each count is the floor of the elapsed time in that unit. |
| AlertList.BucketMonotone | Van-Rakshak-Community-App/src/components/AlertList.js:9-12 | A longer elapsed time never gives a smaller unit, nor a smaller count in the same unit. |
| AlertList.Title | Van-Rakshak-Community-App/src/components/AlertList.js:54 | A description of at most 70 characters is shown whole. A longer one shows its first 70 characters followed by "...". |
| AlertList.AlertIcon | Van-Rakshak-Community-App/src/components/AlertList.js:25-32 | The loudspeaker icon is shown exactly for types other than fire, wildlife and illegal. |
| AlertDetail.SameAsAlertList | Van-Rakshak-Community-App/src/components/AlertDetailModal.js:4-13 | The modal's time-ago text equals the alert list's for every pair of times. |
| AlertDetail.Boundaries | Van-Rakshak-Community-App/src/components/AlertDetailModal.js:4-13 | At a minute, an hour and a day the unit changes. A report from the future reads as negative seconds. |
| AlertDetail.IncidentIcon | Van-Rakshak-Community-App/src/components/AlertDetailModal.js:16-23 | The modal's icon equals the alert list's icon for every type. |
| AlertDetail.SeverityLabel | Van-Rakshak-Community-App/src/components/AlertDetailModal.js:70 | The label has the severity's length, no lower-case letter, and differs from it only in letter case. |
| LoginForm.Errors | Van-Rakshak-Community-App/src/components/LoginForm.js:28-48 | A name or village shorter than 3 characters is an error. A phone that is not exactly ten digits is an error. Nothing else is. |
| LoginForm.Submit | Van-Rakshak-Community-App/src/components/LoginForm.js:7-13 | A user is handed on exactly when the form has no error, and it carries the entered name, phone and village. |
| VoiceRecorder.LanguageCode | Van-Rakshak-Community-App/src/components/VoiceRecorder.js:6-9 | en, hi, ta and kn map to en-US, hi-IN, ta-IN and kn-IN. Every other language maps to en-US. |
| VoiceRecorder.RecognizerLanguage | Van-Rakshak-Community-App/src/components/VoiceRecorder.js:50-54 | An unset or empty UI language gives en-US. Otherwise the tag is the language's code. |
| VoiceRecorder.TagKeepsLanguage | Van-Rakshak-Community-App/src/components/VoiceRecorder.js:7 | Each supported language's tag starts with the language itself. |
| ReportForm.Area | Van-Rakshak-Community-App/src/components/IncidentReportForm.js:96 | The area is the location name, or "Unknown Area" when the name is empty; it is never empty. |
| ReportForm.ReportOf | Van-Rakshak-Community-App/src/components/IncidentReportForm.js:93-99 | The report carries the chosen type, the description, the captured coordinates with the area, the image and the submit time. |
| ReportForm.JsonSpan | Van-Rakshak-Community-App/src/components/IncidentReportForm.js:37 | A found span runs from the first "{" to the last "}" of the reply, and that "}" comes after that "{". |
| ReportForm.JsonSpanFound | Van-Rakshak-Community-App/src/components/IncidentReportForm.js:37-39 | No span is found exactly when no "}" follows any "{". |
| ReportForm.JsonSpanShape | Van-Rakshak-Community-App/src/components/IncidentReportForm.js:37 | A span opens with "{" and closes with "}". A reply that is itself braced is taken whole. |
| ReportForm.BackendBody | Van-Rakshak-Community-App/src/components/IncidentReportForm.js:93-101 | The posted report gives the backend its type and description, and no reportedBy. |
| ReportForm.FormReportsRejected | Van-Rakshak-Community-App/src/components/IncidentReportForm.js:93-101 | The backend refuses every report the form posts, for want of reportedBy. The wildlife and illegal types also fail the type enumeration; fire and other pass it. |
| ReportForm.IncidentForm.constructor | Van-Rakshak-Community-App/src/components/IncidentReportForm.js:17-21 | The form starts empty, with no location, no image and nothing in progress. |
| ReportForm.IncidentForm.Submit | Van-Rakshak-Community-App/src/components/IncidentReportForm.js:85-106 | A report is sent exactly when type and description pass the form rules and a location and an image are present. It is built from the form and the form is then cleared. Otherwise the form is unchanged. |
| ReportForm.IncidentForm.ParseVoice | Van-Rakshak-Community-App/src/components/IncidentReportForm.js:29-53 | Only a transcript longer than 15 characters, while no parse is running, is parsed. A truthy type or description in the parsed object overwrites the form field; everything else is unchanged. |
| CommunityApp.Severity | Van-Rakshak-Community-App/src/App.js:55 | The severity is "high" exactly for a fire incidentType and "medium" otherwise. |
| CommunityApp.Stamped | Van-Rakshak-Community-App/src/App.js:49-57 | A new incident keeps the reported fields and gets the time as id and timestamp, the distance "Your location", its severity and the current user as reporter. |
| CommunityApp.FromForm | Van-Rakshak-Community-App/src/components/IncidentReportForm.js:93-103 | A form report reaches the app with its type under "type" and no incidentType. |
| CommunityApp.FormReportsAreMedium | Van-Rakshak-Community-App/src/App.js:55 | Every report from the form, a fire report included, is stored with severity "medium". |
| CommunityApp.App.constructor | Van-Rakshak-Community-App/src/App.js:11-27 | The app starts with the given incidents, nobody logged in and the login tab. |
| CommunityApp.App.AddIncident | Van-Rakshak-Community-App/src/App.js:49-60 | The stamped incident is put first, the rest follow unchanged, and the alerts tab opens. |
| CommunityApp.App.Login | Van-Rakshak-Community-App/src/App.js:62-65 | The user becomes current and the report tab opens. |
| CommunityApp.App.Logout | Van-Rakshak-Community-App/src/App.js:67-72 | After confirmation nobody is logged in and the login tab returns. Without it nothing changes. |
| CommunityApp.App.Screen | Van-Rakshak-Community-App/src/App.js:74-76 | The login screen is shown exactly when nobody is logged in. |

## Left out

- Network, MongoDB and Express plumbing: the database never fails, so the 500 replies for database errors are not modelled. `populate` joins and the JSON envelopes (`success`, field names) are left out too.
- ObjectId generation and casting: ids are natural numbers from one counter, so a malformed id in a URL (a CastError, answered with 500) has no counterpart.
- Each request reads the clock once (`now`). In the source, the waypoint's schema default and the route entry's `new Date()` are two readings.
- PatrolRoutes.AddLocation: the waypoint document and the patrol are saved one after the other, and a crash between the two saves is not modelled.
- JSON `null` in a request body is treated like an absent field.
- Query.Select and Query.Latest: documents with equal sort keys may come in any order; MongoDB's tie order is not modelled.
- The JWT library is a parameter: the token is given to the login, and `jwt.verify` is a predicate given to `Verify`. Expiry (`24h`) is not modelled.
- bcrypt is imported by the login route but not used, and is not modelled.
- Text.ToLower and Text.ToUpper cover ASCII letters only. JavaScript's Unicode case mapping is not modelled, so AdminIncidents.SearchIgnoresCase and the colour lemmas speak of ASCII case only.
- AlertList.Title counts characters, where JavaScript's `substring` and `length` count UTF-16 code units; they differ for text outside the Basic Multilingual Plane.
- AdminIncidents.IncidentsPage.Displayed: does not state that the sort is stable, which `Array.prototype.sort` is. Date strings are turned into times by a `time` parameter, not parsed.
- AdminIncidents.PriorityRank: an unknown priority ranks 4, whereas the source comparator compares `undefined` and gets NaN. The source's order for such rows is implementation-defined.
- OfficerModel.ViewOf: states only the fields the admin views use (email, badge number, status), not every copied field.
- ReportForm.IncidentForm.ParseVoice: the 1.5-second debounce and the cancellation of a pending parse are not modelled. The reply's `trim()` is dropped because it does not change the braced span. A failing model call is an absent reply.
- ReportForm.IncidentForm: geolocation and reverse geocoding, image reading and language switching are inputs, and `alert` messages are not modelled.
- CommunityApp: `localStorage` persistence, speech recognition, `selectedIncident` and the tab buttons are left out.
- AdminSos: the one-second flashing timer and the `alert` after dispatch are left out. `selectedAlert` is kept only as a field that resolving clears.
- AdminOverview: `Math.random` is the step parameter (a value in -1..1 in the source). The time-range selector and `handleViewDetails` (an `alert`) are left out.
- AlertList: the `getSeverityClass` CSS class string and the per-minute re-render timer are left out.
- VoiceRecorder.LanguageCode: inherited object keys (`codes["toString"]`) are not modelled; every unlisted language maps to en-US.
- The context files (admin login page, protected route, analytics, role selection, API clients, i18n configuration) are not part of this model.

## Findings

| source | as written | input that shows it | evidently intended | confidence | as-written member | corrected member |
|---|---|---|---|---|---|---|
| van-rakshak-backend/routes/auth.js:12 | The login compares the request's `email` and `password` to `ADMIN_EMAIL` and `ADMIN_PASSWORD` with `===`. An unset variable is `undefined`, and so is a missing field. | ADMIN_EMAIL and ADMIN_PASSWORD unset, JWT_SECRET set, body `{}`: the login succeeds and returns an admin token. | No login succeeds unless both admin variables are configured and both fields are given and equal them. | not executed | AuthRoutes.UnsetCredentialsAdmitEmptyLogin | AuthRoutes.UnconfiguredRefusesEverybody |
