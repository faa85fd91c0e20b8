/** The community incident report form
    (Van-Rakshak-Community-App/src/components/IncidentReportForm.js): the
    form state, the submit guard, the report it builds, the trigger for
    parsing a voice transcript and the extraction of the JSON object from
    the assistant's reply. What the backend makes of a report is stated
    against the Incident schema. */
module ReportForm {
  import opened Common
  import Text
  import IncidentModel

  /** A captured GPS position. */
  datatype GeoPoint = GeoPoint(latitude: real, longitude: real)

  datatype ReportLocation = ReportLocation(latitude: real, longitude: real, area: string)

  /** The `reportData` object: posted to the backend and handed to
      `onSubmit`. `kind` is its `type` key. */
  datatype Report = Report(kind: string, description: string, location: ReportLocation, image: string, timestamp: int)

  const UnknownArea := "Unknown Area"
  const MinDescription := 20
  const MinTranscript := 15

  /** The form library's rules: a type is chosen and the description is
      required with at least twenty characters. */
  predicate FieldsValid(incidentType: string, description: string) {
    incidentType != "" && description != "" && |description| >= MinDescription
  }

  /** `locationName || 'Unknown Area'`. */
  function Area(locationName: string): (r: string)
    ensures r != ""
    ensures locationName != "" ==> r == locationName
    ensures locationName == "" ==> r == UnknownArea
  {
    if locationName != "" then locationName else UnknownArea
  }

  /** The report built from the form at time `now`. */
  function ReportOf(incidentType: string, description: string, location: GeoPoint,
                    locationName: string, image: string, now: int): (r: Report)
    ensures r.kind == incidentType && r.description == description && r.image == image && r.timestamp == now
    ensures r.location == ReportLocation(location.latitude, location.longitude, Area(locationName))
  {
    Report(incidentType, description, ReportLocation(location.latitude, location.longitude, Area(locationName)),
      image, now)
  }

  /** The fields of the assistant's JSON the form uses. */
  datatype AiData = AiData(incidentType: Option<string>, description: Option<string>)

  /** The voice effect runs the parse only for a transcript longer than
      fifteen characters while no parse is running. */
  predicate ShouldParseVoice(transcript: Option<string>, processing: bool) {
    Truthy(transcript) && |transcript.value| > MinTranscript && !processing
  }

  /** The last `}` of a text lies at or after any `}` in it. */
  lemma LastCloseAfter(text: string, k: nat)
    requires k < |text| && text[k] == '}'
    ensures Text.LastIndexOf(text, '}') >= k
  {
  }

  /** The greedy brace pattern of the reply: from the first `{` to the
      last `}`, when a `}` follows that `{`. */
  function JsonSpan(text: string): (r: Option<string>)
    ensures r.Some? ==> '{' in text && '}' in text
    ensures r.Some? ==>
      && Text.IndexOf(text, '{') < Text.LastIndexOf(text, '}')
      && r.value == text[Text.IndexOf(text, '{')..Text.LastIndexOf(text, '}') + 1]
  {
    if '{' !in text then None
    else
      var i := Text.IndexOf(text, '{');
      if '}' !in text[i..] then None
      else
        var k :| 0 <= k < |text[i..]| && text[i..][k] == '}';
        LastCloseAfter(text, i + k);
        Some(text[i..Text.LastIndexOf(text, '}') + 1])
  }

  /** No span is found exactly when no `}` follows any `{`. */
  lemma JsonSpanFound(text: string)
    ensures JsonSpan(text).None? <==>
      forall i, j :: 0 <= i < j < |text| && text[i] == '{' ==> text[j] != '}'
  {
    if JsonSpan(text).None? && '{' in text {
      var i := Text.IndexOf(text, '{');
      forall a, j | 0 <= a < j < |text| && text[a] == '{' ensures text[j] != '}' {
        assert text[i..][j - i] == text[j];
      }
    } else if JsonSpan(text).Some? {
      var i, j := Text.IndexOf(text, '{'), Text.LastIndexOf(text, '}');
      assert 0 <= i < j < |text| && text[i] == '{' && text[j] == '}';
    }
  }

  /** The span opens with `{` and closes with `}`, and a reply that is
      exactly an object outline is taken whole. */
  lemma JsonSpanShape(text: string)
    ensures JsonSpan(text).Some? ==>
      (|JsonSpan(text).value| >= 2 && JsonSpan(text).value[0] == '{'
       && JsonSpan(text).value[|JsonSpan(text).value| - 1] == '}')
    ensures |text| >= 2 && text[0] == '{' && text[|text| - 1] == '}' ==> JsonSpan(text) == Some(text)
  {
    if |text| >= 2 && text[0] == '{' && text[|text| - 1] == '}' {
      assert text[0..] == text;
      assert text[0..|text|] == text;
    }
  }

  /** The report as the Incident schema reads it when it reaches
      `POST /api/incidents`: type, description, coordinates and timestamp.
      The location's `area` and the `image` key are not schema paths and
      are dropped. No `reportedBy` is sent. */
  function BackendBody(r: Report): (b: IncidentModel.IncidentBody)
    ensures b.kind == Some(r.kind) && b.description == Some(r.description)
    ensures b.reportedBy.None?
  {
    IncidentModel.IncidentBody(Some(r.kind), Some(r.description),
      Some(IncidentModel.LocationBody(Some(r.location.latitude), Some(r.location.longitude), None)),
      None, None, None, None, Some(r.timestamp), None, None)
  }

  /** Every report the form sends is refused by the backend: it lacks
      `reportedBy`; the form's `wildlife` and `illegal` types are not
      schema types either, while `fire` and `other` are. The refusal is
      swallowed by the form. */
  lemma FormReportsRejected(r: Report, now: int)
    ensures IncidentModel.NewIncident(BackendBody(r), now).Err?
    ensures "reportedBy" in IncidentModel.NewIncident(BackendBody(r), now).error
    ensures r.kind in {"wildlife", "illegal"} ==> "type" in IncidentModel.NewIncident(BackendBody(r), now).error
    ensures r.kind in {"fire", "other"} ==> "type" !in IncidentModel.NewIncident(BackendBody(r), now).error
    ensures r.description != "" ==>
      IncidentModel.NewIncident(BackendBody(r), now).error - {"type"} == {"reportedBy"}
  {
  }

  /** The form's state. */
  class IncidentForm {
    var incidentType: string
    var description: string
    var location: Option<GeoPoint>
    var locationName: string
    var imagePreview: Option<string>
    var isSubmitting: bool
    var isAiProcessing: bool

    constructor ()
      ensures incidentType == "" && description == "" && location == None && locationName == ""
      ensures imagePreview == None && !isSubmitting && !isAiProcessing
    {
      incidentType, description, location, locationName := "", "", None, "";
      imagePreview, isSubmitting, isAiProcessing := None, false, false;
    }

    /** `handleSubmit(handleFormSubmit)` at time `now`. The result is the
        report sent to the backend and to `onSubmit` (the backend's
        answer, failure included, does not matter), or `None` when nothing
        is sent. A sent report clears the form. */
    method Submit(now: int) returns (sent: Option<Report>)
      modifies this
      ensures sent.Some? <==> FieldsValid(old(incidentType), old(description)) && old(location).Some? && old(imagePreview).Some?
      ensures sent.Some? ==>
        && sent.value == ReportOf(old(incidentType), old(description), old(location).value,
                                  old(locationName), old(imagePreview).value, now)
        && incidentType == "" && description == "" && location == None && locationName == ""
        && imagePreview == None && !isSubmitting && isAiProcessing == old(isAiProcessing)
      ensures sent.None? ==>
        && incidentType == old(incidentType) && description == old(description)
        && location == old(location) && locationName == old(locationName)
        && imagePreview == old(imagePreview) && isSubmitting == old(isSubmitting)
        && isAiProcessing == old(isAiProcessing)
    {
      if !FieldsValid(incidentType, description) {
        return None;
      }
      if location.None? || imagePreview.None? {
        return None;
      }
      isSubmitting := true;
      var report := ReportOf(incidentType, description, location.value, locationName, imagePreview.value, now);
      sent := Some(report);
      incidentType, description := "", "";
      location, locationName, imagePreview, isSubmitting := None, "", None, false;
    }

    /** The voice effect. `reply` is the assistant's answer to the
        transcript and `parse` stands for `JSON.parse` (`None` when it
        throws); a field is copied only when the parsed value has it. */
    method ParseVoice(transcript: Option<string>, reply: string, parse: string -> Option<AiData>)
      modifies this
      ensures location == old(location) && locationName == old(locationName)
      ensures imagePreview == old(imagePreview) && isSubmitting == old(isSubmitting)
      ensures isAiProcessing == old(isAiProcessing)
      ensures
        var data := if ShouldParseVoice(transcript, old(isAiProcessing)) && JsonSpan(reply).Some?
                    then parse(JsonSpan(reply).value) else None;
        && incidentType == (if data.Some? && Truthy(data.value.incidentType) then data.value.incidentType.value
                            else old(incidentType))
        && description == (if data.Some? && Truthy(data.value.description) then data.value.description.value
                           else old(description))
    {
      if ShouldParseVoice(transcript, isAiProcessing) {
        isAiProcessing := true;
        var span := JsonSpan(reply);
        if span.Some? {
          var data := parse(span.value);
          if data.Some? {
            if Truthy(data.value.incidentType) {
              incidentType := data.value.incidentType.value;
            }
            if Truthy(data.value.description) {
              description := data.value.description.value;
            }
          }
        }
        isAiProcessing := false;
      }
    }
  }
}
