/** The citizens' report form: eight text fields edited one at a time, an
    optional photo, the device location, a required-field check, the record
    sent to the store, and the submitting/submitted flags with their reset. */
module ReportHygiene {
  import opened Common
  import opened Store
  import opened HygieneReports

  // ------------------------------------------------------------ form fields

  /** `formData`: every field is the text of its input, "" while untouched. */
  datatype FormData = FormData(
    reporterName: string,
    reporterPhone: string,
    issueType: string,
    description: string,
    severity: string,
    latitude: string,
    longitude: string,
    photoUrl: string)

  const InitialFormData: FormData := FormData("", "", "", "", "", "", "", "")

  datatype Field = ReporterName | ReporterPhone | IssueTypeField | Description | SeverityField
                 | Latitude | Longitude | PhotoUrl

  /** The text of one field. */
  function Get(f: FormData, field: Field): string {
    match field
    case ReporterName => f.reporterName
    case ReporterPhone => f.reporterPhone
    case IssueTypeField => f.issueType
    case Description => f.description
    case SeverityField => f.severity
    case Latitude => f.latitude
    case Longitude => f.longitude
    case PhotoUrl => f.photoUrl
  }

  /** `setFormData(prev => ({ ...prev, field: value }))`: that field gets the
      value and every other field keeps its text. */
  function WithField(f: FormData, field: Field, value: string): (g: FormData)
    ensures Get(g, field) == value
    ensures forall other :: other != field ==> Get(g, other) == Get(f, other)
  {
    match field
    case ReporterName => f.(reporterName := value)
    case ReporterPhone => f.(reporterPhone := value)
    case IssueTypeField => f.(issueType := value)
    case Description => f.(description := value)
    case SeverityField => f.(severity := value)
    case Latitude => f.(latitude := value)
    case Longitude => f.(longitude := value)
    case PhotoUrl => f.(photoUrl := value)
  }

  /** Two forms with the same text in every field are the same form. */
  lemma FormDataExtensional(f: FormData, g: FormData)
    requires forall field :: Get(f, field) == Get(g, field)
    ensures f == g
  {
    assert Get(f, ReporterName) == Get(g, ReporterName) && Get(f, ReporterPhone) == Get(g, ReporterPhone);
    assert Get(f, IssueTypeField) == Get(g, IssueTypeField) && Get(f, Description) == Get(g, Description);
    assert Get(f, SeverityField) == Get(g, SeverityField) && Get(f, Latitude) == Get(g, Latitude);
    assert Get(f, Longitude) == Get(g, Longitude) && Get(f, PhotoUrl) == Get(g, PhotoUrl);
  }

  /** Setting a field back to the text it had undoes the edit. */
  lemma {:induction false} EditUndone(f: FormData, field: Field, value: string)
    ensures WithField(WithField(f, field, value), field, Get(f, field)) == f
  {
    var g := WithField(WithField(f, field, value), field, Get(f, field));
    forall other ensures Get(g, other) == Get(f, other) {
    }
    FormDataExtensional(g, f);
  }

  /** The fields whose emptiness blocks the submit. */
  predicate IsRequired(field: Field) {
    field in {IssueTypeField, Description, SeverityField, Latitude, Longitude}
  }

  /** The check at the top of `handleSubmit`: the five required fields are non-empty. */
  predicate RequiredFieldsFilled(f: FormData) {
    f.issueType != "" && f.description != "" && f.severity != "" && f.latitude != "" && f.longitude != ""
  }

  /** The check is exactly "every required field is non-empty"; the reporter's
      name and phone and the photo are optional. */
  lemma RequiredFieldsRule(f: FormData)
    ensures RequiredFieldsFilled(f) <==> forall field :: IsRequired(field) ==> Get(f, field) != ""
    ensures !RequiredFieldsFilled(InitialFormData)
  {
    if !RequiredFieldsFilled(f) {
      if f.issueType == "" { assert IsRequired(IssueTypeField); }
      else if f.description == "" { assert IsRequired(Description); }
      else if f.severity == "" { assert IsRequired(SeverityField); }
      else if f.latitude == "" { assert IsRequired(Latitude); }
      else { assert IsRequired(Longitude); }
    }
  }

  /** Editing an optional field never changes whether the form may be submitted. */
  lemma OptionalEditKeepsValidity(f: FormData, field: Field, value: string)
    requires !IsRequired(field)
    ensures RequiredFieldsFilled(WithField(f, field, value)) == RequiredFieldsFilled(f)
  {
  }

  // ------------------------------------------------------------ the choices

  /** `issueTypes`: the issue-type select's value and label pairs. */
  const IssueTypeChoices: seq<(string, string)> := [
    ("garbage_disposal", "Garbage Disposal Issues"),
    ("water_contamination", "Water Contamination"),
    ("food_safety", "Food Safety Concerns"),
    ("cleanliness", "General Cleanliness"),
    ("drainage", "Drainage Problems"),
    ("other", "Other Issues")]

  datatype SeverityChoice = SeverityChoice(value: string, caption: string, color: string, desc: string)

  /** `severityLevels`: the severity select's entries. */
  const SeverityChoices: seq<SeverityChoice> := [
    SeverityChoice("low", "Low Priority", "text-green-600", "Minor cleanliness issue"),
    SeverityChoice("medium", "Medium Priority", "text-yellow-600", "Moderate hygiene concern"),
    SeverityChoice("high", "High Priority", "text-orange-600", "Serious hygiene violation"),
    SeverityChoice("critical", "Critical", "text-red-600", "Immediate health hazard")]

  /** The values the issue-type select can put into the form: exactly the
      schema's issue-type names, in the schema's order. */
  function IssueTypeValues(): (vs: seq<string>)
    ensures vs == IssueTypeNames
  {
    seq(|IssueTypeChoices|, i requires 0 <= i < |IssueTypeChoices| => IssueTypeChoices[i].0)
  }

  /** The values the severity select can put into the form: exactly the
      schema's severity names, in the schema's order. */
  function SeverityValues(): (vs: seq<string>)
    ensures vs == SeverityNames
  {
    seq(|SeverityChoices|, i requires 0 <= i < |SeverityChoices| => SeverityChoices[i].value)
  }

  /** The selects offer exactly the schema's enumerations, in the schema's order,
      so a value picked from them always passes the schema. */
  lemma ChoicesMatchSchema()
    ensures IssueTypeValues() == IssueTypeNames
    ensures SeverityValues() == SeverityNames
    ensures forall i :: 0 <= i < |IssueTypeChoices| ==> ParseIssueType(IssueTypeChoices[i].0).Some?
    ensures forall i :: 0 <= i < |SeverityChoices| ==> ParseSeverity(SeverityChoices[i].value).Some?
  {
  }

  // ------------------------------------------------------------ the record sent

  /** The record `create` receives: every form field as typed, latitude and
      longitude through `parseFloat` (None stands for NaN, which is stored as
      null), and no vendor_id, status or resolved_date. */
  function Payload(f: FormData, parseFloat: string -> Option<real>): (r: ReportRecord)
    ensures r.vendorId.None? && r.status.None? && r.resolvedDate.None?
    ensures r.latitude == parseFloat(f.latitude) && r.longitude == parseFloat(f.longitude)
    ensures r.issueType == Some(f.issueType) && r.severity == Some(f.severity) && r.description == Some(f.description)
    ensures r.reporterName == Some(f.reporterName) && r.reporterPhone == Some(f.reporterPhone)
    ensures r.photoUrl == Some(f.photoUrl)
  {
    ReportRecord(None, Some(f.reporterName), Some(f.reporterPhone), Some(f.issueType), Some(f.description),
                 Some(f.severity), parseFloat(f.latitude), parseFloat(f.longitude), None, Some(f.photoUrl), None)
  }

  /** The store accepts the record exactly when both selects hold a schema value
      and both coordinates parse; the report it stores is open, linked to no
      vendor, unresolved, and carries the form's text. */
  lemma PayloadDecodes(f: FormData, parseFloat: string -> Option<real>)
    ensures Decode(Payload(f, parseFloat)).Some? <==>
              f.issueType in IssueTypeNames && f.severity in SeverityNames
              && parseFloat(f.latitude).Some? && parseFloat(f.longitude).Some?
    ensures Decode(Payload(f, parseFloat)).Some? ==>
              var h := Decode(Payload(f, parseFloat)).value;
              && h.status == Open && h.vendorId.None? && h.resolvedDate.None?
              && IssueTypeName(h.issueType) == f.issueType && SeverityName(h.severity) == f.severity
              && h.description == f.description && h.latitude == parseFloat(f.latitude).value
              && ResolutionConsistent(h)
  {
  }

  // ------------------------------------------------------------ the page

  datatype SubmitOutcome = MissingFields | CreateFailed | Created

  class ReportHygienePage {
    var formData: FormData
    var photo: Option<string>
    var isSubmitting: bool
    var submitted: bool
    var locationLoading: bool

    /** The state the page starts in and `resetForm` returns to. */
    predicate IsPristine()
      reads this
    {
      formData == InitialFormData && photo.None? && !isSubmitting && !submitted && !locationLoading
    }

    constructor ()
      ensures IsPristine()
    {
      formData := InitialFormData;
      photo := None;
      isSubmitting := false;
      submitted := false;
      locationLoading := false;
    }

    /** An input's or a select's change handler. The photo URL has no input:
        only the upload writes it. */
    method EditField(field: Field, value: string)
      requires field != PhotoUrl
      modifies this`formData
      ensures formData == WithField(old(formData), field, value)
    {
      formData := WithField(formData, field, value);
    }

    /** `getCurrentLocation`: a fix fills latitude and longitude with the
        position's text (located); no fix leaves the form as it was; either way
        the location spinner is off at the end. */
    method GetCurrentLocation(located: Option<(string, string)>)
      modifies this`formData, this`locationLoading
      ensures located.Some? ==> formData == old(formData).(latitude := located.value.0, longitude := located.value.1)
      ensures located.None? ==> formData == old(formData)
      ensures !locationLoading
    {
      locationLoading := true;
      if located.Some? {
        formData := WithField(WithField(formData, Latitude, located.value.0), Longitude, located.value.1);
      }
      locationLoading := false;
    }

    /** `handlePhotoUpload`: a chosen file is remembered at once; its uploaded URL
        (None when the upload fails) becomes photo_url. No file, no change. */
    method HandlePhotoUpload(file: Option<string>, uploadedUrl: Option<string>)
      modifies this`photo, this`formData
      ensures file.None? ==> photo == old(photo) && formData == old(formData)
      ensures file.Some? ==> photo == file
      ensures file.Some? && uploadedUrl.Some? ==> formData == WithField(old(formData), PhotoUrl, uploadedUrl.value)
      ensures file.Some? && uploadedUrl.None? ==> formData == old(formData)
    {
      if file.Some? {
        photo := file;
        if uploadedUrl.Some? {
          formData := WithField(formData, PhotoUrl, uploadedUrl.value);
        }
      }
    }

    /** `handleSubmit`. With a required field empty nothing is sent and nothing
        changes. Otherwise isSubmitting is on while `create` runs and off after;
        submitted turns on exactly when the store took the report. */
    method HandleSubmit(store: EntityStore, parseFloat: string -> Option<real>, newId: Id, createFails: bool)
      returns (outcome: SubmitOutcome)
      requires !isSubmitting && !submitted
      requires forall i :: 0 <= i < |store.reports| ==> store.reports[i].id != newId
      modifies this`isSubmitting, this`submitted, store
      ensures outcome == MissingFields <==> !RequiredFieldsFilled(formData)
      ensures outcome == Created <==>
                RequiredFieldsFilled(formData) && !createFails && Decode(Payload(formData, parseFloat)).Some?
      ensures submitted <==> outcome == Created
      ensures !isSubmitting
      ensures outcome == Created ==>
                store.reports == [Entity(newId, Decode(Payload(formData, parseFloat)).value)] + old(store.reports)
      ensures outcome != Created ==> store.reports == old(store.reports)
      ensures store.vendors == old(store.vendors) && store.zones == old(store.zones)
      ensures UniqueIds(old(store.reports)) ==> UniqueIds(store.reports)
    {
      if !RequiredFieldsFilled(formData) {
        return MissingFields;
      }
      isSubmitting := true;
      var ok := store.CreateReport(Payload(formData, parseFloat), newId, createFails);
      if ok {
        submitted := true;
        outcome := Created;
      } else {
        outcome := CreateFailed;
      }
      isSubmitting := false;
    }

    /** `resetForm`: every field back to "", no photo, not submitted. */
    method ResetForm()
      modifies this`formData, this`photo, this`submitted
      ensures formData == InitialFormData && photo.None? && !submitted
      ensures !isSubmitting && !locationLoading ==> IsPristine()
    {
      formData := InitialFormData;
      photo := None;
      submitted := false;
    }
  }

  /** "Submit Another Report" after a successful submit: the page is pristine
      again, so submitting it straight away sends nothing. */
  method ResetThenSubmit(page: ReportHygienePage, store: EntityStore, parseFloat: string -> Option<real>,
                         newId: Id, createFails: bool) returns (outcome: SubmitOutcome)
    requires page.submitted && !page.isSubmitting && !page.locationLoading
    requires forall i :: 0 <= i < |store.reports| ==> store.reports[i].id != newId
    modifies page, store
    ensures page.IsPristine()
    ensures outcome == MissingFields
    ensures store.reports == old(store.reports)
  {
    page.ResetForm();
    RequiredFieldsRule(page.formData);
    outcome := page.HandleSubmit(store, parseFloat, newId, createFails);
  }
}
