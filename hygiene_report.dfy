/** The HygieneReport entity schema: a citizen's complaint about sanitation
    at a location. Three closed enumerations, five required fields, an
    optional link to a vendor, and a status that is `open` when omitted. */
module HygieneReports {
  import opened Common

  /** issue_type: exactly six values. */
  datatype IssueType = GarbageDisposal | WaterContamination | FoodSafety | Cleanliness | Drainage | OtherIssue

  const AllIssueTypes: seq<IssueType> :=
    [GarbageDisposal, WaterContamination, FoodSafety, Cleanliness, Drainage, OtherIssue]

  const IssueTypeNames: seq<string> :=
    ["garbage_disposal", "water_contamination", "food_safety", "cleanliness", "drainage", "other"]

  function IssueTypeName(t: IssueType): (s: string)
    ensures s == IssueTypeNames[IssueTypeIndex(t)] && ParseIssueType(s) == Some(t)
  {
    match t
    case GarbageDisposal => "garbage_disposal"
    case WaterContamination => "water_contamination"
    case FoodSafety => "food_safety"
    case Cleanliness => "cleanliness"
    case Drainage => "drainage"
    case OtherIssue => "other"
  }

  /** The schema's enum check for issue_type: only the six names are accepted. */
  function ParseIssueType(s: string): (r: Option<IssueType>)
    ensures r.Some? <==> s in IssueTypeNames
    ensures r.Some? ==> IssueTypeNames[IssueTypeIndex(r.value)] == s
  {
    if s == "garbage_disposal" then Some(GarbageDisposal)
    else if s == "water_contamination" then Some(WaterContamination)
    else if s == "food_safety" then Some(FoodSafety)
    else if s == "cleanliness" then Some(Cleanliness)
    else if s == "drainage" then Some(Drainage)
    else if s == "other" then Some(OtherIssue)
    else None
  }

  /** Position of an issue type in the schema's list. */
  function IssueTypeIndex(t: IssueType): (i: nat)
    ensures i < |AllIssueTypes| && AllIssueTypes[i] == t
  {
    match t
    case GarbageDisposal => 0
    case WaterContamination => 1
    case FoodSafety => 2
    case Cleanliness => 3
    case Drainage => 4
    case OtherIssue => 5
  }

  /** severity: low, medium, high, critical. */
  datatype Severity = Low | Medium | High | Critical

  const AllSeverities: seq<Severity> := [Low, Medium, High, Critical]

  const SeverityNames: seq<string> := ["low", "medium", "high", "critical"]

  function SeverityName(v: Severity): (s: string)
    ensures s == SeverityNames[SeverityIndex(v)] && ParseSeverity(s) == Some(v)
  {
    match v
    case Low => "low"
    case Medium => "medium"
    case High => "high"
    case Critical => "critical"
  }

  function ParseSeverity(s: string): (r: Option<Severity>)
    ensures r.Some? <==> s in SeverityNames
    ensures r.Some? ==> SeverityNames[SeverityIndex(r.value)] == s
  {
    if s == "low" then Some(Low)
    else if s == "medium" then Some(Medium)
    else if s == "high" then Some(High)
    else if s == "critical" then Some(Critical)
    else None
  }

  function SeverityIndex(v: Severity): (i: nat)
    ensures i < |AllSeverities| && AllSeverities[i] == v
  {
    match v
    case Low => 0
    case Medium => 1
    case High => 2
    case Critical => 3
  }

  /** status: open, investigating, resolved, dismissed. */
  datatype ReportStatus = Open | Investigating | Resolved | Dismissed

  const AllReportStatuses: seq<ReportStatus> := [Open, Investigating, Resolved, Dismissed]

  const ReportStatusNames: seq<string> := ["open", "investigating", "resolved", "dismissed"]

  /** The schema's default for an omitted status. */
  const DefaultReportStatus: ReportStatus := Open

  function ReportStatusName(v: ReportStatus): (s: string)
    ensures s == ReportStatusNames[ReportStatusIndex(v)] && ParseReportStatus(s) == Some(v)
  {
    match v
    case Open => "open"
    case Investigating => "investigating"
    case Resolved => "resolved"
    case Dismissed => "dismissed"
  }

  function ParseReportStatus(s: string): (r: Option<ReportStatus>)
    ensures r.Some? <==> s in ReportStatusNames
    ensures r.Some? ==> ReportStatusNames[ReportStatusIndex(r.value)] == s
  {
    if s == "open" then Some(Open)
    else if s == "investigating" then Some(Investigating)
    else if s == "resolved" then Some(Resolved)
    else if s == "dismissed" then Some(Dismissed)
    else None
  }

  function ReportStatusIndex(v: ReportStatus): (i: nat)
    ensures i < |AllReportStatuses| && AllReportStatuses[i] == v
  {
    match v
    case Open => 0
    case Investigating => 1
    case Resolved => 2
    case Dismissed => 3
  }

  /** The record as the entity API holds it: any field may be missing,
      enumerations are plain text, numbers are JSON numbers. */
  datatype ReportRecord = ReportRecord(
    vendorId: Option<string>,
    reporterName: Option<string>,
    reporterPhone: Option<string>,
    issueType: Option<string>,
    description: Option<string>,
    severity: Option<string>,
    latitude: Option<real>,
    longitude: Option<real>,
    status: Option<string>,
    photoUrl: Option<string>,
    resolvedDate: Option<Date>)

  /** A schema-valid report with the status default applied. */
  datatype HygieneReport = HygieneReport(
    vendorId: Option<Id>,
    reporterName: Option<string>,
    reporterPhone: Option<string>,
    issueType: IssueType,
    description: string,
    severity: Severity,
    latitude: real,
    longitude: real,
    status: ReportStatus,
    photoUrl: Option<string>,
    resolvedDate: Option<Date>)

  /** The schema check: issue_type, description, severity, latitude and longitude
      are present, and every enumerated field that is present holds one of its names. */
  predicate ValidRecord(r: ReportRecord) {
    && r.issueType.Some? && r.issueType.value in IssueTypeNames
    && r.description.Some?
    && r.severity.Some? && r.severity.value in SeverityNames
    && r.latitude.Some?
    && r.longitude.Some?
    && (r.status.Some? ==> r.status.value in ReportStatusNames)
  }

  /** Reads a stored record: fails exactly on schema-invalid records and
      fills in the status default; every other field is carried over. */
  function Decode(r: ReportRecord): (d: Option<HygieneReport>)
    ensures d.Some? <==> ValidRecord(r)
    ensures d.Some? ==> d.value.status == (if r.status.None? then Open else ParseReportStatus(r.status.value).value)
    ensures d.Some? ==> && d.value.vendorId == r.vendorId
                        && d.value.reporterName == r.reporterName
                        && d.value.reporterPhone == r.reporterPhone
                        && d.value.photoUrl == r.photoUrl
                        && d.value.resolvedDate == r.resolvedDate
                        && Some(d.value.description) == r.description
                        && Some(IssueTypeName(d.value.issueType)) == r.issueType
                        && Some(SeverityName(d.value.severity)) == r.severity
                        && Some(d.value.latitude) == r.latitude
                        && Some(d.value.longitude) == r.longitude
  {
    if r.issueType.None? || r.description.None? || r.severity.None? || r.latitude.None? || r.longitude.None? then None
    else
      var issue := ParseIssueType(r.issueType.value);
      var severity := ParseSeverity(r.severity.value);
      var status := if r.status.None? then Some(DefaultReportStatus) else ParseReportStatus(r.status.value);
      if issue.None? || severity.None? || status.None? then None
      else Some(HygieneReport(r.vendorId, r.reporterName, r.reporterPhone, issue.value, r.description.value,
                              severity.value, r.latitude.value, r.longitude.value, status.value,
                              r.photoUrl, r.resolvedDate))
  }

  /** Writes a report back as a record, every field with a value spelled out. */
  function Encode(h: HygieneReport): (r: ReportRecord)
    ensures ValidRecord(r) && r.status.Some?
  {
    ReportRecord(h.vendorId, h.reporterName, h.reporterPhone, Some(IssueTypeName(h.issueType)), Some(h.description),
                 Some(SeverityName(h.severity)), Some(h.latitude), Some(h.longitude), Some(ReportStatusName(h.status)),
                 h.photoUrl, h.resolvedDate)
  }

  /** Writing a report and reading it back gives the same report. */
  lemma DecodeEncode(h: HygieneReport)
    ensures Decode(Encode(h)) == Some(h)
  {
  }

  /** Reading a valid record and writing it back gives the record with its status default made explicit. */
  lemma EncodeDecode(r: ReportRecord)
    requires ValidRecord(r)
    ensures Encode(Decode(r).value) == r.(status := Some(r.status.GetOr(ReportStatusName(DefaultReportStatus))))
  {
  }

  /** resolved_date is set exactly when the report is resolved: the invariant the
      administrators' status update maintains (the schema itself states no such rule). */
  predicate ResolutionConsistent(h: HygieneReport) {
    h.resolvedDate.Some? <==> h.status == Resolved
  }
}
