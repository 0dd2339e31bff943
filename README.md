# VendiSafe in Dafny

VendiSafe is a web application for Delhi street vending. It keeps three kinds
of records in a remote entity store:

- vendors, each with a legal zone status and a hygiene score;
- vending zones, each with a status, a polygon given as text, and a capacity;
- hygiene reports that citizens file against locations or vendors.

Four pages read and write these records:

- the map (`Dashboard.tsx`);
- the administrators' dashboard (`Pages/AdminDashboard.tsx`);
- the vendors' self-service lookup (`VendorDashboard.tsx`);
- the citizens' report form (`ReportHygiene.tsx`).

This project models the three record schemas and the rules these pages apply.

- **Schemas** (`hygiene_report.dfy`, `vendor.dfy`, `zone.dfy`). Each entity has two datatypes:
  - a raw record, holding the JSON object as the store has it (every field optional, enumerations as text);
  - a typed record, with closed enumerations and the schema defaults applied.

  `Decode` succeeds exactly on schema-valid records. `Encode`/`Decode` round-trip lemmas tie the two together.
- **Store** (`store.dfy`). The entity API is a class holding one sequence per entity. It provides `list`, `filter`, `create` and `update`. Whether a call fails is a parameter.
- **Administrators' dashboard** (`admin_dashboard.dfy`). This file covers:
  - the six counters, with their bounds and how they move when a record is added;
  - the status patch that `updateReportStatus` sends;
  - which actions are offered, and the proof that an action removes a report from the open count;
  - the badge colour maps, the FULL rule and the complaints badge;
  - a page class whose counters always describe the rows it shows.
- **Map** (`dashboard.dfy`). This file covers:
  - decoding of the zone coordinate text;
  - the zone skip rule, both as written and corrected (see Findings);
  - zone and report colours and the five-star rating;
  - the header counts, proved equal to the administrators' counters;
  - the compliance alert.
- **Vendor lookup** (`vendor_dashboard.dfy`). This file covers:
  - ECMAScript `trim`;
  - first-match lookup by exact phone;
  - recommended zones, "Space Available" and the alert choice;
  - a page class whose `SearchVendor` follows the source's blank, failed, found and not-found paths.
- **Report form** (`report_hygiene.dfy`). This file covers:
  - field-by-field edits and the required-field check;
  - the select choices, proved equal to the schema enumerations;
  - the record sent to `create`, and exactly when the store accepts it;
  - the submitting/submitted flags and the reset.

Some rules of the pages, as the code has them:

- `updateReportStatus` checks no transition. Only the buttons restrict the targets: investigating and resolved, offered on open reports only. Dismissed is never offered.
- `handleSubmit` checks only that the five required fields are non-empty. It does not check that the coordinates are numeric, and sends `parseFloat` of whatever was typed.
- An unset `max_vendors` is not read as "no cap". The administrators' page shows such a zone as FULL, and the vendor page never shows it as having space.

## Model

| member | source | states |
|---|---|---|
| HygieneReports.IssueTypeName | HygieneReport.ts:17-28 | each issue type's name is its entry in the six-name list and parses back to it |
| HygieneReports.ParseIssueType | HygieneReport.ts:17-28 | a text is accepted exactly when it is one of the six names, and then maps to the type with that name |
| HygieneReports.SeverityName | HygieneReport.ts:33-42 | each severity's name is its entry in low/medium/high/critical and parses back to it |
| HygieneReports.ParseSeverity | HygieneReport.ts:33-42 | a text is accepted exactly when it is one of the four severity names |
| HygieneReports.ReportStatusName | HygieneReport.ts:51-61 | each report status's name is its entry in open/investigating/resolved/dismissed and parses back to it |
| HygieneReports.ParseReportStatus | HygieneReport.ts:51-61 | a text is accepted exactly when it is one of the four status names |
| HygieneReports.Decode | HygieneReport.ts:72-78 | a stored report decodes exactly when the five required fields are present and every enumerated field holds one of its names; status is open when omitted; the optional fields are carried over |
| HygieneReports.Encode | HygieneReport.ts:5-70 | the written record is schema-valid and spells out its status |
| HygieneReports.DecodeEncode | HygieneReport.ts:1-79 | writing a report and reading it back gives the same report |
| HygieneReports.EncodeDecode | HygieneReport.ts:59 | reading a valid record and writing it back only makes the default status explicit |
| Vendors.FoodTypeName | Vendor.ts:17-31 | each food type's name is its entry in the ten-name list and parses back to it |
| Vendors.ParseFoodType | Vendor.ts:17-31 | a text is accepted exactly when it is one of the ten names |
| Vendors.VendorZoneStatusName | Vendor.ts:41-50 | each zone_status's name is its entry in legal/illegal/pending/relocate_required and parses back to it |
| Vendors.ParseVendorZoneStatus | Vendor.ts:41-50 | a text is accepted exactly when it is one of the four vendor status names |
| Vendors.Decode | Vendor.ts:85-93 | a stored vendor decodes exactly when the seven required fields are present, both enumerations hold a name and hygiene_score lies in [1, 5]; verified defaults to false and total_complaints to 0 |
| Vendors.Encode | Vendor.ts:4-83 | the written record is schema-valid and spells out both defaulted fields |
| Vendors.DecodeEncode | Vendor.ts:1-94 | writing a vendor and reading it back gives the same vendor |
| Vendors.EncodeDecode | Vendor.ts:69-78 | reading a valid record and writing it back only makes verified and total_complaints explicit |
| Zones.ZoneStatusName | Zone.ts:13-22 | each zone status's name is its entry in legal/illegal/pending_approval/restricted and parses back to it |
| Zones.ParseZoneStatus | Zone.ts:13-22 | a text is accepted exactly when it is one of the four zone status names |
| Zones.Decode | Zone.ts:50-55 | a stored zone decodes exactly when name, area, status and coordinates are present and the status is a name; current_vendors defaults to 0; max_vendors and hygiene_avg stay absent when absent; coordinates stay text |
| Zones.Encode | Zone.ts:4-49 | the written record is schema-valid, keeps max_vendors and hygiene_avg as they are and spells out current_vendors |
| Zones.DecodeEncode | Zone.ts:1-56 | writing a zone and reading it back gives the same zone |
| Zones.EncodeDecode | Zone.ts:31-35 | reading a valid record and writing it back only makes current_vendors explicit |
| Common.Filter | Pages/AdminDashboard.tsx:54-58 | `filter` keeps exactly the elements passing the test, and keeps everything when all pass |
| Common.Take | VendorDashboard.tsx:45-46 | `slice(0, n)` is the prefix of length min(n, length) |
| Store.ApplyPatch | Pages/AdminDashboard.tsx:64-67 | an update sets status and resolved_date and leaves every other field of the report as it was |
| Store.PatchReports | Pages/AdminDashboard.tsx:64-67 | after an update the report with that identity is patched and every other report, and the order, is unchanged |
| Store.EntityStore.CreateReport | ReportHygiene.tsx:101-105 | `create` stores a schema-valid record as the newest report under an identity no stored report has, so distinct identities stay distinct; a failed call or an invalid record changes nothing |
| Store.EntityStore.UpdateReport | Pages/AdminDashboard.tsx:64-67 | `update` succeeds exactly when the call does not fail and the identity exists, and then patches that report only |
| AdminDashboard.ComputeStats | Pages/AdminDashboard.tsx:52-59 | totals equal the list lengths; legal + illegal never exceed the vendor total; critical-and-open never exceeds open, which never exceeds the report count |
| AdminDashboard.EmptySnapshotStats | Pages/AdminDashboard.tsx:27-34 | the counters of an empty store are the initial all-zero counters |
| AdminDashboard.StatsOfNewReport | Pages/AdminDashboard.tsx:57-58 | a new report raises the open count exactly when it is open and the critical count exactly when it is also critical, and moves nothing else |
| AdminDashboard.StatsOfNewVendor | Pages/AdminDashboard.tsx:53-55 | a new vendor raises the total, and raises the legal or illegal count exactly when its zone_status matches |
| AdminDashboard.StatusPatchFor | Pages/AdminDashboard.tsx:62-67 | the patch carries the new status, and resolved_date is today exactly when the new status is resolved, null otherwise |
| AdminDashboard.PatchedReportIsConsistent | Pages/AdminDashboard.tsx:64-67 | after any status update a report has a resolved_date exactly when it is resolved |
| AdminDashboard.ReportActions | Pages/AdminDashboard.tsx:380-399 | actions are offered exactly for open reports; an open report is offered both investigating and resolved, and no other target |
| AdminDashboard.OfferedActionIsFinal | Pages/AdminDashboard.tsx:490-513 | after an offered action is applied, the report is offered no further action |
| AdminDashboard.VisibleReports | Pages/AdminDashboard.tsx:343 | the reports table shows the first min(20, n) of the n reports |
| AdminDashboard.ActionLowersOpenCount | Pages/AdminDashboard.tsx:380-399 | when identities are unique, acting on an open report lowers the open count by exactly one |
| AdminDashboard.StatusColor | Pages/AdminDashboard.tsx:74-82 | the colour is grey exactly for text that is not one of the four vendor statuses |
| AdminDashboard.SeverityColor | Pages/AdminDashboard.tsx:84-92 | the colour is grey exactly for text that is not one of the four severities |
| AdminDashboard.ReportStatusColor | Pages/AdminDashboard.tsx:94-102 | the colour is grey exactly for dismissed and unknown text |
| AdminDashboard.VendorStatusColorsDistinct | Pages/AdminDashboard.tsx:74-82 | different vendor statuses get different colours |
| AdminDashboard.ZoneStatusBadge | Pages/AdminDashboard.tsx:292 | the zone table reuses the vendor colour map, so pending_approval and restricted zones, and only they, are grey |
| AdminDashboard.SeverityColorsDistinct | Pages/AdminDashboard.tsx:84-92 | different severities get different colours |
| AdminDashboard.ComplaintBadge | Pages/AdminDashboard.tsx:250 | the badge is destructive exactly above 3 complaints and outline exactly at 0 or fewer |
| AdminDashboard.NoComplaintsRecordShowsOutline | Pages/AdminDashboard.tsx:250-251 | a vendor stored without total_complaints shows the outline badge |
| AdminDashboard.CapacityShown | Pages/AdminDashboard.tsx:298 | the shown maximum is 0 exactly when max_vendors is absent or 0 |
| AdminDashboard.FullRule | Pages/AdminDashboard.tsx:299-301 | with a maximum set, FULL means current has reached it; with none, FULL holds for every non-negative count |
| AdminDashboard.BareZoneRecordShowsFull | Pages/AdminDashboard.tsx:298-301 | a zone stored without max_vendors and current_vendors reads 0/0 and shows FULL |
| AdminDashboard.AdminDashboardPage.constructor | Pages/AdminDashboard.tsx:23-34 | the page starts with empty lists, no selection and zero counters |
| AdminDashboard.AdminDashboardPage.LoadData | Pages/AdminDashboard.tsx:40-60 | a successful load shows exactly the store's lists with counters computed from them; a failed one changes nothing |
| AdminDashboard.AdminDashboardPage.UpdateReportStatus | Pages/AdminDashboard.tsx:62-72 | the store is patched exactly when the update succeeds, and only then is the page reloaded; a failure is only logged |
| AdminDashboard.AdminDashboardPage.ActOnRow | Pages/AdminDashboard.tsx:380-399 | an Investigate/Resolve button on one of the 20 visible open rows patches that report and no other record; the page lists are reloaded only when the update and the reload succeed, and stay as they were otherwise |
| AdminDashboard.AdminDashboardPage.ViewReport | Pages/AdminDashboard.tsx:375 | the eye button selects that row's report |
| AdminDashboard.AdminDashboardPage.CloseReport | Pages/AdminDashboard.tsx:418 | closing the detail view clears the selection |
| AdminDashboard.AdminDashboardPage.ActOnSelected | Pages/AdminDashboard.tsx:490-513 | the detail view's buttons patch the selected open report and no other record, and close the view at once; the page lists stay as they were unless the update and the reload succeed |
| Dashboard.ParseCoordinates | Dashboard.tsx:100-106 | malformed text decodes to the empty list instead of throwing; other text decodes to whatever it holds |
| Dashboard.LengthOf | Dashboard.tsx:154 | reading `.length` throws exactly on null, gives a count exactly for lists and strings, gives the last "length" member of an object that has one, and undefined otherwise |
| Dashboard.ZoneShapeAsWritten | Dashboard.tsx:152-154 | a zone fails to render exactly when its text decodes to null; it is skipped exactly when the text is malformed or decodes to an empty list, an empty string or an object whose "length" member is the number 0 |
| Dashboard.ZeroLengthObjectSkipped | Dashboard.tsx:153-154 | text decoding to `{"length": n}` is skipped exactly when n is 0 |
| Dashboard.MapZonesAsWritten | Dashboard.tsx:152-187 | the zone layer renders exactly when no zone fails, and then draws at most one shape per zone |
| Dashboard.MapZonesInOrder | Dashboard.tsx:152-187 | when the layer renders, it draws one polygon for each zone that yields one, with its decoded value, in the zones' order, and nothing else |
| Dashboard.NullCoordinatesBreakMap | Dashboard.tsx:153-154 | one zone whose coordinates are the text `null` stops the whole zone layer |
| Dashboard.NullCoordinatesRecordIsValid | Zone.ts:23-26 | a zone whose coordinates are the text `null` passes the schema |
| Dashboard.ZoneOutline | Dashboard.tsx:152-154 | a zone is drawn exactly when its text decodes to a non-empty list, and then with that list |
| Dashboard.DrawnZones | Dashboard.tsx:152-187 | the corrected zone layer draws every zone with an outline, and only those, each with a non-empty outline |
| Dashboard.DrawnZonesInOrder | Dashboard.tsx:152-187 | the corrected layer draws the outlines of exactly the zones that have one, once each, in the zones' order |
| Dashboard.DrawnZonesAgree | Dashboard.tsx:152-154 | where every text is malformed or a list, the corrected layer draws what the code as written draws |
| Dashboard.MalformedCoordinatesSkipped | Dashboard.tsx:100-106 | malformed text is never drawn, as written or corrected |
| Dashboard.ZoneColor | Dashboard.tsx:71-79 | the colour is grey exactly for restricted and unknown text |
| Dashboard.ZoneColorsDistinct | Dashboard.tsx:71-79 | legal, illegal and pending_approval get three different colours |
| Dashboard.ReportCircleColor | Dashboard.tsx:244-250 | a circle is green exactly when its severity is low or unrecognised |
| Dashboard.SeverityCirclesDistinct | Dashboard.tsx:244-250 | different severities get different circle colours |
| Dashboard.HygieneStars | Dashboard.tsx:91-98 | there are exactly five stars, and star i is filled exactly when i < score |
| Dashboard.FilledStarsFirst | Dashboard.tsx:91-98 | the filled stars come before the empty ones |
| Dashboard.StarsRoundUp | Dashboard.tsx:91-98 | a score in (k-1, k] fills exactly k stars |
| Dashboard.ValidScoreStars | Dashboard.tsx:91-98 | a schema-valid score always fills the first star, and fills the fifth exactly above 4 |
| Dashboard.FetchedReports | Dashboard.tsx:64 | the map fetches exactly the open reports |
| Dashboard.HeaderCounts | Dashboard.tsx:122-130 | the legal and at-risk counts together never exceed the vendor count; the open count is the number fetched |
| Dashboard.HeaderMatchesAdminStats | Dashboard.tsx:122-130 | on the same store, the map header's three counts equal the administrators' legal, illegal and open counters |
| Dashboard.AlertedVendorsAreAtRisk | Dashboard.tsx:374 | the vendors whose panel shows the compliance alert are exactly the ones counted as at risk |
| VendorDashboard.TrimStart | VendorDashboard.tsx:30 | the leading whitespace is cut, and nothing else |
| VendorDashboard.TrimEnd | VendorDashboard.tsx:30 | the trailing whitespace is cut, and nothing else |
| VendorDashboard.Trim | VendorDashboard.tsx:30 | the result is an infix that neither starts nor ends with whitespace, with only whitespace cut on either side |
| VendorDashboard.BlankPhone | VendorDashboard.tsx:30 | search is a no-op exactly when the typed text is empty or all whitespace |
| VendorDashboard.TrimIdempotent | VendorDashboard.tsx:34 | trimming twice is trimming once |
| VendorDashboard.LookupVendor | VendorDashboard.tsx:34-37 | no vendor is found exactly when no phone matches exactly; otherwise the first vendor in store order with that phone is found |
| VendorDashboard.PaddedPhoneNeverFound | VendorDashboard.tsx:34 | a vendor stored with a phone that starts with whitespace can never be found |
| VendorDashboard.RecommendedZones | VendorDashboard.tsx:276 | the first min(4, n) of the n legal nearby zones are recommended, in their order |
| VendorDashboard.RecommendationExtremes | VendorDashboard.tsx:276 | with no legal zone nearby nothing is recommended; with only legal zones the first four are |
| VendorDashboard.SpaceAvailableIsNotFull | VendorDashboard.tsx:286 | for non-negative counts, "Space Available" is shown exactly when the administrators' page does not show FULL |
| VendorDashboard.NoCapacityNoSpace | VendorDashboard.tsx:286 | a zone stored without max_vendors never shows space available |
| VendorDashboard.Alerts | VendorDashboard.tsx:191-222 | at most one alert is shown, none exactly when the status is pending, one per other status |
| VendorDashboard.AlertsAgreeWithMap | VendorDashboard.tsx:191-200 | the illegal-zone alert is shown for the same vendors as the map's compliance alert; different statuses get different alerts |
| VendorDashboard.ShownReportsAreLinked | VendorDashboard.tsx:41-46 | the listed reports all belong to the vendor searched for |
| VendorDashboard.RecommendationsComeFromStore | VendorDashboard.tsx:45 | every recommended zone is one of the store's first five zones |
| VendorDashboard.VendorDashboardPage.constructor | VendorDashboard.tsx:23-27 | the page starts with no text, no vendor, empty lists and no spinner |
| VendorDashboard.VendorDashboardPage.SetPhoneNumber | VendorDashboard.tsx:119 | typing sets the text; "Vendor Not Found" then shows whenever text is typed and no vendor is held, even before a search |
| VendorDashboard.VendorDashboardPage.SearchVendor | VendorDashboard.tsx:29-55 | a blank number changes nothing; otherwise loading ends off on every path, and the outcome is the one the next row states |
| VendorDashboard.VendorDashboardPage.ShowSearchResult | VendorDashboard.tsx:34-51 | a failed lookup keeps the old view; a found vendor is shown with the first 5 zones and the first 3 of its reports in the store's order, except that a failed details fetch keeps the old lists; no match clears everything |
| ReportHygiene.WithField | ReportHygiene.tsx:199 | an edit sets one field and keeps every other field's text |
| ReportHygiene.EditUndone | ReportHygiene.tsx:199 | setting a field back to its old text undoes the edit |
| ReportHygiene.RequiredFieldsRule | ReportHygiene.tsx:94-97 | the form may be submitted exactly when issue_type, description, severity, latitude and longitude are non-empty, which the initial form is not |
| ReportHygiene.OptionalEditKeepsValidity | ReportHygiene.tsx:94-97 | editing the name, phone or photo URL never changes whether the form may be submitted |
| ReportHygiene.IssueTypeValues | ReportHygiene.tsx:38-45 | the issue-type select offers exactly the schema's issue-type names, in the schema's order |
| ReportHygiene.SeverityValues | ReportHygiene.tsx:47-52 | the severity select offers exactly the schema's severity names, in the schema's order |
| ReportHygiene.ChoicesMatchSchema | ReportHygiene.tsx:38-52 | the selects offer exactly the schema's issue types and severities, in the schema's order |
| ReportHygiene.Payload | ReportHygiene.tsx:101-105 | the record sent is the form as typed, with latitude and longitude through parseFloat, and no vendor_id, status or resolved_date |
| ReportHygiene.PayloadDecodes | ReportHygiene.tsx:101-105 | the store accepts the record exactly when both selects hold schema values and both coordinates parse; the stored report is open, unlinked, unresolved and carries the form's text |
| ReportHygiene.ReportHygienePage.constructor | ReportHygiene.tsx:23-36 | the page starts with every field "", no photo and every flag off |
| ReportHygiene.ReportHygienePage.EditField | ReportHygiene.tsx:199 | an input's change handler sets that field only; the photo URL has no input |
| ReportHygiene.ReportHygienePage.GetCurrentLocation | ReportHygiene.tsx:54-76 | a position fills latitude and longitude; no position leaves the form unchanged; the spinner is off at the end |
| ReportHygiene.ReportHygienePage.HandlePhotoUpload | ReportHygiene.tsx:78-91 | a chosen file is kept, and its URL is stored only when the upload succeeds; no file changes nothing |
| ReportHygiene.ReportHygienePage.HandleSubmit | ReportHygiene.tsx:93-112 | with a required field empty nothing is sent; otherwise submitted turns on exactly when the store took the report, and isSubmitting is off at the end |
| ReportHygiene.ReportHygienePage.ResetForm | ReportHygiene.tsx:114-127 | every field goes back to "", the photo is cleared and submitted is off; the submitting and locating flags are not touched, so the page equals its initial state when neither request is pending |
| ReportHygiene.ResetThenSubmit | ReportHygiene.tsx:114-127 | after "Submit Another Report", submitting at once sends nothing |

## Left out

- `Layout.js`: navigation chrome with fixed display numbers; it has no logic.
- Map rendering: Leaflet markers, `createCustomIcon`, tiles, popups, the legend and animations are presentation. The marker colour map and the inline popup badge colour chains are included in this.
- `getStatusIcon` on the map and the vendor page, the vendor page's `getStatusColor` border classes, and the recent-report severity badges: icon and class choices only. The admin page's colour maps are modelled.
- Text formatting: `replace('_', ' ').toUpperCase()`, `toFixed`, `toLocaleDateString`, `business_name || name`, and the `|| 0` and `|| 'N/A'` fallbacks in labels.
- `window.open`, `alert`, `console.error` and the "Back to Dashboard" navigation: browser side effects.
- The internals of `JSON.parse`, `parseFloat`, `Number.prototype.toString` and `new Date().toISOString()`. These are function parameters or plain values: `jsonParse`, `parseFloat` (None stands for NaN), the position's text, and `today`.
- `Promise.all`: the fetches are one snapshot read, and a failure of either fetch is one failure flag.
- `navigator.geolocation` availability and `UploadFile`: each is an outcome parameter (`located`, `uploadedUrl`).
- The remote store's own validation is not known. The model assumes that `create` rejects a record the schema rejects, such as one whose latitude is null. It also assumes that records come back with the schema defaults applied. Without the second assumption, `zone.current_vendors < zone.max_vendors` on a zone stored without current_vendors would compare undefined and be false.
- An update of an unknown identity fails in the model (`Store.EntityStore.UpdateReport`). The store's behaviour for one is not shown.
- Date format checks on `resolved_date`, `notification_date` and `last_inspection`: dates are opaque text.
- Dashboard.LengthOf: a string's `.length` counts UTF-16 code units. Here it is the number of characters, which differs only for characters outside the basic multilingual plane.
- `loading` and `isSubmitting` as seen mid-operation: each method runs as one step. The flags are set on and off around the foreign call, and the contracts state only their final values.
- `selectedVendor` on the map, and `mapCenter`: display state with no rule attached.
- No code computes point-in-polygon, zone membership, a recomputed `current_vendors` or `hygiene_avg`, complaint increments, or a zone-to-vendor status mapping, so none of these is modelled.
- Store.EntityStore.CreateReport: the identity the store assigns is taken to be one no stored report has. The store's way of choosing it is not shown.
- VendorDashboard.VendorDashboardPage.ShowSearchResult: `HygieneReport.filter({ vendor_id })` passes no sort, so the order of the vendor's reports is the store's. The model takes it to be the store's report order, and "the first three" means the first three in that order, not necessarily the newest.

## Findings

| source | as written | input that shows it | evidently intended | confidence | as-written member | corrected member |
|---|---|---|---|---|---|---|
| Dashboard.tsx:152-154 | `parseCoordinates(zone.coordinates).length === 0` is read on whatever `JSON.parse` returns | a zone whose coordinates are the schema-valid text `null`: `JSON.parse` yields null, `.length` throws a TypeError, and the zone layer and the whole map page stop rendering | zones whose text does not decode to a non-empty list are skipped, like malformed text | medium; not executed | Dashboard.NullCoordinatesBreakMap | Dashboard.DrawnZones |
