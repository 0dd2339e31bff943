/** The administrators' page: a snapshot of all vendors, zones and reports,
    six counters computed from it, colour and badge rules for the tables, and
    the report status actions (investigate, resolve) offered on open reports. */
module AdminDashboard {
  import opened Common
  import opened Store
  import opened HygieneReports
  import V = Vendors
  import Z = Zones

  // ---------------------------------------------------------------- counters

  datatype Stats = Stats(
    totalVendors: nat,
    legalVendors: nat,
    illegalVendors: nat,
    totalZones: nat,
    openReports: nat,
    criticalReports: nat)

  const InitialStats: Stats := Stats(0, 0, 0, 0, 0, 0)

  /** The test `r.severity === 'critical' && r.status === 'open'`. */
  function OpenAndCritical(): Entity<HygieneReport> -> bool {
    (r: Entity<HygieneReport>) => r.data.severity == Critical && r.data.status == Open
  }

  /** The counters `loadData` computes from one snapshot. The legal and illegal
      counts are disjoint, and a critical report is counted only while it is open. */
  function ComputeStats(vs: seq<Entity<V.Vendor>>, zs: seq<Entity<Z.Zone>>, rs: seq<Entity<HygieneReport>>): (s: Stats)
    ensures s.totalVendors == |vs| && s.totalZones == |zs|
    ensures s.legalVendors + s.illegalVendors <= s.totalVendors
    ensures s.criticalReports <= s.openReports <= |rs|
  {
    FilterDisjoint(vs, ZoneStatusIs(V.Legal), ZoneStatusIs(V.Illegal));
    FilterMonotone(rs, OpenAndCritical(), StatusIs(Open));
    Stats(|vs|,
          |VendorsWithStatus(vs, V.Legal)|,
          |VendorsWithStatus(vs, V.Illegal)|,
          |zs|,
          |ReportsWithStatus(rs, Open)|,
          |Filter(rs, OpenAndCritical())|)
  }

  /** The counters of an empty snapshot are the page's initial counters. */
  lemma EmptySnapshotStats()
    ensures ComputeStats([], [], []) == InitialStats
  {
  }

  /** A newly created report raises the open counter exactly when it is open and
      the critical counter exactly when it is also critical; nothing else moves. */
  lemma {:induction false} StatsOfNewReport(vs: seq<Entity<V.Vendor>>, zs: seq<Entity<Z.Zone>>,
                                            rs: seq<Entity<HygieneReport>>, r: Entity<HygieneReport>)
    ensures var before, after := ComputeStats(vs, zs, rs), ComputeStats(vs, zs, [r] + rs);
            && after.openReports == before.openReports + (if r.data.status == Open then 1 else 0)
            && after.criticalReports == before.criticalReports
                                        + (if r.data.status == Open && r.data.severity == Critical then 1 else 0)
            && after.(openReports := before.openReports, criticalReports := before.criticalReports) == before
  {
    FilterAppend([r], rs, StatusIs(Open));
    FilterAppend([r], rs, OpenAndCritical());
  }

  /** A vendor added to the snapshot raises the legal (illegal) counter exactly
      when its zone_status is legal (illegal). */
  lemma {:induction false} StatsOfNewVendor(vs: seq<Entity<V.Vendor>>, zs: seq<Entity<Z.Zone>>,
                                            rs: seq<Entity<HygieneReport>>, v: Entity<V.Vendor>)
    ensures var before, after := ComputeStats(vs, zs, rs), ComputeStats(vs + [v], zs, rs);
            && after.totalVendors == before.totalVendors + 1
            && after.legalVendors == before.legalVendors + (if v.data.zoneStatus == V.Legal then 1 else 0)
            && after.illegalVendors == before.illegalVendors + (if v.data.zoneStatus == V.Illegal then 1 else 0)
            && after.(totalVendors := before.totalVendors, legalVendors := before.legalVendors,
                      illegalVendors := before.illegalVendors) == before
  {
    FilterAppend(vs, [v], ZoneStatusIs(V.Legal));
    FilterAppend(vs, [v], ZoneStatusIs(V.Illegal));
  }

  // ------------------------------------------------------ report status actions

  /** The partial record `updateReportStatus` sends: the new status, and today's
      date as resolved_date when the new status is resolved, null otherwise. */
  function StatusPatchFor(newStatus: ReportStatus, today: Date): (p: StatusPatch)
    ensures p.status == newStatus
    ensures p.resolvedDate.Some? <==> newStatus == Resolved
    ensures p.resolvedDate.Some? ==> p.resolvedDate.value == today
  {
    StatusPatch(newStatus, if newStatus == Resolved then Some(today) else None)
  }

  /** Whatever the report held before, after the update its resolved_date is set
      exactly when its status is resolved. */
  lemma PatchedReportIsConsistent(h: HygieneReport, newStatus: ReportStatus, today: Date)
    ensures ResolutionConsistent(ApplyPatch(h, StatusPatchFor(newStatus, today)))
    ensures newStatus == Resolved ==> ApplyPatch(h, StatusPatchFor(newStatus, today)).resolvedDate == Some(today)
  {
  }

  /** The targets offered for a report: "Investigate" and "Resolve" for an open
      report, nothing for any other status. Dismissed is never offered. */
  function ReportActions(h: HygieneReport): (targets: seq<ReportStatus>)
    ensures targets != [] <==> h.status == Open
    ensures forall t :: t in targets ==> t == Investigating || t == Resolved
    ensures Dismissed !in targets && Open !in targets
    ensures h.status == Open ==> Investigating in targets && Resolved in targets
  {
    if h.status == Open then [Investigating, Resolved] else []
  }

  /** An offered action is final: once applied, the report is offered nothing more,
      so the page changes a report's status at most once. */
  lemma OfferedActionIsFinal(h: HygieneReport, t: ReportStatus, today: Date)
    requires t in ReportActions(h)
    ensures ReportActions(ApplyPatch(h, StatusPatchFor(t, today))) == []
  {
  }

  /** The reports table lists only the 20 newest reports, so only they get row actions. */
  const VisibleRows: nat := 20

  function VisibleReports(rs: seq<Entity<HygieneReport>>): (shown: seq<Entity<HygieneReport>>)
    ensures |shown| <= VisibleRows && |shown| <= |rs| && shown == rs[..|shown|]
    ensures |shown| == if |rs| <= VisibleRows then |rs| else VisibleRows
  {
    Take(rs, VisibleRows)
  }

  /** Patching a non-empty sequence patches its head and, independently, its tail. */
  lemma PatchReportsTail(rs: seq<Entity<HygieneReport>>, id: Id, p: StatusPatch)
    requires rs != []
    ensures PatchReports(rs, id, p)[0] == if rs[0].id == id then Entity(id, ApplyPatch(rs[0].data, p)) else rs[0]
    ensures PatchReports(rs, id, p)[1..] == PatchReports(rs[1..], id, p)
  {
  }

  /** Patching an identity that no record carries changes nothing. */
  lemma PatchAbsentId(rs: seq<Entity<HygieneReport>>, id: Id, p: StatusPatch)
    requires forall i :: 0 <= i < |rs| ==> rs[i].id != id
    ensures PatchReports(rs, id, p) == rs
  {
  }

  /** Acting on an open report with unique identities takes it out of the open
      count and leaves every other report's contribution unchanged. */
  lemma {:induction false} ActionLowersOpenCount(rs: seq<Entity<HygieneReport>>, k: nat, t: ReportStatus, today: Date)
    requires UniqueIds(rs) && k < |rs|
    requires t in ReportActions(rs[k].data)
    ensures |ReportsWithStatus(PatchReports(rs, rs[k].id, StatusPatchFor(t, today)), Open)| + 1
            == |ReportsWithStatus(rs, Open)|
  {
    var id, p := rs[k].id, StatusPatchFor(t, today);
    var patched := PatchReports(rs, id, p);
    PatchReportsTail(rs, id, p);
    assert Filter(rs, StatusIs(Open)) == (if StatusIs(Open)(rs[0]) then [rs[0]] else []) + Filter(rs[1..], StatusIs(Open));
    assert Filter(patched, StatusIs(Open))
           == (if StatusIs(Open)(patched[0]) then [patched[0]] else []) + Filter(patched[1..], StatusIs(Open));
    if k == 0 {
      assert !StatusIs(Open)(patched[0]);
      forall i | 0 <= i < |rs[1..]| ensures rs[1..][i].id != id {
        assert rs[1..][i] == rs[i + 1];
      }
      PatchAbsentId(rs[1..], id, p);
    } else {
      assert rs[0].id != id;
      assert rs[1..][k - 1] == rs[k];
      assert UniqueIds(rs[1..]) by {
        forall i, j | 0 <= i < j < |rs[1..]| ensures rs[1..][i].id != rs[1..][j].id {
          assert rs[1..][i] == rs[i + 1] && rs[1..][j] == rs[j + 1];
        }
      }
      ActionLowersOpenCount(rs[1..], k - 1, t, today);
    }
  }

  // ------------------------------------------------------------ colour rules

  const GreenBadge: string := "bg-green-100 text-green-800"
  const RedBadge: string := "bg-red-100 text-red-800"
  const YellowBadge: string := "bg-yellow-100 text-yellow-800"
  const OrangeBadge: string := "bg-orange-100 text-orange-800"
  const GreyBadge: string := "bg-gray-100 text-gray-800"

  /** `getStatusColor`: knows the four vendor statuses; any other text is grey. */
  function StatusColor(status: string): (c: string)
    ensures c == GreyBadge <==> status !in V.VendorZoneStatusNames
  {
    if status == "legal" then GreenBadge
    else if status == "illegal" then RedBadge
    else if status == "pending" then YellowBadge
    else if status == "relocate_required" then OrangeBadge
    else GreyBadge
  }

  /** `getSeverityColor`: one colour per severity; any other text is grey. */
  function SeverityColor(severity: string): (c: string)
    ensures c == GreyBadge <==> severity !in SeverityNames
  {
    if severity == "critical" then RedBadge
    else if severity == "high" then OrangeBadge
    else if severity == "medium" then YellowBadge
    else if severity == "low" then GreenBadge
    else GreyBadge
  }

  /** `getReportStatusColor`: dismissed shares the grey of unknown text. */
  function ReportStatusColor(status: string): (c: string)
    ensures c == GreyBadge <==> status !in ["open", "investigating", "resolved"]
  {
    if status == "open" then RedBadge
    else if status == "investigating" then YellowBadge
    else if status == "resolved" then GreenBadge
    else if status == "dismissed" then GreyBadge
    else GreyBadge
  }

  /** The four vendor statuses get four distinct colours in the vendor table. */
  lemma VendorStatusColorsDistinct(a: V.VendorZoneStatus, b: V.VendorZoneStatus)
    requires a != b
    ensures StatusColor(V.VendorZoneStatusName(a)) != StatusColor(V.VendorZoneStatusName(b))
  {
  }

  /** The zone table reuses the vendor colour map: legal and illegal zones are
      green and red, and pending_approval and restricted zones fall to the grey default. */
  lemma ZoneStatusBadge(s: Z.ZoneStatus)
    ensures StatusColor(Z.ZoneStatusName(s)) == GreyBadge <==> s == Z.PendingApproval || s == Z.Restricted
    ensures s == Z.Legal ==> StatusColor(Z.ZoneStatusName(s)) == GreenBadge
    ensures s == Z.Illegal ==> StatusColor(Z.ZoneStatusName(s)) == RedBadge
  {
  }

  /** The four severities get four distinct colours. */
  lemma SeverityColorsDistinct(a: Severity, b: Severity)
    requires a != b
    ensures SeverityColor(SeverityName(a)) != SeverityColor(SeverityName(b))
  {
  }

  // -------------------------------------------------------- badges in tables

  datatype BadgeVariant = Destructive | Secondary | Outline

  /** The complaints badge: destructive above 3, secondary above 0, outline otherwise. */
  function ComplaintBadge(v: V.Vendor): (b: BadgeVariant)
    ensures b == Destructive <==> v.totalComplaints > 3.0
    ensures b == Outline <==> v.totalComplaints <= 0.0
  {
    if v.totalComplaints > 3.0 then Destructive
    else if v.totalComplaints > 0.0 then Secondary
    else Outline
  }

  /** A vendor stored without total_complaints shows the outline badge. */
  lemma NoComplaintsRecordShowsOutline(r: V.VendorRecord)
    requires V.ValidRecord(r) && r.totalComplaints.None?
    ensures ComplaintBadge(V.Decode(r).value) == Outline
  {
  }

  /** The capacity cell `(current_vendors || 0)/(max_vendors || 0)`. */
  function CapacityShown(z: Z.Zone): (shown: (real, real))
    ensures shown.1 == 0.0 <==> z.maxVendors.None? || z.maxVendors == Some(0.0)
  {
    (z.currentVendors, z.maxVendors.GetOr(0.0))
  }

  /** The FULL badge: the shown current count has reached the shown maximum. */
  predicate ShowsFull(z: Z.Zone) {
    CapacityShown(z).0 >= CapacityShown(z).1
  }

  /** With a maximum set, FULL means the current count has reached it; with none,
      every zone whose count is not negative shows FULL. */
  lemma FullRule(z: Z.Zone)
    ensures z.maxVendors.Some? ==> (ShowsFull(z) <==> z.currentVendors >= z.maxVendors.value)
    ensures z.maxVendors.None? ==> (ShowsFull(z) <==> z.currentVendors >= 0.0)
  {
  }

  /** A zone stored with neither max_vendors nor current_vendors reads both as 0 and shows FULL. */
  lemma BareZoneRecordShowsFull(r: Z.ZoneRecord)
    requires Z.ValidRecord(r) && r.maxVendors.None? && r.currentVendors.None?
    ensures CapacityShown(Z.Decode(r).value) == (0.0, 0.0)
    ensures ShowsFull(Z.Decode(r).value)
  {
  }

  // ------------------------------------------------------------------- the page

  class AdminDashboardPage {
    var vendors: seq<Entity<V.Vendor>>
    var zones: seq<Entity<Z.Zone>>
    var reports: seq<Entity<HygieneReport>>
    var selectedReport: Option<Entity<HygieneReport>>
    var stats: Stats

    /** The counters always describe the snapshot the tables show. */
    predicate Consistent()
      reads this
    {
      stats == ComputeStats(vendors, zones, reports)
    }

    /** The tables show exactly what the store holds. */
    predicate Mirrors(store: EntityStore)
      reads this, store
    {
      vendors == store.vendors && zones == store.zones && reports == store.reports
    }

    constructor ()
      ensures Consistent()
      ensures vendors == [] && zones == [] && reports == [] && selectedReport == None && stats == InitialStats
    {
      vendors, zones, reports := [], [], [];
      selectedReport := None;
      stats := InitialStats;
      EmptySnapshotStats();
    }

    /** `loadData`: one snapshot of the three lists, then the counters. When a
        list call fails the promise rejects before any state is set. */
    method LoadData(store: EntityStore, fails: bool)
      requires Consistent()
      modifies this
      ensures Consistent()
      ensures selectedReport == old(selectedReport)
      ensures fails ==> vendors == old(vendors) && zones == old(zones) && reports == old(reports)
      ensures !fails ==> Mirrors(store)
    {
      if fails {
        return;
      }
      var vendorData, zoneData, reportData := store.vendors, store.zones, store.reports;
      vendors := vendorData;
      zones := zoneData;
      reports := reportData;
      stats := ComputeStats(vendorData, zoneData, reportData);
    }

    /** `updateReportStatus`: send the status patch; on success reload the page,
        on failure log and change nothing. */
    method UpdateReportStatus(store: EntityStore, reportId: Id, newStatus: ReportStatus, today: Date,
                              updateFails: bool, reloadFails: bool) returns (ok: bool)
      requires Consistent()
      modifies this, store
      ensures Consistent()
      ensures ok == (!updateFails && HasReport(old(store.reports), reportId))
      ensures store.reports == if ok then PatchReports(old(store.reports), reportId, StatusPatchFor(newStatus, today))
                               else old(store.reports)
      ensures store.vendors == old(store.vendors) && store.zones == old(store.zones)
      ensures selectedReport == old(selectedReport)
      ensures ok && !reloadFails ==> Mirrors(store)
      ensures !(ok && !reloadFails) ==> vendors == old(vendors) && zones == old(zones) && reports == old(reports)
    {
      ok := store.UpdateReport(reportId, StatusPatchFor(newStatus, today), updateFails);
      if ok {
        LoadData(store, reloadFails);
      }
    }

    /** A row's "Investigate" or "Resolve" button: shown only on the 20 visible
        rows and only for an open report. */
    method ActOnRow(store: EntityStore, row: nat, target: ReportStatus, today: Date,
                    updateFails: bool, reloadFails: bool) returns (ok: bool)
      requires Consistent()
      requires row < |VisibleReports(reports)|
      requires target in ReportActions(reports[row].data)
      modifies this, store
      ensures Consistent()
      ensures ok == (!updateFails && HasReport(old(store.reports), old(reports)[row].id))
      ensures store.reports == if ok then PatchReports(old(store.reports), old(reports)[row].id, StatusPatchFor(target, today))
                               else old(store.reports)
      ensures store.vendors == old(store.vendors) && store.zones == old(store.zones)
      ensures selectedReport == old(selectedReport)
      ensures ok && !reloadFails ==> Mirrors(store)
      ensures !(ok && !reloadFails) ==> vendors == old(vendors) && zones == old(zones) && reports == old(reports)
    {
      ok := UpdateReportStatus(store, reports[row].id, target, today, updateFails, reloadFails);
    }

    /** The eye button: open the detail view of a visible row. */
    method ViewReport(row: nat)
      requires Consistent()
      requires row < |VisibleReports(reports)|
      modifies this`selectedReport
      ensures Consistent()
      ensures selectedReport == Some(reports[row])
    {
      selectedReport := Some(reports[row]);
    }

    /** The detail view's close button or backdrop. */
    method CloseReport()
      modifies this`selectedReport
      ensures selectedReport == None
    {
      selectedReport := None;
    }

    /** "Mark Investigating" / "Mark Resolved" in the detail view: shown only for
        an open report; starts the update and closes the view at once. */
    method ActOnSelected(store: EntityStore, target: ReportStatus, today: Date,
                         updateFails: bool, reloadFails: bool) returns (ok: bool)
      requires Consistent()
      requires selectedReport.Some? && target in ReportActions(selectedReport.value.data)
      modifies this, store
      ensures Consistent()
      ensures selectedReport == None
      ensures ok == (!updateFails && HasReport(old(store.reports), old(selectedReport).value.id))
      ensures store.reports == if ok then PatchReports(old(store.reports), old(selectedReport).value.id,
                                                       StatusPatchFor(target, today))
                               else old(store.reports)
      ensures store.vendors == old(store.vendors) && store.zones == old(store.zones)
      ensures ok && !reloadFails ==> Mirrors(store)
      ensures !(ok && !reloadFails) ==> vendors == old(vendors) && zones == old(zones) && reports == old(reports)
    {
      var id := selectedReport.value.id;
      ok := UpdateReportStatus(store, id, target, today, updateFails, reloadFails);
      selectedReport := None;
    }
  }
}
