/** The remote entity store the pages read and write through `list`,
    `filter`, `create` and `update`. It is foreign code: here it is a class
    holding one sequence of records per entity, and whether a call fails (the
    network, the server) is a parameter. The report sequence is kept newest
    first, the order `list('-created_date')` returns; `filter` is taken to keep
    the store's order, which the page does not choose. */
module Store {
  import opened Common
  import opened Vendors
  import opened Zones
  import opened HygieneReports

  /** The partial record an update sends: a new status and a resolved date (null when None). */
  datatype StatusPatch = StatusPatch(status: ReportStatus, resolvedDate: Option<Date>)

  /** The fields of a report after an update with the given partial record. */
  function ApplyPatch(h: HygieneReport, p: StatusPatch): (r: HygieneReport)
    ensures r.status == p.status && r.resolvedDate == p.resolvedDate
    ensures r.(status := h.status, resolvedDate := h.resolvedDate) == h
  {
    h.(status := p.status, resolvedDate := p.resolvedDate)
  }

  /** The report sequence after `update(id, patch)`: the record with that identity
      is patched, every other record, and the order, stay as they were. */
  function PatchReports(rs: seq<Entity<HygieneReport>>, id: Id, p: StatusPatch): (r: seq<Entity<HygieneReport>>)
    ensures |r| == |rs|
    ensures forall i :: 0 <= i < |rs| ==> r[i].id == rs[i].id
    ensures forall i :: 0 <= i < |rs| && rs[i].id == id ==> r[i].data == ApplyPatch(rs[i].data, p)
    ensures forall i :: 0 <= i < |rs| && rs[i].id != id ==> r[i] == rs[i]
  {
    seq(|rs|, i requires 0 <= i < |rs| => if rs[i].id == id then Entity(id, ApplyPatch(rs[i].data, p)) else rs[i])
  }

  predicate HasReport(rs: seq<Entity<HygieneReport>>, id: Id) {
    exists i :: 0 <= i < |rs| && rs[i].id == id
  }

  /** The test `v.phone === phone` that `Vendor.filter({ phone })` applies. */
  function PhoneIs(phone: string): Entity<Vendor> -> bool {
    (v: Entity<Vendor>) => v.data.phone == phone
  }

  /** The test `v.zone_status === status`. */
  function ZoneStatusIs(status: VendorZoneStatus): Entity<Vendor> -> bool {
    (v: Entity<Vendor>) => v.data.zoneStatus == status
  }

  /** The test `r.vendor_id === vendorId` that `HygieneReport.filter({ vendor_id })` applies. */
  function LinkedTo(vendorId: Id): Entity<HygieneReport> -> bool {
    (r: Entity<HygieneReport>) => r.data.vendorId == Some(vendorId)
  }

  /** The test `r.status === status`. */
  function StatusIs(status: ReportStatus): Entity<HygieneReport> -> bool {
    (r: Entity<HygieneReport>) => r.data.status == status
  }

  /** `Vendor.filter({ phone })`: exact match on the phone text. */
  function VendorsWithPhone(vs: seq<Entity<Vendor>>, phone: string): seq<Entity<Vendor>> {
    Filter(vs, PhoneIs(phone))
  }

  /** `vendors.filter(v => v.zone_status === status)`. */
  function VendorsWithStatus(vs: seq<Entity<Vendor>>, status: VendorZoneStatus): seq<Entity<Vendor>> {
    Filter(vs, ZoneStatusIs(status))
  }

  /** `HygieneReport.filter({ vendor_id })`: the reports linked to the vendor. */
  function ReportsOfVendor(rs: seq<Entity<HygieneReport>>, vendorId: Id): seq<Entity<HygieneReport>> {
    Filter(rs, LinkedTo(vendorId))
  }

  /** `HygieneReport.filter({ status })`, and equally `reports.filter(r => r.status === status)`. */
  function ReportsWithStatus(rs: seq<Entity<HygieneReport>>, status: ReportStatus): seq<Entity<HygieneReport>> {
    Filter(rs, StatusIs(status))
  }

  /** The store hands out each identity once. */
  predicate UniqueIds<T>(es: seq<Entity<T>>) {
    forall i, j :: 0 <= i < j < |es| ==> es[i].id != es[j].id
  }

  class EntityStore {
    var vendors: seq<Entity<Vendor>>
    var zones: seq<Entity<Zone>>
    var reports: seq<Entity<HygieneReport>>

    constructor (vendors: seq<Entity<Vendor>>, zones: seq<Entity<Zone>>, reports: seq<Entity<HygieneReport>>)
      ensures this.vendors == vendors && this.zones == zones && this.reports == reports
    {
      this.vendors := vendors;
      this.zones := zones;
      this.reports := reports;
    }

    /** `HygieneReport.create(record)`: a schema-valid record is stored under the
        identity the store assigns (newId) and becomes the newest report; a failed
        call or a record the schema rejects changes nothing. The identity is new:
        no stored report has it, so distinct identities stay distinct. */
    method CreateReport(record: ReportRecord, newId: Id, fails: bool) returns (ok: bool)
      requires forall i :: 0 <= i < |reports| ==> reports[i].id != newId
      modifies this
      ensures ok == (!fails && HygieneReports.Decode(record).Some?)
      ensures reports == if ok then [Entity(newId, HygieneReports.Decode(record).value)] + old(reports) else old(reports)
      ensures vendors == old(vendors) && zones == old(zones)
      ensures UniqueIds(old(reports)) ==> UniqueIds(reports)
    {
      var decoded := HygieneReports.Decode(record);
      ok := !fails && decoded.Some?;
      if ok {
        reports := [Entity(newId, decoded.value)] + reports;
      }
    }

    /** `HygieneReport.update(id, patch)`: fails on a failed call or an unknown identity,
        and then changes nothing. */
    method UpdateReport(id: Id, patch: StatusPatch, fails: bool) returns (ok: bool)
      modifies this
      ensures ok == (!fails && HasReport(old(reports), id))
      ensures reports == if ok then PatchReports(old(reports), id, patch) else old(reports)
      ensures vendors == old(vendors) && zones == old(zones)
    {
      ok := !fails && HasReport(reports, id);
      if ok {
        reports := PatchReports(reports, id, patch);
      }
    }
  }
}
