/** The Zone entity schema: an administratively defined vending area. Its
    status enumeration differs from the vendor's zone_status; its boundary is
    text to be decoded; capacity and average hygiene are optional and only the
    current vendor count has a default. */
module Zones {
  import opened Common

  /** status: legal, illegal, pending_approval, restricted. */
  datatype ZoneStatus = Legal | Illegal | PendingApproval | Restricted

  const AllZoneStatuses: seq<ZoneStatus> := [Legal, Illegal, PendingApproval, Restricted]

  const ZoneStatusNames: seq<string> := ["legal", "illegal", "pending_approval", "restricted"]

  function ZoneStatusName(v: ZoneStatus): (s: string)
    ensures s == ZoneStatusNames[ZoneStatusIndex(v)] && ParseZoneStatus(s) == Some(v)
  {
    match v
    case Legal => "legal"
    case Illegal => "illegal"
    case PendingApproval => "pending_approval"
    case Restricted => "restricted"
  }

  function ParseZoneStatus(s: string): (r: Option<ZoneStatus>)
    ensures r.Some? <==> s in ZoneStatusNames
    ensures r.Some? ==> ZoneStatusNames[ZoneStatusIndex(r.value)] == s
  {
    if s == "legal" then Some(Legal)
    else if s == "illegal" then Some(Illegal)
    else if s == "pending_approval" then Some(PendingApproval)
    else if s == "restricted" then Some(Restricted)
    else None
  }

  function ZoneStatusIndex(v: ZoneStatus): (i: nat)
    ensures i < |AllZoneStatuses| && AllZoneStatuses[i] == v
  {
    match v
    case Legal => 0
    case Illegal => 1
    case PendingApproval => 2
    case Restricted => 3
  }

  /** The record as the entity API holds it: any field may be missing. */
  datatype ZoneRecord = ZoneRecord(
    name: Option<string>,
    area: Option<string>,
    status: Option<string>,
    coordinates: Option<string>,
    maxVendors: Option<real>,
    currentVendors: Option<real>,
    restrictions: Option<string>,
    notificationDate: Option<Date>,
    hygieneAvg: Option<real>)

  /** A schema-valid zone. The boundary stays the serialized text the record
      holds; max_vendors and hygiene_avg stay optional; current_vendors has its default. */
  datatype Zone = Zone(
    name: string,
    area: string,
    status: ZoneStatus,
    coordinates: string,
    maxVendors: Option<real>,
    currentVendors: real,
    restrictions: Option<string>,
    notificationDate: Option<Date>,
    hygieneAvg: Option<real>)

  const DefaultCurrentVendors: real := 0.0

  /** The schema check: name, area, status and coordinates are present and the status is one of its names. */
  predicate ValidRecord(r: ZoneRecord) {
    && r.name.Some?
    && r.area.Some?
    && r.status.Some? && r.status.value in ZoneStatusNames
    && r.coordinates.Some?
  }

  /** Reads a stored record: fails exactly on schema-invalid records, fills in
      current_vendors, and leaves max_vendors and hygiene_avg absent when they are. */
  function Decode(r: ZoneRecord): (d: Option<Zone>)
    ensures d.Some? <==> ValidRecord(r)
    ensures d.Some? ==> d.value.currentVendors == r.currentVendors.GetOr(DefaultCurrentVendors)
    ensures d.Some? ==> && d.value.maxVendors == r.maxVendors
                        && d.value.hygieneAvg == r.hygieneAvg
                        && Some(d.value.name) == r.name
                        && Some(d.value.area) == r.area
                        && Some(ZoneStatusName(d.value.status)) == r.status
                        && Some(d.value.coordinates) == r.coordinates
                        && d.value.restrictions == r.restrictions
                        && d.value.notificationDate == r.notificationDate
  {
    if r.name.None? || r.area.None? || r.status.None? || r.coordinates.None? then None
    else
      var status := ParseZoneStatus(r.status.value);
      if status.None? then None
      else Some(Zone(r.name.value, r.area.value, status.value, r.coordinates.value, r.maxVendors,
                     r.currentVendors.GetOr(DefaultCurrentVendors), r.restrictions, r.notificationDate,
                     r.hygieneAvg))
  }

  /** Writes a zone back as a record, every field with a value spelled out. */
  function Encode(z: Zone): (r: ZoneRecord)
    ensures ValidRecord(r) && r.currentVendors.Some?
    ensures r.maxVendors == z.maxVendors && r.hygieneAvg == z.hygieneAvg
  {
    ZoneRecord(Some(z.name), Some(z.area), Some(ZoneStatusName(z.status)), Some(z.coordinates), z.maxVendors,
               Some(z.currentVendors), z.restrictions, z.notificationDate, z.hygieneAvg)
  }

  /** Writing a zone and reading it back gives the same zone. */
  lemma DecodeEncode(z: Zone)
    ensures Decode(Encode(z)) == Some(z)
  {
  }

  /** Reading a valid record and writing it back gives the record with current_vendors made explicit. */
  lemma EncodeDecode(r: ZoneRecord)
    requires ValidRecord(r)
    ensures Encode(Decode(r).value) == r.(currentVendors := Some(r.currentVendors.GetOr(DefaultCurrentVendors)))
  {
  }
}
