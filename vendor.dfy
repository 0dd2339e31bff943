/** The Vendor entity schema: a registered street-food seller. Two closed
    enumerations, a hygiene score between 1 and 5, seven required fields,
    and defaults for the verified flag and the complaint count. */
module Vendors {
  import opened Common

  /** food_type: the ten listed kinds of food. */
  datatype FoodType = Chaat | Paratha | TeaSnacks | Fruit | IceCream | Juice | Breakfast | Lunch | Sweets | OtherFood

  const AllFoodTypes: seq<FoodType> :=
    [Chaat, Paratha, TeaSnacks, Fruit, IceCream, Juice, Breakfast, Lunch, Sweets, OtherFood]

  const FoodTypeNames: seq<string> :=
    ["chaat", "paratha", "tea_snacks", "fruit", "ice_cream", "juice", "breakfast", "lunch", "sweets", "other"]

  function FoodTypeName(t: FoodType): (s: string)
    ensures s == FoodTypeNames[FoodTypeIndex(t)] && ParseFoodType(s) == Some(t)
  {
    match t
    case Chaat => "chaat"
    case Paratha => "paratha"
    case TeaSnacks => "tea_snacks"
    case Fruit => "fruit"
    case IceCream => "ice_cream"
    case Juice => "juice"
    case Breakfast => "breakfast"
    case Lunch => "lunch"
    case Sweets => "sweets"
    case OtherFood => "other"
  }

  /** The schema's enum check for food_type. */
  function ParseFoodType(s: string): (r: Option<FoodType>)
    ensures r.Some? <==> s in FoodTypeNames
    ensures r.Some? ==> FoodTypeNames[FoodTypeIndex(r.value)] == s
  {
    if s == "chaat" then Some(Chaat)
    else if s == "paratha" then Some(Paratha)
    else if s == "tea_snacks" then Some(TeaSnacks)
    else if s == "fruit" then Some(Fruit)
    else if s == "ice_cream" then Some(IceCream)
    else if s == "juice" then Some(Juice)
    else if s == "breakfast" then Some(Breakfast)
    else if s == "lunch" then Some(Lunch)
    else if s == "sweets" then Some(Sweets)
    else if s == "other" then Some(OtherFood)
    else None
  }

  function FoodTypeIndex(t: FoodType): (i: nat)
    ensures i < |AllFoodTypes| && AllFoodTypes[i] == t
  {
    match t
    case Chaat => 0
    case Paratha => 1
    case TeaSnacks => 2
    case Fruit => 3
    case IceCream => 4
    case Juice => 5
    case Breakfast => 6
    case Lunch => 7
    case Sweets => 8
    case OtherFood => 9
  }

  /** zone_status: the vendor's legal vending status. */
  datatype VendorZoneStatus = Legal | Illegal | Pending | RelocateRequired

  const AllVendorZoneStatuses: seq<VendorZoneStatus> := [Legal, Illegal, Pending, RelocateRequired]

  const VendorZoneStatusNames: seq<string> := ["legal", "illegal", "pending", "relocate_required"]

  function VendorZoneStatusName(v: VendorZoneStatus): (s: string)
    ensures s == VendorZoneStatusNames[VendorZoneStatusIndex(v)] && ParseVendorZoneStatus(s) == Some(v)
  {
    match v
    case Legal => "legal"
    case Illegal => "illegal"
    case Pending => "pending"
    case RelocateRequired => "relocate_required"
  }

  function ParseVendorZoneStatus(s: string): (r: Option<VendorZoneStatus>)
    ensures r.Some? <==> s in VendorZoneStatusNames
    ensures r.Some? ==> VendorZoneStatusNames[VendorZoneStatusIndex(r.value)] == s
  {
    if s == "legal" then Some(Legal)
    else if s == "illegal" then Some(Illegal)
    else if s == "pending" then Some(Pending)
    else if s == "relocate_required" then Some(RelocateRequired)
    else None
  }

  function VendorZoneStatusIndex(v: VendorZoneStatus): (i: nat)
    ensures i < |AllVendorZoneStatuses| && AllVendorZoneStatuses[i] == v
  {
    match v
    case Legal => 0
    case Illegal => 1
    case Pending => 2
    case RelocateRequired => 3
  }

  /** hygiene_score: a JSON number with minimum 1 and maximum 5. */
  type HygieneScore = r: real | 1.0 <= r <= 5.0 witness 1.0

  /** The record as the entity API holds it: any field may be missing. */
  datatype VendorRecord = VendorRecord(
    name: Option<string>,
    businessName: Option<string>,
    phone: Option<string>,
    foodType: Option<string>,
    latitude: Option<real>,
    longitude: Option<real>,
    zoneStatus: Option<string>,
    hygieneScore: Option<real>,
    licenseNumber: Option<string>,
    address: Option<string>,
    area: Option<string>,
    verified: Option<bool>,
    totalComplaints: Option<real>,
    lastInspection: Option<Date>)

  /** A schema-valid vendor with the defaults for verified and total_complaints applied. */
  datatype Vendor = Vendor(
    name: string,
    businessName: Option<string>,
    phone: string,
    foodType: FoodType,
    latitude: real,
    longitude: real,
    zoneStatus: VendorZoneStatus,
    hygieneScore: HygieneScore,
    licenseNumber: Option<string>,
    address: Option<string>,
    area: Option<string>,
    verified: bool,
    totalComplaints: real,
    lastInspection: Option<Date>)

  const DefaultVerified: bool := false
  const DefaultTotalComplaints: real := 0.0

  /** The schema check: the seven required fields are present, the enumerated
      fields hold one of their names, and the hygiene score lies in [1, 5]. */
  predicate ValidRecord(r: VendorRecord) {
    && r.name.Some?
    && r.phone.Some?
    && r.foodType.Some? && r.foodType.value in FoodTypeNames
    && r.latitude.Some?
    && r.longitude.Some?
    && r.zoneStatus.Some? && r.zoneStatus.value in VendorZoneStatusNames
    && r.hygieneScore.Some? && 1.0 <= r.hygieneScore.value <= 5.0
  }

  /** Reads a stored record: fails exactly on schema-invalid records, fills in
      the defaults for verified and total_complaints, and carries the rest over. */
  function Decode(r: VendorRecord): (d: Option<Vendor>)
    ensures d.Some? <==> ValidRecord(r)
    ensures d.Some? ==> d.value.verified == r.verified.GetOr(DefaultVerified)
                        && d.value.totalComplaints == r.totalComplaints.GetOr(DefaultTotalComplaints)
    ensures d.Some? ==> && Some(d.value.name) == r.name
                        && Some(d.value.phone) == r.phone
                        && Some(FoodTypeName(d.value.foodType)) == r.foodType
                        && Some(VendorZoneStatusName(d.value.zoneStatus)) == r.zoneStatus
                        && Some(d.value.hygieneScore as real) == r.hygieneScore
                        && Some(d.value.latitude) == r.latitude
                        && Some(d.value.longitude) == r.longitude
                        && d.value.businessName == r.businessName
                        && d.value.licenseNumber == r.licenseNumber
                        && d.value.address == r.address
                        && d.value.area == r.area
                        && d.value.lastInspection == r.lastInspection
  {
    if r.name.None? || r.phone.None? || r.foodType.None? || r.latitude.None? || r.longitude.None?
       || r.zoneStatus.None? || r.hygieneScore.None?
    then None
    else
      var food := ParseFoodType(r.foodType.value);
      var status := ParseVendorZoneStatus(r.zoneStatus.value);
      var score := r.hygieneScore.value;
      if food.None? || status.None? || !(1.0 <= score <= 5.0) then None
      else Some(Vendor(r.name.value, r.businessName, r.phone.value, food.value, r.latitude.value, r.longitude.value,
                       status.value, score, r.licenseNumber, r.address, r.area,
                       r.verified.GetOr(DefaultVerified), r.totalComplaints.GetOr(DefaultTotalComplaints),
                       r.lastInspection))
  }

  /** Writes a vendor back as a record, every field with a value spelled out. */
  function Encode(v: Vendor): (r: VendorRecord)
    ensures ValidRecord(r) && r.verified.Some? && r.totalComplaints.Some?
  {
    VendorRecord(Some(v.name), v.businessName, Some(v.phone), Some(FoodTypeName(v.foodType)),
                 Some(v.latitude), Some(v.longitude), Some(VendorZoneStatusName(v.zoneStatus)),
                 Some(v.hygieneScore as real), v.licenseNumber, v.address, v.area,
                 Some(v.verified), Some(v.totalComplaints), v.lastInspection)
  }

  /** Writing a vendor and reading it back gives the same vendor. */
  lemma DecodeEncode(v: Vendor)
    ensures Decode(Encode(v)) == Some(v)
  {
  }

  /** Reading a valid record and writing it back gives the record with its two defaults made explicit. */
  lemma EncodeDecode(r: VendorRecord)
    requires ValidRecord(r)
    ensures Encode(Decode(r).value)
            == r.(verified := Some(r.verified.GetOr(DefaultVerified)),
                  totalComplaints := Some(r.totalComplaints.GetOr(DefaultTotalComplaints)))
  {
  }
}
