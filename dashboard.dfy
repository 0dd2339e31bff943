/** The public map page: zone outlines decoded from their coordinate text,
    zone and report colours, the five-star hygiene rating, the header counts
    and the compliance alert of the vendor panel. Everything here is a value
    computed from the snapshot the page fetched. */
module Dashboard {
  import opened Common
  import opened Store
  import opened HygieneReports
  import V = Vendors
  import Z = Zones
  import AdminDashboard

  // ------------------------------------------------------- coordinate text

  /** A JSON value as `JSON.parse` returns it. */
  datatype Json =
    | JNull
    | JBool(b: bool)
    | JNumber(n: real)
    | JString(s: string)
    | JArray(elems: seq<Json>)
    | JObject(members: seq<(string, Json)>)

  /** `parseCoordinates`: the decoded text, or the empty list when `JSON.parse`
      throws. The parser itself is a parameter: None is a thrown SyntaxError. */
  function ParseCoordinates(jsonParse: string -> Option<Json>, text: string): (c: Json)
    ensures jsonParse(text).None? ==> c == JArray([])
    ensures jsonParse(text).Some? ==> c == jsonParse(text).value
  {
    match jsonParse(text)
    case None => JArray([])
    case Some(j) => j
  }

  /** The position of an object's last member named `key`, or -1 when no
      member has that name. */
  function LastMemberIndex(members: seq<(string, Json)>, key: string): (k: int)
    ensures -1 <= k < |members|
    ensures k < 0 <==> forall i :: 0 <= i < |members| ==> members[i].0 != key
    ensures k >= 0 ==> members[k].0 == key
    ensures forall j :: k < j < |members| ==> members[j].0 != key
  {
    if members == [] then -1
    else if members[|members| - 1].0 == key then |members| - 1
    else LastMemberIndex(members[..|members| - 1], key)
  }

  /** The value of an object's last member named `key`, as `JSON.parse` keeps
      it when a key repeats; None when no member has that name. */
  function LastMember(members: seq<(string, Json)>, key: string): (v: Option<Json>)
    ensures v.None? <==> forall i :: 0 <= i < |members| ==> members[i].0 != key
    ensures v.Some? ==> exists k :: 0 <= k < |members| && members[k] == (key, v.value)
                                    && forall j :: k < j < |members| ==> members[j].0 != key
  {
    var k := LastMemberIndex(members, key);
    if k < 0 then None else Some(members[k].1)
  }

  /** What reading `.length` of a decoded value does in JavaScript: an array or
      a string has a length, `null` throws a TypeError, an object with a
      "length" member gives that member's value, anything else gives undefined. */
  datatype LengthRead = Throws | Undefined | Length(n: nat) | Member(value: Json)

  function LengthOf(j: Json): (l: LengthRead)
    ensures l.Throws? <==> j.JNull?
    ensures j.JArray? ==> l == Length(|j.elems|)
    ensures j.JString? ==> l == Length(|j.s|)
    ensures l.Length? <==> j.JArray? || j.JString?
    ensures l.Member? <==> j.JObject? && exists k :: 0 <= k < |j.members| && j.members[k].0 == "length"
    ensures l.Member? ==> Some(l.value) == LastMember(j.members, "length")
  {
    match j
    case JNull => Throws
    case JArray(xs) => Length(|xs|)
    case JString(s) => Length(|s|)
    case JObject(ms) =>
      (match LastMember(ms, "length")
       case Some(v) => Member(v)
       case None => Undefined)
    case _ => Undefined
  }

  /** `=== 0`: true only for the number zero, whatever produced it. */
  predicate IsZero(l: LengthRead) {
    l == Length(0) || l == Member(JNumber(0.0))
  }

  // ------------------------------------------------ zone outlines as written

  /** What the page does with one zone: skip it, hand its decoded value to the
      polygon layer, or throw while rendering. */
  datatype ZoneShape = Skipped | Drawn(positions: Json) | RenderFails

  /** The zone step of the map as written: decode, then skip when `.length === 0`. */
  function ZoneShapeAsWritten(jsonParse: string -> Option<Json>, text: string): (shape: ZoneShape)
    ensures shape.RenderFails? <==> jsonParse(text) == Some(JNull)
    ensures jsonParse(text).None? ==> shape == Skipped
    ensures shape.Drawn? ==> shape.positions == ParseCoordinates(jsonParse, text)
    ensures var c := ParseCoordinates(jsonParse, text);
            shape.Skipped? <==> c == JArray([]) || c == JString([])
                                || (c.JObject? && LastMember(c.members, "length") == Some(JNumber(0.0)))
  {
    var c := ParseCoordinates(jsonParse, text);
    var l := LengthOf(c);
    if l.Throws? then RenderFails
    else if IsZero(l) then Skipped
    else Drawn(c)
  }

  /** The test `zones.map` applies as written: the zone yields a polygon. */
  function DrawnAsWritten(jsonParse: string -> Option<Json>): Entity<Z.Zone> -> bool {
    (z: Entity<Z.Zone>) => ZoneShapeAsWritten(jsonParse, z.data.coordinates).Drawn?
  }

  /** The key and positions of the polygon a zone yields. */
  function PolygonOf(jsonParse: string -> Option<Json>): Entity<Z.Zone> -> (Id, Json) {
    (z: Entity<Z.Zone>) => (z.id, ParseCoordinates(jsonParse, z.data.coordinates))
  }

  /** The zone layer as written: the positions handed to the polygon layer, or
      None when rendering any zone throws, which takes the whole page down. */
  function MapZonesAsWritten(jsonParse: string -> Option<Json>, zs: seq<Entity<Z.Zone>>): (drawn: Option<seq<(Id, Json)>>)
    ensures drawn.None? <==> exists k :: 0 <= k < |zs| && ZoneShapeAsWritten(jsonParse, zs[k].data.coordinates).RenderFails?
    ensures drawn.Some? ==> |drawn.value| <= |zs|
  {
    if zs == [] then Some([])
    else
      var rest := MapZonesAsWritten(jsonParse, zs[1..]);
      assert forall k :: 0 <= k < |zs[1..]| ==> zs[1..][k] == zs[k + 1];
      match ZoneShapeAsWritten(jsonParse, zs[0].data.coordinates)
      case RenderFails => None
      case Skipped => rest
      case Drawn(c) => if rest.None? then None else Some([(zs[0].id, c)] + rest.value)
  }

  /** When nothing throws, the polygons are those of the zones that yield one,
      in the zones' order, one each, and no other. */
  lemma {:induction false} MapZonesInOrder(jsonParse: string -> Option<Json>, zs: seq<Entity<Z.Zone>>)
    requires MapZonesAsWritten(jsonParse, zs).Some?
    ensures MapZonesAsWritten(jsonParse, zs).value == Map(Filter(zs, DrawnAsWritten(jsonParse)), PolygonOf(jsonParse))
  {
    if zs != [] {
      MapZonesInOrder(jsonParse, zs[1..]);
      MapFilterCons(zs, DrawnAsWritten(jsonParse), PolygonOf(jsonParse));
    }
  }

  /** A zone whose coordinate text is `null` passes the schema (the text is
      present) and decodes without error, yet one such zone stops the map. */
  lemma {:induction false} NullCoordinatesBreakMap(jsonParse: string -> Option<Json>, zs: seq<Entity<Z.Zone>>, k: nat)
    requires k < |zs| && jsonParse(zs[k].data.coordinates) == Some(JNull)
    ensures MapZonesAsWritten(jsonParse, zs) == None
  {
    assert ZoneShapeAsWritten(jsonParse, zs[k].data.coordinates).RenderFails?;
  }

  /** The record behind such a zone is schema-valid: nothing upstream rejects it. */
  lemma NullCoordinatesRecordIsValid(r: Z.ZoneRecord)
    requires r.name.Some? && r.area.Some? && r.status == Some("legal") && r.coordinates == Some("null")
    ensures Z.ValidRecord(r)
    ensures Z.Decode(r).value.coordinates == "null"
  {
  }

  /** Text decoding to an object whose "length" member is 0 is skipped like
      an empty list; the same object with a non-zero "length" is drawn. */
  lemma ZeroLengthObjectSkipped(jsonParse: string -> Option<Json>, text: string, n: real)
    requires jsonParse(text) == Some(JObject([("length", JNumber(n))]))
    ensures ZoneShapeAsWritten(jsonParse, text).Skipped? <==> n == 0.0
  {
    assert LastMember([("length", JNumber(n))], "length") == Some(JNumber(n));
  }

  // -------------------------------------------------- zone outlines, corrected

  /** The outline of one zone: drawn exactly when its text decodes to a
      non-empty list; `null`, other non-lists and malformed text are skipped. */
  function ZoneOutline(jsonParse: string -> Option<Json>, z: Z.Zone): (outline: Option<seq<Json>>)
    ensures outline.Some? <==> jsonParse(z.coordinates).Some? && jsonParse(z.coordinates).value.JArray?
                               && jsonParse(z.coordinates).value.elems != []
    ensures outline.Some? ==> ParseCoordinates(jsonParse, z.coordinates) == JArray(outline.value)
  {
    match ParseCoordinates(jsonParse, z.coordinates)
    case JArray(xs) => if xs == [] then None else Some(xs)
    case _ => None
  }

  /** The test of the corrected layer: the zone has an outline. */
  function HasOutline(jsonParse: string -> Option<Json>): Entity<Z.Zone> -> bool {
    (z: Entity<Z.Zone>) => ZoneOutline(jsonParse, z.data).Some?
  }

  /** The key and outline of a zone, the outline being empty when it has none. */
  function OutlineOf(jsonParse: string -> Option<Json>): Entity<Z.Zone> -> (Id, seq<Json>) {
    (z: Entity<Z.Zone>) => (z.id, ZoneOutline(jsonParse, z.data).GetOr([]))
  }

  /** The zone layer: every zone with an outline, in order, and no other. It is
      total: no stored text can make it fail. */
  function DrawnZones(jsonParse: string -> Option<Json>, zs: seq<Entity<Z.Zone>>): (drawn: seq<(Id, seq<Json>)>)
    ensures |drawn| <= |zs|
    ensures forall i :: 0 <= i < |drawn| ==> drawn[i].1 != []
    ensures forall i :: 0 <= i < |drawn| ==>
              exists k :: 0 <= k < |zs| && zs[k].id == drawn[i].0 && ZoneOutline(jsonParse, zs[k].data) == Some(drawn[i].1)
    ensures forall k :: 0 <= k < |zs| && ZoneOutline(jsonParse, zs[k].data).Some? ==>
              (zs[k].id, ZoneOutline(jsonParse, zs[k].data).value) in drawn
  {
    if zs == [] then []
    else
      var rest := DrawnZones(jsonParse, zs[1..]);
      assert forall k :: 0 <= k < |zs[1..]| ==> zs[1..][k] == zs[k + 1];
      match ZoneOutline(jsonParse, zs[0].data)
      case None => rest
      case Some(xs) => [(zs[0].id, xs)] + rest
  }

  /** The corrected layer keeps the zones' order and draws each zone with an
      outline exactly once. */
  lemma {:induction false} DrawnZonesInOrder(jsonParse: string -> Option<Json>, zs: seq<Entity<Z.Zone>>)
    ensures DrawnZones(jsonParse, zs) == Map(Filter(zs, HasOutline(jsonParse)), OutlineOf(jsonParse))
  {
    if zs != [] {
      DrawnZonesInOrder(jsonParse, zs[1..]);
      MapFilterCons(zs, HasOutline(jsonParse), OutlineOf(jsonParse));
    }
  }

  /** The positions the page hands over, written back as JSON lists. */
  function AsPositions(drawn: seq<(Id, seq<Json>)>): (ps: seq<(Id, Json)>)
    ensures |ps| == |drawn|
    ensures forall i :: 0 <= i < |ps| ==> ps[i] == (drawn[i].0, JArray(drawn[i].1))
  {
    if drawn == [] then [] else [(drawn[0].0, JArray(drawn[0].1))] + AsPositions(drawn[1..])
  }

  /** Where every coordinate text is malformed or a list, the corrected layer
      draws exactly what the page as written draws. */
  lemma {:induction false} DrawnZonesAgree(jsonParse: string -> Option<Json>, zs: seq<Entity<Z.Zone>>)
    requires forall k :: 0 <= k < |zs| ==>
               jsonParse(zs[k].data.coordinates).None? || jsonParse(zs[k].data.coordinates).value.JArray?
    ensures MapZonesAsWritten(jsonParse, zs) == Some(AsPositions(DrawnZones(jsonParse, zs)))
  {
    if zs != [] {
      assert forall k :: 0 <= k < |zs[1..]| ==> zs[1..][k] == zs[k + 1];
      DrawnZonesAgree(jsonParse, zs[1..]);
      var rest := DrawnZones(jsonParse, zs[1..]);
      match ZoneOutline(jsonParse, zs[0].data)
      case None =>
      case Some(xs) =>
        assert AsPositions([(zs[0].id, xs)] + rest)[1..] == AsPositions(rest) by {
          assert ([(zs[0].id, xs)] + rest)[1..] == rest;
        }
    }
  }

  /** Text that does not parse is never drawn, neither as written nor corrected. */
  lemma MalformedCoordinatesSkipped(jsonParse: string -> Option<Json>, z: Z.Zone)
    requires jsonParse(z.coordinates).None?
    ensures ZoneShapeAsWritten(jsonParse, z.coordinates) == Skipped
    ensures ZoneOutline(jsonParse, z).None?
  {
  }

  // ------------------------------------------------------------ map colours

  const Green: string := "#22c55e"
  const Red: string := "#ef4444"
  const Amber: string := "#f59e0b"
  const Grey: string := "#6b7280"

  /** `getZoneColor`: restricted and unknown text share the grey default. */
  function ZoneColor(status: string): (c: string)
    ensures c == Grey <==> status !in ["legal", "illegal", "pending_approval"]
  {
    if status == "legal" then Green
    else if status == "illegal" then Red
    else if status == "pending_approval" then Amber
    else if status == "restricted" then Grey
    else Grey
  }

  /** Legal, illegal and pending_approval zones get three different colours. */
  lemma ZoneColorsDistinct(a: Z.ZoneStatus, b: Z.ZoneStatus)
    requires a != b && a != Z.Restricted && b != Z.Restricted
    ensures ZoneColor(Z.ZoneStatusName(a)) != ZoneColor(Z.ZoneStatusName(b))
  {
  }

  const CriticalRed: string := "#dc2626"
  const HighOrange: string := "#ea580c"
  const MediumAmber: string := "#d97706"
  const LowGreen: string := "#65a30d"

  /** The fill and outline of a report circle: low and unknown text share green. */
  function ReportCircleColor(severity: string): (c: string)
    ensures c == LowGreen <==> severity !in ["critical", "high", "medium"]
  {
    if severity == "critical" then CriticalRed
    else if severity == "high" then HighOrange
    else if severity == "medium" then MediumAmber
    else LowGreen
  }

  /** Critical, high and medium circles are told apart from each other and from low. */
  lemma SeverityCirclesDistinct(a: Severity, b: Severity)
    requires a != b
    ensures ReportCircleColor(SeverityName(a)) != ReportCircleColor(SeverityName(b))
  {
  }

  // ------------------------------------------------------- hygiene stars

  /** `getHygieneStars`: five stars, star i filled when i < score. */
  function HygieneStars(score: real): (stars: seq<bool>)
    ensures |stars| == 5
    ensures forall i :: 0 <= i < 5 ==> stars[i] == ((i as real) < score)
  {
    seq(5, i => (i as real) < score)
  }

  /** The number of filled stars. */
  function FilledStars(stars: seq<bool>): (n: nat)
    ensures n <= |stars|
  {
    if stars == [] then 0 else (if stars[0] then 1 else 0) + FilledStars(stars[1..])
  }

  function Repeat(b: bool, n: nat): (bs: seq<bool>)
    ensures |bs| == n && forall i :: 0 <= i < n ==> bs[i] == b
  {
    seq(n, _ => b)
  }

  lemma {:induction false} FilledStarsOfBlocks(a: nat, b: nat)
    ensures FilledStars(Repeat(true, a) + Repeat(false, b)) == a
  {
    var s := Repeat(true, a) + Repeat(false, b);
    if a > 0 {
      assert s[1..] == Repeat(true, a - 1) + Repeat(false, b);
      FilledStarsOfBlocks(a - 1, b);
    } else if b > 0 {
      assert s[1..] == Repeat(true, 0) + Repeat(false, b - 1);
      FilledStarsOfBlocks(0, b - 1);
    }
  }

  /** The filled stars come first: a row never shows an empty star before a filled one. */
  lemma FilledStarsFirst(score: real, i: nat, j: nat)
    requires i < j < 5 && HygieneStars(score)[j]
    ensures HygieneStars(score)[i]
  {
  }

  /** A score in (k - 1, k] fills exactly k stars: the rating rounds up. */
  lemma {:induction false} StarsRoundUp(score: real, k: nat)
    requires k <= 5 && (k as real) - 1.0 < score <= k as real
    ensures HygieneStars(score) == Repeat(true, k) + Repeat(false, 5 - k)
    ensures FilledStars(HygieneStars(score)) == k
  {
    var s := HygieneStars(score);
    forall i | 0 <= i < 5 ensures s[i] == (Repeat(true, k) + Repeat(false, 5 - k))[i] {
      assert s[i] == ((i as real) < score);
      assert (i as real) < score <==> i < k;
    }
    FilledStarsOfBlocks(k, 5 - k);
  }

  /** Every schema-valid vendor shows at least one filled star; all five only above 4. */
  lemma ValidScoreStars(score: V.HygieneScore)
    ensures HygieneStars(score as real)[0]
    ensures HygieneStars(score as real)[4] <==> score as real > 4.0
  {
  }

  // ------------------------------------------------------------ header

  /** The page fetches only the open reports. */
  function FetchedReports(rs: seq<Entity<HygieneReport>>): (fetched: seq<Entity<HygieneReport>>)
    ensures forall i :: 0 <= i < |fetched| ==> fetched[i] in rs && fetched[i].data.status == Open
    ensures forall i :: 0 <= i < |rs| && rs[i].data.status == Open ==> rs[i] in fetched
  {
    ReportsWithStatus(rs, Open)
  }

  datatype Header = Header(legal: nat, atRisk: nat, openReports: nat)

  /** The three header counts: legal vendors, vendors at risk (illegal) and the
      fetched reports. A vendor is counted at most once. */
  function HeaderCounts(vs: seq<Entity<V.Vendor>>, fetched: seq<Entity<HygieneReport>>): (h: Header)
    ensures h.legal + h.atRisk <= |vs|
    ensures h.openReports == |fetched|
  {
    FilterDisjoint(vs, ZoneStatusIs(V.Legal), ZoneStatusIs(V.Illegal));
    Header(|VendorsWithStatus(vs, V.Legal)|, |VendorsWithStatus(vs, V.Illegal)|, |fetched|)
  }

  /** On the same store the map header and the administrators' counters agree. */
  lemma HeaderMatchesAdminStats(vs: seq<Entity<V.Vendor>>, zs: seq<Entity<Z.Zone>>, rs: seq<Entity<HygieneReport>>)
    ensures var h, s := HeaderCounts(vs, FetchedReports(rs)), AdminDashboard.ComputeStats(vs, zs, rs);
            h.legal == s.legalVendors && h.atRisk == s.illegalVendors && h.openReports == s.openReports
  {
  }

  // ------------------------------------------------------- vendor panel

  /** The compliance alert card of the vendor panel. */
  predicate ShowsComplianceAlert(v: V.Vendor) {
    v.zoneStatus == V.Illegal
  }

  function AlertShownFor(): Entity<V.Vendor> -> bool {
    (v: Entity<V.Vendor>) => ShowsComplianceAlert(v.data)
  }

  /** The vendors whose panel carries the compliance alert are exactly the ones
      the header counts as at risk. */
  lemma AlertedVendorsAreAtRisk(vs: seq<Entity<V.Vendor>>, fetched: seq<Entity<HygieneReport>>)
    ensures Filter(vs, AlertShownFor()) == VendorsWithStatus(vs, V.Illegal)
    ensures |Filter(vs, AlertShownFor())| == HeaderCounts(vs, fetched).atRisk
  {
    FilterExtensional(vs, AlertShownFor(), ZoneStatusIs(V.Illegal));
  }
}
